/** The libraries the authentication code calls, given to it as functions: the
    model does not look inside bcrypt, JSON Web Tokens or zod's e-mail check. */
module Crypto {
  import opened Base
  import opened Database

  /** The claims of an access token. */
  datatype Claims = Claims(userId: Id, username: string)

  datatype Services = Services(
    isEmail: string -> bool,                      // z.string().email()
    // `${error}` for the ZodError registerSchema.parse throws on (username, email, password)
    registerFailure: (Option<string>, Option<string>, Option<string>) -> string,
    // the message of the ZodError loginSchema.parse throws on (email, password)
    loginFailure: (Option<string>, Option<string>) -> string,
    hash: string -> string,                       // bcrypt.hash(password, 10)
    compare: (string, string) -> bool,            // bcrypt.compare(plain, hashed)
    accessToken: (Id, string) -> string,          // generateAccessToken(userId, username)
    refreshToken: Id -> string,                   // generateRefreshToken(userId)
    verifyAccess: string -> Result<Claims>,       // jwt.verify(token, ACCESS_SECRET)
    verifyRefresh: string -> Result<Id>)          // jwt.verify(token, REFRESH_SECRET).userId
}
