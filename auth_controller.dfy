/** Registration, login and the single refresh-token session per user. */
module AuthController {
  import opened Base
  import opened Database
  import opened Crypto

  /** `registerSchema`: username of at least 3, a well-formed e-mail, password of at least 6. */
  predicate RegisterSchema(svc: Services, username: Option<string>, email: Option<string>, password: Option<string>) {
    && username.Some? && |username.value| >= 3
    && email.Some? && svc.isEmail(email.value)
    && password.Some? && |password.value| >= 6
  }

  /** `loginSchema`: a well-formed e-mail and a password of at least 6. */
  predicate LoginSchema(svc: Services, email: Option<string>, password: Option<string>) {
    && email.Some? && svc.isEmail(email.value)
    && password.Some? && |password.value| >= 6
  }

  /** Every body that passes the registration schema passes the login schema. */
  lemma RegisterImpliesLogin(svc: Services, username: Option<string>, email: Option<string>, password: Option<string>)
    requires RegisterSchema(svc, username, email, password)
    ensures LoginSchema(svc, email, password)
  {
  }

  /** `POST /auth/register`. A schema failure is caught by the handler's own `catch`
      and so reported as 500, not 400. */
  method RegisterUser(db: Store, svc: Services, username: Option<string>, email: Option<string>, password: Option<string>)
    returns (r: Reply<string>)
    requires db.Valid()
    modifies db
    ensures db.Valid()
    ensures !RegisterSchema(svc, username, email, password) ==>
      r == Err(500, "Register Error: " + svc.registerFailure(username, email, password)) && db.State() == old(db.State())
    ensures RegisterSchema(svc, username, email, password) && EmailTaken(old(db.users), email.value) ==>
      r == Err(400, "Email already exists") && db.State() == old(db.State())
    ensures RegisterSchema(svc, username, email, password) && !EmailTaken(old(db.users), email.value) ==>
      var u := User(old(db.clock), username.value, email.value, svc.hash(password.value), None, None, [], None);
      r == Ok(201, "User registered successfully") &&
      db.State() == old(db.State()).(users := old(db.users)[u.id := u], clock := old(db.clock) + 1)
  {
    if !RegisterSchema(svc, username, email, password) {
      return Err(500, "Register Error: " + svc.registerFailure(username, email, password));
    }
    if EmailTaken(db.users, email.value) {
      return Err(400, "Email already exists");
    }
    var _ := db.CreateUser(username.value, email.value, svc.hash(password.value));
    r := Ok(201, "User registered successfully");
  }

  /** The public part of a user that login and `getMe` answer with. */
  datatype Summary = Summary(id: Id, username: string, email: string)

  /** A successful login: the access token, the user, and the refresh token set as a cookie. */
  datatype Login = Login(accessToken: string, user: Summary, cookie: string)

  /** `POST /auth/login`. An unknown e-mail and a wrong password get the same answer.
      A body failing `loginSchema` throws before the `try`, so it reaches the error
      handler with no status of its own (500). */
  method LoginUser(db: Store, svc: Services, email: Option<string>, password: Option<string>)
    returns (r: Reply<Login>)
    requires db.Valid()
    modifies db
    ensures db.Valid()
    ensures !LoginSchema(svc, email, password) ==>
      r == Err(500, svc.loginFailure(email, password)) && db.State() == old(db.State())
    ensures LoginSchema(svc, email, password) && !EmailTaken(old(db.users), email.value) ==>
      r == Err(401, "Invalid email or password!") && db.State() == old(db.State())
    ensures LoginSchema(svc, email, password) && EmailTaken(old(db.users), email.value) ==>
      var k := UserWithEmail(old(db.users), email.value);
      var u := old(db.users)[k];
      if !svc.compare(password.value, u.password) then
        r == Err(401, "Invalid email or password!") && db.State() == old(db.State())
      else
        r == Ok(200, Login(svc.accessToken(k, u.username), Summary(k, u.username, u.email), svc.refreshToken(k))) &&
        db.State() == old(db.State()).(users := old(db.users)[k := u.(refreshToken := Some(svc.refreshToken(k)))])
  {
    if !LoginSchema(svc, email, password) {
      return Err(500, svc.loginFailure(email, password));
    }
    if !EmailTaken(db.users, email.value) {
      return Err(401, "Invalid email or password!");
    }
    var k :| k in db.users && db.users[k].email == email.value;
    assert k == UserWithEmail(db.users, email.value);
    var u := db.users[k];
    if !svc.compare(password.value, u.password) {
      return Err(401, "Invalid email or password!");
    }
    var access := svc.accessToken(u.id, u.username);
    var refresh := svc.refreshToken(u.id);
    db.users := db.users[k := u.(refreshToken := Some(refresh))];
    r := Ok(200, Login(access, Summary(u.id, u.username, u.email), refresh));
  }

  /** `POST /auth/refresh-token`: a new access token for the user the cookie's token
      names, only while that exact token is the one stored. A token that fails
      verification throws inside the `try`, so it is reported as 500. Nothing is stored. */
  function RefreshAccessToken(db: Store, svc: Services, cookie: Option<string>): (r: Reply<string>)
    reads db
    ensures !Given(cookie) <==> r == Err(401, "Token required")
    ensures Given(cookie) && svc.verifyRefresh(cookie.value).Failure? ==>
      r == Err(500, "Refresh Access Token Error: " + svc.verifyRefresh(cookie.value).error)
    ensures Given(cookie) && svc.verifyRefresh(cookie.value).Success? ==>
      var k := svc.verifyRefresh(cookie.value).value;
      if k in db.users && db.users[k].refreshToken == Some(cookie.value) then
        r == Ok(200, svc.accessToken(k, db.users[k].username))
      else
        r == Err(404, "User not found")
  {
    if !Given(cookie) then Err(401, "Token required")
    else match svc.verifyRefresh(cookie.value)
      case Failure(e) => Err(500, "Refresh Access Token Error: " + e)
      case Success(k) =>
        if k in db.users && db.users[k].refreshToken == Some(cookie.value) then
          Ok(200, svc.accessToken(k, db.users[k].username))
        else
          Err(404, "User not found")
  }

  /** The users `updateMany({ where: { refreshToken: cookie } })` selects. With no
      cookie the filter is `undefined`, which Prisma drops, so it selects everyone. */
  predicate LoggedInWith(u: User, cookie: Option<string>) {
    cookie.None? || u.refreshToken == Some(cookie.value)
  }

  /** `POST /auth/logout`: clears the cookie and nulls the stored token of every
      user holding the presented one. */
  method LogoutUser(db: Store, cookie: Option<string>) returns (r: Reply<string>)
    requires db.Valid()
    modifies db
    ensures db.Valid()
    ensures r == Ok(200, "Logged out successfully")
    ensures db.users.Keys == old(db.users).Keys
    ensures forall k :: k in db.users ==>
      db.users[k] == if LoggedInWith(old(db.users)[k], cookie)
                     then old(db.users)[k].(refreshToken := None) else old(db.users)[k]
    ensures db.State() == old(db.State()).(users := db.users)
  {
    db.users := map k | k in db.users ::
      if LoggedInWith(db.users[k], cookie) then db.users[k].(refreshToken := None) else db.users[k];
    r := Ok(200, "Logged out successfully");
  }

  /** `GET /auth/me`. */
  function GetMe(db: Store, me: Session): (r: Reply<Summary>)
    reads db
    requires db.Valid()
    ensures me.id !in db.users <==> r == Err(404, "User not found")
    ensures r.Ok? ==>
      r.status == 200 && r.value.id == me.id &&
      r.value.username == db.users[me.id].username && r.value.email == db.users[me.id].email
  {
    if me.id !in db.users then Err(404, "User not found")
    else var u := db.users[me.id]; Ok(200, Summary(u.id, u.username, u.email))
  }
}
