/** `protect`: turns the Authorization header into `req.user`, or stops the request with 401. */
module AuthMiddleware {
  import opened Base
  import opened Text
  import opened Database
  import opened Crypto

  /** `req.header("Authorization")?.replace("Bearer ", "")`: the first "Bearer "
      anywhere in the header is removed, not only a leading one. */
  function ExtractToken(header: Option<string>): (t: Option<string>)
    ensures header.None? <==> t.None?
    ensures header.Some? && (forall i: nat :: !OccursAt(header.value, "Bearer ", i)) ==> t == header
  {
    match header
    case None => None
    case Some(h) => Some(ReplaceFirst(h, "Bearer ", ""))
  }

  /** A well-formed header gives back exactly the token after the scheme. */
  lemma ExtractBearer(token: string)
    ensures ExtractToken(Some("Bearer " + token)) == Some(token)
  {
    ReplaceLeading("Bearer ", token, "");
    assert "" + token == token;
  }

  /** The scheme is removed wherever it first occurs: "xBearer y" gives "xy". */
  lemma ExtractInside()
    ensures ExtractToken(Some("xBearer y")) == Some("xy")
  {
    var h := "xBearer y";
    assert !OccursAt(h, "Bearer ", 0) by { assert h[0..7][0] != 'B'; }
    assert OccursAt(h, "Bearer ", 1) by { assert h[1..8] == "Bearer "; }
    assert forall j: nat :: j < 1 ==> !OccursAt(h, "Bearer ", j);
    assert ReplaceFirst(h, "Bearer ", "") == h[..1] + "" + h[8..];
    assert h[..1] + "" + h[8..] == "xy";
  }

  /** What `protect` passes to `next`: nothing (carry on) or an error. */
  datatype Next = Proceed | Stop(status: nat, message: string)

  /** The decision `protect` makes from the header alone. */
  function Authenticate(header: Option<string>, verify: string -> Result<Claims>): (a: Result<Session>)
    ensures !Given(ExtractToken(header)) ==> a == Failure("Token required")
    ensures Given(ExtractToken(header)) && verify(ExtractToken(header).value).Failure? ==>
      a == Failure("Auth Error: " + verify(ExtractToken(header).value).error)
    ensures a.Success? <==>
      Given(ExtractToken(header)) && verify(ExtractToken(header).value).Success?
    ensures a.Success? ==>
      var c := verify(ExtractToken(header).value).value;
      a.value == Session(c.userId, c.username)
  {
    var token := ExtractToken(header);
    if !Given(token) then Failure("Token required")
    else match verify(token.value)
      case Failure(e) => Failure("Auth Error: " + e)
      case Success(c) => Success(Session(c.userId, c.username))
  }

  /** A request as the middleware sees it; `user` is what `protect` fills in. */
  class Request {
    var user: Option<Session>

    constructor ()
      ensures user.None?
    {
      user := None;
    }
  }

  /** `protect`: `next` is called once on every path, with an error exactly when
      authentication failed, and `req.user` is set only when it succeeded. */
  method Protect(req: Request, header: Option<string>, svc: Services) returns (n: Next)
    modifies req
    ensures Authenticate(header, svc.verifyAccess).Failure? ==>
      n == Stop(401, Authenticate(header, svc.verifyAccess).error) && req.user == old(req.user)
    ensures Authenticate(header, svc.verifyAccess).Success? ==>
      n == Proceed && req.user == Some(Authenticate(header, svc.verifyAccess).value)
  {
    var token := ExtractToken(header);
    if !Given(token) {
      return Stop(401, "Token required");
    }
    match svc.verifyAccess(token.value)
    case Failure(e) =>
      n := Stop(401, "Auth Error: " + e);
    case Success(c) =>
      req.user := Some(Session(c.userId, c.username));
      n := Proceed;
  }
}
