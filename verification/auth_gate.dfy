/** The `auth(...requiredRoles)` middleware: read the Authorization header,
    strip a "Bearer " prefix, verify the token (an oracle: `verify` returns the
    token's claims or None when the token library throws), load the user the
    token names, and check that user's stored role against the route's list. */
module AuthGate {
  import opened Common
  import opened Enums
  import opened Accounts

  const BEARER := "Bearer "

  /** What a request carries into the gate: the header, the token verifier and
      the user table it is checked against. */
  datatype Credentials = Credentials(header: Option<string>, verify: string -> Option<TokenUser>, users: Users)

  /** How a middleware hands over: to the next stage, or to the error handler. */
  datatype Next = Proceed | Fail(error: Error)

  /** `token.startsWith('Bearer ') ? token.slice(7) : token` */
  function StripBearer(header: string): (t: string)
    ensures StartsWith(header, BEARER) ==> BEARER + t == header
    ensures !StartsWith(header, BEARER) ==> t == header
  {
    if StartsWith(header, BEARER) then header[|BEARER|..] else header
  }

  /** A token sent with the prefix is recovered exactly. */
  lemma StripBearerRoundTrip(token: string)
    ensures StripBearer(BEARER + token) == token
  {
    assert (BEARER + token)[..|BEARER|] == BEARER;
  }

  /** The claims of the presented token, when it verifies. */
  function Claims(c: Credentials): (r: Option<TokenUser>)
    ensures !Truthy(c.header) ==> r.None?
  {
    if !Truthy(c.header) then None else c.verify(StripBearer(c.header.value))
  }

  /** The stored user the request speaks for: present only when the header is
      there, the token verifies and its id names a stored user. */
  function Identity(c: Credentials): (u: Option<User>)
    ensures u.Some? ==> Claims(c).Some? && Claims(c).value.id in c.users && u.value == c.users[Claims(c).value.id]
    ensures u.None? ==> Claims(c).None? || Claims(c).value.id !in c.users
  {
    match Claims(c)
    case None => None
    case Some(claims) => if claims.id in c.users then Some(c.users[claims.id]) else None
  }

  function RoleNames(roles: seq<Role>): (r: seq<string>)
    ensures |r| == |roles| && forall i | 0 <= i < |roles| :: r[i] == RoleName(roles[i])
  {
    seq(|roles|, i requires 0 <= i < |roles| => RoleName(roles[i]))
  }

  /** The 403 text: "Only <roles joined by ", "> can access this resource". */
  function ForbiddenMessage(required: seq<Role>): string {
    "Only " + Join(RoleNames(required), ", ") + " can access this resource"
  }

  /** The middleware's decision: the token's claims on admission, otherwise the
      error of the first check that failed. */
  function Decide(c: Credentials, required: seq<Role>): (r: Result<TokenUser>)
    ensures !Truthy(c.header) ==> r == Err(AppError(UNAUTHORIZED, "You are not authorized! Please login first."))
    ensures Truthy(c.header) && Claims(c).None? ==> r == Err(TokenError)
    ensures Claims(c).Some? && Identity(c).None? ==> r == Err(AppError(UNAUTHORIZED, "User does not exist! Please login again."))
    ensures Identity(c).Some? && |required| > 0 && Identity(c).value.role !in required ==>
      r == Err(AppError(FORBIDDEN, ForbiddenMessage(required)))
    ensures r.Ok? <==> Identity(c).Some? && (|required| == 0 || Identity(c).value.role in required)
    ensures r.Ok? ==> Claims(c) == Some(r.value)
  {
    if !Truthy(c.header) then Err(AppError(UNAUTHORIZED, "You are not authorized! Please login first."))
    else
      var tokenWithoutBearer := StripBearer(c.header.value);
      match c.verify(tokenWithoutBearer)
      case None => Err(TokenError)
      case Some(verifiedUser) =>
        if verifiedUser.id !in c.users then Err(AppError(UNAUTHORIZED, "User does not exist! Please login again."))
        else if |required| > 0 && c.users[verifiedUser.id].role !in required then
          Err(AppError(FORBIDDEN, ForbiddenMessage(required)))
        else Ok(verifiedUser)
  }

  /** The role that is checked is the stored one: a token claiming a different
      role for the same user gets the same decision. */
  lemma StoredRoleDecides(c: Credentials, forged: string -> Option<TokenUser>, required: seq<Role>)
    requires Truthy(c.header)
    requires forall t :: (forged(t).Some? <==> c.verify(t).Some?) &&
                         (forged(t).Some? ==> forged(t).value.id == c.verify(t).value.id)
    ensures Decide(c.(verify := forged), required).Ok? <==> Decide(c, required).Ok?
  {
  }

  /** An empty role list admits exactly the requests that name a stored user. */
  lemma EmptyRoleListAdmitsEveryUser(c: Credentials)
    ensures Decide(c, []).Ok? <==> Identity(c).Some?
  {
  }

  /** Adding roles to the list never turns an admission into a refusal. */
  lemma WiderListAdmitsMore(c: Credentials, required: seq<Role>, more: seq<Role>)
    requires |required| > 0
    requires forall r | r in required :: r in more
    ensures Decide(c, required).Ok? ==> Decide(c, more).Ok?
  {
  }

  /** The parts of an Express request the gate reads and writes. */
  class Request {
    var authorization: Option<string>
    var user: Option<TokenUser>

    constructor (authorization: Option<string>)
      ensures this.authorization == authorization && user.None?
    {
      this.authorization := authorization;
      user := None;
    }
  }

  /** The middleware body: `req.user` is set to the verified claims only after
      every check passed; any failure is handed on and leaves `req.user` alone. */
  method Authenticate(req: Request, verify: string -> Option<TokenUser>, users: UserTable, required: seq<Role>)
    returns (next: Next)
    modifies req
    ensures req.authorization == old(req.authorization)
    ensures var d := Decide(Credentials(req.authorization, verify, users.rows), required);
      (d.Ok? ==> next == Proceed && req.user == Some(d.value)) &&
      (d.Err? ==> next == Fail(d.error) && req.user == old(req.user))
  {
    var token := req.authorization;
    if !Truthy(token) {
      return Fail(AppError(UNAUTHORIZED, "You are not authorized! Please login first."));
    }
    var tokenWithoutBearer := StripBearer(token.value);
    var verifiedUser := verify(tokenWithoutBearer);
    if verifiedUser.None? {
      return Fail(TokenError);
    }
    if verifiedUser.value.id !in users.rows {
      return Fail(AppError(UNAUTHORIZED, "User does not exist! Please login again."));
    }
    var user := users.rows[verifiedUser.value.id];
    if |required| > 0 && user.role !in required {
      return Fail(AppError(FORBIDDEN, ForbiddenMessage(required)));
    }
    req.user := verifiedUser;
    next := Proceed;
  }
}
