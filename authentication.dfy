/**
 * The authentication middleware (pkg/middlewares/authentication.go): an
 * EnsureAuth wraps a handler with the roles it admits; ServeHTTP decides from
 * the Authorization header and the users collection whether the handler runs,
 * and with which user.
 */
module Authentication {
  import opened Wrappers
  import opened ObjectIds
  import opened Errors
  import opened Models
  import opened Store
  import Text
  import Config
  import Jwt
  import AuthService

  const MissingHeader := "Missing Authorization Header"
  const VerifyingFailed := "Error verifying JWT token: "
  const InvalidHeader := "Invalid Authorization Header"
  const Forbidden := "Forbbiden Access"
  const Bearer := "Bearer "

  /** contains: a linear scan of the roles. */
  method Contains(s: seq<string>, x: string) returns (b: bool)
    ensures b <==> x in s
  {
    var i := 0;
    while i < |s|
      invariant 0 <= i <= |s|
      invariant x !in s[..i]
    {
      if s[i] == x {
        return true;
      }
      i := i + 1;
    }
    assert s[..i] == s;
    return false;
  }

  // ---- Token validation -------------------------------------------------------

  /** Middleware.ValidateAccessToken: user id and user type of a valid access token. */
  function ValidateAccessToken(token: string, keys: AuthService.KeyFiles, nowMs: int): (r: Result<(string, string), string>)
    ensures var p := Jwt.Parse(token, keys.accessPublic, AuthService.Seconds(nowMs));
      r.Ok? <==> p.Ok? && p.value.userId != "" && p.value.keyType == "access"
    ensures var p := Jwt.Parse(token, keys.accessPublic, AuthService.Seconds(nowMs));
      r.Ok? ==> r.value == (p.value.userId, p.value.userType)
  {
    match Jwt.Parse(token, keys.accessPublic, AuthService.Seconds(nowMs))
    case Err(e) => Err(Jwt.Message(e))
    case Ok(claims) =>
      if claims.userId == "" || claims.keyType != "access" then Err(AuthService.InvalidToken)
      else Ok((claims.userId, claims.userType))
  }

  /** Middleware.ValidateRefreshToken: the claims alone, without the stored slot. */
  function ValidateRefreshToken(token: string, keys: AuthService.KeyFiles, nowMs: int): (r: Result<string, string>)
    ensures var p := Jwt.Parse(token, keys.refreshPublic, AuthService.Seconds(nowMs));
      r.Ok? <==> p.Ok? && p.value.userId != "" && p.value.keyType == "refresh"
    ensures var p := Jwt.Parse(token, keys.refreshPublic, AuthService.Seconds(nowMs));
      r.Ok? ==> r.value == p.value.userId
  {
    match Jwt.Parse(token, keys.refreshPublic, AuthService.Seconds(nowMs))
    case Err(e) => Err(Jwt.Message(e))
    case Ok(claims) =>
      if claims.userId == "" || claims.keyType != "refresh" then Err(AuthService.InvalidToken)
      else Ok(claims.userId)
  }

  /** Whatever the service's refresh check admits, the middleware's admits with the same id. */
  lemma ServiceRefreshImpliesMiddleware(users: seq<User>, token: string, keys: AuthService.KeyFiles, nowMs: int)
    ensures AuthService.ValidateRefreshToken(users, token, keys, nowMs).Ok? ==>
      ValidateRefreshToken(token, keys, nowMs) == Ok(AuthService.ValidateRefreshToken(users, token, keys, nowMs).value.0)
  {
  }

  /** A refresh token is never an access token: the key pairs differ. */
  lemma RefreshTokenNotAccess(c: Config.Configurations, userId: string, issued: int, nowMs: int)
    ensures ValidateAccessToken(AuthService.RefreshToken(AuthService.Deployed, c, userId, issued), AuthService.Deployed, nowMs)
      == Err(Jwt.Message(Jwt.SignatureInvalid))
  {
  }

  // ---- ServeHTTP ----------------------------------------------------------------

  /** What ServeHTTP does: answer an error, or run the handler with the user (nil when None). */
  datatype Decision = Reject(error: RestError) | Run(user: Option<User>)

  function Unauthorized(message: string): (e: RestError)
    ensures e.code == 401 && e.message == message
  {
    RestError(message, 401, "")
  }

  /** The header with its first "Bearer " removed, wherever it occurs. */
  function Stripped(header: string): string
  {
    Text.ReplaceFirst(header, Bearer, "")
  }

  lemma StrippedBearer(token: string)
    ensures Stripped(Bearer + token) == token
  {
    var h := Bearer + token;
    assert Text.OccursAt(h, Bearer, 0) by { assert h[0..|Bearer|] == Bearer; }
    assert Text.IndexOf(h, Bearer) == Some(0);
    assert h[|Bearer|..] == token;
  }

  /**
   * `FindOne({_id: id, type: role})`: the stored user with that id, when its
   * type is the token's. An empty type is not stored (omitempty), so an
   * empty role finds nobody.
   */
  function FindCaller(users: seq<User>, id: ObjectId, role: string): (r: Option<User>)
    ensures r.Some? ==> r.value in users && r.value.id == id && r.value.kind == role && role != ""
    ensures UniqueKeys(users, UserId) ==> forall i :: 0 <= i < |users| && users[i].id == id && users[i].kind == role && role != "" ==>
      r == Some(users[i])
  {
    LookupOwnKeys(users, UserId);
    match Lookup(users, UserId, id)
    case None => None
    case Some(u) => if role != "" && u.kind == role then Some(u) else None
  }

  /** The user a non-empty header authenticates, or the 401 it earns. */
  function Caller(users: seq<User>, header: string, keys: AuthService.KeyFiles, nowMs: int): (r: Outcome<User>)
    ensures r.Err? ==> r.error.code == 401
    ensures r.Ok? <==>
      ValidateAccessToken(Stripped(header), keys, nowMs).Ok?
      && FromHex(ValidateAccessToken(Stripped(header), keys, nowMs).value.0).Ok?
      && FindCaller(users, FromHex(ValidateAccessToken(Stripped(header), keys, nowMs).value.0).value,
                    ValidateAccessToken(Stripped(header), keys, nowMs).value.1).Some?
    ensures r.Ok? ==> r == Ok(FindCaller(users, FromHex(ValidateAccessToken(Stripped(header), keys, nowMs).value.0).value,
                                         ValidateAccessToken(Stripped(header), keys, nowMs).value.1).value)
  {
    match ValidateAccessToken(Stripped(header), keys, nowMs)
    case Err(e) => Err(Unauthorized(VerifyingFailed + e))
    case Ok((userId, role)) =>
      match FromHex(userId)
      case Err(_) => Err(Unauthorized(InvalidHeader))
      case Ok(id) =>
        match FindCaller(users, id, role)
        case None => Err(Unauthorized(InvalidHeader))
        case Some(u) => Ok(u)
  }

  /**
   * ServeHTTP's decision: a protected route needs a header; a header must
   * authenticate a stored user; a user without a phone runs the handler with
   * nil; otherwise a protected route admits only the listed roles.
   */
  function Decide(users: seq<User>, header: string, roles: seq<string>, keys: AuthService.KeyFiles, nowMs: int)
    : (d: Decision)
    ensures header == "" ==> d == (if roles != [] then Reject(Unauthorized(MissingHeader)) else Run(None))
    ensures d.Reject? ==> d.error.code == 401 || (d.error.code == 403 && d.error.message == Forbidden)
    ensures d.Run? && d.user.Some? ==>
      d.user.value.phone != "" && (roles == [] || d.user.value.kind in roles)
  {
    if header == "" && roles != [] then Reject(Unauthorized(MissingHeader))
    else if header == "" then Run(None)
    else match Caller(users, header, keys, nowMs)
      case Err(e) => Reject(e)
      case Ok(u) =>
        if u.phone == "" then Run(None)
        else if roles != [] && u.kind !in roles then Reject(RestError(Forbidden, 403, ""))
        else Run(Some(u))
  }

  /** EnsureAuth.ServeHTTP over the header and the users collection of the request. */
  method ServeHTTP(users: seq<User>, header: string, roles: seq<string>, keys: AuthService.KeyFiles, nowMs: int)
    returns (d: Decision)
    ensures d == Decide(users, header, roles, keys, nowMs)
  {
    if |header| == 0 && |roles| != 0 {
      return Reject(Unauthorized(MissingHeader));
    }
    var user := None;
    if |header| != 0 {
      var token := Text.ReplaceFirst(header, Bearer, "");
      var validated := ValidateAccessToken(token, keys, nowMs);
      if validated.Err? {
        return Reject(Unauthorized(VerifyingFailed + validated.error));
      }
      var id := FromHex(validated.value.0);
      if id.Err? {
        return Reject(Unauthorized(InvalidHeader));
      }
      var found := FindCaller(users, id.value, validated.value.1);
      if found.None? {
        return Reject(Unauthorized(InvalidHeader));
      }
      user := found;
    }
    if user.None? || user.value.phone == "" {
      return Run(None);
    }
    var admitted := Contains(roles, user.value.kind);
    if |roles| != 0 && !admitted {
      return Reject(RestError(Forbidden, 403, ""));
    }
    d := Run(user);
  }

  /** A user handed to the handler is the stored user its valid access token names, with that token's type. */
  lemma RunSound(users: seq<User>, header: string, roles: seq<string>, keys: AuthService.KeyFiles, nowMs: int)
    requires Decide(users, header, roles, keys, nowMs).Run? && Decide(users, header, roles, keys, nowMs).user.Some?
    ensures var u := Decide(users, header, roles, keys, nowMs).user.value;
      var v := ValidateAccessToken(Stripped(header), keys, nowMs);
      u in users && v.Ok? && FromHex(v.value.0) == Ok(u.id) && u.kind == v.value.1
  {
  }

  /** "Bearer " and an unexpired access token issued for a stored user authenticate that user. */
  lemma IssuedCaller(users: seq<User>, i: nat, c: Config.Configurations, issued: int, nowMs: int)
    requires UniqueKeys(users, UserId) && i < |users| && users[i].kind != ""
    requires var exp := AuthService.AccessClaims(c, Hex(users[i].id), users[i].kind, issued).expiresAt;
      exp == 0 || AuthService.Seconds(nowMs) <= exp
    ensures var token := AuthService.GenerateAccessToken(AuthService.Deployed, c, Hex(users[i].id), users[i].kind, issued).value;
      Caller(users, Bearer + token, AuthService.Deployed, nowMs) == Ok(users[i])
  {
    var token := AuthService.GenerateAccessToken(AuthService.Deployed, c, Hex(users[i].id), users[i].kind, issued).value;
    StrippedBearer(token);
    HexRoundTrip(users[i].id);
    assert ValidateAccessToken(token, AuthService.Deployed, nowMs) == Ok((Hex(users[i].id), users[i].kind));
  }

  /**
   * A stored user with a phone and an admitted type, presenting "Bearer " and
   * an access token issued for it, runs the handler as itself until the
   * token's `exp`.
   */
  lemma LoggedInAdmitted(users: seq<User>, i: nat, roles: seq<string>, c: Config.Configurations, issued: int, nowMs: int)
    requires UniqueKeys(users, UserId) && i < |users|
    requires users[i].phone != "" && users[i].kind != "" && (roles == [] || users[i].kind in roles)
    requires var exp := AuthService.AccessClaims(c, Hex(users[i].id), users[i].kind, issued).expiresAt;
      exp == 0 || AuthService.Seconds(nowMs) <= exp
    ensures var token := AuthService.GenerateAccessToken(AuthService.Deployed, c, Hex(users[i].id), users[i].kind, issued).value;
      Decide(users, Bearer + token, roles, AuthService.Deployed, nowMs) == Run(Some(users[i]))
  {
    IssuedCaller(users, i, c, issued, nowMs);
  }

  /**
   * A user without a phone passes every role check: a valid token for such a
   * user runs even an admin-only handler, only with a nil user.
   */
  lemma PhonelessBypassesRoles(users: seq<User>, i: nat, roles: seq<string>, c: Config.Configurations, issued: int, nowMs: int)
    requires UniqueKeys(users, UserId) && i < |users| && users[i].phone == "" && users[i].kind != ""
    requires var exp := AuthService.AccessClaims(c, Hex(users[i].id), users[i].kind, issued).expiresAt;
      exp == 0 || AuthService.Seconds(nowMs) <= exp
    ensures var token := AuthService.GenerateAccessToken(AuthService.Deployed, c, Hex(users[i].id), users[i].kind, issued).value;
      Decide(users, Bearer + token, roles, AuthService.Deployed, nowMs) == Run(None)
  {
    IssuedCaller(users, i, c, issued, nowMs);
  }

  /** A user whose type is not listed is refused with 403 on a protected route. */
  lemma OtherRoleForbidden(users: seq<User>, i: nat, roles: seq<string>, c: Config.Configurations, issued: int, nowMs: int)
    requires UniqueKeys(users, UserId) && i < |users|
    requires users[i].phone != "" && users[i].kind != "" && roles != [] && users[i].kind !in roles
    requires var exp := AuthService.AccessClaims(c, Hex(users[i].id), users[i].kind, issued).expiresAt;
      exp == 0 || AuthService.Seconds(nowMs) <= exp
    ensures var token := AuthService.GenerateAccessToken(AuthService.Deployed, c, Hex(users[i].id), users[i].kind, issued).value;
      Decide(users, Bearer + token, roles, AuthService.Deployed, nowMs) == Reject(RestError(Forbidden, 403, ""))
  {
    IssuedCaller(users, i, c, issued, nowMs);
  }
}
