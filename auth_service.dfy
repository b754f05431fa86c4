/**
 * AuthService (pkg/services/auth.service.go): login, the two token kinds, the
 * single refresh-token slot of each user and its validation. The clock is a
 * parameter in Unix milliseconds; the PEM key files are what each configured
 * path yields.
 */
module AuthService {
  import opened Wrappers
  import opened ObjectIds
  import opened Errors
  import opened Models
  import opened Store
  import Pipeline
  import opened Query
  import Config
  import Jwt
  import UserService

  /** The key pair each configured PEM file yields, or None when it cannot be read or parsed. */
  datatype KeyFiles = KeyFiles(
    accessPrivate: Option<Jwt.KeyPair>, accessPublic: Option<Jwt.KeyPair>,
    refreshPrivate: Option<Jwt.KeyPair>, refreshPublic: Option<Jwt.KeyPair>)

  /** The deployment the service expects: two distinct pairs, both halves of each readable. */
  const Deployed := KeyFiles(Some(Jwt.AccessPair), Some(Jwt.AccessPair), Some(Jwt.RefreshPair), Some(Jwt.RefreshPair))

  const Issuer := "booksland.auth.service"
  const KeyError := "could not generate refresh token. please try again later"
  const TokenGenerationFailed := "Error on Token generation"
  const InvalidToken := "invalid token: authentication failed"
  const LoggedOut := "  "

  /** time.Unix() of the clock: whole seconds, rounded down. */
  function Seconds(nowMs: int): int
  {
    nowMs / 1000
  }

  // ---- Token generation -----------------------------------------------------

  /** The claims of an access token: `exp` is JwtExpiration minutes from now. */
  function AccessClaims(c: Config.Configurations, userId: string, userType: string, nowMs: int): (claims: Jwt.Claims)
    ensures claims.keyType == "access" && claims.issuer == Issuer
    ensures claims.userId == userId && claims.userType == userType
    ensures claims.expiresAt == Seconds(nowMs) + 60 * c.jwtExpiration
  {
    Jwt.Claims(userId, "access", userType, Seconds(nowMs) + 60 * c.jwtExpiration, Issuer)
  }

  /** The claims of a refresh token: no user type, `exp` RefreshJwtExpiration minutes from now. */
  function RefreshClaims(c: Config.Configurations, userId: string, nowMs: int): (claims: Jwt.Claims)
    ensures claims.keyType == "refresh" && claims.issuer == Issuer
    ensures claims.userId == userId && claims.userType == ""
    ensures claims.expiresAt == Seconds(nowMs) + 60 * c.refreshJwtExpiration
  {
    Jwt.Claims(userId, "refresh", "", Seconds(nowMs) + 60 * c.refreshJwtExpiration, Issuer)
  }

  /** GenerateAccessToken: the access claims signed with the access private key. */
  function GenerateAccessToken(keys: KeyFiles, c: Config.Configurations, userId: string, userType: string, nowMs: int)
    : (r: Result<string, string>)
    ensures keys.accessPrivate.None? <==> r == Err(KeyError)
    ensures r.Ok? ==> Jwt.Decode(r.value) == Some(Jwt.Token(Jwt.RS256, AccessClaims(c, userId, userType, nowMs), keys.accessPrivate.value))
  {
    match keys.accessPrivate
    case None => Err(KeyError)
    case Some(k) => Ok(Jwt.Sign(AccessClaims(c, userId, userType, nowMs), k))
  }

  /** The refresh token GenerateRefreshToken signs, when its key loads. */
  function RefreshToken(keys: KeyFiles, c: Config.Configurations, userId: string, nowMs: int): (token: string)
    requires keys.refreshPrivate.Some?
    ensures Jwt.Decode(token) == Some(Jwt.Token(Jwt.RS256, RefreshClaims(c, userId, nowMs), keys.refreshPrivate.value))
  {
    Jwt.Sign(RefreshClaims(c, userId, nowMs), keys.refreshPrivate.value)
  }

  /** UpdateUser{RefreshToken: token}. */
  function RefreshOnly(token: string): UpdateUser
  {
    UpdateUser("", "", "", [], "", Verified(false, false), token, 0)
  }

  /** StoreRefreshToken: UpdateById with only the refresh token set. */
  method StoreRefreshToken(uc: Collection<User>, userId: string, token: string) returns (r: Outcome<User>)
    requires UniqueKeys(uc.docs, UserId)
    modifies uc
    ensures UniqueKeys(uc.docs, UserId)
    ensures FromHex(userId).Err? ==> r == Err(NotFound(InvalidUserId)) && uc.docs == old(uc.docs)
    ensures FromHex(userId).Ok? ==> match IndexOfKey(old(uc.docs), UserId, FromHex(userId).value)
      case None => r == Err(InternalErr(NoDocuments)) && uc.docs == old(uc.docs)
      case Some(i) => uc.docs == old(uc.docs)[i := ApplyUpdateUser(old(uc.docs)[i], RefreshOnly(token))]
  {
    r := UserService.UpdateById(uc, userId, RefreshOnly(token));
  }

  /** A stored token replaces the slot (and resets `verified`, which is always written); nothing else changes. */
  lemma StoredSlot(u: User, token: string)
    requires token != ""
    ensures ApplyUpdateUser(u, RefreshOnly(token)) == u.(refreshToken := token, verified := Verified(false, false))
  {
  }

  /**
   * GenerateRefreshToken: the refresh claims are signed with the refresh
   * private key and the token is stored in the user's slot, whatever that
   * store answers.
   */
  method GenerateRefreshToken(uc: Collection<User>, keys: KeyFiles, c: Config.Configurations, userId: string, nowMs: int)
    returns (r: Result<string, string>)
    requires UniqueKeys(uc.docs, UserId)
    modifies uc
    ensures UniqueKeys(uc.docs, UserId)
    ensures keys.refreshPrivate.None? ==> r == Err(KeyError) && uc.docs == old(uc.docs)
    ensures keys.refreshPrivate.Some? ==>
      var token := RefreshToken(keys, c, userId, nowMs);
      r == Ok(token)
      && (FromHex(userId).Err? ==> uc.docs == old(uc.docs))
      && (FromHex(userId).Ok? ==> match IndexOfKey(old(uc.docs), UserId, FromHex(userId).value)
          case None => uc.docs == old(uc.docs)
          case Some(i) => uc.docs == old(uc.docs)[i := ApplyUpdateUser(old(uc.docs)[i], RefreshOnly(token))])
  {
    if keys.refreshPrivate.None? {
      return Err(KeyError);
    }
    var token := Jwt.Sign(RefreshClaims(c, userId, nowMs), keys.refreshPrivate.value);
    var _ := StoreRefreshToken(uc, userId, token);
    r := Ok(token);
  }

  // ---- Login ------------------------------------------------------------------

  /** `(now + int64(minutes*60000)) - 15*60*1000`, in int64 arithmetic. */
  function TokenExpiry(c: Config.Configurations, nowMs: int): int
  {
    Pipeline.Wrap64(Pipeline.Wrap64(nowMs + Pipeline.Wrap64(c.jwtExpiration * 60000)) - 15 * 60 * 1000)
  }

  /** `now + int64(minutes*60000)`, in int64 arithmetic. */
  function RefreshTokenExpiry(c: Config.Configurations, nowMs: int): int
  {
    Pipeline.Wrap64(nowMs + Pipeline.Wrap64(c.refreshJwtExpiration * 60000))
  }

  /** Without overflow the advertised expiries are the plain sums: the access one 15 minutes early. */
  lemma ExpiriesInRange(c: Config.Configurations, nowMs: int)
    requires 0 <= nowMs <= 0x1_0000_0000_0000 && 0 <= c.jwtExpiration <= 0x1_0000_0000 && 0 <= c.refreshJwtExpiration <= 0x1_0000_0000
    ensures TokenExpiry(c, nowMs) == nowMs + c.jwtExpiration * 60000 - 900000
    ensures RefreshTokenExpiry(c, nowMs) == nowMs + c.refreshJwtExpiration * 60000
  {
    assert c.jwtExpiration * 60000 <= 0x1_0000_0000 * 60000;
    assert c.refreshJwtExpiration * 60000 <= 0x1_0000_0000 * 60000;
  }

  /** The user Login answers: the stored user with both tokens, their expiries and no password. */
  function LoggedIn(u: User, access: string, refresh: string, c: Config.Configurations, nowMs: int): (r: User)
    ensures r.token == access && r.refreshToken == refresh && r.password == ""
    ensures r.(token := u.token, refreshToken := u.refreshToken, password := u.password,
               tokenExpiry := u.tokenExpiry, refreshTokenExpiry := u.refreshTokenExpiry) == u
  {
    u.(token := access, tokenExpiry := TokenExpiry(c, nowMs), refreshToken := refresh,
       refreshTokenExpiry := RefreshTokenExpiry(c, nowMs), password := "")
  }

  /**
   * Login: the credentials are checked, an access token issued for the user's
   * id and type, then a refresh token issued and stored in the user's slot.
   */
  method Login(uc: Collection<User>, login: LoginUser, hasher: UserService.Hasher, keys: KeyFiles,
               c: Config.Configurations, nowMs: int)
    returns (r: Outcome<User>)
    requires UniqueKeys(uc.docs, UserId)
    modifies uc
    ensures UniqueKeys(uc.docs, UserId)
    ensures var found := UserService.FindUsernameAndPassword(old(uc.docs), login.username, login.password, hasher);
      found.Err? ==> r == Err(found.error) && uc.docs == old(uc.docs)
    ensures var found := UserService.FindUsernameAndPassword(old(uc.docs), login.username, login.password, hasher);
      found.Ok? && (keys.accessPrivate.None? || keys.refreshPrivate.None?) ==>
      r == Err(RestError(TokenGenerationFailed, 500, KeyError)) && uc.docs == old(uc.docs)
    ensures var found := UserService.FindUsernameAndPassword(old(uc.docs), login.username, login.password, hasher);
      found.Ok? && keys.accessPrivate.Some? && keys.refreshPrivate.Some? ==>
      var u := found.value;
      var i := IndexOfKey(old(uc.docs), UserId, u.id).value;
      var access := GenerateAccessToken(keys, c, Hex(u.id), u.kind, nowMs).value;
      var refresh := RefreshToken(keys, c, Hex(u.id), nowMs);
      r == Ok(LoggedIn(u, access, refresh, c, nowMs))
      && uc.docs == old(uc.docs)[i := ApplyUpdateUser(u, RefreshOnly(refresh))]
  {
    var found := UserService.FindUsernameAndPassword(uc.docs, login.username, login.password, hasher);
    if found.Err? {
      return Err(found.error);
    }
    var user := found.value;
    ghost var i :| 0 <= i < |uc.docs| && uc.docs[i] == user;
    LookupOwnKey(uc.docs, UserId, i);
    HexRoundTrip(user.id);
    var token := GenerateAccessToken(keys, c, Hex(user.id), user.kind, nowMs);
    if token.Err? {
      return Err(RestError(TokenGenerationFailed, 500, token.error));
    }
    var refresh := GenerateRefreshToken(uc, keys, c, Hex(user.id), nowMs);
    if refresh.Err? {
      return Err(RestError(TokenGenerationFailed, 500, refresh.error));
    }
    user := user.(token := token.value);
    user := user.(tokenExpiry := TokenExpiry(c, nowMs));
    user := user.(refreshToken := refresh.value);
    user := user.(refreshTokenExpiry := RefreshTokenExpiry(c, nowMs));
    user := user.(password := "");
    r := Ok(user);
  }

  // ---- ValidateRefreshToken -------------------------------------------------

  /**
   * ValidateRefreshToken: the token must parse with the refresh public key,
   * carry a user id and key type "refresh", name a stored user, and be exactly
   * the string in that user's slot. The answer is the id from the claims and
   * the type from the stored user.
   */
  function ValidateRefreshToken(users: seq<User>, token: string, keys: KeyFiles, nowMs: int): (r: Result<(string, string), string>)
    ensures r.Ok? ==>
      Jwt.Parse(token, keys.refreshPublic, Seconds(nowMs)).Ok?
      && var claims := Jwt.Parse(token, keys.refreshPublic, Seconds(nowMs)).value;
      claims.userId != "" && claims.keyType == "refresh" && r.value.0 == claims.userId
      && UserService.FindById(users, claims.userId).Ok?
      && UserService.FindById(users, claims.userId).value.refreshToken == token
      && r.value.1 == UserService.FindById(users, claims.userId).value.kind
  {
    match Jwt.Parse(token, keys.refreshPublic, Seconds(nowMs))
    case Err(e) => Err(Jwt.Message(e))
    case Ok(claims) =>
      if claims.userId == "" || claims.keyType != "refresh" then Err(InvalidToken)
      else match UserService.FindById(users, claims.userId)
        case Err(e) => Err(e.message)
        case Ok(u) => if u.refreshToken != token then Err(InvalidToken) else Ok((claims.userId, u.kind))
  }

  /**
   * The token in a user's slot validates, until it expires, with the stored
   * user's type; a token of the access pair never does.
   */
  lemma SlotValidates(users: seq<User>, i: nat, c: Config.Configurations, issued: int, nowMs: int)
    requires UniqueKeys(users, UserId) && i < |users|
    requires users[i].refreshToken == RefreshToken(Deployed, c, Hex(users[i].id), issued)
    ensures var exp := RefreshClaims(c, Hex(users[i].id), issued).expiresAt;
      ValidateRefreshToken(users, users[i].refreshToken, Deployed, nowMs).Ok? <==> (exp == 0 || Seconds(nowMs) <= exp)
    ensures ValidateRefreshToken(users, users[i].refreshToken, Deployed, nowMs).Ok? ==>
      ValidateRefreshToken(users, users[i].refreshToken, Deployed, nowMs).value == (Hex(users[i].id), users[i].kind)
  {
    UserService.FindByIdOwnHex(users, i);
    HexRoundTrip(users[i].id);
  }

  /**
   * The refresh token Login stores for a user afterwards validates as that
   * user, with the stored type, until its `exp`.
   */
  lemma LoginThenRefresh(users: seq<User>, i: nat, c: Config.Configurations, issued: int, nowMs: int)
    requires UniqueKeys(users, UserId) && i < |users|
    ensures var token := RefreshToken(Deployed, c, Hex(users[i].id), issued);
      var after := users[i := ApplyUpdateUser(users[i], RefreshOnly(token))];
      var exp := RefreshClaims(c, Hex(users[i].id), issued).expiresAt;
      (ValidateRefreshToken(after, token, Deployed, nowMs).Ok? <==> (exp == 0 || Seconds(nowMs) <= exp))
      && (ValidateRefreshToken(after, token, Deployed, nowMs).Ok? ==>
          ValidateRefreshToken(after, token, Deployed, nowMs).value == (Hex(users[i].id), users[i].kind))
  {
    var token := RefreshToken(Deployed, c, Hex(users[i].id), issued);
    var stored := ApplyUpdateUser(users[i], RefreshOnly(token));
    assert stored.id == users[i].id && stored.kind == users[i].kind && stored.refreshToken == token;
    ReplaceKeepsUnique(users, UserId, i, stored);
    SlotValidates(users[i := stored], i, c, issued, nowMs);
  }

  /** An access token is refused as a refresh token even when it sits in the slot. */
  lemma AccessTokenRefused(users: seq<User>, c: Config.Configurations, userId: string, userType: string, issued: int, nowMs: int)
    ensures ValidateRefreshToken(users, GenerateAccessToken(Deployed, c, userId, userType, issued).value, Deployed, nowMs).Err?
  {
  }

  // ---- Logout -----------------------------------------------------------------

  /** Logout: the user's slot is overwritten with two spaces. */
  method Logout(uc: Collection<User>, user: User)
    requires UniqueKeys(uc.docs, UserId)
    modifies uc
    ensures UniqueKeys(uc.docs, UserId)
    ensures match IndexOfKey(old(uc.docs), UserId, user.id)
      case None => uc.docs == old(uc.docs)
      case Some(i) => uc.docs == old(uc.docs)[i := ApplyUpdateUser(old(uc.docs)[i], RefreshOnly(LoggedOut))]
  {
    HexRoundTrip(user.id);
    var _ := UserService.UpdateById(uc, Hex(user.id), RefreshOnly(LoggedOut));
  }

  /** The `&models.User{}` the logout handler passes: every field is zero, the id nil. */
  const ZeroUser := User(Nil, "", "", "", "", "", [], "", "", "", "", "", 0, "", 0, Verified(false, false), 0, 0)

  /**
   * GET /auth/logout calls Logout with the zero user. No stored user has the
   * nil id, so no slot is overwritten: every refresh token that validated
   * before still validates, with the same answer.
   */
  method LogoutHandler(uc: Collection<User>)
    requires UniqueKeys(uc.docs, UserId)
    modifies uc
    ensures uc.docs == old(uc.docs)
    ensures forall token, keys, nowMs :: ValidateRefreshToken(uc.docs, token, keys, nowMs) == ValidateRefreshToken(old(uc.docs), token, keys, nowMs)
  {
    Logout(uc, ZeroUser);
  }

  /** After Logout no string validates as that user's refresh token: the slot holds no token. */
  lemma LogoutRevokes(users: seq<User>, i: nat, token: string, keys: KeyFiles, nowMs: int)
    requires UniqueKeys(users, UserId) && i < |users| && users[i].refreshToken == LoggedOut
    ensures ValidateRefreshToken(users, token, keys, nowMs).Ok? ==>
      FromHex(ValidateRefreshToken(users, token, keys, nowMs).value.0) != Ok(users[i].id)
  {
  }

  /** A token superseded in the slot by a different one no longer validates. */
  lemma SupersededRefused(users: seq<User>, i: nat, prior: string, keys: KeyFiles, nowMs: int)
    requires UniqueKeys(users, UserId) && i < |users| && users[i].refreshToken != prior
    ensures ValidateRefreshToken(users, prior, keys, nowMs).Ok? ==>
      FromHex(ValidateRefreshToken(users, prior, keys, nowMs).value.0) != Ok(users[i].id)
  {
  }
}
