/**
 * utils.Configurations: settings read through viper with defaults, the
 * PORT override, and the IsUrl / AppendUrl helpers that turn stored asset
 * paths into URLs.
 */
module Config {
  import opened Wrappers
  import Text

  datatype Configurations = Configurations(
    serverAddress: string,
    mongoUri: string,
    dbName: string,
    dbUser: string,
    dbPass: string,
    accessTokenPrivateKeyPath: string,
    accessTokenPublicKeyPath: string,
    refreshTokenPrivateKeyPath: string,
    refreshTokenPublicKeyPath: string,
    jwtExpiration: int,             // minutes
    refreshJwtExpiration: int,      // minutes
    sendGridApiKey: string,
    mailVerifCodeExpiration: int,   // hours
    passResetCodeExpiration: int,   // minutes
    mailVerifTemplateId: string,
    passResetTemplateId: string,
    assetsUrl: string)

  /** The configuration when no environment variable is set. */
  const Defaults := Configurations(
    "localhost:8000", "mongodb://localhost:27017", "booksland", "", "",
    "./access-private.pem", "./access-public.pem", "./refresh-private.pem", "./refresh-public.pem",
    30, 24 * 60 * 30, "", 30, 15,
    "d-5ecbea6e38764af3b703daf03f139b48", "d-3fc222d11809441abaa8ed459bb44319",
    "http:" + "//localhost:8000")

  /** viper.GetString with AutomaticEnv: an unset or empty variable falls back to the default. */
  function GetString(env: map<string, string>, key: string, default: string): (v: string)
    ensures key !in env ==> v == default
  {
    if key in env && env[key] != "" then env[key] else default
  }

  const MinInt := -0x8000_0000_0000_0000
  const MaxInt := 0x7FFF_FFFF_FFFF_FFFF

  /**
   * viper.GetInt with AutomaticEnv: an unset or empty variable gives the
   * default; a set one is converted by cast.ToInt.
   */
  function GetInt(env: map<string, string>, key: string, default: int): (v: int)
    ensures key !in env || env[key] == "" ==> v == default
    ensures key in env && env[key] != "" ==> MinInt <= v <= MaxInt
  {
    if key in env && env[key] != "" then ToInt(env[key]) else default
  }

  // ---- cast.ToInt on a string: strconv.ParseInt(trimZeroDecimal(s), 0, 0), and 0 on error ----

  /** cast.ToInt on a string value. */
  function ToInt(s: string): (v: int)
    ensures MinInt <= v <= MaxInt
  {
    match ParseGoInt(TrimZeroDecimal(s))
    case Some(n) => n
    case None => 0
  }

  /**
   * cast's trimZeroDecimal: scanning from the end over zeros, a '.' cuts the
   * string there; a '.' before any zero and every other character end the
   * scan and leave the string whole.
   */
  function TrimZeroDecimal(s: string): (r: string)
    ensures r <= s
  {
    TrimZeroFrom(s, |s|, false)
  }

  function TrimZeroFrom(s: string, i: nat, foundZero: bool): (r: string)
    requires i <= |s|
    ensures r <= s
    decreases i
  {
    if i == 0 then s
    else if s[i - 1] == '.' then
      if foundZero then s[..i - 1] else TrimZeroFrom(s, i - 1, foundZero)
    else if s[i - 1] == '0' then TrimZeroFrom(s, i - 1, true)
    else s
  }

  /** strconv.ParseInt(s, 0, 64): an optional sign, a base-0 unsigned number, and the int64 range. */
  function ParseGoInt(s: string): (r: Option<int>)
    ensures r.Some? ==> MinInt <= r.value <= MaxInt
  {
    if s == "" then None
    else
      var u := if s[0] == '+' || s[0] == '-' then s[1..] else s;
      match ParseUint0(u)
      case None => None
      case Some(n) =>
        var v := if s[0] == '-' then -(n as int) else n as int;
        if MinInt <= v <= MaxInt then Some(v) else None
  }

  /**
   * strconv.ParseUint(s, 0, 64) without its range check (any value above the
   * int64 range fails ParseGoInt's): the base prefix, the digits with
   * underscores skipped, and underscoreOK when there is an underscore.
   */
  function ParseUint0(s: string): (r: Option<nat>)
  {
    if s == "" then None
    else
      var (base, digits) := BasePrefix(s);
      match DigitsValue(digits, base)
      case None => None
      case Some(n) => if '_' in s && !UnderscoreOK(s) then None else Some(n)
  }

  /**
   * The base ParseUint picks for base 0 and the digits after the prefix:
   * "0b", "0o" and "0x" (either case, with something after them) select 2, 8
   * and 16; any other leading '0' selects 8; otherwise 10.
   */
  function BasePrefix(s: string): (r: (nat, string))
    requires s != ""
    ensures r.0 == 2 || r.0 == 8 || r.0 == 10 || r.0 == 16
  {
    if s[0] == '0' then
      if |s| >= 3 && Text.Lower(s[1]) == 'b' then (2, s[2..])
      else if |s| >= 3 && Text.Lower(s[1]) == 'o' then (8, s[2..])
      else if |s| >= 3 && Text.Lower(s[1]) == 'x' then (16, s[2..])
      else (8, s[1..])
    else (10, s)
  }

  /** The value of a digit or letter (either case), and 36 for anything else. */
  function DigitValue(c: char): (d: nat)
    ensures d <= 36
  {
    if Text.IsDigit(c) then c as int - '0' as int
    else if 'a' <= Text.Lower(c) <= 'z' then Text.Lower(c) as int - 'a' as int + 10
    else 36
  }

  /** The digits of `t` in `base`, underscores skipped; None at a character that is no digit of the base. */
  function DigitsValue(t: string, base: nat): (r: Option<nat>)
    decreases |t|
  {
    if t == "" then Some(0)
    else
      var c := t[|t| - 1];
      if c == '_' then DigitsValue(t[..|t| - 1], base)
      else if DigitValue(c) >= base then None
      else match DigitsValue(t[..|t| - 1], base)
        case None => None
        case Some(v) => Some(v * base + DigitValue(c))
  }

  /** underscoreOK's record of the last character class seen. */
  datatype Saw = Start | Digit | Underscore | Other

  /** Underscores only between digits, or between a base prefix and a digit. */
  predicate UnderscoreOK(s: string)
  {
    var t := if |s| >= 1 && (s[0] == '-' || s[0] == '+') then s[1..] else s;
    var r :=
      if |t| >= 2 && t[0] == '0' && Text.Lower(t[1]) in "box"
      then UnderscoreScan(t[2..], Digit, Text.Lower(t[1]) == 'x')
      else UnderscoreScan(t, Start, false);
    r.Some? && r.value != Underscore
  }

  /** underscoreOK's loop: None where it returns false, else the class it saw last. */
  function UnderscoreScan(t: string, saw: Saw, hex: bool): (r: Option<Saw>)
    ensures r.Some? && t != "" && t[|t| - 1] == '_' ==> r.value == Underscore
    decreases |t|
  {
    if t == "" then Some(saw)
    else if Text.IsDigit(t[0]) || (hex && 'a' <= Text.Lower(t[0]) <= 'f') then UnderscoreScan(t[1..], Digit, hex)
    else if t[0] == '_' then
      if saw != Digit then None else UnderscoreScan(t[1..], Underscore, hex)
    else if saw == Underscore then None
    else UnderscoreScan(t[1..], Other, hex)
  }

  /** A decimal integer in the int64 range, as Go's strconv.Itoa writes it, converts back to itself. */
  lemma ToIntDecimal(n: int)
    requires MinInt <= n <= MaxInt
    ensures ToInt(Text.IntToDec(n)) == n
  {
    var s := Text.IntToDec(n);
    var m: nat := if n < 0 then -n else n;
    var d := Text.NatToDec(m);
    Text.NatDecRoundTrip(m);
    Text.NatToDecDigits(m);
    Text.IntToDecChars(n);
    TrimNoDot(s, |s|, false);
    assert TrimZeroDecimal(s) == s;
    DecimalUint(m);
    if n < 0 {
      assert s[1..] == d;
    } else {
      assert Text.IsDigit(d[0]);
    }
  }

  /** Without a '.' in the scanned part, trimZeroDecimal leaves the string alone. */
  lemma {:induction false} TrimNoDot(s: string, i: nat, foundZero: bool)
    requires i <= |s| && forall j :: 0 <= j < i ==> s[j] != '.'
    ensures TrimZeroFrom(s, i, foundZero) == s
    decreases i
  {
    if i > 0 && s[i - 1] == '0' {
      TrimNoDot(s, i - 1, true);
    }
  }

  /** A '.' followed by one zero or more is cut off, whatever precedes it. */
  lemma TrimZeroDecimalCuts(s: string, zeros: string)
    requires |zeros| > 0 && forall i :: 0 <= i < |zeros| ==> zeros[i] == '0'
    ensures TrimZeroDecimal(s + "." + zeros) == s
  {
    var t := s + "." + zeros;
    ScanZeros(t, |s|, |t|, false);
  }

  lemma {:induction false} ScanZeros(t: string, dot: nat, i: nat, foundZero: bool)
    requires dot < i <= |t| && t[dot] == '.' && forall j :: dot < j < |t| ==> t[j] == '0'
    requires foundZero || i == |t|
    requires i == |t| ==> dot + 1 < |t|
    ensures TrimZeroFrom(t, i, foundZero) == t[..dot]
    decreases i
  {
    if i - 1 == dot {
      assert foundZero;
    } else {
      ScanZeros(t, dot, i - 1, true);
    }
  }

  /** The decimal digits of a natural number parse with base 0 to that number. */
  lemma DecimalUint(m: nat)
    ensures ParseUint0(Text.NatToDec(m)) == Some(m)
  {
    var d := Text.NatToDec(m);
    Text.NatDecRoundTrip(m);
    Text.NatToDecDigits(m);
    DecimalDigits(d);
    assert '_' !in d by {
      forall i | 0 <= i < |d| ensures d[i] != '_' {
        assert Text.IsDigit(d[i]);
      }
    }
    if m == 0 {
      assert d == "0";
    } else {
      NoLeadingZero(m);
    }
  }

  lemma {:induction false} DecimalDigits(d: string)
    requires Text.AllDigits(d)
    ensures DigitsValue(d, 10) == Some(Text.DecToNat(d))
    decreases |d|
  {
    if d != "" {
      DecimalDigits(d[..|d| - 1]);
    }
  }

  lemma {:induction false} NoLeadingZero(m: nat)
    requires m > 0
    ensures Text.NatToDec(m)[0] != '0'
    decreases m
  {
    if m >= 10 {
      NoLeadingZero(m / 10);
      Text.NatToDecDigits(m / 10);
    }
  }

  /** Base 0: a leading zero means octal, and a digit octal lacks gives 0; "0x" means hex. */
  lemma ToIntPrefixes()
    ensures ToInt("010") == 8 && ToInt("08") == 0 && ToInt("0x1e") == 30
  {
    assert TrimZeroFrom("010", 3, false) == "010";
    assert BasePrefix("010") == (8, "10");
    assert DigitsValue("10", 8) == Some(8);
    assert TrimZeroFrom("0x1e", 4, false) == "0x1e";
    assert BasePrefix("0x1e") == (16, "1e");
    assert DigitsValue("1e", 16) == Some(30);
  }

  /** Underscores between digits are skipped. */
  lemma ToIntUnderscores()
    ensures ToInt("1_000") == 1000
  {
    assert TrimZeroFrom("1_000", 5, false) == "1_000";
    assert BasePrefix("1_000") == (10, "1_000");
    assert "1_"[..1] == "1" && "1_0"[..2] == "1_" && "1_00"[..3] == "1_0" && "1_000"[..4] == "1_00";
    assert DigitsValue("1_", 10) == Some(1);
    assert DigitsValue("1_0", 10) == Some(10);
    assert DigitsValue("1_00", 10) == Some(100);
    assert DigitsValue("1_000", 10) == Some(1000);
    assert UnderscoreScan("1_000", Start, false) == Some(Digit);
  }

  /** A zero decimal part is dropped; a sign is kept. */
  lemma ToIntZeroDecimal()
    ensures ToInt("30.0") == 30 && ToInt("-15") == -15
  {
    assert TrimZeroFrom("30.0", 4, false) == "30";
    assert BasePrefix("30") == (10, "30");
    assert DigitsValue("30", 10) == Some(30);
    assert TrimZeroFrom("-15", 3, false) == "-15";
    assert "-15"[1..] == "15";
    assert BasePrefix("15") == (10, "15");
    assert DigitsValue("15", 10) == Some(15);
  }

  /** NewConfigurations, with the process environment as a map. */
  method NewConfigurations(env: map<string, string>) returns (c: Configurations)
    ensures env == map[] ==> c == Defaults
    ensures "PORT" in env && env["PORT"] != "" ==> c.serverAddress == "0.0.0.0:" + env["PORT"]
    ensures !("PORT" in env && env["PORT"] != "") ==>
      c.serverAddress == GetString(env, "SERVER_ADDRESS", Defaults.serverAddress)
    ensures c.assetsUrl == GetString(env, "ASSETS_URL", Defaults.assetsUrl)
    ensures c.jwtExpiration == GetInt(env, "JWT_EXPIRATION", Defaults.jwtExpiration)
    ensures c.refreshJwtExpiration == GetInt(env, "REFRESH_JWT_EXPIRATION", Defaults.refreshJwtExpiration)
    ensures c.sendGridApiKey == GetString(env, "SENDGRID_API_KEY", "")
    ensures c == Defaults.(
      serverAddress := c.serverAddress,
      mongoUri := GetString(env, "MONGO_URI", Defaults.mongoUri),
      dbName := GetString(env, "DB_NAME", Defaults.dbName),
      dbUser := GetString(env, "DB_USER", Defaults.dbUser),
      dbPass := GetString(env, "DB_PASSWORD", Defaults.dbPass),
      accessTokenPrivateKeyPath := GetString(env, "ACCESS_TOKEN_PRIVATE_KEY_PATH", Defaults.accessTokenPrivateKeyPath),
      accessTokenPublicKeyPath := GetString(env, "ACCESS_TOKEN_PUBLIC_KEY_PATH", Defaults.accessTokenPublicKeyPath),
      refreshTokenPrivateKeyPath := GetString(env, "REFRESH_TOKEN_PRIVATE_KEY_PATH", Defaults.refreshTokenPrivateKeyPath),
      refreshTokenPublicKeyPath := GetString(env, "REFRESH_TOKEN_PUBLIC_KEY_PATH", Defaults.refreshTokenPublicKeyPath),
      jwtExpiration := c.jwtExpiration,
      refreshJwtExpiration := c.refreshJwtExpiration,
      sendGridApiKey := c.sendGridApiKey,
      mailVerifCodeExpiration := GetInt(env, "MAIL_VERIFICATION_CODE_EXPIRATION", Defaults.mailVerifCodeExpiration),
      passResetCodeExpiration := GetInt(env, "PASSWORD_RESET_CODE_EXPIRATION", Defaults.passResetCodeExpiration),
      mailVerifTemplateId := GetString(env, "MAIL_VERIFICATION_TEMPLATE_ID", Defaults.mailVerifTemplateId),
      passResetTemplateId := GetString(env, "PASSWORD_RESET_TEMPLATE_ID", Defaults.passResetTemplateId),
      assetsUrl := c.assetsUrl)
  {
    c := Configurations(
      GetString(env, "SERVER_ADDRESS", "localhost:8000"),
      GetString(env, "MONGO_URI", "mongodb://localhost:27017"),
      GetString(env, "DB_NAME", "booksland"),
      GetString(env, "DB_USER", ""),
      GetString(env, "DB_PASSWORD", ""),
      GetString(env, "ACCESS_TOKEN_PRIVATE_KEY_PATH", "./access-private.pem"),
      GetString(env, "ACCESS_TOKEN_PUBLIC_KEY_PATH", "./access-public.pem"),
      GetString(env, "REFRESH_TOKEN_PRIVATE_KEY_PATH", "./refresh-private.pem"),
      GetString(env, "REFRESH_TOKEN_PUBLIC_KEY_PATH", "./refresh-public.pem"),
      GetInt(env, "JWT_EXPIRATION", 30),
      GetInt(env, "REFRESH_JWT_EXPIRATION", 24 * 60 * 30),
      GetString(env, "SENDGRID_API_KEY", ""),
      GetInt(env, "MAIL_VERIFICATION_CODE_EXPIRATION", 30),
      GetInt(env, "PASSWORD_RESET_CODE_EXPIRATION", 15),
      GetString(env, "MAIL_VERIFICATION_TEMPLATE_ID", "d-5ecbea6e38764af3b703daf03f139b48"),
      GetString(env, "PASSWORD_RESET_TEMPLATE_ID", "d-3fc222d11809441abaa8ed459bb44319"),
      GetString(env, "ASSETS_URL", "http:" + "//localhost:8000"));
    var port := GetString(env, "PORT", "");
    if port != "" {
      c := c.(serverAddress := "0.0.0.0:" + port);
    }
  }

  // ---- url.Parse, as far as IsUrl depends on it ----

  predicate IsAlpha(c: char) { 'a' <= c <= 'z' || 'A' <= c <= 'Z' }

  /** ASCII control characters, which url.Parse rejects. */
  predicate IsCtl(c: char) { (c as int) < 0x20 || (c as int) == 0x7F }

  /**
   * url.getScheme: `Some((scheme, rest))` on success (the scheme may be empty),
   * `None` for the "missing protocol scheme" error (a leading ':').
   */
  function SplitScheme(s: string): (r: Option<(string, string)>)
    ensures r.Some? && r.value.0 != "" ==> |r.value.0| < |s| && s == r.value.0 + ":" + r.value.1
    ensures r.Some? ==> ':' !in r.value.0
  {
    SchemeFrom(s, 0)
  }

  function SchemeFrom(s: string, i: nat): (r: Option<(string, string)>)
    requires i <= |s|
    requires forall j :: 0 <= j < i ==> IsAlpha(s[j]) || (j > 0 && (Text.IsDigit(s[j]) || s[j] in "+-."))
    ensures r.Some? && r.value.0 != "" ==> |r.value.0| < |s| && s == r.value.0 + ":" + r.value.1
    ensures r.Some? ==> ':' !in r.value.0
    decreases |s| - i
  {
    if i == |s| then Some(("", s))
    else if IsAlpha(s[i]) then SchemeFrom(s, i + 1)
    else if Text.IsDigit(s[i]) || s[i] in "+-." then
      if i == 0 then Some(("", s)) else SchemeFrom(s, i + 1)
    else if s[i] == ':' then
      if i == 0 then None
      else
        assert s == s[..i] + ":" + s[i + 1..];
        Some((s[..i], s[i + 1..]))
    else Some(("", s))
  }

  /** url.validOptionalPort. */
  predicate ValidOptionalPort(port: string)
  {
    port == "" || (port[0] == ':' && Text.AllDigits(port[1..]))
  }

  /** A '%' at `i` followed by two hex digits (unescape's well-formedness test). */
  predicate EscapeAt(s: string, i: nat)
  {
    i + 2 < |s| && Text.IsHexChar(s[i + 1]) && Text.IsHexChar(s[i + 2])
  }

  /** The byte a well-formed escape at `i` stands for. */
  function EscapedByte(s: string, i: nat): (b: nat)
    requires EscapeAt(s, i)
    ensures b < 256
  {
    Text.HexValue(s[i + 1]) * 16 + Text.HexValue(s[i + 2])
  }

  /** The character at `i` is no '%' or starts a well-formed escape. */
  predicate EscapeOkAt(s: string, i: nat)
    requires i < |s|
  {
    s[i] == '%' ==> EscapeAt(s, i)
  }

  /** unescape in the path, userinfo and fragment modes: every '%' starts a well-formed escape. */
  predicate WellEscaped(s: string)
  {
    forall i :: 0 <= i < |s| ==> EscapeOkAt(s, i)
  }

  /** ASCII characters a host may hold unescaped: shouldEscape in host mode is false. */
  predicate HostAscii(c: char)
  {
    IsAlpha(c) || Text.IsDigit(c) || c in "!$&'()*+,;=:[]<>\"-_.~"
  }

  /**
   * unescape in host mode at `i`: an escape stands for a non-ASCII byte or is
   * "%25", and an unescaped ASCII character is a host character.
   */
  predicate HostOkAt(s: string, i: nat)
    requires i < |s|
  {
    if s[i] == '%' then EscapeAt(s, i) && (Text.HexValue(s[i + 1]) >= 8 || s[i + 1..i + 3] == "25")
    else (s[i] as int) >= 0x80 || HostAscii(s[i])
  }

  predicate HostEscaped(s: string)
  {
    forall i :: 0 <= i < |s| ==> HostOkAt(s, i)
  }

  /**
   * unescape in zone mode (an IPv6 zone identifier) at `i`: an escape is
   * "%25", a space, or a byte the host could hold unescaped; an unescaped
   * character as in host mode.
   */
  predicate ZoneOkAt(s: string, i: nat)
    requires i < |s|
  {
    if s[i] == '%' then
      EscapeAt(s, i)
      && (s[i + 1..i + 3] == "25" || EscapedByte(s, i) == 0x20
          || (EscapedByte(s, i) < 0x80 && HostAscii(EscapedByte(s, i) as char)))
    else (s[i] as int) >= 0x80 || HostAscii(s[i])
  }

  predicate ZoneEscaped(s: string)
  {
    forall i :: 0 <= i < |s| ==> ZoneOkAt(s, i)
  }

  /** url.validUserinfo. */
  predicate UserinfoChar(c: char)
  {
    IsAlpha(c) || Text.IsDigit(c) || c in "-._:~!$&'()*+,;=%@"
  }

  /**
   * url.parseHost succeeds. A host opening with '[' is an IP literal: it needs
   * a closing ']', only a port may follow it, and a "%25" inside starts a zone
   * identifier unescaped in zone mode. Any other host may end in a port after
   * its last ':'. The rest is unescaped in host mode.
   */
  predicate ValidHost(host: string)
  {
    if |host| > 0 && host[0] == '[' then
      match Text.BeforeLast(host, ']')
      case None => false
      case Some(h) =>
        ValidOptionalPort(host[|h| + 1..])
        && match Text.IndexOf(h, "%25")
           case None => HostEscaped(host)
           case Some(z) => HostEscaped(h[..z]) && ZoneEscaped(h[z..]) && HostEscaped(host[|h|..])
    else
      (match Text.BeforeLast(host, ':')
       case None => true
       case Some(h) => ValidOptionalPort(host[|h|..]))
      && HostEscaped(host)
  }

  /**
   * url.parseAuthority: the host is what follows the last '@'; the userinfo
   * before it must hold only userinfo characters and well-formed escapes.
   */
  predicate ValidAuthority(authority: string)
  {
    match Text.BeforeLast(authority, '@')
    case None => ValidHost(authority)
    case Some(user) =>
      ValidHost(authority[|user| + 1..])
      && (forall i :: 0 <= i < |user| ==> UserinfoChar(user[i]))
      && WellEscaped(user)
  }

  function HostOf(authority: string): string
  {
    Text.AfterLast(authority, '@')
  }

  /**
   * IsUrl: url.Parse succeeds and yields a non-empty scheme and host. The
   * fragment, cut at the first '#', must be well escaped; what precedes it
   * must hold no control character. The query, cut at the first '?', is not
   * checked; the authority runs from "//" to the next '/', and the path after
   * it must be well escaped.
   */
  predicate IsUrl(s: string): (r: bool)
    ensures r ==> var k := |Text.Before(s, ':')|; 0 < k && k + 3 <= |s| && s[k..k + 3] == "://"
  {
    var u := Text.Before(s, '#');
    NoCtl(u)
    && (|u| < |s| ==> WellEscaped(s[|u| + 1..]))
    && match SplitScheme(u)
       case None => false
       case Some((scheme, rest)) =>
         SchemeSlashes(s, u, scheme, rest);
         scheme != "" && HasHost(Text.Before(rest, '?'))
  }

  /** The scheme ends at the first ':', and an authority makes "://" of it. */
  lemma SchemeSlashes(s: string, u: string, scheme: string, rest: string)
    requires u <= s && SplitScheme(u) == Some((scheme, rest))
    ensures scheme != "" && Slashes(Text.Before(rest, '?')) ==>
      var k := |Text.Before(s, ':')|; k == |scheme| && 0 < k && k + 3 <= |s| && s[k..k + 3] == "://"
  {
    if scheme != "" && Slashes(Text.Before(rest, '?')) {
      var r := Text.Before(rest, '?');
      assert rest[..2] == r[..2];
      SlashesAfterScheme(s, u, scheme, rest);
    }
  }

  lemma SlashesAfterScheme(s: string, u: string, scheme: string, rest: string)
    requires u <= s && u == scheme + ":" + rest && scheme != "" && ':' !in scheme
    requires |rest| >= 2 && rest[..2] == "//"
    ensures var k := |Text.Before(s, ':')|; k == |scheme| && k + 3 <= |s| && s[k..k + 3] == "://"
  {
    var k := |scheme|;
    assert s[..k] == scheme && s[k] == ':';
    Text.BeforeAt(s, ':', k);
    assert s[k..k + 3] == u[k..k + 3] == ":" + rest[..2];
  }

  /** `s` starts with "//". */
  predicate Slashes(s: string)
  {
    |s| >= 2 && s[..2] == "//"
  }

  predicate NoCtl(s: string)
  {
    forall i :: 0 <= i < |s| ==> !IsCtl(s[i])
  }

  /**
   * What follows the scheme (query and fragment removed) starts an authority
   * with a non-empty host, and the path after the authority is well escaped.
   */
  predicate HasHost(rest: string)
  {
    Slashes(rest)
    && var authority := Text.Before(rest[2..], '/');
       ValidAuthority(authority) && HostOf(authority) != ""
       && WellEscaped(rest[2 + |authority|..])
  }

  /** Configurations.AppendUrl. */
  function AppendUrl(c: Configurations, url: string): (r: string)
    ensures IsUrl(url) ==> r == url
    ensures !IsUrl(url) ==> r == c.assetsUrl + url
  {
    if IsUrl(url) then url else c.assetsUrl + url
  }

  /** Prefixing is applied at most once when the prefixed result is itself a URL. */
  lemma AppendUrlIdempotent(c: Configurations, url: string)
    requires IsUrl(c.assetsUrl + url)
    ensures AppendUrl(c, AppendUrl(c, url)) == AppendUrl(c, url)
    ensures IsUrl(AppendUrl(c, url))
  {
  }

  lemma {:induction false} BeforeKeepsSlash(p: string, c: char)
    requires |p| > 0 && p[0] == '/' && c != '/'
    ensures |Text.Before(p, c)| > 0 && Text.Before(p, c)[0] == '/'
  {
    assert Text.FirstIndex(p, c) != Some(0);
  }

  lemma DefaultAuthority()
    ensures ValidAuthority("localhost:8000") && HostOf("localhost:8000") != ""
  {
    var a := "localhost:8000";
    DefaultNoUserinfo();
    DefaultPort();
    DefaultHostChars();
    assert ValidHost(a);
  }

  lemma DefaultNoUserinfo()
    ensures Text.BeforeLast("localhost:8000", '@') == None && HostOf("localhost:8000") == "localhost:8000"
  {
    assert '@' !in "localhost:8000";
  }

  lemma DefaultPort()
    ensures Text.BeforeLast("localhost:8000", ':') == Some("localhost") && ValidOptionalPort("localhost:8000"[9..])
  {
    var a := "localhost:8000";
    assert Text.BeforeLast(a, ':') == Some("localhost") by {
      assert a[..|a| - 1] == "localhost:800";
      assert "localhost:800"[..12] == "localhost:80";
      assert "localhost:80"[..11] == "localhost:8";
      assert "localhost:8"[..10] == "localhost:";
      assert "localhost:"[..9] == "localhost";
    }
    assert a[9..] == ":8000";
  }

  lemma DefaultHostChars()
    ensures HostEscaped("localhost:8000")
  {
    assert "!$&'()*+,;=:[]<>\"-_.~"[11] == ':';
  }

  lemma {:induction false} DefaultScheme(rest: string)
    ensures SplitScheme("http:" + rest) == Some(("http", rest))
  {
    var u := "http:" + rest;
    assert u[..4] == "http" && u[4] == ':' && u[5..] == rest;
    assert SchemeFrom(u, 4) == Some((u[..4], u[5..]));
    assert SchemeFrom(u, 3) == SchemeFrom(u, 4);
    assert SchemeFrom(u, 2) == SchemeFrom(u, 3);
    assert SchemeFrom(u, 1) == SchemeFrom(u, 2);
    assert SchemeFrom(u, 0) == SchemeFrom(u, 1);
  }

  /**
   * Under an ASSETS_URL made of "http://" and a valid authority without '/',
   * '#', '?' or control characters, every absolute path free of control
   * characters and of malformed escapes becomes a URL, and a second
   * AppendUrl leaves it alone.
   */
  lemma {:induction false} AssetsUrlMakesUrls(c: Configurations, authority: string, path: string)
    requires c.assetsUrl == "http://" + authority
    requires '/' !in authority && '#' !in authority && '?' !in authority && NoCtl(authority)
    requires ValidAuthority(authority) && HostOf(authority) != ""
    requires |path| > 0 && path[0] == '/'
    requires NoCtl(path) && WellEscaped(path)
    ensures IsUrl(c.assetsUrl + path)
    ensures AppendUrl(c, AppendUrl(c, path)) == c.assetsUrl + path
  {
    var s := c.assetsUrl + path;
    var p1 := Text.Before(path, '#');
    var rest := "//" + authority + p1;
    FragmentPart(authority, path);
    BeforeKeepsSlash(path, '#');
    WellEscapedBefore(path, '#');
    HostPart(authority, p1);
    DefaultScheme(rest);
    IsUrlFrom(s, "http", rest);
    NotUrlWithoutScheme(path);
  }

  /** The part before '#' of "http://" + authority + path, and what follows it. */
  lemma FragmentPart(authority: string, path: string)
    requires '#' !in authority && NoCtl(authority) && NoCtl(path) && WellEscaped(path)
    ensures var s := "http://" + authority + path; var u := Text.Before(s, '#');
      u == "http:" + ("//" + authority + Text.Before(path, '#')) && NoCtl(u) &&
      (|u| < |s| ==> WellEscaped(s[|u| + 1..]))
  {
    var a := "http://" + authority;
    var s := a + path;
    assert '#' !in a;
    Text.BeforeAppend(a, path, '#');
    var p1 := Text.Before(path, '#');
    var u := a + p1;
    NoCtlPrefix(p1, path);
    NoCtlAppend("http://", authority);
    NoCtlAppend(a, p1);
    if |u| < |s| {
      assert s[|u| + 1..] == path[|p1| + 1..];
      WellEscapedSuffix(path, |p1| + 1);
    }
    assert u == "http:" + ("//" + authority + p1);
  }

  /** After "//", a valid authority and a well-escaped absolute path give a host. */
  lemma HostPart(authority: string, p1: string)
    requires '/' !in authority && '?' !in authority
    requires ValidAuthority(authority) && HostOf(authority) != ""
    requires |p1| > 0 && p1[0] == '/' && WellEscaped(p1)
    ensures HasHost(Text.Before("//" + authority + p1, '?'))
  {
    assert '?' !in "//" + authority;
    Text.BeforeAppend("//" + authority, p1, '?');
    var p2 := Text.Before(p1, '?');
    BeforeKeepsSlash(p1, '?');
    WellEscapedBefore(p1, '?');
    HasHostFrom("//" + authority + p2, authority, p2);
  }

  /**
   * With the default ASSETS_URL every absolute path free of control
   * characters and of malformed escapes becomes a URL, so AppendUrl of a
   * stored media path yields a link to the asset and a second AppendUrl
   * leaves it alone.
   */
  lemma DefaultAssetsUrlMakesUrls(path: string)
    requires |path| > 0 && path[0] == '/'
    requires NoCtl(path) && WellEscaped(path)
    ensures IsUrl(Defaults.assetsUrl + path)
    ensures AppendUrl(Defaults, AppendUrl(Defaults, path)) == Defaults.assetsUrl + path
  {
    DefaultAssetsUrlParts();
    DefaultAuthorityPlain();
    DefaultAuthority();
    AssetsUrlMakesUrls(Defaults, "localhost:8000", path);
  }

  /**
   * The converse for a path holding no '#' and no '?', under an ASSETS_URL
   * made of "http://" and an authority: with a control character or a
   * malformed escape the prefixed path is not a URL, so a second AppendUrl
   * prefixes it again.
   */
  lemma AssetsUrlRejects(c: Configurations, authority: string, path: string)
    requires c.assetsUrl == "http://" + authority
    requires '/' !in authority && '#' !in authority && '?' !in authority && NoCtl(authority)
    requires |path| > 0 && path[0] == '/' && '#' !in path && '?' !in path
    requires !(NoCtl(path) && WellEscaped(path))
    ensures !IsUrl(c.assetsUrl + path)
    ensures AppendUrl(c, AppendUrl(c, path)) == c.assetsUrl + (c.assetsUrl + path)
  {
    var s := c.assetsUrl + path;
    NotUrlWithoutScheme(path);
    if !NoCtl(path) {
      var i :| 0 <= i < |path| && IsCtl(path[i]);
      assert s[|c.assetsUrl| + i] == path[i];
      assert '#' !in s;
      BeforeAbsent(s, '#');
    } else {
      NoCtlAppend(authority, path);
      HttpUrl(authority, path);
      assert s == "http://" + authority + path;
    }
  }

  /** The default ASSETS_URL is such a prefix. */
  lemma DefaultAssetsUrlRejects(path: string)
    requires |path| > 0 && path[0] == '/' && '#' !in path && '?' !in path
    requires !(NoCtl(path) && WellEscaped(path))
    ensures !IsUrl(Defaults.assetsUrl + path)
    ensures AppendUrl(Defaults, AppendUrl(Defaults, path)) == Defaults.assetsUrl + (Defaults.assetsUrl + path)
  {
    DefaultAssetsUrlParts();
    DefaultAuthorityPlain();
    AssetsUrlRejects(Defaults, "localhost:8000", path);
  }

  lemma DefaultAssetsUrlParts()
    ensures Defaults.assetsUrl == "http://" + "localhost:8000"
  {
  }

  lemma DefaultAuthorityPlain()
    ensures '/' !in "localhost:8000" && '#' !in "localhost:8000" && '?' !in "localhost:8000"
    ensures NoCtl("localhost:8000")
  {
  }

  /** IsUrl from its parts: the text before '#', the fragment, the scheme and the authority. */
  lemma IsUrlFrom(s: string, scheme: string, rest: string)
    requires NoCtl(Text.Before(s, '#'))
    requires |Text.Before(s, '#')| < |s| ==> WellEscaped(s[|Text.Before(s, '#')| + 1..])
    requires SplitScheme(Text.Before(s, '#')) == Some((scheme, rest)) && scheme != ""
    requires HasHost(Text.Before(rest, '?'))
    ensures IsUrl(s)
  {
  }

  /** No URL when the part after the scheme has no valid authority. */
  lemma NotUrlFrom(s: string, scheme: string, rest: string)
    requires SplitScheme(Text.Before(s, '#')) == Some((scheme, rest))
    requires !HasHost(Text.Before(rest, '?'))
    ensures !IsUrl(s)
  {
  }

  /** HasHost from the authority that ends at the first '/' after "//". */
  lemma HasHostFrom(rest: string, authority: string, path: string)
    requires rest == "//" + authority + path && '/' !in authority && (path == "" || path[0] == '/')
    requires ValidAuthority(authority) && HostOf(authority) != "" && WellEscaped(path)
    ensures HasHost(rest)
  {
    AuthorityOf(rest, authority, path);
  }

  /** HasHost fails when the path after the authority is not well escaped. */
  lemma NoHostFrom(rest: string, authority: string, path: string)
    requires rest == "//" + authority + path && '/' !in authority && (path == "" || path[0] == '/')
    requires !WellEscaped(path)
    ensures !HasHost(rest)
  {
    AuthorityOf(rest, authority, path);
  }

  lemma AuthorityOf(rest: string, authority: string, path: string)
    requires rest == "//" + authority + path && '/' !in authority && (path == "" || path[0] == '/')
    ensures |rest| >= 2 && rest[..2] == "//" && Text.Before(rest[2..], '/') == authority
    ensures rest[2 + |authority|..] == path
  {
    assert rest[2..] == authority + path;
    Text.BeforeAppend(authority, path, '/');
    if path != "" {
      assert Text.FirstIndex(path, '/') == Some(0);
    }
  }

  /**
   * An http URL with neither fragment nor query nor control character is a
   * URL exactly when its authority is valid with a non-empty host and its
   * path is well escaped.
   */
  lemma {:induction false} HttpUrl(authority: string, path: string)
    requires '#' !in authority + path && '?' !in authority + path && NoCtl(authority + path)
    requires '/' !in authority && (path == "" || path[0] == '/')
    ensures IsUrl("http://" + authority + path)
      <==> ValidAuthority(authority) && HostOf(authority) != "" && WellEscaped(path)
  {
    var rest := "//" + authority + path;
    var s := "http://" + authority + path;
    assert s == "http:" + rest;
    assert rest == "//" + (authority + path);
    assert '#' !in s && '?' !in rest;
    BeforeAbsent(s, '#');
    BeforeAbsent(rest, '?');
    NoCtlAppend("http:", rest) by {
      NoCtlAppend("//", authority + path);
    }
    DefaultScheme(rest);
    AuthorityOf(rest, authority, path);
    if ValidAuthority(authority) && HostOf(authority) != "" && WellEscaped(path) {
      HasHostFrom(rest, authority, path);
      IsUrlFrom(s, "http", rest);
    } else {
      NotUrlFrom(s, "http", rest);
    }
  }

  lemma BeforeAbsent(s: string, c: char)
    requires c !in s
    ensures Text.Before(s, c) == s
  {
  }

  /** Cutting at a character that is no hex digit keeps every escape whole. */
  lemma WellEscapedBefore(s: string, c: char)
    requires WellEscaped(s) && !Text.IsHexChar(c)
    ensures WellEscaped(Text.Before(s, c))
  {
    var r := Text.Before(s, c);
    match Text.FirstIndex(s, c)
    case None =>
    case Some(k) =>
      forall i | 0 <= i < |r|
        ensures EscapeOkAt(r, i)
      {
        assert EscapeOkAt(s, i);
      }
  }

  lemma WellEscapedSuffix(s: string, k: nat)
    requires WellEscaped(s) && k <= |s|
    ensures WellEscaped(s[k..])
  {
    forall i | 0 <= i < |s[k..]|
      ensures EscapeOkAt(s[k..], i)
    {
      assert EscapeOkAt(s, k + i);
    }
  }

  /**
   * A stored path with a stray '%' is no URL under the default ASSETS_URL,
   * so AppendUrl adds the prefix a second time.
   */
  lemma PercentPathPrefixedTwice()
    ensures AppendUrl(Defaults, AppendUrl(Defaults, "/assets/50%off-1.png"))
      == Defaults.assetsUrl + (Defaults.assetsUrl + "/assets/50%off-1.png")
  {
    assert !EscapeOkAt("/assets/50%off-1.png", 10);
    DefaultAssetsUrlRejects("/assets/50%off-1.png");
  }

  /** A bracketed IPv6 literal is a host. */
  lemma Ipv6Url()
    ensures IsUrl("http://" + "[::1]" + "/a.png")
  {
    Ipv6Authority();
    Ipv6Parts();
    HttpUrl("[::1]", "/a.png");
  }

  lemma Ipv6Authority()
    ensures ValidAuthority("[::1]") && HostOf("[::1]") != ""
  {
    var host := "[::1]";
    assert '@' !in host;
    assert Text.BeforeLast(host, ']') == Some("[::1") by {
      assert host[..|host| - 1] == "[::1";
    }
    NoZone("[::1");
    assert host[5..] == "";
    assert HostEscaped(host) by {
      var ok := "!$&'()*+,;=:[]<>\"-_.~";
      assert ok[11] == ':' && ok[12] == '[' && ok[13] == ']';
    }
  }

  lemma Ipv6Parts()
    ensures NoCtl("[::1]" + "/a.png") && WellEscaped("/a.png") && '/' !in "[::1]"
    ensures '#' !in "[::1]" + "/a.png" && '?' !in "[::1]" + "/a.png"
  {
  }

  /** A string without '%' holds no zone identifier. */
  lemma NoZone(h: string)
    requires '%' !in h
    ensures Text.IndexOf(h, "%25") == None
  {
    forall j
      ensures !Text.OccursAt(h, "%25", j)
    {
      if 0 <= j && j + 3 <= |h| {
        assert h[j..j + 3][0] == h[j];
      }
    }
  }

  /** A string whose part before '#' opens with '/' has no scheme, so it is no URL. */
  lemma NotUrlWithoutScheme(s: string)
    requires |s| > 0 && s[0] == '/'
    ensures !IsUrl(s)
  {
    BeforeKeepsSlash(s, '#');
    var u := Text.Before(s, '#');
    assert SchemeFrom(u, 0) == Some(("", u));
  }

  /** A malformed escape in the path spoils the URL. */
  lemma BadEscapeUrl()
    ensures !IsUrl("http://" + "cdn" + "/x%zz.png")
  {
    assert !EscapeOkAt("/x%zz.png", 2);
    assert NoCtl("cdn/x%zz.png");
    HttpUrl("cdn", "/x%zz.png");
  }

  lemma NoCtlPrefix(a: string, b: string)
    requires a <= b && NoCtl(b)
    ensures NoCtl(a)
  {
    assert forall i :: 0 <= i < |a| ==> a[i] == b[i];
  }

  lemma NoCtlAppend(a: string, b: string)
    requires NoCtl(a) && NoCtl(b)
    ensures NoCtl(a + b)
  {
    var u := a + b;
    assert forall i :: |a| <= i < |u| ==> u[i] == b[i - |a|];
  }
}
