/**
 * Signed tokens as the services use them (github.com/golang-jwt/jwt). The
 * compact JWS form of RFC 7519 (base64url JSON, RSA signature) is replaced by
 * a length-prefixed encoding of the header algorithm, the claims and the key
 * pair that signed it; a signature verifies when that pair is the verifying
 * one. Parse makes jwt-go's checks in jwt-go's order.
 */
module Jwt {
  import opened Wrappers
  import Text

  /** The `alg` header; jwt-go's *SigningMethodRSA covers RS256/384/512 only. */
  datatype Alg = RS256 | RS384 | RS512 | PS256 | HS256 | ES256 | AlgNone

  predicate IsRsa(a: Alg)
  {
    a == RS256 || a == RS384 || a == RS512
  }

  /** An RSA key pair: the access pair, the refresh pair, or any other. */
  datatype KeyPair = AccessPair | RefreshPair | OtherPair

  /**
   * The claims of both token kinds: `user_id`, `key_type`, `user_type` (empty
   * in refresh tokens, which do not have it), `exp` in Unix seconds (0 when
   * absent) and `iss`.
   */
  datatype Claims = Claims(userId: string, keyType: string, userType: string, expiresAt: int, issuer: string)

  datatype Token = Token(alg: Alg, claims: Claims, signer: KeyPair)

  // ---- The encoding ---------------------------------------------------------

  function AlgName(a: Alg): string
  {
    match a
    case RS256 => "RS256"
    case RS384 => "RS384"
    case RS512 => "RS512"
    case PS256 => "PS256"
    case HS256 => "HS256"
    case ES256 => "ES256"
    case AlgNone => "none"
  }

  function AlgOf(name: string): (r: Option<Alg>)
    ensures r.Some? ==> AlgName(r.value) == name
  {
    if name == "RS256" then Some(RS256)
    else if name == "RS384" then Some(RS384)
    else if name == "RS512" then Some(RS512)
    else if name == "PS256" then Some(PS256)
    else if name == "HS256" then Some(HS256)
    else if name == "ES256" then Some(ES256)
    else if name == "none" then Some(AlgNone)
    else None
  }

  lemma AlgRoundTrip(a: Alg)
    ensures AlgOf(AlgName(a)) == Some(a)
  {
  }

  function PairName(k: KeyPair): string
  {
    match k
    case AccessPair => "access"
    case RefreshPair => "refresh"
    case OtherPair => "other"
  }

  function PairOf(name: string): (r: Option<KeyPair>)
    ensures r.Some? ==> PairName(r.value) == name
  {
    if name == "access" then Some(AccessPair)
    else if name == "refresh" then Some(RefreshPair)
    else if name == "other" then Some(OtherPair)
    else None
  }

  lemma PairRoundTrip(k: KeyPair)
    ensures PairOf(PairName(k)) == Some(k)
  {
  }

  /** One field: its length in decimal, a colon, then the text itself. */
  function Field(s: string): (r: string)
    ensures |r| > |s|
  {
    Text.NatToDec(|s|) + ":" + s
  }

  /** The field at the head of `s` and what follows it, if `s` starts with one. */
  function ReadField(s: string): (r: Option<(string, string)>)
    ensures r.Some? ==> |r.value.1| < |s|
  {
    match Text.FirstIndex(s, ':')
    case None => None
    case Some(i) =>
      if i == 0 || !Text.AllDigits(s[..i]) then None
      else
        var n := Text.DecToNat(s[..i]);
        if i + 1 + n <= |s| then Some((s[i + 1..i + 1 + n], s[i + 1 + n..])) else None
  }

  lemma ReadFieldOf(x: string, rest: string)
    ensures ReadField(Field(x) + rest) == Some((x, rest))
  {
    var d := Text.NatToDec(|x|);
    var s := Field(x) + rest;
    Text.NatDecRoundTrip(|x|);
    Text.NatToDecDigits(|x|);
    assert s[|d|] == ':';
    assert s[..|d|] == d;
    assert forall k :: 0 <= k < |d| ==> s[k] == d[k] && Text.IsDigit(d[k]);
    var i := Text.FirstIndex(s, ':').value;
    assert i == |d|;
    assert s[i + 1..i + 1 + |x|] == x;
    assert s[i + 1 + |x|..] == rest;
  }

  function Pack(fs: seq<string>): string
  {
    if fs == [] then "" else Field(fs[0]) + Pack(fs[1..])
  }

  /** Exactly `n` fields and nothing after them. */
  function Unpack(s: string, n: nat): (r: Option<seq<string>>)
    ensures r.Some? ==> |r.value| == n
  {
    if n == 0 then (if s == "" then Some([]) else None)
    else match ReadField(s)
      case None => None
      case Some((f, rest)) =>
        match Unpack(rest, n - 1)
        case None => None
        case Some(fs) => Some([f] + fs)
  }

  lemma {:induction false} UnpackPack(fs: seq<string>)
    ensures Unpack(Pack(fs), |fs|) == Some(fs)
  {
    if fs != [] {
      ReadFieldOf(fs[0], Pack(fs[1..]));
      UnpackPack(fs[1..]);
      assert [fs[0]] + fs[1..] == fs;
    }
  }

  function Fields(t: Token): seq<string>
  {
    [AlgName(t.alg), t.claims.userId, t.claims.keyType, t.claims.userType,
     Text.IntToDec(t.claims.expiresAt), t.claims.issuer, PairName(t.signer)]
  }

  /** The token string SignedString produces. */
  function Encode(t: Token): (s: string)
    ensures |s| > 0
  {
    Pack(Fields(t))
  }

  function Decode(s: string): Option<Token>
  {
    match Unpack(s, 7)
    case None => None
    case Some(fs) =>
      match (AlgOf(fs[0]), Text.ParseInt(fs[4]), PairOf(fs[6]))
      case (Some(a), Some(exp), Some(k)) => Some(Token(a, Claims(fs[1], fs[2], fs[3], exp, fs[5]), k))
      case _ => None
  }

  /** A signed token reads back as itself. */
  lemma DecodeEncode(t: Token)
    ensures Decode(Encode(t)) == Some(t)
  {
    var fs := Fields(t);
    UnpackPack(fs);
    assert Unpack(Encode(t), 7) == Some(fs);
    Text.IntDecRoundTrip(t.claims.expiresAt);
    AlgRoundTrip(t.alg);
    PairRoundTrip(t.signer);
    assert (AlgOf(fs[0]), Text.ParseInt(fs[4]), PairOf(fs[6])) == (Some(t.alg), Some(t.claims.expiresAt), Some(t.signer));
  }

  /** Hence two different tokens never share a string. */
  lemma EncodeInjective(t1: Token, t2: Token)
    requires Encode(t1) == Encode(t2)
    ensures t1 == t2
  {
    DecodeEncode(t1);
    DecodeEncode(t2);
  }

  // ---- Signing and parsing --------------------------------------------------

  /** jwt.NewWithClaims(SigningMethodRS256, claims).SignedString(key). */
  function Sign(claims: Claims, signer: KeyPair): (s: string)
    ensures Decode(s) == Some(Token(RS256, claims, signer))
  {
    DecodeEncode(Token(RS256, claims, signer));
    Encode(Token(RS256, claims, signer))
  }

  /** Why ParseWithClaims failed; the signature check overrides an expiry in the error it reports. */
  datatype ParseError = Malformed | UnexpectedMethod | KeyUnavailable | SignatureInvalid | Expired

  function Message(e: ParseError): string
  {
    match e
    case Malformed => "token contains an invalid number of segments"
    case UnexpectedMethod => "Unexpected signing method in auth token"
    case KeyUnavailable => "unable to read public key"
    case SignatureInvalid => "crypto/rsa: verification error"
    case Expired => "token is expired"
  }

  /**
   * ParseWithClaims with the services' key function: the token must decode;
   * the key function refuses a non-RSA method and a public key it cannot load
   * (`verifier` is None); then the claims are validated (`exp`, when set, must
   * not be before `now`) and the signature checked against the loaded key.
   */
  function Parse(s: string, verifier: Option<KeyPair>, now: int): (r: Result<Claims, ParseError>)
    ensures r.Ok? <==>
      Decode(s).Some? && IsRsa(Decode(s).value.alg) && verifier == Some(Decode(s).value.signer)
      && (Decode(s).value.claims.expiresAt == 0 || now <= Decode(s).value.claims.expiresAt)
    ensures r.Ok? ==> r.value == Decode(s).value.claims
  {
    match Decode(s)
    case None => Err(Malformed)
    case Some(t) =>
      if !IsRsa(t.alg) then Err(UnexpectedMethod)
      else if verifier.None? then Err(KeyUnavailable)
      else if t.signer != verifier.value then Err(SignatureInvalid)
      else if t.claims.expiresAt != 0 && now > t.claims.expiresAt then Err(Expired)
      else Ok(t.claims)
  }

  /** A token parses with the pair that signed it until it expires, and never with another pair. */
  lemma SignParse(claims: Claims, signer: KeyPair, verifier: KeyPair, now: int)
    ensures Parse(Sign(claims, signer), Some(verifier), now).Ok? <==>
      signer == verifier && (claims.expiresAt == 0 || now <= claims.expiresAt)
    ensures signer != verifier ==> Parse(Sign(claims, signer), Some(verifier), now) == Err(SignatureInvalid)
    ensures Parse(Sign(claims, signer), Some(verifier), now).Ok? ==>
      Parse(Sign(claims, signer), Some(verifier), now).value == claims
  {
  }
}
