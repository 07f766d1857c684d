/** Session tokens (internal/middleware/auth.go): the claims a token carries,
    how the panel issues one and how a presented token is parsed and
    validated. HMAC signing is modelled symbolically and the compact wire
    form by a pair of codec functions given as parameters. */
module Jwt {
  import opened Common

  /** The key every token is signed and verified with. The configured
      JWT_SECRET is never consulted. */
  const JWTSecret := "your-secret-key"

  /** Token lifetime in seconds. */
  const TokenLifetime: int := 3600

  /** Claims: the panel's own fields plus the registered claims that matter
      for validation; times are Unix seconds, `None` when absent. */
  datatype Claims = Claims(
    username: string,
    password: string,
    policyName: string,
    permissions: map<string, bool>,
    issuedAt: Option<int>,
    expiresAt: Option<int>,
    notBefore: Option<int>)

  /** The "alg" header of a token: the three HMAC algorithms, "none", another
      algorithm the library implements (RSA, ECDSA, EdDSA), or a name it does
      not know. */
  datatype Alg = HS256 | HS384 | HS512 | NoneAlg | Asymmetric(name: string) | Unregistered(name: string)

  predicate IsHmac(alg: Alg)
  {
    alg == HS256 || alg == HS384 || alg == HS512
  }

  /** A signature is identified by what it was computed from: an HMAC is taken
      to be unforgeable, so a signature verifies under a key exactly when it
      is the MAC of the same algorithm, key and claims. `Garbage` is any other
      signature segment. */
  datatype Signature = Mac(alg: Alg, key: string, claims: Claims) | Garbage

  datatype Token = Token(alg: Alg, claims: Claims, signature: Signature)

  /** The wire codec: `encode` gives the compact "header.payload.signature"
      text of a token and `decode` reads one back, `None` for malformed text. */
  datatype Codec = Codec(encode: Token -> string, decode: string -> Option<Token>)

  /** The codec reads back what it writes for `t`. */
  predicate RoundTrips(codec: Codec, t: Token)
  {
    codec.decode(codec.encode(t)) == Some(t)
  }

  /** jwt.NewWithClaims(SigningMethodHS256, claims) signed with `key`. */
  function Sign(claims: Claims, key: string): (t: Token)
    ensures t.alg == HS256 && t.claims == claims
    ensures t.signature == Mac(HS256, key, claims)
  {
    Token(HS256, claims, Mac(HS256, key, claims))
  }

  datatype ParseError = Malformed | Unverifiable | SignatureInvalid | Expired | NotValidYet

  datatype ParseResult = Valid(claims: Claims) | Invalid(reason: ParseError)

  /** The registered-claims checks of the default validator at time `now`:
      an expiry, when present, must lie after `now`; a not-before time, when
      present, must not; the issued-at time is not checked. */
  function ValidateClaims(c: Claims, now: int): (r: Option<ParseError>)
    ensures r == None <==>
              (c.expiresAt.None? || now < c.expiresAt.value) && (c.notBefore.None? || c.notBefore.value <= now)
  {
    if c.expiresAt.Some? && !(now < c.expiresAt.value) then Some(Expired)
    else if c.notBefore.Some? && now < c.notBefore.value then Some(NotValidYet)
    else None
  }

  /** jwt.ParseWithClaims with a key function that returns `key` whatever the
      token's algorithm: the text is decoded, the signature checked with the
      token's own HMAC algorithm, and only then the claims validated. The
      "none" algorithm and the asymmetric algorithms refuse a byte key, and an
      unknown algorithm makes the token unverifiable. */
  function Parse(tokenString: string, key: string, now: int, codec: Codec): (r: ParseResult)
    ensures r.Valid? <==>
              codec.decode(tokenString).Some?
              && IsHmac(codec.decode(tokenString).value.alg)
              && codec.decode(tokenString).value.signature
                   == Mac(codec.decode(tokenString).value.alg, key, codec.decode(tokenString).value.claims)
              && ValidateClaims(codec.decode(tokenString).value.claims, now) == None
    ensures r.Valid? ==> r.claims == codec.decode(tokenString).value.claims
    ensures codec.decode(tokenString).None? ==> r == Invalid(Malformed)
  {
    match codec.decode(tokenString)
    case None => Invalid(Malformed)
    case Some(t) =>
      if t.alg.Unregistered? then Invalid(Unverifiable)
      else if !IsHmac(t.alg) || t.signature != Mac(t.alg, key, t.claims) then Invalid(SignatureInvalid)
      else
        match ValidateClaims(t.claims, now)
        case Some(e) => Invalid(e)
        case None => Valid(t.claims)
  }

  /** The claims of a freshly issued token at time `now`. */
  function SessionClaims(username: string, password: string, policyName: string,
                         permissions: map<string, bool>, now: int): (c: Claims)
    ensures c.username == username && c.password == password && c.policyName == policyName
    ensures c.permissions == permissions
    ensures c.issuedAt == Some(now) && c.expiresAt == Some(now + TokenLifetime)
    ensures c.notBefore == None
  {
    Claims(username, password, policyName, permissions, Some(now), Some(now + TokenLifetime), None)
  }

  /** GenerateJWTWithUserInfo: the four user fields, issued now and expiring one
      hour later, signed with the constant key. `signing` is what the
      library's SignedString returns besides the text. */
  function GenerateJWTWithUserInfo(username: string, password: string, policyName: string,
                                   permissions: map<string, bool>, now: int, codec: Codec,
                                   signing: Outcome): (r: Result<string>)
    ensures signing.Fail? ==> r == Failure(signing.error)
    ensures signing.Pass? ==>
              r == Success(codec.encode(Sign(SessionClaims(username, password, policyName, permissions, now), JWTSecret)))
  {
    if signing.Fail? then Failure(signing.error)
    else Success(codec.encode(Sign(SessionClaims(username, password, policyName, permissions, now), JWTSecret)))
  }

  /** GenerateJWT: a token that carries only the user name, with no password,
      no policy name and no permissions. */
  function GenerateJWT(username: string, now: int, codec: Codec, signing: Outcome): (r: Result<string>)
    ensures r == GenerateJWTWithUserInfo(username, "", "", map[], now, codec, signing)
  {
    if signing.Fail? then Failure(signing.error)
    else Success(codec.encode(Sign(Claims(username, "", "", map[], Some(now), Some(now + TokenLifetime), None), JWTSecret)))
  }

  // ---------------------------------------------------------------------------
  // Properties

  /** Round trip: a token issued at `issued` is accepted at any time before its
      expiry one hour later, and yields exactly the four user fields. */
  lemma {:induction false} IssuedTokenVerifies(username: string, password: string, policyName: string,
                                               permissions: map<string, bool>, issued: int, now: int, codec: Codec)
    requires RoundTrips(codec, Sign(SessionClaims(username, password, policyName, permissions, issued), JWTSecret))
    requires now < issued + TokenLifetime
    ensures GenerateJWTWithUserInfo(username, password, policyName, permissions, issued, codec, Pass).Success?
    ensures var c := Parse(GenerateJWTWithUserInfo(username, password, policyName, permissions, issued, codec, Pass).value,
                           JWTSecret, now, codec).claims;
            Parse(GenerateJWTWithUserInfo(username, password, policyName, permissions, issued, codec, Pass).value,
                  JWTSecret, now, codec).Valid?
            && c.username == username && c.password == password
            && c.policyName == policyName && c.permissions == permissions
  {
    var claims := SessionClaims(username, password, policyName, permissions, issued);
    assert ValidateClaims(claims, now) == None;
  }

  /** From the moment of expiry on, the same token is refused as expired. */
  lemma {:induction false} IssuedTokenExpires(username: string, password: string, policyName: string,
                                              permissions: map<string, bool>, issued: int, now: int, codec: Codec)
    requires RoundTrips(codec, Sign(SessionClaims(username, password, policyName, permissions, issued), JWTSecret))
    requires now >= issued + TokenLifetime
    ensures Parse(GenerateJWTWithUserInfo(username, password, policyName, permissions, issued, codec, Pass).value,
                  JWTSecret, now, codec) == Invalid(Expired)
  {
  }

  /** Only tokens carrying an HMAC of their own claims under the verification key
      are accepted: a token signed with any other key is refused. */
  lemma {:induction false} OnlyKeyHolderTokensAccepted(tokenString: string, key: string, now: int, codec: Codec)
    requires Parse(tokenString, key, now, codec).Valid?
    ensures codec.decode(tokenString).Some?
    ensures codec.decode(tokenString).value.signature
              == Mac(codec.decode(tokenString).value.alg, key, Parse(tokenString, key, now, codec).claims)
  {
  }

  /** The key function does not pin the algorithm: a token signed with HS384
      or HS512 under the same key is accepted as well. */
  lemma {:induction false} AnyHmacAccepted(claims: Claims, alg: Alg, now: int, codec: Codec)
    requires IsHmac(alg)
    requires RoundTrips(codec, Token(alg, claims, Mac(alg, JWTSecret, claims)))
    requires ValidateClaims(claims, now) == None
    ensures Parse(codec.encode(Token(alg, claims, Mac(alg, JWTSecret, claims))), JWTSecret, now, codec) == Valid(claims)
  {
  }

  /** A token whose algorithm is "none" is never accepted. */
  lemma {:induction false} NoneAlgorithmRefused(tokenString: string, key: string, now: int, codec: Codec)
    requires codec.decode(tokenString).Some? && codec.decode(tokenString).value.alg == NoneAlg
    ensures Parse(tokenString, key, now, codec) == Invalid(SignatureInvalid)
  {
  }
}
