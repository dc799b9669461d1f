/** The token codec (internal/app/jwt/jwt.go): access and refresh claims, signing with an
    expiry stamp, and validation.

    The JWS library is left abstract. A `Codec` turns a decoded token into its compact string
    and back; `Lawful` says decoding inverts encoding. The HMAC is an ideal MAC: a decoded token
    names the key its MAC was computed with, and verification compares that key with the
    configured secret. Times are whole seconds. */
module Jwt {
  import opened Wrappers
  import opened Uuids
  import opened AppErrors

  /** Signing methods a token header may name (RFC 7518, section 3.1). */
  datatype Alg = HS256 | HS384 | HS512 | RS256 | ES256 | EdDSA | NoneAlg {
    /** The HMAC family (RFC 7518, section 3.2). */
    predicate IsHmac() { HS256? || HS384? || HS512? }

    function Name(): string {
      match this
      case HS256 => "HS256"
      case HS384 => "HS384"
      case HS512 => "HS512"
      case RS256 => "RS256"
      case ES256 => "ES256"
      case EdDSA => "EdDSA"
      case NoneAlg => "none"
    }
  }

  datatype AccessClaims = AccessClaims(userId: Uuid, expiresAt: Option<int>)
  datatype RefreshClaims = RefreshClaims(uuid: Uuid, userId: Uuid, expiresAt: Option<int>)
  datatype AccessJWT = AccessJWT(claims: AccessClaims, token: string)
  datatype RefreshJWT = RefreshJWT(claims: RefreshClaims, token: string)

  const ZeroAccessJWT := AccessJWT(AccessClaims(NilUuid, None), "")
  const ZeroRefreshJWT := RefreshJWT(RefreshClaims(NilUuid, NilUuid, None), "")

  /** The payload as it travels: the JSON keys "UUID", "UserId" and "exp", each possibly
      absent. Access claims carry no "UUID"; "exp" (RFC 7519, section 4.1.4) is omitted
      while unset. */
  datatype WireClaims = WireClaims(uuid: Option<Uuid>, userId: Option<Uuid>, exp: Option<int>)

  /** A decoded compact JWS: header algorithm, payload, and the key its MAC was made with. */
  datatype Jws = Jws(alg: Alg, claims: WireClaims, macKey: string)

  datatype Codec = Codec(encode: Jws -> string, decode: string -> Option<Jws>)

  /** Decoding inverts encoding, so encoding is injective. */
  ghost predicate Lawful(c: Codec)
  {
    forall j :: c.decode(c.encode(j)) == Some(j)
  }

  /** Secret and lifetimes (in seconds) from the configuration, with the JWS library. */
  datatype JWTService = JWTService(secret: string, accessTTL: int, refreshTTL: int, codec: Codec)

  function AccessWire(c: AccessClaims): WireClaims
  {
    WireClaims(None, Some(c.userId), c.expiresAt)
  }

  function RefreshWire(c: RefreshClaims): WireClaims
  {
    WireClaims(Some(c.uuid), Some(c.userId), c.expiresAt)
  }

  /** JSON decoding into AccessClaims: an absent key leaves the zero value, unknown keys
      ("UUID") are ignored. */
  function AccessClaimsOf(w: WireClaims): AccessClaims
  {
    AccessClaims(w.userId.GetOr(NilUuid), w.exp)
  }

  /** JSON decoding into RefreshClaims: an absent key leaves the zero value. */
  function RefreshClaimsOf(w: WireClaims): RefreshClaims
  {
    RefreshClaims(w.uuid.GetOr(NilUuid), w.userId.GetOr(NilUuid), w.exp)
  }

  lemma WireRoundTrip(a: AccessClaims, r: RefreshClaims)
    ensures AccessClaimsOf(AccessWire(a)) == a
    ensures RefreshClaimsOf(RefreshWire(r)) == r
  {
  }

  /** Access claims keep only the user id; email and name are dropped. */
  function NewAccessClaims(userId: Uuid, email: string, name: string): (c: AccessClaims)
    ensures c.userId == userId && c.expiresAt.None?
  {
    AccessClaims(userId, None)
  }

  /** Refresh claims start with only the user id; the token id is still nil. */
  function NewRefreshClaims(userId: Uuid): (c: RefreshClaims)
    ensures c.userId == userId && c.uuid == NilUuid && c.expiresAt.None?
  {
    RefreshClaims(NilUuid, userId, None)
  }

  /** Stamps exp = now + accessTTL and signs with HS256 under the secret. Signing an HMAC
      with a byte-slice key cannot fail, so no error is modelled. */
  function CreateAccess(svc: JWTService, c: AccessClaims, now: int): (r: AccessJWT)
    ensures r.claims == AccessClaims(c.userId, Some(now + svc.accessTTL))
    ensures Lawful(svc.codec) ==> svc.codec.decode(r.token) == Some(Jws(HS256, AccessWire(r.claims), svc.secret))
  {
    var stamped := c.(expiresAt := Some(now + svc.accessTTL));
    AccessJWT(stamped, svc.codec.encode(Jws(HS256, AccessWire(stamped), svc.secret)))
  }

  /** Stamps exp = now + refreshTTL, assigns the fresh token id `freshId` (uuid.New()), and
      signs with HS256 under the secret. */
  function CreateRefresh(svc: JWTService, c: RefreshClaims, now: int, freshId: Uuid): (r: RefreshJWT)
    ensures r.claims == RefreshClaims(freshId, c.userId, Some(now + svc.refreshTTL))
    ensures Lawful(svc.codec) ==> svc.codec.decode(r.token) == Some(Jws(HS256, RefreshWire(r.claims), svc.secret))
  {
    var stamped := c.(expiresAt := Some(now + svc.refreshTTL), uuid := freshId);
    RefreshJWT(stamped, svc.codec.encode(Jws(HS256, RefreshWire(stamped), svc.secret)))
  }

  /** The key function: any signing method outside the HMAC family is refused before the
      signature is looked at (RFC 8725, section 3.1). */
  function ValidateParsed(svc: JWTService, alg: Alg): (r: Outcome<Option<string>>)
    ensures r.Ok() <==> alg.IsHmac()
    ensures r.Ok() ==> r.value == Some(svc.secret)
    ensures !r.Ok() ==> r.value.None?
  {
    if alg.IsHmac() then Outcome(Some(svc.secret), None)
    else Outcome(None, Some(Other("unexpected signing method: " + alg.Name())))
  }

  /** The expiry check of golang-jwt v4: an absent exp passes, otherwise now must be before it. */
  predicate Unexpired(w: WireClaims, now: int)
  {
    w.exp.None? || now < w.exp.value
  }

  /** What it takes for a token string to be accepted at time `now`: it decodes, its
      algorithm is HMAC, its MAC was made with the secret, and it has not expired. */
  predicate Accepted(svc: JWTService, token: string, now: int)
  {
    match svc.codec.decode(token)
    case None => false
    case Some(j) => j.alg.IsHmac() && j.macKey == svc.secret && Unexpired(j.claims, now)
  }

  /** The outcome of golang-jwt v4's ParseWithClaims: the token (when it decoded), its Valid
      flag, and the error. */
  datatype Parsed = Parsed(token: Option<Jws>, valid: bool, err: Option<Error>)

  /** ParseWithClaims: decode, run the key function, check the claims, verify the MAC. The
      library reports no error exactly when it marks the token valid. */
  function ParseWithClaims(svc: JWTService, token: string, now: int): (p: Parsed)
    ensures p.err.None? <==> p.valid
    ensures p.valid <==> Accepted(svc, token, now)
    ensures p.valid ==> p.token == svc.codec.decode(token)
  {
    match svc.codec.decode(token)
    case None => Parsed(None, false, Some(Other("token is malformed")))
    case Some(j) =>
      var key := ValidateParsed(svc, j.alg);
      if !key.Ok() then Parsed(Some(j), false, key.err)
      else
        var macOk := Some(j.macKey) == key.value;
        var claimsOk := Unexpired(j.claims, now);
        if macOk && claimsOk then Parsed(Some(j), true, None)
        else Parsed(Some(j), false, Some(Other(if !macOk then "signature is invalid" else "token is expired")))
  }

  /** On success: the decoded claims, with Token equal to the input string. Otherwise the
      zero value and an error. */
  function ValidateAccess(svc: JWTService, token: string, now: int): (r: Outcome<AccessJWT>)
    ensures r.Ok() <==> Accepted(svc, token, now)
    ensures r.Ok() ==> r.value == AccessJWT(AccessClaimsOf(svc.codec.decode(token).value.claims), token)
    ensures !r.Ok() ==> r.value == ZeroAccessJWT
  {
    var t := ParseWithClaims(svc, token, now);
    if t.err.Some? then Outcome(ZeroAccessJWT, t.err)
    else if !t.valid then Outcome(ZeroAccessJWT, Some(Other("invalid token")))
    else Outcome(AccessJWT(AccessClaimsOf(t.token.value.claims), token), None)
  }

  /** A parse, key, signature or expiry failure yields the zero value with NO error; the
      "invalid token" error is reserved for a parsed token that is not valid, which the
      library never produces. So this never reports an error, and an unaccepted token
      shows up only as zero claims. */
  function ValidateRefresh(svc: JWTService, token: string, now: int): (r: Outcome<RefreshJWT>)
    ensures r.Ok()
    ensures Accepted(svc, token, now) ==> r.value == RefreshJWT(RefreshClaimsOf(svc.codec.decode(token).value.claims), token)
    ensures !Accepted(svc, token, now) ==> r.value == ZeroRefreshJWT
  {
    var t := ParseWithClaims(svc, token, now);
    if t.err.Some? then Outcome(ZeroRefreshJWT, None)
    else
      var claims := RefreshClaimsOf(t.token.value.claims);
      if !t.valid then Outcome(ZeroRefreshJWT, Some(Other("invalid token")))
      else Outcome(RefreshJWT(claims, token), None)
  }

  /** Round trip: before its expiry a freshly created access token validates to exactly the
      claims and string CreateAccess returned; from its expiry on it is rejected. */
  lemma AccessRoundTrip(svc: JWTService, c: AccessClaims, now: int, at: int)
    requires Lawful(svc.codec)
    ensures var a := CreateAccess(svc, c, now);
      ValidateAccess(svc, a.token, at) == if at < now + svc.accessTTL then Outcome(a, None)
                                          else Outcome(ZeroAccessJWT, Some(Other("token is expired")))
  {
  }

  /** Round trip: before its expiry a freshly created refresh token validates to exactly the
      claims and string CreateRefresh returned; from its expiry on it validates to the zero
      value, still without an error. */
  lemma RefreshRoundTrip(svc: JWTService, c: RefreshClaims, now: int, freshId: Uuid, at: int)
    requires Lawful(svc.codec)
    ensures var r := CreateRefresh(svc, c, now, freshId);
      ValidateRefresh(svc, r.token, at) == if at < now + svc.refreshTTL then Outcome(r, None)
                                           else Outcome(ZeroRefreshJWT, None)
  {
  }

  /** A token whose MAC was made under another key, or whose header names a non-HMAC
      algorithm, is refused by both validators whatever its claims. */
  lemma ForgeriesRejected(svc: JWTService, j: Jws, at: int)
    requires Lawful(svc.codec)
    requires j.macKey != svc.secret || !j.alg.IsHmac()
    ensures !ValidateAccess(svc, svc.codec.encode(j), at).Ok()
    ensures ValidateRefresh(svc, svc.codec.encode(j), at) == Outcome(ZeroRefreshJWT, None)
  {
  }

  /** Access validation does not look at the token kind: a live refresh token is accepted
      as an access token for the same user, because both payloads carry the "UserId" key. */
  lemma RefreshTokenPassesAsAccess(svc: JWTService, c: RefreshClaims, now: int, freshId: Uuid, at: int)
    requires Lawful(svc.codec)
    requires at < now + svc.refreshTTL
    ensures var r := CreateRefresh(svc, c, now, freshId);
      ValidateAccess(svc, r.token, at) == Outcome(AccessJWT(AccessClaims(c.userId, Some(now + svc.refreshTTL)), r.token), None)
  {
  }
}
