/**
 * The bearer-token codec of php-api/helpers/jwt.php: three base64url segments
 * (section 7.1 of RFC 7515), an HS256 signature over "header.payload"
 * (section 3.2 of RFC 7518), an expiry check, and the role gate used by every
 * protected endpoint. HMAC-SHA256 and JSON encoding are foreign primitives and
 * are passed in; the clock readings are parameters.
 */
module Jwt {
  import opened Common
  import opened Text
  import Base64

  /** JWT_EXPIRY in php-api/config/database.php: seven days, in seconds. */
  const JwtExpiry: int := 86400 * 7

  /** The claims the payload carries; `exp` may be missing from a decoded payload. */
  datatype Claims = Claims(userId: int, email: string, role: string, iat: int, exp: Option<int>)

  /**
   * The process-wide secret and the foreign primitives: `hash_hmac('sha256', msg, key, true)`,
   * the JSON text of the fixed header, and `json_encode`/`json_decode` of the payload
   * (`decodeClaims` answers None where `json_decode` gives null or an empty array).
   */
  datatype Primitives = Primitives(
    secret: string,
    hmac: (string, string) -> seq<Base64.byte>,
    headerJson: seq<Base64.byte>,
    encodeClaims: Claims -> seq<Base64.byte>,
    decodeClaims: seq<Base64.byte> -> Option<Claims>)

  /** json_decode inverts json_encode on the claims the codec issues. */
  ghost predicate JsonRoundTrips(p: Primitives)
  {
    forall c :: p.decodeClaims(p.encodeClaims(c)) == Some(c)
  }

  /** The signature segment for a header and payload segment. */
  function Signature(p: Primitives, header: string, payload: string): string
  {
    Base64.UrlEncode(p.hmac(header + "." + payload, p.secret))
  }

  /**
   * `generateJWT` (jwt.php:14-30). `time()` is read twice, once for `iat` and once
   * for `exp`; the two readings are `iatClock` and `expClock`.
   */
  function Generate(p: Primitives, userId: int, email: string, role: string, iatClock: int, expClock: int): string
  {
    var header := Base64.UrlEncode(p.headerJson);
    var payload := Base64.UrlEncode(p.encodeClaims(Claims(userId, email, role, iatClock, Some(expClock + JwtExpiry))));
    header + "." + payload + "." + Signature(p, header, payload)
  }

  /**
   * `verifyJWT` (jwt.php:32-48): the claims, or None for a token that does not split
   * into three segments, whose signature segment differs from the recomputed one,
   * whose payload does not decode, or whose `exp` is missing or before `now`.
   */
  function Verify(p: Primitives, token: string, now: int): (r: Option<Claims>)
    ensures r.Some? <==>
      var parts := Split(token, '.');
      && |parts| == 3
      && parts[2] == Signature(p, parts[0], parts[1])
      && p.decodeClaims(Base64.UrlDecode(parts[1])).Some?
      && p.decodeClaims(Base64.UrlDecode(parts[1])).value.exp.Some?
      && now <= p.decodeClaims(Base64.UrlDecode(parts[1])).value.exp.value
    ensures r.Some? ==> r == p.decodeClaims(Base64.UrlDecode(Split(token, '.')[1]))
  {
    var parts := Split(token, '.');
    if |parts| != 3 then None
    else if Signature(p, parts[0], parts[1]) != parts[2] then None
    else match p.decodeClaims(Base64.UrlDecode(parts[1]))
      case None => None
      case Some(claims) =>
        if claims.exp.None? || claims.exp.value < now then None else Some(claims)
  }

  /** `requireAuth` (jwt.php:61-69): 401 Unauthorized without verified claims. */
  function RequireAuth(verified: Option<Claims>): (r: Result<Claims, HttpError>)
    ensures r.Err? <==> verified.None?
    ensures r.Err? ==> r.error == HttpError(401, "Unauthorized")
    ensures r.Ok? ==> r.value == verified.value
  {
    match verified
    case None => Err(HttpError(401, "Unauthorized"))
    case Some(c) => Ok(c)
  }

  /** `requireRole` (jwt.php:71-79): 401 without claims, 403 Forbidden when the role claim differs. */
  function RequireRole(verified: Option<Claims>, role: string): (r: Result<Claims, HttpError>)
    ensures r.Ok? <==> verified.Some? && verified.value.role == role
    ensures r.Ok? ==> r.value == verified.value
    ensures r.Err? && verified.None? ==> r.error.status == 401
    ensures verified.Some? && verified.value.role != role ==> r == Err(HttpError(403, "Forbidden"))
  {
    match RequireAuth(verified)
    case Err(e) => Err(e)
    case Ok(c) => if c.role != role then Err(HttpError(403, "Forbidden")) else Ok(c)
  }

  // ---------------------------------------------------------------------------
  // Properties of issued tokens

  /** Three dot-free segments joined by '.' split back into exactly those segments. */
  lemma ThreeSegments(a: string, b: string, c: string)
    requires '.' !in a && '.' !in b && '.' !in c
    ensures Split(a + "." + b + "." + c, '.') == [a, b, c]
  {
    var bc := b + "." + c;
    assert a + "." + b + "." + c == a + ['.'] + bc;
    SplitCons(a, '.', bc);
    SplitCons(b, '.', c);
    SplitNoSep(c, '.');
  }

  /** An issued token is three '.'-separated segments; the third signs the first two. */
  lemma GenerateSegments(p: Primitives, userId: int, email: string, role: string, iatClock: int, expClock: int)
    ensures var parts := Split(Generate(p, userId, email, role, iatClock, expClock), '.');
      && |parts| == 3
      && parts[0] == Base64.UrlEncode(p.headerJson)
      && parts[1] == Base64.UrlEncode(p.encodeClaims(Claims(userId, email, role, iatClock, Some(expClock + JwtExpiry))))
      && parts[2] == Base64.UrlEncode(p.hmac(parts[0] + "." + parts[1], p.secret))
  {
    var header := Base64.UrlEncode(p.headerJson);
    var payload := Base64.UrlEncode(p.encodeClaims(Claims(userId, email, role, iatClock, Some(expClock + JwtExpiry))));
    var sig := Signature(p, header, payload);
    Base64.UrlEncodeAlphabet(p.headerJson);
    Base64.UrlEncodeAlphabet(p.encodeClaims(Claims(userId, email, role, iatClock, Some(expClock + JwtExpiry))));
    Base64.UrlEncodeAlphabet(p.hmac(header + "." + payload, p.secret));
    ThreeSegments(header, payload, sig);
  }

  /**
   * Verifying an issued token gives back its claims up to and including the
   * expiry instant, and nothing after it. Accepting at `now == exp` departs from
   * section 4.1.4 of RFC 7519, which rejects a token "on or after" its expiry.
   */
  lemma VerifyGenerated(p: Primitives, userId: int, email: string, role: string, iatClock: int, expClock: int, now: int)
    requires JsonRoundTrips(p)
    ensures now <= expClock + JwtExpiry ==>
      Verify(p, Generate(p, userId, email, role, iatClock, expClock), now)
        == Some(Claims(userId, email, role, iatClock, Some(expClock + JwtExpiry)))
    ensures now > expClock + JwtExpiry ==>
      Verify(p, Generate(p, userId, email, role, iatClock, expClock), now) == None
  {
    var claims := Claims(userId, email, role, iatClock, Some(expClock + JwtExpiry));
    GenerateSegments(p, userId, email, role, iatClock, expClock);
    Base64.UrlRoundTrip(p.encodeClaims(claims));
    assert p.decodeClaims(p.encodeClaims(claims)) == Some(claims);
  }

  /** A token whose signature segment was replaced by anything else is rejected. */
  lemma TamperedSignatureRejected(p: Primitives, userId: int, email: string, role: string,
                                  iatClock: int, expClock: int, forged: string, now: int)
    requires '.' !in forged
    ensures var header := Base64.UrlEncode(p.headerJson);
      var payload := Base64.UrlEncode(p.encodeClaims(Claims(userId, email, role, iatClock, Some(expClock + JwtExpiry))));
      forged != Signature(p, header, payload) ==> Verify(p, header + "." + payload + "." + forged, now) == None
  {
    var header := Base64.UrlEncode(p.headerJson);
    var payload := Base64.UrlEncode(p.encodeClaims(Claims(userId, email, role, iatClock, Some(expClock + JwtExpiry))));
    Base64.UrlEncodeAlphabet(p.headerJson);
    Base64.UrlEncodeAlphabet(p.encodeClaims(Claims(userId, email, role, iatClock, Some(expClock + JwtExpiry))));
    ThreeSegments(header, payload, forged);
  }

  /** A verified token of an issued identity passes the role gate exactly for its own role. */
  lemma RoleGateOnIssued(p: Primitives, userId: int, email: string, role: string, wanted: string, t: int, now: int)
    requires JsonRoundTrips(p)
    requires now <= t + JwtExpiry
    ensures RequireRole(Verify(p, Generate(p, userId, email, role, t, t), now), wanted).Ok? <==> role == wanted
    ensures role != wanted ==>
      RequireRole(Verify(p, Generate(p, userId, email, role, t, t), now), wanted).error.status == 403
  {
    VerifyGenerated(p, userId, email, role, t, t, now);
  }
}
