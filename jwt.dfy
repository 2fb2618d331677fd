/** Token issuance and validation (backend/src/auth/jwt.rs). The claims follow RFC 7519:
    `sub` (section 4.1.2), `exp` (section 4.1.4) and `iat` (section 4.1.6). The
    jsonwebtoken `encode` and `decode` calls are an abstract codec passed in as
    functions; signature and expiry checking happen inside that abstraction. */
module Jwt {
  import opened Prelude
  import opened Uuids
  import opened Errors
  import Text
  import Common

  datatype Claims = Claims(sub: Uuid, exp: int, iat: int)

  /** `jsonwebtoken::encode` with the default header and the given secret. */
  type Encoder = (Claims, string) -> Result<string, ForeignError>

  /** `jsonwebtoken::decode::<Claims>` with the given secret and default validation. */
  type Decoder = (string, string) -> Result<Claims, ForeignError>

  /** 24 hours, in seconds. */
  const TokenLifetime := 24 * 60 * 60

  const U64Modulus := 0x1_0000_0000_0000_0000

  /** The two clock readings `create_token` takes: SystemTime's seconds since the Unix
      epoch (a u64) and `Utc::now().timestamp()`. */
  datatype Clock = Clock(systemSecs: nat, utcSecs: int)

  predicate ValidClock(clock: Clock) {
    clock.systemSecs < U64Modulus
  }

  /** `Claims::new(user_id, expiration)` at clock reading `now`. */
  function NewClaims(userId: Uuid, expiration: int, now: int): (c: Claims)
    ensures c.sub == userId && c.iat == now
    ensures c.exp - c.iat == expiration
  {
    Claims(userId, now + expiration, now)
  }

  /** `n as i64` for a 64-bit unsigned n: two's-complement wrap-around. */
  function AsI64(n: nat): (r: int)
    requires n < U64Modulus
    ensures Text.InI64(r)
    ensures n <= Text.I64Max ==> r == n
    ensures Text.I64Max < n ==> r == n - U64Modulus
    ensures (n - r) % U64Modulus == 0
  {
    if n <= Text.I64Max then n else n - U64Modulus
  }

  /** The claims `create_token` signs: `exp` is the system clock plus 24 hours, added as
      usize (which wraps on a 64-bit target) and then cast to i64; `iat` is the second
      clock reading. */
  function IssuedClaims(u: Uuid, clock: Clock): (c: Claims)
    requires ValidClock(clock)
    ensures c.sub == u && c.iat == clock.utcSecs
    ensures Text.InI64(c.exp)
    ensures (c.exp - (clock.systemSecs + TokenLifetime)) % U64Modulus == 0
    ensures clock.systemSecs + TokenLifetime <= Text.I64Max ==> c.exp == clock.systemSecs + TokenLifetime
    ensures Text.I64Max < clock.systemSecs + TokenLifetime ==> c.exp == clock.systemSecs + TokenLifetime - U64Modulus
  {
    var expiration := (clock.systemSecs + TokenLifetime) % U64Modulus;
    Claims(u, AsI64(expiration), clock.utcSecs)
  }

  /** `create_token(user_id, _email, _role, jwt_secret)` */
  function CreateToken(userId: string, email: string, role: string, secret: string,
                       clock: Clock, encode: Encoder): (r: Result<Common.TokenResponse, AppError>)
    requires ValidClock(clock)
    ensures ParseStr(userId).Err? ==> r == Err(UuidError(ParseStr(userId).error))
    ensures ParseStr(userId).Ok? && encode(IssuedClaims(ParseStr(userId).value, clock), secret).Err? ==>
              r == Err(JwtError(encode(IssuedClaims(ParseStr(userId).value, clock), secret).error))
    ensures ParseStr(userId).Ok? && encode(IssuedClaims(ParseStr(userId).value, clock), secret).Ok? ==>
              r == Ok(Common.TokenResponse(encode(IssuedClaims(ParseStr(userId).value, clock), secret).value,
                                           "Bearer", TokenLifetime))
    ensures r.Ok? ==> r.value.tokenType == "Bearer" && r.value.expiresIn == 86400
    ensures r.Ok? ==>
              && ParseStr(userId).Ok?
              && encode(IssuedClaims(ParseStr(userId).value, clock), secret) == Ok(r.value.accessToken)
  {
    match ParseStr(userId)
    case Err(e) => Err(FromUuid(e))
    case Ok(sub) =>
      match encode(IssuedClaims(sub, clock), secret)
      case Err(e) => Err(JwtError(e))
      case Ok(token) => Ok(Common.TokenResponse(token, "Bearer", TokenLifetime))
  }

  /** The email and role arguments never influence the result. */
  lemma CreateTokenIgnoresEmailAndRole(userId: string, email1: string, role1: string,
                                       email2: string, role2: string, secret: string,
                                       clock: Clock, encode: Encoder)
    requires ValidClock(clock)
    ensures CreateToken(userId, email1, role1, secret, clock, encode) ==
            CreateToken(userId, email2, role2, secret, clock, encode)
  {
  }

  /** The secret only reaches the signed token: two successful issuances for the same
      user under different secrets sign the same claims and agree on everything but
      `access_token`. */
  lemma SecretOnlyAffectsAccessToken(userId: string, secret1: string, secret2: string,
                                     clock: Clock, encode: Encoder)
    requires ValidClock(clock)
    requires CreateToken(userId, "", "", secret1, clock, encode).Ok?
    requires CreateToken(userId, "", "", secret2, clock, encode).Ok?
    ensures CreateToken(userId, "", "", secret1, clock, encode).value.tokenType ==
            CreateToken(userId, "", "", secret2, clock, encode).value.tokenType
    ensures CreateToken(userId, "", "", secret1, clock, encode).value.expiresIn ==
            CreateToken(userId, "", "", secret2, clock, encode).value.expiresIn
  {
  }

  /** With both clocks giving the same reading t (and no overflow), the signed claims
      expire exactly `expires_in` seconds after they were issued. */
  lemma LifetimeMatchesExpiresIn(userId: string, secret: string, clock: Clock, encode: Encoder)
    requires ValidClock(clock)
    requires clock.systemSecs == clock.utcSecs
    requires clock.systemSecs + TokenLifetime <= Text.I64Max
    requires CreateToken(userId, "", "", secret, clock, encode).Ok?
    ensures var c := IssuedClaims(ParseStr(userId).value, clock);
            c.exp - c.iat == CreateToken(userId, "", "", secret, clock, encode).value.expiresIn &&
            c.exp == c.iat + 86400
  {
  }

  /** Once the system clock passes i64::MAX - 86400, but while the usize sum still fits
      in 64 bits, the `as i64` cast wraps and the signed expiry is negative: the sum
      less 2^64. */
  lemma ExpiryWrapsNearTheEndOfTime(u: Uuid, clock: Clock)
    requires ValidClock(clock)
    requires Text.I64Max < clock.systemSecs + TokenLifetime < U64Modulus
    ensures IssuedClaims(u, clock).exp == clock.systemSecs + TokenLifetime - U64Modulus
    ensures IssuedClaims(u, clock).exp < 0
  {
  }

  /** In the last day of the u64 clock the usize sum itself wraps: the expiry is the sum
      less 2^64, a small non-negative number below 86400. */
  lemma ExpiryWrapsPastUsize(u: Uuid, clock: Clock)
    requires ValidClock(clock)
    requires U64Modulus <= clock.systemSecs + TokenLifetime
    ensures IssuedClaims(u, clock).exp == clock.systemSecs + TokenLifetime - U64Modulus
    ensures 0 <= IssuedClaims(u, clock).exp < TokenLifetime
  {
  }

  /** `validate_token(token, jwt_secret)` */
  function ValidateToken(token: string, secret: string, decode: Decoder): (r: Result<Claims, AppError>)
    ensures r.Ok? <==> decode(token, secret).Ok?
    ensures r.Ok? ==> r.value == decode(token, secret).value
    ensures r.Err? ==> r.error == JwtError(decode(token, secret).error) &&
                       ErrorResponseOf(r.error) == HttpError(StatusUnauthorized, ErrorResponse("Invalid token"))
  {
    match decode(token, secret)
    case Ok(claims) => Ok(claims)
    case Err(e) => Err(FromJwt(e))
  }

  /** The codec reads back, under one secret, the claim set `c` once signed. Only the
      claims actually issued are asked for: a decoder with `Validation::default` refuses
      expired claims, so read-back of every claim set is not assumed. */
  ghost predicate ReadsBack(encode: Encoder, decode: Decoder, secret: string, c: Claims) {
    encode(c, secret).Ok? ==> decode(encode(c, secret).value, secret) == Ok(c)
  }

  /** Issue then validate: when the codec reads back the issued claims, validating an
      issued token yields them, and their subject is the user id that was passed in. */
  lemma IssueThenValidate(userId: string, secret: string, clock: Clock,
                          encode: Encoder, decode: Decoder)
    requires ValidClock(clock)
    requires CreateToken(userId, "", "", secret, clock, encode).Ok?
    requires ReadsBack(encode, decode, secret, IssuedClaims(ParseStr(userId).value, clock))
    ensures var v := ValidateToken(CreateToken(userId, "", "", secret, clock, encode).value.accessToken, secret, decode);
            v.Ok? && ParseStr(userId) == Ok(v.value.sub) && v.value.iat == clock.utcSecs
  {
    var sub := ParseStr(userId).value;
    assert encode(IssuedClaims(sub, clock), secret).Ok?;
  }

  /** A producer id rendered with `to_string` always passes the UUID parse, and the
      token's subject is that id. */
  lemma CreateTokenForProducerId(id: Uuid, secret: string, clock: Clock, encode: Encoder)
    requires ValidClock(clock)
    ensures ParseStr(ToString(id)) == Ok(id)
    ensures CreateToken(ToString(id), "", "producer", secret, clock, encode).Ok? <==>
            encode(IssuedClaims(id, clock), secret).Ok?
    ensures !CreateToken(ToString(id), "", "producer", secret, clock, encode).Err? ||
            CreateToken(ToString(id), "", "producer", secret, clock, encode).error.JwtError?
  {
    ParseToString(id);
  }
}
