/** The claims the authorization gates decode (backend/src/auth/mod.rs), whose subject is
    a plain string, and `verify_token`, which maps a decoder failure to Unauthorized. */
module Auth {
  import opened Prelude
  import opened Errors

  /** `sub` is not checked to be a UUID here; only the producer gate parses it. */
  datatype Claims = Claims(sub: string, exp: int, iat: int)

  /** `jsonwebtoken::decode::<Claims>` with the given secret and default validation. */
  type Decoder = (string, string) -> Result<Claims, ForeignError>

  const VerificationFailedPrefix := "Token verification failed: "

  /** `verify_token(token, jwt_secret)` */
  function VerifyToken(token: string, secret: string, decode: Decoder): (r: Result<Claims, AppError>)
    ensures r.Ok? <==> decode(token, secret).Ok?
    ensures r.Ok? ==> r.value == decode(token, secret).value
    ensures r.Err? ==> r.error == Unauthorized(VerificationFailedPrefix + decode(token, secret).error.text)
  {
    match decode(token, secret)
    case Ok(claims) => Ok(claims)
    case Err(e) => Err(Unauthorized(VerificationFailedPrefix + e.text))
  }

  /** Unlike `validate_token`, a failure is never a JwtError, and the decoder's own
      message reaches the 401 response body. */
  lemma VerifyTokenLeaksDecoderText(token: string, secret: string, decode: Decoder)
    requires decode(token, secret).Err?
    ensures !VerifyToken(token, secret, decode).error.JwtError?
    ensures ErrorResponseOf(VerifyToken(token, secret, decode).error) ==
            HttpError(StatusUnauthorized, ErrorResponse(VerificationFailedPrefix + decode(token, secret).error.text))
  {
  }

  /** Two decoder failures with different texts give different 401 bodies. */
  lemma VerifyTokenDistinguishesFailures(token1: string, token2: string, secret: string, decode: Decoder)
    requires decode(token1, secret).Err? && decode(token2, secret).Err?
    requires decode(token1, secret).error.text != decode(token2, secret).error.text
    ensures ErrorResponseOf(VerifyToken(token1, secret, decode).error) !=
            ErrorResponseOf(VerifyToken(token2, secret, decode).error)
  {
    var p := VerificationFailedPrefix;
    var t1 := decode(token1, secret).error.text;
    var t2 := decode(token2, secret).error.text;
    assert (p + t1)[|p|..] == t1;
    assert (p + t2)[|p|..] == t2;
  }
}
