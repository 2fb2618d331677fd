/** The producer authentication handlers of backend/src/handlers/auth.rs: `register`
    (duplicate check, then create, then issue a token), `login` (every credential failure
    becomes one "Invalid credentials" answer) and `get_profile`. Both issuing handlers
    sign with the literal secret "your-secret-key", not with the configured one. */
module HandlersAuth {
  import opened Prelude
  import opened Uuids
  import opened Errors
  import opened Common
  import opened Store
  import Jwt
  import Auth
  import Middleware
  import Config

  const IssuingSecret := "your-secret-key"
  const ProducerRole := "producer"
  const EmailExists := "Email already exists"
  const InvalidCredentials := "Invalid credentials"

  /** `create_token(&producer.id.to_string(), &producer.email, "producer", "your-secret-key")`.
      A stored producer's id always parses back, so this cannot hit the UUID error: it
      fails only when the encoder does, and otherwise signs the producer's own id under
      the literal secret. */
  function IssueFor(p: Producer, clock: Jwt.Clock, encode: Jwt.Encoder): (r: Result<TokenResponse, AppError>)
    requires Jwt.ValidClock(clock)
    ensures var signed := encode(Jwt.IssuedClaims(p.id, clock), IssuingSecret);
            && (r.Ok? <==> signed.Ok?)
            && (signed.Ok? ==> r == Ok(TokenResponse(signed.value, "Bearer", 86400)))
            && (signed.Err? ==> r == Err(JwtError(signed.error)))
  {
    ParseToString(p.id);
    Jwt.CreateToken(ToString(p.id), p.email, ProducerRole, IssuingSecret, clock, encode)
  }

  /** `register`, on the store contents `producers`: the response and the store
      afterwards. `poolFailure` is the error `pool.get()` may raise, `id` the UUID the
      database would assign and `createFailure` the error the insert may raise. */
  function RegisterOutcome(producers: map<string, Producer>, poolFailure: Option<ForeignError>,
                           request: RegisterProducerRequest, id: Uuid, createFailure: Option<DieselError>,
                           clock: Jwt.Clock, encode: Jwt.Encoder): (r: (Result<Reply<TokenResponse>, AppError>, map<string, Producer>))
    requires Jwt.ValidClock(clock)
    ensures r.1 == producers || (request.email !in producers && r.1 == producers[request.email := NewProducer(request, id)])
    ensures poolFailure.Some? ==> r == (Err(PoolError(poolFailure.value)), producers)
  {
    match poolFailure
    case Some(e) => (Err(FromPool(e)), producers)
    case None =>
      if FindByEmail(producers, request.email).Ok? then (Err(BadRequest(EmailExists)), producers)
      else
        var created := Created(producers, request, id, createFailure);
        match created.0
        case Err(e) => (Err(e), created.1)
        case Ok(p) =>
          match IssueFor(p, clock, encode)
          case Err(e) => (Err(e), created.1)
          case Ok(token) => (Ok(Reply(StatusCreated, token)), created.1)
  }

  /** `register` */
  method Register(store: ProducerStore, poolFailure: Option<ForeignError>, request: RegisterProducerRequest,
                  id: Uuid, createFailure: Option<DieselError>, clock: Jwt.Clock, encode: Jwt.Encoder)
    returns (r: Result<Reply<TokenResponse>, AppError>)
    requires store.Valid() && Jwt.ValidClock(clock)
    modifies store
    ensures store.Valid()
    ensures (r, store.producers) == RegisterOutcome(old(store.producers), poolFailure, request, id, createFailure, clock, encode)
  {
    if poolFailure.Some? {
      return Err(FromPool(poolFailure.value));
    }
    var existing := FindByEmail(store.producers, request.email);
    if existing.Ok? {
      return Err(BadRequest(EmailExists));
    }
    var created := store.Create(request, id, createFailure);
    if created.Err? {
      return Err(created.error);
    }
    var token := IssueFor(created.value, clock, encode);
    if token.Err? {
      return Err(token.error);
    }
    r := Ok(Reply(StatusCreated, token.value));
  }

  /** A known email is answered with 400 "Email already exists" and the store stays as
      it was; the outcome does not depend on what the insert would have done, because
      it is never attempted. */
  lemma RegisterRejectsDuplicate(producers: map<string, Producer>, request: RegisterProducerRequest,
                                 id1: Uuid, createFailure1: Option<DieselError>,
                                 id2: Uuid, createFailure2: Option<DieselError>,
                                 clock: Jwt.Clock, encode: Jwt.Encoder)
    requires Jwt.ValidClock(clock)
    requires request.email in producers
    ensures RegisterOutcome(producers, None, request, id1, createFailure1, clock, encode) ==
            (Err(BadRequest(EmailExists)), producers)
    ensures RegisterOutcome(producers, None, request, id1, createFailure1, clock, encode) ==
            RegisterOutcome(producers, None, request, id2, createFailure2, clock, encode)
    ensures ErrorResponseOf(BadRequest(EmailExists)) == HttpError(StatusBadRequest, ErrorResponse(EmailExists))
  {
  }

  /** Registration succeeds exactly when the pool answers, the email is new, the insert
      succeeds and the token signs; it then answers 201 with a token whose subject is the
      new producer's id, and the store gains exactly that producer. */
  lemma RegisterSucceeds(producers: map<string, Producer>, poolFailure: Option<ForeignError>,
                         request: RegisterProducerRequest, id: Uuid, createFailure: Option<DieselError>,
                         clock: Jwt.Clock, encode: Jwt.Encoder)
    requires Jwt.ValidClock(clock)
    ensures var r := RegisterOutcome(producers, poolFailure, request, id, createFailure, clock, encode);
            var signed := encode(Jwt.IssuedClaims(id, clock), IssuingSecret);
            && (r.0.Ok? <==> poolFailure.None? && request.email !in producers && createFailure.None? && signed.Ok?)
            && (r.0.Ok? ==> r.0.value == Reply(StatusCreated, TokenResponse(signed.value, "Bearer", 86400)))
            && (r.0.Ok? ==> r.1 == producers[request.email := NewProducer(request, id)])
            && Jwt.IssuedClaims(id, clock).sub == id
  {
  }

  /** The insert is committed before the token is signed: when signing fails the new
      producer stays in the store while the client gets 401 "Invalid token". */
  lemma RegisterCommitsBeforeSigning(producers: map<string, Producer>, request: RegisterProducerRequest,
                                     id: Uuid, clock: Jwt.Clock, encode: Jwt.Encoder)
    requires Jwt.ValidClock(clock)
    requires request.email !in producers
    requires encode(Jwt.IssuedClaims(id, clock), IssuingSecret).Err?
    ensures var r := RegisterOutcome(producers, None, request, id, None, clock, encode);
            && r.1 == producers[request.email := NewProducer(request, id)]
            && r.0.Err?
            && ErrorResponseOf(r.0.error) == HttpError(StatusUnauthorized, ErrorResponse("Invalid token"))
  {
  }

  /** Registering an email a second time is rejected and leaves the store unchanged,
      whatever the second request carries besides the email. */
  lemma RegisterTwice(producers: map<string, Producer>, request1: RegisterProducerRequest,
                      request2: RegisterProducerRequest, id1: Uuid, id2: Uuid,
                      createFailure2: Option<DieselError>, clock: Jwt.Clock, encode: Jwt.Encoder)
    requires Jwt.ValidClock(clock)
    requires request2.email == request1.email
    requires RegisterOutcome(producers, None, request1, id1, None, clock, encode).0.Ok?
    ensures var after := RegisterOutcome(producers, None, request1, id1, None, clock, encode).1;
            RegisterOutcome(after, None, request2, id2, createFailure2, clock, encode) == (Err(BadRequest(EmailExists)), after)
  {
    RegisterSucceeds(producers, None, request1, id1, None, clock, encode);
  }

  /** Registration keeps every producer filed under its own email. */
  lemma RegisterKeepsStoreKeyed(producers: map<string, Producer>, poolFailure: Option<ForeignError>,
                                request: RegisterProducerRequest, id: Uuid, createFailure: Option<DieselError>,
                                clock: Jwt.Clock, encode: Jwt.Encoder)
    requires Jwt.ValidClock(clock)
    requires Keyed(producers)
    ensures Keyed(RegisterOutcome(producers, poolFailure, request, id, createFailure, clock, encode).1)
  {
  }

  /** `login` */
  function Login(producers: map<string, Producer>, poolFailure: Option<ForeignError>, request: LoginRequest,
                 verifier: Verifier, clock: Jwt.Clock, encode: Jwt.Encoder): (r: Result<Reply<TokenResponse>, AppError>)
    requires Jwt.ValidClock(clock)
    ensures r.Ok? ==> r.value.status == StatusOk
    ensures r.Err? ==> r.error.PoolError? || r.error == Unauthorized(InvalidCredentials) || r.error.JwtError?
  {
    match poolFailure
    case Some(e) => Err(FromPool(e))
    case None =>
      match Authenticate(producers, request.email, request.password, verifier)
      case Err(_) => Err(Unauthorized(InvalidCredentials))
      case Ok(p) =>
        match IssueFor(p, clock, encode)
        case Err(e) => Err(e)
        case Ok(token) => Ok(Reply(StatusOk, token))
  }

  /** Every authentication failure, whichever error the store reported, is answered with
      401 "Invalid credentials". */
  lemma LoginFailureUniform(producers: map<string, Producer>, request: LoginRequest, verifier: Verifier,
                            clock: Jwt.Clock, encode: Jwt.Encoder)
    requires Jwt.ValidClock(clock)
    requires Authenticate(producers, request.email, request.password, verifier).Err?
    ensures Login(producers, None, request, verifier, clock, encode) == Err(Unauthorized(InvalidCredentials))
    ensures ErrorResponseOf(Login(producers, None, request, verifier, clock, encode).error) ==
            HttpError(StatusUnauthorized, ErrorResponse(InvalidCredentials))
  {
  }

  /** Login succeeds exactly when the pool answers, the credentials check out and the token
      signs; it answers 200 with a token issued, under the literal secret, for the stored
      producer's id. */
  lemma LoginSucceeds(producers: map<string, Producer>, poolFailure: Option<ForeignError>, request: LoginRequest,
                      verifier: Verifier, clock: Jwt.Clock, encode: Jwt.Encoder)
    requires Jwt.ValidClock(clock)
    ensures var r := Login(producers, poolFailure, request, verifier, clock, encode);
            && (r.Ok? <==> && poolFailure.None?
                           && Authenticate(producers, request.email, request.password, verifier).Ok?
                           && encode(Jwt.IssuedClaims(producers[request.email].id, clock), IssuingSecret).Ok?)
            && (r.Ok? ==> r.value == Reply(StatusOk, TokenResponse(
                  encode(Jwt.IssuedClaims(producers[request.email].id, clock), IssuingSecret).value, "Bearer", 86400)))
  {
  }

  /** A codec whose tokens, signed under one secret, do not decode under another. */
  ghost predicate SecretBound(encode: Jwt.Encoder, decode: Auth.Decoder) {
    forall c: Jwt.Claims, s1: string, s2: string {:trigger decode(encode(c, s1).value, s2)} ::
      encode(c, s1).Ok? && s1 != s2 ==> decode(encode(c, s1).value, s2).Err?
  }

  /** The gates decode with the configured secret, so a token from `login` is turned away
      as "Invalid token" unless JWT_SECRET happens to be "your-secret-key". */
  lemma LoginTokenRejectedByGate(producers: map<string, Producer>, request: LoginRequest, verifier: Verifier,
                                 clock: Jwt.Clock, encode: Jwt.Encoder, decode: Auth.Decoder,
                                 config: Config.AppConfig)
    requires Jwt.ValidClock(clock)
    requires SecretBound(encode, decode)
    requires config.jwtSecret != IssuingSecret
    requires Login(producers, None, request, verifier, clock, encode).Ok?
    requires Middleware.VisibleAsciiText(Login(producers, None, request, verifier, clock, encode).value.body.accessToken)
    ensures var token := Login(producers, None, request, verifier, clock, encode).value.body.accessToken;
            Middleware.AuthGate(Some(Middleware.AsciiBytes(Middleware.BearerPrefix + token)), Some(config), decode) ==
            Err(Middleware.Rejection(Middleware.InvalidToken))
  {
    LoginSucceeds(producers, None, request, verifier, clock, encode);
    var token := Login(producers, None, request, verifier, clock, encode).value.body.accessToken;
    var claims := Jwt.IssuedClaims(producers[request.email].id, clock);
    assert encode(claims, IssuingSecret).value == token;
    assert decode(encode(claims, IssuingSecret).value, config.jwtSecret).Err?;
    Middleware.BearerTokenStripsPrefix(token);
  }

  /** `get_profile`: the producer a gate attached, with 200; without one, the
      extractor's 500 answers before the handler runs. */
  function GetProfile(req: Middleware.ServiceRequest): (r: Result<Reply<Producer>, Middleware.ExtractorError>)
    reads req
    ensures r.Ok? <==> Middleware.GetProducerFromRequest(req).Ok?
    ensures r.Ok? ==> r.value == Reply(StatusOk, Middleware.GetProducerFromRequest(req).value)
    ensures r.Err? ==> r.error.status == StatusInternal
  {
    match Middleware.ReqDataProducer(req)
    case Err(e) => Err(e)
    case Ok(p) => Ok(Reply(StatusOk, p))
  }
}
