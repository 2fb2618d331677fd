/** The handlers of backend/src/auth/handlers.rs: `login`, `register`, `logout` and
    `me`. They match the handlers of backend/src/handlers/auth.rs except that `login`
    hands the store's authentication error to the client unchanged. */
module AuthHandlers {
  import opened Prelude
  import opened Uuids
  import opened Errors
  import opened Common
  import opened Store
  import Jwt
  import Middleware
  import HandlersAuth

  /** `login` */
  function Login(producers: map<string, Producer>, poolFailure: Option<ForeignError>, request: LoginRequest,
                 verifier: Verifier, clock: Jwt.Clock, encode: Jwt.Encoder): (r: Result<Reply<TokenResponse>, AppError>)
    requires Jwt.ValidClock(clock)
    ensures r.Ok? ==> r.value.status == StatusOk
    ensures r.Err? ==> || r.error.PoolError? || r.error.JwtError?
                       || r.error == verifier.unknownEmail || r.error == verifier.wrongPassword
  {
    match poolFailure
    case Some(e) => Err(FromPool(e))
    case None =>
      match Authenticate(producers, request.email, request.password, verifier)
      case Err(e) => Err(e)
      case Ok(p) =>
        match HandlersAuth.IssueFor(p, clock, encode)
        case Err(e) => Err(e)
        case Ok(token) => Ok(Reply(StatusOk, TokenResponse(token.accessToken, token.tokenType, token.expiresIn)))
  }

  /** The store's authentication error reaches the client as it is. */
  lemma LoginPropagatesAuthenticationError(producers: map<string, Producer>, request: LoginRequest,
                                           verifier: Verifier, clock: Jwt.Clock, encode: Jwt.Encoder)
    requires Jwt.ValidClock(clock)
    requires Authenticate(producers, request.email, request.password, verifier).Err?
    ensures Login(producers, None, request, verifier, clock, encode) ==
            Err(Authenticate(producers, request.email, request.password, verifier).error)
    ensures request.email !in producers ==> Login(producers, None, request, verifier, clock, encode) == Err(verifier.unknownEmail)
    ensures request.email in producers ==> Login(producers, None, request, verifier, clock, encode) == Err(verifier.wrongPassword)
  {
  }

  /** Wherever the credentials check out, or the pool fails, the two login handlers give
      the same answer: a 200 whose three fields are those `create_token` returned. */
  lemma LoginAgreesOnSuccess(producers: map<string, Producer>, poolFailure: Option<ForeignError>, request: LoginRequest,
                             verifier: Verifier, clock: Jwt.Clock, encode: Jwt.Encoder)
    requires Jwt.ValidClock(clock)
    requires poolFailure.Some? || Authenticate(producers, request.email, request.password, verifier).Ok?
    ensures Login(producers, poolFailure, request, verifier, clock, encode) ==
            HandlersAuth.Login(producers, poolFailure, request, verifier, clock, encode)
    ensures Login(producers, poolFailure, request, verifier, clock, encode).Ok? ==>
              Login(producers, poolFailure, request, verifier, clock, encode).value ==
              Reply(StatusOk, HandlersAuth.IssueFor(producers[request.email], clock, encode).value)
  {
  }

  /** The contrast between the two login handlers: when the store reports an unknown
      email and a wrong password differently, this handler lets a client tell the two
      apart while the other answers both with the same 401. */
  lemma LoginErrorsContrast(producers: map<string, Producer>, unknown: LoginRequest, wrong: LoginRequest,
                            verifier: Verifier, clock: Jwt.Clock, encode: Jwt.Encoder)
    requires Jwt.ValidClock(clock)
    requires unknown.email !in producers
    requires wrong.email in producers && !verifier.matches(producers[wrong.email], wrong.password)
    requires ErrorResponseOf(verifier.unknownEmail) != ErrorResponseOf(verifier.wrongPassword)
    ensures ErrorResponseOf(Login(producers, None, unknown, verifier, clock, encode).error) !=
            ErrorResponseOf(Login(producers, None, wrong, verifier, clock, encode).error)
    ensures ErrorResponseOf(HandlersAuth.Login(producers, None, unknown, verifier, clock, encode).error) ==
            ErrorResponseOf(HandlersAuth.Login(producers, None, wrong, verifier, clock, encode).error)
  {
    HandlersAuth.LoginFailureUniform(producers, unknown, verifier, clock, encode);
    HandlersAuth.LoginFailureUniform(producers, wrong, verifier, clock, encode);
  }

  /** `register`: the same check-then-create as the other `register`, with the
      response fields copied one by one. */
  method Register(store: ProducerStore, poolFailure: Option<ForeignError>, request: RegisterProducerRequest,
                  id: Uuid, createFailure: Option<DieselError>, clock: Jwt.Clock, encode: Jwt.Encoder)
    returns (r: Result<Reply<TokenResponse>, AppError>)
    requires store.Valid() && Jwt.ValidClock(clock)
    modifies store
    ensures store.Valid()
    ensures (r, store.producers) ==
            HandlersAuth.RegisterOutcome(old(store.producers), poolFailure, request, id, createFailure, clock, encode)
  {
    if poolFailure.Some? {
      return Err(FromPool(poolFailure.value));
    }
    if FindByEmail(store.producers, request.email).Ok? {
      return Err(BadRequest(HandlersAuth.EmailExists));
    }
    var created := store.Create(request, id, createFailure);
    match created {
      case Err(e) =>
        r := Err(e);
      case Ok(producer) =>
        var token := HandlersAuth.IssueFor(producer, clock, encode);
        match token {
          case Err(e) =>
            r := Err(e);
          case Ok(t) =>
            r := Ok(Reply(StatusCreated, TokenResponse(t.accessToken, t.tokenType, t.expiresIn)));
        }
    }
  }

  datatype MessageBody = MessageBody(message: string)

  const LoggedOut := "Logged out successfully"

  /** `logout`: nothing is revoked, so every token stays as valid as it was. */
  function Logout(): (r: Result<Reply<MessageBody>, AppError>)
    ensures r.Ok? && r.value.status == StatusOk && r.value.body.message == LoggedOut
  {
    Ok(Reply(StatusOk, MessageBody(LoggedOut)))
  }

  /** `me`, whose body is that of `get_profile`. */
  function Me(req: Middleware.ServiceRequest): (r: Result<Reply<Producer>, Middleware.ExtractorError>)
    reads req
    ensures r.Ok? <==> Middleware.GetProducerFromRequest(req).Ok?
    ensures r.Ok? ==> r.value.status == StatusOk && r.value.body == Middleware.GetProducerFromRequest(req).value
    ensures r.Err? ==> r.error == Middleware.MissingExtensionData
  {
    HandlersAuth.GetProfile(req)
  }
}
