/** `AppConfig::from_env`: the process environment becomes a configuration or a panic.
    The environment is an input map; a variable mapped to None is set but not valid
    Unicode, which `env::var` reports as an error just like an absent one. */
module Config {
  import opened Prelude
  import opened Text

  type Environment = map<string, Option<string>>

  datatype AppConfig = AppConfig(
    databaseUrl: string,
    jwtSecret: string,
    jwtExpiration: int,
    serverHost: string,
    serverPort: nat)

  /** The message of the `expect` that aborts loading. Only the text given to `expect`
      is kept: the ": " and the Debug form of the error that Rust's panic message
      appends (`NotPresent`, `NotUnicode(..)`, a `ParseIntError`) are left out. */
  datatype ConfigPanic = ConfigPanic(message: string)

  const DefaultJwtExpiration := "86400"
  const DefaultServerHost := "127.0.0.1"
  const DefaultServerPort := "8080"

  /** `env::var(name).ok()` */
  function Var(env: Environment, name: string): (r: Option<string>)
    ensures r.Some? <==> name in env && env[name].Some?
    ensures r.Some? ==> r.value == env[name].value
  {
    if name in env then env[name] else None
  }

  /** `env::var("DATABASE_URL").expect(..)` */
  function DatabaseUrl(env: Environment): Result<string, ConfigPanic> {
    match Var(env, "DATABASE_URL")
    case Some(v) => Ok(v)
    case None => Err(ConfigPanic("DATABASE_URL must be set"))
  }

  /** `env::var("JWT_SECRET").expect(..)` */
  function JwtSecret(env: Environment): Result<string, ConfigPanic> {
    match Var(env, "JWT_SECRET")
    case Some(v) => Ok(v)
    case None => Err(ConfigPanic("JWT_SECRET must be set"))
  }

  /** JWT_EXPIRATION, defaulting to "86400", parsed as an i64. */
  function JwtExpiration(env: Environment): Result<int, ConfigPanic> {
    match ParseI64(Var(env, "JWT_EXPIRATION").UnwrapOr(DefaultJwtExpiration))
    case Some(n) => Ok(n)
    case None => Err(ConfigPanic("JWT_EXPIRATION must be a number"))
  }

  /** SERVER_HOST, defaulting to "127.0.0.1"; never fails. */
  function ServerHost(env: Environment): string {
    Var(env, "SERVER_HOST").UnwrapOr(DefaultServerHost)
  }

  /** SERVER_PORT, defaulting to "8080", parsed as a u16. */
  function ServerPort(env: Environment): Result<nat, ConfigPanic> {
    match ParseU16(Var(env, "SERVER_PORT").UnwrapOr(DefaultServerPort))
    case Some(n) => Ok(n)
    case None => Err(ConfigPanic("SERVER_PORT must be a number"))
  }

  /** `AppConfig::from_env`. The struct literal's fields are evaluated in order, so
      the first field whose `expect` fails decides the panic. */
  function FromEnv(env: Environment): (r: Result<AppConfig, ConfigPanic>)
    ensures r.Ok? <==> DatabaseUrl(env).Ok? && JwtSecret(env).Ok? && JwtExpiration(env).Ok? && ServerPort(env).Ok?
    ensures r.Ok? ==> r.value == AppConfig(DatabaseUrl(env).value, JwtSecret(env).value,
                                           JwtExpiration(env).value, ServerHost(env), ServerPort(env).value)
    ensures DatabaseUrl(env).Err? ==> r == Err(DatabaseUrl(env).error)
    ensures DatabaseUrl(env).Ok? && JwtSecret(env).Err? ==> r == Err(JwtSecret(env).error)
    ensures DatabaseUrl(env).Ok? && JwtSecret(env).Ok? && JwtExpiration(env).Err? ==> r == Err(JwtExpiration(env).error)
    ensures DatabaseUrl(env).Ok? && JwtSecret(env).Ok? && JwtExpiration(env).Ok? && ServerPort(env).Err? ==>
              r == Err(ServerPort(env).error)
    ensures r.Ok? ==> InI64(r.value.jwtExpiration) && r.value.serverPort <= U16Max
  {
    match DatabaseUrl(env)
    case Err(e) => Err(e)
    case Ok(databaseUrl) =>
      match JwtSecret(env)
      case Err(e) => Err(e)
      case Ok(jwtSecret) =>
        match JwtExpiration(env)
        case Err(e) => Err(e)
        case Ok(jwtExpiration) =>
          match ServerPort(env)
          case Err(e) => Err(e)
          case Ok(serverPort) =>
            Ok(AppConfig(databaseUrl, jwtSecret, jwtExpiration, ServerHost(env), serverPort))
  }

  /** DATABASE_URL and JWT_SECRET are mandatory. */
  lemma MandatoryVariables(env: Environment)
    ensures Var(env, "DATABASE_URL").None? ==> FromEnv(env) == Err(ConfigPanic("DATABASE_URL must be set"))
    ensures Var(env, "DATABASE_URL").Some? && Var(env, "JWT_SECRET").None? ==>
              FromEnv(env) == Err(ConfigPanic("JWT_SECRET must be set"))
  {
  }

  /** Both mandatory values are copied verbatim. */
  lemma MandatoryCopiedVerbatim(env: Environment)
    requires FromEnv(env).Ok?
    ensures "DATABASE_URL" in env && env["DATABASE_URL"] == Some(FromEnv(env).value.databaseUrl)
    ensures "JWT_SECRET" in env && env["JWT_SECRET"] == Some(FromEnv(env).value.jwtSecret)
  {
  }

  lemma DefaultExpirationParses()
    ensures ParseI64(DefaultJwtExpiration) == Some(86400)
  {
    assert Decimal(86400) == DefaultJwtExpiration;
    ParseI64OfDecimal(86400);
  }

  lemma DefaultPortParses()
    ensures ParseU16(DefaultServerPort) == Some(8080)
  {
    assert Decimal(8080) == DefaultServerPort;
    ParseU16OfDecimal(8080);
  }

  /** An unset JWT_EXPIRATION yields 86400; a set one is used exactly when it parses
      as an i64, and then with its parsed value. */
  lemma JwtExpirationRule(env: Environment)
    ensures Var(env, "JWT_EXPIRATION").None? ==> JwtExpiration(env) == Ok(86400)
    ensures Var(env, "JWT_EXPIRATION").Some? ==>
              (JwtExpiration(env).Ok? <==> ParseI64(env["JWT_EXPIRATION"].value).Some?)
    ensures JwtExpiration(env).Ok? && Var(env, "JWT_EXPIRATION").Some? ==>
              Some(JwtExpiration(env).value) == ParseI64(env["JWT_EXPIRATION"].value)
  {
    DefaultExpirationParses();
  }

  /** An unset SERVER_HOST yields "127.0.0.1"; a set one is copied verbatim. */
  lemma ServerHostRule(env: Environment)
    ensures Var(env, "SERVER_HOST").None? ==> ServerHost(env) == "127.0.0.1"
    ensures Var(env, "SERVER_HOST").Some? ==> ServerHost(env) == env["SERVER_HOST"].value
  {
  }

  /** An unset SERVER_PORT yields 8080; a set one must parse as a u16 (0..65535). */
  lemma ServerPortRule(env: Environment)
    ensures Var(env, "SERVER_PORT").None? ==> ServerPort(env) == Ok(8080)
    ensures Var(env, "SERVER_PORT").Some? ==>
              (ServerPort(env).Ok? <==> ParseU16(env["SERVER_PORT"].value).Some?)
    ensures ServerPort(env).Ok? ==> ServerPort(env).value <= 65535
  {
    DefaultPortParses();
  }

  /** A port written as a decimal in 0..65535 is accepted as that number, and
      "65536" is not. */
  lemma ServerPortRange(env: Environment, port: nat)
    requires Var(env, "SERVER_PORT") == Some(Decimal(port))
    ensures ServerPort(env).Ok? <==> port <= 65535
    ensures ServerPort(env).Ok? ==> ServerPort(env).value == port
  {
    if port <= U16Max {
      ParseU16OfDecimal(port);
    } else {
      DigitsValueOfDigits(port);
    }
  }
}
