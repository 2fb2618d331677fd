/** The two request authorization gates of backend/src/auth/middleware.rs. Each is an
    early-return chain (bearer header, configuration, token decode, and for the producer
    gate: subject parse, database access, producer lookup, active flag); on success it
    writes into the request's extensions and calls the downstream service once. Every
    rejection is actix's `ErrorUnauthorized`, i.e. status 401 with the message as text. */
module Middleware {
  import opened Prelude
  import opened Text
  import opened Uuids
  import opened Errors
  import opened Common
  import Config
  import Auth

  /** The type under which `extensions_mut().insert` files a value. */
  datatype ExtensionKey = ClaimsKey | ProducerKey

  datatype Extension = ClaimsExtension(claims: Auth.Claims) | ProducerExtension(producer: Producer)

  /** A request's extensions: at most one value per type. */
  type Extensions = map<ExtensionKey, Extension>

  /** What the request's app data offers for reaching the producer table: no pool
      registered, a pool whose `get()` fails, or a connection over the producers by id. */
  datatype Database = NoPool | ConnectionFails | Connected(producers: map<Uuid, Producer>)

  /** A connected table files each producer under its own id. */
  ghost predicate IdKeyed(db: Database) {
    db.Connected? ==> forall id :: id in db.producers ==> db.producers[id].id == id
  }

  /** `ErrorUnauthorized(message)` */
  datatype Rejection = Rejection(message: string) {
    const status: int := StatusUnauthorized
  }

  const MissingHeader := "Missing authorization header"
  const NoConfiguration := "Configuration not available"
  const InvalidToken := "Invalid token"
  const InvalidProducerId := "Invalid producer ID in token"
  const PoolUnavailable := "Database pool not available"
  const ConnectionFailed := "Database connection failed"
  const ProducerNotFound := "Producer not found"
  const ProducerInactive := "Producer account is inactive"

  const BearerPrefix := "Bearer "

  /** The bytes `HeaderValue::to_str` accepts: visible ASCII and tab. */
  predicate VisibleAscii(b: byte) {
    b == 9 || 32 <= b < 127
  }

  /** `HeaderValue::to_str` */
  function HeaderToStr(v: seq<byte>): (r: Option<string>)
    ensures r.Some? <==> forall i :: 0 <= i < |v| ==> VisibleAscii(v[i])
    ensures r.Some? ==> |r.value| == |v| && forall i :: 0 <= i < |v| ==> r.value[i] as int == v[i]
  {
    if forall i :: 0 <= i < |v| ==> VisibleAscii(v[i]) then Some(seq(|v|, i requires 0 <= i < |v| => v[i] as char))
    else None
  }

  /** The header chain `get(AUTHORIZATION)`, `to_str().ok()`, `strip_prefix("Bearer ")`;
      the prefix is matched case-sensitively. */
  function BearerToken(header: Option<seq<byte>>): (t: Option<string>)
    ensures t.Some? <==> header.Some? && HeaderToStr(header.value).Some? &&
                         StartsWith(HeaderToStr(header.value).value, BearerPrefix)
    ensures t.Some? ==> BearerPrefix + t.value == HeaderToStr(header.value).value
  {
    match header
    case None => None
    case Some(v) =>
      match HeaderToStr(v)
      case None => None
      case Some(s) => StripPrefix(s, BearerPrefix)
  }

  /** The decision `AuthMiddlewareService::call` takes before touching the request. */
  function AuthGate(header: Option<seq<byte>>, config: Option<Config.AppConfig>,
                    decode: Auth.Decoder): (r: Result<Auth.Claims, Rejection>)
    ensures BearerToken(header).None? ==> r == Err(Rejection(MissingHeader))
    ensures BearerToken(header).Some? && config.None? ==> r == Err(Rejection(NoConfiguration))
    ensures BearerToken(header).Some? && config.Some? ==>
              (r.Ok? <==> decode(BearerToken(header).value, config.value.jwtSecret).Ok?)
    ensures r.Ok? ==> r.value == decode(BearerToken(header).value, config.value.jwtSecret).value
    ensures r.Err? && BearerToken(header).Some? && config.Some? ==> r.error == Rejection(InvalidToken)
  {
    match BearerToken(header)
    case None => Err(Rejection(MissingHeader))
    case Some(token) =>
      match config
      case None => Err(Rejection(NoConfiguration))
      case Some(cfg) =>
        match decode(token, cfg.jwtSecret)
        case Err(_) => Err(Rejection(InvalidToken))
        case Ok(claims) => Ok(claims)
  }

  /** The decision `ProducerAuthMiddlewareService::call` takes: the same first three
      steps, then the subject parse, the database and the producer's active flag. */
  function ProducerGate(header: Option<seq<byte>>, config: Option<Config.AppConfig>,
                        decode: Auth.Decoder, db: Database): (r: Result<(Producer, Auth.Claims), Rejection>)
    ensures AuthGate(header, config, decode).Err? ==> r == Err(AuthGate(header, config, decode).error)
    ensures r.Ok? ==> AuthGate(header, config, decode) == Ok(r.value.1)
    ensures r.Ok? ==> r.value.0.isActive
  {
    match AuthGate(header, config, decode)
    case Err(e) => Err(e)
    case Ok(claims) =>
      match ParseStr(claims.sub)
      case Err(_) => Err(Rejection(InvalidProducerId))
      case Ok(id) =>
        match db
        case NoPool => Err(Rejection(PoolUnavailable))
        case ConnectionFails => Err(Rejection(ConnectionFailed))
        case Connected(producers) =>
          if id !in producers then Err(Rejection(ProducerNotFound))
          else if !producers[id].isActive then Err(Rejection(ProducerInactive))
          else Ok((producers[id], claims))
  }

  /** The producer gate admits exactly when the token gate admits, the subject is a UUID,
      a connection is available, the id resolves and the producer is active; it then
      attaches that producer and the decoded claims. */
  lemma ProducerGateAdmits(header: Option<seq<byte>>, config: Option<Config.AppConfig>,
                           decode: Auth.Decoder, db: Database)
    ensures ProducerGate(header, config, decode, db).Ok? <==>
              && AuthGate(header, config, decode).Ok?
              && ParseStr(AuthGate(header, config, decode).value.sub).Ok?
              && db.Connected?
              && ParseStr(AuthGate(header, config, decode).value.sub).value in db.producers
              && db.producers[ParseStr(AuthGate(header, config, decode).value.sub).value].isActive
    ensures ProducerGate(header, config, decode, db).Ok? ==>
              var id := ParseStr(AuthGate(header, config, decode).value.sub).value;
              ProducerGate(header, config, decode, db).value == (db.producers[id], AuthGate(header, config, decode).value)
    ensures IdKeyed(db) && ProducerGate(header, config, decode, db).Ok? ==>
              Ok(ProducerGate(header, config, decode, db).value.0.id) == ParseStr(AuthGate(header, config, decode).value.sub)
  {
  }

  /** The rejections after a successful decode, in the order the producer gate checks them. */
  lemma ProducerGateRejections(header: Option<seq<byte>>, config: Option<Config.AppConfig>,
                               decode: Auth.Decoder, db: Database)
    requires AuthGate(header, config, decode).Ok?
    ensures var sub := AuthGate(header, config, decode).value.sub;
            var r := ProducerGate(header, config, decode, db);
            && (ParseStr(sub).Err? ==> r == Err(Rejection(InvalidProducerId)))
            && (ParseStr(sub).Ok? && db.NoPool? ==> r == Err(Rejection(PoolUnavailable)))
            && (ParseStr(sub).Ok? && db.ConnectionFails? ==> r == Err(Rejection(ConnectionFailed)))
            && (ParseStr(sub).Ok? && db.Connected? && ParseStr(sub).value !in db.producers ==>
                  r == Err(Rejection(ProducerNotFound)))
            && ((ParseStr(sub).Ok? && db.Connected? && ParseStr(sub).value in db.producers &&
                 !db.producers[ParseStr(sub).value].isActive) ==> r == Err(Rejection(ProducerInactive)))
  {
  }

  /** The bytes of an ASCII string. */
  function AsciiBytes(s: string): (b: seq<byte>)
    requires forall i :: 0 <= i < |s| ==> s[i] as int < 256
    ensures |b| == |s|
  {
    seq(|s|, i requires 0 <= i < |s| => s[i] as int as byte)
  }

  predicate VisibleAsciiText(s: string) {
    forall i :: 0 <= i < |s| ==> s[i] == '\t' || (' ' <= s[i] <= '~')
  }

  /** The token handed to the decoder is the header value without "Bearer ". */
  lemma BearerTokenStripsPrefix(t: string)
    requires VisibleAsciiText(t)
    ensures BearerToken(Some(AsciiBytes(BearerPrefix + t))) == Some(t)
  {
    var s := BearerPrefix + t;
    var b := AsciiBytes(s);
    assert forall i :: 0 <= i < |b| ==> VisibleAscii(b[i]) by {
      forall i | 0 <= i < |b| ensures VisibleAscii(b[i]) {
        if i >= |BearerPrefix| {
          assert s[i] == t[i - |BearerPrefix|];
        }
      }
    }
    var h := HeaderToStr(b).value;
    assert h == s;
  }

  /** The scheme is matched case-sensitively, so "bearer " is a missing header. */
  lemma LowerCaseSchemeRejected(t: string, config: Option<Config.AppConfig>, decode: Auth.Decoder)
    requires VisibleAsciiText(t)
    ensures AuthGate(Some(AsciiBytes("bearer " + t)), config, decode) == Err(Rejection(MissingHeader))
  {
    var s := "bearer " + t;
    var h := HeaderToStr(AsciiBytes(s));
    if h.Some? {
      assert h.value[0] as int == 'b' as int;
    }
  }

  /** A header that is not visible ASCII is treated as missing. */
  lemma OpaqueHeaderRejected(v: seq<byte>, config: Option<Config.AppConfig>, decode: Auth.Decoder, i: nat)
    requires i < |v| && !VisibleAscii(v[i])
    ensures AuthGate(Some(v), config, decode) == Err(Rejection(MissingHeader))
  {
  }

  /** Deactivation takes effect at once in the producer gate but not in the token gate:
      the same token is admitted by one and rejected by the other. */
  lemma TokenGateIsStale(header: Option<seq<byte>>, config: Option<Config.AppConfig>,
                         decode: Auth.Decoder, producers: map<Uuid, Producer>, id: Uuid)
    requires AuthGate(header, config, decode).Ok?
    requires ParseStr(AuthGate(header, config, decode).value.sub) == Ok(id)
    requires id in producers && !producers[id].isActive
    ensures ProducerGate(header, config, decode, Connected(producers)) == Err(Rejection(ProducerInactive))
  {
  }

  /** The request as the gates see it: its header, its app data, and the extensions
      it carries downstream. `downstreamCalls` counts calls of the wrapped service. */
  class ServiceRequest {
    const authorization: Option<seq<byte>>
    const appConfig: Option<Config.AppConfig>
    const database: Database
    var extensions: Extensions
    var downstreamCalls: nat

    constructor (authorization: Option<seq<byte>>, appConfig: Option<Config.AppConfig>, database: Database)
      ensures this.authorization == authorization && this.appConfig == appConfig && this.database == database
      ensures extensions == map[] && downstreamCalls == 0
    {
      this.authorization := authorization;
      this.appConfig := appConfig;
      this.database := database;
      extensions := map[];
      downstreamCalls := 0;
    }
  }

  /** What a gate's future resolves to: a rejection, or whatever the wrapped service
      returned (its own errors included, as `?` passes them on). */
  datatype GateOutcome<R> = Rejected(rejection: Rejection) | Forwarded(response: R)

  /** `service.call(req)` */
  method CallService<R>(req: ServiceRequest, service: Extensions -> R) returns (r: GateOutcome<R>)
    modifies req
    ensures req.extensions == old(req.extensions)
    ensures req.downstreamCalls == old(req.downstreamCalls) + 1
    ensures r == Forwarded(service(req.extensions))
  {
    req.downstreamCalls := req.downstreamCalls + 1;
    r := Forwarded(service(req.extensions));
  }

  /** `AuthMiddlewareService::call` */
  method AuthMiddlewareCall<R>(req: ServiceRequest, decode: Auth.Decoder, service: Extensions -> R)
    returns (r: GateOutcome<R>)
    modifies req
    ensures match AuthGate(req.authorization, req.appConfig, decode)
            case Err(rejection) =>
              && r == Rejected(rejection)
              && req.extensions == old(req.extensions)
              && req.downstreamCalls == old(req.downstreamCalls)
            case Ok(claims) =>
              && req.extensions == old(req.extensions)[ClaimsKey := ClaimsExtension(claims)]
              && req.downstreamCalls == old(req.downstreamCalls) + 1
              && r == Forwarded(service(req.extensions))
  {
    var token := BearerToken(req.authorization);
    var config := req.appConfig;
    if token.Some? {
      if config.Some? {
        match decode(token.value, config.value.jwtSecret) {
          case Ok(claims) =>
            req.extensions := req.extensions[ClaimsKey := ClaimsExtension(claims)];
            r := CallService(req, service);
          case Err(_) =>
            r := Rejected(Rejection(InvalidToken));
        }
      } else {
        r := Rejected(Rejection(NoConfiguration));
      }
    } else {
      r := Rejected(Rejection(MissingHeader));
    }
  }

  /** `ProducerAuthMiddlewareService::call` */
  method ProducerAuthMiddlewareCall<R>(req: ServiceRequest, decode: Auth.Decoder, service: Extensions -> R)
    returns (r: GateOutcome<R>)
    modifies req
    ensures match ProducerGate(req.authorization, req.appConfig, decode, req.database)
            case Err(rejection) =>
              && r == Rejected(rejection)
              && req.extensions == old(req.extensions)
              && req.downstreamCalls == old(req.downstreamCalls)
            case Ok((producer, claims)) =>
              && req.extensions == old(req.extensions)[ProducerKey := ProducerExtension(producer)]
                                                      [ClaimsKey := ClaimsExtension(claims)]
              && req.downstreamCalls == old(req.downstreamCalls) + 1
              && r == Forwarded(service(req.extensions))
              && GetProducerFromRequest(req) == Ok(producer)
  {
    var token := BearerToken(req.authorization);
    var config := req.appConfig;
    if token.None? {
      return Rejected(Rejection(MissingHeader));
    }
    if config.None? {
      return Rejected(Rejection(NoConfiguration));
    }
    var decoded := decode(token.value, config.value.jwtSecret);
    if decoded.Err? {
      return Rejected(Rejection(InvalidToken));
    }
    var claims := decoded.value;
    var producerId := ParseStr(claims.sub);
    if producerId.Err? {
      return Rejected(Rejection(InvalidProducerId));
    }
    if req.database.NoPool? {
      return Rejected(Rejection(PoolUnavailable));
    }
    if req.database.ConnectionFails? {
      return Rejected(Rejection(ConnectionFailed));
    }
    var producers := req.database.producers;
    if producerId.value !in producers {
      return Rejected(Rejection(ProducerNotFound));
    }
    var producer := producers[producerId.value];
    if !producer.isActive {
      return Rejected(Rejection(ProducerInactive));
    }
    req.extensions := req.extensions[ProducerKey := ProducerExtension(producer)];
    req.extensions := req.extensions[ClaimsKey := ClaimsExtension(claims)];
    r := CallService(req, service);
  }

  /** `get_producer_from_request`: the producer a gate attached, if any. */
  function GetProducerFromRequest(req: ServiceRequest): (r: Result<Producer, AppError>)
    reads req
    ensures r.Ok? <==> ProducerKey in req.extensions && req.extensions[ProducerKey].ProducerExtension?
    ensures r.Ok? ==> req.extensions[ProducerKey] == ProducerExtension(r.value)
    ensures r.Err? ==> r.error == Unauthorized("Producer not found in request") &&
                       ErrorResponseOf(r.error).status == StatusUnauthorized
  {
    if ProducerKey in req.extensions && req.extensions[ProducerKey].ProducerExtension? then
      Ok(req.extensions[ProducerKey].producer)
    else
      Err(Unauthorized("Producer not found in request"))
  }

  /** The failure of actix's `ReqData<T>` extractor when no value of type T is attached:
      a 500 answered before the handler runs. */
  datatype ExtractorError = MissingExtensionData {
    const status: int := StatusInternal
    const message: string := "Missing expected request extension data"
  }

  /** `web::ReqData<Producer>` */
  function ReqDataProducer(req: ServiceRequest): (r: Result<Producer, ExtractorError>)
    reads req
    ensures r.Ok? <==> GetProducerFromRequest(req).Ok?
    ensures r.Ok? ==> r.value == GetProducerFromRequest(req).value
  {
    if ProducerKey in req.extensions && req.extensions[ProducerKey].ProducerExtension? then
      Ok(req.extensions[ProducerKey].producer)
    else
      Err(MissingExtensionData)
  }
}
