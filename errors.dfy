/** The backend's error taxonomy (`AppError`), its conversions from library errors,
    its Display text, and the HTTP response each error becomes. Status codes carry the
    meanings of section 15 of RFC 9110. */
module Errors {
  import opened Prelude

  /** Diesel's `result::Error`: only `NotFound` is told apart by the core. */
  datatype DieselError = DieselNotFound | DieselOther(text: string)

  /** Diesel's own Display text. */
  function DieselText(e: DieselError): string {
    match e
    case DieselNotFound => "Record not found"
    case DieselOther(t) => t
  }

  datatype AppError =
    | BadRequest(msg: string)
    | Unauthorized(msg: string)
    | Forbidden(msg: string)
    | NotFound(msg: string)
    | InternalServerError(msg: string)
    | DatabaseError(diesel: DieselError)
    | PoolError(pool: ForeignError)
    | JwtError(jwt: ForeignError)
    | BcryptError(bcrypt: ForeignError)
    | BlockingError(blocking: ForeignError)
    | UuidError(uuid: ForeignError)
  {
    /** The variants whose message comes from the caller rather than from a library. */
    predicate CarriesMessage() {
      BadRequest? || Unauthorized? || Forbidden? || NotFound? || InternalServerError?
    }
  }

  const StatusOk := 200              // RFC 9110 section 15.3.1
  const StatusCreated := 201         // RFC 9110 section 15.3.2
  const StatusBadRequest := 400      // RFC 9110 section 15.5.1
  const StatusUnauthorized := 401    // RFC 9110 section 15.5.2
  const StatusForbidden := 403       // RFC 9110 section 15.5.4
  const StatusNotFound := 404        // RFC 9110 section 15.5.5
  const StatusInternal := 500        // RFC 9110 section 15.6.1

  /** The JSON body `{"error": ...}`. */
  datatype ErrorResponse = ErrorResponse(error: string)

  datatype HttpError = HttpError(status: int, body: ErrorResponse)

  /** A successful `HttpResponse` with a JSON body. */
  datatype Reply<T> = Reply(status: int, body: T)

  /** `ResponseError::error_response`. Caller-supplied messages pass through unchanged;
      every library-wrapping variant answers with a fixed message of its own, so no
      library text reaches the client. */
  function ErrorResponseOf(e: AppError): (r: HttpError)
    ensures r.status in {StatusBadRequest, StatusUnauthorized, StatusForbidden, StatusNotFound, StatusInternal}
    ensures e.CarriesMessage() ==> r.body.error == e.msg
  {
    match e
    case BadRequest(m) => HttpError(StatusBadRequest, ErrorResponse(m))
    case Unauthorized(m) => HttpError(StatusUnauthorized, ErrorResponse(m))
    case Forbidden(m) => HttpError(StatusForbidden, ErrorResponse(m))
    case NotFound(m) => HttpError(StatusNotFound, ErrorResponse(m))
    case InternalServerError(m) => HttpError(StatusInternal, ErrorResponse(m))
    case DatabaseError(_) => HttpError(StatusInternal, ErrorResponse("Database error"))
    case PoolError(_) => HttpError(StatusInternal, ErrorResponse("Database pool error"))
    case JwtError(_) => HttpError(StatusUnauthorized, ErrorResponse("Invalid token"))
    case BcryptError(_) => HttpError(StatusInternal, ErrorResponse("Password hashing error"))
    case BlockingError(_) => HttpError(StatusInternal, ErrorResponse("Blocking error"))
    case UuidError(_) => HttpError(StatusBadRequest, ErrorResponse("Invalid ID format"))
  }

  /** The same variant with its library payload replaced by a fixed one; used to state
      that the response does not depend on that payload. */
  function Canonical(e: AppError): AppError {
    match e
    case DatabaseError(_) => DatabaseError(DieselOther(""))
    case PoolError(_) => PoolError(ForeignError(""))
    case JwtError(_) => JwtError(ForeignError(""))
    case BcryptError(_) => BcryptError(ForeignError(""))
    case BlockingError(_) => BlockingError(ForeignError(""))
    case UuidError(_) => UuidError(ForeignError(""))
    case _ => e
  }

  /** The five caller-message variants map to 400/401/403/404/500 with the message as body. */
  lemma MessageVariantsStatus(m: string)
    ensures ErrorResponseOf(BadRequest(m)) == HttpError(400, ErrorResponse(m))
    ensures ErrorResponseOf(Unauthorized(m)) == HttpError(401, ErrorResponse(m))
    ensures ErrorResponseOf(Forbidden(m)) == HttpError(403, ErrorResponse(m))
    ensures ErrorResponseOf(NotFound(m)) == HttpError(404, ErrorResponse(m))
    ensures ErrorResponseOf(InternalServerError(m)) == HttpError(500, ErrorResponse(m))
  {
  }

  /** Library-wrapping variants: the status and message are fixed whatever is wrapped. */
  lemma WrappedVariantsFixed(d: DieselError, f: ForeignError)
    ensures ErrorResponseOf(DatabaseError(d)) == HttpError(500, ErrorResponse("Database error"))
    ensures ErrorResponseOf(PoolError(f)) == HttpError(500, ErrorResponse("Database pool error"))
    ensures ErrorResponseOf(JwtError(f)) == HttpError(401, ErrorResponse("Invalid token"))
    ensures ErrorResponseOf(BcryptError(f)) == HttpError(500, ErrorResponse("Password hashing error"))
    ensures ErrorResponseOf(BlockingError(f)) == HttpError(500, ErrorResponse("Blocking error"))
    ensures ErrorResponseOf(UuidError(f)) == HttpError(400, ErrorResponse("Invalid ID format"))
  {
  }

  /** Leak-freedom: two errors of the same library-wrapping variant give the same response. */
  lemma WrappedPayloadInvisible(e1: AppError, e2: AppError)
    requires !e1.CarriesMessage() && !e2.CarriesMessage()
    requires Canonical(e1) == Canonical(e2)
    ensures ErrorResponseOf(e1) == ErrorResponseOf(e2)
  {
  }

  /** `From<diesel::result::Error>`: NotFound becomes a 404, anything else a DatabaseError. */
  function FromDiesel(e: DieselError): (r: AppError)
    ensures e == DieselNotFound ==> ErrorResponseOf(r) == HttpError(StatusNotFound, ErrorResponse("Record not found"))
    ensures e != DieselNotFound ==> r == DatabaseError(e) && ErrorResponseOf(r).status == StatusInternal
  {
    match e
    case DieselNotFound => NotFound("Record not found")
    case _ => DatabaseError(e)
  }

  /** `From<r2d2::Error>` */
  function FromPool(e: ForeignError): (r: AppError)
    ensures r.PoolError? && r.pool == e
  {
    PoolError(e)
  }

  /** `From<jsonwebtoken::errors::Error>` */
  function FromJwt(e: ForeignError): (r: AppError)
    ensures r.JwtError? && r.jwt == e
  {
    JwtError(e)
  }

  /** `From<bcrypt::BcryptError>` */
  function FromBcrypt(e: ForeignError): (r: AppError)
    ensures r.BcryptError? && r.bcrypt == e
  {
    BcryptError(e)
  }

  /** `From<actix_web::error::BlockingError>` */
  function FromBlocking(e: ForeignError): (r: AppError)
    ensures r.BlockingError? && r.blocking == e
  {
    BlockingError(e)
  }

  /** `From<uuid::Error>` */
  function FromUuid(e: ForeignError): (r: AppError)
    ensures r.UuidError? && r.uuid == e
  {
    UuidError(e)
  }

  /** The label `Display for AppError` writes before the message or the library text. */
  function Label(e: AppError): string {
    match e
    case BadRequest(_) => "Bad Request: "
    case Unauthorized(_) => "Unauthorized: "
    case Forbidden(_) => "Forbidden: "
    case NotFound(_) => "Not Found: "
    case InternalServerError(_) => "Internal Server Error: "
    case DatabaseError(_) => "Database Error: "
    case PoolError(_) => "Pool Error: "
    case JwtError(_) => "JWT Error: "
    case BcryptError(_) => "Bcrypt Error: "
    case BlockingError(_) => "Blocking Error: "
    case UuidError(_) => "UUID Error: "
  }

  /** The message or the Display text of the wrapped library error. */
  function Detail(e: AppError): string {
    match e
    case DatabaseError(d) => DieselText(d)
    case PoolError(f) => f.text
    case JwtError(f) => f.text
    case BcryptError(f) => f.text
    case BlockingError(f) => f.text
    case UuidError(f) => f.text
    case _ => e.msg
  }

  /** What the HTTP response hides, the Display text keeps: the wrapped library text
      ends the Display text, so two errors of one library-wrapping variant that
      answer a client identically are still told apart by their Display text. */
  lemma DisplayCarriesLibraryText(e1: AppError, e2: AppError)
    requires !e1.CarriesMessage() && !e2.CarriesMessage()
    requires Canonical(e1) == Canonical(e2)
    requires Detail(e1) != Detail(e2)
    ensures |Detail(e1)| <= |Display(e1)| && Display(e1)[|Display(e1)| - |Detail(e1)|..] == Detail(e1)
    ensures ErrorResponseOf(e1) == ErrorResponseOf(e2)
    ensures Display(e1) != Display(e2)
  {
    var n := |Label(e1)|;
    assert Label(e1) == Label(e2);
    assert Display(e1)[n..] == Detail(e1);
    assert Display(e2)[n..] == Detail(e2);
  }

  /** `Display for AppError`: the variant's label, then its message or library text.
      Unlike the HTTP response, this text does carry the library's message. */
  function Display(e: AppError): (text: string)
    ensures text == Label(e) + Detail(e)
    ensures e.Unauthorized? ==> text == "Unauthorized: " + e.msg
    ensures e.JwtError? ==> text == "JWT Error: " + e.jwt.text
  {
    match e
    case BadRequest(m) => "Bad Request: " + m
    case Unauthorized(m) => "Unauthorized: " + m
    case Forbidden(m) => "Forbidden: " + m
    case NotFound(m) => "Not Found: " + m
    case InternalServerError(m) => "Internal Server Error: " + m
    case DatabaseError(d) => "Database Error: " + DieselText(d)
    case PoolError(f) => "Pool Error: " + f.text
    case JwtError(f) => "JWT Error: " + f.text
    case BcryptError(f) => "Bcrypt Error: " + f.text
    case BlockingError(f) => "Blocking Error: " + f.text
    case UuidError(f) => "UUID Error: " + f.text
  }
}
