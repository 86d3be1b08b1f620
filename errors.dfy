/**
 * The error taxonomy of `src/utils/error.ts`: the `AppError` class with its
 * three subclasses, the table of numeric error codes, the record that
 * `logError` builds, and the classification done by `handleApiError`.
 *
 * The class hierarchy is closed, so an error object is a value tagged with
 * the class it was constructed as. Anything a JavaScript `throw` can produce is
 * a `Thrown`: an `AppError` (of some class), an `Error` that is not an
 * `AppError`, `undefined`, or another non-`Error` value.
 */
module Errors {
  import opened Wrappers

  // The `errorCodes` table.
  const VALIDATION_ERROR: int := 3000
  const RESOURCE_NOT_FOUND: int := 3001
  const UNAUTHORIZED: int := 2000
  const FORBIDDEN: int := 2001
  const INTERNAL_SERVER_ERROR: int := 1000
  const NETWORK_ERROR: int := 1001
  const DATABASE_ERROR: int := 1002

  /** The code an `AppError` gets when its constructor is not given one, and the log fallback. */
  const DEFAULT_CODE: int := 500

  const UNKNOWN_ERROR_MESSAGE := "An unknown error occurred"

  // The user-facing messages `handleApiError` selects by error class.
  const NETWORK_USER_MESSAGE := "ネットワークエラーが発生しました。再試行してください。"
  const VALIDATION_USER_MESSAGE := "入力内容を確認してください。"
  const DATABASE_USER_MESSAGE := "データベースエラーが発生しました。しばらく待ってから再試行してください。"
  const UNEXPECTED_USER_MESSAGE := "予期せぬエラーが発生しました。"

  /** The values an `ErrorDetails.value` may hold. */
  datatype Scalar = StrValue(s: string) | NumValue(n: int) | BoolValue(b: bool)

  /** `ErrorDetails`, restricted to its three named keys. */
  datatype ErrorDetails = ErrorDetails(field: Option<string>, value: Option<Scalar>, constraint: Option<string>)

  /** `ErrorDetails | ErrorDetails[]`. */
  datatype Details = Single(detail: ErrorDetails) | Many(details: seq<ErrorDetails>)

  /** The class an `AppError` was constructed as. */
  datatype ErrorClass = Base | Network | Validation | Database

  /** An instance of `AppError` or of one of its subclasses. */
  datatype AppError = AppError(cls: ErrorClass, message: string, code: int, details: Option<Details>)

  /**
   * A value that a failing operation can throw. An `Error` that is not an
   * `AppError` may still carry its own `code` and `details` properties.
   */
  datatype Thrown =
    | App(err: AppError)
    | PlainError(message: string, ownCode: Option<int>, ownDetails: Option<Details>)
    | Undefined
    | NonError

  /** `error instanceof ValidationError`. */
  predicate IsValidation(t: Thrown)
  {
    t.App? && t.err.cls == Validation
  }

  /** `new AppError(message, code?, details?)`: the code defaults to 500. */
  function NewAppError(message: string, code: Option<int>, details: Option<Details>): (e: AppError)
    ensures e.cls == Base && e.message == message && e.details == details
    ensures code.None? ==> e.code == DEFAULT_CODE
    ensures code.Some? ==> e.code == code.value
  {
    AppError(Base, message, if code.Some? then code.value else DEFAULT_CODE, details)
  }

  /** `new NetworkError(message?, details?)`. */
  function NewNetworkError(message: Option<string>, details: Option<ErrorDetails>): (e: AppError)
    ensures e.cls == Network && e.code == NETWORK_ERROR
    ensures e.message == if message.Some? then message.value else "Network error occurred"
    ensures e.details == if details.Some? then Some(Single(details.value)) else None
  {
    Subclass(Network, NETWORK_ERROR, message, "Network error occurred", details)
  }

  /** `new ValidationError(message?, details?)`. */
  function NewValidationError(message: Option<string>, details: Option<ErrorDetails>): (e: AppError)
    ensures e.cls == Validation && e.code == VALIDATION_ERROR
    ensures e.message == if message.Some? then message.value else "Validation error occurred"
    ensures e.details == if details.Some? then Some(Single(details.value)) else None
  {
    Subclass(Validation, VALIDATION_ERROR, message, "Validation error occurred", details)
  }

  /** `new DatabaseError(message?, details?)`. */
  function NewDatabaseError(message: Option<string>, details: Option<ErrorDetails>): (e: AppError)
    ensures e.cls == Database && e.code == DATABASE_ERROR
    ensures e.message == if message.Some? then message.value else "Database error occurred"
    ensures e.details == if details.Some? then Some(Single(details.value)) else None
  {
    Subclass(Database, DATABASE_ERROR, message, "Database error occurred", details)
  }

  /** The shared body of the three subclass constructors: a fixed code and a default message. */
  function Subclass(cls: ErrorClass, code: int, message: Option<string>, defaultMessage: string,
                    details: Option<ErrorDetails>): AppError
  {
    AppError(cls, if message.Some? then message.value else defaultMessage, code,
             if details.Some? then Some(Single(details.value)) else None)
  }

  /** The code that each subclass always carries; the base class has none of its own. */
  function FixedCode(cls: ErrorClass): Option<int>
  {
    match cls
    case Base => None
    case Network => Some(NETWORK_ERROR)
    case Validation => Some(VALIDATION_ERROR)
    case Database => Some(DATABASE_ERROR)
  }

  /** Every error the constructors build carries its class's fixed code, and the fixed codes are pairwise distinct. */
  lemma ConstructedCodesAreFixed(m: Option<string>, d: Option<ErrorDetails>, cls: ErrorClass, cls': ErrorClass)
    ensures FixedCode(NewNetworkError(m, d).cls) == Some(NewNetworkError(m, d).code)
    ensures FixedCode(NewValidationError(m, d).cls) == Some(NewValidationError(m, d).code)
    ensures FixedCode(NewDatabaseError(m, d).cls) == Some(NewDatabaseError(m, d).code)
    ensures FixedCode(cls).Some? && cls != cls' ==> FixedCode(cls) != FixedCode(cls')
  {
  }

  /** The record `logError` builds; its time stamp and request id are supplied by the caller. */
  datatype LogRecord = LogRecord(timestamp: string, code: int, message: string, requestId: string,
                                 userId: Option<string>, details: Option<Details>)

  /**
   * The record `logError` builds for an `Error`: the error's own code when it
   * has one (every `AppError` does), 500 otherwise; its own details when it
   * has them, none otherwise.
   */
  function LogRecordOf(error: Thrown, userId: Option<string>, timestamp: string, requestId: string): (r: LogRecord)
    requires error.App? || error.PlainError?
    ensures r.timestamp == timestamp && r.requestId == requestId && r.userId == userId
    ensures error.App? ==> r.code == error.err.code && r.message == error.err.message && r.details == error.err.details
    ensures error.PlainError? ==> r.message == error.message && r.details == error.ownDetails
    ensures error.PlainError? && error.ownCode.Some? ==> r.code == error.ownCode.value
    ensures error.PlainError? && error.ownCode.None? ==> r.code == DEFAULT_CODE
  {
    match error
    case App(e) => LogRecord(timestamp, e.code, e.message, requestId, userId, e.details)
    case PlainError(msg, code, details) =>
      LogRecord(timestamp, if code.Some? then code.value else DEFAULT_CODE, msg, requestId, userId, details)
  }

  /**
   * The first step of `handleApiError`: an `AppError` is kept as it is; any
   * other `Error` becomes a base `AppError` with code 1000 and the same
   * message; anything else becomes a base `AppError` with code 1000 and a
   * fixed message.
   */
  function Normalize(error: Thrown): (e: AppError)
    ensures error.App? ==> e == error.err
    ensures !error.App? ==> e.cls == Base && e.code == INTERNAL_SERVER_ERROR && e.details.None?
    ensures error.PlainError? ==> e.message == error.message
    ensures (error.Undefined? || error.NonError?) ==> e.message == UNKNOWN_ERROR_MESSAGE
  {
    match error
    case App(e) => e
    case PlainError(msg, _, _) => NewAppError(msg, Some(INTERNAL_SERVER_ERROR), None)
    case Undefined => NewAppError(UNKNOWN_ERROR_MESSAGE, Some(INTERNAL_SERVER_ERROR), None)
    case NonError => NewAppError(UNKNOWN_ERROR_MESSAGE, Some(INTERNAL_SERVER_ERROR), None)
  }

  /** The object `handleApiError` resolves to. */
  datatype ApiErrorResponse = ApiErrorResponse(code: int, message: string, details: Option<Details>, retryable: bool)

  /** What `handleApiError` produces: the record it logs and the response it returns. */
  datatype Handled = Handled(log: LogRecord, response: ApiErrorResponse)

  /** The response `handleApiError` builds from the normalised error, chosen by its class. */
  function Classify(e: AppError): (r: ApiErrorResponse)
  {
    match e.cls
    case Network => ApiErrorResponse(e.code, NETWORK_USER_MESSAGE, None, true)
    case Validation => ApiErrorResponse(e.code, VALIDATION_USER_MESSAGE, e.details, false)
    case Database => ApiErrorResponse(e.code, DATABASE_USER_MESSAGE, None, true)
    case Base => ApiErrorResponse(e.code, UNEXPECTED_USER_MESSAGE, None, false)
  }

  /**
   * `handleApiError(error, userId)`: normalise, log, classify. The response is
   * retryable exactly for network and database errors, carries details only
   * for validation errors, and always carries the normalised error's code,
   * which is also the code that is logged.
   */
  function HandleApiError(error: Thrown, userId: Option<string>, timestamp: string, requestId: string): (h: Handled)
    ensures h.response.retryable <==> IsRetryableClass(Normalize(error).cls)
    ensures h.response.details.Some? ==> error.App? && error.err.cls == Validation
    ensures error.App? && error.err.cls == Validation ==> h.response.details == error.err.details
    ensures h.response.code == Normalize(error).code == h.log.code
    ensures !error.App? ==> h.response.code == INTERNAL_SERVER_ERROR && !h.response.retryable
    ensures h.log.message == Normalize(error).message && h.log.userId == userId
    ensures h.log.details == Normalize(error).details
  {
    var e := Normalize(error);
    Handled(LogRecordOf(App(e), userId, timestamp, requestId), Classify(e))
  }

  /** The classes the retry policy treats as transient. */
  predicate IsRetryableClass(cls: ErrorClass)
  {
    cls == Network || cls == Database
  }

  /** The details given to `new ValidationError(m, d)` are the details `handleApiError` returns for it. */
  lemma ValidationDetailsReturned(m: Option<string>, d: ErrorDetails, u: Option<string>, t: string, id: string)
    ensures HandleApiError(App(NewValidationError(m, Some(d))), u, t, id).response.details == Some(Single(d))
    ensures HandleApiError(App(NewValidationError(m, Some(d))), u, t, id).response.code == VALIDATION_ERROR
  {
  }

  /** The user-facing message depends only on the class, and the four classes get four different messages. */
  lemma MessagesByClass(a: Thrown, b: Thrown, u: Option<string>, t: string, id: string)
    ensures Normalize(a).cls == Normalize(b).cls ==>
              HandleApiError(a, u, t, id).response.message == HandleApiError(b, u, t, id).response.message
    ensures Normalize(a).cls != Normalize(b).cls ==>
              HandleApiError(a, u, t, id).response.message != HandleApiError(b, u, t, id).response.message
  {
  }
}
