/**
 * The application error type: a code from a fixed set, an HTTP status and a
 * message, built by one constructor that accepts two argument orders
 * (the current `(code, message?, status?)` and the legacy
 * `(code, status, message)`), per-code default tables, one factory per code,
 * and the conversion of any thrown value into an application error.
 */
module Errors {
  import opened Wrappers

  datatype Code =
    | BadRequest
    | Unauthorized
    | Forbidden
    | NotFound
    | Conflict
    | RateLimited
    | UnprocessableEntity
    | Internal

  /** Default HTTP status of each code. */
  function DefaultStatus(code: Code): (status: int)
    ensures 400 <= status <= 500
  {
    match code
    case BadRequest => 400
    case Unauthorized => 401
    case Forbidden => 403
    case NotFound => 404
    case Conflict => 409
    case RateLimited => 429
    case UnprocessableEntity => 422
    case Internal => 500
  }

  /** Default message of each code. */
  function DefaultMessage(code: Code): (message: string)
    ensures message != []
  {
    match code
    case BadRequest => "Bad request"
    case Unauthorized => "Unauthorized"
    case Forbidden => "Forbidden"
    case NotFound => "Not found"
    case Conflict => "Conflict"
    case RateLimited => "Too Many Requests"
    case UnprocessableEntity => "Unprocessable entity"
    case Internal => "Something went wrong"
  }

  /** A positional constructor argument: absent (`undefined`), a number or a string. */
  datatype Arg = Absent | Num(n: int) | Str(s: string)

  /**
   * An application error, and anything else a `throw` can raise: an `Error`
   * object (it has a message) or some other value.
   */
  datatype AppError = AppError(code: Code, message: string, status: int, details: Option<Thrown>)

  datatype Thrown =
    | AppErr(error: AppError)
    | ErrorObject(message: string)
    | OtherValue

  /** What the database driver throws when an INSERT or UPDATE would repeat a primary or unique key. */
  const DuplicateKey := ErrorObject("duplicate key value violates unique constraint")

  /**
   * What the database driver throws when a bound value's text is not valid
   * for the type of the column it is read as (PostgreSQL's message also
   * names the type and the value).
   */
  const InvalidText := ErrorObject("invalid input syntax")

  /** A result of an operation that may throw. */
  datatype Result<+T> = Ok(value: T) | Err(thrown: Thrown)

  /**
   * `new AppError(code, messageOrStatus, statusOrMessage, details)`: a number
   * in second position selects the legacy order; otherwise the second
   * argument is the message. A missing message or status falls back to the
   * code's default.
   */
  function New(code: Code, messageOrStatus: Arg, statusOrMessage: Arg, details: Option<Thrown>): (e: AppError)
    ensures e.code == code && e.details == details
    ensures messageOrStatus.Num? ==> e.status == messageOrStatus.n
    ensures messageOrStatus.Num? && statusOrMessage.Str? ==> e.message == statusOrMessage.s
    ensures messageOrStatus.Num? && !statusOrMessage.Str? ==> e.message == DefaultMessage(code)
    ensures !messageOrStatus.Num? && statusOrMessage.Num? ==> e.status == statusOrMessage.n
    ensures !messageOrStatus.Num? && !statusOrMessage.Num? ==> e.status == DefaultStatus(code)
    ensures messageOrStatus.Str? ==> e.message == messageOrStatus.s
    ensures messageOrStatus.Absent? ==> e.message == DefaultMessage(code)
  {
    var message: Option<string> :=
      if messageOrStatus.Num? then (if statusOrMessage.Str? then Some(statusOrMessage.s) else None)
      else if messageOrStatus.Str? then Some(messageOrStatus.s)
      else None;
    var status: int :=
      if messageOrStatus.Num? then messageOrStatus.n
      else if statusOrMessage.Num? then statusOrMessage.n
      else DefaultStatus(code);
    AppError(code, message.GetOr(DefaultMessage(code)), status, details)
  }

  /** The legacy call shape `new AppError(code, status, message)` used by the lifecycle services. */
  function Legacy(code: Code, status: int, message: string): (e: AppError)
    ensures e == AppError(code, message, status, None)
  {
    New(code, Num(status), Str(message), None)
  }

  /**
   * The factories `AppError.badRequest(message?)`, `.notFound(...)`, ...: the
   * message defaults to the code's default message, and the status is the
   * code's default status.
   */
  function Factory(code: Code, message: Option<string>, details: Option<Thrown>): (e: AppError)
  {
    New(code, Str(message.GetOr(DefaultMessage(code))), Num(DefaultStatus(code)), details)
  }

  /** Each factory yields its own code, that code's default status, and the given or default message. */
  lemma FactoryYieldsDefaults(code: Code, message: Option<string>, details: Option<Thrown>)
    ensures Factory(code, message, details).code == code
    ensures Factory(code, message, details).status == DefaultStatus(code)
    ensures Factory(code, message, details).message == message.GetOr(DefaultMessage(code))
    ensures Factory(code, message, details).details == details
  {
  }

  /** The thrown form of a factory error, the usual `throw AppError.conflict("...")`. */
  function Throw(code: Code, message: string): (t: Thrown)
    ensures t.AppErr? && t.error.code == code && t.error.message == message
    ensures t.error.status == DefaultStatus(code)
  {
    AppErr(Factory(code, Some(message), None))
  }

  /** The legacy thrown form `throw new AppError(code, status, message)`. */
  function ThrowLegacy(code: Code, status: int, message: string): (t: Thrown)
    ensures t == AppErr(AppError(code, message, status, None))
  {
    AppErr(Legacy(code, status, message))
  }

  /**
   * `AppError.fromUnknown(e)`: an application error is returned unchanged;
   * anything else becomes INTERNAL/500, keeping the message of an `Error`
   * object and the thrown value as details.
   */
  function FromUnknown(e: Thrown): (r: AppError)
    ensures e.AppErr? ==> r == e.error
    ensures !e.AppErr? ==> r.code == Internal && r.status == 500 && r.details == Some(e)
    ensures e.ErrorObject? ==> r.message == e.message
    ensures e.OtherValue? ==> r.message == "Something went wrong"
  {
    match e
    case AppErr(a) => a
    case ErrorObject(m) => Factory(Internal, Some(m), Some(e))
    case OtherValue => Factory(Internal, None, Some(e))
  }

  /** Converting twice changes nothing more: the result of `fromUnknown` is already an application error. */
  lemma FromUnknownIdempotent(e: Thrown)
    ensures FromUnknown(AppErr(FromUnknown(e))) == FromUnknown(e)
  {
  }

  /** The legacy and the current argument orders build the same error from the same status and message. */
  lemma SignaturesAgree(code: Code, status: int, message: string, details: Option<Thrown>)
    ensures New(code, Num(status), Str(message), details) == New(code, Str(message), Num(status), details)
    ensures New(code, Num(status), Str(message), details) == AppError(code, message, status, details)
  {
  }

  /** The default status table is one-to-one: a status names its code. */
  lemma DefaultStatusInjective(a: Code, b: Code)
    requires DefaultStatus(a) == DefaultStatus(b)
    ensures a == b
  {
  }
}
