/** Failure-carrying datatypes shared by the whole model.
    Python exceptions are values of `Exception`; an operation that may raise
    returns a `Result`. */
module Wrappers {

  datatype Option<+T> = None | Some(value: T)

  /** The exceptions the modelled code raises or lets through. */
  datatype Exception =
    | ValueError(message: string)
      /** pydantic's ValidationError (a ValueError) for the named field */
    | ValidationError(field: string)
    | KeyError(key: string)
      /** iterating over a JSON null, ... */
    | TypeError(message: string)
      /** calling a method on a JSON null */
    | AttributeError(message: string)
      /** clients/base.py APIError */
    | ApiError(message: string, statusCode: Option<int>, response: Option<string>)
      /** clients/base.py RateLimitError, a subclass of APIError */
    | RateLimitError(message: string, statusCode: Option<int>, response: Option<string>)
      /** decimal.InvalidOperation: `Decimal()` of a string that is no number */
    | InvalidOperation(detail: string)
      /** the raw transport exceptions of the HTTP library */
    | TimeoutException(detail: string)
    | NetworkError(detail: string)
      /** date arithmetic past 9999-12-31 or before 0001-01-01 */
    | OverflowError(message: string)
      /** tenacity's RetryError, raised once the attempts are used up */
    | RetryError(last: Exception)
      /** whatever the database client raises */
    | DatabaseError(message: string)

  /** `isinstance(e, APIError)`: RateLimitError is a subclass of APIError. */
  predicate IsApiError(e: Exception) {
    e.ApiError? || e.RateLimitError?
  }

  /** `str(e)` */
  function Message(e: Exception): string {
    match e
    case ValueError(m) => m
    case ValidationError(f) => "validation error for " + f
    case KeyError(k) => "'" + k + "'"
    case TypeError(m) => m
    case AttributeError(m) => m
    case ApiError(m, _, _) => m
    case RateLimitError(m, _, _) => m
    case InvalidOperation(d) => d
    case TimeoutException(d) => d
    case NetworkError(d) => d
    case OverflowError(m) => m
    case RetryError(last) => "RetryError[" + Message(last) + "]"
    case DatabaseError(m) => m
  }

  datatype Result<+T> = Ok(value: T) | Err(error: Exception) {
    predicate IsFailure() {
      Err?
    }

    function PropagateFailure<U>(): Result<U>
      requires Err?
    {
      Err(error)
    }

    function Extract(): T
      requires Ok?
    {
      value
    }
  }

  /** A key of a decoded JSON object: missing, present with `null`, or present
      with a value. `dict.get(k, default)` gives the default only when the key
      is missing. */
  datatype JsonField<+T> = Absent | Null | Present(value: T)

  /** The value of a key known to be there: `None` for a JSON null. */
  function Nullable<T>(f: JsonField<T>): Option<T> {
    if f.Present? then Some(f.value) else None
  }
}
