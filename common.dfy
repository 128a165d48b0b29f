/** Vocabulary shared by the backend and the client models. */
module Common {

  /** A MongoDB ObjectId, compared through its string form as the controllers do. */
  type Id = string

  datatype Option<T> = None | Some(value: T)

  /** An `AppError`: the HTTP status code and the message the controller chose. */
  datatype ApiError = ApiError(statusCode: int, message: string)

  /** The outcome of a controller: a reply, or the error it passes to `next`. */
  datatype Result<T> = Ok(value: T) | Err(error: ApiError)

  /** How a client request settled: the value its promise resolved with, or a rejection. */
  datatype Outcome<T> = Resolved(value: T) | Rejected

  /** A value as it may arrive in a JSON request body or a query string. */
  datatype JsValue = Undefined | Null | Bool(b: bool) | Num(n: int) | Str(s: string) | Object

  /** JavaScript truthiness. */
  predicate Truthy(v: JsValue)
  {
    match v
    case Undefined => false
    case Null => false
    case Bool(b) => b
    case Num(n) => n != 0
    case Str(s) => s != []
    case Object => true
  }

  /** JavaScript truthiness of an optional string: present and not "". */
  predicate Present(o: Option<string>)
  {
    o.Some? && o.value != []
  }
}
