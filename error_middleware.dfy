/** The Express error handler: default status, classification of library errors, and the reply
    sent in development and in production. */
module ErrorMiddleware {
  import opened Common
  import opened Text

  /** An error as it reaches the handler: an `AppError` raised by a controller, or an error thrown
      by Mongoose, the MongoDB driver or jsonwebtoken. `path`/`value` belong to a cast error,
      `keyValueKeys` to a duplicate-key error and `fieldMessages` to a validation error. */
  datatype ErrorObject = ErrorObject(name: string, message: string, statusCode: Option<int>,
                                     status: Option<string>, isOperational: bool, code: Option<int>,
                                     stack: string, path: string, value: string,
                                     keyValueKeys: seq<string>, fieldMessages: seq<string>)

  /** What the handler sends: status code, the `status` word, the message, and the stack in development. */
  datatype ErrorReply = ErrorReply(statusCode: int, status: string, message: string, stack: Option<string>)

  const GENERIC_MESSAGE: string := "Something went wrong. Please try again later."

  /** What production sends for an error that is not operational. */
  const INTERNAL_ERROR: ApiError := ApiError(500, GENERIC_MESSAGE)

  /** `new AppError(message, statusCode)`. `Backend/utils/AppError.js` is not part of this model;
      this is the behaviour the handler relies on when it reads the error back (`isOperational`,
      `statusCode`, `status`): an operational error carrying the given code and message, whose
      status word is "fail" for a 4xx code and "error" otherwise. */
  function AppError(message: string, statusCode: int): (e: ErrorObject)
    ensures e.isOperational && e.statusCode == Some(statusCode) && e.message == message
    ensures e.status == Some(if 400 <= statusCode < 500 then "fail" else "error")
  {
    ErrorObject("Error", message, Some(statusCode), Some(if 400 <= statusCode < 500 then "fail" else "error"),
                true, None, "", "", "", [], [])
  }

  /** `handleCastError`. */
  function CastErrorReply(err: ErrorObject): (e: ErrorObject)
    ensures e.isOperational && e.statusCode == Some(400)
  {
    AppError("Invalid " + err.path + ": " + err.value, 400)
  }

  /** `handleDuplicateFieldsError`: names the first key of `keyValue` ("undefined" when it has none). */
  function DuplicateErrorReply(err: ErrorObject): (e: ErrorObject)
    ensures e.isOperational && e.statusCode == Some(409)
  {
    var field := if err.keyValueKeys == [] then "undefined" else err.keyValueKeys[0];
    AppError(field + " already exists. Please use a different value.", 409)
  }

  /** `handleValidationError`: every field message, joined with ". ". */
  function ValidationErrorReply(messages: seq<string>): (e: ErrorObject)
    ensures e.isOperational && e.statusCode == Some(400)
    ensures e.message == "Validation Error: " + Join(messages, ". ")
  {
    AppError("Validation Error: " + Join(messages, ". "), 400)
  }

  /** A Mongoose validation error as the production handler sends it. */
  function ValidationFailure(messages: seq<string>): (e: ApiError)
    ensures e.statusCode == 400 && e.message == "Validation Error: " + Join(messages, ". ")
  {
    var v := ValidationErrorReply(messages);
    ApiError(v.statusCode.value, v.message)
  }

  const JWT_MESSAGE: string := "Invalid token. Please log in again."
  const EXPIRED_MESSAGE: string := "Your session has expired. Please log in again."

  /** Lines 55-56: a missing or zero status code becomes 500, a missing or empty status "error". */
  function WithDefaults(err: ErrorObject): (e: ErrorObject)
    ensures e.statusCode.Some? && e.statusCode.value != 0 && e.status.Some? && e.status.value != []
    ensures err.statusCode.None? ==> e.statusCode == Some(500)
    ensures err.status.None? ==> e.status == Some("error")
    ensures e.(statusCode := err.statusCode, status := err.status) == err
  {
    err.(statusCode := Some(if err.statusCode.Some? && err.statusCode.value != 0 then err.statusCode.value else 500),
         status := Some(if err.status.Some? && err.status.value != [] then err.status.value else "error"))
  }

  /** The production mapping read from the most specific rule down: since each later `if` in the
      handler overrides the earlier ones, the last rule that applies wins. */
  function Classify(err: ErrorObject): ErrorObject
  {
    if err.name == "TokenExpiredError" then AppError(EXPIRED_MESSAGE, 401)
    else if err.name == "JsonWebTokenError" then AppError(JWT_MESSAGE, 401)
    else if err.name == "ValidationError" then ValidationErrorReply(err.fieldMessages)
    else if err.code == Some(11000) then DuplicateErrorReply(err)
    else if err.name == "CastError" then CastErrorReply(err)
    else err
  }

  /** `sendErrorDev` and `sendErrorProd`. */
  function Send(err: ErrorObject, development: bool): ErrorReply
    requires err.statusCode.Some? && err.status.Some?
  {
    if development then ErrorReply(err.statusCode.value, err.status.value, err.message, Some(err.stack))
    else if err.isOperational then ErrorReply(err.statusCode.value, err.status.value, err.message, None)
    else ErrorReply(500, "error", GENERIC_MESSAGE, None)
  }

  /** The reply for `err`, as specified by the rules above. */
  function Respond(err: ErrorObject, development: bool): ErrorReply
  {
    var e := WithDefaults(err);
    if development then Send(e, true) else Send(WithDefaults(Classify(e)), false)
  }

  /** The handler: defaults, then in production the successive reassignments of `error`. */
  method HandleError(err: ErrorObject, development: bool) returns (reply: ErrorReply)
    ensures reply == Respond(err, development)
  {
    var e := WithDefaults(err);
    if development {
      return Send(e, true);
    }
    var error := e;
    if e.name == "CastError" { error := CastErrorReply(e); }
    if e.code == Some(11000) { error := DuplicateErrorReply(e); }
    if e.name == "ValidationError" { error := ValidationErrorReply(e.fieldMessages); }
    if e.name == "JsonWebTokenError" { error := AppError(JWT_MESSAGE, 401); }
    if e.name == "TokenExpiredError" { error := AppError(EXPIRED_MESSAGE, 401); }
    reply := Send(WithDefaults(error), false);
  }

  /** What production sends for each kind of error. */
  lemma ProductionReplies(err: ErrorObject)
    ensures var r := Respond(err, false);
      (err.name == "TokenExpiredError" ==> r == ErrorReply(401, "fail", EXPIRED_MESSAGE, None)) &&
      (err.name == "JsonWebTokenError" ==> r == ErrorReply(401, "fail", JWT_MESSAGE, None)) &&
      (err.name == "ValidationError" ==>
         r == ErrorReply(400, "fail", "Validation Error: " + Join(err.fieldMessages, ". "), None)) &&
      (err.name !in {"TokenExpiredError", "JsonWebTokenError", "ValidationError"} && err.code == Some(11000) ==>
         r.statusCode == 409) &&
      (err.name == "CastError" && err.code != Some(11000) ==>
         r == ErrorReply(400, "fail", "Invalid " + err.path + ": " + err.value, None))
  {
  }

  /** Anything the rules do not recognise is sent as it is when operational, and otherwise hidden
      behind a 500 with a fixed message. */
  lemma ProductionFallback(err: ErrorObject)
    requires err.name !in {"TokenExpiredError", "JsonWebTokenError", "ValidationError", "CastError"}
    requires err.code != Some(11000)
    ensures var r := Respond(err, false);
      (err.isOperational ==> r.statusCode == WithDefaults(err).statusCode.value && r.message == err.message) &&
      (!err.isOperational ==> r == ErrorReply(500, "error", GENERIC_MESSAGE, None)) &&
      r.stack.None?
  {
  }

  /** In development the error goes out unmapped, with its own (defaulted) code and its stack. */
  lemma DevelopmentReply(err: ErrorObject)
    ensures var r := Respond(err, true);
      r.statusCode == (if err.statusCode.Some? && err.statusCode.value != 0 then err.statusCode.value else 500) &&
      r.message == err.message && r.stack == Some(err.stack)
  {
  }
}
