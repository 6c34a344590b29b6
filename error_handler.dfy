/** The last two middlewares of the application: the handler for unknown
    routes and the error handler every route forwards its errors to. */
module ErrorHandler {
  import opened Base
  import opened ItemsSchema

  /** What a route passes to `next(err)`: a zod validation error, or any
      other error, which may carry an HTTP status and a message. */
  datatype Thrown =
    | ValidationFailed(issues: seq<Issue>)
    | Failure(status: Option<int>, message: Option<string>)

  /** `process.env.NODE_ENV`. */
  datatype NodeEnv = Development | Test | Production

  /** `err.flatten()`: issues without a path would go to `formErrors`; every
      issue of the item schemas has a field path. */
  datatype Details = Details(formErrors: seq<string>, fieldErrors: map<Key, seq<string>>)

  /** The JSON body of an error response: `{ error }`, with `details` for a
      validation error. */
  datatype ErrorBody = ErrorBody(error: string, details: Option<Details>)

  datatype ErrorResponse = ErrorResponse(status: int, body: ErrorBody)

  /** The response of the error handler, and whether it logged the error. */
  datatype Handled = Handled(response: ErrorResponse, logged: bool)

  const DefaultStatus := 500
  const DefaultMessage := "Internal Server Error"

  /** `notFoundHandler`: any route the application does not know. */
  function NotFound(): (r: ErrorResponse)
    ensures r.status == 404 && r.body.details.None? && r.body.error == "Not Found"
  {
    ErrorResponse(404, ErrorBody("Not Found", None))
  }

  /** `status || 500`: a missing or zero status becomes 500. */
  function StatusOf(status: Option<int>): (s: int)
    ensures s != 0
    ensures status.Some? && status.value != 0 ==> s == status.value
    ensures status.None? || status.value == 0 ==> s == DefaultStatus
  {
    if status.Some? && status.value != 0 then status.value else DefaultStatus
  }

  /** `message || "Internal Server Error"`: a missing or empty message
      becomes the default one. */
  function MessageOf(message: Option<string>): (m: string)
    ensures m != ""
    ensures message.Some? && message.value != "" ==> m == message.value
    ensures message.None? || message.value == "" ==> m == DefaultMessage
  {
    if message.Some? && message.value != "" then message.value else DefaultMessage
  }

  /** `errorHandler`: a validation error becomes 400 with the flattened
      issues; anything else keeps its own status and message where they
      are truthy. Outside production a non-validation error is logged;
      the environment changes nothing else. */
  function HandleError(err: Thrown, env: NodeEnv): (h: Handled)
    ensures h.logged <==> err.Failure? && env != Production
    ensures err.ValidationFailed? ==>
      && h.response.status == 400
      && h.response.body.error == "ValidationError"
      && h.response.body.details == Some(Details([], FieldErrors(err.issues)))
    ensures err.Failure? ==>
      && h.response.status == StatusOf(err.status)
      && h.response.body == ErrorBody(MessageOf(err.message), None)
  {
    match err
    case ValidationFailed(issues) =>
      Handled(ErrorResponse(400, ErrorBody("ValidationError", Some(Details([], FieldErrors(issues))))), false)
    case Failure(status, message) =>
      Handled(ErrorResponse(StatusOf(status), ErrorBody(MessageOf(message), None)), env != Production)
  }

  /** `NODE_ENV` decides only the logging: the client receives the same
      status and the same message in every environment. */
  lemma ResponseIndependentOfEnv(err: Thrown, e1: NodeEnv, e2: NodeEnv)
    ensures HandleError(err, e1).response == HandleError(err, e2).response
  {
  }
}
