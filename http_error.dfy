/** The shape of what an HTTP client call can throw, as far as the error
    handlers of the two movie clients look into it: an optional response with a
    status, a status text and a body that may carry the API's `status_message`,
    an optional error code and an optional message. A thrown value that is not
    an object at all is told apart. */
module HttpError {

  import opened Common

  /** The API's error body (`TMDBError`); `status_message` may be absent. */
  datatype ErrorBody = ErrorBody(statusMessage: Option<string>)

  /** `error.response`: `status` 0 stands for a missing status. */
  datatype HttpResponse = HttpResponse(status: int, statusText: string, data: Option<ErrorBody>)

  datatype Thrown =
    | NotAnObject
    | ErrorObject(response: Option<HttpResponse>, code: Option<string>, message: Option<string>)

  /** How a template literal renders an optional string: `undefined` when absent. */
  function Render(s: Option<string>): string {
    if s.Some? then s.value else "undefined"
  }
}
