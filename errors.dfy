/** utils.RestError and its three constructors: the error value every service returns. */
module Errors {
  import opened Wrappers

  datatype RestError = RestError(message: string, code: int, error: string)

  /** Results of service calls: a value, or the RestError the HTTP layer reports. */
  type Outcome<T> = Result<T, RestError>

  function BadRequest(message: string): (e: RestError)
    ensures e.code == 400 && e.error == "bad request" && e.message == message
  {
    RestError(message, 400, "bad request")
  }

  function NotFound(message: string): (e: RestError)
    ensures e.code == 404 && e.error == "not found" && e.message == message
  {
    RestError(message, 404, "not found")
  }

  function InternalErr(message: string): (e: RestError)
    ensures e.code == 500 && e.error == "internal server error" && e.message == message
  {
    RestError(message, 500, "internal server error")
  }
}
