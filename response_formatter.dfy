/**
 * The uniform JSON envelope every service answers with (`ApiResponse`):
 * `{success: true, message, data, statusCode}` or
 * `{success: false, message, statusCode, errors?}`.
 */
module ApiResponse {
  import opened Js

  /** One field-level reason in a failed response. `field` is JSON `null` when absent. */
  datatype FieldError = FieldError(field: Option<string>, message: string)

  datatype ApiBody =
    | SuccessBody(message: string, data: Value, statusCode: int)
    | ErrorBody(message: string, statusCode: int, errors: Option<seq<FieldError>>)
  {
    /** The envelope's `success` field. */
    predicate Succeeded() { SuccessBody? }
  }

  /** `ApiResponse.success(data = null, message = 'Success', statusCode = 200)`. */
  function Success(data: Value := Null, message: string := "Success", statusCode: int := 200): (r: ApiBody)
    ensures r.Succeeded() && r.data == data && r.message == message && r.statusCode == statusCode
  {
    SuccessBody(message, data, statusCode)
  }

  /**
   * `ApiResponse.error(message = 'Internal Server Error', statusCode = 500, errors = null)`.
   * `errors` is a list whenever it is given, and a list is truthy in JavaScript
   * (even an empty one), so the field is present exactly when the argument is given.
   */
  function Error(message: string := "Internal Server Error", statusCode: int := 500,
                 errors: Option<seq<FieldError>> := None): (r: ApiBody)
    ensures !r.Succeeded() && r.message == message && r.statusCode == statusCode
    ensures r.errors.Some? <==> errors.Some?
    ensures errors.Some? ==> r.errors == errors
  {
    ErrorBody(message, statusCode, errors)
  }

  /** `ApiResponse.validation(errors)`: 422 "Validation failed" carrying the reasons. */
  function Validation(errors: seq<FieldError>): (r: ApiBody)
    ensures !r.Succeeded() && r.statusCode == 422 && r.message == "Validation failed"
    ensures r.errors == Some(errors)
  {
    Error("Validation failed", 422, Some(errors))
  }

  /** `ApiResponse.notFound(message = 'Resource not found')`. */
  function NotFound(message: string := "Resource not found"): (r: ApiBody)
    ensures !r.Succeeded() && r.statusCode == 404 && r.message == message && r.errors == None
  {
    Error(message, 404)
  }

  /** `ApiResponse.unauthorized(message = 'Unauthorized')`. */
  function Unauthorized(message: string := "Unauthorized"): (r: ApiBody)
    ensures !r.Succeeded() && r.statusCode == 401 && r.message == message && r.errors == None
  {
    Error(message, 401)
  }

  /** `ApiResponse.forbidden(message = 'Forbidden')`. */
  function Forbidden(message: string := "Forbidden"): (r: ApiBody)
    ensures !r.Succeeded() && r.statusCode == 403 && r.message == message && r.errors == None
  {
    Error(message, 403)
  }

  /** A status line and JSON body written to the HTTP response. */
  datatype Reply = Reply(status: int, body: ApiBody)

  /** `res.status(response.statusCode).json(response)`. */
  function Send(body: ApiBody): (r: Reply)
    ensures r.status == r.body.statusCode && r.body == body
  {
    Reply(body.statusCode, body)
  }

  /** The defaults: a bare success is 200 "Success" with `data: null`; a bare error is 500. */
  lemma Defaults()
    ensures Success() == SuccessBody("Success", Null, 200)
    ensures Error() == ErrorBody("Internal Server Error", 500, None)
    ensures NotFound().message == "Resource not found"
    ensures Unauthorized().message == "Unauthorized" && Forbidden().message == "Forbidden"
  {
  }
}
