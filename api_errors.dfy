/** The error values the services throw and how a caught value is turned
    into one (`normalizeError`, written out identically in the publication
    and article-category services). */
module ApiErrors {
  import opened Wrappers
  import opened JsValues

  /** The body of an HTTP error response: `{errors, code, details}`. A field
      the backend leaves out is `Undefined`. */
  datatype ErrorBody = ErrorBody(errors: JsValue, code: JsValue, details: JsValue)

  /** What a service's `catch` clause receives. */
  datatype Thrown =
    | NotAnObject
      // a primitive, or null
    | WithoutResponse
      // an object with no `response` property: a network failure, a RangeError, ...
    | WithResponse(body: Option<ErrorBody>)
      // `response` is present; None when `response` or `response.data` is missing

  /** `ApiError`. `details` is None when the object has no `details`
      property at all, and Some(Undefined) when the property is there but
      undefined. */
  datatype ApiError = ApiError(message: JsValue, code: JsValue, details: Option<JsValue>)

  /** What `err.response?.data?` yields: the body, or all fields undefined. */
  function ServerFields(e: Thrown): ErrorBody {
    if e.WithResponse? && e.body.Some? then e.body.value else ErrorBody(Undefined, Undefined, Undefined)
  }

  /** `normalizeError(error, defaultMsg, defaultCode)`. */
  function NormalizeError(e: Thrown, defaultMsg: string, defaultCode: string): (r: ApiError)
    ensures Truthy(ServerFields(e).errors) ==> r.message == ServerFields(e).errors
    ensures !Truthy(ServerFields(e).errors) ==> r.message == Str(defaultMsg)
    ensures Truthy(ServerFields(e).code) ==> r.code == ServerFields(e).code
    ensures !Truthy(ServerFields(e).code) ==> r.code == Str(defaultCode)
    ensures e.WithResponse? ==> r.details == Some(ServerFields(e).details)
    ensures !e.WithResponse? ==> r == ApiError(Str(defaultMsg), Str(defaultCode), Some(Undefined))
  {
    if e.WithResponse? then
      var d := ServerFields(e);
      ApiError(Or(d.errors, Str(defaultMsg)), Or(d.code, Str(defaultCode)), Some(d.details))
    else
      ApiError(Str(defaultMsg), Str(defaultCode), Some(Undefined))
  }

  /** With non-empty defaults, a normalised error always carries a usable
      message and code, whatever was thrown. */
  lemma NormalizedErrorNeverBlank(e: Thrown, defaultMsg: string, defaultCode: string)
    requires defaultMsg != "" && defaultCode != ""
    ensures Truthy(NormalizeError(e, defaultMsg, defaultCode).message)
    ensures Truthy(NormalizeError(e, defaultMsg, defaultCode).code)
  {
  }
}
