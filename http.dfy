/** The HTTP boundary as the services see it. The axios call itself is not
    modelled: a service receives a function `send` from requests to outcomes. */
module Http {
  import opened JsValues
  import opened WebForms
  import opened ApiErrors

  datatype Verb = GET | POST | PUT | DELETE

  datatype Body =
    | NoBody
    | Json(fields: seq<Pair>)
    | Multipart(entries: seq<FormEntry>)

  datatype Request = Request(verb: Verb, path: string, body: Body)

  /** The awaited axios call: it resolves with the response body or rejects
      with whatever was thrown. */
  datatype Outcome = Resolved(data: JsValue) | Rejected(error: Thrown)

  /** What a service function produces: the value it returns, or the
      `ApiError` it throws. */
  datatype ServiceResult = Success(data: JsValue) | Failure(error: ApiError)

  type Transport = Request -> Outcome

  /** The code a failed call carries: the server's code when it sent a
      truthy one, otherwise the operation's default. */
  function FailureCode(o: Outcome, defaultCode: string): JsValue {
    if o.Rejected? then Or(ServerFields(o.error).code, Str(defaultCode)) else Str(defaultCode)
  }
}
