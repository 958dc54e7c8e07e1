/** The guestbook service: list, read one, delete. Its `normalizeError`
    differs from the other services' in one place: the fallback error has no
    `details` property at all. */
module GuestBookServices {
  import opened Wrappers
  import opened JsValues
  import opened WebForms
  import opened ApiErrors
  import opened Http
  import opened QueryString

  datatype Operation = List | ById | Delete

  function DefaultMessage(op: Operation): string {
    match op
    case List => "Gagal mengambil data buku tamu"
    case ById => "Gagal mengambil detail buku tamu"
    case Delete => "Gagal menghapus data buku tamu"
  }

  function DefaultCode(op: Operation): string {
    match op
    case List => "GET_GUESTBOOKS_ERROR"
    case ById => "GET_GUESTBOOK_BY_ID_ERROR"
    case Delete => "DELETE_GUESTBOOK_ERROR"
  }

  /** This service's `normalizeError`. */
  function NormalizeError(e: Thrown, defaultMsg: string, defaultCode: string): (r: ApiError)
    ensures Truthy(ServerFields(e).errors) ==> r.message == ServerFields(e).errors
    ensures !Truthy(ServerFields(e).errors) ==> r.message == Str(defaultMsg)
    ensures Truthy(ServerFields(e).code) ==> r.code == ServerFields(e).code
    ensures !Truthy(ServerFields(e).code) ==> r.code == Str(defaultCode)
    ensures e.WithResponse? ==> r.details == Some(ServerFields(e).details)
    ensures !e.WithResponse? ==> r == ApiError(Str(defaultMsg), Str(defaultCode), None)
  {
    if e.WithResponse? then
      var d := ServerFields(e);
      ApiError(Or(d.errors, Str(defaultMsg)), Or(d.code, Str(defaultCode)), Some(d.details))
    else
      ApiError(Str(defaultMsg), Str(defaultCode), None)
  }

  /** The two variants agree on message and code for every thrown value,
      and on details whenever there was a response; without one, only the
      guestbook variant omits the `details` property. */
  lemma NormalizeErrorVariants(e: Thrown, defaultMsg: string, defaultCode: string)
    ensures NormalizeError(e, defaultMsg, defaultCode).message == ApiErrors.NormalizeError(e, defaultMsg, defaultCode).message
    ensures NormalizeError(e, defaultMsg, defaultCode).code == ApiErrors.NormalizeError(e, defaultMsg, defaultCode).code
    ensures NormalizeError(e, defaultMsg, defaultCode).details == ApiErrors.NormalizeError(e, defaultMsg, defaultCode).details
      <==> e.WithResponse?
    ensures NormalizeError(e, defaultMsg, defaultCode).details.None? <==> !e.WithResponse?
  {
  }

  // ---------------------------------------------------------------------
  // Requests

  function ListRequest(p: ListParams): Request {
    Request(GET, "/admin/guestbook?" + Serialize(ListQuery(p)), NoBody)
  }

  function ByIdRequest(id: string): Request {
    Request(GET, "/admin/guestbook/" + id, NoBody)
  }

  function DeleteRequest(id: string): Request {
    Request(DELETE, "/admin/guestbook/" + id, NoBody)
  }

  // ---------------------------------------------------------------------
  // Service functions

  /** The operations that return `response.data.data`: both reads. */
  predicate ReadsInner(op: Operation) {
    op == List || op == ById
  }

  /** The `try`/`catch` of every service function; a `null` or `undefined`
      body makes the inner read of a read operation throw a TypeError,
      which has no `response`. */
  function Settle(op: Operation, o: Outcome): (r: ServiceResult)
    ensures r.Success? <==> o.Resolved? && !(ReadsInner(op) && Nullish(o.data))
    ensures r.Success? ==> r.data == o.data
    ensures r.Failure? ==> r.error.code == FailureCode(o, DefaultCode(op))
  {
    match o
    case Resolved(body) =>
      if ReadsInner(op) && Nullish(body) then
        Failure(NormalizeError(WithoutResponse, DefaultMessage(op), DefaultCode(op)))
      else
        Success(body)
    case Rejected(e) => Failure(NormalizeError(e, DefaultMessage(op), DefaultCode(op)))
  }

  /** `buildSearchParams`: a fresh `URLSearchParams` holding exactly the
      truthy fields, in order, each once. */
  method BuildSearchParams(params: ListParams) returns (searchParams: SearchParams)
    ensures fresh(searchParams)
    ensures searchParams.pairs == ListQuery(params)
  {
    searchParams := new SearchParams();
    SetListFields(searchParams, params);
  }

  /** `getGuestBooks`. */
  method GetGuestBooks(params: ListParams, send: Transport) returns (r: ServiceResult)
    ensures r == Settle(List, send(ListRequest(params)))
  {
    var searchParams := BuildSearchParams(params);
    r := Settle(List, send(Request(GET, "/admin/guestbook?" + searchParams.ToString(), NoBody)));
  }

  /** `getGuestBookById`: `GET /admin/guestbook/{id}`; the read of
      `response.data.data` fails on a `null` or `undefined` body. */
  function GetGuestBookById(id: string, send: Transport): (r: ServiceResult)
    ensures var o := send(Request(GET, "/admin/guestbook/" + id, NoBody));
      (r.Success? <==> o.Resolved? && !Nullish(o.data)) && (r.Success? ==> r.data == o.data)
      && (r.Failure? ==> r.error.code == FailureCode(o, "GET_GUESTBOOK_BY_ID_ERROR"))
  {
    Settle(ById, send(ByIdRequest(id)))
  }

  /** `deleteGuestBook`: `DELETE /admin/guestbook/{id}`; it reads no body. */
  function DeleteGuestBook(id: string, send: Transport): (r: ServiceResult)
    ensures var o := send(Request(DELETE, "/admin/guestbook/" + id, NoBody));
      (r.Success? <==> o.Resolved?)
      && (r.Failure? ==> r.error.code == FailureCode(o, "DELETE_GUESTBOOK_ERROR"))
  {
    Settle(Delete, send(DeleteRequest(id)))
  }

  // ---------------------------------------------------------------------
  // Properties

  /** With the default `{}` the parameter list is empty and the list path
      is the bare `/admin/guestbook?`. */
  lemma DefaultParamsBarePath()
    ensures ListQuery(NoParams) == []
    ensures ListRequest(NoParams).path == "/admin/guestbook?"
  {
    ListQueryEmpty(NoParams);
  }

  /** Reading one entry and deleting it address the same path. */
  lemma ItemPaths(id: string)
    ensures ByIdRequest(id).path == DeleteRequest(id).path
    ensures ByIdRequest(id).verb == GET && DeleteRequest(id).verb == DELETE
  {
  }

  lemma DefaultCodesDistinct(a: Operation, b: Operation)
    requires DefaultCode(a) == DefaultCode(b)
    ensures a == b
  {
  }

  /** A read succeeds exactly when the transport resolves with a body that
      is neither `null` nor `undefined`; the delete succeeds exactly when
      the transport resolves. A read whose body is `null` or `undefined`
      fails with exactly the defaults, with no `details` property. */
  lemma SettleOutcome(op: Operation, o: Outcome)
    ensures Settle(op, o).Success? <==> o.Resolved? && !(ReadsInner(op) && Nullish(o.data))
    ensures Settle(op, o).Success? ==> Settle(op, o).data == o.data
    ensures op == Delete ==> (Settle(op, o).Success? <==> o.Resolved?)
    ensures o.Resolved? && op != Delete && Nullish(o.data) ==>
      Settle(op, o) == Failure(ApiError(Str(DefaultMessage(op)), Str(DefaultCode(op)), None))
  {
  }

  /** A failure without a response is thrown as exactly the operation's
      defaults, with no `details` property. */
  lemma FallbackFailure(op: Operation, e: Thrown)
    requires !e.WithResponse?
    ensures Settle(op, Rejected(e)) ==
      Failure(ApiError(Str(DefaultMessage(op)), Str(DefaultCode(op)), None))
  {
  }
}
