/** The article-category service: one function per endpoint, each turning a
    rejected call into an `ApiError` with its own default message and code. */
module ArticleCategoryServices {
  import opened Wrappers
  import opened JsValues
  import opened WebForms
  import opened ApiErrors
  import opened Http
  import opened QueryString

  datatype CreateArticleCategoryRequest = CreateArticleCategoryRequest(name: string)

  datatype UpdateArticleCategoryRequest = UpdateArticleCategoryRequest(name: Option<string>)

  /** The six service functions, for their default messages and codes. */
  datatype Operation = List | All | ById | Create | Update | Delete

  function DefaultMessage(op: Operation): string {
    match op
    case List => "Gagal mengambil data kategori artikel"
    case All => "Gagal mengambil semua kategori artikel"
    case ById => "Gagal mengambil detail kategori artikel"
    case Create => "Gagal membuat kategori artikel baru"
    case Update => "Gagal memperbarui kategori artikel"
    case Delete => "Gagal menghapus kategori artikel"
  }

  function DefaultCode(op: Operation): string {
    match op
    case List => "GET_ARTICLE_CATEGORIES_ERROR"
    case All => "GET_ALL_ARTICLE_CATEGORIES_ERROR"
    case ById => "GET_ARTICLE_CATEGORY_BY_ID_ERROR"
    case Create => "CREATE_ARTICLE_CATEGORY_ERROR"
    case Update => "UPDATE_ARTICLE_CATEGORY_ERROR"
    case Delete => "DELETE_ARTICLE_CATEGORY_ERROR"
  }

  // ---------------------------------------------------------------------
  // Requests

  function ListRequest(p: ListParams): Request {
    Request(GET, "/admin/categories?" + Serialize(ListQuery(p)), NoBody)
  }

  function AllRequest(): Request {
    Request(GET, "/admin/categories/all", NoBody)
  }

  function ByIdRequest(id: string): Request {
    Request(GET, "/admin/categories/" + id, NoBody)
  }

  function CreateRequest(data: CreateArticleCategoryRequest): Request {
    Request(POST, "/admin/categories", Json([("name", data.name)]))
  }

  /** An absent `name` is left out of the JSON body. */
  function UpdateRequest(id: string, data: UpdateArticleCategoryRequest): Request {
    Request(PUT, "/admin/categories/" + id, Json(if data.name.Some? then [("name", data.name.value)] else []))
  }

  function DeleteRequest(id: string): Request {
    Request(DELETE, "/admin/article-categories/" + id, NoBody)
  }

  // ---------------------------------------------------------------------
  // Service functions

  /** The operations that return `response.data.data` rather than
      `response.data` (or nothing). */
  predicate ReadsInner(op: Operation) {
    op == ById || op == Create || op == Update
  }

  /** The `try`/`catch` every service function wraps around its call. For
      an operation that reads `response.data.data`, a `null` or `undefined`
      body makes that read throw a TypeError, an object without `response`,
      which the `catch` normalises like any other. */
  function Settle(op: Operation, o: Outcome): (r: ServiceResult)
    ensures r.Success? <==> o.Resolved? && !(ReadsInner(op) && Nullish(o.data))
    ensures r.Success? ==> r.data == o.data
    ensures r.Failure? ==> r.error.code == FailureCode(o, DefaultCode(op))
  {
    match o
    case Resolved(body) =>
      if ReadsInner(op) && Nullish(body) then
        Failure(NormalizeError(WithoutResponse, DefaultMessage(op), DefaultCode(op)))
      else
        Success(body)
    case Rejected(e) => Failure(NormalizeError(e, DefaultMessage(op), DefaultCode(op)))
  }

  /** `getArticleCategories`: builds the query step by step, then sends it. */
  method GetArticleCategories(params: ListParams, send: Transport) returns (r: ServiceResult)
    ensures r == Settle(List, send(ListRequest(params)))
  {
    var searchParams := new SearchParams();
    SetListFields(searchParams, params);
    var path := "/admin/categories?" + searchParams.ToString();
    r := Settle(List, send(Request(GET, path, NoBody)));
  }

  /** `getAllArticleCategories`: `GET /admin/categories/all`, returning the
      body as it is. */
  function GetAllArticleCategories(send: Transport): (r: ServiceResult)
    ensures var o := send(Request(GET, "/admin/categories/all", NoBody));
      (r.Success? <==> o.Resolved?) && (r.Success? ==> r.data == o.data)
      && (r.Failure? ==> r.error.code == FailureCode(o, "GET_ALL_ARTICLE_CATEGORIES_ERROR"))
  {
    Settle(All, send(AllRequest()))
  }

  /** `getArticleCategoryById`: `GET /admin/categories/{id}`; the read of
      `response.data.data` fails on a `null` or `undefined` body. */
  function GetArticleCategoryById(id: string, send: Transport): (r: ServiceResult)
    ensures var o := send(Request(GET, "/admin/categories/" + id, NoBody));
      (r.Success? <==> o.Resolved? && !Nullish(o.data)) && (r.Success? ==> r.data == o.data)
      && (r.Failure? ==> r.error.code == FailureCode(o, "GET_ARTICLE_CATEGORY_BY_ID_ERROR"))
  {
    Settle(ById, send(ByIdRequest(id)))
  }

  /** `createArticleCategory`: `POST /admin/categories` with `{name}`. */
  function CreateArticleCategory(data: CreateArticleCategoryRequest, send: Transport): (r: ServiceResult)
    ensures var o := send(Request(POST, "/admin/categories", Json([("name", data.name)])));
      (r.Success? <==> o.Resolved? && !Nullish(o.data)) && (r.Success? ==> r.data == o.data)
      && (r.Failure? ==> r.error.code == FailureCode(o, "CREATE_ARTICLE_CATEGORY_ERROR"))
  {
    Settle(Create, send(CreateRequest(data)))
  }

  /** `updateArticleCategory`: `PUT /admin/categories/{id}` with the
      changed fields. */
  function UpdateArticleCategory(id: string, data: UpdateArticleCategoryRequest, send: Transport): (r: ServiceResult)
    ensures UpdateRequest(id, data).verb == PUT && UpdateRequest(id, data).path == "/admin/categories/" + id
    ensures var o := send(UpdateRequest(id, data));
      (r.Success? <==> o.Resolved? && !Nullish(o.data)) && (r.Success? ==> r.data == o.data)
      && (r.Failure? ==> r.error.code == FailureCode(o, "UPDATE_ARTICLE_CATEGORY_ERROR"))
  {
    Settle(Update, send(UpdateRequest(id, data)))
  }

  /** `deleteArticleCategory`: `DELETE /admin/article-categories/{id}`; it
      reads no body. */
  function DeleteArticleCategory(id: string, send: Transport): (r: ServiceResult)
    ensures var o := send(Request(DELETE, "/admin/article-categories/" + id, NoBody));
      (r.Success? <==> o.Resolved?)
      && (r.Failure? ==> r.error.code == FailureCode(o, "DELETE_ARTICLE_CATEGORY_ERROR"))
  {
    Settle(Delete, send(DeleteRequest(id)))
  }

  // ---------------------------------------------------------------------
  // Properties

  /** Every service function has a default code of its own. */
  lemma DefaultCodesDistinct(a: Operation, b: Operation)
    requires DefaultCode(a) == DefaultCode(b)
    ensures a == b
  {
  }

  /** When the server supplies no code, the code of a failure tells which
      service function failed. */
  lemma FailureNamesOperation(a: Operation, b: Operation, ea: Thrown, eb: Thrown)
    requires !Truthy(ServerFields(ea).code) && !Truthy(ServerFields(eb).code)
    requires Settle(a, Rejected(ea)).error.code == Settle(b, Rejected(eb)).error.code
    ensures a == b
  {
    DefaultCodesDistinct(a, b);
  }

  /** A call succeeds exactly when the transport resolved it and, for the
      operations that read `response.data.data`, the body is neither `null`
      nor `undefined`; a success carries the body. A body whose inner read
      throws fails with exactly the defaults; a rejected call is thrown as
      the normalised error with this operation's defaults. */
  lemma SettleOutcome(op: Operation, o: Outcome)
    ensures Settle(op, o).Success? <==> o.Resolved? && !(ReadsInner(op) && Nullish(o.data))
    ensures Settle(op, o).Success? ==> Settle(op, o).data == o.data
    ensures o.Resolved? && ReadsInner(op) && Nullish(o.data) ==>
      Settle(op, o) == Failure(ApiError(Str(DefaultMessage(op)), Str(DefaultCode(op)), Some(Undefined)))
    ensures o.Rejected? && !Truthy(ServerFields(o.error).errors) ==>
      Settle(op, o).error.message == Str(DefaultMessage(op))
    ensures o.Rejected? && !Truthy(ServerFields(o.error).code) ==>
      Settle(op, o).error.code == Str(DefaultCode(op))
  {
  }

  /** The list path is the bare `/admin/categories?` exactly when no field
      of the params is truthy, as with the default `{}`. */
  lemma ListPathBare(p: ListParams)
    ensures ListRequest(p).path == "/admin/categories?" <==>
      !NumberTruthy(p.page) && !NumberTruthy(p.limit) && !StringTruthy(p.search)
      && !StringTruthy(p.sortBy) && p.sortOrder.None?
    ensures ListRequest(NoParams).path == "/admin/categories?"
  {
    ListQueryEmpty(p);
    ListQueryEmpty(NoParams);
    var q := Serialize(ListQuery(p));
    assert ListRequest(p).path == "/admin/categories?" + q;
    if q != "" {
      assert |ListRequest(p).path| > |"/admin/categories?"|;
    }
  }

  /** Reading and updating one category address the same path; deleting it
      addresses a different one (`/admin/article-categories/{id}`), for
      every id. */
  lemma ItemPaths(id: string, data: UpdateArticleCategoryRequest)
    ensures ByIdRequest(id).path == UpdateRequest(id, data).path
    ensures DeleteRequest(id).path != ByIdRequest(id).path
  {
    assert DeleteRequest(id).path[7] == 'a';
    assert ByIdRequest(id).path[7] == 'c';
  }

  /** Fetching the category whose id is `all` sends the same request as
      fetching all categories. */
  lemma ByIdOfAllIsAll()
    ensures ByIdRequest("all") == AllRequest()
  {
  }
}
