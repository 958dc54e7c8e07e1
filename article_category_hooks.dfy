/** The React Query hooks of the article-category admin pages: three
    queries, each with its cache key, and three mutations, each with the
    keys it invalidates once it succeeds. */
module ArticleCategoryHooks {
  import opened JsValues
  import opened Http
  import opened QueryString
  import opened QueryPolicy
  import opened ArticleCategoryServices

  /** The first element of every article-category key. */
  const Tag: string := "article-categories"

  type Key = QueryKey<ListParams>

  type Options = QueryOptions<ListParams, Operation>

  /** `useGetArticleCategories(params = {})`. */
  function GetArticleCategoriesQuery(params: ListParams): (q: Options)
    ensures UnderTag(q.queryKey, Tag) && SharedPolicy(q) && q.enabled
    ensures q.request == ListRequest(params) && q.operation == List
  {
    WithSharedPolicy([Label(Tag), Filters(params)], ListRequest(params), List, true)
  }

  /** `useGetAllArticleCategories()`. */
  function GetAllArticleCategoriesQuery(): (q: Options)
    ensures UnderTag(q.queryKey, Tag) && SharedPolicy(q) && q.enabled
    ensures q.request == AllRequest() && q.operation == All
  {
    WithSharedPolicy([Label(Tag), Label("all")], AllRequest(), All, true)
  }

  /** `useGetArticleCategoryById(categoryId)`: enabled only for a non-empty
      id, since `!!categoryId` is false exactly for "". */
  function GetArticleCategoryByIdQuery(categoryId: string): (q: Options)
    ensures UnderTag(q.queryKey, Tag) && SharedPolicy(q)
    ensures q.enabled <==> categoryId != ""
    ensures q.request == ByIdRequest(categoryId) && q.operation == ById
  {
    WithSharedPolicy([Label(Tag), Label(categoryId)], ByIdRequest(categoryId), ById, Truthy(Str(categoryId)))
  }

  /** A call of one of the three query hooks. */
  datatype Hook = UseList(params: ListParams) | UseAll | UseById(categoryId: string)

  function QueryOf(h: Hook): Options {
    match h
    case UseList(params) => GetArticleCategoriesQuery(params)
    case UseAll => GetAllArticleCategoriesQuery()
    case UseById(id) => GetArticleCategoryByIdQuery(id)
  }

  /** Every query uses the same cache lifetimes, five and ten minutes. */
  lemma CacheLifetimes(h: Hook)
    ensures QueryOf(h).staleTime == 300000 && QueryOf(h).gcTime == 600000
  {
  }

  /** The "all" key and the by-id key of the category whose id is "all"
      are the same cache entry, and for no other id. */
  lemma AllKeyIsByIdKeyOfAll(categoryId: string)
    ensures GetArticleCategoryByIdQuery(categoryId).queryKey == GetAllArticleCategoriesQuery().queryKey
        <==> categoryId == "all"
  {
    if GetArticleCategoryByIdQuery(categoryId).queryKey == GetAllArticleCategoriesQuery().queryKey {
      assert GetArticleCategoryByIdQuery(categoryId).queryKey[1] == Label("all");
    }
  }

  /** Two queries that share a cache entry fetch the same request, so the
      shared entry is coherent; only the default message and code of a
      failure can tell the two hooks apart. */
  lemma SharedKeySharesRequest(a: Hook, b: Hook)
    requires QueryOf(a).queryKey == QueryOf(b).queryKey
    ensures QueryOf(a).request == QueryOf(b).request
    ensures QueryOf(a).operation == QueryOf(b).operation <==> a == b
  {
    var ka, kb := QueryOf(a).queryKey, QueryOf(b).queryKey;
    assert ka[1] == kb[1];
    if a.UseById? && b.UseAll? {
      AllKeyIsByIdKeyOfAll(a.categoryId);
      ByIdOfAllIsAll();
    } else if a.UseAll? && b.UseById? {
      AllKeyIsByIdKeyOfAll(b.categoryId);
      ByIdOfAllIsAll();
    }
  }

  // ---------------------------------------------------------------------
  // Mutations

  /** A call of the `mutate` function of one of the three mutation hooks;
      the update hook is created for one `categoryId`. */
  datatype Mutation =
    | CreateMutation(data: CreateArticleCategoryRequest)
    | UpdateMutation(categoryId: string, changes: UpdateArticleCategoryRequest)
    | DeleteMutation(id: string)

  /** What `mutationFn` sends. */
  function MutationRequest(m: Mutation): Request {
    match m
    case CreateMutation(data) => CreateRequest(data)
    case UpdateMutation(id, changes) => UpdateRequest(id, changes)
    case DeleteMutation(id) => DeleteRequest(id)
  }

  /** `mutationFn`: the service call the mutation makes. Create and update
      return `response.data.data`, so they also fail on a `null` or
      `undefined` body; delete returns nothing and reads no body. */
  function Mutate(m: Mutation, send: Transport): (r: ServiceResult)
    ensures r.Success? <==>
      (send(MutationRequest(m)).Resolved? && (m.DeleteMutation? || !Nullish(send(MutationRequest(m)).data)))
  {
    match m
    case CreateMutation(data) => CreateArticleCategory(data, send)
    case UpdateMutation(id, changes) => UpdateArticleCategory(id, changes, send)
    case DeleteMutation(id) => DeleteArticleCategory(id, send)
  }

  /** The keys `onSuccess` passes to `invalidateQueries`, in order. */
  function InvalidatedKeys(m: Mutation): (keys: seq<Key>)
    ensures forall k :: k in keys ==> UnderTag(k, Tag)
    ensures keys != [] && keys[0] == [Label(Tag)]
  {
    match m
    case UpdateMutation(id, _) => [[Label(Tag)], [Label(Tag), Label(id)]]
    case _ => [[Label(Tag)]]
  }

  /** The keys invalidated after a mutation settles with `result`: none
      when it failed, since only `onSuccess` invalidates. */
  function Invalidations(m: Mutation, result: ServiceResult): (keys: seq<Key>)
    ensures keys != [] <==> result.Success?
  {
    if result.Success? then InvalidatedKeys(m) else []
  }

  /** Whatever a successful mutation changed, every cached
      article-category query — any list params, "all", any id — is
      marked stale. */
  lemma MutationRefreshesEveryQuery(m: Mutation, h: Hook)
    ensures exists k :: k in InvalidatedKeys(m) && Matches(k, QueryOf(h).queryKey)
  {
    var k := InvalidatedKeys(m)[0];
    assert k == [Label(Tag)];
    assert QueryOf(h).queryKey[..1] == k;
    assert Matches(k, QueryOf(h).queryKey);
  }

  /** The update's second key is exactly the cache entry of the by-id query
      for the category it changed, and that query reads the path the update
      wrote; the first key already covers it. */
  lemma UpdateRefreshesItsItem(categoryId: string, changes: UpdateArticleCategoryRequest)
    ensures InvalidatedKeys(UpdateMutation(categoryId, changes))[1]
         == GetArticleCategoryByIdQuery(categoryId).queryKey
    ensures GetArticleCategoryByIdQuery(categoryId).request.path
         == MutationRequest(UpdateMutation(categoryId, changes)).path
    ensures Matches(InvalidatedKeys(UpdateMutation(categoryId, changes))[0],
                    InvalidatedKeys(UpdateMutation(categoryId, changes))[1])
  {
    ItemPaths(categoryId, changes);
  }
}
