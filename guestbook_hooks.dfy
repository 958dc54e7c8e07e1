/** The React Query hooks of the guestbook admin pages: the list and by-id
    queries and the delete mutation. */
module GuestBookHooks {
  import opened JsValues
  import opened Http
  import opened QueryString
  import opened QueryPolicy
  import opened GuestBookServices

  /** The first element of every guestbook key. */
  const Tag: string := "guestbooks"

  type Key = QueryKey<ListParams>

  type Options = QueryOptions<ListParams, Operation>

  /** `useGetGuestBooks(params = {})`. */
  function GetGuestBooksQuery(params: ListParams): (q: Options)
    ensures UnderTag(q.queryKey, Tag) && SharedPolicy(q) && q.enabled
    ensures q.request == ListRequest(params) && q.operation == List
  {
    WithSharedPolicy([Label(Tag), Filters(params)], ListRequest(params), List, true)
  }

  /** `useGetGuestBookById(guestbookId)`: enabled only for a non-empty id. */
  function GetGuestBookByIdQuery(guestbookId: string): (q: Options)
    ensures UnderTag(q.queryKey, Tag) && SharedPolicy(q)
    ensures q.enabled <==> guestbookId != ""
    ensures q.request == ByIdRequest(guestbookId) && q.operation == ById
  {
    WithSharedPolicy([Label(Tag), Label(guestbookId)], ByIdRequest(guestbookId), ById, Truthy(Str(guestbookId)))
  }

  /** A call of one of the two query hooks. */
  datatype Hook = UseList(params: ListParams) | UseById(guestbookId: string)

  function QueryOf(h: Hook): Options {
    match h
    case UseList(params) => GetGuestBooksQuery(params)
    case UseById(id) => GetGuestBookByIdQuery(id)
  }

  /** Distinct hook calls never share a cache entry. */
  lemma KeysIdentifyQueries(a: Hook, b: Hook)
    ensures QueryOf(a).queryKey == QueryOf(b).queryKey <==> a == b
  {
    if QueryOf(a).queryKey == QueryOf(b).queryKey {
      assert QueryOf(a).queryKey[1] == QueryOf(b).queryKey[1];
    }
  }

  // ---------------------------------------------------------------------
  // The delete mutation

  /** `mutationFn` of `useDeleteGuestBook`. */
  function DeleteMutate(guestbookId: string, send: Transport): (r: ServiceResult)
    ensures r.Success? <==> send(DeleteRequest(guestbookId)).Resolved?
    ensures r.Failure? ==> r.error.code != Str("")
  {
    DeleteGuestBook(guestbookId, send)
  }

  /** The single key `onSuccess` invalidates. */
  const DeleteInvalidates: seq<Key> := [[Label(Tag)]]

  /** The keys invalidated after a delete settles: none when it failed. */
  function DeleteInvalidations(result: ServiceResult): (keys: seq<Key>)
    ensures keys != [] <==> result.Success?
    ensures forall k :: k in keys ==> UnderTag(k, Tag)
  {
    if result.Success? then DeleteInvalidates else []
  }

  /** A successful delete marks every cached guestbook query stale,
      including the by-id entry of the deleted row, which reads the path
      the delete wrote. */
  lemma DeleteRefreshesEveryQuery(guestbookId: string, h: Hook)
    ensures exists k :: k in DeleteInvalidates && Matches(k, QueryOf(h).queryKey)
    ensures GetGuestBookByIdQuery(guestbookId).request.path == DeleteRequest(guestbookId).path
  {
    var k := DeleteInvalidates[0];
    assert QueryOf(h).queryKey[..1] == k;
    assert Matches(k, QueryOf(h).queryKey);
    ItemPaths(guestbookId);
  }
}
