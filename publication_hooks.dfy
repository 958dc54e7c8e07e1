/** The React Query hooks of the publication admin pages: the list and
    by-id queries, and the create, update and delete mutations. */
module PublicationHooks {
  import opened Wrappers
  import opened JsValues
  import opened Http
  import opened QueryPolicy
  import opened PublicationServices

  /** The first element of every publication key. */
  const Tag: string := "publications"

  type Key = QueryKey<PublicationParams>

  type Options = QueryOptions<PublicationParams, Operation>

  /** `useGetPublications(params = {})`. */
  function GetPublicationsQuery(params: PublicationParams): (q: Options)
    ensures UnderTag(q.queryKey, Tag) && SharedPolicy(q) && q.enabled
    ensures q.request == ListRequest(params) && q.operation == List
  {
    WithSharedPolicy([Label(Tag), Filters(params)], ListRequest(params), List, true)
  }

  /** `useGetPublicationById(publicationId)`: enabled only for a non-empty
      id. */
  function GetPublicationByIdQuery(publicationId: string): (q: Options)
    ensures UnderTag(q.queryKey, Tag) && SharedPolicy(q)
    ensures q.enabled <==> publicationId != ""
    ensures q.request == ByIdRequest(publicationId) && q.operation == ById
  {
    WithSharedPolicy([Label(Tag), Label(publicationId)], ByIdRequest(publicationId), ById, Truthy(Str(publicationId)))
  }

  /** A call of one of the two query hooks. */
  datatype Hook = UseList(params: PublicationParams) | UseById(publicationId: string)

  function QueryOf(h: Hook): Options {
    match h
    case UseList(params) => GetPublicationsQuery(params)
    case UseById(id) => GetPublicationByIdQuery(id)
  }

  /** Distinct hook calls never share a cache entry: a list key ends in the
      params object, a by-id key in the id string. */
  lemma KeysIdentifyQueries(a: Hook, b: Hook)
    ensures QueryOf(a).queryKey == QueryOf(b).queryKey <==> a == b
  {
    if QueryOf(a).queryKey == QueryOf(b).queryKey {
      assert QueryOf(a).queryKey[1] == QueryOf(b).queryKey[1];
    }
  }

  // ---------------------------------------------------------------------
  // Mutations

  /** A call of the `mutate` function of one of the three mutation hooks;
      the update hook is created for one `publicationId`. The date
      formatter stands for `toISOString`. */
  datatype Mutation =
    | CreateMutation(payload: PublicationPayload)
    | UpdateMutation(publicationId: string, changes: PublicationPayload)
    | DeleteMutation(id: string)

  function OperationOf(m: Mutation): Operation {
    match m
    case CreateMutation(_) => Create
    case UpdateMutation(_, _) => Update
    case DeleteMutation(_) => Delete
  }

  /** What `mutationFn` sends; None when building the form throws. */
  function MutationRequest(m: Mutation, iso: IsoFormatter): Option<Request> {
    match m
    case CreateMutation(payload) => CreateRequest(payload, iso)
    case UpdateMutation(id, changes) => UpdateRequest(id, changes, iso)
    case DeleteMutation(id) => Some(DeleteRequest(id))
  }

  /** `mutationFn`: the result of the service call the mutation makes. It
      succeeds exactly when there was a request to send, the transport
      resolved it and, for create and update, which return
      `response.data.data`, the body is neither `null` nor `undefined`. */
  function Mutate(m: Mutation, iso: IsoFormatter, send: Transport): (r: ServiceResult)
    ensures r.Success? <==>
      (MutationRequest(m, iso).Some? && send(MutationRequest(m, iso).value).Resolved?
       && (m.DeleteMutation? || !Nullish(send(MutationRequest(m, iso).value).data)))
    ensures r.Failure? && MutationRequest(m, iso).None? ==>
      r.error.code == Str(DefaultCode(OperationOf(m)))
  {
    match m
    case CreateMutation(payload) => Dispatch(Create, CreateRequest(payload, iso), send)
    case UpdateMutation(id, changes) => Dispatch(Update, UpdateRequest(id, changes, iso), send)
    case DeleteMutation(id) => DeletePublication(id, send)
  }

  /** The keys `onSuccess` passes to `invalidateQueries`, in order. */
  function InvalidatedKeys(m: Mutation): (keys: seq<Key>)
    ensures forall k :: k in keys ==> UnderTag(k, Tag)
    ensures keys != [] && keys[0] == [Label(Tag)]
  {
    match m
    case UpdateMutation(id, _) => [[Label(Tag)], [Label(Tag), Label(id)]]
    case _ => [[Label(Tag)]]
  }

  /** The keys invalidated after a mutation settles: none when it failed. */
  function Invalidations(m: Mutation, result: ServiceResult): (keys: seq<Key>)
    ensures keys != [] <==> result.Success?
  {
    if result.Success? then InvalidatedKeys(m) else []
  }

  /** A create or update whose date cannot be formatted invalidates
      nothing: it fails before any request is sent. */
  lemma BadDateInvalidatesNothing(m: Mutation, iso: IsoFormatter, send: Transport)
    requires m.CreateMutation? || m.UpdateMutation?
    requires DateThrows(if m.CreateMutation? then m.payload else m.changes, iso)
    ensures Invalidations(m, Mutate(m, iso, send)) == []
  {
    BadDateNeverSent(if m.UpdateMutation? then m.publicationId else "",
                     if m.CreateMutation? then m.payload else m.changes, iso, send);
  }

  /** Every cached publication query, list or by-id, is marked stale by
      every successful mutation. */
  lemma MutationRefreshesEveryQuery(m: Mutation, h: Hook)
    ensures exists k :: k in InvalidatedKeys(m) && Matches(k, QueryOf(h).queryKey)
  {
    var k := InvalidatedKeys(m)[0];
    assert QueryOf(h).queryKey[..1] == k;
    assert Matches(k, QueryOf(h).queryKey);
  }

  /** The update's second key is the by-id query's key for the publication
      it changed, and a buildable update writes the path that query reads;
      the first key already covers the second. */
  lemma UpdateRefreshesItsItem(publicationId: string, changes: PublicationPayload, iso: IsoFormatter)
    requires !DateThrows(changes, iso)
    ensures InvalidatedKeys(UpdateMutation(publicationId, changes))[1]
         == GetPublicationByIdQuery(publicationId).queryKey
    ensures MutationRequest(UpdateMutation(publicationId, changes), iso).Some?
    ensures MutationRequest(UpdateMutation(publicationId, changes), iso).value.path
         == GetPublicationByIdQuery(publicationId).request.path
    ensures Matches(InvalidatedKeys(UpdateMutation(publicationId, changes))[0],
                    InvalidatedKeys(UpdateMutation(publicationId, changes))[1])
  {
    WritesCarryTheForm(publicationId, changes, iso);
  }
}
