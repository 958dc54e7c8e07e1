/** The options every query hook hands to React Query: the cache key, the
    request the query function sends, the `enabled` guard, the cache
    lifetimes, and the `retry` / `retryDelay` callbacks, which all seven
    queries write out identically. Also the key lists a mutation
    invalidates on success. */
module QueryPolicy {
  import opened JsValues
  import opened ApiErrors
  import opened Http

  /** `staleTime: 5 * 60 * 1000`, in milliseconds. */
  const StaleTime: nat := 5 * 60 * 1000

  /** `gcTime: 10 * 60 * 1000`, in milliseconds. */
  const GcTime: nat := 10 * 60 * 1000

  /** The codes `retry` gives up on at once, as they appear in its array
      literal. */
  const TerminalCodes: seq<JsValue> := [Str("401"), Str("403"), Str("404")]

  /** The largest failure count for which `retry` still says yes, plus one. */
  const MaxRetries: nat := 3

  /** The cap on `retryDelay`. */
  const MaxDelay: nat := 20000

  /** A code that means retrying cannot help: unauthorised, forbidden, not
      found. Only the strings count; `includes` compares with
      SameValueZero, so the number 401 is not one of them. */
  predicate IsTerminal(code: JsValue) {
    code == Str("401") || code == Str("403") || code == Str("404")
  }

  /** `retry: (failureCount, error) => ...`: no for a terminal code,
      otherwise yes while fewer than three failures have been seen. */
  function ShouldRetry(failureCount: nat, error: ApiError): (r: bool)
    ensures IsTerminal(error.code) ==> !r
    ensures !IsTerminal(error.code) ==> (r <==> failureCount < MaxRetries)
  {
    if Truthy(error.code) && error.code in TerminalCodes then false
    else failureCount < 3
  }

  function Pow2(n: nat): (r: nat)
    ensures r >= 1
  {
    if n == 0 then 1 else 2 * Pow2(n - 1)
  }

  /** `retryDelay: (attemptIndex) => Math.min(1000 * 2 ** attemptIndex, 20000)`,
      in milliseconds. */
  function RetryDelay(attemptIndex: nat): (d: nat)
    ensures 1000 <= d <= MaxDelay
  {
    var backoff := 1000 * Pow2(attemptIndex);
    if backoff < 20000 then backoff else 20000
  }

  lemma {:induction false} Pow2Monotone(m: nat, n: nat)
    requires m <= n
    ensures Pow2(m) <= Pow2(n)
  {
    if m < n {
      Pow2Monotone(m, n - 1);
    }
  }

  /** The schedule the backoff follows: 1, 2, 4, 8 and 16 seconds, each
      double the one before, and the 20-second cap from the sixth attempt
      on. */
  lemma RetryDelaySchedule(n: nat)
    ensures n <= 4 ==> RetryDelay(n) == 1000 * Pow2(n)
    ensures n <= 4 ==> RetryDelay(n) == [1000, 2000, 4000, 8000, 16000][n]
    ensures n < 4 ==> RetryDelay(n + 1) == 2 * RetryDelay(n)
    ensures n >= 5 ==> RetryDelay(n) == MaxDelay
  {
    assert Pow2(4) == 16 && Pow2(5) == 32;
    if n <= 4 {
      Pow2Monotone(n, 4);
    } else {
      Pow2Monotone(5, n);
    }
  }

  /** A later attempt never waits less than an earlier one. */
  lemma RetryDelayMonotone(m: nat, n: nat)
    requires m <= n
    ensures RetryDelay(m) <= RetryDelay(n)
  {
    Pow2Monotone(m, n);
  }

  /** The errors the services throw reach `retry` already normalised: when
      the operation's default code is not terminal, whether a failure is
      retried depends only on the code the server sent, and a failure
      without a server code (a network error, say) is retried up to three
      times. */
  lemma RetryOfNormalizedError(failureCount: nat, e: Thrown, defaultMsg: string, defaultCode: string)
    requires !IsTerminal(Str(defaultCode))
    ensures ShouldRetry(failureCount, NormalizeError(e, defaultMsg, defaultCode))
        <==> failureCount < MaxRetries && !IsTerminal(ServerFields(e).code)
    ensures !Truthy(ServerFields(e).code) ==>
      (ShouldRetry(failureCount, NormalizeError(e, defaultMsg, defaultCode)) <==> failureCount < MaxRetries)
  {
    var r := NormalizeError(e, defaultMsg, defaultCode);
    if Truthy(ServerFields(e).code) {
      assert r.code == ServerFields(e).code;
    } else {
      assert r.code == Str(defaultCode);
      assert !IsTerminal(ServerFields(e).code);
    }
  }

  // ---------------------------------------------------------------------
  // Query keys and options

  /** One element of a query key: a string, or the params object of a
      list query. */
  datatype KeyPart<P> = Label(s: string) | Filters(params: P)

  type QueryKey<P> = seq<KeyPart<P>>

  /** The key belongs to the resource `tag`: its first element is the tag. */
  predicate UnderTag<P>(key: QueryKey<P>, tag: string) {
    |key| >= 1 && key[0].Label? && key[0].s == tag
  }

  /** How `invalidateQueries({ queryKey })` selects cached queries: those
      whose key starts with the given one. */
  predicate Matches<P(==)>(filter: QueryKey<P>, key: QueryKey<P>) {
    filter <= key
  }

  /** The options object of a `useQuery` call. `request` and `operation`
      say what its `queryFn` sends and which defaults its failures carry.
      A hook that sets no `enabled` is enabled. */
  datatype QueryOptions<P, O> = QueryOptions(
    queryKey: QueryKey<P>,
    request: Request,
    operation: O,
    enabled: bool,
    staleTime: nat,
    gcTime: nat,
    retry: (nat, ApiError) -> bool,
    retryDelay: nat -> nat)

  /** The options every query hook writes out alike: five minutes stale,
      ten minutes cached, the `retry` rule and the `retryDelay` backoff. */
  ghost predicate SharedPolicy<P, O>(q: QueryOptions<P, O>) {
    q.staleTime == StaleTime && q.gcTime == GcTime
    && q.retry == ShouldRetry && q.retryDelay == RetryDelay
  }

  /** Options built with the shared policy. */
  function WithSharedPolicy<P, O>(queryKey: QueryKey<P>, request: Request, operation: O, enabled: bool): (q: QueryOptions<P, O>)
    ensures SharedPolicy(q)
    ensures q.queryKey == queryKey && q.request == request && q.operation == operation && q.enabled == enabled
  {
    QueryOptions(queryKey, request, operation, enabled, StaleTime, GcTime, ShouldRetry, RetryDelay)
  }

  /** A query with the shared policy gives up on the first failure with a
      terminal code, is retried at most three times otherwise, and waits
      between one and twenty seconds before each retry. */
  lemma SharedRetry<P, O>(q: QueryOptions<P, O>, failureCount: nat, error: ApiError, attemptIndex: nat)
    requires SharedPolicy(q)
    ensures IsTerminal(error.code) ==> !q.retry(failureCount, error)
    ensures q.retry(failureCount, error) ==> failureCount < MaxRetries
    ensures 1000 <= q.retryDelay(attemptIndex) <= MaxDelay
  {
  }
}
