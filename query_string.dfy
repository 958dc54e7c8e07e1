/** The list query the services send: each optional field of the params
    record becomes one `URLSearchParams` entry when it is truthy, in a fixed
    field order. The article-category and guestbook params records share the
    same five fields; the publication record adds two. */
module QueryString {
  import opened Wrappers
  import opened JsValues
  import opened WebForms

  datatype SortOrder = Asc | Desc

  function SortOrderText(o: SortOrder): string {
    match o
    case Asc => "asc"
    case Desc => "desc"
  }

  /** `ArticleCategoryParams` / `GuestBookParams`. */
  datatype ListParams = ListParams(
    page: Option<int>,
    limit: Option<int>,
    search: Option<string>,
    sortBy: Option<string>,
    sortOrder: Option<SortOrder>)

  /** The default argument `{}`. */
  const NoParams := ListParams(None, None, None, None, None)

  /** A query field: its name and the value it contributes, if any. */
  type Candidate = (string, Option<string>)

  /** `if (n) set(k, n.toString())`: the value of a number field. */
  function NumberParam(n: Option<int>): (r: Option<string>)
    ensures r.Some? <==> NumberTruthy(n)
  {
    if NumberTruthy(n) then Some(NumberToString(n.value)) else None
  }

  /** `if (s) set(k, s)`: the value of a string field. */
  function TextParam(s: Option<string>): (r: Option<string>)
    ensures r.Some? <==> StringTruthy(s)
    ensures r.Some? ==> r == s
  {
    if StringTruthy(s) then s else None
  }

  function SortParam(o: Option<SortOrder>): (r: Option<string>)
    ensures r.Some? <==> o.Some?
  {
    if o.Some? then Some(SortOrderText(o.value)) else None
  }

  /** The entries a sequence of guarded `set` calls leaves, keeping the
      fields that have a value. */
  function Present(fs: seq<Candidate>): (r: seq<Pair>)
    ensures |r| <= |fs|
  {
    if fs == [] then []
    else (if fs[0].1.Some? then [(fs[0].0, fs[0].1.value)] else []) + Present(fs[1..])
  }

  /** The five common fields, in the order the services set them. */
  function ListFields(p: ListParams): seq<Candidate> {
    [ ("page", NumberParam(p.page)),
      ("limit", NumberParam(p.limit)),
      ("search", TextParam(p.search)),
      ("sortBy", TextParam(p.sortBy)),
      ("sortOrder", SortParam(p.sortOrder)) ]
  }

  const ListKeys: seq<string> := ["page", "limit", "search", "sortBy", "sortOrder"]

  /** The entries the list builders leave: at most one per key, in the
      order page, limit, search, sortBy, sortOrder. */
  function ListQuery(p: ListParams): (q: seq<Pair>)
    ensures |q| <= |ListKeys|
    ensures IsSubsequence(KeysOf(q), ListKeys)
    ensures forall k :: CountKey(q, k) <= 1
  {
    ListFieldsDistinct(p);
    PresentOrder(ListFields(p));
    PresentKeysOnce(ListFields(p));
    Present(ListFields(p))
  }

  predicate DistinctKeys<V>(fs: seq<(string, V)>) {
    forall i, j :: 0 <= i < j < |fs| ==> fs[i].0 != fs[j].0
  }

  /** `a` is `b` with some elements left out. */
  predicate IsSubsequence(a: seq<string>, b: seq<string>)
    decreases |b|
  {
    if a == [] then true
    else if b == [] then false
    else (a[0] == b[0] && IsSubsequence(a[1..], b[1..])) || IsSubsequence(a, b[1..])
  }

  function Flatten<T>(o: Option<Option<T>>): Option<T> {
    if o.Some? then o.value else None
  }

  // ---------------------------------------------------------------------
  // Facts about Present, for any field list

  lemma {:induction false} PresentCount(fs: seq<Candidate>, k: string)
    ensures CountKey(Present(fs), k) <= CountKey(fs, k)
  {
    if fs != [] {
      var head := if fs[0].1.Some? then [(fs[0].0, fs[0].1.value)] else [];
      PresentCount(fs[1..], k);
      ValuesOfConcat(head, Present(fs[1..]), k);
    }
  }

  lemma PresentAtMostOnce(fs: seq<Candidate>, k: string)
    requires DistinctKeys(fs)
    ensures CountKey(Present(fs), k) <= 1
  {
    PresentCount(fs, k);
    if fs != [] && fs[0].0 == k {
      NotAmongLater(fs, k);
    } else if fs != [] {
      var head := if fs[0].1.Some? then [(fs[0].0, fs[0].1.value)] else [];
      ValuesOfConcat(head, Present(fs[1..]), k);
      PresentCount(fs[1..], k);
      KeyAtMostOnce(fs[1..], k);
    }
  }

  lemma PresentKeysOnce(fs: seq<Candidate>)
    requires DistinctKeys(fs)
    ensures forall k :: CountKey(Present(fs), k) <= 1
  {
    forall k ensures CountKey(Present(fs), k) <= 1 {
      PresentAtMostOnce(fs, k);
    }
  }

  lemma KeyAtMostOnce<V>(fs: seq<(string, V)>, k: string)
    requires DistinctKeys(fs)
    ensures CountKey(fs, k) <= 1
  {
    if fs != [] {
      if fs[0].0 == k {
        AbsentKey(fs[1..], k);
      } else {
        assert DistinctKeys(fs[1..]) by {
          forall i, j | 0 <= i < j < |fs| - 1 ensures fs[1..][i].0 != fs[1..][j].0 {
            assert fs[1..][i] == fs[i + 1] && fs[1..][j] == fs[j + 1];
          }
        }
        KeyAtMostOnce(fs[1..], k);
      }
    }
  }

  /** One guarded `set` of a key not set before appends exactly that field's
      entry when the field has a value, and changes nothing otherwise. */
  lemma {:induction false} GuardedSetStep(pre: seq<Candidate>, c: Candidate)
    requires forall i :: 0 <= i < |pre| ==> pre[i].0 != c.0
    ensures c.1.Some? ==> SetPair(Present(pre), c.0, c.1.value) == Present(pre + [c])
    ensures c.1.None? ==> Present(pre) == Present(pre + [c])
  {
    PresentSnoc(pre, c);
    AbsentKey(pre, c.0);
    PresentCount(pre, c.0);
  }

  /** One guarded `searchParams.set(key, value)` of a builder that walks the
      fields `fs` in order: the field is set when it has a value, and the
      entries are then those of the first `i + 1` fields. */
  method SetField(searchParams: SearchParams, ghost fs: seq<Candidate>, ghost i: nat,
                  key: string, value: Option<string>)
    requires i < |fs| && fs[i] == (key, value) && DistinctKeys(fs)
    requires searchParams.pairs == Present(fs[..i])
    modifies searchParams
    ensures searchParams.pairs == Present(fs[..i + 1])
  {
    GuardedSetStep(fs[..i], fs[i]);
    if value.Some? {
      searchParams.Set(key, value.value);
    }
    assert fs[..i] + [fs[i]] == fs[..i + 1];
  }

  /** The five guarded `set` calls every list builder starts with, in
      order: page, limit, search, sortBy, sortOrder. */
  method SetListFields(searchParams: SearchParams, params: ListParams)
    requires searchParams.pairs == []
    modifies searchParams
    ensures searchParams.pairs == ListQuery(params)
  {
    ghost var fs := ListFields(params);
    ListFieldsDistinct(params);
    assert fs[..0] == [];
    SetField(searchParams, fs, 0, "page", NumberParam(params.page));
    SetField(searchParams, fs, 1, "limit", NumberParam(params.limit));
    SetField(searchParams, fs, 2, "search", TextParam(params.search));
    SetField(searchParams, fs, 3, "sortBy", TextParam(params.sortBy));
    SetField(searchParams, fs, 4, "sortOrder", SortParam(params.sortOrder));
    assert fs[..5] == fs;
  }

  lemma {:induction false} PresentSnoc(pre: seq<Candidate>, c: Candidate)
    ensures Present(pre + [c]) == Present(pre) + (if c.1.Some? then [(c.0, c.1.value)] else [])
  {
    var last := if c.1.Some? then [(c.0, c.1.value)] else [];
    if pre == [] {
      assert pre + [c] == [c];
      assert Present([c]) == last + Present([]);
    } else {
      var head := if pre[0].1.Some? then [(pre[0].0, pre[0].1.value)] else [];
      assert (pre + [c])[0] == pre[0] && (pre + [c])[1..] == pre[1..] + [c];
      assert Present(pre + [c]) == head + Present(pre[1..] + [c]);
      PresentSnoc(pre[1..], c);
      assert Present(pre) == head + Present(pre[1..]);
    }
  }

  lemma {:induction false} PresentConcat(a: seq<Candidate>, b: seq<Candidate>)
    ensures Present(a + b) == Present(a) + Present(b)
  {
    if a == [] {
      assert a + b == b;
    } else {
      var head := if a[0].1.Some? then [(a[0].0, a[0].1.value)] else [];
      assert (a + b)[0] == a[0] && (a + b)[1..] == a[1..] + b;
      assert Present(a + b) == head + Present(a[1..] + b);
      PresentConcat(a[1..], b);
      assert Present(a) == head + Present(a[1..]);
    }
  }

  lemma {:induction false} NotAmongLater(fs: seq<Candidate>, k: string)
    requires DistinctKeys(fs) && fs != [] && fs[0].0 == k
    ensures CountKey(fs[1..], k) == 0
  {
    AbsentKey(fs[1..], k);
  }

  lemma {:induction false} AbsentKey<V>(fs: seq<(string, V)>, k: string)
    requires forall i :: 0 <= i < |fs| ==> fs[i].0 != k
    ensures CountKey(fs, k) == 0 && Lookup(fs, k) == None
  {
    if fs != [] {
      AbsentKey(fs[1..], k);
    }
  }

  /** With distinct names, looking up a field's name finds that field. */
  lemma {:induction false} LookupAt<V>(fs: seq<(string, V)>, i: nat)
    requires DistinctKeys(fs) && i < |fs|
    ensures Lookup(fs, fs[i].0) == Some(fs[i].1)
  {
    if i > 0 {
      assert fs[0].0 != fs[i].0;
      forall m, n | 0 <= m < n < |fs| - 1 ensures fs[1..][m].0 != fs[1..][n].0 {
        assert fs[1..][m] == fs[m + 1] && fs[1..][n] == fs[n + 1];
      }
      assert fs[1..][i - 1] == fs[i];
      LookupAt(fs[1..], i - 1);
    }
  }

  lemma {:induction false} PresentLookup(fs: seq<Candidate>, k: string)
    requires DistinctKeys(fs)
    ensures Lookup(Present(fs), k) == Flatten(Lookup(fs, k))
  {
    if fs != [] {
      var head := if fs[0].1.Some? then [(fs[0].0, fs[0].1.value)] else [];
      assert DistinctKeys(fs[1..]) by {
        forall i, j | 0 <= i < j < |fs| - 1 ensures fs[1..][i].0 != fs[1..][j].0 {
          assert fs[1..][i] == fs[i + 1] && fs[1..][j] == fs[j + 1];
        }
      }
      PresentLookup(fs[1..], k);
      LookupConcat(head, Present(fs[1..]), k);
      if fs[0].0 == k {
        AbsentKey(fs[1..], k);
      }
    }
  }

  lemma {:induction false} PresentOrder(fs: seq<Candidate>)
    ensures IsSubsequence(KeysOf(Present(fs)), KeysOf(fs))
  {
    if fs != [] {
      PresentOrder(fs[1..]);
      var rest := Present(fs[1..]);
      if fs[0].1.Some? {
        assert Present(fs) == [(fs[0].0, fs[0].1.value)] + rest;
        assert KeysOf(Present(fs))[1..] == KeysOf(rest);
      } else {
        assert Present(fs) == rest;
        assert KeysOf(fs)[1..] == KeysOf(fs[1..]);
      }
    }
  }

  lemma {:induction false} PresentEmpty(fs: seq<Candidate>)
    ensures Present(fs) == [] <==> forall i :: 0 <= i < |fs| ==> fs[i].1.None?
  {
    if fs != [] {
      PresentEmpty(fs[1..]);
      assert forall i :: 1 <= i < |fs| ==> fs[i] == fs[1..][i - 1];
    }
  }

  // ---------------------------------------------------------------------
  // The common list query

  lemma ListFieldsDistinct(p: ListParams)
    ensures KeysOf(ListFields(p)) == ListKeys
    ensures DistinctKeys(ListFields(p))
  {
  }

  /** `set` replaces, so no key appears twice. */
  lemma ListQueryKeysOnce(p: ListParams, k: string)
    ensures CountKey(ListQuery(p), k) <= 1
  {
    ListFieldsDistinct(p);
    PresentAtMostOnce(ListFields(p), k);
  }

  /** Exactly the truthy fields appear, each with its value; no other key. */
  lemma ListQueryValues(p: ListParams)
    ensures Lookup(ListQuery(p), "page") == NumberParam(p.page)
    ensures Lookup(ListQuery(p), "limit") == NumberParam(p.limit)
    ensures Lookup(ListQuery(p), "search") == TextParam(p.search)
    ensures Lookup(ListQuery(p), "sortBy") == TextParam(p.sortBy)
    ensures Lookup(ListQuery(p), "sortOrder") == SortParam(p.sortOrder)
    ensures forall k :: k !in ListKeys ==> Lookup(ListQuery(p), k) == None
  {
    var fs := ListFields(p);
    ListFieldsDistinct(p);
    PresentLookup(fs, "page");
    LookupAt(fs, 0);
    PresentLookup(fs, "limit");
    LookupAt(fs, 1);
    PresentLookup(fs, "search");
    LookupAt(fs, 2);
    PresentLookup(fs, "sortBy");
    LookupAt(fs, 3);
    PresentLookup(fs, "sortOrder");
    LookupAt(fs, 4);
    forall k | k !in ListKeys ensures Lookup(ListQuery(p), k) == None {
      PresentLookup(fs, k);
      AbsentKey(fs, k);
    }
  }

  /** The keys come in the order page, limit, search, sortBy, sortOrder. */
  lemma ListQueryOrder(p: ListParams)
    ensures IsSubsequence(KeysOf(ListQuery(p)), ListKeys)
  {
    ListFieldsDistinct(p);
    PresentOrder(ListFields(p));
  }

  /** The query is empty exactly when every field is falsy. */
  lemma ListQueryEmpty(p: ListParams)
    ensures ListQuery(p) == [] <==>
      !NumberTruthy(p.page) && !NumberTruthy(p.limit) && !StringTruthy(p.search)
      && !StringTruthy(p.sortBy) && p.sortOrder.None?
  {
    var fs := ListFields(p);
    PresentEmpty(fs);
    assert |fs| == 5;
    assert (forall i :: 0 <= i < |fs| ==> fs[i].1.None?) <==>
      fs[0].1.None? && fs[1].1.None? && fs[2].1.None? && fs[3].1.None? && fs[4].1.None?;
  }

  lemma EmptyParamsEmptyQuery()
    ensures ListQuery(NoParams) == []
  {
  }
}
