/** The two browser containers the services fill: `URLSearchParams` and
    `FormData`, each an ordered list of (name, value) entries. Serialisation
    is kept at the entry list; percent-encoding is not modelled. */
module WebForms {
  import opened Wrappers

  type Pair = (string, string)

  /** A value appended to a `FormData`: a string, or a file (by name). */
  datatype FormValue = Text(s: string) | FileBlob(name: string)

  type FormEntry = (string, FormValue)

  // ---------------------------------------------------------------------
  // Views of an ordered list of named entries

  function KeysOf<V>(ps: seq<(string, V)>): (ks: seq<string>)
    ensures |ks| == |ps|
  {
    if ps == [] then [] else [ps[0].0] + KeysOf(ps[1..])
  }

  lemma {:induction false} KeysOfIndex<V>(ps: seq<(string, V)>, i: nat)
    requires i < |ps|
    ensures KeysOf(ps)[i] == ps[i].0
  {
    if i > 0 {
      KeysOfIndex(ps[1..], i - 1);
    }
  }

  /** How many entries are named `k`. */
  function CountKey<V>(ps: seq<(string, V)>, k: string): nat {
    if ps == [] then 0 else (if ps[0].0 == k then 1 else 0) + CountKey(ps[1..], k)
  }

  /** The values of the entries named `k`, in order (`getAll(k)`). */
  function ValuesOf<V>(ps: seq<(string, V)>, k: string): (vs: seq<V>)
    ensures |vs| == CountKey(ps, k)
  {
    if ps == [] then []
    else (if ps[0].0 == k then [ps[0].1] else []) + ValuesOf(ps[1..], k)
  }

  /** The value of the first entry named `k` (`get(k)`). */
  function Lookup<V>(ps: seq<(string, V)>, k: string): Option<V> {
    if ps == [] then None else if ps[0].0 == k then Some(ps[0].1) else Lookup(ps[1..], k)
  }

  /** The entries not named `k`, in order (`delete(k)`). */
  function WithoutKey<V>(ps: seq<(string, V)>, k: string): seq<(string, V)> {
    if ps == [] then []
    else (if ps[0].0 == k then [] else [ps[0]]) + WithoutKey(ps[1..], k)
  }

  lemma {:induction false} WithoutKeyRemoves<V>(ps: seq<(string, V)>, k: string)
    ensures CountKey(WithoutKey(ps, k), k) == 0
    ensures WithoutKey(WithoutKey(ps, k), k) == WithoutKey(ps, k)
  {
    if ps != [] {
      WithoutKeyRemoves(ps[1..], k);
      var rest := WithoutKey(ps[1..], k);
      if ps[0].0 == k {
        assert WithoutKey(ps, k) == rest;
      } else {
        assert WithoutKey(ps, k) == [ps[0]] + rest;
        assert ([ps[0]] + rest)[1..] == rest;
      }
    }
  }

  lemma {:induction false} ValuesOfConcat<V>(a: seq<(string, V)>, b: seq<(string, V)>, k: string)
    ensures ValuesOf(a + b, k) == ValuesOf(a, k) + ValuesOf(b, k)
    ensures CountKey(a + b, k) == CountKey(a, k) + CountKey(b, k)
  {
    if a == [] {
      assert a + b == b;
    } else {
      assert (a + b)[1..] == a[1..] + b;
      ValuesOfConcat(a[1..], b, k);
    }
  }

  lemma {:induction false} KeysOfConcat<V>(a: seq<(string, V)>, b: seq<(string, V)>)
    ensures KeysOf(a + b) == KeysOf(a) + KeysOf(b)
  {
    if a == [] {
      assert a + b == b;
    } else {
      assert (a + b)[1..] == a[1..] + b;
      KeysOfConcat(a[1..], b);
    }
  }

  lemma {:induction false} LookupConcat<V>(a: seq<(string, V)>, b: seq<(string, V)>, k: string)
    ensures Lookup(a + b, k) == if Lookup(a, k).Some? then Lookup(a, k) else Lookup(b, k)
  {
    if a == [] {
      assert a + b == b;
    } else {
      assert (a + b)[1..] == a[1..] + b;
      LookupConcat(a[1..], b, k);
    }
  }

  // ---------------------------------------------------------------------
  // URLSearchParams

  /** `URLSearchParams.set(k, v)`: the first entry named `k` takes the value
      `v` and every later entry named `k` is removed; when there is none, the
      entry is appended. */
  function SetPair(ps: seq<Pair>, k: string, v: string): (r: seq<Pair>)
    ensures CountKey(r, k) == 1
    ensures Lookup(r, k) == Some(v)
    ensures WithoutKey(r, k) == WithoutKey(ps, k)
    ensures CountKey(ps, k) == 0 ==> r == ps + [(k, v)]
    ensures forall i :: FirstAt(ps, k, i) ==> i < |r| && r[..i] == ps[..i] && r[i] == (k, v)
  {
    if ps == [] then [(k, v)]
    else if ps[0].0 == k then
      WithoutKeyRemoves(ps[1..], k);
      [(k, v)] + WithoutKey(ps[1..], k)
    else
      var tail := SetPair(ps[1..], k, v);
      assert ([ps[0]] + tail)[1..] == tail;
      assert forall i :: FirstAt(ps, k, i) ==> i > 0 && FirstAt(ps[1..], k, i - 1);
      assert forall i :: 0 < i <= |tail| ==> ([ps[0]] + tail)[..i] == [ps[0]] + tail[..i - 1];
      [ps[0]] + tail
  }

  /** `i` is the position of the first entry named `k`. */
  predicate FirstAt(ps: seq<Pair>, k: string, i: int) {
    0 <= i < |ps| && ps[i].0 == k && forall j :: 0 <= j < i ==> ps[j].0 != k
  }

  /** `k1=v1&k2=v2&...`: the text `URLSearchParams.toString` produces,
      without percent-encoding. */
  function Serialize(ps: seq<Pair>): (s: string)
    ensures s == "" <==> ps == []
  {
    if ps == [] then ""
    else if |ps| == 1 then ps[0].0 + "=" + ps[0].1
    else ps[0].0 + "=" + ps[0].1 + "&" + Serialize(ps[1..])
  }

  class SearchParams {
    var pairs: seq<Pair>

    constructor ()
      ensures pairs == []
    {
      pairs := [];
    }

    method Set(name: string, value: string)
      modifies this
      ensures pairs == SetPair(old(pairs), name, value)
    {
      pairs := SetPair(pairs, name, value);
    }

    function ToString(): string
      reads this
    {
      Serialize(pairs)
    }
  }

  // ---------------------------------------------------------------------
  // FormData

  class FormData {
    var entries: seq<FormEntry>

    constructor ()
      ensures entries == []
    {
      entries := [];
    }

    /** `FormData.append`: a new entry at the end, even when the name exists. */
    method Append(name: string, value: FormValue)
      modifies this
      ensures entries == old(entries) + [(name, value)]
    {
      entries := entries + [(name, value)];
    }
  }
}
