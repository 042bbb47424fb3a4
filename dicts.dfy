/**
 * A Python `dict` keyed by strings: a map plus the insertion order of its keys, which is the
 * order in which `dict.items()` visits them.
 */
module Dicts {

  datatype Dict<V> = Dict(keys: seq<string>, items: map<string, V>) {

    /** Every key is listed once, and the listed keys are exactly the map's keys. */
    ghost predicate Valid() {
      && (forall i, j :: 0 <= i < j < |keys| ==> keys[i] != keys[j])
      && (forall k :: k in items <==> k in keys)
    }

    /** `d[k] = v`: a new key goes to the end of the order; an existing one keeps its place. */
    function Put(k: string, v: V): (d: Dict<V>)
      requires Valid()
      ensures d.Valid()
      ensures d.items == items[k := v]
      ensures k in items ==> d.keys == keys
      ensures k !in items ==> d.keys == keys + [k]
    {
      if k in items then Dict(keys, items[k := v]) else Dict(keys + [k], items[k := v])
    }

    /** `d.pop(k, None)`: the key leaves both the map and the order. */
    function Pop(k: string): (d: Dict<V>)
      ensures Valid() ==> d.Valid()
      ensures d.items == items - {k}
      ensures d.keys == Without(keys, k)
    {
      WithoutMembers(keys, k);
      WithoutDistinct(keys, k);
      Dict(Without(keys, k), items - {k})
    }
  }

  /** The empty dict. */
  function Empty<V>(): (d: Dict<V>)
    ensures d.Valid() && d.keys == [] && d.items == map[]
  {
    Dict([], map[])
  }

  /** `s` with every occurrence of `k` dropped, the rest in order. */
  function Without(s: seq<string>, k: string): seq<string> {
    if s == [] then []
    else Without(s[..|s| - 1], k) + (if s[|s| - 1] == k then [] else [s[|s| - 1]])
  }

  /** `Without` drops exactly `k`. */
  lemma {:induction false} WithoutMembers(s: seq<string>, k: string)
    ensures forall x :: x in Without(s, k) <==> x in s && x != k
  {
    if s != [] {
      WithoutMembers(s[..|s| - 1], k);
      assert s == s[..|s| - 1] + [s[|s| - 1]];
    }
  }

  /** Dropping a key keeps the others distinct. */
  lemma {:induction false} WithoutDistinct(s: seq<string>, k: string)
    ensures (forall i, j :: 0 <= i < j < |s| ==> s[i] != s[j]) ==>
      forall i, j :: 0 <= i < j < |Without(s, k)| ==> Without(s, k)[i] != Without(s, k)[j]
  {
    if s != [] && forall i, j :: 0 <= i < j < |s| ==> s[i] != s[j] {
      var init := s[..|s| - 1];
      WithoutDistinct(init, k);
      WithoutMembers(init, k);
      assert s[|s| - 1] !in init;
    }
  }
}
