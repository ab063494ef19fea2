/**
 * A Python `dict`: insertion-ordered, one entry per key. Assigning to a key
 * that is present replaces its value where it stands; assigning to a new key
 * appends it. `dict.update` assigns the other dict's entries one by one, in
 * that dict's order.
 */
module Dicts {
  import opened Wrappers

  ghost predicate DistinctKeys<V>(d: seq<(string, V)>) {
    forall i, j :: 0 <= i < j < |d| ==> d[i].0 != d[j].0
  }

  type Dict<V> = d: seq<(string, V)> | DistinctKeys(d) witness []

  /** The keys in iteration (insertion) order, as `list(d)` gives them. */
  function Keys<V>(d: Dict<V>): (ks: seq<string>)
    ensures |ks| == |d|
    ensures forall i :: 0 <= i < |d| ==> ks[i] == d[i].0
  {
    if d == [] then [] else [d[0].0] + Keys(d[1..])
  }

  /** `k in d`. */
  predicate HasKey<V>(d: Dict<V>, k: string) {
    k in Keys(d)
  }

  /** `d.get(k)`, with `None` for a missing key. */
  function Get<V>(d: Dict<V>, k: string): (r: Option<V>)
    ensures r.None? <==> !HasKey(d, k)
    ensures r.Some? ==> exists i :: 0 <= i < |d| && d[i] == (k, r.value)
  {
    if d == [] then None
    else if d[0].0 == k then Some(d[0].1)
    else Get(d[1..], k)
  }

  /** `d.get(k, default)`. */
  function GetOr<V>(d: Dict<V>, k: string, default: V): (r: V)
    ensures HasKey(d, k) ==> Some(r) == Get(d, k)
    ensures !HasKey(d, k) ==> r == default
  {
    match Get(d, k)
    case Some(v) => v
    case None => default
  }

  lemma GetAt<V>(d: Dict<V>, i: nat)
    requires i < |d|
    ensures Get(d, d[i].0) == Some(d[i].1)
  {
    if i > 0 {
      GetAt(d[1..], i - 1);
    }
  }

  /** `d[k] = v`, as a new dict. */
  function Set<V>(d: Dict<V>, k: string, v: V): (r: Dict<V>)
    ensures HasKey(d, k) ==> Keys(r) == Keys(d)
    ensures !HasKey(d, k) ==> Keys(r) == Keys(d) + [k]
  {
    if d == [] then [(k, v)]
    else if d[0].0 == k then [(k, v)] + d[1..]
    else
      var rest := Set(d[1..], k, v);
      assert d[0].0 !in Keys(d[1..]);
      ConsDistinct(d[0], rest);
      [d[0]] + rest
  }

  lemma ConsDistinct<V>(x: (string, V), rest: Dict<V>)
    requires x.0 !in Keys(rest)
    ensures DistinctKeys([x] + rest)
  {
    var d := [x] + rest;
    forall i, j | 0 <= i < j < |d| ensures d[i].0 != d[j].0 {
      if i == 0 {
        assert d[j].0 == Keys(rest)[j - 1];
      }
    }
  }

  /** After `d[k] = v`, `k` maps to `v` and every other key keeps its value. */
  lemma {:induction false} SetGet<V>(d: Dict<V>, k: string, v: V, k': string)
    ensures Get(Set(d, k, v), k') == if k' == k then Some(v) else Get(d, k')
  {
    if d != [] && d[0].0 != k {
      SetGet(d[1..], k, v, k');
    }
  }

  /** `d.update(e)`: the entries of `e` assigned into `d` in `e`'s order. */
  function Update<V>(d: Dict<V>, e: Dict<V>): (r: Dict<V>)
    decreases |e|
  {
    if e == [] then d else Update(Set(d, e[0].0, e[0].1), e[1..])
  }

  /** After `d.update(e)` a key of `e` has its value in `e`; every other key keeps its value in `d`. */
  lemma {:induction false} UpdateGet<V>(d: Dict<V>, e: Dict<V>, k: string)
    ensures Get(Update(d, e), k) == if HasKey(e, k) then Get(e, k) else Get(d, k)
    decreases |e|
  {
    if e != [] {
      UpdateGet(Set(d, e[0].0, e[0].1), e[1..], k);
      SetGet(d, e[0].0, e[0].1, k);
    }
  }

  /** The keys of `d.update(e)` are those of `d` followed by the new keys of `e`, in `e`'s order. */
  lemma {:induction false} UpdateKeys<V>(d: Dict<V>, e: Dict<V>, k: string)
    ensures HasKey(Update(d, e), k) <==> HasKey(d, k) || HasKey(e, k)
    ensures Keys(d) <= Keys(Update(d, e))
    decreases |e|
  {
    if e != [] {
      UpdateKeys(Set(d, e[0].0, e[0].1), e[1..], k);
    }
  }

  /** `{k: v for k, v in d.items() if keep(k)}`. */
  function Filter<V>(d: Dict<V>, keep: string -> bool): (r: Dict<V>)
    ensures forall k :: HasKey(r, k) ==> HasKey(d, k) && keep(k)
  {
    if d == [] then []
    else
      var rest := Filter(d[1..], keep);
      HasKeyTail(d);
      if keep(d[0].0) then
        assert d[0].0 !in Keys(d[1..]);
        ConsDistinct(d[0], rest);
        var r: Dict<V> := [d[0]] + rest;
        HasKeyTail(r);
        r
      else rest
  }

  /** The filtered dict holds exactly the kept keys, with their values. */
  lemma {:induction false} FilterGet<V>(d: Dict<V>, keep: string -> bool, k: string)
    ensures Get(Filter(d, keep), k) == if keep(k) then Get(d, k) else None
  {
    if d != [] {
      FilterGet(d[1..], keep, k);
    }
  }

  /** A key of the tail is a key of the dict. */
  lemma HasKeyTail<V>(d: Dict<V>)
    requires d != []
    ensures forall k :: HasKey(d[1..], k) ==> HasKey(d, k)
    ensures forall k :: HasKey(d, k) <==> k == d[0].0 || HasKey(d[1..], k)
  {
    assert Keys(d) == [d[0].0] + Keys(d[1..]);
  }
}
