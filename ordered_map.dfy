/** `std::map<ID, T>` as the adapters see it: its entries in iteration (ascending key) order,
    its `find`, its `size`, and the `second` projection copied out with `std::transform`. */
module OrderedMap {

  datatype Option<V> = None | Some(value: V)

  /** The key order of the map (`std::less<ID>`): irreflexive and transitive. */
  ghost predicate StrictOrder<K(!new)>(less: (K, K) -> bool) {
    (forall k :: !less(k, k)) &&
    (forall a, b, c :: less(a, b) && less(b, c) ==> less(a, c))
  }

  /** Iteration order of a `std::map`: every key below every later key. */
  ghost predicate Ascending<K, V>(less: (K, K) -> bool, m: seq<(K, V)>) {
    forall i, j :: 0 <= i < j < |m| ==> less(m[i].0, m[j].0)
  }

  /** The entries of a well-formed ordered map. */
  ghost predicate Wf<K(!new), V>(less: (K, K) -> bool, m: seq<(K, V)>) {
    StrictOrder(less) && Ascending(less, m)
  }

  /** The map as an unordered Dafny map: the reference meaning of the entries. */
  function ToMap<K, V>(m: seq<(K, V)>): map<K, V> {
    if |m| == 0 then map[] else ToMap(m[1..])[m[0].0 := m[0].1]
  }

  /** The keys present, as a set. */
  function KeySet<K(!new), V>(m: seq<(K, V)>): (ks: set<K>)
    ensures forall k :: k in ks <==> exists i :: 0 <= i < |m| && m[i].0 == k
  {
    if |m| == 0 then {}
    else
      var rest := KeySet(m[1..]);
      assert forall i :: 1 <= i < |m| ==> m[i] == m[1..][i - 1];
      {m[0].0} + rest
  }

  /** `std::transform(begin, end, ..., second(m))`: the values, one per entry, in entry order. */
  function Values<K, V>(m: seq<(K, V)>): (vs: seq<V>)
    ensures |vs| == |m|
    ensures forall i :: 0 <= i < |m| ==> vs[i] == m[i].1
  {
    if |m| == 0 then [] else Values(m[..|m| - 1]) + [m[|m| - 1].1]
  }

  /** `m.find(k)`: the value stored under `k`, if any. */
  function Find<K(==), V>(m: seq<(K, V)>, k: K): (r: Option<V>)
    ensures r.None? <==> forall i :: 0 <= i < |m| ==> m[i].0 != k
    ensures r.Some? ==> exists i :: 0 <= i < |m| && m[i] == (k, r.value)
  {
    if |m| == 0 then None
    else if m[0].0 == k then Some(m[0].1)
    else
      var r := Find(m[1..], k);
      assert forall i :: 1 <= i < |m| ==> m[i] == m[1..][i - 1];
      r
  }

  /** `find` agrees with the reference map. */
  lemma {:induction false} FindAgreesWithMap<K, V>(m: seq<(K, V)>, k: K)
    ensures Find(m, k) == if k in ToMap(m) then Some(ToMap(m)[k]) else None
  {
    if |m| > 0 && m[0].0 != k {
      FindAgreesWithMap(m[1..], k);
    }
  }

  /** The reference map has exactly the entries' keys. */
  lemma {:induction false} ToMapKeys<K(!new), V>(m: seq<(K, V)>)
    ensures ToMap(m).Keys == KeySet(m)
  {
    if |m| > 0 {
      ToMapKeys(m[1..]);
    }
  }

  /** In a well-formed map keys are unique, so `size()` equals the number of distinct keys. */
  lemma {:induction false} SizeIsKeyCount<K(!new), V>(less: (K, K) -> bool, m: seq<(K, V)>)
    requires Wf(less, m)
    ensures |ToMap(m)| == |m|
  {
    if |m| > 0 {
      var tail := m[1..];
      assert Ascending(less, tail) by {
        forall i, j | 0 <= i < j < |tail| ensures less(tail[i].0, tail[j].0) {
          assert tail[i] == m[i + 1] && tail[j] == m[j + 1];
        }
      }
      SizeIsKeyCount(less, tail);
      ToMapKeys(tail);
      forall i | 0 <= i < |tail| ensures tail[i].0 != m[0].0 {
        assert less(m[0].0, m[i + 1].0);
      }
    }
  }

  /** Values come out in ascending key order: a value stored under a smaller key precedes one
      stored under a larger key. */
  lemma ValuesInKeyOrder<K(!new), V>(less: (K, K) -> bool, m: seq<(K, V)>, k1: K, v1: V, k2: K, v2: V)
    requires Wf(less, m) && less(k1, k2)
    requires Find(m, k1) == Some(v1) && Find(m, k2) == Some(v2)
    ensures exists i, j :: 0 <= i < j < |Values(m)| && Values(m)[i] == v1 && Values(m)[j] == v2
  {
    var i :| 0 <= i < |m| && m[i] == (k1, v1);
    var j :| 0 <= j < |m| && m[j] == (k2, v2);
    assert j < i ==> less(k2, k1);
    assert Values(m)[i] == v1 && Values(m)[j] == v2;
  }

  /** `std::transform(begin, end, std::back_inserter(ret), second(m))`: appends the values
      in entry order to whatever `ret` already holds. */
  method AppendValues<K, V>(ret: seq<V>, m: seq<(K, V)>) returns (out: seq<V>)
    ensures out == ret + Values(m)
  {
    out := ret;
    var k := 0;
    while k < |m|
      invariant 0 <= k <= |m|
      invariant out == ret + Values(m[..k])
    {
      assert m[..k + 1][..k] == m[..k];
      out := out + [m[k].1];
      k := k + 1;
    }
    assert m[..k] == m;
  }
}
