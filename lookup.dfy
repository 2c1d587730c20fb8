/** The two lookup algorithms shared by the adapters: the linear scan of the vector
    family (`qs_manager_getter_vector::get`) and the keyed `find` of the map family
    (`qs_manager_getter_map::get`). */
module Lookup {
  import opened Errors
  import opened OrderedMap

  /** The positions, in increasing order, of the elements equal to `id` under the
      client's cross-type `operator==(const T&, const ID&)`. */
  function MatchIndices<T, ID>(s: seq<T>, eq: (T, ID) -> bool, id: ID): (ix: seq<nat>)
    ensures forall k :: 0 <= k < |ix| ==> ix[k] < |s| && eq(s[ix[k]], id)
    ensures forall i :: 0 <= i < |s| && eq(s[i], id) ==> i in ix
    ensures forall a, b :: 0 <= a < b < |ix| ==> ix[a] < ix[b]
  {
    if |s| == 0 then []
    else
      var init := s[..|s| - 1];
      MatchIndices(init, eq, id) + (if eq(s[|s| - 1], id) then [|s| - 1] else [])
  }

  /** What the sequential `get(id)` yields: the one element equal to `id`, else
      `object_not_found` when none is, else `multiple_objects_found`. */
  function SeqLookup<T, ID>(s: seq<T>, eq: (T, ID) -> bool, id: ID): (r: Result<T, ID>)
    ensures r.Fail? ==> r.failure.id == id
  {
    var ix := MatchIndices(s, eq, id);
    if |ix| == 0 then Fail(ObjectNotFound(id))
    else if |ix| == 1 then Ok(s[ix[0]])
    else Fail(MultipleObjectsFound(id))
  }

  /** `object_not_found` exactly when no element equals `id`. */
  lemma LookupNotFound<T, ID>(s: seq<T>, eq: (T, ID) -> bool, id: ID)
    ensures SeqLookup(s, eq, id) == Fail(ObjectNotFound(id)) <==>
      forall i :: 0 <= i < |s| ==> !eq(s[i], id)
  {
    var ix := MatchIndices(s, eq, id);
    if |ix| > 0 {
      assert eq(s[ix[0]], id);
    }
  }

  /** A second match anywhere in the snapshot makes the indices at least two long. */
  lemma TwoMatches<T, ID>(s: seq<T>, eq: (T, ID) -> bool, id: ID, i: int, j: int)
    requires 0 <= i < j < |s| && eq(s[i], id) && eq(s[j], id)
    ensures |MatchIndices(s, eq, id)| >= 2
  {
  }

  /** `multiple_objects_found` exactly when two elements, adjacent or not, equal `id`. */
  lemma LookupAmbiguous<T, ID>(s: seq<T>, eq: (T, ID) -> bool, id: ID)
    ensures SeqLookup(s, eq, id) == Fail(MultipleObjectsFound(id)) <==>
      exists i, j :: 0 <= i < j < |s| && eq(s[i], id) && eq(s[j], id)
  {
    var ix := MatchIndices(s, eq, id);
    if |ix| >= 2 {
      assert ix[0] < ix[1] && eq(s[ix[0]], id) && eq(s[ix[1]], id);
    } else {
      forall i, j | 0 <= i < j < |s| && eq(s[i], id) ensures !eq(s[j], id) {
        if eq(s[j], id) {
          TwoMatches(s, eq, id, i, j);
        }
      }
    }
  }

  /** The element returned is the one and only element equal to `id`; and when exactly
      one element equals `id`, that element is returned. */
  lemma LookupFound<T, ID>(s: seq<T>, eq: (T, ID) -> bool, id: ID, i: int)
    requires 0 <= i < |s| && eq(s[i], id)
    ensures SeqLookup(s, eq, id) == Ok(s[i]) <==>
      forall j :: 0 <= j < |s| && eq(s[j], id) ==> j == i
  {
    var ix := MatchIndices(s, eq, id);
    assert i in ix;
    if |ix| == 1 {
      assert ix[0] == i;
    } else {
      LookupAmbiguous(s, eq, id);
      var a, b :| 0 <= a < b < |s| && eq(s[a], id) && eq(s[b], id);
      assert a != i || b != i;
    }
  }

  /** A successful lookup returns an element equal to `id`. */
  lemma LookupOkMatches<T, ID>(s: seq<T>, eq: (T, ID) -> bool, id: ID)
    requires SeqLookup(s, eq, id).Ok?
    ensures exists i :: 0 <= i < |s| && eq(s[i], id) && SeqLookup(s, eq, id).value == s[i]
  {
  }

  /** The while loop of `qs_manager_getter_vector::get`: walks the whole snapshot,
      remembering the match it has seen (`found` starts at the end position), and
      throws `multiple_objects_found` on a second match wherever it lies. */
  method Scan<T, ID>(all: seq<T>, eq: (T, ID) -> bool, id: ID) returns (r: Result<T, ID>)
    ensures r == SeqLookup(all, eq, id)
  {
    var found := |all|;
    var i := 0;
    while i < |all|
      invariant 0 <= i <= |all| && 0 <= found <= |all|
      invariant found == |all| <==> MatchIndices(all[..i], eq, id) == []
      invariant found != |all| ==> found < i && MatchIndices(all[..i], eq, id) == [found]
    {
      assert all[..i + 1][..i] == all[..i];
      assert MatchIndices(all[..i + 1], eq, id) ==
        MatchIndices(all[..i], eq, id) + (if eq(all[i], id) then [i] else []);
      if eq(all[i], id) {
        if found != |all| {
          ghost var seen := MatchIndices(all[..i], eq, id);
          assert seen[0] == found && eq(all[..i][seen[0]], id);
          assert all[..i][found] == all[found];
          TwoMatches(all, eq, id, found, i);
          return Fail(MultipleObjectsFound(id));
        }
        found := i;
      }
      i := i + 1;
    }
    assert all[..i] == all;
    if found == |all| {
      return Fail(ObjectNotFound(id));
    }
    return Ok(all[found]);
  }

  /** What the associative `get(id)` yields: the keyed `find`, `object_not_found` when
      the key is absent; duplicates cannot exist, so it is never `multiple_objects_found`. */
  function MapLookup<ID(==), T>(m: seq<(ID, T)>, id: ID): (r: Result<T, ID>)
    ensures r == if id in ToMap(m) then Ok(ToMap(m)[id]) else Fail(ObjectNotFound(id))
    ensures r != Fail(MultipleObjectsFound(id))
  {
    FindAgreesWithMap(m, id);
    match Find(m, id)
    case None => Fail(ObjectNotFound(id))
    case Some(v) => Ok(v)
  }
}
