/**
 * Association sequences: a list of (key, value) entries in which a later entry
 * shadows an earlier one with the same key. This is how both the chain table
 * (built by successive `HashMap::insert` calls) and a parsed JSON object
 * (serde_json keeps the last of duplicate members) are looked up.
 */
module Assoc {
  import opened Wrappers

  /** The value of the LAST entry whose key is `key`, or None when there is none. */
  function Get<K(==), V>(entries: seq<(K, V)>, key: K): (r: Option<V>)
    ensures r.None? <==> forall i :: 0 <= i < |entries| ==> entries[i].0 != key
    ensures r.Some? ==>
              exists i :: 0 <= i < |entries| && entries[i] == (key, r.value)
                          && forall j :: i < j < |entries| ==> entries[j].0 != key
    decreases |entries|
  {
    if |entries| == 0 then None
    else if entries[|entries| - 1].0 == key then Some(entries[|entries| - 1].1)
    else
      var r := Get(entries[..|entries| - 1], key);
      assert forall i :: 0 <= i < |entries| - 1 ==> entries[..|entries| - 1][i] == entries[i];
      r
  }

  /** The value stored under `key` in a Dafny map, as an Option. */
  function MapGet<K(==), V>(m: map<K, V>, key: K): (r: Option<V>)
    ensures r.Some? <==> key in m
    ensures key in m ==> r.value == m[key]
  {
    if key in m then Some(m[key]) else None
  }

  /** When the keys are pairwise distinct, every entry is what its key looks up. */
  lemma {:induction false} GetDistinct<K, V>(entries: seq<(K, V)>, i: nat)
    requires i < |entries|
    requires forall a, b :: 0 <= a < b < |entries| ==> entries[a].0 != entries[b].0
    ensures Get(entries, entries[i].0) == Some(entries[i].1)
  {
    var r := Get(entries, entries[i].0);
    assert r.Some?;
    var k :| 0 <= k < |entries| && entries[k] == (entries[i].0, r.value)
             && forall j :: k < j < |entries| ==> entries[j].0 != entries[i].0;
    assert k == i;
  }

  /** Inserts the entries one after the other into an empty map; a later entry overwrites an earlier one. */
  method FromEntries<K(==), V>(entries: seq<(K, V)>) returns (m: map<K, V>)
    ensures forall key :: MapGet(m, key) == Get(entries, key)
    ensures (forall a, b :: 0 <= a < b < |entries| ==> entries[a].0 != entries[b].0) ==> |m| == |entries|
  {
    m := map[];
    var i := 0;
    while i < |entries|
      invariant 0 <= i <= |entries|
      invariant forall key :: MapGet(m, key) == Get(entries[..i], key)
      invariant (forall a, b :: 0 <= a < b < |entries| ==> entries[a].0 != entries[b].0) ==> |m| == i
    {
      var (key, value) := entries[i];
      assert entries[..i + 1][..i] == entries[..i];
      if forall a, b :: 0 <= a < b < |entries| ==> entries[a].0 != entries[b].0 {
        assert key !in m by {
          assert Get(entries[..i], key).None?;
        }
      }
      m := m[key := value];
      i := i + 1;
    }
    assert entries[..i] == entries;
  }
}
