/**
 * The host ledger's world state as a contract reaches it through its transaction stub:
 * a map from key to stored value, changed by putState and deleteState and read by
 * getState and an open-ended range scan. The encoding of values is left to the
 * contract models (the type parameter V).
 */
module WorldState {

  /** The stub of one transaction; `entries` is the world state it reads and writes. */
  class Stub<V> {
    var entries: map<string, V>

    constructor (initial: map<string, V>)
      ensures entries == initial
    {
      entries := initial;
    }

    /** putState / PutState: the key now holds the value and no other key changes. */
    method PutState(key: string, value: V)
      modifies this
      ensures entries == old(entries)[key := value]
    {
      entries := entries[key := value];
    }

    /** deleteState / DelState: the key is gone and no other key changes. */
    method DelState(key: string)
      modifies this
      ensures entries == old(entries) - {key}
    {
      entries := entries - {key};
    }
  }

  /**
   * The order in which getStateByRange("", "") visits the world state: every stored key
   * exactly once. The order itself is the host's.
   */
  predicate IsScanOrder<V>(order: seq<string>, s: map<string, V>)
  {
    && (forall i :: 0 <= i < |order| ==> order[i] in s)
    && (forall k :: k in s ==> k in order)
    && (forall i, j :: 0 <= i < j < |order| ==> order[i] != order[j])
  }

  /** A scan visits as many entries as the world state holds. */
  lemma {:induction false} ScanOrderLength<V>(order: seq<string>, s: map<string, V>)
    requires IsScanOrder(order, s)
    ensures |order| == |s|
  {
    if order == [] {
      assert s.Keys == {};
    } else {
      var rest := s - {order[0]};
      assert rest.Keys == s.Keys - {order[0]};
      forall k | k in rest
        ensures k in order[1..]
      {
        var i :| 0 <= i < |order| && order[i] == k;
        assert i != 0;
      }
      ScanOrderLength(order[1..], rest);
    }
  }

  /** The world state after the writes, performed in order (a later write to a key wins). */
  function PutAll<V>(s: map<string, V>, writes: seq<(string, V)>): map<string, V>
  {
    if writes == [] then s
    else
      var last := writes[|writes| - 1];
      PutAll(s, writes[..|writes| - 1])[last.0 := last.1]
  }

  /** The keys of a sequence of writes. */
  function WrittenKeys<V>(writes: seq<(string, V)>): set<string>
  {
    set i | 0 <= i < |writes| :: writes[i].0
  }

  /** A key that no later write touches holds what its write put there. */
  lemma {:induction false} PutAllAt<V>(s: map<string, V>, writes: seq<(string, V)>, i: nat)
    requires i < |writes|
    requires forall j :: i < j < |writes| ==> writes[j].0 != writes[i].0
    ensures writes[i].0 in PutAll(s, writes)
    ensures PutAll(s, writes)[writes[i].0] == writes[i].1
  {
    var n := |writes| - 1;
    if i < n {
      PutAllAt(s, writes[..n], i);
    }
  }

  /** Writes add exactly their keys, and leave every key they do not write as it was. */
  lemma {:induction false} PutAllFrame<V>(s: map<string, V>, writes: seq<(string, V)>)
    ensures PutAll(s, writes).Keys == s.Keys + WrittenKeys(writes)
    ensures forall k :: k in s && k !in WrittenKeys(writes) ==> PutAll(s, writes)[k] == s[k]
  {
    if writes != [] {
      var n := |writes| - 1;
      PutAllFrame(s, writes[..n]);
      assert WrittenKeys(writes) == WrittenKeys(writes[..n]) + {writes[n].0};
    }
  }

  /** No two of the writes touch the same key. */
  predicate DistinctKeys<V>(writes: seq<(string, V)>)
  {
    forall i, j :: 0 <= i < j < |writes| ==> writes[i].0 != writes[j].0
  }

  /** Writes to distinct keys: each key holds what was written to it, and every other key is as it was. */
  lemma PutAllDistinct<V>(s: map<string, V>, writes: seq<(string, V)>)
    requires DistinctKeys(writes)
    ensures PutAll(s, writes).Keys == s.Keys + WrittenKeys(writes)
    ensures forall k :: k in s && k !in WrittenKeys(writes) ==> PutAll(s, writes)[k] == s[k]
    ensures forall i :: 0 <= i < |writes| ==> PutAll(s, writes)[writes[i].0] == writes[i].1
  {
    PutAllFrame(s, writes);
    forall i | 0 <= i < |writes|
      ensures PutAll(s, writes)[writes[i].0] == writes[i].1
    {
      PutAllAt(s, writes, i);
    }
  }

  /** Writes to distinct keys write as many keys as there are writes. */
  lemma {:induction false} DistinctKeysCount<V>(writes: seq<(string, V)>)
    requires DistinctKeys(writes)
    ensures |WrittenKeys(writes)| == |writes|
  {
    if writes != [] {
      var n := |writes| - 1;
      DistinctKeysCount(writes[..n]);
      assert WrittenKeys(writes) == WrittenKeys(writes[..n]) + {writes[n].0};
      assert writes[n].0 !in WrittenKeys(writes[..n]);
    }
  }
}
