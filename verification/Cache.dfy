/** The keyed cache behind both the image cache and the table of scheduled jobs. */
module Cache {
  import opened Wrappers

  function KeySet<K>(keyOf: K -> string, keys: seq<K>): (r: set<string>)
    ensures forall k :: k in r <==> exists i :: 0 <= i < |keys| && keyOf(keys[i]) == k
  {
    set i | 0 <= i < |keys| :: keyOf(keys[i])
  }

  function Kept<V>(m: map<string, V>, keep: set<string>): map<string, V> {
    map k | k in m && k in keep :: m[k]
  }

  function Pruned<V>(m: map<string, V>, keep: set<string>): map<string, V> {
    map k | k in m && k !in keep :: m[k]
  }

  /** Keeping and pruning split a map: disjoint, exhaustive, and no value changes. */
  lemma KeptAndPrunedPartition<V>(m: map<string, V>, keep: set<string>)
    ensures Kept(m, keep).Keys !! Pruned(m, keep).Keys
    ensures Kept(m, keep) + Pruned(m, keep) == m
    ensures Kept(m, keep).Keys <= keep
    ensures |Kept(m, keep)| + |Pruned(m, keep)| == |m|
  {
    var k, p := Kept(m, keep), Pruned(m, keep);
    assert k + p == m;
    assert k.Keys + p.Keys == m.Keys;
    assert |k.Keys| + |p.Keys| == |m.Keys|;
  }

  class Cache<!K, V> {
    const keyOf: K -> string
    var entries: map<string, V>

    constructor (keyOf: K -> string)
      ensures this.keyOf == keyOf && entries == map[]
    {
      this.keyOf := keyOf;
      entries := map[];
    }

    method Get(key: K) returns (r: Option<V>)
      ensures r == if keyOf(key) in entries then Some(entries[keyOf(key)]) else None
    {
      if keyOf(key) in entries {
        return Some(entries[keyOf(key)]);
      }
      return None;
    }

    method Set(key: K, value: V)
      modifies this
      ensures entries == old(entries)[keyOf(key) := value]
    {
      entries := entries[keyOf(key) := value];
    }

    method Delete(key: K)
      modifies this
      ensures entries == old(entries) - {keyOf(key)}
    {
      entries := entries - {keyOf(key)};
    }

    /** Drops every entry whose key is not listed and returns what was dropped. */
    method KeepOnly(keys: seq<K>) returns (pruned: map<string, V>)
      modifies this
      ensures entries == Kept(old(entries), KeySet(keyOf, keys))
      ensures pruned == Pruned(old(entries), KeySet(keyOf, keys))
    {
      var seen: set<string> := {};
      for i := 0 to |keys|
        invariant seen == KeySet(keyOf, keys[..i])
        invariant entries == old(entries)
      {
        assert keys[..i + 1] == keys[..i] + [keys[i]];
        seen := seen + {keyOf(keys[i])};
      }
      assert keys[..|keys|] == keys;

      var unwanted: set<string> := {};
      var todo := entries.Keys;
      while todo != {}
        invariant todo <= entries.Keys && entries == old(entries)
        invariant unwanted == (entries.Keys - todo) - seen
      {
        var k :| k in todo;
        todo := todo - {k};
        if k !in seen {
          unwanted := unwanted + {k};
        }
      }

      pruned := map[];
      todo := unwanted;
      while todo != {}
        invariant todo <= unwanted
        invariant entries == old(entries) - (unwanted - todo)
        invariant pruned == map k | k in old(entries) && k in unwanted - todo :: old(entries)[k]
      {
        var k :| k in todo;
        todo := todo - {k};
        pruned := pruned[k := entries[k]];
        entries := entries - {k};
      }
    }

    method Len() returns (n: nat)
      ensures n == |entries|
    {
      n := |entries|;
    }
  }
}
