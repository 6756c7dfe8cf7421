/** The cache in the shape of the source: lookup and insert on one shared ordered map. */
module CompletionStoreClass {
  import opened Wrappers
  import opened CompletionCache

  class CompletionStore<K(==), V> {
    var entries: Cache<K, V>

    ghost predicate Valid()
      reads this
    {
      DistinctKeys(entries)
    }

    constructor ()
      ensures Valid() && entries == []
    {
      entries := [];
    }

    method Lookup(key: K, now: int) returns (reply: Option<V>)
      requires Valid()
      modifies this
      ensures Valid()
      ensures entries == AfterGet(old(entries), key, now)
      ensures reply == Reply(old(entries), key, now)
    {
      var entry := Find(entries, key);
      StepKeepsBound(entries, |entries|, Get(key, now));
      if entry.None? {
        return None;
      }
      if entry.value.expiresAt < now {
        entries := Without(entries, key);
        return None;
      }
      entries := Without(entries, key) + [entry.value];
      reply := Some(entry.value.value);
    }

    method Insert(key: K, value: V, now: int, ttl: int, capacity: nat)
      requires Valid()
      modifies this
      ensures Valid() && |entries| <= capacity
      ensures entries == AfterPut(old(entries), key, value, now + ttl, capacity)
    {
      var stored := Entry(key, value, now + ttl);
      WithoutFacts(entries, key);
      AppendDistinct(Without(entries, key), stored);
      entries := Without(entries, key) + [stored];
      ghost var all := entries;
      while |entries| > capacity
        invariant |entries| <= |all| && entries == all[|all| - |entries|..]
        invariant |entries| < |all| ==> |entries| >= capacity
        invariant DistinctKeys(entries)
      {
        entries := entries[1..];
      }
      assert entries == Newest(all, capacity);
    }
  }
}
