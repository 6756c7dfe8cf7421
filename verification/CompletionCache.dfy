/**
 The in-memory completion cache: an ordered map with least-recently-used eviction and expiry.
 The order of a cache is the order of its entries, least recently used first.
 */
module CompletionCache {
  import opened Wrappers

  datatype Entry<K, V> = Entry(key: K, value: V, expiresAt: int)
  type Cache<K, V> = seq<Entry<K, V>>

  // ----- Lookup and insert -----

  function Find<K(==), V>(c: Cache<K, V>, key: K): Option<Entry<K, V>> {
    if c == [] then None
    else if c[0].key == key then Some(c[0])
    else Find(c[1..], key)
  }

  function Without<K(==), V>(c: Cache<K, V>, key: K): Cache<K, V> {
    if c == [] then []
    else if c[0].key == key then Without(c[1..], key)
    else [c[0]] + Without(c[1..], key)
  }

  /** An entry is stale once its expiry lies strictly in the past. */
  predicate Hit<K(==), V>(c: Cache<K, V>, key: K, now: int) {
    Find(c, key).Some? && now <= Find(c, key).value.expiresAt
  }

  /** A stale entry is dropped; a good one moves to the recent end. */
  function AfterGet<K(==), V>(c: Cache<K, V>, key: K, now: int): Cache<K, V> {
    match Find(c, key)
    case None => c
    case Some(e) => if e.expiresAt < now then Without(c, key) else Without(c, key) + [e]
  }

  function Reply<K(==), V>(c: Cache<K, V>, key: K, now: int): Option<V> {
    if Hit(c, key, now) then Some(Find(c, key).value.value) else None
  }

  /** What is left when only the `capacity` most recent entries may stay. */
  function Newest<K, V>(c: Cache<K, V>, capacity: nat): Cache<K, V> {
    if |c| <= capacity then c else c[|c| - capacity..]
  }

  function AfterPut<K(==), V>(c: Cache<K, V>, key: K, value: V, expiresAt: int, capacity: nat): Cache<K, V> {
    Newest(Without(c, key) + [Entry(key, value, expiresAt)], capacity)
  }

  ghost predicate DistinctKeys<K, V>(c: Cache<K, V>) {
    forall i, j :: 0 <= i < j < |c| ==> c[i].key != c[j].key
  }

  lemma {:induction false} WithoutFacts<K, V>(c: Cache<K, V>, key: K)
    ensures forall e :: e in Without(c, key) ==> e in c && e.key != key
    ensures forall e :: e in c && e.key != key ==> e in Without(c, key)
    ensures |Without(c, key)| <= |c|
    ensures DistinctKeys(c) ==> DistinctKeys(Without(c, key))
  {
    if c != [] {
      var rest := c[1..];
      WithoutFacts(rest, key);
      assert c == [c[0]] + rest;
      assert DistinctKeys(c) ==> DistinctKeys(rest);
      if DistinctKeys(c) && c[0].key != key {
        var w := Without(rest, key);
        forall i, j | 0 <= i < j < |[c[0]] + w| ensures ([c[0]] + w)[i].key != ([c[0]] + w)[j].key {
          assert w[j - 1] in w;
          if i > 0 {
            assert w[i - 1].key != w[j - 1].key;
          }
        }
      }
    }
  }

  lemma {:induction false} FindFacts<K, V>(c: Cache<K, V>, key: K)
    ensures Find(c, key).Some? ==> Find(c, key).value in c && Find(c, key).value.key == key
    ensures Find(c, key).None? ==> forall e :: e in c ==> e.key != key
    ensures DistinctKeys(c) ==> forall e :: e in c && e.key == key ==> Find(c, key) == Some(e)
  {
    if c != [] {
      FindFacts(c[1..], key);
      assert c == [c[0]] + c[1..];
      assert DistinctKeys(c) ==> DistinctKeys(c[1..]);
    }
  }

  /** With distinct keys, removing a present key removes exactly one entry. */
  lemma {:induction false} WithoutSize<K, V>(c: Cache<K, V>, key: K)
    requires DistinctKeys(c)
    ensures |Without(c, key)| == if Find(c, key).Some? then |c| - 1 else |c|
  {
    if c != [] {
      assert DistinctKeys(c[1..]);
      WithoutSize(c[1..], key);
      FindFacts(c[1..], key);
    }
  }

  lemma AppendDistinct<K, V>(c: Cache<K, V>, e: Entry<K, V>)
    requires DistinctKeys(c) && forall x :: x in c ==> x.key != e.key
    ensures DistinctKeys(c + [e])
  {
  }

  // ----- Runs -----

  datatype Op<K, V> = Get(key: K, now: int) | Put(key: K, value: V, expiresAt: int)

  function Step<K(==), V>(c: Cache<K, V>, capacity: nat, op: Op<K, V>): Cache<K, V> {
    match op
    case Get(key, now) => AfterGet(c, key, now)
    case Put(key, value, expiresAt) => AfterPut(c, key, value, expiresAt, capacity)
  }

  function Run<K(==), V>(capacity: nat, ops: seq<Op<K, V>>): Cache<K, V> {
    if ops == [] then []
    else Step(Run(capacity, ops[..|ops| - 1]), capacity, ops[|ops| - 1])
  }

  lemma StepKeepsBound<K, V>(c: Cache<K, V>, capacity: nat, op: Op<K, V>)
    requires DistinctKeys(c) && |c| <= capacity
    ensures DistinctKeys(Step(c, capacity, op)) && |Step(c, capacity, op)| <= capacity
  {
    WithoutFacts(c, op.key);
    FindFacts(c, op.key);
    WithoutSize(c, op.key);
    if op.Put? {
      AppendDistinct(Without(c, op.key), Entry(op.key, op.value, op.expiresAt));
    } else if Find(c, op.key).Some? {
      AppendDistinct(Without(c, op.key), Find(c, op.key).value);
    }
  }

  /** No key is stored twice and no cache outgrows its capacity. */
  lemma {:induction false} RunKeepsBound<K, V>(capacity: nat, ops: seq<Op<K, V>>)
    ensures DistinctKeys(Run(capacity, ops)) && |Run(capacity, ops)| <= capacity
  {
    if ops != [] {
      RunKeepsBound(capacity, ops[..|ops| - 1]);
      StepKeepsBound(Run(capacity, ops[..|ops| - 1]), capacity, ops[|ops| - 1]);
    }
  }

  // ----- What a cache holds -----

  /** A lookup drops the entry of its key if that is stale and keeps all others; none is changed. */
  lemma GetHolds<K(!new), V(!new)>(c: Cache<K, V>, key: K, now: int, e: Entry<K, V>)
    requires DistinctKeys(c)
    ensures e in AfterGet(c, key, now) <==> e in c && (e.key == key ==> now <= e.expiresAt)
    ensures Reply(c, key, now) == Some(e.value) && e in c && e.key == key ==> now <= e.expiresAt
    ensures e in c && e.key == key && now <= e.expiresAt ==> Reply(c, key, now) == Some(e.value)
  {
    FindFacts(c, key);
    WithoutFacts(c, key);
  }

  /** The last insert for a key, if there was one. */
  function LastPut<K(==), V>(ops: seq<Op<K, V>>, key: K): Option<Op<K, V>> {
    if ops == [] then None
    else if ops[|ops| - 1].Put? && ops[|ops| - 1].key == key then Some(ops[|ops| - 1])
    else LastPut(ops[..|ops| - 1], key)
  }

  /** Every entry of a reachable cache is what the last insert for its key put there. */
  lemma {:induction false} EntriesAreLastPuts<K(!new), V(!new)>(capacity: nat, ops: seq<Op<K, V>>, e: Entry<K, V>)
    requires e in Run(capacity, ops)
    ensures LastPut(ops, e.key) == Some(Put(e.key, e.value, e.expiresAt))
  {
    if ops != [] {
      var init, op := ops[..|ops| - 1], ops[|ops| - 1];
      var c := Run(capacity, init);
      WithoutFacts(c, op.key);
      FindFacts(c, op.key);
      if e in c && !(op.Put? && op.key == e.key) {
        EntriesAreLastPuts(capacity, init, e);
      }
    }
  }

  // ----- Inclusion: a larger cache holds everything a smaller one holds -----

  /** `a` is `b` with some entries left out. */
  ghost predicate Sub<T>(a: seq<T>, b: seq<T>) {
    a == [] || (b != [] && ((a[0] == b[0] && Sub(a[1..], b[1..])) || Sub(a, b[1..])))
  }

  lemma {:induction false} SubTail<T>(a: seq<T>, b: seq<T>)
    requires a != [] && Sub(a, b)
    ensures b != [] && Sub(a[1..], b[1..])
  {
    if !(a[0] == b[0] && Sub(a[1..], b[1..])) {
      SubTail(a, b[1..]);
      assert Sub(a[1..], b[1..][1..]);
    }
  }

  lemma {:induction false} SubFacts<T>(a: seq<T>, b: seq<T>)
    requires Sub(a, b)
    ensures |a| <= |b| && forall x :: x in a ==> x in b
  {
    if a != [] {
      assert b == [b[0]] + b[1..];
      if a[0] == b[0] && Sub(a[1..], b[1..]) {
        SubFacts(a[1..], b[1..]);
        assert a == [a[0]] + a[1..];
      } else {
        SubFacts(a, b[1..]);
      }
    }
  }

  lemma {:induction false} SubAppend<T>(a: seq<T>, b: seq<T>, e: T)
    requires Sub(a, b)
    ensures Sub(a + [e], b + [e]) && Sub(a, b + [e])
    decreases |b|
  {
    if a == [] {
      if b == [] {
        assert Sub((a + [e])[1..], (b + [e])[1..]);
      } else {
        assert (b + [e])[1..] == b[1..] + [e];
        SubAppend(a, b[1..], e);
      }
    } else {
      assert (b + [e])[1..] == b[1..] + [e];
      assert (a + [e])[1..] == a[1..] + [e];
      if a[0] == b[0] && Sub(a[1..], b[1..]) {
        SubAppend(a[1..], b[1..], e);
      } else {
        SubAppend(a, b[1..], e);
      }
    }
  }

  lemma {:induction false} SubWithout<K, V>(a: Cache<K, V>, b: Cache<K, V>, key: K)
    requires Sub(a, b)
    ensures Sub(Without(a, key), Without(b, key))
    decreases |b|
  {
    if a != [] {
      if a[0] == b[0] && Sub(a[1..], b[1..]) {
        SubWithout(a[1..], b[1..], key);
        var wa, wb := Without(a, key), Without(b, key);
        if a[0].key != key {
          assert wa[1..] == Without(a[1..], key) && wb[1..] == Without(b[1..], key);
        }
      } else {
        SubWithout(a, b[1..], key);
        if b[0].key != key {
          assert Without(b, key)[1..] == Without(b[1..], key);
        }
      }
    }
  }

  /** Positions of shared entries come in the same order on both sides. */
  lemma {:induction false} SubKeepsOrder<T>(a: seq<T>, b: seq<T>, i: nat, j: nat) returns (i': nat, j': nat)
    requires Sub(a, b) && i < j < |a|
    ensures i' < j' < |b| && b[i'] == a[i] && b[j'] == a[j]
    decreases |b|
  {
    if a[0] == b[0] && Sub(a[1..], b[1..]) {
      if i == 0 {
        SubFacts(a[1..], b[1..]);
        assert a[1..][j - 1] in b[1..];
        var k :| 0 <= k < |b[1..]| && b[1..][k] == a[j];
        i', j' := 0, k + 1;
      } else {
        var x, y := SubKeepsOrder(a[1..], b[1..], i - 1, j - 1);
        i', j' := x + 1, y + 1;
      }
    } else {
      var x, y := SubKeepsOrder(a, b[1..], i, j);
      i', j' := x + 1, y + 1;
    }
  }

  /** The relation between two caches of capacities n <= m that saw the same operations. */
  ghost predicate Included<K(!new), V(!new)>(small: Cache<K, V>, large: Cache<K, V>, n: nat, m: nat) {
    && Sub(small, large) && DistinctKeys(small) && DistinctKeys(large)
    && |small| <= n && |large| <= m && |large| - |small| <= m - n
  }

  lemma FindAgrees<K(!new), V(!new)>(small: Cache<K, V>, large: Cache<K, V>, key: K)
    requires Sub(small, large) && DistinctKeys(large)
    ensures Find(small, key).Some? ==> Find(large, key) == Find(small, key)
  {
    SubFacts(small, large);
    FindFacts(small, key);
    FindFacts(large, key);
  }

  lemma GetKeepsInclusion<K(!new), V(!new)>(small: Cache<K, V>, large: Cache<K, V>, n: nat, m: nat, key: K, now: int)
    requires n <= m && Included(small, large, n, m)
    ensures Included(AfterGet(small, key, now), AfterGet(large, key, now), n, m)
  {
    StepKeepsBound(small, n, Get(key, now));
    StepKeepsBound(large, m, Get(key, now));
    FindAgrees(small, large, key);
    SubWithout(small, large, key);
    SubFacts(small, large);
    WithoutSize(small, key);
    WithoutSize(large, key);
    FindFacts(small, key);
    FindFacts(large, key);
    if Find(large, key).Some? {
      SubAppend(Without(small, key), Without(large, key), Find(large, key).value);
      if Find(small, key).None? {
        WithoutMissing(small, key);
      }
    }
  }

  lemma {:induction false} WithoutMissing<K, V>(c: Cache<K, V>, key: K)
    requires Find(c, key).None?
    ensures Without(c, key) == c
  {
    if c != [] {
      WithoutMissing(c[1..], key);
    }
  }

  lemma PutKeepsInclusion<K(!new), V(!new)>(small: Cache<K, V>, large: Cache<K, V>, n: nat, m: nat, key: K, value: V, expiresAt: int)
    requires n <= m && Included(small, large, n, m)
    ensures Included(AfterPut(small, key, value, expiresAt, n), AfterPut(large, key, value, expiresAt, m), n, m)
  {
    StepKeepsBound(small, n, Put(key, value, expiresAt));
    StepKeepsBound(large, m, Put(key, value, expiresAt));
    var e := Entry(key, value, expiresAt);
    var s, l := Without(small, key) + [e], Without(large, key) + [e];
    SubWithout(small, large, key);
    SubAppend(Without(small, key), Without(large, key), e);
    FindAgrees(small, large, key);
    WithoutSize(small, key);
    WithoutSize(large, key);
    EvictionKeepsSub(s, l, n, m);
  }

  /** Evicting the oldest entry where there is one too many keeps the part of the whole. */
  lemma EvictionKeepsSub<K(!new), V(!new)>(s: Cache<K, V>, l: Cache<K, V>, n: nat, m: nat)
    requires Sub(s, l) && |s| <= n + 1 && |l| <= m + 1 && |l| - |s| <= m - n
    ensures Sub(Newest(s, n), Newest(l, m)) && |Newest(l, m)| - |Newest(s, n)| <= m - n
  {
    SubFacts(s, l);
    if |s| > n {
      SubTail(s, l);
      assert Newest(s, n) == s[1..];
      assert |l| > m ==> Newest(l, m) == l[1..];
    }
  }

  /** The smaller cache is always the larger one with entries left out, in the same order, and never lags by more than the difference in capacity. */
  lemma {:induction false} LruInclusion<K(!new), V(!new)>(n: nat, m: nat, ops: seq<Op<K, V>>)
    requires n <= m
    ensures Included(Run(n, ops), Run(m, ops), n, m)
  {
    if ops != [] {
      var init, op := ops[..|ops| - 1], ops[|ops| - 1];
      LruInclusion(n, m, init);
      match op
      case Get(key, now) => GetKeepsInclusion(Run(n, init), Run(m, init), n, m, key, now);
      case Put(key, value, expiresAt) => PutKeepsInclusion(Run(n, init), Run(m, init), n, m, key, value, expiresAt);
    }
  }

  /** Hence a hit in the smaller cache is the same hit in the larger one. */
  lemma LargerCacheHitsToo<K(!new), V(!new)>(n: nat, m: nat, ops: seq<Op<K, V>>, key: K, now: int)
    requires n <= m && Reply(Run(n, ops), key, now).Some?
    ensures Reply(Run(m, ops), key, now) == Reply(Run(n, ops), key, now)
  {
    LruInclusion(n, m, ops);
    FindAgrees(Run(n, ops), Run(m, ops), key);
  }
}
