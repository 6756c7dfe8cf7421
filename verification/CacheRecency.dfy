/** Recency: entries stand in order of last use, and nothing in recent use is evicted. */
module CacheRecency {
  import opened CompletionCache

  /** An operation uses its key if it stores it or finds it. */
  predicate Uses<K(==), V>(c: Cache<K, V>, op: Op<K, V>) {
    op.Put? || Hit(c, op.key, op.now)
  }

  function RunFrom<K(==), V>(c: Cache<K, V>, capacity: nat, ops: seq<Op<K, V>>): Cache<K, V> {
    if ops == [] then c
    else Step(RunFrom(c, capacity, ops[..|ops| - 1]), capacity, ops[|ops| - 1])
  }

  /** The keys used while `ops` run from `c`. */
  function UsedFrom<K(==), V>(c: Cache<K, V>, capacity: nat, ops: seq<Op<K, V>>): set<K> {
    if ops == [] then {}
    else
      var init, op := ops[..|ops| - 1], ops[|ops| - 1];
      UsedFrom(c, capacity, init) + if Uses(RunFrom(c, capacity, init), op) then {op.key} else {}
  }

  /** The number of the operation that used the key last, counted from 1; 0 if none did. */
  function LastUse<K(==), V>(capacity: nat, ops: seq<Op<K, V>>, key: K): nat {
    if ops == [] then 0
    else
      var init, op := ops[..|ops| - 1], ops[|ops| - 1];
      if op.key == key && Uses(Run(capacity, init), op) then |ops| else LastUse(capacity, init, key)
  }

  lemma {:induction false} LastUseBound<K, V>(capacity: nat, ops: seq<Op<K, V>>, key: K)
    ensures LastUse(capacity, ops, key) <= |ops|
  {
    if ops != [] {
      LastUseBound(capacity, ops[..|ops| - 1], key);
    }
  }

  lemma {:induction false} WithoutIsSub<K, V>(c: Cache<K, V>, key: K)
    ensures Sub(Without(c, key), c)
  {
    if c != [] {
      WithoutIsSub(c[1..], key);
      if c[0].key != key {
        assert Without(c, key)[1..] == Without(c[1..], key);
      }
    }
  }

  ghost predicate InOrderOfUse<K(!new), V(!new)>(c: Cache<K, V>, capacity: nat, ops: seq<Op<K, V>>) {
    && (forall i :: 0 <= i < |c| ==> 0 < LastUse(capacity, ops, c[i].key))
    && (forall i, j :: 0 <= i < j < |c| ==> LastUse(capacity, ops, c[i].key) < LastUse(capacity, ops, c[j].key))
  }

  /** Dropping entries, and appending the one used just now, keeps the order of use. */
  lemma OrderStep<K(!new), V(!new)>(c: Cache<K, V>, capacity: nat, init: seq<Op<K, V>>, op: Op<K, V>)
    requires InOrderOfUse(c, capacity, init) && c == Run(capacity, init)
    ensures InOrderOfUse(Without(c, op.key), capacity, init + [op])
    ensures forall e: Entry<K, V> :: e.key == op.key && Uses(c, op) ==> InOrderOfUse(Without(c, op.key) + [e], capacity, init + [op])
  {
    var w := Without(c, op.key);
    WithoutFacts(c, op.key);
    WithoutIsSub(c, op.key);
    SubKeepsUse(w, c, capacity, init);
    forall i | 0 <= i < |w| ensures LastUse(capacity, init + [op], w[i].key) == LastUse(capacity, init, w[i].key) {
      assert w[i] in w;
      LastUseNext(capacity, init, op, w[i].key);
    }
    assert InOrderOfUse(w, capacity, init + [op]);
    forall e: Entry<K, V> | e.key == op.key && Uses(c, op) ensures InOrderOfUse(w + [e], capacity, init + [op]) {
      LastUseNext(capacity, init, op, e.key);
      NewestIsLast(w, e, capacity, init + [op]);
    }
  }

  /** One more operation changes the last use of its own key only. */
  lemma LastUseNext<K(!new), V(!new)>(capacity: nat, init: seq<Op<K, V>>, op: Op<K, V>, key: K)
    ensures LastUse(capacity, init + [op], key)
         == if op.key == key && Uses(Run(capacity, init), op) then |init| + 1 else LastUse(capacity, init, key)
  {
    assert (init + [op])[..|init|] == init;
  }

  /** A part of the entries is in order of use if all of them are, and no use is later than the last operation. */
  lemma SubKeepsUse<K(!new), V(!new)>(w: Cache<K, V>, c: Cache<K, V>, capacity: nat, ops: seq<Op<K, V>>)
    requires Sub(w, c) && InOrderOfUse(c, capacity, ops)
    ensures InOrderOfUse(w, capacity, ops) && forall i :: 0 <= i < |w| ==> LastUse(capacity, ops, w[i].key) <= |ops|
  {
    SubFacts(w, c);
    forall i | 0 <= i < |w| ensures 0 < LastUse(capacity, ops, w[i].key) <= |ops| {
      assert w[i] in w;
      LastUseBound(capacity, ops, w[i].key);
    }
    forall i, j | 0 <= i < j < |w| ensures LastUse(capacity, ops, w[i].key) < LastUse(capacity, ops, w[j].key) {
      var i', j' := SubKeepsOrder(w, c, i, j);
    }
  }

  lemma NewestIsLast<K(!new), V(!new)>(w: Cache<K, V>, e: Entry<K, V>, capacity: nat, ops: seq<Op<K, V>>)
    requires InOrderOfUse(w, capacity, ops) && forall i :: 0 <= i < |w| ==> LastUse(capacity, ops, w[i].key) < |ops|
    requires ops != [] && LastUse(capacity, ops, e.key) == |ops|
    ensures InOrderOfUse(w + [e], capacity, ops)
  {
  }

  /** In every reachable cache the entries stand in the order in which they were last used. */
  lemma {:induction false} EntriesInOrderOfUse<K(!new), V(!new)>(capacity: nat, ops: seq<Op<K, V>>)
    ensures InOrderOfUse(Run(capacity, ops), capacity, ops)
  {
    if ops != [] {
      var init, op := ops[..|ops| - 1], ops[|ops| - 1];
      assert init + [op] == ops;
      var c := Run(capacity, init);
      EntriesInOrderOfUse(capacity, init);
      OrderStep(c, capacity, init, op);
      FindFacts(c, op.key);
      if op.Get? && Find(c, op.key).None? {
        WithoutMissing(c, op.key);
      }
    }
  }

  // ----- Survival -----

  ghost function Keys<K, V>(c: Cache<K, V>): set<K> {
    set e | e in c :: e.key
  }

  lemma {:induction false} WithoutSplits<K, V>(a: Cache<K, V>, b: Cache<K, V>, key: K)
    ensures Without(a + b, key) == Without(a, key) + Without(b, key)
  {
    if a == [] {
      assert a + b == b;
    } else {
      assert (a + b)[1..] == a[1..] + b;
      WithoutSplits(a[1..], b, key);
    }
  }

  lemma {:induction false} AtMostOnePerKey<K, V>(c: Cache<K, V>, keys: set<K>)
    requires DistinctKeys(c) && Keys(c) <= keys
    ensures |c| <= |keys|
  {
    if c != [] {
      var e := c[0];
      assert e in c;
      assert e.key in keys;
      forall x | x in c[1..] ensures x.key in keys - {e.key} {
        assert x in c;
        var i :| 0 <= i < |c[1..]| && c[1..][i] == x;
        assert c[i + 1] == x;
      }
      assert DistinctKeys(c[1..]);
      AtMostOnePerKey(c[1..], keys - {e.key});
    }
  }

  lemma WithoutAround<K(!new), V(!new)>(pre: Cache<K, V>, e: Entry<K, V>, post: Cache<K, V>, key: K)
    requires key != e.key
    ensures Without(pre + [e] + post, key) == Without(pre, key) + [e] + Without(post, key)
    ensures Keys(Without(post, key)) <= Keys(post)
  {
    WithoutFacts(post, key);
    WithoutSplits(pre + [e], post, key);
    WithoutSplits(pre, [e], key);
    assert Without([e], key) == [e];
  }

  lemma SurviveGet<K(!new), V(!new)>(pre: Cache<K, V>, e: Entry<K, V>, post: Cache<K, V>, key: K, now: int)
    returns (pre': Cache<K, V>, post': Cache<K, V>)
    requires key != e.key
    ensures var c := pre + [e] + post;
      && AfterGet(c, key, now) == pre' + [e] + post'
      && Keys(post') <= Keys(post) + if Hit(c, key, now) then {key} else {}
  {
    var c := pre + [e] + post;
    FindFacts(c, key);
    if Find(c, key).None? {
      return pre, post;
    }
    WithoutAround(pre, e, post, key);
    pre', post' := Without(pre, key), Without(post, key);
    var found := Find(c, key).value;
    if now <= found.expiresAt {
      assert pre' + [e] + post' + [found] == pre' + [e] + (post' + [found]);
      post' := post' + [found];
    }
  }

  lemma DistinctTail<K(!new), V(!new)>(front: Cache<K, V>, tail: Cache<K, V>)
    requires DistinctKeys(front + tail)
    ensures DistinctKeys(tail)
  {
    forall i, j | 0 <= i < j < |tail| ensures tail[i].key != tail[j].key {
      assert (front + tail)[|front| + i] == tail[i] && (front + tail)[|front| + j] == tail[j];
    }
  }

  lemma SurvivePut<K(!new), V(!new)>(pre: Cache<K, V>, e: Entry<K, V>, post: Cache<K, V>, stored: Entry<K, V>, capacity: nat, used: set<K>)
    returns (pre': Cache<K, V>, post': Cache<K, V>)
    requires DistinctKeys(pre + [e] + post) && |pre + [e] + post| <= capacity
    requires stored.key != e.key && Keys(post) <= used && |used + {stored.key}| < capacity
    ensures AfterPut(pre + [e] + post, stored.key, stored.value, stored.expiresAt, capacity) == pre' + [e] + post'
    ensures Keys(post') <= used + {stored.key}
  {
    var c, key := pre + [e] + post, stored.key;
    WithoutAround(pre, e, post, key);
    WithoutFacts(c, key);
    AppendDistinct(Without(c, key), stored);
    pre', post' := Without(pre, key), Without(post, key) + [stored];
    var all := Without(c, key) + [stored];
    assert all == pre' + [e] + post';
    DistinctTail(pre' + [e], post');
    AtMostOnePerKey(post', used + {key});
    if |all| > capacity {
      DropOldest(pre', e, post', capacity);
      pre' := pre'[1..];
    }
  }

  lemma DropOldest<K, V>(pre: Cache<K, V>, e: Entry<K, V>, post: Cache<K, V>, capacity: nat)
    requires |pre + [e] + post| == capacity + 1 && |post| < capacity
    ensures pre != [] && Newest(pre + [e] + post, capacity) == pre[1..] + [e] + post
  {
  }

  /** One operation that does not use `e`'s key, nor meets it stale, moves only entries that are in use behind `e`. */
  lemma SurviveStep<K(!new), V(!new)>(pre: Cache<K, V>, e: Entry<K, V>, post: Cache<K, V>, capacity: nat, op: Op<K, V>, used: set<K>)
    returns (pre': Cache<K, V>, post': Cache<K, V>)
    requires var c := pre + [e] + post;
      && DistinctKeys(c) && |c| <= capacity && Keys(post) <= used
      && !(Uses(c, op) && op.key == e.key)
      && (op.Get? && op.key == e.key ==> op.now <= e.expiresAt)
      && |used + if Uses(c, op) then {op.key} else {}| < capacity
    ensures var c := pre + [e] + post;
      && Step(c, capacity, op) == pre' + [e] + post'
      && Keys(post') <= used + if Uses(c, op) then {op.key} else {}
  {
    var c := pre + [e] + post;
    assert e == c[|pre|];
    assert e in c;
    FindFacts(c, op.key);
    match op
    case Get(key, now) => pre', post' := SurviveGet(pre, e, post, key, now);
    case Put(key, value, expiresAt) => pre', post' := SurvivePut(pre, e, post, Entry(key, value, expiresAt), capacity, used);
  }

  lemma {:induction false} RunFromKeepsBound<K, V>(c: Cache<K, V>, capacity: nat, ops: seq<Op<K, V>>)
    requires DistinctKeys(c) && |c| <= capacity
    ensures DistinctKeys(RunFrom(c, capacity, ops)) && |RunFrom(c, capacity, ops)| <= capacity
  {
    if ops != [] {
      RunFromKeepsBound(c, capacity, ops[..|ops| - 1]);
      StepKeepsBound(RunFrom(c, capacity, ops[..|ops| - 1]), capacity, ops[|ops| - 1]);
    }
  }

  lemma {:induction false} SurviveRun<K(!new), V(!new)>(pre: Cache<K, V>, e: Entry<K, V>, capacity: nat, ops: seq<Op<K, V>>)
    returns (pre': Cache<K, V>, post': Cache<K, V>)
    requires DistinctKeys(pre + [e]) && |pre + [e]| <= capacity
    requires e.key !in UsedFrom(pre + [e], capacity, ops) && |UsedFrom(pre + [e], capacity, ops)| < capacity
    requires forall op :: op in ops && op.Get? && op.key == e.key ==> op.now <= e.expiresAt
    ensures RunFrom(pre + [e], capacity, ops) == pre' + [e] + post'
    ensures Keys(post') <= UsedFrom(pre + [e], capacity, ops)
    decreases |ops|
  {
    if ops == [] {
      pre', post' := pre, [];
      assert pre + [e] + [] == pre + [e];
    } else {
      var init, op := ops[..|ops| - 1], ops[|ops| - 1];
      var before := UsedFrom(pre + [e], capacity, init);
      SubsetSize(before, UsedFrom(pre + [e], capacity, ops));
      var p, q := SurviveRun(pre, e, capacity, init);
      RunFromKeepsBound(pre + [e], capacity, init);
      assert op in ops;
      pre', post' := SurviveStep(p, e, q, capacity, op, before);
    }
  }

  lemma SubsetSize<T>(a: set<T>, b: set<T>)
    requires a <= b
    ensures |a| <= |b|
  {
    assert b == a + (b - a);
  }

  /**
   An entry used just now is still there, unchanged, after any operations that use fewer than `capacity` other keys
   and that never look it up after its expiry.
   */
  lemma RecentlyUsedSurvives<K(!new), V(!new)>(capacity: nat, history: seq<Op<K, V>>, op: Op<K, V>, later: seq<Op<K, V>>)
    requires capacity > 0 && Uses(Run(capacity, history), op)
    requires var c := Run(capacity, history + [op]);
      && op.key !in UsedFrom(c, capacity, later) && |UsedFrom(c, capacity, later)| < capacity
      && forall x :: x in later && x.Get? && x.key == op.key ==> Find(c, op.key).Some? && x.now <= Find(c, op.key).value.expiresAt
    ensures var c := Run(capacity, history + [op]);
      Find(c, op.key).Some? && Find(RunFrom(c, capacity, later), op.key) == Find(c, op.key)
  {
    var c0, c := Run(capacity, history), Run(capacity, history + [op]);
    assert (history + [op])[..|history|] == history;
    RunKeepsBound(capacity, history);
    RunKeepsBound(capacity, history + [op]);
    FindFacts(c0, op.key);
    FindFacts(c, op.key);
    var pre, e := c[..|c| - 1], c[|c| - 1];
    assert c == pre + [e] && e in c && e.key == op.key;
    var pre', post' := SurviveRun(pre, e, capacity, later);
    RunFromKeepsBound(c, capacity, later);
    var c' := RunFrom(c, capacity, later);
    assert c'[|pre'|] == e;
    FindFacts(c', op.key);
  }
}
