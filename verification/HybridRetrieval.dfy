/**
 Retrieval over two scored sources: one entry per object with its best score, the best `limit` of them, then re-scoring
 and re-sorting. Cosine values, the literal-hit test and rounding are inputs.
 */
module HybridRetrieval {
  import opened Wrappers
  import opened Text

  datatype Source = SearchIndex | KbDocument

  /** A stored row with its similarity to the query and whether the query text occurs in it. */
  datatype Row = Row(source: Source, kind: Option<string>, id: string, cosine: real, hit: bool)

  /** A row that takes part in the ranking, under the text key it is deduplicated by. */
  datatype Candidate = Candidate(key: string, score: real, row: Row)

  /** The chat endpoint files a row without a type under "document"; the agent's search tool prints the type as it is. */
  datatype Caller = ChatContext | SearchTool

  function TypeName(caller: Caller, row: Row): string {
    if row.source.KbDocument? then "document"
    else
      match row.kind
      case None => if caller.ChatContext? then "document" else "None"
      case Some(t) => if caller.ChatContext? && t == "" then "document" else t
  }

  function Key(caller: Caller, row: Row): string { TypeName(caller, row) + ":" + row.id }

  /** Literal hits weigh more in documents than in index rows. */
  function Score(row: Row): real {
    row.cosine + if !row.hit then 0.0 else if row.source.KbDocument? then 0.12 else 0.05
  }

  function ToCandidate(caller: Caller, row: Row): Candidate { Candidate(Key(caller, row), Score(row), row) }

  /** What follows the last colon. */
  function AfterColon(s: string): string {
    if s == "" || s[|s| - 1] == ':' then "" else AfterColon(s[..|s| - 1]) + [s[|s| - 1]]
  }

  lemma {:induction false} AfterColonOf(name: string, id: string)
    requires ':' !in id
    ensures AfterColon(name + ":" + id) == id
  {
    if id != "" {
      var n := |id| - 1;
      assert (name + ":" + id)[..|name| + 1 + n] == name + ":" + id[..n];
      AfterColonOf(name, id[..n]);
      assert id == id[..n] + [id[n]];
    }
  }

  /** As identifiers hold no colon, equal keys mean equal type and equal identifier. */
  lemma KeysIdentify(caller: Caller, a: Row, b: Row)
    requires ':' !in a.id && ':' !in b.id
    ensures Key(caller, a) == Key(caller, b) <==> TypeName(caller, a) == TypeName(caller, b) && a.id == b.id
  {
    AfterColonOf(TypeName(caller, a), a.id);
    AfterColonOf(TypeName(caller, b), b.id);
    var x, y := Key(caller, a), Key(caller, b);
    assert x[..|x| - |a.id| - 1] == TypeName(caller, a) && y[..|y| - |b.id| - 1] == TypeName(caller, b);
  }

  // ----- What "the best k" means -----

  /** Where a key first turns up. */
  function FirstAt(cs: seq<Candidate>, key: string): (i: nat)
    ensures i <= |cs| && (i < |cs| ==> cs[i].key == key)
  {
    if cs == [] then 0
    else
      var i := FirstAt(cs[..|cs| - 1], key);
      if i == |cs| - 1 && cs[i].key != key then |cs| else i
  }

  /** Where a key has its highest score, first of equals. */
  function BestAt(cs: seq<Candidate>, key: string): (i: nat)
    ensures i <= |cs| && (i < |cs| ==> cs[i].key == key)
  {
    if cs == [] then 0
    else
      var n := |cs| - 1;
      var i := BestAt(cs[..n], key);
      if cs[n].key == key && (i == n || cs[n].score > cs[i].score) then n
      else if i == n then |cs| else i
  }

  lemma {:induction false} FirstAtIsFirst(cs: seq<Candidate>, k: nat)
    requires k < |cs|
    ensures FirstAt(cs, cs[k].key) <= k
  {
    if k < |cs| - 1 {
      FirstAtIsFirst(cs[..|cs| - 1], k);
    }
  }

  /** No candidate of the key scores higher, and none before it scores as high. */
  lemma {:induction false} BestAtIsBest(cs: seq<Candidate>, k: nat)
    requires k < |cs|
    ensures var i := BestAt(cs, cs[k].key);
      i < |cs| && cs[k].score <= cs[i].score && (k < i ==> cs[k].score < cs[i].score)
  {
    var n := |cs| - 1;
    if k < n {
      BestAtIsBest(cs[..n], k);
    } else if BestAt(cs[..n], cs[n].key) < n {
      BestAtIsBest(cs[..n], BestAt(cs[..n], cs[n].key));
    }
  }

  /** The candidate that stands for its key. */
  predicate IsBest(cs: seq<Candidate>, c: Candidate) {
    var i := BestAt(cs, c.key); i < |cs| && cs[i] == c
  }

  /** Higher score first; ties in order of first appearance of the key. */
  predicate Better(cs: seq<Candidate>, a: Candidate, b: Candidate) {
    a.score > b.score || (a.score == b.score && FirstAt(cs, a.key) < FirstAt(cs, b.key))
  }

  ghost predicate Ranked(cs: seq<Candidate>, r: seq<Candidate>) {
    forall i, j :: 0 <= i < j < |r| ==> Better(cs, r[i], r[j])
  }

  ghost predicate AllBetter(cs: seq<Candidate>, r: seq<Candidate>, c: Candidate) {
    forall i :: 0 <= i < |r| ==> Better(cs, r[i], c)
  }

  /** The `limit` best keys, each with its best candidate, in order; a key is left out only for `limit` better ones. */
  ghost predicate IsTopK(cs: seq<Candidate>, limit: nat, r: seq<Candidate>) {
    && |r| <= limit
    && Ranked(cs, r)
    && (forall i :: 0 <= i < |r| ==> IsBest(cs, r[i]))
    && forall c :: IsBest(cs, c) && c !in r ==> |r| == limit && AllBetter(cs, r, c)
  }

  lemma BetterIsTotal(cs: seq<Candidate>, a: Candidate, b: Candidate)
    requires IsBest(cs, a) && IsBest(cs, b) && a != b
    ensures Better(cs, a, b) <==> !Better(cs, b, a)
  {
    FirstAtIsFirst(cs, BestAt(cs, a.key));
    FirstAtIsFirst(cs, BestAt(cs, b.key));
  }

  /** The description leaves no freedom: there is one such list. */
  lemma TopKIsUnique(cs: seq<Candidate>, limit: nat, r: seq<Candidate>, t: seq<Candidate>)
    requires IsTopK(cs, limit, r) && IsTopK(cs, limit, t)
    ensures r == t
  {
    AgreeUpTo(cs, limit, r, t, if |r| < |t| then |r| else |t|);
    if |r| < |t| {
      NoRepeats(cs, t, |r|);
    } else if |t| < |r| {
      NoRepeats(cs, r, |t|);
    }
  }

  lemma {:induction false} AgreeUpTo(cs: seq<Candidate>, limit: nat, r: seq<Candidate>, t: seq<Candidate>, n: nat)
    requires IsTopK(cs, limit, r) && IsTopK(cs, limit, t)
    requires n <= |r| && n <= |t|
    ensures r[..n] == t[..n]
  {
    if n > 0 {
      AgreeUpTo(cs, limit, r, t, n - 1);
      Beats(cs, limit, r, t, n - 1);
      Beats(cs, limit, t, r, n - 1);
      if r[n - 1] != t[n - 1] {
        BetterIsTotal(cs, r[n - 1], t[n - 1]);
      }
      assert r[..n] == r[..n - 1] + [r[n - 1]] && t[..n] == t[..n - 1] + [t[n - 1]];
    }
  }

  lemma NoRepeats(cs: seq<Candidate>, t: seq<Candidate>, n: nat)
    requires Ranked(cs, t) && n < |t|
    ensures t[n] !in t[..n]
  {
  }

  /** Two such lists that agree so far agree on the next entry, or the first one's is better. */
  lemma Beats(cs: seq<Candidate>, limit: nat, r: seq<Candidate>, t: seq<Candidate>, i: nat)
    requires IsTopK(cs, limit, r) && IsTopK(cs, limit, t)
    requires i < |r| && i < |t| && r[..i] == t[..i]
    ensures r[i] == t[i] || Better(cs, r[i], t[i])
  {
    NoRepeats(cs, t, i);
    if t[i] in r {
      var k :| 0 <= k < |r| && r[k] == t[i];
      assert k >= i by {
        assert forall x :: 0 <= x < i ==> r[..i][x] == r[x];
      }
    }
  }

  /** In plain terms: every key at most once, and whatever key is missing lost to `limit` keys that score at least as high. */
  lemma TopKInPlainTerms(cs: seq<Candidate>, limit: nat, r: seq<Candidate>, k: nat)
    requires IsTopK(cs, limit, r) && k < |cs|
    ensures forall i, j :: 0 <= i < j < |r| ==> r[i].key != r[j].key && r[i].score >= r[j].score
    ensures (exists i :: 0 <= i < |r| && r[i].key == cs[k].key && r[i].score >= cs[k].score)
            || (|r| == limit && forall i :: 0 <= i < |r| ==> r[i].key != cs[k].key && r[i].score >= cs[k].score)
  {
    BestAtIsBest(cs, k);
    var best := cs[BestAt(cs, cs[k].key)];
    assert IsBest(cs, best);
    forall i, j | 0 <= i < j < |r| ensures r[i].key != r[j].key && r[i].score >= r[j].score {
      assert Better(cs, r[i], r[j]);
      assert IsBest(cs, r[i]) && IsBest(cs, r[j]);
    }
    if best in r {
      var i :| 0 <= i < |r| && r[i] == best;
    } else {
      forall i | 0 <= i < |r| ensures r[i].key != cs[k].key && r[i].score >= cs[k].score {
        assert Better(cs, r[i], best);
        assert IsBest(cs, r[i]);
      }
    }
  }

  // ----- The merge -----

  /** One entry per key seen, in order of first appearance, holding the key's best candidate. */
  ghost predicate Merged(cs: seq<Candidate>, m: seq<Candidate>) {
    AllBest(cs, m) && InOrder(cs, m) && Complete(cs, m)
  }

  ghost predicate AllBest(cs: seq<Candidate>, m: seq<Candidate>) {
    forall i :: 0 <= i < |m| ==> IsBest(cs, m[i])
  }

  ghost predicate InOrder(cs: seq<Candidate>, m: seq<Candidate>) {
    forall i, j :: 0 <= i < j < |m| ==> FirstAt(cs, m[i].key) < FirstAt(cs, m[j].key)
  }

  ghost predicate Complete(cs: seq<Candidate>, m: seq<Candidate>) {
    forall i :: 0 <= i < |cs| ==> FirstAt(m, cs[i].key) < |m|
  }

  /** What the merge does with one more candidate. */
  function Absorb(m: seq<Candidate>, c: Candidate): seq<Candidate> {
    var i := FirstAt(m, c.key);
    if i == |m| then m + [c] else if c.score > m[i].score then m[i := c] else m
  }

  function AbsorbAll(m: seq<Candidate>, cs: seq<Candidate>): seq<Candidate> {
    if cs == [] then m else Absorb(AbsorbAll(m, cs[..|cs| - 1]), cs[|cs| - 1])
  }

  /** One more candidate changes the standing of its own key only. */
  lemma OneMore(cs: seq<Candidate>, c: Candidate, key: string)
    ensures FirstAt(cs + [c], key) == if FirstAt(cs, key) == |cs| && key != c.key then |cs| + 1 else FirstAt(cs, key)
    ensures BestAt(cs + [c], key) ==
            var i := BestAt(cs, key);
            if key == c.key && (i == |cs| || c.score > cs[i].score) then |cs| else if i == |cs| then |cs| + 1 else i
  {
  }

  lemma KnownKey(cs: seq<Candidate>, m: seq<Candidate>, key: string)
    requires AllBest(cs, m) && Complete(cs, m)
    ensures FirstAt(m, key) < |m| <==> FirstAt(cs, key) < |cs|
    ensures FirstAt(cs, key) < |cs| <==> BestAt(cs, key) < |cs|
  {
    if FirstAt(cs, key) < |cs| {
      assert FirstAt(m, cs[FirstAt(cs, key)].key) < |m|;
      BestAtIsBest(cs, FirstAt(cs, key));
    }
    if BestAt(cs, key) < |cs| {
      FirstAtIsFirst(cs, BestAt(cs, key));
    }
    if FirstAt(m, key) < |m| {
      assert IsBest(cs, m[FirstAt(m, key)]);
    }
  }

  lemma AbsorbKeepsBest(cs: seq<Candidate>, m: seq<Candidate>, c: Candidate, i: nat)
    requires Merged(cs, m) && i < |Absorb(m, c)|
    ensures IsBest(cs + [c], Absorb(m, c)[i])
  {
    var at := FirstAt(m, c.key);
    KnownKey(cs, m, c.key);
    OneMore(cs, c, c.key);
    if i < |m| {
      OneMore(cs, c, m[i].key);
      assert IsBest(cs, m[i]);
      if m[i].key == c.key {
        FirstAtIsFirst(m, i);
        assert i == at;
      }
    }
  }

  ghost predicate SameKeys(a: seq<Candidate>, b: seq<Candidate>) {
    |a| == |b| && forall i :: 0 <= i < |a| ==> a[i].key == b[i].key
  }

  lemma {:induction false} SameKeysSameFirst(a: seq<Candidate>, b: seq<Candidate>, key: string)
    requires SameKeys(a, b)
    ensures FirstAt(a, key) == FirstAt(b, key)
  {
    if a != [] {
      SameKeysSameFirst(a[..|a| - 1], b[..|b| - 1], key);
    }
  }

  lemma AppendKeepsOrder(cs: seq<Candidate>, m: seq<Candidate>, c: Candidate)
    requires Merged(cs, m) && FirstAt(m, c.key) == |m|
    ensures InOrder(cs + [c], m + [c])
  {
    KnownKey(cs, m, c.key);
    OneMore(cs, c, c.key);
    SameOrder(cs, m, c);
    forall i | 0 <= i < |m| ensures FirstAt(cs + [c], m[i].key) < |cs| {
      assert IsBest(cs, m[i]);
      KnownKey(cs, m, m[i].key);
      OneMore(cs, c, m[i].key);
    }
  }

  lemma SameOrder(cs: seq<Candidate>, m: seq<Candidate>, c: Candidate)
    requires Merged(cs, m)
    ensures InOrder(cs + [c], m)
  {
  }

  lemma AbsorbKeepsOrder(cs: seq<Candidate>, m: seq<Candidate>, c: Candidate)
    requires Merged(cs, m)
    ensures InOrder(cs + [c], Absorb(m, c))
  {
    if FirstAt(m, c.key) == |m| {
      AppendKeepsOrder(cs, m, c);
    } else {
      SameOrder(cs, m, c);
    }
  }

  lemma AbsorbKnows(cs: seq<Candidate>, m: seq<Candidate>, c: Candidate, key: string)
    requires AllBest(cs, m) && Complete(cs, m) && (FirstAt(cs, key) < |cs| || key == c.key)
    ensures FirstAt(Absorb(m, c), key) < |Absorb(m, c)|
  {
    KnownKey(cs, m, key);
    AbsorbFinds(m, c, key);
  }

  /** A key that is listed stays listed, and the key of the candidate becomes so. */
  lemma AbsorbFinds(m: seq<Candidate>, c: Candidate, key: string)
    requires FirstAt(m, key) < |m| || key == c.key
    ensures FirstAt(Absorb(m, c), key) < |Absorb(m, c)|
  {
    if FirstAt(m, c.key) == |m| {
      OneMore(m, c, key);
    } else {
      SameKeysSameFirst(m, Absorb(m, c), key);
    }
  }

  lemma AbsorbMerges(cs: seq<Candidate>, m: seq<Candidate>, c: Candidate)
    requires Merged(cs, m)
    ensures Merged(cs + [c], Absorb(m, c))
  {
    var all, r := cs + [c], Absorb(m, c);
    assert AllBest(all, r) by {
      forall i | 0 <= i < |r| ensures IsBest(all, r[i]) {
        AbsorbKeepsBest(cs, m, c, i);
      }
    }
    assert InOrder(all, r) by {
      AbsorbKeepsOrder(cs, m, c);
    }
    assert Complete(all, r) by {
      forall i | 0 <= i < |all| ensures FirstAt(r, all[i].key) < |r| {
        if i < |cs| {
          FirstAtIsFirst(cs, i);
        }
        AbsorbKnows(cs, m, c, all[i].key);
      }
    }
  }

  /** Folding a list into a merge of another merges both. */
  lemma {:induction false} AbsorbAllMerges(before: seq<Candidate>, m: seq<Candidate>, cs: seq<Candidate>)
    requires Merged(before, m)
    ensures Merged(before + cs, AbsorbAll(m, cs))
  {
    if cs == [] {
      assert before + cs == before;
    } else {
      var n := |cs| - 1;
      AbsorbAllMerges(before, m, cs[..n]);
      AbsorbMerges(before + cs[..n], AbsorbAll(m, cs[..n]), cs[n]);
      assert before + cs[..n] + [cs[n]] == before + cs;
    }
  }

  /** Python's `sorted(..., reverse=True)` on the score: stable and descending. */
  function Insert(t: seq<Candidate>, c: Candidate): (r: seq<Candidate>)
    ensures |r| == |t| + 1 && multiset(r) == multiset(t) + multiset{c}
  {
    if t == [] || t[|t| - 1].score >= c.score then t + [c]
    else
      var r := Insert(t[..|t| - 1], c);
      assert t == t[..|t| - 1] + [t[|t| - 1]];
      r + [t[|t| - 1]]
  }

  function SortByScore(s: seq<Candidate>): (r: seq<Candidate>)
    ensures |r| == |s| && multiset(r) == multiset(s)
  {
    if s == [] then []
    else
      assert s == s[..|s| - 1] + [s[|s| - 1]];
      Insert(SortByScore(s[..|s| - 1]), s[|s| - 1])
  }

  lemma {:induction false} InsertRanks(cs: seq<Candidate>, t: seq<Candidate>, c: Candidate)
    requires Ranked(cs, t) && forall i :: 0 <= i < |t| ==> FirstAt(cs, t[i].key) < FirstAt(cs, c.key)
    ensures Ranked(cs, Insert(t, c))
  {
    if t != [] && t[|t| - 1].score < c.score {
      var front, last := t[..|t| - 1], t[|t| - 1];
      InsertRanks(cs, front, c);
      var r := Insert(front, c);
      forall i | 0 <= i < |r| ensures Better(cs, r[i], last) {
        InsertMembers(front, c, i);
        if r[i] != c {
          var k :| 0 <= k < |front| && front[k] == r[i];
          assert Better(cs, t[k], last);
        }
      }
      RankedSnoc(cs, r, last);
    }
  }

  lemma InsertMembers(t: seq<Candidate>, c: Candidate, i: nat)
    requires i <= |t|
    ensures Insert(t, c)[i] in t || Insert(t, c)[i] == c
  {
    assert Insert(t, c)[i] in multiset(Insert(t, c));
  }

  lemma RankedSnoc(cs: seq<Candidate>, r: seq<Candidate>, last: Candidate)
    requires Ranked(cs, r) && AllBetter(cs, r, last)
    ensures Ranked(cs, r + [last])
  {
  }

  lemma {:induction false} SortRanks(cs: seq<Candidate>, s: seq<Candidate>)
    requires forall i, j :: 0 <= i < j < |s| ==> FirstAt(cs, s[i].key) < FirstAt(cs, s[j].key)
    ensures Ranked(cs, SortByScore(s))
  {
    if s != [] {
      var front := s[..|s| - 1];
      SortRanks(cs, front);
      var t := SortByScore(front);
      forall i | 0 <= i < |t| ensures FirstAt(cs, t[i].key) < FirstAt(cs, s[|s| - 1].key) {
        assert t[i] in multiset(t);
        assert t[i] in front;
      }
      InsertRanks(cs, t, s[|s| - 1]);
    }
  }

  /** Sorting the merged entries and cutting yields the top k. */
  lemma MergedSortedCut(cs: seq<Candidate>, m: seq<Candidate>, limit: nat)
    requires Merged(cs, m)
    ensures IsTopK(cs, limit, Cut(SortByScore(m), limit))
  {
    SortRanks(cs, m);
    var s := SortByScore(m);
    forall i | 0 <= i < |s| ensures IsBest(cs, s[i]) {
      assert s[i] in multiset(s);
      assert s[i] in m;
    }
    forall c | IsBest(cs, c) ensures c in s {
      BestIsSorted(cs, m, c);
    }
    CutIsTopK(cs, s, limit);
  }

  function Cut<T>(s: seq<T>, limit: nat): seq<T> { if limit < |s| then s[..limit] else s }

  lemma CutIsTopK(cs: seq<Candidate>, s: seq<Candidate>, limit: nat)
    requires Ranked(cs, s) && AllBest(cs, s) && forall c :: IsBest(cs, c) ==> c in s
    ensures IsTopK(cs, limit, Cut(s, limit))
  {
  }

  lemma BestIsSorted(cs: seq<Candidate>, m: seq<Candidate>, c: Candidate)
    requires Merged(cs, m) && IsBest(cs, c)
    ensures c in SortByScore(m)
  {
    FirstAtIsFirst(cs, BestAt(cs, c.key));
    KnownKey(cs, m, c.key);
    assert IsBest(cs, m[FirstAt(m, c.key)]);
    assert c in multiset(m);
    assert c in multiset(SortByScore(m));
  }

  /** Keeps what scores above zero. */
  function Positive(caller: Caller, rows: seq<Row>): (r: seq<Candidate>)
    ensures forall i :: 0 <= i < |r| ==> r[i].score > 0.0
  {
    if rows == [] then []
    else
      var front := Positive(caller, rows[..|rows| - 1]);
      var last := rows[|rows| - 1];
      if Score(last) > 0.0 then front + [ToCandidate(caller, last)] else front
  }

  /** The candidate a row makes: filed under its type and identifier, at its similarity plus the weight of a literal hit. */
  predicate Makes(caller: Caller, row: Row, c: Candidate) {
    && c.row == row
    && c.score == row.cosine + (if row.hit && row.source == KbDocument then 0.12 else if row.hit then 0.05 else 0.0)
    && var kind :=
         if row.source == KbDocument then "document"
         else match row.kind
           case Some(t) => if t == "" && caller == ChatContext then "document" else t
           case None => if caller == ChatContext then "document" else "None";
       c.key == kind + ":" + row.id
  }

  /** Those rows take part that score above zero, each as its candidate. */
  lemma {:induction false} PositiveAre(caller: Caller, rows: seq<Row>, c: Candidate)
    ensures c in Positive(caller, rows) <==> c.score > 0.0 && c.row in rows && Makes(caller, c.row, c)
  {
    if rows != [] {
      var init, last := rows[..|rows| - 1], rows[|rows| - 1];
      PositiveAre(caller, init, c);
      MakesOne(caller, last, c);
      assert rows == init + [last];
    }
  }

  lemma MakesOne(caller: Caller, row: Row, c: Candidate)
    ensures Makes(caller, row, c) <==> c == ToCandidate(caller, row)
  {
  }

  /** One row more adds its candidate behind the others, or nothing. */
  lemma OneRowMore(caller: Caller, rows: seq<Row>, row: Row, c: Candidate)
    requires Makes(caller, row, c)
    ensures Positive(caller, rows + [row]) == Positive(caller, rows) + if c.score > 0.0 then [c] else []
  {
    MakesOne(caller, row, c);
    assert (rows + [row])[..|rows|] == rows;
  }

  method ScoreRows(caller: Caller, rows: seq<Row>) returns (scored: seq<Candidate>)
    ensures scored == Positive(caller, rows)
  {
    scored := [];
    for i := 0 to |rows|
      invariant scored == Positive(caller, rows[..i])
    {
      assert rows[..i + 1][..i] == rows[..i];
      var score := Score(rows[i]);
      if score > 0.0 {
        scored := scored + [Candidate(Key(caller, rows[i]), score, rows[i])];
      }
    }
    assert rows[..|rows|] == rows;
  }

  /** Folds one source into the dictionary, which keeps the position of a key it already holds. */
  method MergeSource(merged: seq<Candidate>, scored: seq<Candidate>) returns (m: seq<Candidate>)
    ensures m == AbsorbAll(merged, scored)
  {
    m := merged;
    for i := 0 to |scored|
      invariant m == AbsorbAll(merged, scored[..i])
    {
      assert scored[..i + 1][..i] == scored[..i];
      var at := FirstAt(m, scored[i].key);
      if at == |m| {
        m := m + [scored[i]];
      } else if scored[i].score > m[at].score {
        m := m[at := scored[i]];
      }
    }
    assert scored[..|scored|] == scored;
  }

  /** Both callers: score two sources, merge them in turn, sort, cut. */
  method TopCandidates(caller: Caller, first: seq<Row>, second: seq<Row>, limit: nat) returns (ranked: seq<Candidate>)
    ensures IsTopK(Positive(caller, first) + Positive(caller, second), limit, ranked)
  {
    var a := ScoreRows(caller, first);
    var b := ScoreRows(caller, second);
    var merged := MergeSource([], a);
    AbsorbAllMerges([], [], a);
    assert [] + a == a;
    AbsorbAllMerges(a, merged, b);
    merged := MergeSource(merged, b);
    MergedSortedCut(a + b, merged, limit);
    ranked := Cut(SortByScore(merged), limit);
  }

  /** How many results the search tool gives at most: as many as asked for from 1 to 10, and 5 if it is asked for none. */
  function SearchLimit(topK: int): (limit: nat)
    ensures 1 <= limit <= 10 && (1 <= topK <= 10 ==> limit == topK)
    ensures (topK == 0 ==> limit == 5) && (topK > 10 ==> limit == 10) && (topK < 0 ==> limit == 1)
  {
    if topK == 0 then 5 else if topK > 10 then 10 else if topK < 1 then 1 else topK
  }

  /** The agent's search tool: nothing for a blank query, and otherwise the best keys; documents come first. */
  method KbSearch(query: string, documents: seq<Row>, index: seq<Row>, topK: int) returns (ranked: seq<Candidate>)
    ensures if Trim(IsPySpace, query) == "" then ranked == []
            else IsTopK(Positive(SearchTool, documents) + Positive(SearchTool, index), SearchLimit(topK), ranked)
  {
    if Trim(IsPySpace, query) == "" {
      return [];
    }
    var asked := if topK == 0 then 5 else topK;
    var most := if asked < 10 then asked else 10;
    ranked := TopCandidates(SearchTool, documents, index, if most > 1 then most else 1);
  }
}
