/** What happens to the ranked candidates before they reach the prompt: new scores, a second sort, a second cut. */
module RetrievalEnrichment {
  import opened Wrappers
  import opened HybridRetrieval

  /** What the database adds to a row, and Python's `round(_, 4)`. */
  datatype Extras = Extras(chunk: string -> Option<real>, inFolder: Row -> bool, round4: real -> real)

  /** Scores of index rows are looked up by identifier alone; of several entries the last one written counts. */
  function Lookup(ranked: seq<Candidate>): map<string, real> {
    if ranked == [] then map[]
    else
      var last := ranked[|ranked| - 1];
      var m := Lookup(ranked[..|ranked| - 1]);
      if last.row.source.SearchIndex? then m[last.row.id := last.score] else m
  }

  /** An index row's score after its best paragraph and the folder it was asked for. */
  function Boosted(x: Extras, row: Row, base: real): real {
    var withChunk := match x.chunk(row.id)
      case Some(c) => if c > 0.0 then x.round4(if c > base then c else base) else base
      case None => base;
    if x.inFolder(row) then x.round4(withChunk + 0.5) else withChunk
  }

  function Final(x: Extras, lookup: map<string, real>, c: Candidate): Candidate {
    if c.row.source.KbDocument? then c.(score := x.round4(c.score))
    else c.(score := Boosted(x, c.row, if c.row.id in lookup then lookup[c.row.id] else 0.0))
  }

  function Finals(x: Extras, lookup: map<string, real>, cs: seq<Candidate>): seq<Candidate> {
    if cs == [] then [] else Finals(x, lookup, cs[..|cs| - 1]) + [Final(x, lookup, cs[|cs| - 1])]
  }

  function Of(source: Source, cs: seq<Candidate>): (r: seq<Candidate>)
    ensures |r| <= |cs|
  {
    if cs == [] then []
    else
      var front, last := Of(source, cs[..|cs| - 1]), cs[|cs| - 1];
      if last.row.source == source then front + [last] else front
  }

  ghost predicate Descending(s: seq<Candidate>) {
    forall i, j :: 0 <= i < j < |s| ==> s[i].score >= s[j].score
  }

  lemma {:induction false} InsertDescends(t: seq<Candidate>, c: Candidate)
    requires Descending(t)
    ensures Descending(Insert(t, c))
  {
    if t != [] && t[|t| - 1].score < c.score {
      var front, last := t[..|t| - 1], t[|t| - 1];
      InsertDescends(front, c);
      var r := Insert(front, c);
      forall i | 0 <= i < |r| ensures r[i].score >= last.score {
        assert r[i] in multiset(r);
        assert r[i] in front || r[i] == c;
      }
    }
  }

  lemma {:induction false} SortDescends(s: seq<Candidate>)
    ensures Descending(SortByScore(s))
  {
    if s != [] {
      SortDescends(s[..|s| - 1]);
      InsertDescends(SortByScore(s[..|s| - 1]), s[|s| - 1]);
    }
  }

  function Bag(x: Extras, lookup: map<string, real>, cs: seq<Candidate>): multiset<Candidate> {
    multiset(Finals(x, lookup, cs))
  }

  lemma OfSnoc(x: Extras, lookup: map<string, real>, source: Source, cs: seq<Candidate>, c: Candidate)
    ensures Bag(x, lookup, Of(source, cs + [c]))
            == Bag(x, lookup, Of(source, cs)) + if c.row.source == source then multiset{Final(x, lookup, c)} else multiset{}
  {
  }

  /** Splitting by source and scoring each part loses nothing and adds nothing. */
  lemma {:induction false} PartsMakeWhole(x: Extras, lookup: map<string, real>, cs: seq<Candidate>)
    ensures Bag(x, lookup, Of(SearchIndex, cs)) + Bag(x, lookup, Of(KbDocument, cs)) == Bag(x, lookup, cs)
  {
    if cs != [] {
      var front, last := cs[..|cs| - 1], cs[|cs| - 1];
      PartsMakeWhole(x, lookup, front);
      assert cs == front + [last];
      OfSnoc(x, lookup, SearchIndex, front, last);
      OfSnoc(x, lookup, KbDocument, front, last);
      BagSnoc(x, lookup, front, last);
      AddToEither(Bag(x, lookup, Of(SearchIndex, front)), Bag(x, lookup, Of(KbDocument, front)), multiset{Final(x, lookup, last)});
    }
  }

  lemma BagSnoc(x: Extras, lookup: map<string, real>, cs: seq<Candidate>, c: Candidate)
    ensures Bag(x, lookup, cs + [c]) == Bag(x, lookup, cs) + multiset{Final(x, lookup, c)}
  {
  }

  lemma AddToEither<T>(a: multiset<T>, b: multiset<T>, one: multiset<T>)
    ensures a + one + b == a + b + one && a + (b + one) == a + b + one
    ensures a + multiset{} == a && b + multiset{} == b
  {
  }

  /** Each candidate gets its new score and keeps its key and row. */
  lemma {:induction false} FinalsAt(x: Extras, lookup: map<string, real>, cs: seq<Candidate>)
    ensures |Finals(x, lookup, cs)| == |cs|
    ensures forall i :: 0 <= i < |cs| ==> var f := Finals(x, lookup, cs)[i]; f == Final(x, lookup, cs[i]) && f.key == cs[i].key && f.row == cs[i].row
  {
    if cs != [] {
      FinalsAt(x, lookup, cs[..|cs| - 1]);
    }
  }

  /** Scores the index rows it is given, sorts them and cuts them. */
  method EnrichRows(x: Extras, rows: seq<Candidate>, lookup: map<string, real>, limit: nat) returns (items: seq<Candidate>)
    requires forall i :: 0 <= i < |rows| ==> rows[i].row.source.SearchIndex?
    ensures items == Cut(SortByScore(Finals(x, lookup, Cut(rows, limit))), limit)
  {
    var taken := Cut(rows, limit);
    items := [];
    for i := 0 to |taken|
      invariant items == Finals(x, lookup, taken[..i])
    {
      assert taken[..i + 1][..i] == taken[..i];
      var c := taken[i];
      var score := if c.row.id in lookup then lookup[c.row.id] else 0.0;
      var chunk := x.chunk(c.row.id);
      if chunk.Some? && chunk.value > 0.0 {
        score := x.round4(if chunk.value > score then chunk.value else score);
      }
      if x.inFolder(c.row) {
        score := x.round4(score + 0.5);
      }
      items := items + [c.(score := score)];
    }
    assert taken[..|taken|] == taken;
    items := Cut(SortByScore(items), limit);
  }

  /** Splits the ranked candidates by source, noting the index rows' scores and scoring the documents on the way. */
  method SplitBySource(x: Extras, ranked: seq<Candidate>)
    returns (rows: seq<Candidate>, lookup: map<string, real>, docs: seq<Candidate>)
    ensures rows == Of(SearchIndex, ranked) && lookup == Lookup(ranked)
    ensures docs == Finals(x, lookup, Of(KbDocument, ranked))
    ensures forall k :: 0 <= k < |rows| ==> rows[k].row.source.SearchIndex?
  {
    rows, lookup, docs := [], map[], [];
    for i := 0 to |ranked|
      invariant rows == Of(SearchIndex, ranked[..i]) && lookup == Lookup(ranked[..i])
      invariant docs == Finals(x, Lookup(ranked), Of(KbDocument, ranked[..i]))
      invariant forall k :: 0 <= k < |rows| ==> rows[k].row.source.SearchIndex?
    {
      assert ranked[..i + 1][..i] == ranked[..i];
      var c := ranked[i];
      if c.row.source.SearchIndex? {
        rows := rows + [c];
        lookup := lookup[c.row.id := c.score];
      } else {
        ghost var before := Of(KbDocument, ranked[..i]);
        assert (before + [c])[..|before|] == before;
        docs := docs + [c.(score := x.round4(c.score))];
      }
    }
    assert ranked[..|ranked|] == ranked;
  }

  lemma SortedIsPermutation(s: seq<Candidate>, limit: nat)
    requires |s| <= limit
    ensures multiset(Cut(SortByScore(s), limit)) == multiset(s) && Descending(Cut(SortByScore(s), limit))
  {
    SortDescends(s);
  }

  /** Scores both parts and sorts them together. */
  method Assemble(x: Extras, ranked: seq<Candidate>, limit: nat) returns (items: seq<Candidate>)
    requires |ranked| <= limit
    ensures multiset(items) == multiset(Finals(x, Lookup(ranked), ranked))
    ensures Descending(items)
  {
    var rows, lookup, docs := SplitBySource(x, ranked);
    items := [];
    if rows != [] {
      items := EnrichRows(x, rows, lookup, limit);
    }
    ghost var scored := Finals(x, lookup, rows);
    FinalsAt(x, lookup, rows);
    SortedIsPermutation(scored, limit);
    PartsMakeWhole(x, lookup, ranked);
    FinalsAt(x, lookup, ranked);
    ghost var whole := Finals(x, lookup, ranked);
    items := items + docs;
    assert |items| == |multiset(items)| == |multiset(whole)| == |ranked|;
    SortedIsPermutation(items, limit);
    items := Cut(SortByScore(items), limit);
  }

  /**
   The semantic path from rows to prompt passages. What comes out are the `limit` best keys and no others, in
   non-increasing order of the new scores; nothing comes out when no row scores above zero.
   */
  method RelatedContext(x: Extras, index: seq<Row>, documents: seq<Row>, limit: nat)
    returns (items: seq<Candidate>, ghost ranked: seq<Candidate>)
    ensures IsTopK(Positive(ChatContext, index) + Positive(ChatContext, documents), limit, ranked)
    ensures multiset(items) == multiset(Finals(x, Lookup(ranked), ranked))
    ensures Descending(items)
  {
    var best := TopCandidates(ChatContext, index, documents, limit);
    ranked := best;
    items := Assemble(x, best, limit);
  }

  // ----- What the lookup by identifier does to a score -----

  /** The entry sits above another of the same identifier with a lower score. */
  ghost predicate Shadowed(ranked: seq<Candidate>, i: nat)
    requires i < |ranked|
  {
    exists j :: i < j < |ranked| && IsIndexRow(ranked[j], ranked[i].row.id) && ranked[j].score < ranked[i].score
  }

  predicate IsIndexRow(c: Candidate, id: string) { c.row.source.SearchIndex? && c.row.id == id }

  function LastOf(ranked: seq<Candidate>, id: string): (j: nat)
    ensures j <= |ranked| && (j < |ranked| ==> IsIndexRow(ranked[j], id))
    ensures forall k :: j < k < |ranked| ==> !IsIndexRow(ranked[k], id)
    ensures j == |ranked| ==> forall k :: 0 <= k < |ranked| ==> !IsIndexRow(ranked[k], id)
  {
    if ranked == [] then 0
    else
      var n := |ranked| - 1;
      if IsIndexRow(ranked[n], id) then n
      else
        var j := LastOf(ranked[..n], id);
        if j == n then |ranked| else j
  }

  lemma {:induction false} LookupFindsLast(ranked: seq<Candidate>, id: string)
    ensures id in Lookup(ranked) <==> LastOf(ranked, id) < |ranked|
    ensures id in Lookup(ranked) ==> Lookup(ranked)[id] == ranked[LastOf(ranked, id)].score
  {
    if ranked != [] {
      LookupFindsLast(ranked[..|ranked| - 1], id);
    }
  }

  /** An index row starts from less than its own score exactly when a lower entry of the same identifier, under another type, is also in the list. */
  lemma LoweredIffShadowed(ranked: seq<Candidate>, i: nat)
    requires Descending(ranked) && i < |ranked| && ranked[i].row.source.SearchIndex?
    ensures ranked[i].row.id in Lookup(ranked)
    ensures Lookup(ranked)[ranked[i].row.id] <= ranked[i].score
    ensures Lookup(ranked)[ranked[i].row.id] < ranked[i].score <==> Shadowed(ranked, i)
  {
    var id := ranked[i].row.id;
    LookupFindsLast(ranked, id);
    assert IsIndexRow(ranked[i], id);
    var j := LastOf(ranked, id);
    assert i <= j < |ranked| && ranked[j].score <= ranked[i].score;
    if ranked[j].score < ranked[i].score {
      assert i < j && IsIndexRow(ranked[j], id);
    }
    if k :| i < k < |ranked| && IsIndexRow(ranked[k], id) && ranked[k].score < ranked[i].score {
      assert ranked[j].score <= ranked[k].score;
    }
  }

  /**
   The new score of a ranked candidate. A document's is rounded. An index row starts from the score of the last index row
   listed with its identifier; a better paragraph lifts it, rounded, to the paragraph's; the folder asked for adds half a point.
   */
  lemma NewScore(x: Extras, ranked: seq<Candidate>, i: nat, j: nat)
    requires i < |ranked|
    requires ranked[i].row.source == SearchIndex ==>
      && i <= j < |ranked| && IsIndexRow(ranked[j], ranked[i].row.id)
      && forall k :: j < k < |ranked| ==> !IsIndexRow(ranked[k], ranked[i].row.id)
    ensures var row, score := ranked[i].row, Final(x, Lookup(ranked), ranked[i]).score;
      if row.source == KbDocument then score == x.round4(ranked[i].score)
      else
        var start, paragraph := ranked[j].score, if x.chunk(row.id).Some? then x.chunk(row.id).value else 0.0;
        var lifted := if paragraph <= 0.0 then start else x.round4(if paragraph > start then paragraph else start);
        score == if x.inFolder(row) then x.round4(lifted + 0.5) else lifted
  {
    if ranked[i].row.source == SearchIndex {
      LookupFindsLast(ranked, ranked[i].row.id);
      LastOfIs(ranked, ranked[i].row.id, j);
    }
  }

  lemma LastOfIs(ranked: seq<Candidate>, id: string, j: nat)
    requires j < |ranked| && IsIndexRow(ranked[j], id) && forall k :: j < k < |ranked| ==> !IsIndexRow(ranked[k], id)
    ensures LastOf(ranked, id) == j
  {
  }

  /** Two index rows of one identifier under two types: the better one starts from the score of the other. */
  lemma ShadowLowers(ranked: seq<Candidate>, a: Row, b: Row)
    requires a == Row(SearchIndex, Some("card"), "7", 0.9, false) && b == Row(SearchIndex, Some("note"), "7", 0.5, false)
    requires ranked == [ToCandidate(ChatContext, a), ToCandidate(ChatContext, b)]
    ensures Shadowed(ranked, 0) && ranked[0].key != ranked[1].key
    ensures "7" in Lookup(ranked) && Lookup(ranked)["7"] == 0.5 < ranked[0].score
  {
    assert IsIndexRow(ranked[1], ranked[0].row.id);
    assert ranked[0].key == "card:7" && ranked[1].key == "note:7" && ranked[0].key[0] == 'c' && ranked[1].key[0] == 'n';
    LookupFindsLast(ranked, "7");
    assert LastOf(ranked, "7") == 1;
  }

  /** Rounding to four decimals moves a number by at most half a unit of the fourth. */
  ghost predicate RoundsTo4(round4: real -> real) {
    forall v :: v - 0.00005 <= round4(v) <= v + 0.00005
  }

  /** Up to rounding, enrichment only raises scores of rows that are not shadowed, and a folder hit is worth half a point. */
  lemma EnrichmentRaises(x: Extras, ranked: seq<Candidate>, i: nat)
    requires RoundsTo4(x.round4) && Descending(ranked) && i < |ranked|
    requires ranked[i].row.source.SearchIndex? ==> !Shadowed(ranked, i)
    ensures var before, after := ranked[i].score, Final(x, Lookup(ranked), ranked[i]).score;
      && after >= before - 0.00005
      && (ranked[i].row.source.SearchIndex? && x.inFolder(ranked[i].row) ==> after >= before + 0.4999)
  {
    if ranked[i].row.source.SearchIndex? {
      LoweredIffShadowed(ranked, i);
    }
  }
}
