/** Finding JSON objects in a model's reply: brace blocks, a fenced block, and the longest candidate that parses. */
module BraceScanner {
  import opened Wrappers
  import opened Json
  import opened Text
  import opened FencedBlock

  datatype Span = Span(from: nat, to: nat)

  // ----- Blocks -----

  /** Opening minus closing braces among the first n characters. */
  function Height(s: string, n: nat): int
    requires n <= |s|
  {
    if n == 0 then 0 else Height(s, n - 1) + if s[n - 1] == '{' then 1 else if s[n - 1] == '}' then -1 else 0
  }

  /** A brace and the brace that closes it, with everything between. */
  ghost predicate Block(s: string, i: nat, j: nat) {
    && i < j <= |s| && s[i] == '{' && Height(s, j) == Height(s, i)
    && forall k :: i < k < j ==> Height(s, k) > Height(s, i)
  }

  ghost predicate Closed(s: string, u: nat, end: nat) {
    exists j: nat :: j <= end && Block(s, u, j)
  }

  /** No brace opened before n is still open at n. */
  ghost predicate Clean(s: string, n: nat)
    requires n <= |s|
  {
    forall u: nat :: u < n && s[u] == '{' ==> Closed(s, u, n)
  }

  ghost predicate Maximal(s: string, i: nat, j: nat) {
    forall a: nat, b: nat :: Block(s, a, b) && a <= i && j <= b ==> a == i && b == j
  }

  /** No brace before n is left open for good. */
  ghost predicate NoneOpenForever(s: string, n: nat)
    requires n <= |s|
  {
    forall u: nat :: u < n && s[u] == '{' ==> Closed(s, u, |s|)
  }

  /** Once the height is back, the block is closed. */
  lemma {:induction false} Returns(s: string, u: nat, m: nat)
    requires u < m <= |s| && s[u] == '{' && Height(s, m) <= Height(s, u)
    ensures Closed(s, u, m)
    decreases m
  {
    if k: nat :| u < k < m && Height(s, k) <= Height(s, u) {
      Returns(s, u, k);
      var j: nat :| j <= k && Block(s, u, j);
    } else {
      assert Height(s, u + 1) == Height(s, u) + 1;
      assert Block(s, u, m);
    }
  }

  /** What the scan reports, said of the text alone: a maximal block before the first brace that is never closed. */
  lemma ReportedIff(s: string, i: nat, j: nat)
    requires Block(s, i, j)
    ensures Clean(s, i) <==> Maximal(s, i, j) && NoneOpenForever(s, i)
  {
  }

  // ----- The scan -----

  ghost predicate Reported(s: string, n: nat, spans: seq<Span>)
    requires n <= |s|
  {
    && (forall k :: 0 <= k < |spans| ==> spans[k].from < spans[k].to <= n)
    && (forall i: nat, j: nat :: Span(i, j) in spans <==> j <= n && Block(s, i, j) && Clean(s, i))
    && forall a, b :: 0 <= a < b < |spans| ==> spans[a].to <= spans[b].from
  }

  /** A block that is open at n: it starts clean and the height has stayed above it. */
  ghost predicate OpenSince(s: string, start: nat, n: nat)
    requires n <= |s|
  {
    start < n && s[start] == '{' && Clean(s, start) && forall k :: start < k <= n ==> Height(s, k) > Height(s, start)
  }

  lemma CleanAgain(s: string, n: nat, start: nat)
    requires n < |s| && OpenSince(s, start, n) && Height(s, n + 1) == Height(s, start)
    ensures Block(s, start, n + 1) && Clean(s, n + 1)
  {
    assert Block(s, start, n + 1);
    forall u: nat | u < n + 1 && s[u] == '{' ensures Closed(s, u, n + 1) {
      if u < start {
        assert Closed(s, u, start);
      } else if u > start {
        Returns(s, u, n + 1);
      }
    }
  }

  /** All maximal blocks before the first brace that is never closed, and nothing else, from left to right. */
  ghost predicate AreMaximalBlocks(s: string, spans: seq<Span>) {
    && (forall k :: 0 <= k < |spans| ==> Block(s, spans[k].from, spans[k].to))
    && (forall i: nat, j: nat :: Block(s, i, j) ==> (Span(i, j) in spans <==> Maximal(s, i, j) && NoneOpenForever(s, i)))
    && forall a, b :: 0 <= a < b < |spans| ==> spans[a].to <= spans[b].from
  }

  lemma ReportedAreMaximal(s: string, spans: seq<Span>)
    requires Reported(s, |s|, spans)
    ensures AreMaximalBlocks(s, spans)
  {
    forall k | 0 <= k < |spans| ensures Block(s, spans[k].from, spans[k].to) {
      assert Span(spans[k].from, spans[k].to) in spans;
    }
    forall i: nat, j: nat | Block(s, i, j) ensures Span(i, j) in spans <==> Maximal(s, i, j) && NoneOpenForever(s, i) {
      ReportedIff(s, i, j);
    }
  }

  /** The texts of the spans. */
  ghost predicate AreCuts(s: string, spans: seq<Span>, texts: seq<string>) {
    |texts| == |spans|
    && forall k :: 0 <= k < |spans| ==> spans[k].from <= spans[k].to <= |s| && texts[k] == s[spans[k].from..spans[k].to]
  }

  /** The texts of all maximal blocks before the first brace that is never closed, from left to right. */
  ghost predicate AreReported(s: string, texts: seq<string>) {
    exists spans :: AreMaximalBlocks(s, spans) && AreCuts(s, spans, texts)
  }

  /** Where the scan stands after n characters. */
  ghost predicate Scanned(s: string, n: nat, depth: int, start: int, spans: seq<Span>)
    requires n <= |s|
  {
    && Reported(s, n, spans)
    && if depth == 0 then start == -1 && Clean(s, n)
       else depth > 0 && 0 <= start && OpenSince(s, start, n) && depth == Height(s, n) - Height(s, start)
  }

  lemma ScanCloses(s: string, n: nat, depth: int, start: int, spans: seq<Span>)
    requires n < |s| && Scanned(s, n, depth, start, spans) && s[n] == '}' && depth > 0
    ensures depth == 1 ==> start <= n && Scanned(s, n + 1, 0, -1, spans + [Span(start, n + 1)])
    ensures depth > 1 ==> Scanned(s, n + 1, depth - 1, start, spans)
  {
    if depth == 1 {
      CleanAgain(s, n, start);
    } else {
    }
  }

  lemma ScanPasses(s: string, n: nat, depth: int, start: int, spans: seq<Span>)
    requires n < |s| && Scanned(s, n, depth, start, spans) && s[n] != '{' && (s[n] != '}' || depth == 0)
    ensures Scanned(s, n + 1, depth, start, spans)
  {
  }

  /** One pass over the text; it collects the maximal blocks before the first brace that is never closed. */
  method ScanBlocks(text: string) returns (candidates: seq<string>)
    ensures AreReported(text, candidates)
  {
    candidates := [];
    ghost var spans := [];
    var depth, start := 0, -1;
    for n := 0 to |text|
      invariant Scanned(text, n, depth, start, spans)
      invariant AreCuts(text, spans, candidates)
    {
      if text[n] == '{' {
        if depth == 0 {
          start := n;
        }
        depth := depth + 1;
      } else if text[n] == '}' && depth > 0 {
        ScanCloses(text, n, depth, start, spans);
        depth := depth - 1;
        if depth == 0 && start >= 0 {
          candidates := candidates + [text[start..n + 1]];
          spans := spans + [Span(start, n + 1)];
          start := -1;
        }
      } else {
        ScanPasses(text, n, depth, start, spans);
      }
    }
    ReportedAreMaximal(text, spans);
  }

  /** A brace that is never closed hides every block behind it. */
  lemma StrayBraceHides(s: string, spans: seq<Span>, u: nat)
    requires AreMaximalBlocks(s, spans) && u < |s| && s[u] == '{' && !Closed(s, u, |s|)
    ensures forall k :: 0 <= k < |spans| ==> spans[k].to <= u
  {
    forall k | 0 <= k < |spans| ensures spans[k].to <= u {
      var i, j := spans[k].from, spans[k].to;
      assert Span(i, j) in spans;
      if j > u {
        HiddenBehind(s, u, i, j);
      }
    }
  }

  lemma HiddenBehind(s: string, u: nat, i: nat, j: nat)
    requires u < |s| && s[u] == '{' && !Closed(s, u, |s|) && Block(s, i, j) && u < j
    ensures !Clean(s, i)
  {
    ReportedIff(s, i, j);
    if i < u {
      Returns(s, u, j);
    }
  }

  // ----- The choice -----

  predicate IsDict(host: Host, c: string) { host.parse(c).Some? && host.parse(c).value.Obj? }

  /** Python's `sort(key=len, reverse=True)`: stable. */
  function InsertByLength(t: seq<string>, c: string): seq<string> {
    if t == [] || |t[|t| - 1]| >= |c| then t + [c] else InsertByLength(t[..|t| - 1], c) + [t[|t| - 1]]
  }

  function SortByLength(cs: seq<string>): seq<string> {
    if cs == [] then [] else InsertByLength(SortByLength(cs[..|cs| - 1]), cs[|cs| - 1])
  }

  function FirstDict(host: Host, cs: seq<string>): Option<string> {
    if cs == [] then None else if IsDict(host, cs[0]) then Some(cs[0]) else FirstDict(host, cs[1..])
  }

  ghost predicate ByLength(t: seq<string>) {
    forall i, j :: 0 <= i < j < |t| ==> |t[i]| >= |t[j]|
  }

  /** Position k holds an object, no object is longer, and none before it is as long. */
  ghost predicate Wins(host: Host, cs: seq<string>, k: nat) {
    && k < |cs| && IsDict(host, cs[k])
    && (forall m :: 0 <= m < |cs| && IsDict(host, cs[m]) ==> |cs[m]| <= |cs[k]|)
    && forall m :: 0 <= m < k && IsDict(host, cs[m]) ==> |cs[m]| < |cs[k]|
  }

  /** The longest candidate that is an object, the first of equals; none if none is. */
  ghost predicate IsChoice(host: Host, cs: seq<string>, r: Option<string>) {
    match r
    case None => forall m :: 0 <= m < |cs| ==> !IsDict(host, cs[m])
    case Some(c) => exists k: nat :: Wins(host, cs, k) && cs[k] == c
  }

  lemma {:induction false} FirstDictSnoc(host: Host, t: seq<string>, c: string)
    ensures FirstDict(host, t + [c]) == if FirstDict(host, t).Some? then FirstDict(host, t) else if IsDict(host, c) then Some(c) else None
  {
    if t != [] {
      assert (t + [c])[1..] == t[1..] + [c];
      FirstDictSnoc(host, t[1..], c);
    }
  }

  lemma {:induction false} FirstDictIn(host: Host, t: seq<string>)
    ensures FirstDict(host, t).Some? ==> FirstDict(host, t).value in t
  {
    if t != [] {
      FirstDictIn(host, t[1..]);
    }
  }

  lemma {:induction false} InsertKeepsLengths(t: seq<string>, c: string)
    requires ByLength(t)
    ensures var r := InsertByLength(t, c); ByLength(r) && forall x :: x in r ==> x in t || x == c
  {
    if t != [] && |t[|t| - 1]| < |c| {
      var front, last := t[..|t| - 1], t[|t| - 1];
      InsertKeepsLengths(front, c);
      var r := InsertByLength(front, c);
      forall i | 0 <= i < |r| ensures |r[i]| >= |last| {
        assert r[i] in r;
      }
    }
  }

  lemma {:induction false} InsertAndFirst(host: Host, t: seq<string>, c: string)
    requires ByLength(t)
    ensures var f := FirstDict(host, t);
      FirstDict(host, InsertByLength(t, c)) == if IsDict(host, c) && (f.None? || |c| > |f.value|) then Some(c) else f
  {
    if t == [] || |t[|t| - 1]| >= |c| {
      FirstDictSnoc(host, t, c);
      FirstDictIn(host, t);
    } else {
      var front, last := t[..|t| - 1], t[|t| - 1];
      assert t == front + [last];
      InsertAndFirst(host, front, c);
      FirstDictSnoc(host, front, last);
      FirstDictSnoc(host, InsertByLength(front, c), last);
    }
  }

  /** Sorting by length and taking the first object is taking the longest object. */
  lemma {:induction false} SortedScanChooses(host: Host, cs: seq<string>)
    ensures ByLength(SortByLength(cs))
    ensures IsChoice(host, cs, FirstDict(host, SortByLength(cs)))
  {
    if cs != [] {
      var front, last := cs[..|cs| - 1], cs[|cs| - 1];
      SortedScanChooses(host, front);
      InsertKeepsLengths(SortByLength(front), last);
      InsertAndFirst(host, SortByLength(front), last);
      ChoiceSnoc(host, front, last, FirstDict(host, SortByLength(front)));
      assert cs == front + [last];
    }
  }

  lemma ChoiceSnoc(host: Host, cs: seq<string>, c: string, f: Option<string>)
    requires IsChoice(host, cs, f)
    ensures IsChoice(host, cs + [c], if IsDict(host, c) && (f.None? || |c| > |f.value|) then Some(c) else f)
  {
    var all := cs + [c];
    if IsDict(host, c) && (f.None? || |c| > |f.value|) {
      assert Wins(host, all, |cs|);
    } else if f.Some? {
      var k: nat :| Wins(host, cs, k) && cs[k] == f.value;
      assert Wins(host, all, k);
    }
  }

  /** The fenced block first, then the texts of the reported blocks. */
  ghost predicate AreCandidates(text: string, candidates: seq<string>) {
    var fenced := FencedOf(text);
    fenced <= candidates && AreReported(text, candidates[|fenced|..])
  }

  method FirstObject(host: Host, sorted: seq<string>) returns (r: Option<Json>)
    ensures var first := FirstDict(host, sorted); r == if first.Some? then host.parse(first.value) else None
  {
    r := None;
    for k := 0 to |sorted|
      invariant FirstDict(host, sorted) == FirstDict(host, sorted[k..])
    {
      var obj := host.parse(sorted[k]);
      if obj.Some? && obj.value.Obj? {
        return obj;
      }
      assert sorted[k..][1..] == sorted[k + 1..];
    }
  }

  /** What a stripped reply is read as: the object that the longest parsing candidate denotes. */
  ghost predicate IsReading(host: Host, text: string, r: Option<Json>) {
    exists candidates :: AreCandidates(text, candidates) && ReadsLongest(host, candidates, r)
  }

  ghost predicate ReadsLongest(host: Host, candidates: seq<string>, r: Option<Json>) {
    exists chosen :: IsChoice(host, candidates, chosen) && r == if chosen.Some? then host.parse(chosen.value) else None
  }

  /** The fenced block as a list of at most one. */
  function FencedOf(text: string): seq<string> {
    if Fenced(text).Some? then [Fenced(text).value] else []
  }

  lemma FencedThenBlocks(text: string, blocks: seq<string>)
    requires AreReported(text, blocks)
    ensures AreCandidates(text, FencedOf(text) + blocks)
  {
    assert (FencedOf(text) + blocks)[|FencedOf(text)|..] == blocks;
  }

  lemma SortedReadsLongest(host: Host, text: string, candidates: seq<string>)
    requires AreCandidates(text, candidates)
    ensures var first := FirstDict(host, SortByLength(candidates));
      IsReading(host, text, if first.Some? then host.parse(first.value) else None)
  {
    SortedScanChooses(host, candidates);
  }

  /** The candidates are the fenced block and the maximal brace blocks of the stripped text. */
  method CoerceJsonPayload(host: Host, rawText: string) returns (r: Option<Json>)
    ensures IsReading(host, Trim(IsPySpace, rawText), r)
  {
    if rawText == "" {
      NothingInNothing(host);
      return None;
    }
    var text := Trim(IsPySpace, rawText);
    var candidates := FencedOf(text);
    var blocks := ScanBlocks(text);
    FencedThenBlocks(text, blocks);
    candidates := candidates + blocks;
    SortedReadsLongest(host, text, candidates);
    r := FirstObject(host, SortByLength(candidates));
  }

  lemma NothingInNothing(host: Host)
    ensures IsReading(host, "", None)
  {
    assert IsChoice(host, [], None);
    assert AreMaximalBlocks("", []) && AreCuts("", [], []);
    assert AreCandidates("", []);
  }

  // ----- When the largest object is found -----

  /** A reported block: nothing encloses it, and no brace in front of it stays open. */
  ghost predicate Visible(s: string, i: nat, j: nat) {
    Block(s, i, j) && Maximal(s, i, j) && NoneOpenForever(s, i)
  }

  ghost predicate VisibleText(s: string, c: string) {
    exists i: nat, j: nat :: Visible(s, i, j) && c == s[i..j]
  }

  lemma VisibleIsReported(s: string, spans: seq<Span>, texts: seq<string>, i: nat, j: nat)
    requires AreMaximalBlocks(s, spans) && AreCuts(s, spans, texts) && Visible(s, i, j)
    ensures s[i..j] in texts
  {
    var k :| 0 <= k < |spans| && spans[k] == Span(i, j);
    assert texts[k] == s[i..j];
  }

  lemma ReportedIsVisible(s: string, spans: seq<Span>, k: nat)
    requires AreMaximalBlocks(s, spans) && k < |spans|
    ensures Visible(s, spans[k].from, spans[k].to)
  {
    assert spans[k] == Span(spans[k].from, spans[k].to);
  }

  /** The candidates are the fenced block and the texts of the visible blocks. */
  lemma CandidatesAre(s: string, candidates: seq<string>)
    requires AreCandidates(s, candidates)
    ensures forall c :: c in candidates <==> Fenced(s) == Some(c) || VisibleText(s, c)
  {
    var rest := candidates[|FencedOf(s)|..];
    Cut(FencedOf(s), candidates);
    RestIsVisible(s, rest);
    OneOrNone(Fenced(s), FencedOf(s));
    InEither(FencedOf(s), rest);
  }

  lemma Cut(a: seq<string>, all: seq<string>)
    requires a <= all
    ensures all == a + all[|a|..]
  {
  }

  lemma OneOrNone(o: Option<string>, l: seq<string>)
    requires l == if o.Some? then [o.value] else []
    ensures forall c :: c in l <==> o == Some(c)
  {
  }

  lemma InEither(a: seq<string>, b: seq<string>)
    ensures forall c :: c in a + b <==> c in a || c in b
  {
  }

  lemma RestIsVisible(s: string, texts: seq<string>)
    requires AreReported(s, texts)
    ensures forall c :: c in texts <==> VisibleText(s, c)
  {
    var spans: seq<Span> :| AreMaximalBlocks(s, spans) && AreCuts(s, spans, texts);
    TextsAreVisible(s, spans, texts);
  }

  lemma TextsAreVisible(s: string, spans: seq<Span>, texts: seq<string>)
    requires AreMaximalBlocks(s, spans) && AreCuts(s, spans, texts)
    ensures forall c :: c in texts <==> VisibleText(s, c)
  {
    forall c | c in texts ensures VisibleText(s, c) {
      var k: nat :| k < |texts| && texts[k] == c;
      ReportedIsVisible(s, spans, k);
    }
    forall c | VisibleText(s, c) ensures c in texts {
      var i: nat, j: nat :| Visible(s, i, j) && c == s[i..j];
      VisibleIsReported(s, spans, texts, i, j);
    }
  }

  ghost predicate Candidate(s: string, c: string) {
    Fenced(s) == Some(c) || VisibleText(s, c)
  }

  /** What is chosen is a candidate and an object, and no candidate that is one is longer. */
  ghost predicate Best(host: Host, s: string, chosen: Option<string>) {
    && (chosen.Some? ==> Candidate(s, chosen.value) && IsDict(host, chosen.value))
    && forall c :: Candidate(s, c) && IsDict(host, c) ==> chosen.Some? && |c| <= |chosen.value|
  }

  lemma ChoiceIsBest(host: Host, s: string, candidates: seq<string>, chosen: Option<string>)
    requires AreCandidates(s, candidates) && IsChoice(host, candidates, chosen)
    ensures Best(host, s, chosen)
  {
    CandidatesAre(s, candidates);
    forall c | Candidate(s, c) && IsDict(host, c) ensures chosen.Some? && |c| <= |chosen.value| {
      var m: nat :| m < |candidates| && candidates[m] == c;
    }
  }

  /** What a reply is read as is what the best candidate denotes. */
  lemma ReadingIsBest(host: Host, text: string, r: Option<Json>) returns (chosen: Option<string>)
    ensures IsReading(host, text, r) ==> Best(host, text, chosen) && r == if chosen.Some? then host.parse(chosen.value) else None
  {
    chosen := None;
    if IsReading(host, text, r) {
      var candidates :| AreCandidates(text, candidates) && ReadsLongest(host, candidates, r);
      chosen :| IsChoice(host, candidates, chosen) && r == if chosen.Some? then host.parse(chosen.value) else None;
      ChoiceIsBest(host, text, candidates, chosen);
    }
  }

  /** A block that is an object, with none larger in the text. */
  ghost predicate Largest(host: Host, s: string, i: nat, j: nat) {
    && Block(s, i, j) && IsDict(host, s[i..j])
    && forall a: nat, b: nat :: Block(s, a, b) && IsDict(host, s[a..b]) ==> b - a <= j - i
  }

  lemma VisibleIsNoLarger(host: Host, s: string, i: nat, j: nat, c: string)
    requires Largest(host, s, i, j) && VisibleText(s, c) && IsDict(host, c)
    ensures |c| <= j - i
  {
    var a: nat, b: nat :| Visible(s, a, b) && c == s[a..b];
  }

  /**
   The object that is returned is as large as the largest one in the text exactly if one of that size is visible, which
   means that no block encloses it and no brace in front of it stays open, or the fenced block is an object that makes up for it.
   */
  lemma LargestIsFoundIff(host: Host, s: string, chosen: Option<string>, i: nat, j: nat)
    requires Largest(host, s, i, j) && Best(host, s, chosen)
    ensures chosen.Some? && |chosen.value| >= j - i
       <==> || (exists c :: VisibleText(s, c) && IsDict(host, c) && |c| == j - i)
            || (Fenced(s).Some? && IsDict(host, Fenced(s).value) && |Fenced(s).value| >= j - i)
  {
    if chosen.Some? && VisibleText(s, chosen.value) {
      VisibleIsNoLarger(host, s, i, j, chosen.value);
    }
  }

  lemma WholeIsVisible(s: string)
    ensures VisibleText(s, s) <==> Block(s, 0, |s|)
  {
    assert s[0..|s|] == s;
    if Block(s, 0, |s|) {
      assert Visible(s, 0, |s|);
    }
    if VisibleText(s, s) {
      var i: nat, j: nat :| Visible(s, i, j) && s == s[i..j];
      assert i == 0 && j == |s|;
    }
  }

  /** No candidate is longer than the text, and only the text itself is as long. */
  lemma CandidatesAreParts(s: string, c: string)
    requires Candidate(s, c)
    ensures |c| < |s| || c == s
  {
    FencedIsShorter(s);
    if VisibleText(s, c) {
      var i: nat, j: nat :| Visible(s, i, j) && c == s[i..j];
    }
  }

  /**
   A reply that is an object as a whole is chosen exactly if its first brace is closed by its last, braces inside strings
   counted like the others; the fenced block cannot help, as it is never the whole text. Anything else chosen is shorter.
   */
  lemma WholeReplyIff(host: Host, text: string, chosen: Option<string>)
    requires IsDict(host, text) && Best(host, text, chosen)
    ensures chosen == Some(text) <==> Block(text, 0, |text|)
    ensures chosen.None? || chosen == Some(text) || |chosen.value| < |text|
  {
    WholeIsVisible(text);
    FencedIsShorter(text);
    if chosen.Some? {
      CandidatesAreParts(text, chosen.value);
    }
  }

  /** So such a reply is read as what it is, or else as what a shorter part of it is, or not at all. */
  lemma WholeReplyIsRead(host: Host, text: string, r: Option<Json>)
    requires IsDict(host, text)
    ensures IsReading(host, text, r) ==>
      if Block(text, 0, |text|) then r == host.parse(text)
      else r.None? || exists c :: |c| < |text| && IsDict(host, c) && r == host.parse(c)
  {
    if IsReading(host, text, r) {
      var chosen := ReadingIsBest(host, text, r);
      WholeReplyIff(host, text, chosen);
    }
  }

  // ----- Three ways to miss an object -----

  /** One stray brace in front, and there is no candidate left. */
  lemma LargestCanBeMissed(s: string, spans: seq<Span>)
    requires s == "{ {}" && AreMaximalBlocks(s, spans)
    ensures Block(s, 2, 4) && spans == []
  {
    assert Height(s, 0) == 0;
    assert Height(s, 1) == 1;
    assert Height(s, 2) == 1;
    assert Height(s, 3) == 2;
    assert Height(s, 4) == 1;
    assert !Closed(s, 0, |s|);
    StrayBraceHides(s, spans, 0);
    assert |spans| > 0 ==> spans[0].to > 0;
  }

  lemma WholeSlice(s: string)
    ensures s[0..|s|] == s
  {
  }

  lemma NestedBlocks(s: string)
    requires s == "{x{}}"
    ensures |s| == 5 && forall i: nat, j: nat :: Block(s, i, j) <==> (i == 0 && j == 5) || (i == 2 && j == 4)
  {
    assert Height(s, 0) == 0;
    assert Height(s, 1) == 1;
    assert Height(s, 2) == 1;
    assert Height(s, 3) == 2;
    assert Height(s, 4) == 1;
    assert Height(s, 5) == 0;
  }

  /** Only the outer block is visible. */
  lemma NestedVisible(s: string, c: string)
    requires s == "{x{}}" && VisibleText(s, c)
    ensures c == s
  {
    NestedBlocks(s);
    WholeSlice(s);
    var i: nat, j: nat :| Visible(s, i, j) && c == s[i..j];
    assert Block(s, 0, 5) && (i == 0 ==> j == 5);
  }

  lemma NestedLargest(host: Host, s: string)
    requires s == "{x{}}" && IsDict(host, s[2..4]) && !IsDict(host, s)
    ensures Largest(host, s, 2, 4)
  {
    NestedBlocks(s);
    WholeSlice(s);
  }

  lemma NestedNoneOpen(s: string)
    requires s == "{x{}}"
    ensures NoneOpenForever(s, |s|)
  {
    NestedBlocks(s);
    assert Block(s, 0, 5) && Block(s, 2, 4);
    assert Closed(s, 0, 5) && Closed(s, 2, 5);
  }

  /** Every brace is closed, but the object lies inside a block that is none. */
  lemma NestedObjectIsMissed(host: Host, s: string, chosen: Option<string>)
    requires s == "{x{}}" && IsDict(host, s[2..4]) && !IsDict(host, s) && Best(host, s, chosen)
    ensures NoneOpenForever(s, |s|) && Largest(host, s, 2, 4) && chosen.None?
  {
    NestedNoneOpen(s);
    NestedLargest(host, s);
    NoTicksNoFence(s);
    if chosen.Some? {
      NestedVisible(s, chosen.value);
    }
  }

  lemma CutBlocks(s: string)
    requires s == "{\"a\":\"}\"}"
    ensures |s| == 9 && forall i: nat, j: nat :: Block(s, i, j) <==> i == 0 && j == 7
  {
    assert Height(s, 0) == 0;
    assert Height(s, 1) == 1;
    assert Height(s, 2) == 1;
    assert Height(s, 3) == 1;
    assert Height(s, 4) == 1;
    assert Height(s, 5) == 1;
    assert Height(s, 6) == 1;
    assert Height(s, 7) == 0;
  }

  /** A reply that is an object as a whole, with a closing brace inside a string: it is cut there, and lost. */
  lemma BraceInStringIsMissed(host: Host, s: string, chosen: Option<string>)
    requires s == "{\"a\":\"}\"}" && IsDict(host, s) && !IsDict(host, s[..7]) && Best(host, s, chosen)
    ensures NoneOpenForever(s, |s|) && !Block(s, 0, |s|) && chosen.None?
  {
    CutBlocks(s);
    WholeIsNoBlock(s);
    NoTicksNoFence(s);
    if chosen.Some? {
      CutVisible(s, chosen.value);
    }
  }

  lemma CutVisible(s: string, c: string)
    requires s == "{\"a\":\"}\"}" && VisibleText(s, c)
    ensures c == s[..7]
  {
    CutBlocks(s);
    var i: nat, j: nat :| Visible(s, i, j) && c == s[i..j];
    assert i == 0 && j == 7;
  }

  lemma WholeIsNoBlock(s: string)
    requires s == "{\"a\":\"}\"}"
    ensures NoneOpenForever(s, |s|) && !Block(s, 0, |s|)
  {
    CutBlocks(s);
    assert Block(s, 0, 7) && Closed(s, 0, 9);
  }
}
