/** Cutting a text into sentences: at every run of end marks, which stays with the sentence before it. */
module Sentences {
  import opened Text

  predicate IsMark(c: char) { c == '.' || c == '!' || c == '?' || c == '\U{3002}' || c == '\U{ff01}' || c == '\U{ff1f}' }

  function Strip(s: string): (r: string)
    ensures |r| <= |s|
  {
    Trim(IsPySpace, s)
  }

  /** Length of the longest prefix whose characters are all marks, or all something else. */
  function Span(marks: bool, s: string): (n: nat)
    ensures n <= |s|
    ensures forall k :: 0 <= k < n ==> IsMark(s[k]) == marks
    ensures n < |s| ==> IsMark(s[n]) != marks
  {
    if s == "" || IsMark(s[0]) != marks then 0 else 1 + Span(marks, s[1..])
  }

  predicate HasMark(s: string) { Span(false, s) < |s| }

  /** Where the first sentence ends: behind the first run of marks. */
  function End(s: string): (n: nat)
    ensures Span(false, s) <= n <= |s| && (HasMark(s) ==> 0 < n && IsMark(s[n - 1])) && (!HasMark(s) ==> n == |s|)
  {
    var i := Span(false, s);
    var j := Span(true, s[i..]);
    assert i < |s| ==> IsMark(s[i..][0]);
    assert j > 0 ==> s[i + j - 1] == s[i..][j - 1];
    i + j
  }

  /** Python's `re.split` with the run of marks captured: text, run, text, run, ..., text. */
  function SplitAtMarks(s: string): (parts: seq<string>)
    ensures |parts| % 2 == 1
    decreases |s|
  {
    if !HasMark(s) then [s] else [s[..Span(false, s)], s[Span(false, s)..End(s)]] + SplitAtMarks(s[End(s)..])
  }

  function AddPiece(result: seq<string>, piece: string): seq<string> {
    if piece == "" then result else result + [piece]
  }

  /** From part i on, puts each run back behind its text; a piece that is blank is dropped. */
  function Recombine(parts: seq<string>, i: nat): seq<string>
    requires |parts| % 2 == 1 && i % 2 == 0 && i < |parts|
    decreases |parts| - i
  {
    if i == |parts| - 1 then AddPiece([], Strip(parts[i]))
    else AddPiece([], Strip(parts[i] + parts[i + 1])) + Recombine(parts, i + 2)
  }

  function Pieces(text: string): seq<string> { Recombine(SplitAtMarks(text), 0) }

  lemma AddThenAppend(result: seq<string>, piece: string, rest: seq<string>)
    ensures AddPiece(result, piece) + rest == result + (AddPiece([], piece) + rest)
  {
  }

  method ExtractSentences(text: string) returns (result: seq<string>)
    ensures result == Pieces(text)
  {
    var parts := SplitAtMarks(text);
    result := [];
    var i := 0;
    while i < |parts| - 1
      invariant 0 <= i < |parts| && i % 2 == 0
      invariant result + Recombine(parts, i) == Recombine(parts, 0)
    {
      var sentence := Strip(parts[i] + parts[i + 1]);
      AddThenAppend(result, sentence, Recombine(parts, i + 2));
      if sentence != "" {
        result := result + [sentence];
      }
      i := i + 2;
    }
    AddThenAppend(result, Strip(parts[i]), []);
    if |parts| % 2 == 1 && Strip(parts[|parts| - 1]) != "" {
      result := result + [Strip(parts[|parts| - 1])];
    }
  }

  // ----- Stripping -----

  function Dense(s: string): string {
    if s == "" then "" else (if IsPySpace(s[0]) then "" else [s[0]]) + Dense(s[1..])
  }

  lemma {:induction false} DenseSplits(a: string, b: string)
    ensures Dense(a + b) == Dense(a) + Dense(b)
  {
    if a == "" {
      assert a + b == b;
    } else {
      assert (a + b)[1..] == a[1..] + b;
      DenseSplits(a[1..], b);
    }
  }

  lemma {:induction false} TrimLeftFacts(s: string)
    ensures var r := TrimLeft(IsPySpace, s); Dense(r) == Dense(s) && (r != "" ==> !IsPySpace(r[0]))
  {
    if s != "" && IsPySpace(s[0]) {
      TrimLeftFacts(s[1..]);
    }
  }

  lemma {:induction false} TrimRightFacts(s: string)
    ensures var r := TrimRight(IsPySpace, s); Dense(r) == Dense(s) && r <= s && (r != "" ==> !IsPySpace(r[|r| - 1]))
  {
    if s != "" && IsPySpace(s[|s| - 1]) {
      var n := |s| - 1;
      TrimRightFacts(s[..n]);
      assert s == s[..n] + [s[n]];
      DenseSplits(s[..n], [s[n]]);
    }
  }

  /** Stripping removes white space only, and all of it at both ends. */
  lemma StripFacts(s: string)
    ensures Dense(Strip(s)) == Dense(s) && Trimmed(IsPySpace, Strip(s))
  {
    TrimLeftFacts(s);
    TrimRightFacts(TrimLeft(IsPySpace, s));
  }

  lemma MarkSurvives(s: string)
    requires s != "" && IsMark(s[|s| - 1])
    ensures Strip(s) != ""
  {
    StripFacts(s);
    assert s == s[..|s| - 1] + [s[|s| - 1]];
    DenseSplits(s[..|s| - 1], [s[|s| - 1]]);
    assert Dense([s[|s| - 1]]) == [s[|s| - 1]];
  }

  lemma {:induction false} RecombineShifts(a: string, b: string, parts: seq<string>, i: nat)
    requires |parts| % 2 == 1 && i % 2 == 0 && i < |parts|
    ensures Recombine([a, b] + parts, i + 2) == Recombine(parts, i)
    decreases |parts| - i
  {
    if i < |parts| - 1 {
      RecombineShifts(a, b, parts, i + 2);
    }
  }

  /** The sentences of a text, one at a time. */
  lemma PiecesUnfold(s: string)
    ensures !HasMark(s) ==> Pieces(s) == if Strip(s) == "" then [] else [Strip(s)]
    ensures HasMark(s) ==> Strip(s[..End(s)]) != "" && Pieces(s) == [Strip(s[..End(s)])] + Pieces(s[End(s)..])
  {
    if HasMark(s) {
      MarkSurvives(s[..End(s)]);
      var i := Span(false, s);
      assert s[..i] + s[i..End(s)] == s[..End(s)];
      RecombineShifts(s[..i], s[i..End(s)], SplitAtMarks(s[End(s)..]), 0);
    }
  }

  // ----- Nothing is lost -----

  /** The characters that are not white space come out as they went in, in order. */
  lemma {:induction false} SentencesConserve(text: string)
    ensures Dense(Concat(Pieces(text))) == Dense(text)
    decreases |text|
  {
    PiecesUnfold(text);
    if HasMark(text) {
      var head, tail := text[..End(text)], text[End(text)..];
      SentencesConserve(tail);
      StripFacts(head);
      assert text == head + tail;
      DenseSplits(head, tail);
      ConcatCons(Strip(head), Pieces(tail));
      DenseSplits(Strip(head), Concat(Pieces(tail)));
    } else {
      StripFacts(text);
      ConcatCons(Strip(text), []);
    }
  }

  lemma ConcatCons(p: string, ps: seq<string>)
    ensures Concat([p] + ps) == p + Concat(ps) && Concat([p]) == p
  {
  }

  // ----- What a list of sentences looks like -----

  /** Ends are not white space, marks stand only at the end, and there they must stand unless nothing follows. */
  predicate IsSentence(p: string, last: bool) {
    p != "" && Trimmed(IsPySpace, p) && End(p) == |p| && (HasMark(p) || last)
  }

  predicate WellFormed(ps: seq<string>) {
    ps == [] || (IsSentence(ps[0], |ps| == 1) && WellFormed(ps[1..]))
  }

  function Join(ps: seq<string>): string {
    if ps == [] then "" else if |ps| == 1 then ps[0] else ps[0] + " " + Join(ps[1..])
  }

  lemma SpanOf(marks: bool, s: string, n: nat)
    requires n <= |s| && (forall k :: 0 <= k < n ==> IsMark(s[k]) == marks) && (n < |s| ==> IsMark(s[n]) != marks)
    ensures Span(marks, s) == n
  {
  }

  /** What follows a run of marks does not change where it ends. */
  lemma EndOfPrefix(p: string, rest: string)
    requires HasMark(p) && End(p) == |p| && (rest != "" ==> !IsMark(rest[0]))
    ensures HasMark(p + rest) && End(p + rest) == |p|
  {
    var i, s := Span(false, p), p + rest;
    SpanOf(false, s, i);
    assert s[i..] == p[i..] + rest;
    SpanOf(true, p[i..] + rest, |p| - i);
  }

  /** Reading one sentence off the front. */
  lemma PiecesStep(p: string, rest: string)
    requires IsSentence(p, false) && (rest != "" ==> !IsMark(rest[0]))
    ensures Pieces(p + rest) == [p] + Pieces(rest)
  {
    EndOfPrefix(p, rest);
    PiecesUnfold(p + rest);
    assert (p + rest)[..|p|] == p && (p + rest)[|p|..] == rest;
  }

  lemma EndShifts(t: string)
    ensures HasMark(" " + t) == HasMark(t) && End(" " + t) == 1 + End(t)
  {
  }

  lemma HeadIgnoresFront(t: string)
    requires HasMark(t)
    ensures HasMark(" " + t) && Strip((" " + t)[..End(" " + t)]) == Strip(t[..End(t)]) && (" " + t)[End(" " + t)..] == t[End(t)..]
  {
    EndShifts(t);
    assert (" " + t)[..1 + End(t)] == " " + t[..End(t)];
  }

  /** A space in front of a text changes none of its sentences. */
  lemma PiecesIgnoreFront(t: string)
    ensures Pieces(" " + t) == Pieces(t)
  {
    EndShifts(t);
    PiecesUnfold(t);
    PiecesUnfold(" " + t);
    if HasMark(t) {
      HeadIgnoresFront(t);
    } else {
    }
  }

  lemma PiecesOfOne(p: string)
    requires IsSentence(p, true)
    ensures Pieces(p) == [p]
  {
    PiecesUnfold(p);
    PiecesUnfold("");
    assert p[..|p|] == p && p[|p|..] == "";
  }

  lemma PiecesOfJoin(p: string, tail: string)
    requires IsSentence(p, false)
    ensures Pieces(p + " " + tail) == [p] + Pieces(tail)
  {
    PiecesStep(p, " " + tail);
    PiecesIgnoreFront(tail);
    assert p + (" " + tail) == p + " " + tail;
  }

  /** Splitting the joined list gives the list back. */
  lemma {:induction false} JoinThenSplit(ps: seq<string>)
    requires WellFormed(ps)
    ensures Pieces(Join(ps)) == ps
  {
    if ps == [] {
      PiecesUnfold("");
    } else if |ps| == 1 {
      PiecesOfOne(ps[0]);
    } else {
      JoinThenSplit(ps[1..]);
      PiecesOfJoin(ps[0], Join(ps[1..]));
    }
  }

  lemma {:induction false} TrimLeftIsSuffix(s: string)
    ensures var t := TrimLeft(IsPySpace, s);
      t == s[|s| - |t|..] && forall k :: 0 <= k < |s| - |t| ==> IsPySpace(s[k])
  {
    if s != "" && IsPySpace(s[0]) {
      TrimLeftIsSuffix(s[1..]);
    }
  }

  /** Stripping one run of text and marks leaves one run of text and marks. */
  lemma SentenceShape(text: string)
    requires HasMark(text) && End(text) == |text|
    ensures IsSentence(Strip(text), false)
  {
    StripFacts(text);
    MarkSurvives(text);
    var k := StripOfMarked(text);
  }

  lemma StripOfMarked(text: string) returns (k: nat)
    requires HasMark(text) && End(text) == |text|
    ensures k <= Span(false, text) && Strip(text) == text[k..]
  {
    TrimLeftIsSuffix(text);
    var t := TrimLeft(IsPySpace, text);
    k := |text| - |t|;
    assert !IsPySpace(text[Span(false, text)]);
    assert t[|t| - 1] == text[|text| - 1];
    assert TrimRight(IsPySpace, t) == t;
  }

  lemma PlainShape(text: string)
    requires !HasMark(text) && Strip(text) != ""
    ensures IsSentence(Strip(text), true)
  {
    StripFacts(text);
    TrimLeftIsSuffix(text);
    var t := TrimLeft(IsPySpace, text);
    TrimRightFacts(t);
    SpanOf(false, t, |t|);
    SpanOf(false, Strip(text), |Strip(text)|);
  }

  lemma EndOfHead(s: string)
    requires HasMark(s)
    ensures HasMark(s[..End(s)]) && End(s[..End(s)]) == End(s)
  {
  }

  lemma {:induction false} PiecesAreWellFormed(text: string)
    ensures WellFormed(Pieces(text))
    decreases |text|
  {
    PiecesUnfold(text);
    if HasMark(text) {
      var head, rest := Strip(text[..End(text)]), Pieces(text[End(text)..]);
      PiecesAreWellFormed(text[End(text)..]);
      EndOfHead(text);
      SentenceShape(text[..End(text)]);
      assert ([head] + rest)[1..] == rest;
    } else if Strip(text) != "" {
      PlainShape(text);
    }
  }

  /** The lists that splitting can return are exactly those that survive being joined and split again. */
  lemma ResplitIff(ps: seq<string>)
    ensures WellFormed(ps) <==> Pieces(Join(ps)) == ps
    ensures WellFormed(ps) <==> exists text :: Pieces(text) == ps
  {
    if WellFormed(ps) {
      JoinThenSplit(ps);
    }
    forall text | Pieces(text) == ps ensures WellFormed(ps) {
      PiecesAreWellFormed(text);
    }
  }

  /** So splitting again what was split and joined changes nothing. */
  lemma ResplitIsStable(text: string)
    ensures Pieces(Join(Pieces(text))) == Pieces(text)
  {
    PiecesAreWellFormed(text);
    JoinThenSplit(Pieces(text));
  }
}
