/** The fenced block of a reply: three backticks, perhaps "json", and an object up to the next three backticks. */
module FencedBlock {
  import opened Wrappers
  import opened Text

  /** White space from i up to j. */
  predicate Blank(s: string, i: nat, j: nat) {
    i <= j <= |s| && forall k :: i <= k < j ==> IsPySpace(s[k])
  }

  predicate Ticks(s: string, i: nat) { i + 3 <= |s| && s[i..i + 3] == "```" }

  predicate Tagged(s: string, i: nat) { i + 4 <= |s| && s[i..i + 4] == "json" }

  /** Where white space that starts at i ends. */
  function Skip(s: string, i: nat): (j: nat)
    requires i <= |s|
    ensures Blank(s, i, j) && (j < |s| ==> !IsPySpace(s[j]))
    decreases |s| - i
  {
    if i < |s| && IsPySpace(s[i]) then Skip(s, i + 1) else i
  }

  /** A closing brace that three backticks follow, white space apart. */
  ghost predicate ClosesAt(s: string, e: nat) {
    e < |s| && s[e] == '}' && exists c: nat :: Blank(s, e + 1, c) && Ticks(s, c)
  }

  /** At i: three backticks, perhaps "json", white space, and a brace at b that one at e closes the block of. */
  ghost predicate Match(s: string, i: nat, b: nat, e: nat) {
    && Ticks(s, i) && b < e && b < |s| && s[b] == '{' && ClosesAt(s, e)
    && (Blank(s, i + 3, b) || (Tagged(s, i + 3) && Blank(s, i + 7, b)))
  }

  /** What the pattern finds first: the leftmost match, and of those the shortest. */
  ghost predicate FirstMatch(s: string, i: nat, b: nat, e: nat) {
    Match(s, i, b, e) && forall i': nat, b': nat, e': nat :: Match(s, i', b', e') ==> i < i' || (i == i' && b == b' && e <= e')
  }

  /** Blanks before something that is no blank end there. */
  lemma SkipIsOnly(s: string, i: nat, j: nat)
    requires Blank(s, i, j) && j < |s| && !IsPySpace(s[j])
    ensures Skip(s, i) == j
  {
  }

  lemma TagIsNoBlank(s: string, i: nat)
    ensures Tagged(s, i) ==> !IsPySpace(s[i])
  {
    assert Tagged(s, i) ==> s[i] == s[i..i + 4][0];
  }

  lemma ClosesAtIff(s: string, e: nat)
    requires e < |s|
    ensures ClosesAt(s, e) <==> s[e] == '}' && Ticks(s, Skip(s, e + 1))
  {
    if ClosesAt(s, e) {
      var c: nat :| Blank(s, e + 1, c) && Ticks(s, c);
      assert s[c..c + 3][0] == '`';
      SkipIsOnly(s, e + 1, c);
    }
  }

  /** The first closing place from e on. */
  function ShortestEnd(s: string, e: nat): (r: Option<nat>)
    requires e <= |s|
    ensures r.Some? ==> e <= r.value && ClosesAt(s, r.value)
    ensures forall k: nat :: e <= k && ClosesAt(s, k) ==> r.Some? && r.value <= k
    decreases |s| - e
  {
    if e == |s| then None
    else
      ClosesAtIff(s, e);
      if s[e] == '}' && Ticks(s, Skip(s, e + 1)) then Some(e) else ShortestEnd(s, e + 1)
  }

  /** Where the brace of a match at i would be. */
  function BraceAfter(s: string, i: nat): (r: Option<nat>)
    ensures r.Some? ==> r.value < |s| && s[r.value] == '{'
  {
    if !Ticks(s, i) then None
    else
      var b := Skip(s, if Tagged(s, i + 3) then i + 7 else i + 3);
      if b < |s| && s[b] == '{' then Some(b) else None
  }

  /** A match at i can have its brace only there. */
  lemma BraceIsOnly(s: string, i: nat, b: nat, e: nat)
    ensures Match(s, i, b, e) <==> BraceAfter(s, i) == Some(b) && b < e && ClosesAt(s, e)
  {
    if Match(s, i, b, e) {
      if Blank(s, i + 3, b) {
        SkipIsOnly(s, i + 3, b);
        TagIsNoBlank(s, i + 3);
      } else {
        SkipIsOnly(s, i + 7, b);
      }
    }
  }

  /** A place where the pattern matches: the backticks, the brace, and the brace that ends it. */
  datatype Place = Place(ticks: nat, open: nat, close: nat)

  ghost predicate NoMatchAt(s: string, i: nat) {
    forall b: nat, e: nat :: !Match(s, i, b, e)
  }

  /** The shortest match at its place. */
  ghost predicate Shortest(s: string, p: Place) {
    Match(s, p.ticks, p.open, p.close) && forall b: nat, e: nat :: Match(s, p.ticks, b, e) ==> b == p.open && p.close <= e
  }

  function MatchAt(s: string, i: nat): (r: Option<Place>)
    ensures r.Some? ==> r.value.ticks == i && r.value.open < r.value.close < |s|
  {
    var b := BraceAfter(s, i);
    if b.None? then None
    else
      var e := ShortestEnd(s, b.value + 1);
      if e.None? then None else Some(Place(i, b.value, e.value))
  }

  lemma MatchAtFinds(s: string, i: nat)
    ensures match MatchAt(s, i)
      case None => NoMatchAt(s, i)
      case Some(p) => Shortest(s, p)
  {
    forall b: nat, e: nat
      ensures Match(s, i, b, e) <==> BraceAfter(s, i) == Some(b) && b < e && ClosesAt(s, e)
    {
      BraceIsOnly(s, i, b, e);
    }
  }

  /** The first match from i on. */
  function Search(s: string, i: nat): (r: Option<Place>)
    requires i <= |s|
    ensures r.Some? ==> i <= r.value.ticks && r.value.open < r.value.close < |s|
    decreases |s| - i
  {
    if MatchAt(s, i).Some? then MatchAt(s, i) else if i == |s| then None else Search(s, i + 1)
  }

  /** The first match from i on is at this place, if there is one. */
  ghost predicate FirstFrom(s: string, i: nat, r: Option<Place>) {
    if r.None? then NoMatchIn(s, i, |s| + 1) else Shortest(s, r.value) && NoMatchIn(s, i, r.value.ticks)
  }

  ghost predicate NoMatchIn(s: string, i: nat, j: nat) {
    forall k: nat :: i <= k < j ==> NoMatchAt(s, k)
  }

  lemma NoMatchBefore(s: string, i: nat, j: nat)
    requires NoMatchAt(s, i) && NoMatchIn(s, i + 1, j)
    ensures NoMatchIn(s, i, j)
  {
    forall k: nat | i <= k < j ensures NoMatchAt(s, k) {
      assert k == i || i + 1 <= k;
    }
  }

  lemma {:induction false} SearchFinds(s: string, i: nat)
    requires i <= |s|
    ensures FirstFrom(s, i, Search(s, i))
    decreases |s| - i
  {
    MatchAtFinds(s, i);
    if MatchAt(s, i).None? && i < |s| {
      var r := Search(s, i + 1);
      SearchFinds(s, i + 1);
      NoMatchBefore(s, i, if r.None? then |s| + 1 else r.value.ticks);
    }
  }

  /** The fenced block, if the pattern is found. */
  function Fenced(s: string): Option<string> {
    var p := Search(s, 0);
    if p.None? then None else Some(s[p.value.open..p.value.close + 1])
  }

  /** It is the leftmost, shortest match of the pattern, and there is one exactly if the pattern matches anywhere. */
  lemma FencedIsFirstMatch(s: string)
    ensures match Fenced(s)
      case None => forall i: nat, b: nat, e: nat :: !Match(s, i, b, e)
      case Some(block) => exists i: nat, b: nat, e: nat :: FirstMatch(s, i, b, e) && block == s[b..e + 1]
  {
    SearchFinds(s, 0);
    var p := Search(s, 0);
    forall i: nat, b: nat, e: nat | Match(s, i, b, e)
      ensures p.Some? && (p.value.ticks < i || (p.value.ticks == i && p.value.open == b && p.value.close <= e))
    {
      assert i <= |s| && !NoMatchAt(s, i);
    }
    if p.Some? {
      assert FirstMatch(s, p.value.ticks, p.value.open, p.value.close);
    }
  }

  /** It is never the whole text: the backticks in front are not part of it. */
  lemma FencedIsShorter(s: string)
    ensures Fenced(s).Some? ==> |Fenced(s).value| < |s|
  {
    SearchFinds(s, 0);
  }

  lemma TicksAreThere(s: string, i: nat)
    ensures Ticks(s, i) ==> '`' in s
  {
    if Ticks(s, i) {
      assert s[i] == s[i..i + 3][0] && s[i] in s;
    }
  }

  lemma NoTicksNoFence(s: string)
    requires '`' !in s
    ensures Fenced(s).None?
  {
    SearchFinds(s, 0);
    if Fenced(s).Some? {
      TicksAreThere(s, Search(s, 0).value.ticks);
    }
  }
}
