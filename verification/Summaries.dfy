/** Shortening: cut at a sentence end or a space in the last part, strip tags and list marks, squeeze white space. */
module Summaries {
  import opened Text
  import opened Sentences

  /** Python's `s[:n]`, which counts a negative n from the end. */
  function Upto<T>(s: seq<T>, n: int): (r: seq<T>)
    ensures r <= s
  {
    if n >= |s| then s else if n >= 0 then s[..n] else if |s| + n > 0 then s[..|s| + n] else []
  }

  /** Python's `rfind` of one character. */
  function RFind(s: string, c: char): (i: int)
    ensures -1 <= i < |s|
    ensures i >= 0 ==> s[i] == c
    ensures forall k :: i < k < |s| ==> s[k] != c
  {
    if s == "" then -1 else if s[|s| - 1] == c then |s| - 1 else RFind(s[..|s| - 1], c)
  }

  function Max(a: int, b: int): int { if a > b then a else b }

  predicate EndsSentence(c: char) { c == '.' || c == '?' || c == '!' || c == '\U{3002}' }

  function LastEnd(t: string): (i: int)
    ensures -1 <= i < |t|
    ensures i >= 0 ==> EndsSentence(t[i])
    ensures forall k :: i < k < |t| ==> !EndsSentence(t[k])
  {
    Max(Max(RFind(t, '.'), RFind(t, '?')), Max(RFind(t, '!'), RFind(t, '\U{3002}')))
  }

  /** The largest power of two that is no larger. */
  function TopPower(k: nat): (p: nat)
    requires k > 0
    ensures 0 < p <= k < 2 * p
  {
    if k == 1 then 1 else 2 * TopPower(k / 2)
  }

  /**
   A cut may fall in the last 30 per cent of the allowed length only. The source multiplies by the double nearest to 0.7,
   which lies below it. Where seven tenths of the limit are a whole number i, the product is rounded to i or to the double
   before it: to the latter exactly if i is more than seven quarters of its top power of two. Then i counts as late.
   */
  predicate Late(i: int, maxLength: int) {
    10 * i > 7 * maxLength || (10 * i == 7 * maxLength && i > 0 && 4 * i > 7 * TopPower(i))
  }

  /** At a limit of 90 the cut may fall at 63 already; at 10 it may not at 7, nor at 80 at 56. */
  lemma LateAtSeventyPercent()
    ensures Late(63, 90) && !Late(7, 10) && !Late(56, 80)
  {
  }

  /** Cut behind the last sentence end that fits. */
  ghost predicate CutAtSentence(text: string, maxLength: nat, r: string) {
    && 0 < |r| <= maxLength <= |text| && r <= text
    && EndsSentence(text[|r| - 1]) && Late(|r| - 1, maxLength)
    && forall k :: |r| <= k < maxLength ==> !EndsSentence(text[k])
  }

  /** Cut before the last space that fits. */
  ghost predicate CutAtSpace(text: string, maxLength: nat, r: string) {
    && |r| < maxLength <= |text| && r <= text
    && text[|r|] == ' ' && Late(|r|, maxLength)
    && forall k :: |r| < k < maxLength ==> text[k] != ' '
  }

  ghost predicate LateEndFits(text: string, maxLength: nat)
    requires maxLength <= |text|
  {
    exists i :: 0 <= i < maxLength && Late(i, maxLength) && EndsSentence(text[i])
  }

  ghost predicate LateSpaceFits(text: string, maxLength: nat)
    requires maxLength <= |text|
  {
    exists i :: 0 <= i < maxLength && Late(i, maxLength) && text[i] == ' '
  }

  /** Cuts in the last part of the allowed length: behind a sentence end, else before a space, else anywhere, with dots. */
  function Truncate(text: string, maxLength: int): (r: string)
    ensures maxLength >= 0 ==> |r| <= maxLength + 3
    ensures |text| <= maxLength ==> r == text
    ensures 0 <= maxLength < |text| ==>
              if LateEndFits(text, maxLength) then CutAtSentence(text, maxLength, r)
              else if LateSpaceFits(text, maxLength) then CutAtSpace(text, maxLength, r)
              else r == text[..maxLength] + "..."
  {
    if |text| <= maxLength then text
    else
      var t := Upto(text, maxLength);
      assert 0 <= maxLength ==> forall i :: 0 <= i < maxLength ==> t[i] == text[i];
      if Late(LastEnd(t), maxLength) then Upto(t, LastEnd(t) + 1)
      else if Late(RFind(t, ' '), maxLength) then Upto(t, RFind(t, ' '))
      else t + "..."
  }

  // ----- Cleaning -----

  function Find(s: string, c: char): (i: nat)
    ensures i <= |s| && (i < |s| ==> s[i] == c) && forall k :: 0 <= k < i ==> s[k] != c
  {
    if s == "" || s[0] == c then 0 else 1 + Find(s[1..], c)
  }

  /** The pattern `<[^>]+>` at the front: an opening bracket, at least one other character, the first closing bracket. */
  function TagLength(s: string): (n: nat)
    ensures n <= |s|
  {
    if s == "" || s[0] != '<' then 0
    else
      var j := Find(s[1..], '>');
      if 1 <= j < |s| - 1 then j + 2 else 0
  }

  function StripTags(s: string): (r: string)
    ensures |r| <= |s|
    ensures forall c :: c in r ==> c in s
  {
    if s == "" then ""
    else if TagLength(s) > 0 then StripTags(s[TagLength(s)..])
    else [s[0]] + StripTags(s[1..])
  }

  ghost predicate NoTag(s: string) {
    forall i :: 0 <= i <= |s| ==> TagLength(s[i..]) == 0
  }

  /** Removing tags never makes a new one, and what has none is left alone. */
  lemma {:induction false} NoTagIff(s: string)
    ensures NoTag(StripTags(s))
    ensures NoTag(s) <==> StripTags(s) == s
    decreases |s|
  {
    if s != "" {
      var n := TagLength(s);
      assert s[0..] == s;
      if n > 0 {
        NoTagIff(s[n..]);
      } else {
        NoTagIff(s[1..]);
        var rest := StripTags(s[1..]);
        var r := [s[0]] + rest;
        assert TagLength(r) == 0 by {
          if s[0] == '<' && |s| > 1 && s[1] == '>' {
            assert TagLength(s[1..]) == 0 && rest[0] == '>';
          }
          assert r[1..] == rest;
        }
        forall i | 0 <= i <= |r| ensures TagLength(r[i..]) == 0 {
          assert if i == 0 then r[i..] == r else r[i..] == rest[i - 1..];
        }
        if NoTag(s) {
          forall i | 0 <= i <= |s[1..]| ensures TagLength(s[1..][i..]) == 0 {
            assert s[1..][i..] == s[i + 1..];
          }
        }
        if NoTag(s[1..]) {
          forall i | 0 <= i <= |s| ensures TagLength(s[i..]) == 0 {
            assert if i == 0 then s[i..] == s else s[i..] == s[1..][i - 1..];
          }
        }
      }
    }
  }

  predicate IsListMark(c: char) { c == '#' || c == '-' || c == '*' || c == '+' }

  function ListMarks(line: string): (n: nat)
    ensures n <= |line|
  {
    if line == "" || !IsListMark(line[0]) then 0 else 1 + ListMarks(line[1..])
  }

  /** Heading and list marks at the start of a line go, with the white space behind them. */
  function CleanLine(line: string): (r: string)
    ensures |r| <= |line|
  {
    var n := ListMarks(line);
    if n == 0 then line else TrimLeft(IsPySpace, line[n..])
  }

  function CleanLines(lines: seq<string>): (r: seq<string>)
    ensures |r| == |lines|
  {
    if lines == [] then [] else CleanLines(lines[..|lines| - 1]) + [CleanLine(lines[|lines| - 1])]
  }

  /** Every run of white space becomes one space. */
  function Squeeze(s: string): (r: string)
    ensures |r| <= |s|
    decreases |s|
  {
    if s == "" then ""
    else if IsPySpace(s[0]) then " " + Squeeze(TrimLeft(IsPySpace, s[1..]))
    else [s[0]] + Squeeze(s[1..])
  }

  function Cleaned(text: string): string {
    Strip(Squeeze(Join(CleanLines(SplitLines(StripTags(text))))))
  }

  method CleanText(text: string) returns (r: string)
    ensures r == Cleaned(text)
  {
    var lines := SplitLines(StripTags(text));
    var cleaned := [];
    for i := 0 to |lines|
      invariant cleaned == CleanLines(lines[..i])
    {
      assert lines[..i + 1][..i] == lines[..i];
      cleaned := cleaned + [CleanLine(lines[i])];
    }
    assert lines[..|lines|] == lines;
    r := Strip(Squeeze(Join(cleaned)));
  }

  // ----- What cleaning takes away, and nothing else -----

  /** A tag: an opening bracket, something without a closing one, and a closing one. */
  predicate IsTag(t: string) {
    |t| >= 3 && t[0] == '<' && t[|t| - 1] == '>' && forall k :: 0 < k < |t| - 1 ==> t[k] != '>'
  }

  lemma OneStays(c: char, s: string)
    requires c != '<'
    ensures StripTags([c] + s) == [c] + StripTags(s)
  {
    assert ([c] + s)[1..] == s;
  }

  lemma OneInFront(c: char, a: string, rest: string, r: string)
    requires c != '<' && StripTags(a + rest) == a + r
    ensures StripTags([c] + a + rest) == [c] + a + r
  {
    OneStays(c, a + rest);
    Together([c], a, rest);
    Together([c], a, r);
  }

  lemma Together(a: string, b: string, c: string)
    ensures a + b + c == a + (b + c)
  {
  }

  lemma {:induction false} TextStays(a: string, rest: string)
    requires forall k :: 0 <= k < |a| ==> a[k] != '<'
    ensures StripTags(a + rest) == a + StripTags(rest)
  {
    if a == "" {
      assert a + rest == rest;
    } else {
      TextStays(a[1..], rest);
      OneInFront(a[0], a[1..], rest, StripTags(rest));
      assert [a[0]] + a[1..] == a;
    }
  }

  /** Text in front of a tag keeps its characters; the tag goes, and the rest is looked at alike. */
  lemma TagsGo(a: string, tag: string, b: string)
    requires IsTag(tag) && forall k :: 0 <= k < |a| ==> a[k] != '<'
    ensures StripTags(a + tag + b) == a + StripTags(b)
  {
    TextStays(a, tag + b);
    TagIsFound(tag, b);
    assert (tag + b)[|tag|..] == b && a + tag + b == a + (tag + b);
  }

  lemma TagIsFound(tag: string, b: string)
    requires IsTag(tag)
    ensures TagLength(tag + b) == |tag|
  {
    var s := tag + b;
    var j := Find(s[1..], '>');
    assert s[1..][|tag| - 2] == '>';
    assert forall k :: 0 <= k < |tag| - 2 ==> s[1..][k] == tag[k + 1];
  }

  /** Nowhere in the text is there a tag. */
  ghost predicate TagFree(s: string) {
    forall i, j :: 0 <= i <= j <= |s| ==> !IsTag(s[i..j])
  }

  /** A tag is found at the front exactly if one is there. */
  lemma TagIsThere(s: string)
    ensures TagLength(s) > 0 ==> IsTag(s[..TagLength(s)])
    ensures forall n :: 0 <= n <= |s| && IsTag(s[..n]) ==> TagLength(s) > 0
  {
    var n := TagLength(s);
    if n > 0 {
      var j := Find(s[1..], '>');
      assert n == j + 2 && s[1..][j] == '>';
      assert forall k :: 0 < k < n - 1 ==> s[k] == s[1..][k - 1];
    }
    forall n | 0 <= n <= |s| && IsTag(s[..n]) ensures TagLength(s) > 0 {
      TagIsFound(s[..n], s[n..]);
      assert s[..n] + s[n..] == s;
    }
  }

  lemma TagFreeIff(s: string)
    ensures TagFree(s) <==> NoTag(s)
  {
    if NoTag(s) {
      forall i, j | 0 <= i <= j <= |s| ensures !IsTag(s[i..j]) {
        TagIsThere(s[i..]);
        assert s[i..][..j - i] == s[i..j];
      }
    }
    if TagFree(s) {
      forall i | 0 <= i <= |s| ensures TagLength(s[i..]) == 0 {
        TagIsThere(s[i..]);
        var n := TagLength(s[i..]);
        assert s[i..][..n] == s[i..i + n];
      }
    }
  }

  /** No tag remains, even where removing one brings brackets together; and only a text without tags is left as it is. */
  lemma NoTagRemains(s: string)
    ensures TagFree(StripTags(s)) && (TagFree(s) <==> StripTags(s) == s)
  {
    NoTagIff(s);
    TagFreeIff(s);
    TagFreeIff(StripTags(s));
  }

  /** At the start of a line only heading and list marks go, all of them, and with them the white space behind. */
  lemma LineIsCleaned(line: string) returns (marks: nat, blanks: nat)
    ensures marks + blanks <= |line| && CleanLine(line) == line[marks + blanks..]
    ensures (forall k :: 0 <= k < marks ==> line[k] in {'#', '-', '*', '+'}) && (marks < |line| ==> line[marks] !in {'#', '-', '*', '+'})
    ensures (forall k :: marks <= k < marks + blanks ==> IsPySpace(line[k]))
    ensures if marks == 0 then blanks == 0 else marks + blanks < |line| ==> !IsPySpace(line[marks + blanks])
  {
    marks := ListMarks(line);
    MarksAre(line);
    if marks > 0 {
      TrimLeftIsSuffix(line[marks..]);
      TrimLeftFacts(line[marks..]);
      blanks := |line[marks..]| - |CleanLine(line)|;
    } else {
      blanks := 0;
    }
  }

  lemma {:induction false} MarksAre(line: string)
    ensures var n := ListMarks(line);
      (forall k :: 0 <= k < n ==> IsListMark(line[k])) && (n < |line| ==> !IsListMark(line[n]))
  {
    if line != "" && IsListMark(line[0]) {
      MarksAre(line[1..]);
    }
  }

  lemma {:induction false} SqueezeConserves(s: string)
    ensures Dense(Squeeze(s)) == Dense(s)
    decreases |s|
  {
    if s != "" {
      if IsPySpace(s[0]) {
        var t := TrimLeft(IsPySpace, s[1..]);
        TrimLeftFacts(s[1..]);
        SqueezeConserves(t);
        assert (" " + Squeeze(t))[1..] == Squeeze(t);
      } else {
        SqueezeConserves(s[1..]);
        assert ([s[0]] + Squeeze(s[1..]))[1..] == Squeeze(s[1..]);
      }
    }
  }

  /** The characters of lines that are no white space, in order. */
  function DenseLines(lines: seq<string>): string {
    if lines == [] then "" else DenseLines(lines[..|lines| - 1]) + Dense(lines[|lines| - 1])
  }

  lemma {:induction false} JoinConserves(lines: seq<string>, last: string)
    ensures Dense(Join(lines + [last])) == Dense(Join(lines)) + Dense(last)
  {
    if lines == [] {
      assert lines + [last] == [last];
    } else {
      var all := lines + [last];
      assert all[1..] == lines[1..] + [last];
      JoinConserves(lines[1..], last);
      JoinUnfolds(all);
      JoinUnfolds(lines);
    }
  }

  lemma JoinUnfolds(lines: seq<string>)
    requires lines != []
    ensures Dense(Join(lines)) == Dense(lines[0]) + Dense(Join(lines[1..]))
  {
    if |lines| > 1 {
      SpaceIsNothing(lines[0], Join(lines[1..]));
    } else {
      assert lines[1..] == [];
    }
  }

  lemma SpaceIsNothing(a: string, b: string)
    ensures Dense(a + " " + b) == Dense(a) + Dense(b)
  {
    DenseSplits(a, " " + b);
    assert a + (" " + b) == a + " " + b && (" " + b)[1..] == b;
  }

  lemma {:induction false} DenseJoin(lines: seq<string>)
    ensures Dense(Join(lines)) == DenseLines(lines)
  {
    if lines != [] {
      var init, last := lines[..|lines| - 1], lines[|lines| - 1];
      DenseJoin(init);
      JoinConserves(init, last);
      assert lines == init + [last];
    }
  }

  /** Each line as cleaning leaves it. */
  lemma {:induction false} CleanLinesAre(lines: seq<string>)
    ensures |CleanLines(lines)| == |lines| && forall k :: 0 <= k < |lines| ==> CleanLines(lines)[k] == CleanLine(lines[k])
  {
    if lines != [] {
      CleanLinesAre(lines[..|lines| - 1]);
    }
  }

  /** A cleaned text has, in order, the characters of its cleaned lines that are no white space: none is lost or added. */
  lemma CleanedConserves(text: string)
    ensures Dense(Cleaned(text)) == DenseLines(CleanLines(SplitLines(StripTags(text))))
  {
    var joined := Join(CleanLines(SplitLines(StripTags(text))));
    DenseJoin(CleanLines(SplitLines(StripTags(text))));
    SqueezeConserves(joined);
    StripFacts(Squeeze(joined));
  }

  /** Lines joined by spaces take as much room as they did with line feeds. */
  lemma {:induction false} JoinedLength(s: string)
    ensures |Join(SplitLines(s))| == |s|
  {
    if s != "" {
      JoinedLength(s[1..]);
      var rest := SplitLines(s[1..]);
      if s[0] == '\n' {
        assert ([""] + rest)[1..] == rest;
      } else {
        var lines := [[s[0]] + rest[0]] + rest[1..];
        assert lines[1..] == rest[1..];
      }
    }
  }

  lemma {:induction false} JoinShrinks(a: seq<string>, b: seq<string>)
    requires |a| == |b| && forall i :: 0 <= i < |a| ==> |a[i]| <= |b[i]|
    ensures |Join(a)| <= |Join(b)|
  {
    if |a| > 1 {
      JoinShrinks(a[1..], b[1..]);
    }
  }

  lemma {:induction false} CleanLinesShrink(lines: seq<string>)
    ensures forall i :: 0 <= i < |lines| ==> |CleanLines(lines)[i]| <= |lines[i]|
  {
    if lines != [] {
      CleanLinesShrink(lines[..|lines| - 1]);
    }
  }

  /** Cleaning never makes a text longer. */
  lemma CleanShrinks(text: string)
    ensures |Cleaned(text)| <= |text|
  {
    var lines := SplitLines(StripTags(text));
    JoinedLength(StripTags(text));
    CleanLinesShrink(lines);
    JoinShrinks(CleanLines(lines), lines);
  }

  /** White space is single spaces. */
  ghost predicate SingleSpaced(s: string) {
    && (forall i :: 0 <= i < |s| && IsPySpace(s[i]) ==> s[i] == ' ')
    && forall i :: 0 <= i < |s| - 1 && IsPySpace(s[i]) ==> !IsPySpace(s[i + 1])
  }

  lemma {:induction false} SqueezeIsSingleSpaced(s: string)
    ensures SingleSpaced(Squeeze(s))
    ensures s != "" ==> Squeeze(s) != "" && (IsPySpace(Squeeze(s)[0]) <==> IsPySpace(s[0]))
    decreases |s|
  {
    if s != "" {
      if IsPySpace(s[0]) {
        var t := TrimLeft(IsPySpace, s[1..]);
        TrimLeftFacts(s[1..]);
        SqueezeIsSingleSpaced(t);
      } else {
        SqueezeIsSingleSpaced(s[1..]);
      }
    }
  }

  /** A cleaned text has no white space at its ends and single spaces inside. */
  lemma CleanIsTidy(text: string)
    ensures Trimmed(IsPySpace, Cleaned(text)) && SingleSpaced(Cleaned(text))
  {
    var s := Squeeze(Join(CleanLines(SplitLines(StripTags(text)))));
    SqueezeIsSingleSpaced(Join(CleanLines(SplitLines(StripTags(text)))));
    StripKeepsSpacing(s);
  }

  lemma StripKeepsSpacing(s: string)
    requires SingleSpaced(s)
    ensures Trimmed(IsPySpace, Strip(s)) && SingleSpaced(Strip(s))
  {
    StripFacts(s);
    TrimLeftIsSuffix(s);
    TrimRightFacts(TrimLeft(IsPySpace, s));
  }

  // ----- The summary -----

  function Summary(content: string, maxLength: int, count: int): string {
    if Strip(content) == "" then ""
    else
      var sentences := Pieces(Strip(content));
      var summary := Join(if |sentences| > count then Upto(sentences, count) else sentences);
      Cleaned(if |summary| > maxLength then Truncate(summary, maxLength) else summary)
  }

  /**
   A summary is cleaned from the first `count` sentences of the text, or all if there are fewer; a negative count leaves off
   as many at the end. Joined by spaces they are cut if they exceed the limit. A blank text has none.
   */
  lemma SummarySelects(content: string, maxLength: int, count: int) returns (chosen: seq<string>)
    ensures Dense(content) == "" ==> Summary(content, maxLength, count) == ""
    ensures Dense(content) != "" ==>
      && chosen <= Pieces(Strip(content)) && |chosen| == Selected(|Pieces(Strip(content))|, count)
      && Summary(content, maxLength, count) == Cleaned(if |Join(chosen)| <= maxLength then Join(chosen) else Truncate(Join(chosen), maxLength))
  {
    StripFacts(content);
    DenseIsEmpty(Strip(content));
    var all := Pieces(Strip(content));
    chosen := if |all| > count then Upto(all, count) else all;
  }

  /** How many of so many sentences are selected. */
  function Selected(all: nat, count: int): nat {
    if count >= 0 then (if count < all then count else all) else if all + count > 0 then all + count else 0
  }

  /** A stripped text is empty if it has no character but white space. */
  lemma DenseIsEmpty(s: string)
    requires Trimmed(IsPySpace, s)
    ensures Dense(s) == "" <==> s == ""
  {
    if s != "" {
      assert Dense(s) == [s[0]] + Dense(s[1..]);
    }
  }

  method GenerateSummary(content: string, maxLength: int, count: int) returns (summary: string)
    ensures summary == Summary(content, maxLength, count)
  {
    if content == "" || Strip(content) == "" {
      return "";
    }
    var sentences := ExtractSentences(Strip(content));
    var selected := if |sentences| > count then Upto(sentences, count) else sentences;
    summary := Join(selected);
    if |summary| > maxLength {
      summary := Truncate(summary, maxLength);
    }
    summary := CleanText(summary);
  }

  /** A summary is at most three characters longer than a non-negative limit, and its white space is in order. */
  lemma SummaryIsShortAndTidy(content: string, maxLength: int, count: int)
    ensures maxLength >= 0 ==> |Summary(content, maxLength, count)| <= maxLength + 3
    ensures Trimmed(IsPySpace, Summary(content, maxLength, count)) && SingleSpaced(Summary(content, maxLength, count))
  {
    if Strip(content) != "" {
      var sentences := Pieces(Strip(content));
      var summary := Join(if |sentences| > count then Upto(sentences, count) else sentences);
      var cut := if |summary| > maxLength then Truncate(summary, maxLength) else summary;
      CleanShrinks(cut);
      CleanIsTidy(cut);
    }
  }

  ghost predicate Plain(s: string) {
    forall k :: 0 <= k < |s| ==> s[k] == 'a' || s[k] == '.'
  }

  lemma {:induction false} PlainUntouched(s: string)
    requires Plain(s)
    ensures StripTags(s) == s && Squeeze(s) == s
  {
    if s != "" {
      PlainUntouched(s[1..]);
    }
  }

  lemma CleanLeavesPlain(s: string)
    requires Plain(s) && s != ""
    ensures Cleaned(s) == s
  {
    PlainUntouched(s);
    SplitOnlyLine(s);
    assert CleanLines([s]) == CleanLines([]) + [CleanLine(s)] == [s];
  }

  lemma PiecesOfPlain(s: string)
    requires s != "" && forall k :: 0 <= k < |s| ==> s[k] == 'a'
    ensures Strip(s) == s && Pieces(s) == [s]
  {
    SpanOf(false, s, |s|);
    PiecesUnfold(s);
  }

  lemma TruncatedPlain(s: string, maxLength: nat)
    requires |s| == maxLength + 1 && forall k :: 0 <= k < |s| ==> s[k] == 'a'
    ensures Truncate(s, maxLength) == s[..maxLength] + "..."
  {
  }

  /** The bound is reached at every maximum length: one word of one character too many comes out with three dots. */
  lemma SummaryBoundIsReached(content: string, maxLength: nat, count: nat)
    requires |content| == maxLength + 1 && count > 0 && forall k :: 0 <= k < |content| ==> content[k] == 'a'
    ensures |Summary(content, maxLength, count)| == maxLength + 3
  {
    PiecesOfPlain(content);
    assert Join([content]) == content;
    TruncatedPlain(content, maxLength);
    CleanLeavesPlain(content[..maxLength] + "...");
  }
}
