/** String operations of the host languages, over characters. */
module Text {
  /** What JavaScript's `trim` removes. */
  predicate IsJsSpace(c: char) {
    var n := c as int;
    || 0x9 <= n <= 0xd || n == 0x20 || n == 0xa0 || n == 0x1680 || 0x2000 <= n <= 0x200a
    || n == 0x2028 || n == 0x2029 || n == 0x202f || n == 0x205f || n == 0x3000 || n == 0xfeff
  }

  /** What Python's `strip` and the class `\s` take for white space. */
  predicate IsPySpace(c: char) {
    var n := c as int;
    || 0x9 <= n <= 0xd || 0x1c <= n <= 0x20 || n == 0x85 || n == 0xa0 || n == 0x1680 || 0x2000 <= n <= 0x200a
    || n == 0x2028 || n == 0x2029 || n == 0x202f || n == 0x205f || n == 0x3000
  }

  function TrimLeft(space: char -> bool, s: string): (r: string)
    ensures |r| <= |s|
  {
    if s != [] && space(s[0]) then TrimLeft(space, s[1..]) else s
  }

  function TrimRight(space: char -> bool, s: string): (r: string)
    ensures |r| <= |s|
  {
    if s != [] && space(s[|s| - 1]) then TrimRight(space, s[..|s| - 1]) else s
  }

  function Trim(space: char -> bool, s: string): (r: string)
    ensures |r| <= |s|
  {
    TrimRight(space, TrimLeft(space, s))
  }

  /** Neither end is white space. */
  predicate Trimmed(space: char -> bool, s: string) {
    s == "" || (!space(s[0]) && !space(s[|s| - 1]))
  }

  /** At most the first n characters. */
  function Take(s: string, n: nat): (r: string)
    ensures |r| <= n
  {
    if |s| <= n then s else s[..n]
  }

  function Concat(parts: seq<string>): string {
    if parts == [] then "" else parts[0] + Concat(parts[1..])
  }

  lemma {:induction false} ConcatSnoc(parts: seq<string>, last: string)
    ensures Concat(parts + [last]) == Concat(parts) + last
  {
    if parts == [] {
      assert Concat([last]) == last + Concat([last][1..]);
    } else {
      assert (parts + [last])[1..] == parts[1..] + [last];
      ConcatSnoc(parts[1..], last);
    }
  }

  lemma {:induction false} ConcatSplits(a: seq<string>, b: seq<string>)
    ensures Concat(a + b) == Concat(a) + Concat(b)
  {
    if a == [] {
      assert a + b == b;
    } else {
      assert (a + b)[1..] == a[1..] + b;
      ConcatSplits(a[1..], b);
    }
  }

  /** Splits at every line feed; there is always at least one piece. */
  function SplitLines(s: string): (r: seq<string>)
    ensures r != []
  {
    if s == "" then [""]
    else
      var rest := SplitLines(s[1..]);
      if s[0] == '\n' then [""] + rest else [[s[0]] + rest[0]] + rest[1..]
  }

  lemma {:induction false} SplitFirstLine(line: string, rest: string)
    requires '\n' !in line
    ensures SplitLines(line + "\n" + rest) == [line] + SplitLines(rest)
  {
    var s := line + "\n" + rest;
    if line == "" {
      assert s[1..] == rest;
    } else {
      assert s[1..] == line[1..] + "\n" + rest;
      SplitFirstLine(line[1..], rest);
      assert [s[0]] + line[1..] == line;
    }
  }

  lemma {:induction false} SplitOnlyLine(line: string)
    requires '\n' !in line
    ensures SplitLines(line) == [line]
  {
    if line != "" {
      SplitOnlyLine(line[1..]);
      assert [line[0]] + line[1..] == line;
    }
  }
}
