/**
 A reader of JSON text after RFC 8259, as the page's parser is one, and the proof that it reads back whatever the server prints.
 Numbers are checked against the grammar and kept as text. An escape that names half of a surrogate pair is refused.
 */
module JsonReader {
  import opened Wrappers
  import opened Json
  import opened SseWire

  /** What was read, and the text behind it. */
  datatype Taken<T> = Taken(value: T, rest: string) | Refused

  // ----- Numbers (section 6 of RFC 8259) -----

  predicate IsDigit(c: char) { '0' <= c <= '9' }

  predicate InNumber(c: char) { IsDigit(c) || c == '+' || c == '-' || c == '.' || c == 'e' || c == 'E' }

  function Digits(s: string): (n: nat)
    ensures n <= |s|
  {
    if s != "" && IsDigit(s[0]) then 1 + Digits(s[1..]) else 0
  }

  predicate AllDigits(s: string) { s != "" && Digits(s) == |s| }

  predicate IsExponent(s: string) {
    s != "" && (s[0] == 'e' || s[0] == 'E') && (AllDigits(s[1..]) || (|s| > 1 && (s[1] == '+' || s[1] == '-') && AllDigits(s[2..])))
  }

  predicate IsFraction(s: string) {
    && s != "" && s[0] == '.'
    && var n := Digits(s[1..]);
       n > 0 && (s[1 + n..] == "" || IsExponent(s[1 + n..]))
  }

  predicate IsNumber(s: string) {
    && s != ""
    && var u := if s[0] == '-' then s[1..] else s;
       var n := Digits(u);
       n > 0 && (n == 1 || u[0] != '0') && (u[n..] == "" || IsFraction(u[n..]) || IsExponent(u[n..]))
  }

  function NumberRun(s: string): (n: nat)
    ensures n <= |s|
  {
    if s != "" && InNumber(s[0]) then 1 + NumberRun(s[1..]) else 0
  }

  // ----- Strings (section 7 of RFC 8259) -----

  function HexValue(c: char): Option<nat> {
    if IsDigit(c) then Some(c as nat - '0' as nat)
    else if 'a' <= c <= 'f' then Some(c as nat - 'a' as nat + 10)
    else if 'A' <= c <= 'F' then Some(c as nat - 'A' as nat + 10)
    else None
  }

  function FourDigits(s: string): Option<nat>
    requires |s| == 4
  {
    if exists c :: c in s && HexValue(c).None? then None
    else
      Some(((HexValue(s[0]).value * 16 + HexValue(s[1]).value) * 16 + HexValue(s[2]).value) * 16 + HexValue(s[3]).value)
  }

  /** The character an escape stands for; the text begins behind the backslash. */
  function ReadEscape(s: string): (r: Taken<char>)
    ensures r.Taken? ==> |r.rest| < |s|
  {
    if s == "" then Refused
    else if s[0] == '\"' || s[0] == '\\' || s[0] == '/' then Taken(s[0], s[1..])
    else if s[0] == 'n' then Taken('\n', s[1..])
    else if s[0] == 'r' then Taken('\r', s[1..])
    else if s[0] == 't' then Taken('\t', s[1..])
    else if s[0] == 'b' then Taken(8 as char, s[1..])
    else if s[0] == 'f' then Taken(12 as char, s[1..])
    else if s[0] == 'u' && |s| >= 5 then
      var code := FourDigits(s[1..5]);
      if code.Some? && (code.value < 0xD800 || 0xE000 <= code.value < 0x10000) then Taken(code.value as char, s[5..]) else Refused
    else Refused
  }

  function Behind<T>(x: T, r: Taken<seq<T>>): Taken<seq<T>> {
    match r
    case Taken(xs, rest) => Taken([x] + xs, rest)
    case Refused => Refused
  }

  /** The characters up to the closing quotation mark. */
  function ReadChars(s: string): (r: Taken<string>)
    ensures r.Taken? ==> |r.rest| < |s|
    decreases |s|
  {
    if s == "" || s[0] as int < 32 then Refused
    else if s[0] == '\"' then Taken("", s[1..])
    else if s[0] == '\\' then
      var c := ReadEscape(s[1..]);
      if c.Taken? then Behind(c.value, ReadChars(c.rest)) else Refused
    else Behind(s[0], ReadChars(s[1..]))
  }

  // ----- Values (sections 2 to 5 of RFC 8259) -----

  predicate IsBlank(c: char) { c == ' ' || c == '\t' || c == '\n' || c == '\r' }

  function SkipSpace(s: string): (r: string)
    ensures |r| <= |s|
  {
    if s != "" && IsBlank(s[0]) then SkipSpace(s[1..]) else s
  }

  predicate Begins(s: string, word: string) {
    |word| <= |s| && s[..|word|] == word
  }

  function ReadPlain(s: string): (r: Taken<Json>)
    ensures r.Taken? ==> |r.rest| < |s|
  {
    if Begins(s, "null") then Taken(Null, s[4..])
    else if Begins(s, "true") then Taken(Bool(true), s[4..])
    else if Begins(s, "false") then Taken(Bool(false), s[5..])
    else
      var n := NumberRun(s);
      if IsNumber(s[..n]) then Taken(Num(s[..n]), s[n..]) else Refused
  }

  function ReadValue(text: string): (r: Taken<Json>)
    ensures r.Taken? ==> |r.rest| < |text|
    decreases |text|, 0
  {
    var s := SkipSpace(text);
    if s == "" then Refused
    else if s[0] == '\"' then
      var t := ReadChars(s[1..]);
      if t.Taken? then Taken(Str(t.value), t.rest) else Refused
    else if s[0] == '[' then
      var inner := SkipSpace(s[1..]);
      if inner != "" && inner[0] == ']' then Taken(Arr([]), inner[1..])
      else
        var t := ReadItems(inner);
        if t.Taken? then Taken(Arr(t.value), t.rest) else Refused
    else if s[0] == '{' then
      var inner := SkipSpace(s[1..]);
      if inner != "" && inner[0] == '}' then Taken(Obj([]), inner[1..])
      else
        var t := ReadFields(inner);
        if t.Taken? then Taken(Obj(t.value), t.rest) else Refused
    else ReadPlain(s)
  }

  /** One value and what follows it up to the closing bracket. */
  function ReadItems(text: string): (r: Taken<seq<Json>>)
    ensures r.Taken? ==> |r.rest| < |text|
    decreases |text|, 1
  {
    var v := ReadValue(text);
    if v.Refused? then Refused
    else
      var next := SkipSpace(v.rest);
      if next == "" then Refused
      else if next[0] == ']' then Taken([v.value], next[1..])
      else if next[0] == ',' then Behind(v.value, ReadItems(next[1..]))
      else Refused
  }

  function ReadName(text: string): (r: Taken<string>)
    ensures r.Taken? ==> |r.rest| < |text|
  {
    var s := SkipSpace(text);
    if s == "" || s[0] != '\"' then Refused
    else
      var name := ReadChars(s[1..]);
      if name.Refused? then Refused
      else
        var next := SkipSpace(name.rest);
        if next != "" && next[0] == ':' then Taken(name.value, next[1..]) else Refused
  }

  /** One name with its value and what follows them up to the closing brace. */
  function ReadFields(text: string): (r: Taken<seq<Field>>)
    ensures r.Taken? ==> |r.rest| < |text|
    decreases |text|, 1
  {
    var name := ReadName(text);
    if name.Refused? then Refused
    else
      var v := ReadValue(name.rest);
      if v.Refused? then Refused
      else
        var field, next := Field(name.value, v.value), SkipSpace(v.rest);
        if next == "" then Refused
        else if next[0] == '}' then Taken([field], next[1..])
        else if next[0] == ',' then Behind(field, ReadFields(next[1..]))
        else Refused
  }

  /** The value a whole text denotes. */
  function ReadJson(text: string): Option<Json> {
    var v := ReadValue(text);
    if v.Taken? && SkipSpace(v.rest) == "" then Some(v.value) else None
  }

  // ----- What is printed is read back -----

  /** Its numbers are written as the grammar has them. */
  predicate WellNumbered(j: Json) {
    match j
    case Num(text) => IsNumber(text)
    case Arr(items) => forall x :: x in items ==> WellNumbered(x)
    case Obj(fields) => forall f: Field :: f in fields ==> WellNumbered(f.value)
    case _ => true
  }

  /** Nothing that could still belong to a number. */
  predicate Closed(rest: string) {
    rest != "" ==> !InNumber(rest[0])
  }

  lemma EscapeReads(c: char, rest: string)
    requires Escaped(c) != [c]
    ensures var s := Escaped(c) + rest; s[0] == '\\' && ReadEscape(s[1..]) == Taken(c, rest)
  {
    var s := Escaped(c) + rest;
    if |Escaped(c)| == 2 {
      assert s[1..] == [Escaped(c)[1]] + rest && s[1..][1..] == rest;
    } else {
      var high, low := HexDigit(c as int / 16), HexDigit(c as int % 16);
      assert s[1..] == ['u', '0', '0', high, low] + rest;
      CodeReads(c, rest);
    }
  }

  lemma CodeReads(c: char, rest: string)
    requires c as int < 32
    ensures ReadEscape(['u', '0', '0', HexDigit(c as int / 16), HexDigit(c as int % 16)] + rest) == Taken(c, rest)
  {
    var high, low := c as int / 16, c as int % 16;
    var s := ['u', '0', '0', HexDigit(high), HexDigit(low)] + rest;
    HexReads(high);
    HexReads(low);
    HexReads(0);
    assert s[1..5] == ['0', '0', HexDigit(high), HexDigit(low)] && s[5..] == rest;
  }

  lemma HexReads(n: nat)
    requires n < 16
    ensures HexValue(HexDigit(n)) == Some(n)
  {
  }

  lemma {:induction false} CharsRead(s: string, rest: string)
    ensures ReadChars(EscapedText(s) + "\"" + rest) == Taken(s, rest)
  {
    if s == "" {
      assert (EscapedText(s) + "\"" + rest)[1..] == rest;
    } else {
      var next := EscapedText(s[1..]) + "\"" + rest;
      assert EscapedText(s) + "\"" + rest == Escaped(s[0]) + next;
      CharsRead(s[1..], rest);
      if Escaped(s[0]) == [s[0]] {
        assert ([s[0]] + next)[1..] == next;
      } else {
        EscapeReads(s[0], next);
      }
      assert [s[0]] + s[1..] == s;
    }
  }

  /** Decimal digits without a leading zero. */
  predicate PlainDigits(s: string) {
    s != "" && (forall c :: c in s ==> IsDigit(c)) && (|s| > 1 ==> s[0] != '0')
  }

  lemma {:induction false} DigitsRunOn(s: string)
    requires forall c :: c in s ==> IsDigit(c)
    ensures Digits(s) == |s|
  {
    if s != "" {
      DigitsRunOn(s[1..]);
    }
  }

  lemma DigitsAreNumber(s: string)
    requires PlainDigits(s)
    ensures IsNumber(s) && OneLine(s)
  {
    DigitsRunOn(s);
    assert s[|s|..] == "" && IsDigit(s[0]);
    forall i | 0 <= i < |s| ensures s[i] as int >= 32 {
      assert s[i] in s;
    }
  }

  lemma {:induction false} RunStops(text: string, rest: string)
    requires (forall c :: c in text ==> InNumber(c)) && Closed(rest)
    ensures NumberRun(text + rest) == |text|
  {
    if text == "" {
      assert text + rest == rest;
    } else {
      assert (text + rest)[1..] == text[1..] + rest;
      RunStops(text[1..], rest);
    }
  }

  lemma {:induction false} DigitsAre(s: string)
    ensures forall i :: 0 <= i < Digits(s) ==> IsDigit(s[i])
  {
    if s != "" && IsDigit(s[0]) {
      DigitsAre(s[1..]);
    }
  }

  lemma ExponentIsOfNumber(s: string)
    requires IsExponent(s)
    ensures forall c :: c in s ==> InNumber(c)
  {
    DigitsAre(s[1..]);
    if |s| > 1 {
      DigitsAre(s[2..]);
      assert forall i :: 2 <= i < |s| ==> s[i] == s[2..][i - 2];
    }
    assert forall i :: 1 <= i < |s| ==> s[i] == s[1..][i - 1];
  }

  lemma FractionIsOfNumber(s: string)
    requires IsFraction(s)
    ensures forall c :: c in s ==> InNumber(c)
  {
    var n := Digits(s[1..]);
    DigitsAre(s[1..]);
    if s[1 + n..] != "" {
      ExponentIsOfNumber(s[1 + n..]);
    }
    forall i | 0 <= i < |s| ensures InNumber(s[i]) {
      if 1 <= i <= n { assert s[i] == s[1..][i - 1]; }
      if n < i { assert s[i] == s[1 + n..][i - 1 - n]; }
    }
  }

  lemma NumberIsOfNumber(s: string)
    requires IsNumber(s)
    ensures forall c :: c in s ==> InNumber(c)
    ensures IsDigit(s[0]) || s[0] == '-'
  {
    var k := if s[0] == '-' then 1 else 0;
    var u := s[k..];
    assert k == 0 ==> u == s;
    var n := Digits(u);
    DigitsAre(u);
    if IsFraction(u[n..]) {
      FractionIsOfNumber(u[n..]);
    } else if IsExponent(u[n..]) {
      ExponentIsOfNumber(u[n..]);
    }
    forall i | 0 <= i < |s| ensures InNumber(s[i]) {
      if k <= i < k + n { assert s[i] == u[i - k]; }
      if k + n <= i { assert s[i] == u[n..][i - k - n]; }
    }
  }

  lemma BeginsNot(s: string, word: string)
    requires s != "" && word != "" && s[0] != word[0]
    ensures !Begins(s, word)
  {
    assert |word| <= |s| ==> s[..|word|][0] == s[0];
  }

  lemma NumberReads(text: string, rest: string)
    requires IsNumber(text) && Closed(rest)
    ensures var s := text + rest; s != "" && !IsBlank(s[0]) && s[0] != '\"' && s[0] != '[' && s[0] != '{' && ReadPlain(s) == Taken(Num(text), rest)
  {
    var s := text + rest;
    NumberIsOfNumber(text);
    assert s[0] == text[0];
    BeginsNot(s, "null");
    BeginsNot(s, "true");
    BeginsNot(s, "false");
    RunStops(text, rest);
    assert s[..|text|] == text && s[|text|..] == rest;
  }

  lemma WordReads(word: string, rest: string)
    requires word in {"null", "true", "false"}
    ensures ReadPlain(word + rest)
         == Taken(if word == "null" then Null else Bool(word == "true"), rest)
  {
    var s := word + rest;
    assert s[..|word|] == word && s[|word|..] == rest && s[0] == word[0];
    if word != "null" {
      BeginsNot(s, "null");
    }
    if word == "false" {
      BeginsNot(s, "true");
    }
  }

  // What a value that begins in a certain way is.

  lemma PlainValue(s: string)
    requires s != "" && !IsBlank(s[0]) && s[0] != '\"' && s[0] != '[' && s[0] != '{'
    ensures ReadValue(s) == ReadPlain(s)
  {
  }

  lemma StringValue(s: string, inner: string)
    requires s == "\"" + inner && ReadChars(inner).Taken?
    ensures ReadValue(s) == Taken(Str(ReadChars(inner).value), ReadChars(inner).rest)
  {
    assert s[1..] == inner;
  }

  lemma ArrayValue(s: string, inner: string)
    requires s == "[" + inner && inner != "" && !IsBlank(inner[0]) && inner[0] != ']' && ReadItems(inner).Taken?
    ensures ReadValue(s) == Taken(Arr(ReadItems(inner).value), ReadItems(inner).rest)
  {
    assert s[1..] == inner;
  }

  lemma ObjectValue(s: string, inner: string)
    requires s == "{" + inner && inner != "" && inner[0] == '\"' && ReadFields(inner).Taken?
    ensures ReadValue(s) == Taken(Obj(ReadFields(inner).value), ReadFields(inner).rest)
  {
    assert s[1..] == inner;
  }

  lemma EmptyReads(rest: string)
    ensures ReadValue("[" + ("]" + rest)) == Taken(Arr([]), rest) && ReadValue("{" + ("}" + rest)) == Taken(Obj([]), rest)
  {
    var a, o := "[" + ("]" + rest), "{" + ("}" + rest);
    assert a[1..] == "]" + rest && o[1..] == "}" + rest && ("]" + rest)[1..] == rest && ("}" + rest)[1..] == rest;
  }

  // Lists of items and of fields: the first one, and the end or a comma with the others behind it.

  lemma EndItem(s: string, v: Json, rest: string)
    requires ReadValue(s) == Taken(v, "]" + rest)
    ensures ReadItems(s) == Taken([v], rest)
  {
    assert ("]" + rest)[1..] == rest;
  }

  lemma NextItem(s: string, v: Json, tail: string)
    requires ReadValue(s) == Taken(v, ", " + tail)
    ensures ReadItems(s) == Behind(v, ReadItems(tail))
  {
    assert (", " + tail)[1..] == " " + tail;
    SpacedItems(tail);
  }

  lemma SpacedItems(s: string)
    ensures ReadItems(" " + s) == ReadItems(s)
  {
    SpacedValue(s);
  }

  lemma SpacedValue(s: string)
    ensures ReadValue(" " + s) == ReadValue(s)
  {
    assert (" " + s)[1..] == s;
  }

  lemma NameReads(name: string, text: string, s: string)
    requires s == "\"" + (EscapedText(name) + "\"" + (": " + text))
    ensures ReadName(s) == Taken(name, " " + text)
  {
    CharsRead(name, ": " + text);
    assert s[1..] == EscapedText(name) + "\"" + (": " + text);
    ColonNext(": " + text, text);
  }

  lemma ColonNext(s: string, text: string)
    requires s == ": " + text
    ensures SkipSpace(s) == s && s[0] == ':' && s[1..] == " " + text
  {
  }

  lemma EndField(s: string, name: string, text: string, v: Json, rest: string)
    requires ReadName(s) == Taken(name, text) && ReadValue(text) == Taken(v, "}" + rest)
    ensures ReadFields(s) == Taken([Field(name, v)], rest)
  {
    assert ("}" + rest)[1..] == rest;
  }

  lemma NextField(s: string, name: string, text: string, v: Json, tail: string)
    requires ReadName(s) == Taken(name, text) && ReadValue(text) == Taken(v, ", " + tail)
    ensures ReadFields(s) == Behind(Field(name, v), ReadFields(" " + tail))
  {
    assert (", " + tail)[1..] == " " + tail;
  }

  lemma SpacedFields(s: string)
    ensures ReadFields(" " + s) == ReadFields(s)
  {
    assert (" " + s)[1..] == s;
    assert ReadName(" " + s) == ReadName(s);
  }

  // The same of a printed field.

  function FieldText(f: Field): string {
    Quoted(f.name) + ": " + Dumps(f.value)
  }

  // Where the printed text of lists divides.

  lemma ItemTexts(items: seq<Json>, rest: string)
    requires items != []
    ensures |items| == 1 ==> DumpItems(items) + "]" + rest == Dumps(items[0]) + ("]" + rest)
    ensures |items| > 1 ==> DumpItems(items) + "]" + rest == Dumps(items[0]) + (", " + (DumpItems(items[1..]) + "]" + rest))
  {
    if |items| > 1 {
      Regroup(Dumps(items[0]), ", ", DumpItems(items[1..]), "]", rest);
    }
  }

  lemma FieldTexts(fields: seq<Field>, rest: string)
    requires fields != []
    ensures |fields| == 1 ==> DumpFields(fields) + "}" + rest == FieldText(fields[0]) + ("}" + rest)
    ensures |fields| > 1 ==> DumpFields(fields) + "}" + rest == FieldText(fields[0]) + (", " + (DumpFields(fields[1..]) + "}" + rest))
  {
    if |fields| > 1 {
      Regroup(FieldText(fields[0]), ", ", DumpFields(fields[1..]), "}", rest);
    }
  }

  lemma Regroup(a: string, b: string, c: string, d: string, e: string)
    ensures a + b + c + d + e == a + (b + (c + d + e))
  {
  }

  lemma FieldDivides(f: Field, behind: string)
    ensures FieldText(f) + behind == "\"" + (EscapedText(f.name) + "\"" + (": " + (Dumps(f.value) + behind)))
  {
    RegroupField("\"", EscapedText(f.name), ": ", Dumps(f.value), behind);
  }

  lemma RegroupField(q: string, a: string, b: string, c: string, d: string)
    ensures (q + a + q) + b + c + d == q + (a + q + (b + (c + d)))
  {
  }

  /** Printed values begin with neither white space nor a bracket that closes. */
  lemma DumpsBegins(j: Json)
    requires WellNumbered(j)
    ensures Dumps(j) != "" && !IsBlank(Dumps(j)[0]) && Dumps(j)[0] != ']'
  {
    if j.Num? {
      NumberIsOfNumber(j.text);
    }
  }

  lemma OneField(fields: seq<Field>, text: string, rest: string, s: string)
    requires |fields| == 1 && text == Dumps(fields[0].value) + ("}" + rest) && s == FieldText(fields[0]) + ("}" + rest)
    requires ReadValue(text) == Taken(fields[0].value, "}" + rest)
    ensures ReadFields(s) == Taken(fields, rest)
  {
    var f := fields[0];
    FieldDivides(f, "}" + rest);
    NameReads(f.name, text, s);
    SpacedValue(text);
    EndField(s, f.name, " " + text, f.value, rest);
    assert fields == [Field(f.name, f.value)];
  }

  lemma MoreFields(fields: seq<Field>, text: string, tail: string, rest: string, s: string)
    requires |fields| > 1 && text == Dumps(fields[0].value) + (", " + tail) && s == FieldText(fields[0]) + (", " + tail)
    requires ReadValue(text) == Taken(fields[0].value, ", " + tail) && ReadFields(tail) == Taken(fields[1..], rest)
    ensures ReadFields(s) == Taken(fields, rest)
  {
    FieldDivides(fields[0], ", " + tail);
    FieldThenMore(fields[0], text, s, tail);
    assert fields == [fields[0]] + fields[1..];
  }

  lemma FieldThenMore(f: Field, text: string, s: string, tail: string)
    requires s == "\"" + (EscapedText(f.name) + "\"" + (": " + text)) && ReadValue(text) == Taken(f.value, ", " + tail)
    ensures ReadFields(s) == Behind(f, ReadFields(tail))
  {
    NameReads(f.name, text, s);
    SpacedValue(text);
    SpacedFields(tail);
    NextField(s, f.name, " " + text, f.value, tail);
  }

  // ----- Whole values: s is the printed text with what follows it, r what reading it gives -----

  /** A printed value is read as that value, whatever follows it that is no part of a number. */
  lemma {:induction false} ValueReads(j: Json, rest: string, s: string, r: Taken<Json>)
    requires WellNumbered(j) && Closed(rest) && s == Dumps(j) + rest && r == ReadValue(s)
    ensures r == Taken(j, rest)
    decreases j, 1
  {
    match j
    case Str(t) => TextReads(t, rest, s, r);
    case Arr(items) => ArrayReads(items, rest, s, r);
    case Obj(fields) => ObjectReads(fields, rest, s, r);
    case _ => PlainReads(j, rest, s, r);
  }

  lemma PlainReads(j: Json, rest: string, s: string, r: Taken<Json>)
    requires (j.Null? || j.Bool? || (j.Num? && IsNumber(j.text))) && Closed(rest) && s == Dumps(j) + rest && r == ReadValue(s)
    ensures r == Taken(j, rest)
  {
    if j.Num? {
      NumberReads(j.text, rest);
    } else {
      WordReads(Dumps(j), rest);
    }
    PlainValue(s);
  }

  lemma TextReads(t: string, rest: string, s: string, r: Taken<Json>)
    requires s == Quoted(t) + rest && r == ReadValue(s)
    ensures r == Taken(Str(t), rest)
  {
    var inner := EscapedText(t) + "\"" + rest;
    CharsRead(t, rest);
    Enclosed("\"", EscapedText(t), "\"", rest);
    StringValue(s, inner);
  }

  lemma Enclosed(open: string, text: string, close: string, rest: string)
    ensures open + text + close + rest == open + (text + close + rest)
    ensures text == "" ==> open + text + close + rest == open + (close + rest)
  {
  }

  lemma {:induction false} ArrayReads(items: seq<Json>, rest: string, s: string, r: Taken<Json>)
    requires (forall x :: x in items ==> WellNumbered(x)) && s == "[" + DumpItems(items) + "]" + rest && r == ReadValue(s)
    ensures r == Taken(Arr(items), rest)
    decreases items, 1
  {
    Enclosed("[", DumpItems(items), "]", rest);
    if items == [] {
      EmptyReads(rest);
    } else {
      var inner := DumpItems(items) + "]" + rest;
      ItemsRead(items, rest, inner, ReadItems(inner));
      DumpsBegins(items[0]);
      ArrayValue(s, inner);
    }
  }

  lemma {:induction false} ObjectReads(fields: seq<Field>, rest: string, s: string, r: Taken<Json>)
    requires (forall f: Field :: f in fields ==> WellNumbered(f.value)) && s == "{" + DumpFields(fields) + "}" + rest && r == ReadValue(s)
    ensures r == Taken(Obj(fields), rest)
    decreases fields, 1
  {
    Enclosed("{", DumpFields(fields), "}", rest);
    if fields == [] {
      EmptyReads(rest);
    } else {
      var inner := DumpFields(fields) + "}" + rest;
      FieldsRead(fields, rest, inner, ReadFields(inner));
      FieldsBegin(fields, rest);
      ObjectValue(s, inner);
    }
  }

  lemma FieldsBegin(fields: seq<Field>, rest: string)
    requires fields != []
    ensures var s := DumpFields(fields) + "}" + rest; s != "" && s[0] == '\"'
  {
  }

  lemma {:induction false} ItemsRead(items: seq<Json>, rest: string, s: string, r: Taken<seq<Json>>)
    requires items != [] && (forall x :: x in items ==> WellNumbered(x)) && s == DumpItems(items) + "]" + rest && r == ReadItems(s)
    ensures r == Taken(items, rest)
    decreases items, 0
  {
    ItemTexts(items, rest);
    if |items| == 1 {
      ValueReads(items[0], "]" + rest, s, ReadValue(s));
      EndItem(s, items[0], rest);
      assert items == [items[0]];
    } else {
      var tail := DumpItems(items[1..]) + "]" + rest;
      ValueReads(items[0], ", " + tail, s, ReadValue(s));
      ItemsRead(items[1..], rest, tail, ReadItems(tail));
      MoreItems(items, tail, rest, s);
    }
  }

  lemma MoreItems(items: seq<Json>, tail: string, rest: string, s: string)
    requires |items| > 1 && ReadValue(s) == Taken(items[0], ", " + tail) && ReadItems(tail) == Taken(items[1..], rest)
    ensures ReadItems(s) == Taken(items, rest)
  {
    NextItem(s, items[0], tail);
    assert items == [items[0]] + items[1..];
  }

  lemma {:induction false} FieldsRead(fields: seq<Field>, rest: string, s: string, r: Taken<seq<Field>>)
    requires fields != [] && (forall f: Field :: f in fields ==> WellNumbered(f.value))
    requires s == DumpFields(fields) + "}" + rest && r == ReadFields(s)
    ensures r == Taken(fields, rest)
    decreases fields, 0
  {
    var first := fields[0];
    FieldTexts(fields, rest);
    if |fields| == 1 {
      var text := Dumps(first.value) + ("}" + rest);
      ValueReads(first.value, "}" + rest, text, ReadValue(text));
      OneField(fields, text, rest, s);
    } else {
      var tail := DumpFields(fields[1..]) + "}" + rest;
      var text := Dumps(first.value) + (", " + tail);
      ValueReads(first.value, ", " + tail, text, ReadValue(text));
      FieldsRead(fields[1..], rest, tail, ReadFields(tail));
      MoreFields(fields, text, tail, rest, s);
    }
  }

  /** Whatever the server prints, the page reads back. */
  lemma DumpsReadsBack(j: Json)
    requires WellNumbered(j)
    ensures ReadJson(Dumps(j)) == Some(j)
  {
    ValueReads(j, "", Dumps(j), ReadValue(Dumps(j)));
  }
}
