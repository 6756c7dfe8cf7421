/**
 The event stream on the wire: how the server prints a frame, and how the page cuts the text it receives into blocks and fields.
 Frames use the part of section 9.2 of the WHATWG HTML Living Standard that the service needs:
 `retry`, `event` and `data` fields, one per line, and a blank line after each frame.
 */
module SseWire {
  import opened Json
  import opened Text

  // ----- Printing -----

  function HexDigit(n: nat): char
    requires n < 16
  {
    "0123456789abcdef"[n]
  }

  /** The escapes of a JSON string (section 7 of RFC 8259), leaving everything above the control range as it is. */
  function Escaped(c: char): string {
    if c == '\"' then "\\\""
    else if c == '\\' then "\\\\"
    else if c == '\n' then "\\n"
    else if c == '\r' then "\\r"
    else if c == '\t' then "\\t"
    else if c as int == 8 then "\\b"
    else if c as int == 12 then "\\f"
    else if c as int < 32 then "\\u00" + [HexDigit(c as int / 16), HexDigit(c as int % 16)]
    else [c]
  }

  function EscapedText(s: string): string {
    if s == "" then "" else Escaped(s[0]) + EscapedText(s[1..])
  }

  function Quoted(s: string): string {
    "\"" + EscapedText(s) + "\""
  }

  function Dumps(j: Json): string {
    match j
    case Null => "null"
    case Bool(b) => if b then "true" else "false"
    case Num(text) => text
    case Str(s) => Quoted(s)
    case Arr(items) => "[" + DumpItems(items) + "]"
    case Obj(fields) => "{" + DumpFields(fields) + "}"
  }

  function DumpItems(items: seq<Json>): string {
    if items == [] then ""
    else if |items| == 1 then Dumps(items[0])
    else Dumps(items[0]) + ", " + DumpItems(items[1..])
  }

  function DumpFields(fields: seq<Field>): string {
    if fields == [] then ""
    else
      var first := Quoted(fields[0].name) + ": " + Dumps(fields[0].value);
      if |fields| == 1 then first else first + ", " + DumpFields(fields[1..])
  }

  const RETRY_HINT := "retry: 5000\n"

  /** One frame; `retry` asks for the reconnection hint in front of it, inside the same block. */
  datatype Frame = Frame(retry: bool, name: string, data: Json)

  function FrameBody(f: Frame): string {
    (if f.retry then RETRY_HINT else "") + "event: " + f.name + "\ndata: " + Dumps(f.data)
  }

  function SseEvent(f: Frame): string {
    FrameBody(f) + "\n\n"
  }

  function Printed(frames: seq<Frame>): string {
    if frames == [] then "" else SseEvent(frames[0]) + Printed(frames[1..])
  }

  // ----- JSON text is one line -----

  predicate OneLine(s: string) {
    forall i :: 0 <= i < |s| ==> s[i] as int >= 32
  }

  /** The only text a value brings along unescaped is that of its numbers. */
  predicate PlainNumbers(j: Json) {
    match j
    case Num(text) => OneLine(text)
    case Arr(items) => forall x :: x in items ==> PlainNumbers(x)
    case Obj(fields) => forall f: Field :: f in fields ==> PlainNumbers(f.value)
    case _ => true
  }

  lemma {:induction false} EscapedTextIsOneLine(s: string)
    ensures OneLine(EscapedText(s))
  {
    if s != "" {
      EscapedTextIsOneLine(s[1..]);
    }
  }

  /** JSON text never contains a raw line feed, whatever the strings inside it contain. */
  lemma {:induction false} DumpsIsOneLine(j: Json)
    requires PlainNumbers(j)
    ensures OneLine(Dumps(j))
  {
    match j
    case Str(s) => EscapedTextIsOneLine(s);
    case Arr(items) => ItemsAreOneLine(items);
    case Obj(fields) => FieldsAreOneLine(fields);
    case _ =>
  }

  lemma {:induction false} ItemsAreOneLine(items: seq<Json>)
    requires forall x :: x in items ==> PlainNumbers(x)
    ensures OneLine(DumpItems(items))
  {
    if items != [] {
      DumpsIsOneLine(items[0]);
      ItemsAreOneLine(items[1..]);
    }
  }

  lemma {:induction false} FieldsAreOneLine(fields: seq<Field>)
    requires forall f: Field :: f in fields ==> PlainNumbers(f.value)
    ensures OneLine(DumpFields(fields))
  {
    if fields != [] {
      EscapedTextIsOneLine(fields[0].name);
      DumpsIsOneLine(fields[0].value);
      FieldsAreOneLine(fields[1..]);
    }
  }

  // ----- Cutting text into blocks -----

  function InFront(c: char, pieces: seq<string>): (r: seq<string>)
    requires pieces != []
    ensures |r| == |pieces|
  {
    [[c] + pieces[0]] + pieces[1..]
  }

  /** Splits at every blank line, leftmost first; the last piece is what is not yet complete. */
  function SplitBlocks(s: string): (r: seq<string>)
    ensures r != []
  {
    if |s| < 2 then [s]
    else if s[0] == '\n' && s[1] == '\n' then [""] + SplitBlocks(s[2..])
    else InFront(s[0], SplitBlocks(s[1..]))
  }

  function Blocks(s: string): seq<string> {
    var r := SplitBlocks(s);
    r[..|r| - 1]
  }

  function Rest(s: string): string {
    var r := SplitBlocks(s);
    r[|r| - 1]
  }

  /** Cutting a text early only delays: the blocks already complete stay, and the rest goes in front of what follows. */
  lemma {:induction false} SplitResumes(a: string, b: string)
    ensures SplitBlocks(a + b) == Blocks(a) + SplitBlocks(Rest(a) + b)
  {
    if |a| < 2 {
      assert Blocks(a) == [] && Rest(a) == a;
      assert [] + SplitBlocks(a + b) == SplitBlocks(a + b);
    } else if a[0] == '\n' && a[1] == '\n' {
      SplitResumes(a[2..], b);
      BlankResumes(a[2..], b);
      assert a == "\n\n" + a[2..];
    } else {
      SplitResumes(a[1..], b);
      CharResumes(a[0], a[1..], b);
      assert a == [a[0]] + a[1..];
    }
  }

  lemma BlankResumes(t: string, b: string)
    requires SplitBlocks(t + b) == Blocks(t) + SplitBlocks(Rest(t) + b)
    ensures SplitBlocks("\n\n" + t + b) == Blocks("\n\n" + t) + SplitBlocks(Rest("\n\n" + t) + b)
  {
    var a := "\n\n" + t;
    assert a[2..] == t && (a + b)[2..] == t + b && "\n\n" + t + b == a + b;
    assert SplitBlocks(a) == [""] + SplitBlocks(t) && SplitBlocks(a + b) == [""] + SplitBlocks(t + b);
    assert Rest(a) == Rest(t) && Blocks(a) == [""] + Blocks(t);
  }

  lemma CharResumes(c: char, t: string, b: string)
    requires SplitBlocks(t + b) == Blocks(t) + SplitBlocks(Rest(t) + b)
    requires var a := [c] + t; |a| >= 2 && !(a[0] == '\n' && a[1] == '\n')
    ensures SplitBlocks([c] + t + b) == Blocks([c] + t) + SplitBlocks(Rest([c] + t) + b)
  {
    var a := [c] + t;
    assert a[1..] == t && (a + b)[1..] == t + b;
    var pieces, tail := SplitBlocks(t), SplitBlocks(Rest(t) + b);
    assert SplitBlocks(a) == InFront(c, pieces);
    assert SplitBlocks(a + b) == InFront(c, SplitBlocks(t + b));
    if |pieces| == 1 {
      RestWithoutBlocks(t);
      assert Blocks(a) == [] && Rest(a) == a;
    } else {
      assert Rest(a) == Rest(t) && Blocks(a) == InFront(c, Blocks(t));
      InFrontOfFirst(c, Blocks(t), tail);
    }
  }

  lemma InFrontOfFirst(c: char, blocks: seq<string>, tail: seq<string>)
    requires blocks != []
    ensures InFront(c, blocks + tail) == InFront(c, blocks) + tail
  {
    assert (blocks + tail)[1..] == blocks[1..] + tail;
  }

  lemma {:induction false} RestWithoutBlocks(s: string)
    requires |SplitBlocks(s)| == 1
    ensures Rest(s) == s
  {
    if |s| >= 2 {
      RestWithoutBlocks(s[1..]);
    }
  }

  lemma BlocksResume(a: string, b: string)
    ensures Blocks(a + b) == Blocks(a) + Blocks(Rest(a) + b)
    ensures Rest(a + b) == Rest(Rest(a) + b)
  {
    SplitResumes(a, b);
  }

  // ----- Fields of a block -----

  datatype Parsed = Parsed(name: string, data: string)

  function Starts(line: string, field: string): bool {
    |field| <= |line| && line[..|field|] == field
  }

  function ParseLine(acc: Parsed, line: string): Parsed {
    if Starts(line, "event:") then acc.(name := Trim(IsJsSpace, line[6..]))
    else if Starts(line, "data:") then acc.(data := acc.data + Trim(IsJsSpace, line[5..]))
    else acc
  }

  function ParseLines(acc: Parsed, lines: seq<string>): Parsed
    decreases |lines|
  {
    if lines == [] then acc else ParseLines(ParseLine(acc, lines[0]), lines[1..])
  }

  lemma {:induction false} ParseLinesSnoc(acc: Parsed, lines: seq<string>, line: string)
    ensures ParseLines(acc, lines + [line]) == ParseLine(ParseLines(acc, lines), line)
    decreases |lines|
  {
    if lines == [] {
      assert [line][1..] == [];
    } else {
      assert (lines + [line])[1..] == lines[1..] + [line];
      ParseLinesSnoc(ParseLine(acc, lines[0]), lines[1..], line);
    }
  }

  /** The event name defaults to "message"; several data lines run together. */
  function ParseBlock(block: string): Parsed {
    ParseLines(Parsed("message", ""), SplitLines(block))
  }

  // ----- The reader, chunk by chunk -----

  /** Feeds chunks through a buffer: the blocks seen, and what is left in the buffer. */
  function Feed(buffer: string, chunks: seq<string>): (seq<string>, string)
    decreases |chunks|
  {
    if chunks == [] then ([], buffer)
    else
      var filled := buffer + chunks[0];
      var (blocks, rest) := Feed(Rest(filled), chunks[1..]);
      (Blocks(filled) + blocks, rest)
  }

  lemma FeedStep(buffer: string, chunk: string, later: string)
    ensures Blocks(buffer + chunk) + Blocks(Rest(buffer + chunk) + later) == Blocks(buffer + (chunk + later))
    ensures Rest(Rest(buffer + chunk) + later) == Rest(buffer + (chunk + later))
  {
    BlocksResume(buffer + chunk, later);
    assert buffer + chunk + later == buffer + (chunk + later);
  }

  /** However the text is cut into chunks, the reader sees the blocks of the whole text, and keeps its incomplete rest. */
  lemma {:induction false} ChunkingDoesNotMatter(buffer: string, chunks: seq<string>)
    requires Blocks(buffer) == []
    ensures Feed(buffer, chunks) == (Blocks(buffer + Concat(chunks)), Rest(buffer + Concat(chunks)))
    decreases |chunks|
  {
    if chunks == [] {
      assert buffer + Concat(chunks) == buffer;
      RestWithoutBlocks(buffer);
    } else {
      RestIsIncomplete(buffer + chunks[0]);
      ChunkingDoesNotMatter(Rest(buffer + chunks[0]), chunks[1..]);
      FeedStep(buffer, chunks[0], Concat(chunks[1..]));
    }
  }

  /** What is kept back contains no blank line. */
  lemma {:induction false} RestIsIncomplete(s: string)
    ensures Blocks(Rest(s)) == []
  {
    if |s| < 2 {
    } else if s[0] == '\n' && s[1] == '\n' {
      RestIsIncomplete(s[2..]);
    } else {
      RestIsIncomplete(s[1..]);
      if |SplitBlocks(s[1..])| == 1 {
        RestWithoutBlocks(s[1..]);
        assert Rest(s) == s;
      }
    }
  }

  // ----- Round trip -----

  /** Names contain no line feed and no white space at the ends; payloads are objects. */
  predicate Printable(f: Frame) {
    && '\n' !in f.name && Trimmed(IsJsSpace, f.name)
    && f.data.Obj? && PlainNumbers(f.data)
  }

  predicate NoBlankLine(s: string) {
    && (s != "" ==> s[|s| - 1] != '\n')
    && forall i :: 0 <= i < |s| - 1 ==> !(s[i] == '\n' && s[i + 1] == '\n')
  }

  lemma {:induction false} FirstBlock(body: string, rest: string)
    requires NoBlankLine(body)
    ensures SplitBlocks(body + "\n\n" + rest) == [body] + SplitBlocks(rest)
  {
    var s := body + "\n\n" + rest;
    if body == "" {
      assert s[2..] == rest;
    } else {
      var t := body[1..];
      assert s[1..] == t + "\n\n" + rest;
      assert s[0] == body[0] && (|body| > 1 ==> s[1] == body[1]);
      assert NoBlankLine(t) by {
        forall i | 0 <= i < |t| - 1 ensures !(t[i] == '\n' && t[i + 1] == '\n') {
          assert t[i] == body[i + 1] && t[i + 1] == body[i + 2];
        }
      }
      FirstBlock(t, rest);
      assert [s[0]] + t == body;
    }
  }

  lemma TrimAfterBlank(s: string)
    requires Trimmed(IsJsSpace, s)
    ensures Trim(IsJsSpace, " " + s) == s
  {
    assert (" " + s)[1..] == s;
    assert TrimLeft(IsJsSpace, " " + s) == TrimLeft(IsJsSpace, s) == s;
  }

  function EventLine(f: Frame): string { "event: " + f.name }

  function DataLine(f: Frame): string { "data: " + Dumps(f.data) }

  lemma LinesAreLines(f: Frame)
    requires Printable(f)
    ensures '\n' !in EventLine(f) && '\n' !in DataLine(f)
  {
    DumpsIsOneLine(f.data);
    forall i | 0 <= i < |DataLine(f)| ensures DataLine(f)[i] != '\n' {
      if i >= 6 {
        assert DataLine(f)[i] == Dumps(f.data)[i - 6];
      }
    }
  }

  lemma DataLineHasNoBlank(f: Frame)
    requires Printable(f)
    ensures NoBlankLine(DataLine(f))
  {
    LinesAreLines(f);
    assert DataLine(f)[|DataLine(f)| - 1] in DataLine(f);
    forall i | 0 <= i < |DataLine(f)| - 1 ensures DataLine(f)[i] != '\n' {
      assert DataLine(f)[i] in DataLine(f);
    }
  }

  lemma FrameLines(f: Frame)
    requires Printable(f)
    ensures SplitLines(FrameBody(f)) == (if f.retry then ["retry: 5000"] else []) + [EventLine(f), DataLine(f)]
    ensures NoBlankLine(FrameBody(f))
  {
    var tail := EventLine(f) + "\n" + DataLine(f);
    TailLines(f);
    BodyIsLines(f);
    if f.retry {
      FirstLineAdded("retry: 5000", tail);
    }
  }

  lemma BodyIsLines(f: Frame)
    ensures var tail := EventLine(f) + "\n" + DataLine(f);
      FrameBody(f) == if f.retry then "retry: 5000" + "\n" + tail else tail
  {
    var text := Dumps(f.data);
    assert "event: " + f.name + "\ndata: " + text == "event: " + f.name + "\n" + ("data: " + text);
    assert RETRY_HINT == "retry: 5000" + "\n";
  }

  lemma TailLines(f: Frame)
    requires Printable(f)
    ensures var tail := EventLine(f) + "\n" + DataLine(f);
      tail[0] != '\n' && NoBlankLine(tail) && SplitLines(tail) == [EventLine(f), DataLine(f)]
  {
    LinesAreLines(f);
    DataLineHasNoBlank(f);
    SplitOnlyLine(DataLine(f));
    FirstLineAdded(EventLine(f), DataLine(f));
  }

  /** Another line in front of text that starts with no line feed. */
  lemma FirstLineAdded(line: string, rest: string)
    requires line != "" && '\n' !in line && rest != "" && rest[0] != '\n' && NoBlankLine(rest)
    ensures NoBlankLine(line + "\n" + rest) && SplitLines(line + "\n" + rest) == [line] + SplitLines(rest)
  {
    SplitFirstLine(line, rest);
    var s := line + "\n" + rest;
    forall i | 0 <= i < |s| - 1 ensures !(s[i] == '\n' && s[i + 1] == '\n') {
      CharAt(line, rest, i);
      CharAt(line, rest, i + 1);
      if i < |line| {
        assert line[i] in line;
      }
    }
    CharAt(line, rest, |s| - 1);
  }

  lemma CharAt(line: string, rest: string, i: nat)
    requires i <= |line| + |rest|
    ensures (line + "\n" + rest)[i] == if i < |line| then line[i] else if i == |line| then '\n' else rest[i - |line| - 1]
  {
  }

  lemma FieldLinesParse(f: Frame)
    requires Printable(f)
    ensures ParseLines(Parsed("message", ""), [EventLine(f), DataLine(f)]) == Parsed(f.name, Dumps(f.data))
  {
    var event, data := EventLine(f), DataLine(f);
    EventLineParses(f);
    DataLineParses(f);
    assert [event, data] == [event] + [data] && [event] == [] + [event];
    ParseLinesSnoc(Parsed("message", ""), [], event);
    ParseLinesSnoc(Parsed("message", ""), [event], data);
  }

  lemma EventLineParses(f: Frame)
    requires Printable(f)
    ensures ParseLine(Parsed("message", ""), EventLine(f)) == Parsed(f.name, "")
  {
    EventTextParses(f.name);
  }

  lemma EventTextParses(text: string)
    requires Trimmed(IsJsSpace, text)
    ensures ParseLine(Parsed("message", ""), "event: " + text) == Parsed(text, "")
  {
    var event := "event: " + text;
    assert event[6..] == " " + text && event[..6] == "event:";
    TrimAfterBlank(text);
  }

  lemma DataTextParses(name: string, text: string)
    requires Trimmed(IsJsSpace, text)
    ensures ParseLine(Parsed(name, ""), "data: " + text) == Parsed(name, text)
  {
    var data := "data: " + text;
    assert data[5..] == " " + text && data[..5] == "data:" && data[0] == 'd';
    NoEventLine(data);
    TrimAfterBlank(text);
    assert "" + text == text;
  }

  lemma NoEventLine(line: string)
    requires line != "" && line[0] != 'e'
    ensures !Starts(line, "event:")
  {
    if |line| >= 6 {
      assert line[..6][0] == line[0];
    }
  }

  lemma DataLineParses(f: Frame)
    requires Printable(f)
    ensures ParseLine(Parsed(f.name, ""), DataLine(f)) == Parsed(f.name, Dumps(f.data))
  {
    DumpsIsTrimmed(f.data);
    DataTextParses(f.name, Dumps(f.data));
  }

  lemma DumpsIsTrimmed(j: Json)
    requires j.Obj?
    ensures Trimmed(IsJsSpace, Dumps(j))
  {
  }

  lemma FrameParses(f: Frame)
    requires Printable(f)
    ensures ParseBlock(FrameBody(f)) == Parsed(f.name, Dumps(f.data))
  {
    FrameLines(f);
    FieldLinesParse(f);
    var lines := [EventLine(f), DataLine(f)];
    if f.retry {
      var all := ["retry: 5000"] + lines;
      assert all[1..] == lines;
      assert "retry: 5000"[..6][0] == 'r' && "retry: 5000"[..5][0] == 'r';
      assert ParseLine(Parsed("message", ""), "retry: 5000") == Parsed("message", "");
    } else {
      assert [] + lines == lines;
    }
  }

  function ParseAll(blocks: seq<string>): seq<Parsed> {
    if blocks == [] then [] else [ParseBlock(blocks[0])] + ParseAll(blocks[1..])
  }

  function Sent(frames: seq<Frame>): seq<Parsed> {
    if frames == [] then [] else [Parsed(frames[0].name, Dumps(frames[0].data))] + Sent(frames[1..])
  }

  function Bodies(frames: seq<Frame>): seq<string> {
    if frames == [] then [] else [FrameBody(frames[0])] + Bodies(frames[1..])
  }

  lemma {:induction false} PrintedBlocks(frames: seq<Frame>)
    requires forall f :: f in frames ==> Printable(f)
    ensures Blocks(Printed(frames)) == Bodies(frames) && Rest(Printed(frames)) == ""
  {
    if frames != [] {
      var f, rest := frames[0], Printed(frames[1..]);
      assert f in frames;
      PrintedBlocks(frames[1..]);
      FrameIsBlock(f, rest);
    }
  }

  lemma FrameIsBlock(f: Frame, rest: string)
    requires Printable(f)
    ensures Blocks(SseEvent(f) + rest) == [FrameBody(f)] + Blocks(rest) && Rest(SseEvent(f) + rest) == Rest(rest)
  {
    FrameLines(f);
    FirstBlock(FrameBody(f), rest);
    var r := SplitBlocks(rest);
    assert ([FrameBody(f)] + r)[..|r|] == [FrameBody(f)] + r[..|r| - 1];
  }

  lemma {:induction false} BodiesParse(frames: seq<Frame>)
    requires forall f :: f in frames ==> Printable(f)
    ensures ParseAll(Bodies(frames)) == Sent(frames)
  {
    if frames != [] {
      FrameParses(frames[0]);
      BodiesParse(frames[1..]);
      assert Bodies(frames)[1..] == Bodies(frames[1..]);
    }
  }

  /** What the server prints is what the page reads: the same names and payloads in order, nothing left over, in any chunking. */
  lemma RoundTrip(frames: seq<Frame>, chunks: seq<string>)
    requires forall f :: f in frames ==> Printable(f)
    requires Concat(chunks) == Printed(frames)
    ensures var (blocks, rest) := Feed("", chunks); ParseAll(blocks) == Sent(frames) && rest == ""
  {
    ChunkingDoesNotMatter("", chunks);
    assert "" + Concat(chunks) == Printed(frames);
    PrintedBlocks(frames);
    BodiesParse(frames);
  }

  lemma HintInFront(hint: string, event: string, name: string, line: string, data: string, end: string)
    ensures hint + event + name + line + data + end == hint + ("" + event + name + line + data + end)
    ensures ("" + event + name + line + data + end)[..|event|] == event
  {
  }

  /** A frame that asks for it begins with the reconnection hint of five seconds; the others carry none. */
  lemma HintComesFirst(f: Frame)
    ensures var plain := SseEvent(f.(retry := false));
      SseEvent(f) == (if f.retry then "retry: 5000\n" else "") + plain && |plain| >= 7 && plain[..7] == "event: "
  {
    HintInFront(if f.retry then "retry: 5000\n" else "", "event: ", f.name, "\ndata: ", Dumps(f.data), "\n\n");
  }
}
