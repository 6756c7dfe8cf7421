/** The page's side of a streamed answer: the read loop, and what one pass over the whole text would give. */
module StreamReader {
  import opened Wrappers
  import opened Json
  import opened Text
  import opened SseWire

  datatype Status = Reading | DoneSeen | ErrorSeen

  /** The variables of the read loop and the text shown in the bubble. */
  datatype Page = Page(assembled: string, citations: seq<Json>, messageId: Option<Json>, shown: string, status: Status)

  const FRESH := Page("", [], None, "", Reading)

  predicate Truthy(host: Host, j: Json) {
    match j
    case Null => false
    case Bool(b) => b
    case Num(text) => !host.zero(text)
    case Str(s) => s != ""
    case _ => true
  }

  /** A property of a value; what has no properties has nothing there. */
  function Property(j: Json, name: string): Json {
    if j.Obj? then LastField(j.fields, name) else Null
  }

  /** The first truthy one of several properties. */
  function FirstTruthy(host: Host, j: Json, names: seq<string>): Option<Json> {
    if names == [] then None
    else if Truthy(host, Property(j, names[0])) then Some(Property(j, names[0]))
    else FirstTruthy(host, j, names[1..])
  }

  function AsText(host: Host, j: Option<Json>, otherwise: string): string {
    match j
    case None => otherwise
    case Some(v) => if v.Str? then v.s else host.text(v)
  }

  /** Text that does not parse is wrapped as it is; no data means no payload. */
  function Payload(host: Host, data: string): Option<Json> {
    if data == "" then None
    else
      match host.parse(data)
      case None => Some(Obj([Field("raw", Str(data))]))
      case Some(j) => if Truthy(host, j) then Some(j) else None
  }

  function Handle(host: Host, page: Page, e: Parsed): Page {
    var payload := Payload(host, e.data);
    if e.name == "meta" && payload.Some? then
      page.(messageId := FirstTruthy(host, payload.value, ["message_id", "assistant_message_id"]))
    else if e.name == "token" && payload.Some? then
      var assembled := page.assembled + AsText(host, FirstTruthy(host, payload.value, ["delta", "token", "text"]), "");
      page.(assembled := assembled, shown := assembled + "▍")
    else if e.name == "citation" && payload.Some? then
      page.(citations := page.citations + [payload.value])
    else if e.name == "done" then
      page.(shown := if page.assembled != "" then page.assembled else "（无内容）", status := DoneSeen)
    else if e.name == "error" && payload.Some? then
      page.(shown := "❌ " + AsText(host, FirstTruthy(host, payload.value, ["message"]), "AI 出错"), status := ErrorSeen)
    else page
  }

  /** Handles blocks in order until one of them ends the stream. */
  function HandleBlocks(host: Host, page: Page, blocks: seq<string>): Page
    decreases |blocks|
  {
    if blocks == [] || !page.status.Reading? then page
    else HandleBlocks(host, Handle(host, page, ParseBlock(blocks[0])), blocks[1..])
  }

  lemma {:induction false} HandleBlocksSplits(host: Host, page: Page, a: seq<string>, b: seq<string>)
    ensures HandleBlocks(host, page, a + b) == HandleBlocks(host, HandleBlocks(host, page, a), b)
    decreases |a|
  {
    if a == [] {
      assert a + b == b;
    } else if page.status.Reading? {
      assert (a + b)[1..] == a[1..] + b;
      HandleBlocksSplits(host, Handle(host, page, ParseBlock(a[0])), a[1..], b);
    }
  }

  lemma HandleOneMore(host: Host, page: Page, blocks: seq<string>, block: string)
    requires HandleBlocks(host, page, blocks).status.Reading?
    ensures HandleBlocks(host, page, blocks + [block]) == Handle(host, HandleBlocks(host, page, blocks), ParseBlock(block))
  {
    HandleBlocksSplits(host, page, blocks, [block]);
    var before := HandleBlocks(host, page, blocks);
    assert [block][1..] == [];
    assert HandleBlocks(host, before, [block]) == HandleBlocks(host, Handle(host, before, ParseBlock(block)), []);
  }

  // ----- How reading can end -----

  /** How the reader behaves once all chunks are out: it closes, the user stops it, or the connection breaks. */
  datatype Ending = Closed | Aborted | Broken

  /** What the function returns, what the page holds, and whether a cancel request goes to the server. */
  datatype Outcome = Outcome(handled: bool, page: Page, cancels: bool)

  function Finish(page: Page, ending: Ending): Outcome {
    if !page.status.Reading? then Outcome(true, page, false)
    else
      match ending
      case Closed => if page.assembled != "" then Outcome(true, page.(shown := page.assembled), false) else Outcome(false, page, false)
      case Aborted => Outcome(true, page.(shown := page.assembled + "（已停止）"), page.messageId.Some?)
      case Broken => Outcome(false, page, false)
  }

  /** One pass over the whole text. */
  function OnePass(host: Host, text: string, ending: Ending): Outcome {
    Finish(HandleBlocks(host, FRESH, Blocks(text)), ending)
  }

  method ParseFields(block: string) returns (e: Parsed)
    ensures e == ParseBlock(block)
  {
    var lines := SplitLines(block);
    e := Parsed("message", "");
    for i := 0 to |lines|
      invariant e == ParseLines(Parsed("message", ""), lines[..i])
    {
      var line := lines[i];
      ParseLinesSnoc(Parsed("message", ""), lines[..i], line);
      assert lines[..i + 1] == lines[..i] + [line];
      if Starts(line, "event:") {
        e := e.(name := Trim(IsJsSpace, line[6..]));
      } else if Starts(line, "data:") {
        e := e.(data := e.data + Trim(IsJsSpace, line[5..]));
      }
    }
    assert lines[..|lines|] == lines;
  }

  /** Handles the complete blocks of one buffer, up to the one that ends the stream. */
  method HandleEvents(host: Host, page: Page, events: seq<string>) returns (after: Page)
    requires page.status.Reading?
    ensures after == HandleBlocks(host, page, events)
  {
    after := page;
    for k := 0 to |events|
      invariant after.status.Reading? && HandleBlocks(host, page, events) == HandleBlocks(host, after, events[k..])
    {
      assert events[k..][1..] == events[k + 1..];
      var e := ParseFields(events[k]);
      after := Handle(host, after, e);
      if !after.status.Reading? {
        return;
      }
    }
  }

  // ----- What the reader takes from a block, and how it ends, in plain terms -----

  /** The values of the lines that name this field, stripped. */
  function ValuesOf(lines: seq<string>, field: string): seq<string> {
    if lines == [] then []
    else
      var last := lines[|lines| - 1];
      ValuesOf(lines[..|lines| - 1], field) + if field <= last then [Trim(IsJsSpace, last[|field|..])] else []
  }

  lemma LineAdds(acc: Parsed, line: string)
    ensures ParseLine(acc, line) ==
      if "event:" <= line then acc.(name := Trim(IsJsSpace, line[6..]))
      else if "data:" <= line then acc.(data := acc.data + Trim(IsJsSpace, line[5..])) else acc
  {
    assert Starts(line, "event:") <==> "event:" <= line;
    assert Starts(line, "data:") <==> "data:" <= line;
  }

  lemma NotBoth(line: string)
    ensures !("event:" <= line && "data:" <= line)
  {
    assert "event:"[0] != "data:"[0];
  }

  lemma {:induction false} LinesTell(lines: seq<string>)
    ensures var e := ParseLines(Parsed("message", ""), lines);
      var names := ValuesOf(lines, "event:");
      e.name == (if names == [] then "message" else names[|names| - 1]) && e.data == Concat(ValuesOf(lines, "data:"))
  {
    if lines != [] {
      var init, last := lines[..|lines| - 1], lines[|lines| - 1];
      LinesTell(init);
      ParseLinesSnoc(Parsed("message", ""), init, last);
      assert lines == init + [last];
      LineAdds(ParseLines(Parsed("message", ""), init), last);
      NotBoth(last);
      if "data:" <= last {
        ConcatSnoc(ValuesOf(init, "data:"), Trim(IsJsSpace, last[5..]));
      } else {
        assert ValuesOf(init, "data:") + [] == ValuesOf(init, "data:");
      }
    }
  }

  /** A block's event is named by its last `event:` line, or "message"; its data are those of all `data:` lines, joined. */
  lemma BlockTells(block: string)
    ensures var lines, e := SplitLines(block), ParseBlock(block);
      var names := ValuesOf(lines, "event:");
      e.name == (if names == [] then "message" else names[|names| - 1]) && e.data == Concat(ValuesOf(lines, "data:"))
  {
    LinesTell(SplitLines(block));
  }

  /** An event has a payload if its data are there and, as far as they parse, are not falsy. */
  predicate HasPayload(host: Host, e: Parsed) {
    e.data != "" && (host.parse(e.data).Some? ==> Truthy(host, host.parse(e.data).value))
  }

  /**
   What one event can do: `done` always ends the stream, an error only with a payload; text is only ever added, by a token,
   the id is set by `meta` and citations come one at a time. Data that do not parse add no text, and show as a nameless error.
   */
  lemma EventEffects(host: Host, page: Page, e: Parsed)
    requires page.status.Reading?
    ensures var r, given := Handle(host, page, e), HasPayload(host, e);
      && (r.status.DoneSeen? <==> e.name == "done") && (r.status.ErrorSeen? <==> e.name == "error" && given)
      && page.assembled <= r.assembled && (r.assembled != page.assembled ==> e.name == "token" && given)
      && (r.messageId != page.messageId ==> e.name == "meta" && given)
      && |r.citations| == |page.citations| + (if e.name == "citation" && given then 1 else 0) && page.citations <= r.citations
      && (given && host.parse(e.data).None? ==>
            && (e.name == "token" ==> r.assembled == page.assembled) && (e.name == "meta" ==> r.messageId == None)
            && (e.name == "error" ==> r.shown == "❌ AI 出错")
            && (e.name == "citation" ==> r.citations == page.citations + [Obj([Field("raw", Str(e.data))])]))
  {
    RawHasNothing(host, e.data, ["delta", "token", "text"]);
    RawHasNothing(host, e.data, ["message_id", "assistant_message_id"]);
    RawHasNothing(host, e.data, ["message"]);
  }

  /** Data wrapped as they are have no property that an event looks for. */
  lemma {:induction false} RawHasNothing(host: Host, data: string, names: seq<string>)
    requires forall k :: 0 <= k < |names| ==> names[k] != "raw"
    ensures FirstTruthy(host, Obj([Field("raw", Str(data))]), names) == None
  {
    if names != [] {
      var raw := [Field("raw", Str(data))];
      assert LastField(raw, names[0]) == LastField(raw[..0], names[0]);
      RawHasNothing(host, data, names[1..]);
    }
  }

  /**
   How a stream ends whose blocks hold neither `done` nor an error: closed, it counts as handled if it brought text, which the
   bubble then shows; stopped by the user, it is handled, says so behind the text, and is canceled on the server if the message's
   id is known; a broken connection is not handled.
   */
  lemma UnfinishedTells(host: Host, text: string, ending: Ending)
    requires HandleBlocks(host, FRESH, Blocks(text)).status.Reading?
    ensures var page, r := HandleBlocks(host, FRESH, Blocks(text)), OnePass(host, text, ending);
      match ending
      case Closed => r.handled == (page.assembled != "") && !r.cancels && (r.handled ==> r.page.shown == page.assembled)
      case Aborted => r.handled && r.page.shown == page.assembled + "（已停止）" && (r.cancels <==> page.messageId.Some?)
      case Broken => !r.handled && !r.cancels
  {
  }

  /** The blocks of the first chunks are handled first. */
  lemma ReadSoFar(host: Host, chunks: seq<string>, i: nat)
    requires i <= |chunks|
    ensures var page := HandleBlocks(host, FRESH, Blocks(Concat(chunks[..i])));
      !page.status.Reading? ==> HandleBlocks(host, FRESH, Blocks(Concat(chunks))) == page
  {
    var read, rest := Concat(chunks[..i]), Concat(chunks[i..]);
    ConcatSplits(chunks[..i], chunks[i..]);
    assert chunks == chunks[..i] + chunks[i..];
    BlocksResume(read, rest);
    HandleBlocksSplits(host, FRESH, Blocks(read), Blocks(Rest(read) + rest));
  }

  /** What one more chunk adds to the blocks, the rest and the page. */
  lemma OneChunkMore(host: Host, chunks: seq<string>, i: nat)
    requires i < |chunks|
    ensures var read, more := Concat(chunks[..i]), Concat(chunks[..i + 1]);
      && Rest(more) == Rest(Rest(read) + chunks[i])
      && HandleBlocks(host, FRESH, Blocks(more))
         == HandleBlocks(host, HandleBlocks(host, FRESH, Blocks(read)), Blocks(Rest(read) + chunks[i]))
  {
    var read := Concat(chunks[..i]);
    ConcatSnoc(chunks[..i], chunks[i]);
    assert chunks[..i + 1] == chunks[..i] + [chunks[i]];
    BlocksResume(read, chunks[i]);
    HandleBlocksSplits(host, FRESH, Blocks(read), Blocks(Rest(read) + chunks[i]));
  }

  /** The read loop gives, for every chunking and every way of ending, what one pass over the text would give. */
  method StreamAssistantMessage(host: Host, chunks: seq<string>, ending: Ending) returns (r: Outcome)
    ensures r == OnePass(host, Concat(chunks), ending)
  {
    var buffer := "";
    var page := FRESH;
    for i := 0 to |chunks|
      invariant buffer == Rest(Concat(chunks[..i]))
      invariant page == HandleBlocks(host, FRESH, Blocks(Concat(chunks[..i]))) && page.status.Reading?
    {
      OneChunkMore(host, chunks, i);
      var pieces := SplitBlocks(buffer + chunks[i]);
      buffer := pieces[|pieces| - 1];
      page := HandleEvents(host, page, pieces[..|pieces| - 1]);
      if !page.status.Reading? {
        ReadSoFar(host, chunks, i + 1);
        return Outcome(true, page, false);
      }
    }
    assert chunks[..|chunks|] == chunks;
    r := Finish(page, ending);
  }
}
