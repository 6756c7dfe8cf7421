/** From the generator to the page: what a streamed answer looks like once it has been printed, encoded, cut into chunks of bytes and read. */
module AnswerDelivery {
  import opened Wrappers
  import opened Json
  import opened Text
  import opened SseWire
  import opened JsonReader
  import opened Utf8Stream
  import opened StreamReader
  import opened AnswerStream

  /** The browser's parser reads back each payload the server wrote. */
  ghost predicate ParsesBack(host: Host, frames: seq<Frame>) {
    forall f :: f in frames ==> host.parse(Dumps(f.data)) == Some(f.data)
  }

  /** A parser of JSON as RFC 8259 has it reads back every payload of a complete stream that the page makes use of. */
  lemma JsonParserReadsBack(host: Host, tools: Tools, q: Request, frames: seq<Frame>, row: Row)
    requires forall text :: host.parse(text) == ReadJson(text)
    ensures Complete(tools, q, frames, row) ==> ParsesBack(host, frames[..|frames| - 1])
  {
    if Complete(tools, q, frames, row) {
      forall f | f in frames[..|frames| - 1] ensures host.parse(Dumps(f.data)) == Some(f.data) {
        var i :| 0 <= i < |frames| - 1 && frames[i] == f;
        MetaIsWellNumbered(q);
        DumpsReadsBack(f.data);
      }
    }
  }

  lemma MetaIsWellNumbered(q: Request)
    ensures WellNumbered(Meta(q).data)
  {
  }

  function PageAfter(host: Host, page: Page, frames: seq<Frame>): Page {
    if frames == [] then page
    else
      var before, f := PageAfter(host, page, frames[..|frames| - 1]), frames[|frames| - 1];
      if before.status.Reading? then Handle(host, before, Parsed(f.name, Dumps(f.data))) else before
  }

  lemma {:induction false} BodiesSnoc(frames: seq<Frame>, f: Frame)
    ensures Bodies(frames + [f]) == Bodies(frames) + [FrameBody(f)]
  {
    if frames == [] {
      assert [f][1..] == [];
    } else {
      assert (frames + [f])[1..] == frames[1..] + [f];
      BodiesSnoc(frames[1..], f);
    }
  }

  /** Reading the printed frames handles the frames one by one. */
  lemma {:induction false} ReadsFrames(host: Host, page: Page, frames: seq<Frame>)
    requires forall f :: f in frames ==> Printable(f)
    ensures HandleBlocks(host, page, Bodies(frames)) == PageAfter(host, page, frames)
  {
    if frames != [] {
      var init, f := frames[..|frames| - 1], frames[|frames| - 1];
      assert frames == init + [f];
      BodiesSnoc(init, f);
      ReadsFrames(host, page, init);
      HandleBlocksSplits(host, page, Bodies(init), [FrameBody(f)]);
      var before := PageAfter(host, page, init);
      if before.status.Reading? {
        FrameParses(f);
        HandleOneMore(host, page, Bodies(init), FrameBody(f));
      }
    }
  }

  /** What a finished bubble shows, and what one does that an error has stopped. */
  function Bubble(text: string): string { if text != "" then text else "（无内容）" }

  function ErrorBubble(message: string): string { "❌ " + if message != "" then message else "AI 出错" }

  lemma FirstOfThree(host: Host, j: Json, a: string, b: string, c: string)
    ensures FirstTruthy(host, j, [a, b, c]) == (if Truthy(host, Property(j, a)) then Some(Property(j, a))
              else if Truthy(host, Property(j, b)) then Some(Property(j, b))
              else if Truthy(host, Property(j, c)) then Some(Property(j, c)) else None)
  {
    assert [a, b, c][1..] == [b, c] && [b, c][1..] == [c] && [c][1..] == [];
    assert FirstTruthy(host, j, [c]) == if Truthy(host, Property(j, c)) then Some(Property(j, c)) else None;
  }

  lemma TokenPayload(host: Host, j: Json)
    requires TokenFields(j)
    ensures LastField(j.fields, "delta") == j.fields[0].value && FirstText(host, j) == j.fields[0].value.s
  {
    var fields := j.fields;
    assert fields == [] + [fields[0]];
    LastFieldSnoc([], fields[0], "delta");
    LastFieldSnoc([], fields[0], "token");
    LastFieldSnoc([], fields[0], "text");
    FirstOfThree(host, j, "delta", "token", "text");
  }

  /** The text the page takes from a token's payload. */
  function FirstText(host: Host, j: Json): string { AsText(host, FirstTruthy(host, j, ["delta", "token", "text"]), "") }

  lemma OneOfOne(host: Host, j: Json, a: string)
    ensures FirstTruthy(host, j, [a]) == if Truthy(host, Property(j, a)) then Some(Property(j, a)) else None
  {
    assert [a][1..] == [];
  }

  /** A body frame adds its token text, or ends the stream with an error, or passes unnoticed. */
  lemma HandlesBodyFrame(host: Host, page: Page, f: Frame)
    requires BodyFrame(f) && host.parse(Dumps(f.data)) == Some(f.data)
    ensures var page' := Handle(host, page, Parsed(f.name, Dumps(f.data)));
      && page'.messageId == page.messageId && page'.citations == page.citations
      && page'.assembled == page.assembled + Delta(f)
      && page'.status == (if f.name == "error" then ErrorSeen else page.status)
      && (f.name == "error" ==> page'.shown == ErrorBubble(MessageOf(f)))
  {
    if f.name == "token" {
      TokenPayload(host, f.data);
    } else if f.name == "error" {
      OneOfOne(host, f.data, "message");
    }
  }

  /** After a body the page has the text before the first error, which is where it stopped if there is one. */
  lemma {:induction false} HandlesBody(host: Host, page: Page, body: seq<Frame>)
    requires Body(body) && ParsesBack(host, body) && page.status.Reading? && page.assembled == ""
    ensures var page' := PageAfter(host, page, body);
      && page'.messageId == page.messageId && page'.citations == page.citations
      && page'.assembled == Heard(body)
      && page'.status == (if HasError(body) then ErrorSeen else Reading)
      && (HasError(body) ==> FirstTold(body).Some? && page'.shown == ErrorBubble(FirstTold(body).value))
  {
    if body != [] {
      var init, f := body[..|body| - 1], body[|body| - 1];
      assert body == init + [f];
      assert f in body;
      HandlesBody(host, page, init);
      HandlesBodyFrame(host, PageAfter(host, page, init), f);
      ErrorIn(init, [f]);
      FirstToldIff(init);
      ToldSnoc(init, f);
      assert HasError([f]) <==> f.name == "error" by {
        assert f in [f];
      }
    }
  }

  lemma MetaFields(q: Request)
    ensures LastField(Meta(q).data.fields, "message_id") == Null
    ensures LastField(Meta(q).data.fields, "assistant_message_id") == Str(q.assistantId)
  {
    var f := Meta(q).data.fields;
    LastFieldOfFour(f[0], f[1], f[2], f[3], "message_id");
    LastFieldOfFour(f[0], f[1], f[2], f[3], "assistant_message_id");
    assert f == [f[0], f[1], f[2], f[3]];
  }

  lemma SecondIsTruthy(host: Host, j: Json, a: string, b: string)
    requires !Truthy(host, Property(j, a)) && Truthy(host, Property(j, b))
    ensures FirstTruthy(host, j, [a, b]) == Some(Property(j, b))
  {
  }

  lemma HandlesMeta(host: Host, q: Request, text: string)
    requires q.assistantId != "" && Payload(host, text) == Some(Meta(q).data)
    ensures Handle(host, FRESH, Parsed("meta", text)) == FRESH.(messageId := Some(Str(q.assistantId)))
  {
    MetaFields(q);
    SecondIsTruthy(host, Meta(q).data, "message_id", "assistant_message_id");
  }

  /** A complete stream for a message that has an identifier. The browser reads its payloads back; of the last one it makes no use. */
  ghost predicate Deliverable(host: Host, tools: Tools, q: Request, frames: seq<Frame>, row: Row) {
    Complete(tools, q, frames, row) && ParsesBack(host, frames[..|frames| - 1]) && q.assistantId != ""
  }

  /** These chunks of bytes are the printed frames, wherever the network has cut them. */
  ghost predicate OnTheWire(frames: seq<Frame>, chunks: seq<seq<Byte>>) {
    Joined(chunks) == Encode(Printed(frames))
  }

  /** What the page makes of the chunks it receives. */
  function Received(host: Host, chunks: seq<seq<Byte>>, ending: Ending): Outcome {
    OnePass(host, Concat(DecodeChunks([], chunks)), ending)
  }

  /** The page has the message's id, no citations and the text before the first error; it is finished if there was none, and else shows that error. */
  predicate Ended(page: Page, host: Host, q: Request, frames: seq<Frame>) {
    && page.messageId == Some(Str(q.assistantId)) && page.citations == []
    && page.assembled == SourceHeard(host, q)
    && if SourceError(host, q).Some?
       then page.status.ErrorSeen? && FirstTold(frames).Some? && page.shown == ErrorBubble(FirstTold(frames).value)
       else page.status.DoneSeen? && page.shown == Bubble(page.assembled)
  }

  /** The page after all frames of a complete stream. */
  lemma HandlesComplete(host: Host, tools: Tools, q: Request, frames: seq<Frame>, row: Row)
    ensures Deliverable(host, tools, q, frames, row) ==> Ended(PageAfter(host, FRESH, frames), tools.host, q, frames)
  {
    if Deliverable(host, tools, q, frames, row) {
      var body := BodyOf(frames);
      assert frames[..|frames| - 1] == [Meta(q)] + body;
      HandlesFramed(host, q, body, frames[|frames| - 1]);
    }
  }

  lemma HandlesFramed(host: Host, q: Request, body: seq<Frame>, done: Frame)
    requires q.assistantId != "" && done.name == "done"
    ensures var page := PageAfter(host, FRESH, [Meta(q)] + body + [done]);
      Body(body) && ParsesBack(host, [Meta(q)] + body) ==>
        && page.messageId == Some(Str(q.assistantId)) && page.citations == [] && page.assembled == Heard(body)
        && if HasError(body) then page.status.ErrorSeen? && FirstTold(body).Some? && page.shown == ErrorBubble(FirstTold(body).value)
           else page.status.DoneSeen? && page.shown == Bubble(page.assembled)
  {
    if Body(body) && ParsesBack(host, [Meta(q)] + body) {
      assert ParsesBack(host, body) && Meta(q) in [Meta(q)] + body;
      HandlesMeta(host, q, Dumps(Meta(q).data));
      var start := FRESH.(messageId := Some(Str(q.assistantId)));
      OneFrameMore(host, FRESH, [], Meta(q));
      assert [] + [Meta(q)] == [Meta(q)];
      HandlesBody(host, start, body);
      PageAfterSplits(host, FRESH, [Meta(q)], body);
      HandlesDone(host, PageAfter(host, start, body), Dumps(done.data));
      OneFrameMore(host, FRESH, [Meta(q)] + body, done);
    }
  }

  lemma OneFrameMore(host: Host, page: Page, frames: seq<Frame>, f: Frame)
    ensures var before := PageAfter(host, page, frames);
      PageAfter(host, page, frames + [f]) == if before.status.Reading? then Handle(host, before, Parsed(f.name, Dumps(f.data))) else before
  {
    assert (frames + [f])[..|frames|] == frames;
  }

  lemma HandlesDone(host: Host, page: Page, text: string)
    ensures Handle(host, page, Parsed("done", text))
         == page.(shown := Bubble(page.assembled), status := DoneSeen)
  {
  }

  lemma MiddleFrames(frames: seq<Frame>) returns (body: seq<Frame>)
    requires |frames| >= 2
    requires forall i :: 0 < i < |frames| - 1 ==> BodyFrame(frames[i])
    ensures frames == [frames[0]] + body + [frames[|frames| - 1]]
    ensures body == frames[1..|frames| - 1] && Body(body) && forall f :: f in body ==> f in frames
  {
    var n := |frames|;
    body := frames[1..n - 1];
    forall f | f in body ensures BodyFrame(f) && f in frames {
      var i :| 0 <= i < |body| && body[i] == f;
      assert frames[i + 1] == f;
    }
  }

  /** The frames between the first and the last carry all of the text and all of the errors. */
  lemma BodyOf(frames: seq<Frame>) returns (body: seq<Frame>)
    requires |frames| >= 2 && frames[0].name == "meta" && frames[|frames| - 1].name == "done"
    requires forall i :: 0 < i < |frames| - 1 ==> BodyFrame(frames[i])
    ensures frames == [frames[0]] + body + [frames[|frames| - 1]]
    ensures Body(body) && (forall f :: f in body ==> f in frames)
    ensures Heard(frames) == Heard(body) && (HasError(frames) <==> HasError(body)) && FirstTold(frames) == FirstTold(body)
  {
    body := MiddleFrames(frames);
    FirstToldAround(frames[0], body, frames[|frames| - 1]);
    MiddleText(frames[0], body, frames[|frames| - 1]);
    ErrorsAreInBody(frames, body);
  }

  lemma FirstToldAround(first: Frame, body: seq<Frame>, last: Frame)
    requires first.name != "error" && last.name != "error"
    ensures FirstTold([first] + body + [last]) == FirstTold(body)
  {
    ToldSnoc([first] + body, last);
    ToldSplits([first], body);
    ToldSnoc([], first);
    assert [] + [first] == [first];
  }

  lemma {:induction false} PageAfterSplits(host: Host, page: Page, a: seq<Frame>, b: seq<Frame>)
    ensures PageAfter(host, page, a + b) == PageAfter(host, PageAfter(host, page, a), b)
  {
    if b == [] {
      assert a + b == a;
    } else {
      assert (a + b)[..|a + b| - 1] == a + b[..|b| - 1];
      PageAfterSplits(host, page, a, b[..|b| - 1]);
    }
  }

  /** Reading the printed stream is handling its frames. */
  lemma ReadsStream(host: Host, frames: seq<Frame>, chunks: seq<seq<Byte>>, ending: Ending)
    requires forall f :: f in frames ==> Printable(f)
    ensures OnTheWire(frames, chunks) ==> Received(host, chunks, ending) == Finish(PageAfter(host, FRESH, frames), ending)
  {
    if OnTheWire(frames, chunks) {
      BytesCarryText(Printed(frames), chunks);
      PrintedBlocks(frames);
      ReadsFrames(host, FRESH, frames);
    }
  }

  /** The printed stream, its bytes cut anywhere, leaves the page like that; how the connection ends afterwards makes no difference. */
  lemma StreamEnds(
      host: Host, tools: Tools, q: Request, frames: seq<Frame>, row: Row, chunks: seq<seq<Byte>>, ending: Ending)
    ensures var r := Received(host, chunks, ending);
      Deliverable(host, tools, q, frames, row) && OnTheWire(frames, chunks) ==>
        r.handled && !r.cancels && Ended(r.page, tools.host, q, frames)
  {
    if Deliverable(host, tools, q, frames, row) {
      ReadsStream(host, frames, chunks, ending);
      HandlesComplete(host, tools, q, frames, row);
    }
  }

  /**
   End to end: a complete stream, printed, encoded, cut anywhere, decoded and read back, leaves the page with the message's id and the text
   before the first error; it is finished if the source reported none, and stopped at the error otherwise.
   How the connection ends afterwards makes no difference.
   */
  lemma AnswerArrives(
      host: Host, tools: Tools, q: Request, frames: seq<Frame>, row: Row, chunks: seq<seq<Byte>>, ending: Ending)
    ensures var r := Received(host, chunks, ending);
      Deliverable(host, tools, q, frames, row) && OnTheWire(frames, chunks) ==>
        && r.handled && !r.cancels
        && r.page.messageId == Some(Str(q.assistantId))
        && r.page.assembled == SourceHeard(tools.host, q)
        && r.page.status == (if SourceError(tools.host, q).Some? then ErrorSeen else DoneSeen)
        && (r.page.status.ErrorSeen? ==> FirstTold(frames).Some? && r.page.shown == ErrorBubble(FirstTold(frames).value))
  {
    StreamEnds(host, tools, q, frames, row, chunks, ending);
  }

  /** The model ran without an error and yielded no text, outside the offline mode. */
  predicate CameToNothing(host: Host, q: Request) {
    SourceError(host, q).None? && SourceText(host, q) == "" && !q.offlinePlaceholder
  }

  /**
   What the page does not learn. It ends without citations whatever the row holds, since the server sends them with `done` only.
   It calls a failed answer finished exactly when the model came to nothing without an error; it never calls a completed one failed.
   A finished bubble with text reads like the row exactly when cleaning leaves the text alone; without text it says so, and the row
   holds the failure or the offline notice.
   */
  lemma PageVersusRow(
      host: Host, tools: Tools, q: Request, frames: seq<Frame>, row: Row, chunks: seq<seq<Byte>>, ending: Ending)
    ensures var page := Received(host, chunks, ending).page;
      Deliverable(host, tools, q, frames, row) && OnTheWire(frames, chunks) ==>
        && page.citations == []
        && (page.status.DoneSeen? && row.failed <==> CameToNothing(tools.host, q))
        && (page.status.ErrorSeen? ==> row.failed)
        && (page.status.DoneSeen? ==>
              var text := SourceText(tools.host, q);
              if text != "" then page.shown == text && (page.shown == row.content <==> tools.sanitize(text) == text)
              else page.shown == "（无内容）" && row.content == tools.sanitize(if q.offlinePlaceholder then PLACEHOLDER_REPLY else NO_ANSWER))
  {
    StreamEnds(host, tools, q, frames, row, chunks, ending);
  }

  /** A chat stream that ends without a chunk comes to nothing. */
  lemma SilenceComesToNothing(host: Host, q: Request)
    requires q.source == ChatStream([], None) && !q.offlinePlaceholder
    ensures CameToNothing(host, q) && Fails(host, q) && FinalText(host, q) == NO_ANSWER
  {
  }

  /** The request streams what came out of the pump, whichever way its tasks were scheduled. */
  ghost predicate Pumped(q: Request, u: Pump.Upstream<string>, schedule: seq<Pump.Move>) {
    var s := Pump.Run(u, schedule);
    Pump.Left(s) && q.source.ChatStream? && q.source.output == s.output && (q.source.raised.Some? <==> s.consumer.Raised?)
  }

  /** With the pump in front: whatever order its tasks run in, the page ends up with the model's chunks joined, and stopped if the model failed. */
  lemma ModelTextArrives(
      host: Host, tools: Tools, q: Request, u: Pump.Upstream<string>, schedule: seq<Pump.Move>,
      frames: seq<Frame>, row: Row, chunks: seq<seq<Byte>>, ending: Ending)
    ensures var page := Received(host, chunks, ending).page;
      Pumped(q, u, schedule) && Deliverable(host, tools, q, frames, row) && OnTheWire(frames, chunks) ==>
        page.assembled == Concat(u.chunks) && page.status == if u.fails then ErrorSeen else DoneSeen
  {
    Pump.YieldsInOrder(u, schedule);
    AnswerArrives(host, tools, q, frames, row, chunks, ending);
  }
}
