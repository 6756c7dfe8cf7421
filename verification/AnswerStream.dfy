/** The streaming endpoint's generator: the frames one answer sends, what they say, and the outcome it writes to the message and job rows. */
module AnswerStream {
  import opened Wrappers
  import opened Json
  import opened Text
  import opened SseWire
  import opened JsonReader
  import opened Citations
  import Pump = HeartbeatPump
  import Agent = ReactAgent

  /** Where the answer comes from, and the message of an exception that ends it early. */
  datatype Source =
    | AgentRun(events: seq<Agent.Event>, raised: Option<string>)
    | ChatStream(output: seq<Pump.Output<string>>, raised: Option<string>)
    | NoModel

  datatype Request = Request(
    assistantId: string, jobId: string, agentMode: bool, question: string, source: Source, offlinePlaceholder: bool,
    contextCitations: seq<Json>, elapsed: string)

  /** What the surrounding code supplies: the clean-up of final text, and the text of a value that is no string. */
  datatype Tools = Tools(host: Host, sanitize: string -> string, show: Json -> string)

  const PLACEHOLDER_REPLY := "（离线占位回答）已收到你的请求；当前处于显式离线测试模式，未调用真实 LLM。"
  const FAILURE_PREFIX := "AI 调用失败，请检查 LLM API 配置或稍后重试："
  const DISABLED := "真实 LLM 未启用，无法生成 AI 回答。请设置 AGENTOS_AI_LLM=on 并配置 DEEPSEEK_API_KEY 或 API_KEY 后重试。"
  const NO_ANSWER := "AI 调用失败：" + DISABLED

  function Ev(name: string, fields: seq<Field>): Frame { Frame(false, name, Obj(fields)) }

  function Token(piece: string): Frame { Ev("token", [Field("delta", Str(piece))]) }

  function Alarm(code: string, message: string): Frame {
    Ev("error", [Field("code", Str(code)), Field("message", Str(message))])
  }

  function ErrorFrame(message: string): Frame { Alarm("AI_PROVIDER_ERROR", message) }

  function DisabledFrame(): Frame { Alarm("AI_PROVIDER_DISABLED", DISABLED) }

  function Meta(q: Request): Frame {
    Frame(true, "meta", Obj([
      Field("assistant_message_id", Str(q.assistantId)), Field("job_id", Str(q.jobId)),
      Field("mode", Str(if q.agentMode then "agent" else "chat")), Field("agent_enabled", Bool(q.agentMode))]))
  }

  function Done(q: Request, failed: bool, citations: seq<Json>): Frame {
    Ev("done", [
      Field("assistant_message_id", Str(q.assistantId)), Field("job_id", Str(q.jobId)),
      Field("status", Str(if failed then "failed" else "completed")), Field("latency_ms", Num(q.elapsed)), Field("citations", Arr(citations))])
  }

  function NumText(n: nat): (s: string)
    ensures PlainDigits(s) && (n > 0 ==> s[0] != '0')
  {
    if n < 10 then ["0123456789"[n]] else NumText(n / 10) + ["0123456789"[n % 10]]
  }

  function StepFrame(step: nat, kind: string, detail: string): Frame {
    Ev("agent_step", [Field("step", Num(NumText(step))), Field("kind", Str(kind)), Field("detail", Str(detail))])
  }

  // ----- What the frames say -----

  function Delta(f: Frame): string {
    if f.name == "token" && f.data.Obj? && LastField(f.data.fields, "delta").Str? then LastField(f.data.fields, "delta").s else ""
  }

  /** The text of the token frames, joined. */
  function DeltaText(frames: seq<Frame>): string {
    if frames == [] then "" else DeltaText(frames[..|frames| - 1]) + Delta(frames[|frames| - 1])
  }

  /** The text of the token frames before the first error: what a reader that stops there takes in. */
  function Heard(frames: seq<Frame>): string {
    if frames == [] then ""
    else
      var init := frames[..|frames| - 1];
      if HasError(init) then Heard(init) else Heard(init) + Delta(frames[|frames| - 1])
  }

  /** The message of an error frame. */
  function MessageOf(f: Frame): string {
    if f.data.Obj? && LastField(f.data.fields, "message").Str? then LastField(f.data.fields, "message").s else ""
  }

  /** The message of the last error frame, and that of the first. */
  function Told(frames: seq<Frame>): Option<string> {
    if frames == [] then None
    else if frames[|frames| - 1].name == "error" then Some(MessageOf(frames[|frames| - 1]))
    else Told(frames[..|frames| - 1])
  }

  function FirstTold(frames: seq<Frame>): Option<string> {
    if frames == [] then None
    else if FirstTold(frames[..|frames| - 1]).Some? then FirstTold(frames[..|frames| - 1])
    else if frames[|frames| - 1].name == "error" then Some(MessageOf(frames[|frames| - 1]))
    else None
  }

  predicate Replaces(frames: seq<Frame>) {
    exists f :: f in frames && f.name == "replace"
  }

  const BODY_NAMES: set<string> := {"agent_step", "token", "keepalive", "error", "replace"}

  /** A frame between the first and the last one. */
  predicate BodyFrame(f: Frame) {
    && !f.retry && f.name in BODY_NAMES && Printable(f) && WellNumbered(f.data)
    && (f.name == "token" ==> TokenFields(f.data)) && (f.name == "error" ==> ErrorFields(f.data))
  }

  /** An error's payload has a message. */
  predicate ErrorFields(j: Json) { j.Obj? && LastField(j.fields, "message").Str? }

  predicate TokenFields(j: Json) {
    j.Obj? && |j.fields| == 1 && j.fields[0].name == "delta" && j.fields[0].value.Str?
  }

  predicate HasError(frames: seq<Frame>) {
    exists f :: f in frames && f.name == "error"
  }

  /** The text the source yields: chunks with heartbeats erased, or the agent's answer. */
  function SourceText(host: Host, q: Request): string {
    match q.source
    case ChatStream(output, _) => Concat(Pump.Chunks(output))
    case AgentRun(events, _) => AnswerText(host, events)
    case NoModel => if q.offlinePlaceholder then Concat(OfflinePieces(q.question)) else ""
  }

  /** The answer as the agent gave it; only text can be streamed, and only if its citations can be shaped. */
  function AnswerText(host: Host, events: seq<Agent.Event>): string {
    match Finale(events)
    case Some(FinalAnswer(Str(text), citations, _, _)) => if Citable(host, citations) then text else ""
    case _ => ""
  }

  /** The text that comes before any error: all of it, unless the agent reported one before its answer. */
  function SourceHeard(host: Host, q: Request): string {
    if q.source.AgentRun? && LastError(q.source.events).Some? then "" else SourceText(host, q)
  }

  function OfflinePieces(question: string): seq<string> {
    ["（离线占位流式回答）", "已收到你的请求；", "当前处于显式离线测试模式，未调用真实 LLM。", "原始问题：" + Take(question, 80)]
  }

  // ----- What decides the outcome -----

  /** The final answer of an agent's run, which is its last event. */
  function Finale(events: seq<Agent.Event>): (r: Option<Agent.Event>)
    ensures r.Some? ==> r.value.FinalAnswer?
  {
    if events != [] && events[|events| - 1].FinalAnswer? then Some(events[|events| - 1]) else None
  }

  predicate IsList(e: Option<Agent.Event>) {
    e.Some? && e.value.FinalAnswer? && e.value.answer.Arr? && e.value.answer.items != []
  }

  /**
   An answer that is a non-empty list can be cut into pieces but not joined: the generator dies after its last token.
   It gets that far only if the citations can be shaped.
   */
  predicate ListAnswer(host: Host, q: Request) {
    && q.source.AgentRun? && IsList(Finale(q.source.events))
    && Citable(host, Finale(q.source.events).value.citations)
  }

  /** An answer that is neither text nor a list nor empty cannot even be cut: an error inside the guarded part. */
  predicate Uncuttable(host: Host, answer: Json) {
    !answer.Str? && !answer.Arr? && !Agent.Falsy(host, answer)
  }

  function LastError(events: seq<Agent.Event>): Option<string> {
    if events == [] then None
    else if events[|events| - 1].Error? then Some(events[|events| - 1].message)
    else LastError(events[..|events| - 1])
  }

  const NOT_TEXT := "not text"

  /** The final answer raises before its first piece: on its citations, or when it is to be cut. */
  predicate Unspeakable(host: Host, finale: Agent.Event)
    requires finale.FinalAnswer?
  {
    !Citable(host, finale.citations) || Uncuttable(host, finale.answer)
  }

  /** The agent's error: citations that cannot be shaped or an answer that cannot be cut, an exception, or the last error it reported. */
  function AgentError(host: Host, events: seq<Agent.Event>, raised: Option<string>): Option<string> {
    if Finale(events).Some? && Unspeakable(host, Finale(events).value) then Some(NOT_TEXT)
    else if raised.Some? then raised
    else LastError(events)
  }

  function SourceError(host: Host, q: Request): Option<string> {
    match q.source
    case ChatStream(_, raised) => raised
    case AgentRun(events, raised) => AgentError(host, events, raised)
    case NoModel => if q.offlinePlaceholder then None else Some(DISABLED)
  }

  /** An answer fails if its source did, or if it came to nothing outside the offline mode. */
  predicate Fails(host: Host, q: Request) {
    SourceError(host, q).Some? || (SourceText(host, q) == "" && !q.offlinePlaceholder)
  }

  function FinalText(host: Host, q: Request): string {
    if SourceText(host, q) != "" then SourceText(host, q)
    else if SourceError(host, q).Some? then FAILURE_PREFIX + SourceError(host, q).value
    else if q.offlinePlaceholder then PLACEHOLDER_REPLY
    else NO_ANSWER
  }

  /** The agent's loop yields its final answer last. */
  predicate AnswerLast(events: seq<Agent.Event>) {
    forall i :: 0 <= i < |events| && events[i].FinalAnswer? ==> i == |events| - 1
  }

  predicate PlainAll(items: seq<Json>) {
    forall x :: x in items ==> PlainNumbers(x)
  }

  /** Every printed number is one line of text, wherever it comes from, and an agent's answer comes last. */
  predicate PlainRequest(q: Request) {
    && OneLine(q.elapsed) && PlainAll(q.contextCitations)
    && (q.source.AgentRun? ==> AnswerLast(q.source.events) && forall e :: e in q.source.events && e.FinalAnswer? ==> PlainNumbers(e.citations))
  }

  /** What is written to the message row, and with the same verdict to the job row. */
  datatype Row = Row(content: string, failed: bool, citations: seq<Json>)

  /** The shape of a complete stream: `meta` first, `done` last and nowhere else, its status the one written. */
  ghost predicate Complete(tools: Tools, q: Request, frames: seq<Frame>, row: Row) {
    && |frames| >= 2
    && frames[0] == Meta(q)
    && frames[|frames| - 1] == Done(q, row.failed, row.citations)
    && (forall i :: 0 < i < |frames| - 1 ==> BodyFrame(frames[i]))
    && (forall f :: f in frames ==> Printable(f))
    && DeltaText(frames) == SourceText(tools.host, q)
    && Heard(frames) == SourceHeard(tools.host, q)
    && (HasError(frames) <==> SourceError(tools.host, q).Some?) && Told(frames) == SourceError(tools.host, q)
    && (row.failed <==> Fails(tools.host, q))
    && row.content == tools.sanitize(FinalText(tools.host, q))
  }

  // ----- The frames a source sends -----

  function KeepaliveFrame(count: nat): Frame { Ev("keepalive", [Field("count", Num(NumText(count)))]) }

  function ReplaceFrame(content: string): Frame { Ev("replace", [Field("content", Str(content))]) }

  /** An answer is cut into at most eighty or so pieces of at least 24 characters. */
  function PieceSize(answer: string): (n: nat)
    ensures n >= 24
  {
    if |answer| / 80 < 24 then 24 else |answer| / 80
  }

  function PieceEnd(answer: string, i: nat): (end: nat)
    requires i < |answer|
    ensures i < end <= |answer|
  {
    if i + PieceSize(answer) < |answer| then i + PieceSize(answer) else |answer|
  }

  function AnswerFrames(answer: string, i: nat): seq<Frame>
    requires i <= |answer|
    decreases |answer| - i
  {
    if i == |answer| then []
    else [Token(answer[i..PieceEnd(answer, i)])] + AnswerFrames(answer, PieceEnd(answer, i))
  }

  function Beats(output: seq<Pump.Output<string>>): nat {
    if output == [] then 0 else Beats(output[..|output| - 1]) + if output[|output| - 1].Heartbeat? then 1 else 0
  }

  /** Each chunk with text becomes a token, each timeout a numbered keepalive. */
  function ChatFrames(output: seq<Pump.Output<string>>): seq<Frame> {
    if output == [] then []
    else
      ChatFrames(output[..|output| - 1]) + OutputFrames(output[|output| - 1], Beats(output))
  }

  function OutputFrames(o: Pump.Output<string>, beats: nat): seq<Frame> {
    match o
    case Heartbeat => [KeepaliveFrame(beats)]
    case Yielded(c) => if c != "" then [Token(c)] else []
  }

  /** Arguments as a step shows them: nothing worth showing is an empty object. */
  function Shown(host: Host, args: Json): Json { if Agent.Falsy(host, args) then Obj([]) else args }

  /** What becomes of one event before the answer. */
  function EventFrame(host: Host, e: Agent.Event): Frame
    requires !e.FinalAnswer?
  {
    match e
    case Thought(text, iteration) => StepFrame(StepNumber(Some(iteration), 1), "plan", Take(text, 500))
    case ToolCalled(name, args, iteration) => StepFrame(StepNumber(Some(iteration), 1), "tool", Take(Dumps(Shown(host, args)), 260))
    case ToolResult(name, result, iteration) => StepFrame(StepNumber(Some(iteration), 1), "retrieve", name)
    case Error(message) => ErrorFrame(message)
  }

  function ProgressFrames(host: Host, events: seq<Agent.Event>): seq<Frame>
    requires forall e :: e in events ==> !e.FinalAnswer?
  {
    if events == [] then [] else ProgressFrames(host, events[..|events| - 1]) + [EventFrame(host, events[|events| - 1])]
  }

  function RaisedFrames(raised: Option<string>): seq<Frame> {
    if raised.Some? then [ErrorFrame(raised.value)] else []
  }

  /** The frames from the final answer on. */
  function FinaleFrames(host: Host, finale: Option<Agent.Event>, raised: Option<string>): seq<Frame>
    requires finale.Some? ==> finale.value.FinalAnswer?
  {
    if finale.None? then RaisedFrames(raised)
    else
      [Synthesis(finale.value)]
      + if Unspeakable(host, finale.value) then [ErrorFrame(NOT_TEXT)] else SpokenFrames(finale.value.answer, raised)
  }

  function Synthesis(finale: Agent.Event): Frame
    requires finale.FinalAnswer?
  {
    StepFrame(StepNumber(finale.round, 4), "synthesize", "")
  }

  /** Python's `or`: a missing number and a zero make way for the default. */
  function StepNumber(iteration: Option<nat>, otherwise: nat): nat {
    if iteration.Some? && iteration.value > 0 then iteration.value else otherwise
  }

  function SpokenFrames(answer: Json, raised: Option<string>): seq<Frame> {
    (if answer.Str? then AnswerFrames(answer.s, 0) else []) + RaisedFrames(raised)
  }

  function BeforeFinale(events: seq<Agent.Event>): (before: seq<Agent.Event>)
    requires AnswerLast(events)
    ensures forall e :: e in before ==> !e.FinalAnswer?
  {
    if Finale(events).Some? then events[..|events| - 1] else events
  }

  function AgentFrames(host: Host, events: seq<Agent.Event>, raised: Option<string>): seq<Frame>
    requires AnswerLast(events)
  {
    ProgressFrames(host, BeforeFinale(events)) + FinaleFrames(host, Finale(events), raised)
  }

  function TokenFrames(pieces: seq<string>): seq<Frame> {
    if pieces == [] then [] else TokenFrames(pieces[..|pieces| - 1]) + [Token(pieces[|pieces| - 1])]
  }

  function SourceFrames(host: Host, q: Request): seq<Frame>
    requires PlainRequest(q)
  {
    match q.source
    case AgentRun(events, raised) => AgentFrames(host, events, raised)
    case ChatStream(output, raised) => ChatFrames(output) + RaisedFrames(raised)
    case NoModel => if q.offlinePlaceholder then TokenFrames(OfflinePieces(q.question)) else [DisabledFrame()]
  }

  /** In agent mode the stream opens with what was planned and found. */
  function PreludeFrames(q: Request): seq<Frame> {
    if !q.agentMode then []
    else
      [StepFrame(1, "plan", ""), StepFrame(2, "retrieve", "")] + if q.source.NoModel? then [StepFrame(3, "synthesize", "")] else []
  }

  /** A `replace` frame follows if cleaning changed the text. */
  function ReplaceFrames(tools: Tools, q: Request): seq<Frame> {
    var final := FinalText(tools.host, q);
    if tools.sanitize(final) != final then [ReplaceFrame(tools.sanitize(final))] else []
  }

  function BodyFrames(tools: Tools, q: Request): seq<Frame>
    requires PlainRequest(q)
  {
    PreludeFrames(q) + SourceFrames(tools.host, q) + ReplaceFrames(tools, q)
  }

  /** All frames of a stream that reaches its end. */
  function StreamFrames(tools: Tools, q: Request, row: Row): seq<Frame>
    requires PlainRequest(q)
  {
    [Meta(q)] + BodyFrames(tools, q) + [Done(q, row.failed, row.citations)]
  }

  // ----- What these frames say -----

  predicate Body(frames: seq<Frame>) {
    forall f :: f in frames ==> BodyFrame(f)
  }

  predicate Flat(j: Json) {
    j.Str? || j.Bool? || (j.Num? && PlainDigits(j.text))
  }

  lemma FlatIsBody(name: string, fields: seq<Field>)
    requires name in BODY_NAMES && (name == "token" ==> TokenFields(Obj(fields))) && (name == "error" ==> ErrorFields(Obj(fields)))
    requires forall f: Field :: f in fields ==> Flat(f.value)
    ensures BodyFrame(Ev(name, fields))
  {
    assert '\n' !in name && Trimmed(IsJsSpace, name);
    assert PlainNumbers(Obj(fields)) && WellNumbered(Obj(fields)) by {
      forall f: Field | f in fields ensures PlainNumbers(f.value) && WellNumbered(f.value) {
        assert Flat(f.value);
        if f.value.Num? {
          DigitsAreNumber(f.value.text);
        }
      }
    }
  }

  /** What frames say: all of their text, the text before the first error, the last error, and whether the text is replaced. */
  datatype Voice = Voice(text: string, heard: string, told: Option<string>, revised: bool)

  function Speech(text: string): Voice { Voice(text, text, None, false) }

  const SILENCE := Speech("")

  function Alarmed(error: Option<string>): Voice { Voice("", "", error, false) }

  function Then(a: Voice, b: Voice): Voice {
    Voice(a.text + b.text, if a.told.Some? then a.heard else a.heard + b.heard, if b.told.Some? then b.told else a.told, a.revised || b.revised)
  }

  /** Body frames that say this. */
  ghost predicate Says(frames: seq<Frame>, v: Voice) {
    && Body(frames) && DeltaText(frames) == v.text && Heard(frames) == v.heard
    && Told(frames) == v.told && (HasError(frames) <==> v.told.Some?) && (Replaces(frames) <==> v.revised)
  }

  lemma DeltaSnoc(frames: seq<Frame>, f: Frame)
    ensures DeltaText(frames + [f]) == DeltaText(frames) + Delta(f)
    ensures Heard(frames + [f]) == if HasError(frames) then Heard(frames) else Heard(frames) + Delta(f)
  {
    assert (frames + [f])[..|frames|] == frames;
  }

  lemma ToldSnoc(frames: seq<Frame>, f: Frame)
    ensures Told(frames + [f]) == if f.name == "error" then Some(MessageOf(f)) else Told(frames)
    ensures FirstTold(frames + [f]) == if FirstTold(frames).Some? then FirstTold(frames) else if f.name == "error" then Some(MessageOf(f)) else None
  {
    assert (frames + [f])[..|frames|] == frames;
  }

  lemma {:induction false} ToldSplits(a: seq<Frame>, b: seq<Frame>)
    ensures Told(a + b) == if Told(b).Some? then Told(b) else Told(a)
    ensures FirstTold(a + b) == if FirstTold(a).Some? then FirstTold(a) else FirstTold(b)
  {
    if b == [] {
      assert a + b == a;
    } else {
      var init, last := b[..|b| - 1], b[|b| - 1];
      assert a + b == a + init + [last] && b == init + [last];
      ToldSplits(a, init);
      ToldSnoc(a + init, last);
      ToldSnoc(init, last);
    }
  }

  lemma {:induction false} FirstToldIff(frames: seq<Frame>)
    ensures FirstTold(frames).Some? <==> HasError(frames)
  {
    if frames != [] {
      var init, last := frames[..|frames| - 1], frames[|frames| - 1];
      FirstToldIff(init);
      assert frames == init + [last];
      ErrorIn(init, [last]);
      assert HasError([last]) <==> last.name == "error" by {
        assert last in [last];
      }
    }
  }

  lemma ReplacesIn(a: seq<Frame>, b: seq<Frame>)
    ensures Replaces(a + b) <==> Replaces(a) || Replaces(b)
  {
    if f :| f in a && f.name == "replace" {
      assert f in a + b;
    }
    if f :| f in b && f.name == "replace" {
      assert f in a + b;
    }
  }

  lemma Regroup(a: string, b: string, c: string)
    ensures a + b + c == a + (b + c)
  {
  }

  lemma {:induction false} DeltaSplits(a: seq<Frame>, b: seq<Frame>)
    ensures DeltaText(a + b) == DeltaText(a) + DeltaText(b)
  {
    if b == [] {
      assert a + b == a;
    } else {
      var init, last := b[..|b| - 1], b[|b| - 1];
      assert a + b == a + init + [last] && b == init + [last];
      DeltaSplits(a, init);
      DeltaSnoc(a + init, last);
      DeltaSnoc(init, last);
      Regroup(DeltaText(a), DeltaText(init), Delta(last));
    }
  }

  lemma ErrorIn(a: seq<Frame>, b: seq<Frame>)
    ensures HasError(a + b) <==> HasError(a) || HasError(b)
  {
    if f :| f in a && f.name == "error" {
      assert f in a + b;
    }
    if f :| f in b && f.name == "error" {
      assert f in a + b;
    }
  }

  lemma {:induction false} HeardSplits(a: seq<Frame>, b: seq<Frame>)
    ensures Heard(a + b) == if HasError(a) then Heard(a) else Heard(a) + Heard(b)
  {
    if b == [] {
      assert a + b == a;
    } else {
      var init, last := b[..|b| - 1], b[|b| - 1];
      assert a + b == a + init + [last] && b == init + [last];
      HeardSplits(a, init);
      ErrorIn(a, init);
      DeltaSnoc(a + init, last);
      DeltaSnoc(init, last);
      Regroup(Heard(a), Heard(init), Delta(last));
    }
  }

  lemma BodyAppends(a: seq<Frame>, b: seq<Frame>, v: Voice, w: Voice)
    requires Says(a, v) && Says(b, w)
    ensures Says(a + b, Then(v, w))
  {
    DeltaSplits(a, b);
    HeardSplits(a, b);
    ErrorIn(a, b);
    ToldSplits(a, b);
    ReplacesIn(a, b);
  }

  lemma OneFrameSays(f: Frame)
    requires BodyFrame(f)
    ensures Says([f], Voice(Delta(f), Delta(f), if f.name == "error" then Some(MessageOf(f)) else None, f.name == "replace"))
  {
    assert [f][..0] == [] && f in [f];
  }

  lemma TokenSays(piece: string)
    ensures Says([Token(piece)], Speech(piece))
  {
    FlatIsBody("token", [Field("delta", Str(piece))]);
    var field := Field("delta", Str(piece));
    LastFieldSnoc([], field, "delta");
    assert [field] == [] + [field];
    OneFrameSays(Token(piece));
  }

  lemma QuietSays(name: string, fields: seq<Field>)
    requires name in BODY_NAMES && name != "token" && name != "error" && forall f: Field :: f in fields ==> Flat(f.value)
    ensures Says([Ev(name, fields)], SILENCE.(revised := name == "replace"))
  {
    FlatIsBody(name, fields);
    OneFrameSays(Ev(name, fields));
  }

  lemma StepSays(step: nat, kind: string, detail: string)
    ensures Says([StepFrame(step, kind, detail)], SILENCE)
  {
    QuietSays("agent_step", [Field("step", Num(NumText(step))), Field("kind", Str(kind)), Field("detail", Str(detail))]);
  }

  lemma AlarmSays(code: string, message: string)
    ensures Says([Alarm(code, message)], Alarmed(Some(message)))
  {
    var c, m := Field("code", Str(code)), Field("message", Str(message));
    assert [c, m] == [c] + [m];
    LastFieldSnoc([c], m, "message");
    FlatIsBody("error", [c, m]);
    OneFrameSays(Alarm(code, message));
  }

  lemma RaisedSays(raised: Option<string>)
    ensures Says(RaisedFrames(raised), Alarmed(raised))
  {
    if raised.Some? {
      AlarmSays("AI_PROVIDER_ERROR", raised.value);
    }
  }

  /** The pieces of an answer join up to it. */
  lemma {:induction false} AnswerSays(answer: string, i: nat)
    requires i <= |answer|
    ensures Says(AnswerFrames(answer, i), Speech(answer[i..]))
    decreases |answer| - i
  {
    if i < |answer| {
      var end := PieceEnd(answer, i);
      AnswerSays(answer, end);
      TokenSays(answer[i..end]);
      SpeechAppends([Token(answer[i..end])], AnswerFrames(answer, end), answer[i..end], answer[end..]);
      CutBehind(answer, i, end);
    }
  }

  lemma CutBehind(s: string, i: nat, end: nat)
    requires i <= end <= |s|
    ensures s[i..] == s[i..end] + s[end..]
  {
  }

  function ChunkOf(o: Pump.Output<string>): string { if o.Yielded? then o.c else "" }

  function ChunkText(output: seq<Pump.Output<string>>): string {
    if output == [] then "" else ChunkText(output[..|output| - 1]) + ChunkOf(output[|output| - 1])
  }

  lemma {:induction false} ChunkTextJoins(output: seq<Pump.Output<string>>)
    ensures ChunkText(output) == Concat(Pump.Chunks(output))
  {
    if output != [] {
      var init, last := output[..|output| - 1], output[|output| - 1];
      ChunkTextJoins(init);
      if last.Yielded? {
        ConcatSnoc(Pump.Chunks(init), last.c);
      } else {
        assert Pump.Chunks(init) + [] == Pump.Chunks(init);
      }
    }
  }

  lemma {:induction false} ChunksSay(output: seq<Pump.Output<string>>)
    ensures Says(ChatFrames(output), Speech(ChunkText(output)))
  {
    if output != [] {
      var init, last := output[..|output| - 1], output[|output| - 1];
      ChunksSay(init);
      OutputSays(last, Beats(output));
      SpeechAppends(ChatFrames(init), OutputFrames(last, Beats(output)), ChunkText(init), ChunkOf(last));
    }
  }

  lemma ChatSays(output: seq<Pump.Output<string>>)
    ensures Says(ChatFrames(output), Speech(Concat(Pump.Chunks(output))))
  {
    ChunkTextJoins(output);
    ChunksSay(output);
  }

  lemma OutputSays(o: Pump.Output<string>, beats: nat)
    ensures Says(OutputFrames(o, beats), Speech(ChunkOf(o)))
  {
    match o
    case Heartbeat => QuietSays("keepalive", [Field("count", Num(NumText(beats)))]);
    case Yielded(c) => TokenSays(c);
  }

  lemma SpeechAppends(a: seq<Frame>, b: seq<Frame>, x: string, y: string)
    requires Says(a, Speech(x)) && Says(b, Speech(y))
    ensures Says(a + b, Speech(x + y))
  {
    BodyAppends(a, b, Speech(x), Speech(y));
  }

  lemma EventSays(host: Host, e: Agent.Event)
    requires !e.FinalAnswer?
    ensures Says([EventFrame(host, e)], Alarmed(if e.Error? then Some(e.message) else None))
  {
    match e
    case Thought(text, iteration) => StepSays(StepNumber(Some(iteration), 1), "plan", Take(text, 500));
    case ToolCalled(name, args, iteration) => StepSays(StepNumber(Some(iteration), 1), "tool", Take(Dumps(Shown(host, args)), 260));
    case ToolResult(name, result, iteration) => StepSays(StepNumber(Some(iteration), 1), "retrieve", name);
    case Error(message) => AlarmSays("AI_PROVIDER_ERROR", message);
  }

  lemma {:induction false} ProgressSays(host: Host, events: seq<Agent.Event>)
    requires forall e :: e in events ==> !e.FinalAnswer?
    ensures Says(ProgressFrames(host, events), Alarmed(LastError(events)))
  {
    if events != [] {
      var init, last := events[..|events| - 1], events[|events| - 1];
      ProgressSays(host, init);
      assert last in events;
      EventSays(host, last);
      BodyAppends(ProgressFrames(host, init), [EventFrame(host, last)], Alarmed(LastError(init)), Alarmed(if last.Error? then Some(last.message) else None));
    }
  }

  /** What the final answer and anything raised after it say. */
  function FinaleVoice(host: Host, finale: Option<Agent.Event>, raised: Option<string>): Voice
    requires finale.Some? ==> finale.value.FinalAnswer?
  {
    if finale.None? then Alarmed(raised)
    else if Unspeakable(host, finale.value) then Alarmed(Some(NOT_TEXT))
    else Then(Speech(if finale.value.answer.Str? then finale.value.answer.s else ""), Alarmed(raised))
  }

  lemma FinaleSays(host: Host, finale: Option<Agent.Event>, raised: Option<string>)
    requires finale.Some? ==> finale.value.FinalAnswer?
    ensures Says(FinaleFrames(host, finale, raised), FinaleVoice(host, finale, raised))
  {
    if finale.None? {
      RaisedSays(raised);
    } else if Unspeakable(host, finale.value) {
      UnspokenSays(finale.value);
    } else {
      SpokenSays(finale.value.answer, raised);
      SynthesisSays(finale.value);
      AfterSilence([Synthesis(finale.value)], SpokenFrames(finale.value.answer, raised), FinaleVoice(host, finale, raised));
    }
  }

  lemma UnspokenSays(finale: Agent.Event)
    requires finale.FinalAnswer?
    ensures Says([Synthesis(finale)] + [ErrorFrame(NOT_TEXT)], Alarmed(Some(NOT_TEXT)))
  {
    SynthesisSays(finale);
    AlarmSays("AI_PROVIDER_ERROR", NOT_TEXT);
    AfterSilence([Synthesis(finale)], [ErrorFrame(NOT_TEXT)], Alarmed(Some(NOT_TEXT)));
  }

  lemma SynthesisSays(finale: Agent.Event)
    requires finale.FinalAnswer?
    ensures Says([Synthesis(finale)], SILENCE)
  {
    StepSays(StepNumber(finale.round, 4), "synthesize", "");
  }

  lemma AfterSilence(a: seq<Frame>, b: seq<Frame>, v: Voice)
    requires Says(a, SILENCE) && Says(b, v)
    ensures Says(a + b, v)
  {
    BodyAppends(a, b, SILENCE, v);
  }

  lemma SpokenSays(answer: Json, raised: Option<string>)
    ensures Says(SpokenFrames(answer, raised),
                 Then(Speech(if answer.Str? then answer.s else ""), Alarmed(raised)))
  {
    RaisedSays(raised);
    if answer.Str? {
      AnswerSays(answer.s, 0);
      assert answer.s[0..] == answer.s;
      BodyAppends(AnswerFrames(answer.s, 0), RaisedFrames(raised), Speech(answer.s), Alarmed(raised));
    } else {
      BodyAppends([], RaisedFrames(raised), SILENCE, Alarmed(raised));
    }
  }

  function AgentVoice(host: Host, events: seq<Agent.Event>, raised: Option<string>): Voice
    requires AnswerLast(events)
  {
    Then(Alarmed(LastError(BeforeFinale(events))), FinaleVoice(host, Finale(events), raised))
  }

  lemma AgentVoiceIs(host: Host, events: seq<Agent.Event>, raised: Option<string>)
    requires AnswerLast(events)
    ensures AgentVoice(host, events, raised)
         == Voice(AnswerText(host, events), if LastError(events).Some? then "" else AnswerText(host, events), AgentError(host, events, raised), false)
  {
    assert LastError(BeforeFinale(events)) == LastError(events);
    AfterAlarm(LastError(events), FinaleVoice(host, Finale(events), raised));
    SpeechThenAlarm(AnswerText(host, events), raised);
  }

  lemma AfterAlarm(error: Option<string>, v: Voice)
    ensures Then(Alarmed(error), v) == Voice(v.text, if error.Some? then "" else v.heard, if v.told.Some? then v.told else error, v.revised)
  {
  }

  lemma SpeechThenAlarm(text: string, error: Option<string>)
    ensures Then(Speech(text), Alarmed(error)) == Voice(text, text, error, false)
  {
  }

  lemma AgentSays(host: Host, events: seq<Agent.Event>, raised: Option<string>)
    requires AnswerLast(events)
    ensures Says(AgentFrames(host, events, raised), AgentVoice(host, events, raised))
  {
    var before := BeforeFinale(events);
    ProgressSays(host, before);
    FinaleSays(host, Finale(events), raised);
    BodyAppends(ProgressFrames(host, before), FinaleFrames(host, Finale(events), raised),
                Alarmed(LastError(before)), FinaleVoice(host, Finale(events), raised));
  }

  lemma {:induction false} TokensSay(pieces: seq<string>)
    ensures Says(TokenFrames(pieces), Speech(Concat(pieces)))
  {
    if pieces != [] {
      var init, last := pieces[..|pieces| - 1], pieces[|pieces| - 1];
      TokensSay(init);
      OneTokenMore(init, last);
      assert pieces == init + [last];
    }
  }

  lemma OneTokenMore(pieces: seq<string>, last: string)
    requires Says(TokenFrames(pieces), Speech(Concat(pieces)))
    ensures Says(TokenFrames(pieces + [last]), Speech(Concat(pieces + [last])))
  {
    assert (pieces + [last])[..|pieces|] == pieces;
    TokenSays(last);
    SpeechAppends(TokenFrames(pieces), [Token(last)], Concat(pieces), last);
    ConcatSnoc(pieces, last);
  }

  lemma ChatThenRaised(output: seq<Pump.Output<string>>, raised: Option<string>)
    ensures var text := Concat(Pump.Chunks(output)); Says(ChatFrames(output) + RaisedFrames(raised), Voice(text, text, raised, false))
  {
    ChatSays(output);
    RaisedSays(raised);
    BodyAppends(ChatFrames(output), RaisedFrames(raised), Speech(Concat(Pump.Chunks(output))), Alarmed(raised));
  }

  function SourceVoice(host: Host, q: Request): Voice {
    Voice(SourceText(host, q), SourceHeard(host, q), SourceError(host, q), false)
  }

  /** The source's frames carry its text, before any error but one the agent reported, and an error exactly if it failed. */
  lemma SourceSays(host: Host, q: Request)
    requires PlainRequest(q)
    ensures Says(SourceFrames(host, q), SourceVoice(host, q))
  {
    match q.source
    case AgentRun(events, raised) =>
      AgentSays(host, events, raised);
      AgentVoiceIs(host, events, raised);
    case ChatStream(output, raised) =>
      ChatThenRaised(output, raised);
    case NoModel =>
      TokensSay(OfflinePieces(q.question));
      AlarmSays("AI_PROVIDER_DISABLED", DISABLED);
  }

  lemma PreludeSays(q: Request)
    ensures Says(PreludeFrames(q), SILENCE)
  {
    if q.agentMode {
      StepSays(1, "plan", "");
      StepSays(2, "retrieve", "");
      StepSays(3, "synthesize", "");
      var a, b, c := StepFrame(1, "plan", ""), StepFrame(2, "retrieve", ""), StepFrame(3, "synthesize", "");
      BodyAppends([a], [b], SILENCE, SILENCE);
      BodyAppends([a] + [b], [c], SILENCE, SILENCE);
      assert [a, b] == [a] + [b] && [a, b] + [c] == [a] + [b] + [c] && [a, b] + [] == [a, b];
    }
  }

  lemma ReplaceSays(tools: Tools, q: Request)
    ensures Says(ReplaceFrames(tools, q), SILENCE.(revised := ReplaceFrames(tools, q) != []))
  {
    QuietSays("replace", [Field("content", Str(tools.sanitize(FinalText(tools.host, q))))]);
  }

  lemma QuietAround(a: seq<Frame>, b: seq<Frame>, c: seq<Frame>, v: Voice, revised: bool)
    requires Says(a, SILENCE) && Says(b, v) && !v.revised && Says(c, SILENCE.(revised := revised))
    ensures Says(a + b + c, v.(revised := revised))
  {
    SilenceAround(v, revised);
    BodyAppends(a, b, SILENCE, v);
    BodyAppends(a + b, c, v, SILENCE.(revised := revised));
  }

  lemma SilenceAround(v: Voice, revised: bool)
    ensures Then(SILENCE, v) == v
    ensures !v.revised ==> Then(v, SILENCE.(revised := revised)) == v.(revised := revised)
  {
  }

  lemma BodySays(tools: Tools, q: Request)
    requires PlainRequest(q)
    ensures Says(BodyFrames(tools, q), SourceVoice(tools.host, q).(revised := ReplaceFrames(tools, q) != []))
  {
    PreludeSays(q);
    SourceSays(tools.host, q);
    ReplaceSays(tools, q);
    QuietAround(PreludeFrames(q), SourceFrames(tools.host, q), ReplaceFrames(tools, q), SourceVoice(tools.host, q), ReplaceFrames(tools, q) != []);
  }

  /** The agent's own citations, if it gave any and they can be shaped. */
  function AgentCitations(tools: Tools, events: seq<Agent.Event>): Option<seq<Json>> {
    if Finale(events).Some? then OwnCitations(tools, Finale(events).value) else None
  }

  function OwnCitations(tools: Tools, finale: Agent.Event): Option<seq<Json>>
    requires finale.FinalAnswer?
  {
    match finale.citations
    case Arr(cites) => if cites != [] then CiteAll(tools.host, tools.show, cites) else None
    case _ => None
  }

  function AllCitations(tools: Tools, q: Request): seq<Json> {
    if q.source.AgentRun? && AgentCitations(tools, q.source.events).Some? then AgentCitations(tools, q.source.events).value
    else q.contextCitations
  }

  lemma CitationsArePlain(tools: Tools, q: Request)
    requires PlainRequest(q)
    ensures PlainAll(AllCitations(tools, q))
  {
    if q.source.AgentRun? && AgentCitations(tools, q.source.events).Some? {
      var finale := Finale(q.source.events).value;
      assert finale in q.source.events;
      CitationsAreTidy(tools.host, tools.show, finale.citations.items);
    }
  }

  lemma MiddleText(first: Frame, body: seq<Frame>, last: Frame)
    requires first.name != "token" && last.name != "token"
    requires first.name != "error"
    ensures var all := [first] + body + [last]; DeltaText(all) == DeltaText(body) && Heard(all) == Heard(body)
  {
    DeltaSnoc([first] + body, last);
    DeltaSplits([first], body);
    HeardSplits([first], body);
    OneQuietFrame(first);
    assert Delta(last) == "";
  }

  lemma OneQuietFrame(f: Frame)
    requires f.name != "token" && f.name != "error"
    ensures DeltaText([f]) == Heard([f]) == "" && !HasError([f])
  {
    DeltaSnoc([], f);
    assert [] + [f] == [f];
  }

  lemma ErrorsAreInBody(frames: seq<Frame>, body: seq<Frame>)
    requires |frames| >= 2 && body == frames[1..|frames| - 1]
    requires frames[0].name != "error" && frames[|frames| - 1].name != "error"
    ensures HasError(frames) <==> HasError(body)
  {
  }

  lemma DoneIsPrintable(q: Request, failed: bool, citations: seq<Json>)
    requires OneLine(q.elapsed) && PlainAll(citations)
    ensures Printable(Done(q, failed, citations))
  {
  }

  lemma Between(first: Frame, body: seq<Frame>, last: Frame)
    requires Body(body) && Printable(first) && Printable(last)
    ensures var frames := [first] + body + [last];
      && (forall i :: 0 < i < |frames| - 1 ==> BodyFrame(frames[i])) && (forall f :: f in frames ==> Printable(f))
      && frames[1..|frames| - 1] == body
  {
  }

  /** A stream that reaches its end is complete. */
  lemma StreamIsComplete(tools: Tools, q: Request, row: Row)
    requires PlainRequest(q) && PlainAll(row.citations)
    requires (row.failed <==> Fails(tools.host, q)) && row.content == tools.sanitize(FinalText(tools.host, q))
    ensures Complete(tools, q, StreamFrames(tools, q, row), row)
  {
    BodySays(tools, q);
    MetaIsPrintable(q);
    DoneIsPrintable(q, row.failed, row.citations);
    CompleteAround(tools, q, BodyFrames(tools, q), row);
  }

  lemma MetaIsPrintable(q: Request)
    ensures Printable(Meta(q))
  {
  }

  lemma CompleteAround(tools: Tools, q: Request, body: seq<Frame>, row: Row)
    requires (row.failed <==> Fails(tools.host, q)) && row.content == tools.sanitize(FinalText(tools.host, q))
    ensures Says(body, SourceVoice(tools.host, q).(revised := ReplaceFrames(tools, q) != []))
            && Printable(Meta(q)) && Printable(Done(q, row.failed, row.citations)) ==>
      Complete(tools, q, [Meta(q)] + body + [Done(q, row.failed, row.citations)], row)
  {
    if Says(body, SourceVoice(tools.host, q).(revised := ReplaceFrames(tools, q) != []))
       && Printable(Meta(q)) && Printable(Done(q, row.failed, row.citations)) {
      AroundBody(Meta(q), body, Done(q, row.failed, row.citations));
    }
  }

  /** Two frames that say nothing, around a body. */
  lemma AroundBody(first: Frame, body: seq<Frame>, last: Frame)
    requires Body(body) && Printable(first) && Printable(last)
    requires first.name !in {"token", "error"} && last.name !in {"token", "error"}
    ensures var frames := [first] + body + [last];
      && (forall i :: 0 < i < |frames| - 1 ==> BodyFrame(frames[i])) && (forall f :: f in frames ==> Printable(f))
      && DeltaText(frames) == DeltaText(body) && Heard(frames) == Heard(body) && (HasError(frames) <==> HasError(body))
      && Told(frames) == Told(body) && FirstTold(frames) == FirstTold(body)
  {
    Between(first, body, last);
    MiddleText(first, body, last);
    ErrorsAreInBody([first] + body + [last], body);
    ToldSnoc([first] + body, last);
    ToldSplits([first], body);
    ToldSnoc([], first);
    assert [] + [first] == [first];
  }

  // ----- What page and rows can tell from the frames alone -----

  /** The text an answer comes to, told from its frames: the streamed text, else the last error behind a prefix, else a notice. */
  function TextToldBy(frames: seq<Frame>, offline: bool): string {
    if DeltaText(frames) != "" then DeltaText(frames)
    else
      match Told(frames)
      case Some(message) => "AI 调用失败，请检查 LLM API 配置或稍后重试：" + message
      case None => if offline then PLACEHOLDER_REPLY else "AI 调用失败：" + DISABLED
  }

  /** The row holds that text, cleaned, and counts as failed exactly if an error was told, or nothing was said outside the offline mode. */
  lemma RowFollowsFrames(tools: Tools, q: Request, frames: seq<Frame>, row: Row)
    ensures Complete(tools, q, frames, row) ==>
      && row.content == tools.sanitize(TextToldBy(frames, q.offlinePlaceholder))
      && (row.failed <==> Told(frames).Some? || (DeltaText(frames) == "" && !q.offlinePlaceholder))
  {
  }

  /** The stream replaces its text exactly if cleaning changes it, with what the row holds, right before `done`. */
  lemma ReplacedIffCleaned(tools: Tools, q: Request, row: Row)
    requires PlainRequest(q) && PlainAll(row.citations)
    requires (row.failed <==> Fails(tools.host, q)) && row.content == tools.sanitize(FinalText(tools.host, q))
    ensures var frames := StreamFrames(tools, q, row);
      && (Replaces(frames) <==> row.content != TextToldBy(frames, q.offlinePlaceholder))
      && (Replaces(frames) ==>
            |frames| > 2 && var f := frames[|frames| - 2];
            f.name == "replace" && f.data.Obj? && LastField(f.data.fields, "content") == Str(row.content))
  {
    var body, last := BodyFrames(tools, q), Done(q, row.failed, row.citations);
    BodySays(tools, q);
    StreamIsComplete(tools, q, row);
    FinalIsTold(tools, q, StreamFrames(tools, q, row), row);
    ReplacesAround(Meta(q), body, last);
    if ReplaceFrames(tools, q) != [] {
      OneFieldTells("content", Str(row.content));
      BeforeLast(Meta(q), PreludeFrames(q) + SourceFrames(tools.host, q), ReplaceFrame(row.content), last);
    }
  }

  lemma FinalIsTold(tools: Tools, q: Request, frames: seq<Frame>, row: Row)
    ensures Complete(tools, q, frames, row) ==> TextToldBy(frames, q.offlinePlaceholder) == FinalText(tools.host, q)
  {
  }

  lemma BeforeLast(first: Frame, middle: seq<Frame>, f: Frame, last: Frame)
    ensures var frames := [first] + (middle + [f]) + [last]; |frames| > 2 && frames[|frames| - 2] == f
  {
  }

  lemma ReplacesAround(first: Frame, body: seq<Frame>, last: Frame)
    requires first.name != "replace" && last.name != "replace"
    ensures Replaces([first] + body + [last]) <==> Replaces(body)
  {
    ReplacesIn([first] + body, [last]);
    ReplacesIn([first], body);
  }

  /** `meta` names the reply, its job and the mode. */
  lemma MetaTells(q: Request)
    ensures var fields := Meta(q).data.fields;
      && Meta(q).retry && Meta(q).name == "meta"
      && LastField(fields, "assistant_message_id") == Str(q.assistantId) && LastField(fields, "job_id") == Str(q.jobId)
      && LastField(fields, "mode") == Str(if q.agentMode then "agent" else "chat") && LastField(fields, "agent_enabled") == Bool(q.agentMode)
  {
    var f := Meta(q).data.fields;
    LastFieldOfFour(f[0], f[1], f[2], f[3], "assistant_message_id");
    LastFieldOfFour(f[0], f[1], f[2], f[3], "job_id");
    LastFieldOfFour(f[0], f[1], f[2], f[3], "mode");
    LastFieldOfFour(f[0], f[1], f[2], f[3], "agent_enabled");
    assert f == [f[0], f[1], f[2], f[3]];
  }

  lemma LastFieldOfFive(fields: seq<Field>, name: string)
    requires |fields| == 5
    ensures LastField(fields, name)
         == (if fields[4].name == name then fields[4].value else if fields[3].name == name then fields[3].value
             else if fields[2].name == name then fields[2].value else if fields[1].name == name then fields[1].value
             else if fields[0].name == name then fields[0].value else Null)
  {
    LastFieldOfFour(fields[0], fields[1], fields[2], fields[3], name);
    assert fields == [fields[0], fields[1], fields[2], fields[3]] + [fields[4]];
    LastFieldSnoc([fields[0], fields[1], fields[2], fields[3]], fields[4], name);
  }

  /** `done` names the reply and its job, and tells the status, the time taken and the citations. */
  lemma DoneTells(q: Request, failed: bool, citations: seq<Json>)
    ensures var f := Done(q, failed, citations); var fields := f.data.fields;
      && f.name == "done" && !f.retry
      && LastField(fields, "assistant_message_id") == Str(q.assistantId) && LastField(fields, "job_id") == Str(q.jobId)
      && LastField(fields, "status") == Str(if failed then "failed" else "completed")
      && LastField(fields, "latency_ms") == Num(q.elapsed) && LastField(fields, "citations") == Arr(citations)
  {
    var f := Done(q, failed, citations).data.fields;
    LastFieldOfFive(f, "assistant_message_id");
    LastFieldOfFive(f, "job_id");
    LastFieldOfFive(f, "status");
    LastFieldOfFive(f, "latency_ms");
    LastFieldOfFive(f, "citations");
  }

  lemma ThreeFields(f: Field, g: Field, h: Field, name: string)
    ensures LastField([f, g, h], name)
         == if h.name == name then h.value else if g.name == name then g.value else if f.name == name then f.value else Null
  {
    LastFieldSnoc([], f, name);
    LastFieldSnoc([f], g, name);
    LastFieldSnoc([f, g], h, name);
    assert [f, g, h] == [f, g] + [h] && [f, g] == [f] + [g] && [f] == [] + [f];
  }

  /** A step frame of this number and kind. */
  predicate IsStep(f: Frame, step: nat, kind: string) {
    && f.name == "agent_step" && f.data.Obj?
    && LastField(f.data.fields, "step") == Num(NumText(step)) && LastField(f.data.fields, "kind") == Str(kind)
  }

  lemma StepTells(step: nat, kind: string, detail: string)
    ensures IsStep(StepFrame(step, kind, detail), step, kind)
    ensures LastField(StepFrame(step, kind, detail).data.fields, "detail") == Str(detail)
  {
    var f := StepFrame(step, kind, detail).data.fields;
    ThreeFields(f[0], f[1], f[2], "step");
    ThreeFields(f[0], f[1], f[2], "kind");
    ThreeFields(f[0], f[1], f[2], "detail");
    assert f == [f[0], f[1], f[2]];
  }

  /** In agent mode the stream opens with a plan and a retrieval, and a synthesis if there is no model. */
  lemma OpeningTells(tools: Tools, q: Request, row: Row)
    requires PlainRequest(q) && q.agentMode
    ensures var frames := StreamFrames(tools, q, row);
      && |frames| >= 4 && IsStep(frames[1], 1, "plan") && IsStep(frames[2], 2, "retrieve")
      && (q.source.NoModel? ==> |frames| >= 5 && IsStep(frames[3], 3, "synthesize"))
  {
    StepTells(1, "plan", "");
    StepTells(2, "retrieve", "");
    StepTells(3, "synthesize", "");
  }

  /** The number a text of digits stands for. */
  function Reads(digits: string): nat {
    if digits == "" then 0 else 10 * Reads(digits[..|digits| - 1]) + Digit(digits[|digits| - 1])
  }

  function Digit(c: char): nat { if '0' <= c <= '9' then c as int - '0' as int else 0 }

  /** Printed numbers are decimal. */
  lemma {:induction false} NumTextReads(n: nat)
    ensures Reads(NumText(n)) == n
  {
    var t := NumText(n);
    if n < 10 {
      assert t[..0] == "";
    } else {
      NumTextReads(n / 10);
      assert t[..|t| - 1] == NumText(n / 10);
    }
  }

  /** Those parts of a model's stream that are sent: timeouts and chunks with text. */
  function Kept(output: seq<Pump.Output<string>>): seq<Pump.Output<string>> {
    if output == [] then []
    else
      var last := output[|output| - 1];
      Kept(output[..|output| - 1]) + if last.Yielded? && last.c == "" then [] else [last]
  }

  function Heartbeats(output: seq<Pump.Output<string>>): set<nat> {
    set i: nat | i < |output| && output[i].Heartbeat?
  }

  /** The k-th frame is a token with the k-th part's text, or a keepalive with the number of timeouts so far. */
  predicate Carries(f: Frame, parts: seq<Pump.Output<string>>, k: nat)
    requires k < |parts|
  {
    f.data.Obj? &&
    match parts[k]
    case Yielded(c) => f.name == "token" && LastField(f.data.fields, "delta") == Str(c)
    case Heartbeat => f.name == "keepalive" && LastField(f.data.fields, "count") == Num(NumText(|Heartbeats(parts[..k + 1])|))
  }

  lemma {:induction false} BeatsAre(parts: seq<Pump.Output<string>>)
    ensures Beats(parts) == |Heartbeats(parts)|
  {
    if parts != [] {
      var n := |parts| - 1;
      BeatsAre(parts[..n]);
      assert Heartbeats(parts) == Heartbeats(parts[..n]) + if parts[n].Heartbeat? then {n} else {};
    } else {
      assert Heartbeats(parts) == {};
    }
  }

  lemma {:induction false} BeatsOfKept(output: seq<Pump.Output<string>>)
    ensures Beats(Kept(output)) == Beats(output)
  {
    if output != [] {
      BeatsOfKept(output[..|output| - 1]);
      var kept := Kept(output);
      if kept != Kept(output[..|output| - 1]) {
        assert kept[..|kept| - 1] == Kept(output[..|output| - 1]);
      }
    }
  }

  lemma OneFieldTells(name: string, value: Json)
    ensures LastField([Field(name, value)], name) == value
  {
    LastFieldSnoc([], Field(name, value), name);
    assert [Field(name, value)] == [] + [Field(name, value)];
  }

  predicate AllCarry(frames: seq<Frame>, parts: seq<Pump.Output<string>>) {
    |frames| == |parts| && forall k :: 0 <= k < |parts| ==> Carries(frames[k], parts, k)
  }

  lemma OneMoreCarries(frames: seq<Frame>, parts: seq<Pump.Output<string>>, f: Frame, part: Pump.Output<string>)
    requires AllCarry(frames, parts) && Carries(f, parts + [part], |parts|)
    ensures AllCarry(frames + [f], parts + [part])
  {
    forall k | 0 <= k < |parts| ensures Carries(frames[k], parts + [part], k) {
      assert (parts + [part])[..k + 1] == parts[..k + 1] && Carries(frames[k], parts, k);
    }
  }

  lemma LastCarries(output: seq<Pump.Output<string>>)
    requires output != [] && Kept(output) != Kept(output[..|output| - 1])
    ensures var kept := Kept(output);
      |OutputFrames(output[|output| - 1], Beats(output))| == 1 && Carries(OutputFrames(output[|output| - 1], Beats(output))[0], kept, |kept| - 1)
  {
    var kept, last := Kept(output), output[|output| - 1];
    assert kept[..|kept|] == kept;
    BeatsAre(kept);
    BeatsOfKept(output);
    match last
    case Heartbeat => OneFieldTells("count", Num(NumText(Beats(output))));
    case Yielded(c) => OneFieldTells("delta", Str(c));
  }

  /** A chat's frames are its parts, one for one and in order. */
  lemma {:induction false} ChatTells(output: seq<Pump.Output<string>>)
    ensures AllCarry(ChatFrames(output), Kept(output))
  {
    if output != [] {
      var init, last := output[..|output| - 1], output[|output| - 1];
      ChatTells(init);
      var more := OutputFrames(last, Beats(output));
      if last.Yielded? && last.c == "" {
        assert ChatFrames(init) + [] == ChatFrames(init) && Kept(init) + [] == Kept(init);
      } else {
        LastCarries(output);
        OneMoreCarries(ChatFrames(init), Kept(init), more[0], last);
      }
    }
  }

  /** What the page is shown of an event before the answer: thoughts, calls with their arguments, results and errors. */
  predicate Shows(host: Host, f: Frame, e: Agent.Event) {
    match e
    case Thought(text, i) =>
      IsStep(f, if i == 0 then 1 else i, "plan") && LastField(f.data.fields, "detail") == Str(Take(text, 500))
    case ToolCalled(_, args, i) =>
      IsStep(f, if i == 0 then 1 else i, "tool")
      && LastField(f.data.fields, "detail") == Str(Take(Dumps(if Agent.Falsy(host, args) then Obj([]) else args), 260))
    case ToolResult(name, _, i) => IsStep(f, if i == 0 then 1 else i, "retrieve")
    case Error(message) => f.name == "error" && f.data.Obj? && MessageOf(f) == message && LastField(f.data.fields, "code") == Str("AI_PROVIDER_ERROR")
    case FinalAnswer(_, _, _, _) => false
  }

  lemma EventTells(host: Host, e: Agent.Event)
    requires !e.FinalAnswer?
    ensures Shows(host, EventFrame(host, e), e)
  {
    match e
    case Thought(text, i) => StepTells(StepNumber(Some(i), 1), "plan", Take(text, 500));
    case ToolCalled(name, args, i) => StepTells(StepNumber(Some(i), 1), "tool", Take(Dumps(Shown(host, args)), 260));
    case ToolResult(name, result, i) => StepTells(StepNumber(Some(i), 1), "retrieve", name);
    case Error(message) => AlarmTells("AI_PROVIDER_ERROR", message);
  }

  lemma AlarmTells(code: string, message: string)
    ensures var f := Alarm(code, message);
      f.name == "error" && f.data.Obj? && LastField(f.data.fields, "code") == Str(code) && LastField(f.data.fields, "message") == Str(message)
  {
    var c, m := Field("code", Str(code)), Field("message", Str(message));
    assert [c, m] == [c] + [m] && [c] == [] + [c];
    LastFieldSnoc([c], m, "message");
    LastFieldSnoc([c], m, "code");
    LastFieldSnoc([], c, "code");
  }

  /** The final answer is announced by a step of its round, or of the fourth where no round is given. */
  lemma FinaleTells(host: Host, finale: Agent.Event, raised: Option<string>)
    requires finale.FinalAnswer?
    ensures var frames := FinaleFrames(host, Some(finale), raised);
      frames != [] && IsStep(frames[0], match finale.round { case Some(i) => if i == 0 then 4 else i case None => 4 }, "synthesize")
  {
    StepTells(StepNumber(finale.round, 4), "synthesize", "");
  }

  /** Without a model, and outside the offline mode, one error says that it is disabled. */
  lemma DisabledTells(host: Host, q: Request)
    requires PlainRequest(q) && q.source.NoModel? && !q.offlinePlaceholder
    ensures var frames := SourceFrames(host, q);
      |frames| == 1 && frames[0].name == "error" && MessageOf(frames[0]) == DISABLED
      && frames[0].data.Obj? && LastField(frames[0].data.fields, "code") == Str("AI_PROVIDER_DISABLED")
  {
    AlarmTells("AI_PROVIDER_DISABLED", DISABLED);
  }

  /** In the offline mode the answer is a notice that repeats the beginning of the question, 80 characters at most. */
  lemma OfflineTells(host: Host, q: Request)
    requires q.source.NoModel? && q.offlinePlaceholder
    ensures SourceText(host, q)
         == "（离线占位流式回答）" + ("已收到你的请求；" + ("当前处于显式离线测试模式，未调用真实 LLM。"
            + ("原始问题：" + if |q.question| <= 80 then q.question else q.question[..80])))
  {
    FourPieces(OfflinePieces(q.question));
  }

  lemma FourPieces(p: seq<string>)
    requires |p| == 4
    ensures Concat(p) == p[0] + (p[1] + (p[2] + p[3]))
  {
    assert p[1..][1..] == p[2..] && p[2..][1..] == p[3..] && p[3..][1..] == [];
    assert Concat(p[3..]) == p[3] + Concat([]);
    assert Concat(p[2..]) == p[2] + p[3];
  }

  predicate NoSteps(frames: seq<Frame>) {
    forall f :: f in frames ==> f.name != "agent_step"
  }

  lemma {:induction false} TokensAreNoSteps(pieces: seq<string>)
    ensures NoSteps(TokenFrames(pieces))
  {
    if pieces != [] {
      TokensAreNoSteps(pieces[..|pieces| - 1]);
    }
  }

  lemma {:induction false} ChatHasNoSteps(output: seq<Pump.Output<string>>)
    ensures NoSteps(ChatFrames(output))
  {
    if output != [] {
      ChatHasNoSteps(output[..|output| - 1]);
    }
  }

  /** Steps are shown in agent mode only. */
  lemma StepsAreForAgents(tools: Tools, q: Request, row: Row)
    requires PlainRequest(q) && !q.agentMode && !q.source.AgentRun?
    ensures NoSteps(StreamFrames(tools, q, row))
  {
    match q.source
    case ChatStream(output, _) => ChatHasNoSteps(output);
    case NoModel => TokensAreNoSteps(OfflinePieces(q.question));
  }

  /** Each event before the answer is shown by one frame, in order. */
  lemma {:induction false} ProgressTells(host: Host, events: seq<Agent.Event>)
    requires forall e :: e in events ==> !e.FinalAnswer?
    ensures |ProgressFrames(host, events)| == |events|
    ensures forall k :: 0 <= k < |events| ==> Shows(host, ProgressFrames(host, events)[k], events[k])
  {
    if events != [] {
      var init, last := events[..|events| - 1], events[|events| - 1];
      ProgressTells(host, init);
      assert last in events;
      EventTells(host, last);
      forall k | 0 <= k < |init| ensures Shows(host, ProgressFrames(host, events)[k], events[k]) {
        assert Shows(host, ProgressFrames(host, init)[k], init[k]);
      }
    }
  }

  /** How long a piece of an answer is at most: an eightieth of the answer, and 24 characters if that is less. */
  predicate IsSize(answer: string, size: nat) {
    size >= 24 && 80 * size <= (if |answer| < 24 * 80 then 24 * 80 else |answer|) < 80 * size + 80
  }

  /** All pieces of an answer but the last are of that size, and the last is not empty. */
  lemma {:induction false} PiecesAreEven(answer: string, i: nat, k: nat)
    requires i <= |answer| && k < |AnswerFrames(answer, i)|
    ensures exists size ::
      && IsSize(answer, size)
      && if k < |AnswerFrames(answer, i)| - 1 then |Delta(AnswerFrames(answer, i)[k])| == size
         else 0 < |Delta(AnswerFrames(answer, i)[k])| <= size
    decreases |answer| - i
  {
    var end := PieceEnd(answer, i);
    assert IsSize(answer, PieceSize(answer));
    OneFieldTells("delta", Str(answer[i..end]));
    if k > 0 {
      PiecesAreEven(answer, end, k - 1);
    }
  }

  // ----- The generator -----

  /** Cuts an answer into token frames. */
  method SendAnswer(frames: seq<Frame>, answer: string) returns (more: seq<Frame>)
    ensures more == frames + AnswerFrames(answer, 0)
  {
    more := frames;
    var size := |answer| / 80;
    size := if size < 24 then 24 else size;
    var i := 0;
    while i < |answer|
      invariant 0 <= i <= |answer|
      invariant more + AnswerFrames(answer, i) == frames + AnswerFrames(answer, 0)
    {
      var end := if i + size < |answer| then i + size else |answer|;
      OneMoreFrame(more, Token(answer[i..end]), AnswerFrames(answer, end));
      more := more + [Token(answer[i..end])];
      i := end;
    }
  }

  lemma OneMoreFrame(frames: seq<Frame>, f: Frame, later: seq<Frame>)
    ensures frames + [f] + later == frames + ([f] + later)
  {
  }

  method SendChat(output: seq<Pump.Output<string>>) returns (frames: seq<Frame>)
    ensures frames == ChatFrames(output)
  {
    frames := [];
    var beats := 0;
    for i := 0 to |output|
      invariant frames == ChatFrames(output[..i]) && beats == Beats(output[..i])
    {
      assert output[..i + 1][..i] == output[..i];
      if output[i].Heartbeat? {
        beats := beats + 1;
        frames := frames + [KeepaliveFrame(beats)];
      } else if output[i].c != "" {
        frames := frames + [Token(output[i].c)];
      }
    }
    assert output[..|output|] == output;
  }

  /** Replays the thoughts, calls, results and errors before the answer. */
  method SendProgress(host: Host, events: seq<Agent.Event>) returns (frames: seq<Frame>, error: Option<string>)
    requires forall e :: e in events ==> !e.FinalAnswer?
    ensures frames == ProgressFrames(host, events) && error == LastError(events)
  {
    frames, error := [], None;
    for i := 0 to |events|
      invariant frames == ProgressFrames(host, events[..i]) && error == LastError(events[..i])
    {
      assert events[i] in events;
      assert events[..i + 1][..i] == events[..i];
      match events[i]
      case Thought(text, iteration) =>
        frames := frames + [StepFrame(StepNumber(Some(iteration), 1), "plan", Take(text, 500))];
      case ToolCalled(name, args, iteration) =>
        frames := frames + [StepFrame(StepNumber(Some(iteration), 1), "tool", Take(Dumps(Shown(host, args)), 260))];
      case ToolResult(name, result, iteration) =>
        frames := frames + [StepFrame(StepNumber(Some(iteration), 1), "retrieve", name)];
      case Error(message) =>
        error := Some(message);
        frames := frames + [ErrorFrame(message)];
    }
    assert events[..|events|] == events;
  }

  /**
   The final answer: its step, its citations and its pieces. `failed` says that one of these raised;
   `listed` says that a non-empty list was cut as if it were text.
   */
  method SendFinale(tools: Tools, finale: Agent.Event) returns (frames: seq<Frame>, citations: Option<seq<Json>>, failed: bool, listed: bool)
    requires finale.FinalAnswer?
    ensures failed <==> Unspeakable(tools.host, finale)
    ensures frames + (if failed then [ErrorFrame(NOT_TEXT)] else []) == FinaleFrames(tools.host, Some(finale), None)
    ensures citations == OwnCitations(tools, finale)
    ensures listed <==> !failed && IsList(Some(finale))
  {
    citations, listed := None, false;
    var answer, raw := finale.answer, finale.citations;
    var number := if finale.round.Some? && finale.round.value > 0 then finale.round.value else 4;
    frames := [StepFrame(number, "synthesize", "")];
    if raw.Arr? && raw.items != [] {
      CiteAllIff(tools.host, tools.show, raw.items);
      citations := CiteAll(tools.host, tools.show, raw.items);
      if citations.None? {
        return frames, None, true, false;
      }
    }
    failed := Uncuttable(tools.host, answer);
    if answer.Str? {
      frames := SendAnswer(frames, answer.s);
    } else {
      listed := answer.Arr? && answer.items != [];
    }
  }

  /** Replays the agent's run. `error` is what the guarded part of the generator ends with. */
  method SendAgent(tools: Tools, events: seq<Agent.Event>, raised: Option<string>)
    returns (frames: seq<Frame>, error: Option<string>, citations: Option<seq<Json>>, listed: bool)
    requires AnswerLast(events)
    ensures frames == AgentFrames(tools.host, events, raised) && error == AgentError(tools.host, events, raised)
    ensures listed <==> IsList(Finale(events)) && Citable(tools.host, Finale(events).value.citations)
    ensures citations == AgentCitations(tools, events)
  {
    citations, listed := None, false;
    var finale := Finale(events);
    frames, error := SendProgress(tools.host, BeforeFinale(events));
    var last, failed := [], false;
    if finale.Some? {
      last, citations, failed, listed := SendFinale(tools, finale.value);
    }
    if failed {
      error := Some(NOT_TEXT);
      last := last + [ErrorFrame(NOT_TEXT)];
    } else if raised.Some? {
      error := raised;
      last := last + [ErrorFrame(raised.value)];
    }
    frames := frames + last;
    FinaleThenRaised(tools.host, finale, raised);
  }

  lemma FinaleThenRaised(host: Host, finale: Option<Agent.Event>, raised: Option<string>)
    requires finale.Some? ==> finale.value.FinalAnswer?
    ensures FinaleFrames(host, finale, raised)
         == FinaleFrames(host, finale, None) + if finale.Some? && Unspeakable(host, finale.value) then [] else RaisedFrames(raised)
  {
  }

  method SendOffline(q: Request) returns (frames: seq<Frame>)
    ensures frames == TokenFrames(OfflinePieces(q.question))
  {
    frames := [];
    var pieces := OfflinePieces(q.question);
    for i := 0 to |pieces|
      invariant frames == TokenFrames(pieces[..i])
    {
      assert pieces[..i + 1][..i] == pieces[..i];
      frames := frames + [Token(pieces[i])];
    }
    assert pieces[..|pieces|] == pieces;
  }

  /** The guarded part: everything the source says, and the error it ends with. */
  method SendSource(tools: Tools, q: Request)
    returns (frames: seq<Frame>, error: Option<string>, citations: Option<seq<Json>>, listed: bool)
    requires PlainRequest(q)
    ensures frames == SourceFrames(tools.host, q) && error == SourceError(tools.host, q)
    ensures listed <==> ListAnswer(tools.host, q)
    ensures citations == if q.source.AgentRun? then AgentCitations(tools, q.source.events) else None
  {
    frames, error, citations, listed := [], None, None, false;
    match q.source
    case AgentRun(events, raised) =>
      frames, error, citations, listed := SendAgent(tools, events, raised);
    case ChatStream(output, raised) =>
      frames := SendChat(output);
      if raised.Some? {
        error := raised;
        frames := frames + [ErrorFrame(raised.value)];
      }
    case NoModel =>
      if q.offlinePlaceholder {
        frames := SendOffline(q);
      } else {
        error := Some(DISABLED);
        frames := [DisabledFrame()];
      }
  }

  method SendPrelude(q: Request) returns (frames: seq<Frame>)
    ensures frames == PreludeFrames(q)
  {
    frames := [];
    if q.agentMode {
      frames := frames + [StepFrame(1, "plan", "")];
      frames := frames + [StepFrame(2, "retrieve", "")];
      if q.source.NoModel? {
        frames := frames + [StepFrame(3, "synthesize", "")];
      }
    }
  }

  /** The verdict written to the rows, and a `replace` frame if cleaning changed the text. */
  method Conclude(tools: Tools, q: Request, text: string, error: Option<string>)
    returns (frames: seq<Frame>, content: string, failed: bool)
    requires text == SourceText(tools.host, q) && error == SourceError(tools.host, q)
    ensures frames == ReplaceFrames(tools, q)
    ensures content == tools.sanitize(FinalText(tools.host, q)) && failed == Fails(tools.host, q)
  {
    failed := error.Some?;
    var final := text;
    if final == "" {
      if error.Some? {
        final := FAILURE_PREFIX + error.value;
      } else if q.offlinePlaceholder {
        final := PLACEHOLDER_REPLY;
      } else {
        failed := true;
        final := NO_ANSWER;
      }
    }
    frames := [];
    content := tools.sanitize(final);
    if content != final {
      frames := [ReplaceFrame(content)];
    }
  }

  /**
   The generator. It gives the frames and the outcome it writes; there is none, and the stream breaks off,
   exactly when the agent's answer is a non-empty list and all citations with it can be shaped.
   */
  method Generate(tools: Tools, q: Request) returns (frames: seq<Frame>, row: Option<Row>)
    requires PlainRequest(q)
    ensures row.None? <==> ListAnswer(tools.host, q)
    ensures row.Some? ==> frames == StreamFrames(tools, q, row.value) && Complete(tools, q, frames, row.value)
    ensures row.Some? ==> row.value.citations == AllCitations(tools, q)
  {
    frames := [Meta(q)];
    var prelude := SendPrelude(q);
    var said, error, cited, listed := SendSource(tools, q);
    frames := frames + (prelude + said);
    if listed {
      return frames, None;
    }
    SourceSays(tools.host, q);
    var more, content, failed := Conclude(tools, q, DeltaText(said), error);
    var citations := if cited.Some? then cited.value else q.contextCitations;
    var written := Row(content, failed, citations);
    CitationsArePlain(tools, q);
    StreamIsComplete(tools, q, written);
    frames := frames + more + [Done(q, failed, citations)];
    InOrder([Meta(q)], prelude + said, more, [Done(q, failed, citations)]);
    row := Some(written);
  }

  lemma InOrder(a: seq<Frame>, b: seq<Frame>, c: seq<Frame>, d: seq<Frame>)
    ensures a + b + c + d == a + (b + c) + d
  {
  }
}
