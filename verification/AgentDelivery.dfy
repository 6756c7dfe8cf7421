/** The agent's side from end to end: what its last round says, through the generator, to the page and the rows. */
module AgentDelivery {
  import opened Wrappers
  import opened Json
  import opened SseWire
  import opened Utf8Stream
  import opened StreamReader
  import opened Citations
  import opened AnswerStream
  import opened AnswerDelivery

  /** What becomes of an answer: text that arrives, an error with what the row keeps of the answer, or a stream that breaks off. */
  datatype Verdict = Answers(text: string) | Errs(kept: string) | BreaksOff

  /**
   The arguments of a final answer: they must be an object whose citations can be shaped, or the answer is an error;
   its answer must be text, or so empty that other text stands in for it; a non-empty list breaks the stream off.
   */
  function JudgeArguments(host: Host, args: Json, content: string): Verdict {
    if !args.Obj? || !Citable(host, LastField(args.fields, "citations")) then Errs("")
    else
      match LastField(args.fields, "answer")
      case Str(text) => if text != "" then Answers(text) else Answers(Agent.OrElse(content, "(空)").s)
      case Arr(items) => if items != [] then BreaksOff else Answers(Agent.OrElse(content, "(空)").s)
      case other => if Agent.Falsy(host, other) then Answers(Agent.OrElse(content, "(空)").s) else Errs("")
  }

  /** The verdict on the completion that ends the loop in one of its rounds. */
  function Judge(host: Host, c: Agent.Completion): Verdict {
    match c
    case Broke(_) => Errs(Agent.Apology().answer.s)
    case Said(content, calls) =>
      if calls == [] then Answers(Agent.OrElse(content, "（无内容）").s)
      else JudgeArguments(host, Agent.Arguments(host, calls[0]), content)
  }

  /** The verdict on a whole run: on the first completion that calls no tool, or on the text asked for after n rounds. */
  function JudgeRun(w: Agent.World, n: nat): Verdict {
    var r := Agent.Rounds(w, n, 0);
    if r == n then Answers(Agent.WrapUp(w.model(r), r).answer.s) else Judge(w.host, w.model(r))
  }

  // ----- How the events of a run end -----

  /** Neither an answer nor an error. */
  predicate Quiet(events: seq<Agent.Event>) {
    forall e :: e in events ==> !e.FinalAnswer? && !e.Error?
  }

  /** A run is tool rounds, which say nothing, and its ending. */
  lemma {:induction false} LoopEnds(w: Agent.World, t: Agent.Transcript, n: nat, k: nat) returns (before: seq<Agent.Event>)
    requires k <= n && Quiet(t.events)
    ensures Quiet(before) && Agent.LoopFrom(w, t, n, k).events == before + Agent.Ending(w, n, Agent.Rounds(w, n, k))
    decreases n - k
  {
    if k < n && Agent.Continues(w.model(k)) {
      before := LoopEnds(w, Agent.AfterRound(t, w, k), n, k + 1);
    } else {
      before := t.events;
    }
  }

  lemma {:induction false} NoErrorIn(events: seq<Agent.Event>)
    requires Quiet(events)
    ensures LastError(events).None? && Finale(events).None?
  {
    if events != [] {
      assert events[|events| - 1] in events;
      NoErrorIn(events[..|events| - 1]);
    }
  }

  lemma EndsQuietly(before: seq<Agent.Event>, thought: seq<Agent.Event>)
    requires Quiet(before) && Quiet(thought)
    ensures LastError(before + thought).None? && Finale(before + thought).None?
  {
    NoErrorIn(before + thought);
  }

  lemma EndsWithAnswer(before: seq<Agent.Event>, answer: Agent.Event)
    requires Quiet(before) && answer.FinalAnswer?
    ensures LastError(before + [answer]).None? && Finale(before + [answer]) == Some(answer)
  {
    NoErrorIn(before);
    assert (before + [answer])[..|before|] == before;
  }

  lemma EndsBroken(before: seq<Agent.Event>, error: Agent.Event, answer: Agent.Event)
    requires Quiet(before) && error.Error? && answer.FinalAnswer?
    ensures LastError(before + [error, answer]) == Some(error.message) && Finale(before + [error, answer]) == Some(answer)
  {
    var events := before + [error, answer];
    assert events[..|before| + 1] == before + [error] && (before + [error])[..|before|] == before;
  }

  /** The final answer that a round without a tool call yields; none if it crashes. */
  function Closing(host: Host, c: Agent.Completion, iteration: nat): (r: Option<Agent.Event>)
    requires !Agent.Continues(c)
    ensures r.Some? ==> r.value.FinalAnswer?
  {
    if c.Broke? then Some(Agent.Apology())
    else
      var answer := Agent.LastAnswer(host, c, iteration);
      if answer == [] then None else Some(answer[0])
  }

  lemma LastRoundCloses(host: Host, c: Agent.Completion, iteration: nat, before: seq<Agent.Event>)
    requires !Agent.Continues(c) && Quiet(before)
    ensures var events := before + Agent.LastRound(host, c, iteration);
      Finale(events) == Closing(host, c, iteration) && (LastError(events).Some? <==> c.Broke?)
  {
    match c
    case Broke(error) => EndsBroken(before, Agent.Failure(error), Agent.Apology());
    case Said(content, calls) =>
      var thought := Agent.ThoughtOf(content, iteration);
      var answer := Agent.LastAnswer(host, c, iteration);
      Agent.LastAnswerShape(host, c, iteration);
      if answer == [] {
        assert thought + answer == thought;
        EndsQuietly(before, thought);
      } else {
        assert answer == [answer[0]] && before + (thought + answer) == before + thought + answer;
        EndsWithAnswer(before + thought, answer[0]);
      }
  }

  /** The final answer a whole run yields. */
  function RunCloses(w: Agent.World, n: nat): (r: Option<Agent.Event>)
    ensures r.Some? ==> r.value.FinalAnswer?
  {
    var r := Agent.Rounds(w, n, 0);
    if r == n then Some(Agent.WrapUp(w.model(r), r)) else Closing(w.host, w.model(r), r + 1)
  }

  /** The completion that ends the loop is a failure. */
  predicate BrokenRun(w: Agent.World, n: nat) {
    var r := Agent.Rounds(w, n, 0);
    r < n && w.model(r).Broke?
  }

  lemma EventsClose(w: Agent.World, base: seq<Agent.Message>, n: nat)
    ensures var events := Agent.Trace(w, base, n).events;
      Finale(events) == RunCloses(w, n) && (LastError(events).Some? <==> BrokenRun(w, n))
  {
    var before := LoopEnds(w, Agent.Transcript([], base, []), n, 0);
    EndingCloses(w, n, before);
  }

  lemma EndingCloses(w: Agent.World, n: nat, before: seq<Agent.Event>)
    requires Quiet(before)
    ensures var events := before + Agent.Ending(w, n, Agent.Rounds(w, n, 0));
      Finale(events) == RunCloses(w, n) && (LastError(events).Some? <==> BrokenRun(w, n))
  {
    var r := Agent.Rounds(w, n, 0);
    var ending := Agent.Ending(w, n, r);
    if r == n {
      var answer := Agent.WrapUp(w.model(r), r);
      assert ending == [answer];
      EndsWithAnswer(before, answer);
    } else {
      assert ending == Agent.LastRound(w.host, w.model(r), r + 1);
      LastRoundCloses(w.host, w.model(r), r + 1, before);
    }
  }

  /** What the generator makes of the way a run ended. */
  function Heeded(host: Host, finale: Option<Agent.Event>, broke: bool): Verdict
    requires finale.Some? ==> finale.value.FinalAnswer?
  {
    if finale.None? || Unspeakable(host, finale.value) then Errs("")
    else if IsList(finale) then BreaksOff
    else
      var text := if finale.value.answer.Str? then finale.value.answer.s else "";
      if broke then Errs(text) else Answers(text)
  }

  lemma ArgumentsHeeded(host: Host, fields: seq<Field>, content: string, iteration: nat)
    ensures Heeded(host, Some(Agent.ToolAnswer(host, content, fields, iteration)), false) == JudgeArguments(host, Obj(fields), content)
  {
  }

  lemma ClosingHeeded(host: Host, c: Agent.Completion, iteration: nat)
    requires !Agent.Continues(c)
    ensures Heeded(host, Closing(host, c, iteration), c.Broke?) == Judge(host, c)
  {
    if c.Said? && c.calls != [] {
      var args := Agent.Arguments(host, c.calls[0]);
      if args.Obj? {
        ArgumentsHeeded(host, args.fields, c.content, iteration);
      }
    }
  }

  // ----- The request that replays a run -----

  /** The request streams the events of a run, and an exception exactly if it crashed. */
  ghost predicate Replays(q: Request, w: Agent.World, base: seq<Agent.Message>, n: nat) {
    && q.source.AgentRun? && q.source.events == Agent.Trace(w, base, n).events
    && (q.source.raised.Some? <==> Agent.EndsInCrash(w, n, 0))
  }

  /** The generator heeds a run by its last completion alone. */
  lemma RunHeeded(w: Agent.World, n: nat)
    ensures Heeded(w.host, RunCloses(w, n), BrokenRun(w, n)) == JudgeRun(w, n)
    ensures RunCloses(w, n).None? <==> Agent.EndsInCrash(w, n, 0)
  {
    var r := Agent.Rounds(w, n, 0);
    if r < n {
      ClosingHeeded(w.host, w.model(r), r + 1);
    }
  }

  /** What a verdict leaves of the answer's text. */
  function Kept(v: Verdict): string {
    match v
    case Answers(text) => text
    case Errs(kept) => kept
    case BreaksOff => ""
  }

  /** What the request comes to, told from the run alone. */
  lemma RequestJudged(q: Request, w: Agent.World, base: seq<Agent.Message>, n: nat)
    requires Replays(q, w, base, n)
    ensures var v := JudgeRun(w, n);
      && (ListAnswer(w.host, q) <==> v.BreaksOff?)
      && (SourceError(w.host, q).Some? <==> v.Errs?)
      && SourceText(w.host, q) == Kept(v)
      && SourceHeard(w.host, q) == if v.Answers? then v.text else ""
  {
    EventsClose(w, base, n);
    RunHeeded(w, n);
    ReplayVerdict(w.host, q, BrokenRun(w, n));
  }

  lemma ReplayVerdict(host: Host, q: Request, broke: bool)
    requires q.source.AgentRun? && (LastError(q.source.events).Some? <==> broke)
    requires q.source.raised.Some? <==> Finale(q.source.events).None?
    requires broke ==> Heeded(host, Finale(q.source.events), broke).Errs?
    ensures var v := Heeded(host, Finale(q.source.events), broke);
      && (ListAnswer(host, q) <==> v.BreaksOff?)
      && (SourceError(host, q).Some? <==> v.Errs?)
      && SourceText(host, q) == Kept(v)
      && SourceHeard(host, q) == if v.Answers? then v.text else ""
  {
  }

  /** A final answer given as a tool call whose arguments are an object with a non-empty list for an answer and citations that can be shaped. */
  predicate AnswersWithList(host: Host, c: Agent.Completion) {
    && c.Said? && c.calls != [] && c.calls[0].name == "final_answer"
    && var args := Agent.Arguments(host, c.calls[0]);
       && args.Obj? && LastField(args.fields, "answer").Arr? && LastField(args.fields, "answer").items != []
       && Citable(host, LastField(args.fields, "citations"))
  }

  /** The stream of a run breaks off exactly if the completion that ends the loop gives its answer as a list. */
  lemma BreaksOffIff(q: Request, w: Agent.World, base: seq<Agent.Message>, n: nat)
    requires Replays(q, w, base, n)
    ensures var r := Agent.Rounds(w, n, 0); ListAnswer(w.host, q) <==> r < n && AnswersWithList(w.host, w.model(r))
  {
    RequestJudged(q, w, base, n);
  }

  /** A first completion that is a final answer decides the run by its arguments. */
  lemma FirstRoundDecides(w: Agent.World, n: nat, args: Json)
    requires n > 0 && w.model(0).Said? && w.model(0).calls != [] && w.model(0).calls[0].name == "final_answer"
    requires w.model(0).calls[0].arguments != "" && w.host.parse(w.model(0).calls[0].arguments) == Some(args)
    ensures JudgeRun(w, n) == JudgeArguments(w.host, args, w.model(0).content)
  {
  }

  /** Arguments that fail, each in its own way; a bad citation turns even the list into an error that is reported. */
  lemma FailingArguments(host: Host, content: string)
    requires !host.zero("3")
    ensures var list, three := Arr([Str("x")]), Num("3");
      var answer, cited := Field("answer", list), Field("citations", Arr([Obj([Field("title", three)])]));
      && JudgeArguments(host, Obj([answer]), content) == BreaksOff
      && JudgeArguments(host, Obj([answer, cited]), content) == Errs("")
      && JudgeArguments(host, Obj([Field("answer", Str("hi")), cited]), content) == Errs("")
      && JudgeArguments(host, Obj([Field("answer", three)]), content) == Errs("")
      && JudgeArguments(host, list, content) == Errs("")
  {
    var list, three := Arr([Str("x")]), Num("3");
    var answer, bad := Field("answer", list), Obj([Field("title", three)]);
    var cited := Field("citations", Arr([bad]));
    OneField(Field("title", three), "title");
    assert !Shapeable(host, bad.fields) && bad in cited.value.items;
    OneField(answer, "answer");
    OneField(answer, "citations");
    OneField(Field("answer", three), "answer");
    OneField(Field("answer", three), "citations");
    TwoFields(answer, cited, "citations");
    TwoFields(Field("answer", Str("hi")), cited, "citations");
  }

  lemma OneField(f: Field, name: string)
    ensures LastField([f], name) == if f.name == name then f.value else Null
  {
    LastFieldSnoc([], f, name);
    assert [f] == [] + [f];
  }

  lemma TwoFields(f: Field, g: Field, name: string)
    ensures LastField([f, g], name) == if g.name == name then g.value else LastField([f], name)
  {
    LastFieldSnoc([f], g, name);
    assert [f, g] == [f] + [g];
  }

  // ----- From the run to the page -----

  /** Every number the parser reads prints on one line. */
  ghost predicate ParsesPlainly(host: Host) {
    forall text :: host.parse(text).Some? ==> PlainNumbers(host.parse(text).value)
  }

  lemma CitationsAreRead(w: Agent.World, n: nat)
    requires ParsesPlainly(w.host)
    ensures RunCloses(w, n).Some? ==> PlainNumbers(RunCloses(w, n).value.citations)
  {
    var r := Agent.Rounds(w, n, 0);
    if r < n && w.model(r).Said? && w.model(r).calls != [] {
      var args := Agent.Arguments(w.host, w.model(r).calls[0]);
      if args.Obj? {
        LastFieldIsPlain(args.fields, "citations");
      }
    }
  }

  /** What a run yields can be streamed: whatever the model and the tools do, the answer comes last and prints on one line. */
  lemma RunIsPlain(w: Agent.World, base: seq<Agent.Message>, n: nat)
    requires ParsesPlainly(w.host)
    ensures var events := Agent.Trace(w, base, n).events;
      AnswerLast(events) && forall e :: e in events && e.FinalAnswer? ==> PlainNumbers(e.citations)
  {
    var events := Agent.Trace(w, base, n).events;
    Agent.TraceInGrammar(w, base, n);
    Agent.ReadingCounts(n, events);
    EventsClose(w, base, n);
    CitationsAreRead(w, n);
    forall e | e in events && e.FinalAnswer? ensures Finale(events) == Some(e) {
      var i :| 0 <= i < |events| && events[i] == e;
    }
  }

  /** The page and the row after a run with this verdict: the answer in both, or an error on the page and a failed row. */
  ghost predicate Delivered(v: Verdict, tools: Tools, assistantId: string, page: Page, row: Row) {
    match v
    case Answers(text) =>
      && page.status.DoneSeen? && page.assembled == page.shown == text && page.messageId == Some(Str(assistantId))
      && !row.failed && row.content == tools.sanitize(text)
    case Errs(kept) =>
      && page.status.ErrorSeen? && page.assembled == "" && page.messageId == Some(Str(assistantId))
      && row.failed && (kept != "" ==> row.content == tools.sanitize(kept))
    case BreaksOff => false
  }

  lemma VerdictHasText(w: Agent.World, n: nat)
    ensures JudgeRun(w, n).Answers? ==> JudgeRun(w, n).text != ""
  {
  }

  /**
   The agent from end to end: whatever the model and the tools do, however the printed stream is cut and however the
   connection ends, page and row hold what the verdict on the run's last completion says.
   */
  lemma AgentAnswerArrives(
      host: Host, tools: Tools, q: Request, w: Agent.World, base: seq<Agent.Message>, n: nat,
      frames: seq<Frame>, row: Row, chunks: seq<seq<Byte>>, ending: Ending)
    requires tools.host == w.host && Replays(q, w, base, n) && !JudgeRun(w, n).BreaksOff?
    ensures Deliverable(host, tools, q, frames, row) && OnTheWire(frames, chunks) ==>
      Delivered(JudgeRun(w, n), tools, q.assistantId, Received(host, chunks, ending).page, row)
  {
    if Deliverable(host, tools, q, frames, row) && OnTheWire(frames, chunks) {
      RequestJudged(q, w, base, n);
      VerdictHasText(w, n);
      StreamEnds(host, tools, q, frames, row, chunks, ending);
    }
  }

  // ----- The citations -----

  /** The completion that ends the loop gives these values, some and all fit to be shaped, as citations of its final answer. */
  predicate Gives(w: Agent.World, n: nat, raw: seq<Json>) {
    var r := Agent.Rounds(w, n, 0);
    && r < n
    && var c := w.model(r);
       && c.Said? && c.calls != [] && c.calls[0].name == "final_answer" && raw != [] && Citable(w.host, Arr(raw))
       && var args := Agent.Arguments(w.host, c.calls[0]); args.Obj? && LastField(args.fields, "citations") == Arr(raw)
  }

  /** The citations written are those given, one for each object, or the context's if none were given. */
  ghost predicate Cited(tools: Tools, w: Agent.World, n: nat, context: seq<Json>, cites: seq<Json>) {
    && (forall raw :: Gives(w, n, raw) ==> DescribeAll(tools.host, tools.show, cites, ObjectsIn(raw)))
    && ((forall raw :: !Gives(w, n, raw)) ==> cites == context)
  }

  /** The final answer that a run yields cites exactly what its last completion gave. */
  lemma ClosesGiving(w: Agent.World, n: nat, raw: seq<Json>)
    requires raw != []
    ensures Gives(w, n, raw) <==> RunCloses(w, n).Some? && RunCloses(w, n).value.citations == Arr(raw) && Citable(w.host, Arr(raw))
  {
  }

  lemma CitationsGiven(tools: Tools, events: seq<Agent.Event>, w: Agent.World, n: nat, raw: seq<Json>)
    requires tools.host == w.host && Finale(events) == RunCloses(w, n) && Gives(w, n, raw)
    ensures AgentCitations(tools, events).Some? && AgentCitations(tools, events) == CiteAll(tools.host, tools.show, raw)
  {
    ClosesGiving(w, n, raw);
    CiteAllIff(tools.host, tools.show, raw);
  }

  lemma NoCitationsGiven(tools: Tools, events: seq<Agent.Event>, w: Agent.World, n: nat)
    requires tools.host == w.host && Finale(events) == RunCloses(w, n) && forall raw :: !Gives(w, n, raw)
    ensures AgentCitations(tools, events).None?
  {
    if Finale(events).Some? && Finale(events).value.citations.Arr? && Finale(events).value.citations.items != [] {
      var raw := Finale(events).value.citations.items;
      CiteAllIff(tools.host, tools.show, raw);
      ClosesGiving(w, n, raw);
      assert !Gives(w, n, raw);
    }
  }

  /** What a streamed run writes and sends as citations, told from the completion that ends its loop. */
  lemma RunIsCited(tools: Tools, q: Request, w: Agent.World, base: seq<Agent.Message>, n: nat)
    requires tools.host == w.host && Replays(q, w, base, n)
    ensures Cited(tools, w, n, q.contextCitations, AllCitations(tools, q))
  {
    EventsClose(w, base, n);
    forall raw | Gives(w, n, raw) ensures DescribeAll(tools.host, tools.show, AllCitations(tools, q), ObjectsIn(raw)) {
      CitationsGiven(tools, q.source.events, w, n, raw);
      CiteAllDescribes(tools.host, tools.show, raw);
    }
    if forall raw :: !Gives(w, n, raw) {
      NoCitationsGiven(tools, q.source.events, w, n);
    }
  }

  /**
   The endpoint in agent mode: it runs the agent and streams what the run yields. The stream breaks off exactly on the
   verdict that says so; otherwise it is complete, and every way of cutting and reading it delivers the verdict.
   */
  method AnswerWithAgent(
      tools: Tools, ask: Request, complaint: string, system: string, history: seq<Agent.Message>, maxIterations: int,
      model: nat -> Agent.Completion, run: (nat, string, Json) -> Agent.ToolOutcome)
    returns (frames: seq<Frame>, row: Option<Row>)
    requires ParsesPlainly(tools.host) && OneLine(ask.elapsed) && PlainAll(ask.contextCitations)
    ensures row.Some? ==>
      && Cited(tools, Agent.WorldOf(tools.host, model, run), if maxIterations < 0 then 0 else maxIterations, ask.contextCitations, row.value.citations)
      && |frames| > 0 && frames[|frames| - 1].data.Obj?
      && LastField(frames[|frames| - 1].data.fields, "citations") == Arr(row.value.citations)
    ensures var n := if maxIterations < 0 then 0 else maxIterations;
      var v := JudgeRun(Agent.WorldOf(tools.host, model, run), n);
      && (row.None? <==> v.BreaksOff?)
      && (row.Some? && ask.assistantId != "" ==>
            |frames| > 0 && forall host, chunks, ending :: ParsesBack(host, frames[..|frames| - 1]) && OnTheWire(frames, chunks) ==>
              Delivered(v, tools, ask.assistantId, Received(host, chunks, ending).page, row.value))
  {
    var events, prompts, crashed := Agent.RunReactAgent(true, ask.offlinePlaceholder, system, history, ask.question, maxIterations, tools.host, model, run);
    ghost var n := if maxIterations < 0 then 0 else maxIterations;
    ghost var w := Agent.WorldOf(tools.host, model, run);
    ghost var base := Agent.Opening(system, history, ask.question);
    RunIsPlain(w, base, n);
    var q := ask.(source := AgentRun(events, if crashed then Some(complaint) else None));
    RequestJudged(q, w, base, n);
    RunIsCited(tools, q, w, base, n);
    frames, row := Generate(tools, q);
    if row.Some? {
      DoneTells(q, row.value.failed, row.value.citations);
    }
    if row.Some? && ask.assistantId != "" {
      forall host, chunks, ending | ParsesBack(host, frames[..|frames| - 1]) && OnTheWire(frames, chunks)
        ensures Delivered(JudgeRun(w, n), tools, ask.assistantId, Received(host, chunks, ending).page, row.value)
      {
        AgentAnswerArrives(host, tools, q, w, base, n, frames, row.value, chunks, ending);
      }
    }
  }
}
