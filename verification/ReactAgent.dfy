/**
 The tool-calling loop. The model and the tools are arbitrary functions of the round,
 so a statement about all of them covers every adaptive behaviour.
 */
module ReactAgent {
  import opened Wrappers
  import opened Json
  import opened Text
  import SseWire

  datatype ToolCall = ToolCall(id: string, name: string, arguments: string)

  datatype Completion = Broke(error: string) | Said(content: string, calls: seq<ToolCall>)

  datatype ToolOutcome = Returned(value: Json) | Threw(error: string)

  datatype Message =
    | Plain(role: string, content: string)
    | Assistant(content: string, calls: seq<ToolCall>)
    | Tool(callId: string, name: string, content: string)

  datatype Event =
    | Thought(text: string, iteration: nat)
    | ToolCalled(name: string, args: Json, iteration: nat)
    | ToolResult(name: string, result: Json, iteration: nat)
    | FinalAnswer(answer: Json, citations: Json, round: Option<nat>, truncated: bool)
    | Error(message: string)

  const OBSERVATION_LIMIT := 3500
  const THOUGHT_LIMIT := 600
  predicate IsTool(name: string) {
    name == "kb_search" || name == "read_document" || name == "global_search" || name == "create_card" || name == "run_skill"
  }

  predicate Falsy(host: Host, j: Json) {
    match j
    case Null => true
    case Bool(b) => !b
    case Num(text) => host.zero(text)
    case Str(s) => s == ""
    case Arr(items) => items == []
    case Obj(fields) => fields == []
  }

  /** Arguments that do not parse count as none. */
  function Arguments(host: Host, call: ToolCall): Json {
    if call.arguments == "" then Obj([])
    else
      match host.parse(call.arguments)
      case None => Obj([])
      case Some(j) => j
  }

  /** Running a tool always gives an observation: unknown names, arguments of the wrong shape and failures become error objects. */
  function Dispatch(host: Host, name: string, args: Json, run: Json -> ToolOutcome): Json {
    if !IsTool(name) then Obj([Field("error", Str("unknown_tool")), Field("name", Str(name))])
    else
      var given := if Falsy(host, args) then Obj([]) else args;
      var outcome := if given.Obj? then run(given) else Threw("argument must be a mapping");
      match outcome
      case Returned(value) => value
      case Threw(error) =>
        Obj([Field("error", Str("tool_exception")), Field("tool", Str(name)), Field("message", Str(Take(error, 300)))])
  }

  // ----- What a completion does to the loop -----

  /** Everything the loop depends on: the k-th completion of the model, and what dispatching a tool in round k gives. */
  datatype World = World(host: Host, model: nat -> Completion, dispatch: (nat, string, Json) -> Json)

  /** The world in which tools turn out as `run` says. */
  function WorldOf(host: Host, model: nat -> Completion, run: (nat, string, Json) -> ToolOutcome): World {
    World(host, model, (j: nat, name: string, args: Json) => Dispatch(host, name, args, given => run(j, name, given)))
  }

  /** A tool call other than the final answer: the loop goes round. */
  predicate Continues(c: Completion) {
    c.Said? && c.calls != [] && c.calls[0].name != "final_answer"
  }

  /** A final answer whose arguments parse to something that is no object: reading a field of it raises. */
  predicate Crashes(host: Host, c: Completion) {
    c.Said? && c.calls != [] && c.calls[0].name == "final_answer" && !Arguments(host, c.calls[0]).Obj?
  }

  /** How many rounds, from round k on, go by before something else than a tool call happens, n at most. */
  function Rounds(w: World, n: nat, k: nat): (r: nat)
    requires k <= n
    ensures k <= r <= n
    ensures r < n ==> !Continues(w.model(r))
    decreases n - k
  {
    if k < n && Continues(w.model(k)) then Rounds(w, n, k + 1) else k
  }

  /** The run ends on arguments of a final answer that are no object. */
  predicate EndsInCrash(w: World, n: nat, k: nat)
    requires k <= n
  {
    var r := Rounds(w, n, k);
    r < n && Crashes(w.host, w.model(r))
  }

  function Observation(w: World, j: nat): Json
    requires Continues(w.model(j))
  {
    var call := w.model(j).calls[0];
    w.dispatch(j, call.name, Arguments(w.host, call))
  }

  function ThoughtOf(content: string, iteration: nat): seq<Event> {
    if Trim(IsPySpace, content) != "" then [Thought(Take(content, THOUGHT_LIMIT), iteration)] else []
  }

  function RoundTrace(content: string, name: string, args: Json, result: Json, iteration: nat): seq<Event> {
    ThoughtOf(content, iteration) + [ToolCalled(name, args, iteration), ToolResult(name, result, iteration)]
  }

  function Exchange(content: string, calls: seq<ToolCall>, observation: Json): seq<Message>
    requires calls != []
  {
    [Assistant(content, calls), Tool(calls[0].id, calls[0].name, Take(SseWire.Dumps(observation), OBSERVATION_LIMIT))]
  }

  /** What the loop has produced so far: the events yielded, the conversation, and what the model was shown at each completion. */
  datatype Transcript = Transcript(events: seq<Event>, messages: seq<Message>, prompts: seq<seq<Message>>)

  /** Round j shows the conversation to the model, yields its events and appends the call with its answer. */
  function AfterRound(t: Transcript, w: World, j: nat): Transcript
    requires Continues(w.model(j))
  {
    var c := w.model(j);
    Transcript(
      t.events + RoundTrace(c.content, c.calls[0].name, Arguments(w.host, c.calls[0]), Observation(w, j), j + 1),
      t.messages + Exchange(c.content, c.calls, Observation(w, j)),
      t.prompts + [t.messages])
  }

  function OrElse(s: string, otherwise: string): Json {
    Str(if s != "" then s else otherwise)
  }

  function WrapUp(c: Completion, iteration: nat): Event {
    FinalAnswer(OrElse(if c.Said? then c.content else "", "（达到最大工具调用次数；这里基于已检索内容给出概述。）"), Arr([]), Some(iteration), true)
  }

  function Failure(error: string): (e: Event)
    ensures e.Error?
  {
    Error("LLM provider failed: " + error)
  }

  function Apology(): Event {
    FinalAnswer(Str("抱歉，模型调用失败。请稍后再试。"), Arr([]), None, false)
  }

  /** An answer given as plain text. */
  function PlainAnswer(content: string, iteration: nat): Event {
    FinalAnswer(OrElse(content, "（无内容）"), Arr([]), Some(iteration), false)
  }

  /** An answer given through the tool of that name; the text of the completion stands in for a missing one. */
  function ToolAnswer(host: Host, content: string, fields: seq<Field>, iteration: nat): Event {
    var said, cited := LastField(fields, "answer"), LastField(fields, "citations");
    FinalAnswer(if Falsy(host, said) then OrElse(content, "(空)") else said,
                if Falsy(host, cited) then Arr([]) else cited, Some(iteration), false)
  }

  function LastAnswer(host: Host, c: Completion, iteration: nat): seq<Event>
    requires c.Said? && !Continues(c)
  {
    if c.calls == [] then [PlainAnswer(c.content, iteration)]
    else
      match Arguments(host, c.calls[0])
      case Obj(fields) => [ToolAnswer(host, c.content, fields, iteration)]
      case _ => []
  }

  /** The events of a round that calls no tool. */
  function LastRound(host: Host, c: Completion, iteration: nat): seq<Event>
    requires !Continues(c)
  {
    if c.Broke? then [Failure(c.error), Apology()] else ThoughtOf(c.content, iteration) + LastAnswer(host, c, iteration)
  }

  /** The events after the last tool round: in round r, or after all n rounds. */
  function Ending(w: World, n: nat, r: nat): seq<Event>
    requires r <= n && (r < n ==> !Continues(w.model(r)))
  {
    if r == n then [WrapUp(w.model(r), r)] else LastRound(w.host, w.model(r), r + 1)
  }

  function Finish(t: Transcript, ending: seq<Event>): Transcript {
    Transcript(t.events + ending, t.messages, t.prompts + [t.messages])
  }

  /** The run from round k on, given what happened before: tool rounds, and the completion that ends it. */
  function LoopFrom(w: World, t: Transcript, n: nat, k: nat): Transcript
    requires k <= n
    decreases n - k
  {
    if k < n && Continues(w.model(k)) then LoopFrom(w, AfterRound(t, w, k), n, k + 1) else Finish(t, Ending(w, n, k))
  }

  /** The whole run. */
  function Trace(w: World, base: seq<Message>, n: nat): Transcript { LoopFrom(w, Transcript([], base, []), n, 0) }

  // ----- The grammar of events -----

  /** A recogniser: `Between(r)` stands after r complete rounds. */
  datatype Reading = Between(rounds: nat) | Thinking(rounds: nat) | Calling(rounds: nat, name: string) | Failing | Ended | Wrong

  function Read(n: nat, g: Reading, e: Event): Reading {
    match (g, e)
    case (Between(r), Thought(_, i)) => if r < n && i == r + 1 then Thinking(r) else Wrong
    case (Between(r), ToolCalled(name, _, i)) => if r < n && i == r + 1 then Calling(r, name) else Wrong
    case (Thinking(r), ToolCalled(name, _, i)) => if i == r + 1 then Calling(r, name) else Wrong
    case (Calling(r, called), ToolResult(name, _, i)) => if name == called && i == r + 1 then Between(r + 1) else Wrong
    case (Between(r), Error(_)) => if r < n then Failing else Wrong
    case (Between(r), FinalAnswer(_, _, _, truncated)) => if truncated <==> r == n then Ended else Wrong
    case (Thinking(_), FinalAnswer(_, _, _, truncated)) => if !truncated then Ended else Wrong
    case (Failing, FinalAnswer(_, _, _, truncated)) => if !truncated then Ended else Wrong
    case _ => Wrong
  }

  function ReadAll(n: nat, events: seq<Event>): Reading {
    if events == [] then Between(0)
    else Read(n, ReadAll(n, events[..|events| - 1]), events[|events| - 1])
  }

  /** At most n rounds of (optional thought, call, result), then an optional thought or an error, then one final answer. */
  predicate InGrammar(n: nat, events: seq<Event>) {
    ReadAll(n, events).Ended?
  }

  /** In the grammar, or if the run crashed a beginning of something in it. */
  predicate ReadsWell(n: nat, events: seq<Event>, crashed: bool) {
    !ReadAll(n, events).Wrong? && (InGrammar(n, events) <==> !crashed)
  }

  lemma ReadSnoc(n: nat, events: seq<Event>, e: Event)
    ensures ReadAll(n, events + [e]) == Read(n, ReadAll(n, events), e)
  {
  }

  lemma {:induction false} ReadingCounts(n: nat, events: seq<Event>)
    requires !ReadAll(n, events).Wrong?
    ensures var g := ReadAll(n, events);
      && (g.Between? || g.Thinking? || g.Calling? ==> g.rounds <= n && |events| <= 3 * g.rounds + (if g.Between? then 0 else if g.Thinking? then 1 else 2))
      && (g.Thinking? || g.Calling? ==> g.rounds < n)
      && (g.Failing? ==> n > 0 && |events| <= 3 * n)
      && (g.Ended? ==> events != [] && |events| <= 3 * n + 1)
      && (forall i :: 0 <= i < |events| && events[i].FinalAnswer? ==> g.Ended? && i == |events| - 1)
      && (g.Ended? ==> events[|events| - 1].FinalAnswer?)
  {
    if events != [] {
      ReadingCounts(n, events[..|events| - 1]);
    }
  }

  /** In every accepted trace the final answer is unique and last, and the trace is no longer than its rounds allow. */
  lemma FinalAnswerIsUniqueAndLast(n: nat, events: seq<Event>)
    requires InGrammar(n, events)
    ensures events != [] && |events| <= 3 * n + 1
    ensures forall i :: 0 <= i < |events| ==> (events[i].FinalAnswer? <==> i == |events| - 1)
  {
    ReadingCounts(n, events);
  }

  // ----- Prompts -----

  /** Every assistant message that calls tools is answered at once, for its first call, by a bounded tool message. */
  predicate Answered(messages: seq<Message>) {
    forall i :: 0 <= i < |messages| && messages[i].Assistant? ==>
      && messages[i].calls != []
      && i + 1 < |messages| && messages[i + 1].Tool?
      && messages[i + 1].callId == messages[i].calls[0].id && messages[i + 1].name == messages[i].calls[0].name
      && |messages[i + 1].content| <= OBSERVATION_LIMIT
  }

  /** Only the last six turns, and of these only what a user or the assistant said. */
  function Recent(history: seq<Message>): seq<Message> {
    Spoken(if |history| <= 6 then history else history[|history| - 6..])
  }

  function Spoken(turns: seq<Message>): (r: seq<Message>)
    ensures forall m :: m in r ==> m.Plain?
  {
    if turns == [] then []
    else
      (if turns[0].Plain? && turns[0].role in {"user", "assistant"} && turns[0].content != "" then [turns[0]] else [])
      + Spoken(turns[1..])
  }

  lemma CallReads(n: nat, events: seq<Event>, name: string, args: Json, result: Json, k: nat)
    requires 0 < k <= n && ReadAll(n, events) in {Between(k - 1), Thinking(k - 1)}
    ensures ReadAll(n, events + [ToolCalled(name, args, k), ToolResult(name, result, k)]) == Between(k)
  {
    var call, back := ToolCalled(name, args, k), ToolResult(name, result, k);
    ReadSnoc(n, events, call);
    ReadSnoc(n, events + [call], back);
    assert events + [call, back] == events + [call] + [back];
  }

  lemma RoundReads(n: nat, events: seq<Event>, content: string, name: string, args: Json, result: Json, k: nat)
    requires 0 < k <= n && ReadAll(n, events) == Between(k - 1)
    ensures ReadAll(n, events + RoundTrace(content, name, args, result, k)) == Between(k)
  {
    ThoughtReads(n, events, content, k);
    CallReads(n, events + ThoughtOf(content, k), name, args, result, k);
    var calls := [ToolCalled(name, args, k), ToolResult(name, result, k)];
    assert events + (ThoughtOf(content, k) + calls) == events + ThoughtOf(content, k) + calls;
  }

  lemma OneMoreRound(n: nat, t: Transcript, w: World, j: nat)
    requires j < n && Continues(w.model(j)) && ReadAll(n, t.events) == Between(j)
    ensures ReadAll(n, AfterRound(t, w, j).events) == Between(j + 1)
  {
    var c := w.model(j);
    RoundReads(n, t.events, c.content, c.calls[0].name, Arguments(w.host, c.calls[0]), Observation(w, j), j + 1);
  }

  lemma ThoughtReads(n: nat, events: seq<Event>, content: string, k: nat)
    requires 0 < k <= n && ReadAll(n, events) == Between(k - 1)
    ensures ReadAll(n, events + ThoughtOf(content, k)) in {Between(k - 1), Thinking(k - 1)}
  {
    if ThoughtOf(content, k) == [] {
      assert events + [] == events;
    } else {
      ReadSnoc(n, events, ThoughtOf(content, k)[0]);
    }
  }

  lemma AnswerReads(n: nat, events: seq<Event>, content: string, answer: Event, k: nat)
    requires 0 < k <= n && ReadAll(n, events) == Between(k - 1)
    requires answer.FinalAnswer? && !answer.truncated
    ensures ReadsWell(n, events + (ThoughtOf(content, k) + [answer]), false)
    ensures ReadsWell(n, events + ThoughtOf(content, k), true)
  {
    ThoughtReads(n, events, content, k);
    AnswerAfter(n, events + ThoughtOf(content, k), answer, k);
    Regroup(events, ThoughtOf(content, k), [answer]);
  }

  lemma AnswerAfter(n: nat, events: seq<Event>, answer: Event, k: nat)
    requires 0 < k <= n && ReadAll(n, events) in {Between(k - 1), Thinking(k - 1)}
    requires answer.FinalAnswer? && !answer.truncated
    ensures ReadsWell(n, events + [answer], false) && ReadsWell(n, events, true)
  {
    ReadSnoc(n, events, answer);
  }

  lemma Regroup(a: seq<Event>, b: seq<Event>, c: seq<Event>)
    ensures a + (b + c) == a + b + c
  {
  }

  lemma {:induction false} LoopReads(w: World, t: Transcript, n: nat, k: nat)
    requires k <= n && ReadAll(n, t.events) == Between(k)
    ensures ReadsWell(n, LoopFrom(w, t, n, k).events, EndsInCrash(w, n, k))
    decreases n - k
  {
    if k < n && Continues(w.model(k)) {
      var t' := AfterRound(t, w, k);
      OneMoreRound(n, t, w, k);
      LoopReads(w, t', n, k + 1);
      assert LoopFrom(w, t, n, k) == LoopFrom(w, t', n, k + 1) && Rounds(w, n, k) == Rounds(w, n, k + 1);
    } else {
      EndingReads(w, n, k, t.events);
    }
  }

  /**
   The run keeps to the grammar exactly when it does not crash: whether it does is decided by the first round that calls no tool.
   A run that crashes has yielded a beginning of something in the grammar.
   */
  lemma TraceInGrammar(w: World, base: seq<Message>, n: nat)
    ensures ReadsWell(n, Trace(w, base, n).events, EndsInCrash(w, n, 0))
  {
    LoopReads(w, Transcript([], base, []), n, 0);
  }

  lemma EndingReads(w: World, n: nat, r: nat, before: seq<Event>)
    requires r <= n && (r < n ==> !Continues(w.model(r)))
    requires ReadAll(n, before) == Between(r)
    ensures ReadsWell(n, before + Ending(w, n, r), r < n && Crashes(w.host, w.model(r)))
  {
    var c := w.model(r);
    if r == n {
      ReadSnoc(n, before, WrapUp(c, r));
    } else if c.Broke? {
      BrokenReads(n, before, Failure(c.error), Apology(), r + 1);
    } else {
      LastAnswerShape(w.host, c, r + 1);
      AnswersRead(n, before, c.content, LastAnswer(w.host, c, r + 1), r + 1);
    }
  }

  lemma AnswersRead(n: nat, events: seq<Event>, content: string, answers: seq<Event>, k: nat)
    requires 0 < k <= n && ReadAll(n, events) == Between(k - 1)
    requires answers == [] || (|answers| == 1 && answers[0].FinalAnswer? && !answers[0].truncated)
    ensures ReadsWell(n, events + (ThoughtOf(content, k) + answers), answers == [])
  {
    if answers == [] {
      assert ThoughtOf(content, k) + answers == ThoughtOf(content, k);
      AnswerReads(n, events, content, FinalAnswer(Null, Null, None, false), k);
    } else {
      assert answers == [answers[0]];
      AnswerReads(n, events, content, answers[0], k);
    }
  }

  lemma BrokenReads(n: nat, events: seq<Event>, error: Event, answer: Event, k: nat)
    requires 0 < k <= n && ReadAll(n, events) == Between(k - 1)
    requires error.Error? && answer.FinalAnswer? && !answer.truncated
    ensures InGrammar(n, events + [error, answer])
  {
    ReadSnoc(n, events, error);
    ReadSnoc(n, events + [error], answer);
    assert events + [error, answer] == events + [error] + [answer];
  }

  lemma LastAnswerShape(host: Host, c: Completion, iteration: nat)
    requires c.Said? && !Continues(c)
    ensures var answer := LastAnswer(host, c, iteration);
      if Crashes(host, c) then answer == []
      else |answer| == 1 && answer[0].FinalAnswer? && !answer[0].truncated
  {
  }

  lemma AnsweredGrows(before: seq<Message>, content: string, calls: seq<ToolCall>, observation: Json)
    requires Answered(before) && calls != []
    ensures Answered(before + Exchange(content, calls, observation))
  {
    var all := before + Exchange(content, calls, observation);
    forall i | 0 <= i < |all| && all[i].Assistant?
      ensures all[i].calls != [] && i + 1 < |all| && all[i + 1].Tool?
        && all[i + 1].callId == all[i].calls[0].id && all[i + 1].name == all[i].calls[0].name
        && |all[i + 1].content| <= OBSERVATION_LIMIT
    {
      if i < |before| {
        assert all[i] == before[i] && i + 1 < |before| && all[i + 1] == before[i + 1];
      } else {
        assert all[i] == Exchange(content, calls, observation)[i - |before|];
      }
    }
  }

  lemma RoundAnswered(t: Transcript, w: World, j: nat)
    requires Continues(w.model(j)) && AllAnswered(t)
    ensures AnsweredThroughout(AfterRound(t, w, j), |t.prompts| + 1)
  {
    AnsweredGrows(t.messages, w.model(j).content, w.model(j).calls, Observation(w, j));
  }

  ghost predicate AllAnswered(t: Transcript) {
    Answered(t.messages) && forall p :: p in t.prompts ==> Answered(p)
  }

  /** Every prompt is answered throughout, and there were this many. */
  ghost predicate AnsweredThroughout(t: Transcript, prompts: int) {
    AllAnswered(t) && |t.prompts| == prompts
  }

  lemma {:induction false} LoopAnswered(w: World, t: Transcript, n: nat, k: nat, all: Transcript, r: nat)
    requires k <= n && AllAnswered(t) && all == LoopFrom(w, t, n, k) && r == Rounds(w, n, k)
    ensures AnsweredThroughout(all, |t.prompts| + r - k + 1)
    decreases n - k
  {
    if k < n && Continues(w.model(k)) {
      RoundAnswered(t, w, k);
      LoopAnswered(w, AfterRound(t, w, k), n, k + 1, all, r);
    } else {
      FinishAnswered(t, Ending(w, n, k));
    }
  }

  lemma FinishAnswered(t: Transcript, ending: seq<Event>)
    requires AllAnswered(t)
    ensures AnsweredThroughout(Finish(t, ending), |t.prompts| + 1)
  {
  }

  /** Whatever the model and the tools do, it is shown only conversations in which every call is answered, at most n + 1 times. */
  lemma PromptsAnswered(w: World, base: seq<Message>, n: nat)
    requires forall m :: m in base ==> m.Plain?
    ensures var t := Trace(w, base, n);
      |t.prompts| == Rounds(w, n, 0) + 1 <= n + 1 && forall p :: p in t.prompts ==> Answered(p)
  {
    forall i | 0 <= i < |base| ensures base[i].Plain? {
      assert base[i] in base;
    }
    LoopAnswered(w, Transcript([], base, []), n, 0, Trace(w, base, n), Rounds(w, n, 0));
  }

  function Opening(system: string, history: seq<Message>, question: string): (r: seq<Message>)
    ensures forall m :: m in r ==> m.Plain?
  {
    [Plain("system", system)] + Recent(history) + [Plain("user", question)]
  }

  // ----- What the model is shown, in plain terms -----

  /** A turn that a user or the assistant spoke, with text in it. */
  predicate Spoke(m: Message) {
    m.Plain? && (m.role == "user" || m.role == "assistant") && |m.content| > 0
  }

  /** Those of the turns that were spoken, in order. */
  function SpokenOf(turns: seq<Message>): seq<Message> {
    if turns == [] then []
    else
      var last := turns[|turns| - 1];
      SpokenOf(turns[..|turns| - 1]) + if Spoke(last) then [last] else []
  }

  lemma {:induction false} SpokenInFront(first: Message, turns: seq<Message>)
    ensures SpokenOf([first] + turns) == (if Spoke(first) then [first] else []) + SpokenOf(turns)
  {
    var all := [first] + turns;
    if turns == [] {
      assert all[..0] == [];
    } else {
      assert all[..|turns|] == [first] + turns[..|turns| - 1];
      SpokenInFront(first, turns[..|turns| - 1]);
    }
  }

  lemma {:induction false} SpokenAreThose(turns: seq<Message>)
    ensures Spoken(turns) == SpokenOf(turns)
  {
    if turns != [] {
      SpokenAreThose(turns[1..]);
      SpokenInFront(turns[0], turns[1..]);
      assert turns == [turns[0]] + turns[1..];
    }
  }

  /** The last six turns, or all if there are fewer. */
  function LastSix(history: seq<Message>): seq<Message> { if |history| > 6 then history[|history| - 6..] else history }

  /** A prompt: the system message, then the spoken ones of the last six turns, then the question; after that only calls and their answers. */
  ghost predicate PromptFor(p: seq<Message>, system: string, history: seq<Message>, question: string) {
    exists tail: seq<Message> ::
      && p == [Plain("system", system)] + SpokenOf(LastSix(history)) + [Plain("user", question)] + tail
      && forall i :: 0 <= i < |tail| ==> !tail[i].Plain?
  }

  /** The conversation after k tool rounds. */
  function Exchanges(w: World, k: nat): (r: seq<Message>)
    requires forall j: nat :: j < k ==> Continues(w.model(j))
    ensures |r| == 2 * k && forall i :: 0 <= i < |r| ==> !r[i].Plain?
  {
    if k == 0 then []
    else
      assert Continues(w.model(k - 1));
      Exchanges(w, k - 1) + Exchange(w.model(k - 1).content, w.model(k - 1).calls, Observation(w, k - 1))
  }

  lemma {:induction false} RoundsContinue(w: World, n: nat, k: nat, j: nat)
    requires k <= n && k <= j < Rounds(w, n, k)
    ensures Continues(w.model(j))
    decreases n - k
  {
    if k < j {
      RoundsContinue(w, n, k + 1, j);
    }
  }

  /** After k rounds each prompt so far was what came before, and the conversation is ready for the next one. */
  ghost predicate Prompted(t: Transcript, w: World, base: seq<Message>, k: nat) {
    && (forall j: nat :: j < k ==> Continues(w.model(j)))
    && t.messages == base + Exchanges(w, k) && |t.prompts| == k
    && forall i: nat :: i < k ==> t.prompts[i] == base + Exchanges(w, i)
  }

  lemma RoundPrompts(t: Transcript, w: World, base: seq<Message>, k: nat)
    requires Prompted(t, w, base, k) && Continues(w.model(k))
    ensures Prompted(AfterRound(t, w, k), w, base, k + 1)
  {
    Together(base, Exchanges(w, k), Exchange(w.model(k).content, w.model(k).calls, Observation(w, k)));
  }

  lemma Together<T>(a: seq<T>, b: seq<T>, c: seq<T>)
    ensures a + b + c == a + (b + c)
  {
  }

  /** The prompts of a run of r rounds. */
  ghost predicate AllPrompted(all: Transcript, w: World, base: seq<Message>, r: nat) {
    && (forall j: nat :: j < r ==> Continues(w.model(j))) && |all.prompts| == r + 1
    && forall i: nat :: i <= r ==> all.prompts[i] == base + Exchanges(w, i)
  }

  lemma FinishPrompts(t: Transcript, w: World, base: seq<Message>, k: nat, ending: seq<Event>)
    requires Prompted(t, w, base, k)
    ensures AllPrompted(Finish(t, ending), w, base, k)
  {
  }

  lemma {:induction false} LoopPrompts(w: World, t: Transcript, base: seq<Message>, n: nat, k: nat, all: Transcript, r: nat)
    requires k <= n && Prompted(t, w, base, k) && all == LoopFrom(w, t, n, k) && r == Rounds(w, n, k)
    ensures AllPrompted(all, w, base, r)
    decreases n - k
  {
    if k < n && Continues(w.model(k)) {
      RoundPrompts(t, w, base, k);
      LoopPrompts(w, AfterRound(t, w, k), base, n, k + 1, all, r);
    } else {
      FinishPrompts(t, w, base, k, Ending(w, n, k));
    }
  }

  lemma {:induction false} ExchangesAt(w: World, k: nat, j: nat)
    requires (forall i: nat :: i < k ==> Continues(w.model(i))) && j < k
    ensures var c := w.model(j);
      && Exchanges(w, k)[2 * j] == Assistant(c.content, c.calls)
      && Exchanges(w, k)[2 * j + 1] == Tool(c.calls[0].id, c.calls[0].name, Take(SseWire.Dumps(Observation(w, j)), 3500))
  {
    if j < k - 1 {
      ExchangesAt(w, k - 1, j);
    }
  }

  /** From this place on the prompt holds what the model said in round j and the beginning of what its first call was answered. */
  predicate ShowsRound(w: World, j: nat, prompt: seq<Message>, place: nat) {
    var c := w.model(j);
    && c.Said? && c.calls != [] && place + 1 < |prompt|
    && prompt[place] == Assistant(c.content, c.calls)
    && prompt[place + 1] == Tool(c.calls[0].id, c.calls[0].name,
                                 Take(SseWire.Dumps(w.dispatch(j, c.calls[0].name, Arguments(w.host, c.calls[0]))), 3500))
  }

  /**
   The i-th prompt is what the run began with and, for each round before, the model's own message and the answer of its first
   call: under that call's id and name, the beginning of what the tool returned.
   */
  lemma PromptsGrow(w: World, base: seq<Message>, n: nat, i: nat)
    requires i <= Rounds(w, n, 0)
    ensures var t := Trace(w, base, n);
      && |t.prompts| == Rounds(w, n, 0) + 1 && |t.prompts[i]| == |base| + 2 * i && base <= t.prompts[i]
      && forall j: nat :: j < i ==> ShowsRound(w, j, t.prompts[i], |base| + 2 * j)
  {
    var start := Transcript([], base, []);
    assert base + Exchanges(w, 0) == base;
    LoopPrompts(w, start, base, n, 0, Trace(w, base, n), Rounds(w, n, 0));
    var prompt := Trace(w, base, n).prompts[i];
    forall j: nat | j < i ensures ShowsRound(w, j, prompt, |base| + 2 * j) {
      ExchangesAt(w, i, j);
      assert prompt[|base| + 2 * j] == Exchanges(w, i)[2 * j] && prompt[|base| + 2 * j + 1] == Exchanges(w, i)[2 * j + 1];
    }
  }

  /** Every prompt of the agent is one for the question asked. */
  lemma PromptsAsk(w: World, system: string, history: seq<Message>, question: string, n: nat, i: nat)
    requires i <= Rounds(w, n, 0)
    ensures var t := Trace(w, Opening(system, history, question), n);
      i < |t.prompts| && PromptFor(t.prompts[i], system, history, question)
  {
    var base := Opening(system, history, question);
    assert base + Exchanges(w, 0) == base;
    LoopPrompts(w, Transcript([], base, []), base, n, 0, Trace(w, base, n), Rounds(w, n, 0));
    SpokenAreThose(LastSix(history));
    assert Trace(w, base, n).prompts[i] == [Plain("system", system)] + SpokenOf(LastSix(history)) + [Plain("user", question)] + Exchanges(w, i);
  }

  // ----- What the events tell, in plain terms -----

  /** The arguments of a completion's first call as they parse; nothing that parses counts as an empty object. */
  predicate Parses(host: Host, c: Completion, args: Json)
    requires c.Said? && c.calls != []
  {
    var text := c.calls[0].arguments;
    if text != "" && host.parse(text).Some? then host.parse(text) == Some(args) else args == Obj([])
  }

  /** Why an event is among those of a run whose loop takes r rounds out of n. */
  predicate Told(w: World, n: nat, r: nat, e: Event) {
    match e
    case Thought(text, i) =>
      && 1 <= i <= n && i <= r + 1
      && var c := w.model(i - 1); c.Said? && Trim(IsPySpace, c.content) != "" && text == Take(c.content, 600)
    case ToolCalled(name, args, i) =>
      && 1 <= i <= r
      && var c := w.model(i - 1); c.Said? && c.calls != [] && name == c.calls[0].name && Parses(w.host, c, args)
    case ToolResult(name, result, i) =>
      && 1 <= i <= r
      && var c := w.model(i - 1);
         c.Said? && c.calls != [] && name == c.calls[0].name && result == w.dispatch(i - 1, name, Arguments(w.host, c.calls[0]))
    case Error(message) => r < n && w.model(r).Broke? && message == "LLM provider failed: " + w.model(r).error
    case FinalAnswer(answer, citations, round, truncated) =>
      if r == n then
        && truncated && round == Some(n) && citations == Arr([])
        && answer == Str(if w.model(n).Said? && w.model(n).content != "" then w.model(n).content else "（达到最大工具调用次数；这里基于已检索内容给出概述。）")
      else
        && !truncated
        && match w.model(r)
           case Broke(_) => answer == Str("抱歉，模型调用失败。请稍后再试。") && citations == Arr([]) && round.None?
           case Said(content, calls) =>
             && round == Some(r + 1)
             && if calls == [] then answer == Str(if content != "" then content else "（无内容）") && citations == Arr([])
                else
                  var args := Arguments(w.host, calls[0]);
                  && args.Obj?
                  && answer == (if !Falsy(w.host, LastField(args.fields, "answer")) then LastField(args.fields, "answer")
                                else Str(if content != "" then content else "(空)"))
                  && citations == (if !Falsy(w.host, LastField(args.fields, "citations")) then LastField(args.fields, "citations") else Arr([]))
  }

  /** All that the rounds before the k-th yield. */
  function RoundEvents(w: World, k: nat): seq<Event>
    requires forall j: nat :: j < k ==> Continues(w.model(j))
  {
    if k == 0 then []
    else
      assert Continues(w.model(k - 1));
      var c := w.model(k - 1);
      RoundEvents(w, k - 1) + RoundTrace(c.content, c.calls[0].name, Arguments(w.host, c.calls[0]), Observation(w, k - 1), k)
  }

  /** A run of r rounds yields what the rounds and the ending do. */
  ghost predicate EventsAre(events: seq<Event>, w: World, n: nat, r: nat) {
    && r <= n && (r < n ==> !Continues(w.model(r))) && (forall j: nat :: j < r ==> Continues(w.model(j)))
    && events == RoundEvents(w, r) + Ending(w, n, r)
  }

  /** After k rounds these have yielded what they do. */
  ghost predicate Evented(t: Transcript, w: World, k: nat) {
    (forall j: nat :: j < k ==> Continues(w.model(j))) && t.events == RoundEvents(w, k)
  }

  lemma RoundEventsNext(t: Transcript, w: World, k: nat)
    requires Evented(t, w, k) && Continues(w.model(k))
    ensures Evented(AfterRound(t, w, k), w, k + 1)
  {
  }

  lemma FinishEvents(t: Transcript, w: World, n: nat, r: nat)
    requires r <= n && (r < n ==> !Continues(w.model(r))) && Evented(t, w, r)
    ensures EventsAre(Finish(t, Ending(w, n, r)).events, w, n, r)
  {
  }

  lemma {:induction false} LoopEvents(w: World, t: Transcript, n: nat, k: nat, all: Transcript, r: nat)
    requires k <= n && Evented(t, w, k) && all == LoopFrom(w, t, n, k) && r == Rounds(w, n, k)
    ensures EventsAre(all.events, w, n, r)
    decreases n - k
  {
    if k < n && Continues(w.model(k)) {
      RoundEventsNext(t, w, k);
      LoopEvents(w, AfterRound(t, w, k), n, k + 1, all, r);
    } else {
      FinishEvents(t, w, n, k);
    }
  }

  lemma {:induction false} RoundsTell(w: World, n: nat, r: nat, k: nat, e: Event)
    requires k <= r <= n && forall j: nat :: j < r ==> Continues(w.model(j))
    ensures e in RoundEvents(w, k) <==> !e.FinalAnswer? && !e.Error? && e.iteration <= k && Told(w, n, r, e)
  {
    if k > 0 {
      RoundsTell(w, n, r, k - 1, e);
      var c := w.model(k - 1);
      RoundTells(w, n, r, k, e);
    }
  }

  lemma RoundTells(w: World, n: nat, r: nat, k: nat, e: Event)
    requires 0 < k <= r <= n && Continues(w.model(k - 1))
    ensures var c := w.model(k - 1);
      e in RoundTrace(c.content, c.calls[0].name, Arguments(w.host, c.calls[0]), Observation(w, k - 1), k)
      <==> !e.FinalAnswer? && !e.Error? && e.iteration == k && Told(w, n, r, e)
  {
  }

  /** What the end of a run may yield. */
  predicate Closes(n: nat, r: nat, e: Event) {
    e.FinalAnswer? || e.Error? || (e.Thought? && r < n && e.iteration == r + 1)
  }

  lemma WrapUpTells(w: World, n: nat, e: Event)
    ensures e == WrapUp(w.model(n), n) <==> Closes(n, n, e) && Told(w, n, n, e)
  {
  }

  lemma BrokenTells(w: World, n: nat, r: nat, e: Event)
    requires r < n && w.model(r).Broke?
    ensures e == Failure(w.model(r).error) || e == Apology() <==> Closes(n, r, e) && Told(w, n, r, e)
  {
  }

  lemma AnswerTells(w: World, n: nat, r: nat, e: Event)
    requires r < n && !Continues(w.model(r)) && w.model(r).Said?
    ensures e in LastAnswer(w.host, w.model(r), r + 1) <==> e.FinalAnswer? && Told(w, n, r, e)
  {
  }

  lemma EndingTells(w: World, n: nat, r: nat, e: Event)
    requires r <= n && (r < n ==> !Continues(w.model(r)))
    ensures e in Ending(w, n, r) <==> Closes(n, r, e) && Told(w, n, r, e)
  {
    if r == n {
      WrapUpTells(w, n, e);
    } else if w.model(r).Broke? {
      BrokenTells(w, n, r, e);
    } else {
      AnswerTells(w, n, r, e);
    }
  }

  /**
   The events of a run are exactly those for which there is reason: in each round its thought if the model said something,
   its first call with the parsed arguments and what dispatching it returned, and in the end an answer, or an error and an
   apology. Their order is that of the grammar.
   */
  lemma EventsTell(w: World, base: seq<Message>, n: nat, e: Event)
    ensures e in Trace(w, base, n).events <==> Told(w, n, Rounds(w, n, 0), e)
  {
    var r := Rounds(w, n, 0);
    LoopEvents(w, Transcript([], base, []), n, 0, Trace(w, base, n), r);
    RoundsTell(w, n, r, r, e);
    EndingTells(w, n, r, e);
  }

  /**
   Dispatching is total. A name that is none of the five tools gives an error object that repeats it. A tool is given the
   arguments, or an empty object where they say nothing; what it returns is passed on, and what it throws, or arguments that
   are no object, becomes an error object with the tool's name and at most 300 characters of the message.
   */
  lemma DispatchTells(host: Host, name: string, args: Json, run: Json -> ToolOutcome)
    ensures var r := Dispatch(host, name, args, run);
      var given := if Falsy(host, args) then Obj([]) else args;
      if name !in {"kb_search", "read_document", "global_search", "create_card", "run_skill"}
      then r.Obj? && LastField(r.fields, "error") == Str("unknown_tool") && LastField(r.fields, "name") == Str(name)
      else if given.Obj? && run(given).Returned? then r == run(given).value
      else r.Obj? && LastField(r.fields, "error") == Str("tool_exception") && LastField(r.fields, "tool") == Str(name)
           && LastField(r.fields, "message").Str? && |LastField(r.fields, "message").s| <= 300
           && (given.Obj? ==> LastField(r.fields, "message").s == Take(run(given).error, 300))
  {
    var r := Dispatch(host, name, args, run);
    if r.Obj? && |r.fields| == 3 {
      var f := r.fields;
      ThreeFields(f[0], f[1], f[2], "error");
      ThreeFields(f[0], f[1], f[2], "tool");
      ThreeFields(f[0], f[1], f[2], "message");
      assert f == [f[0], f[1], f[2]];
    }
    ThreeFields(Field("error", Str("unknown_tool")), Field("name", Str(name)), Field("", Null), "error");
    TwoFields(Field("error", Str("unknown_tool")), Field("name", Str(name)), "error");
    TwoFields(Field("error", Str("unknown_tool")), Field("name", Str(name)), "name");
  }

  lemma TwoFields(f: Field, g: Field, name: string)
    ensures LastField([f, g], name) == if g.name == name then g.value else if f.name == name then f.value else Null
  {
    LastFieldSnoc([], f, name);
    LastFieldSnoc([f], g, name);
    assert [f, g] == [f] + [g] && [f] == [] + [f];
  }

  lemma ThreeFields(f: Field, g: Field, h: Field, name: string)
    ensures LastField([f, g, h], name) == if h.name == name then h.value else if g.name == name then g.value else if f.name == name then f.value else Null
  {
    TwoFields(f, g, name);
    LastFieldSnoc([f, g], h, name);
    assert [f, g, h] == [f, g] + [h];
  }

  /** A round that calls a tool. */
  method CallTool(t: Transcript, w: World, round: nat) returns (t': Transcript)
    requires Continues(w.model(round))
    ensures t' == AfterRound(t, w, round)
  {
    var content, calls := w.model(round).content, w.model(round).calls;
    var events := t.events;
    if Trim(IsPySpace, content) != "" {
      events := events + [Thought(Take(content, THOUGHT_LIMIT), round + 1)];
    }
    var messages := t.messages + [Assistant(content, calls)];
    var call := calls[0];
    events := events + [ToolCalled(call.name, Arguments(w.host, call), round + 1)];
    var observation := Observation(w, round);
    events := events + [ToolResult(call.name, observation, round + 1)];
    messages := messages + [Tool(call.id, call.name, Take(SseWire.Dumps(observation), OBSERVATION_LIMIT))];
    t' := Transcript(events, messages, t.prompts + [t.messages]);
    assert events == t.events + RoundTrace(content, call.name, Arguments(w.host, call), observation, round + 1);
    assert messages == t.messages + Exchange(content, calls, observation);
  }

  /** A round that ends the loop: by a failure, a plain answer or an answer given as a tool call. */
  method Conclude(host: Host, c: Completion, iteration: nat) returns (events: seq<Event>, crashed: bool)
    requires !Continues(c)
    ensures events == LastRound(host, c, iteration)
    ensures crashed <==> Crashes(host, c)
  {
    crashed := false;
    if c.Broke? {
      return [Failure(c.error), Apology()], false;
    }
    events := [];
    if Trim(IsPySpace, c.content) != "" {
      events := events + [Thought(Take(c.content, THOUGHT_LIMIT), iteration)];
    }
    if c.calls == [] {
      events := events + [PlainAnswer(c.content, iteration)];
      return;
    }
    var args := Arguments(host, c.calls[0]);
    if args.Obj? {
      events := events + [ToolAnswer(host, c.content, args.fields, iteration)];
    } else {
      crashed := true;
    }
  }

  /** The loop; `crashed` says that an exception escaped. */
  method RunLoop(w: World, start: Transcript, n: nat) returns (t: Transcript, crashed: bool)
    ensures t == LoopFrom(w, start, n, 0)
    ensures crashed <==> EndsInCrash(w, n, 0)
  {
    t := start;
    var iteration: nat := 0;
    while iteration < n
      invariant iteration <= n && Rounds(w, n, 0) == Rounds(w, n, iteration)
      invariant LoopFrom(w, start, n, 0) == LoopFrom(w, t, n, iteration)
    {
      var result := w.model(iteration);
      if !Continues(result) {
        var last;
        last, crashed := Conclude(w.host, result, iteration + 1);
        t := Finish(t, last);
        return;
      }
      t := CallTool(t, w, iteration);
      iteration := iteration + 1;
    }
    crashed := false;
    t := Finish(t, [WrapUp(w.model(iteration), iteration)]);
  }

  /** The agent: without a model one event says so; with one, what the loop yields. */
  method RunReactAgent(
      llmEnabled: bool, offlinePlaceholder: bool, system: string, history: seq<Message>, question: string, maxIterations: int,
      host: Host, model: nat -> Completion, run: (nat, string, Json) -> ToolOutcome)
    returns (events: seq<Event>, prompts: seq<seq<Message>>, crashed: bool)
    ensures var n := if maxIterations < 0 then 0 else maxIterations;
      var w := WorldOf(host, model, run);
      var r, t := Rounds(w, n, 0), Trace(w, Opening(system, history, question), n);
      llmEnabled ==>
        && events == t.events && prompts == t.prompts
        && (crashed <==> EndsInCrash(w, n, 0)) && ReadsWell(n, events, crashed)
        && |prompts| == r + 1 <= n + 1 && (forall p :: p in prompts ==> Answered(p) && PromptFor(p, system, history, question))
    ensures !llmEnabled ==> !crashed && prompts == [] && |events| == 1 && (if offlinePlaceholder then events[0].FinalAnswer? else events[0].Error?)
  {
    if !llmEnabled {
      var only := if offlinePlaceholder then FinalAnswer(Str("（离线占位模式）"), Arr([]), None, false) else Error("真实 LLM 未启用");
      return [only], [], false;
    }
    ghost var n: nat := if maxIterations < 0 then 0 else maxIterations;
    var base := Opening(system, history, question);
    var w := WorldOf(host, model, run);
    var t;
    t, crashed := RunLoop(w, Transcript([], base, []), if maxIterations < 0 then 0 else maxIterations);
    events, prompts := t.events, t.prompts;
    TraceInGrammar(w, base, n);
    PromptsAnswered(w, base, n);
    forall p | p in prompts ensures PromptFor(p, system, history, question) {
      var i :| 0 <= i < |prompts| && prompts[i] == p;
      PromptsAsk(w, system, history, question, n, i);
    }
  }
}
