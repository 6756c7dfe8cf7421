/**
 Conversations, messages and jobs under post, stream start, stream finalisation, the two ways to cancel, regenerate and
 the deletion of conversations, in any order.
 Rows are numbered in the order of their creation.
 */
module ChatLifecycle {
  import opened Wrappers
  import opened Text

  datatype Role = User | Assistant

  datatype Status = Pending | Running | Completed | Failed | Canceled

  datatype JobStatus = Queued | JobRunning | JobCompleted | JobFailed | JobCanceled

  datatype Message = Message(conversation: nat, user: nat, role: Role, status: Status, parent: Option<nat>, job: Option<nat>)

  datatype Job = Job(user: nat, status: JobStatus)

  /** `preview` is the beginning of the text written last; `writes` counts the requests that wrote the row. */
  datatype Conversation = Conversation(user: nat, messageCount: int, deleted: bool, preview: string, writes: nat)

  /** A started stream that has not written its outcome yet. */
  datatype Stream = Stream(message: nat, job: nat, open: bool)

  datatype State = State(conversations: seq<Conversation>, messages: seq<Message>, jobs: seq<Job>, streams: seq<Stream>)

  /**
   What a request asks for; `user` is who sends it, `enabled` says whether the model it names is,
   `fails` what the model call turns out to do and `text` the reply it leads to.
   */
  datatype Op =
    | Open(user: nat)
    | Post(user: nat, conversation: nat, enabled: bool, fails: bool, text: string)
    | StartStream(user: nat, conversation: nat, enabled: bool)
    | Finalise(stream: nat, fails: bool, text: string)
    | Cancel(user: nat, message: nat)
    | CancelJob(user: nat, job: nat)
    | Regenerate(user: nat, message: nat, fails: bool, text: string)
    | Delete(user: nat, conversation: nat)

  datatype Answer = Done | NotFound | BadRequest

  function Outcome(fails: bool): Status { if fails then Failed else Completed }

  function JobOutcome(fails: bool): JobStatus { if fails then JobFailed else JobCompleted }

  predicate BelongsTo(s: State, user: nat, conversation: nat) {
    conversation < |s.conversations| && s.conversations[conversation].user == user
  }

  /** The user's conversation, not deleted: others are not found. */
  predicate Owns(s: State, user: nat, conversation: nat) {
    BelongsTo(s, user, conversation) && !s.conversations[conversation].deleted
  }

  predicate OwnsMessage(s: State, user: nat, message: nat) {
    message < |s.messages| && s.messages[message].user == user
  }

  const PREVIEW_LIMIT := 120

  /** Writes a conversation's row: `more` messages, and the preview of a text if there is one to show. */
  function Count(s: State, conversation: nat, more: int, text: Option<string>): State
    requires conversation < |s.conversations|
  {
    var c := s.conversations[conversation];
    var written := c.(
      messageCount := c.messageCount + more,
      preview := if text.Some? then Take(text.value, PREVIEW_LIMIT) else c.preview,
      writes := c.writes + 1);
    s.(conversations := s.conversations[conversation := written])
  }

  /** A user message, a job, and the assistant's reply linked to both. */
  function AddExchange(s: State, user: nat, conversation: nat, status: Status, jobStatus: JobStatus): State {
    var asked := |s.messages|;
    var job := |s.jobs|;
    s.(messages := s.messages + [
         Message(conversation, user, User, Completed, None, None),
         Message(conversation, user, Assistant, status, Some(asked), Some(job))],
       jobs := s.jobs + [Job(user, jobStatus)])
  }

  /** One more reply to a prompt, with a job of its own. */
  function AddReply(s: State, user: nat, conversation: nat, asked: nat, fails: bool): State {
    s.(messages := s.messages + [Message(conversation, user, Assistant, Outcome(fails), Some(asked), Some(|s.jobs|))],
       jobs := s.jobs + [Job(user, JobOutcome(fails))])
  }

  /** The latest user message of the conversation at or before row `upTo`. */
  function Prompt(s: State, user: nat, conversation: nat, upTo: nat): Option<nat>
    requires upTo <= |s.messages|
  {
    if upTo == 0 then None
    else
      var m := s.messages[upTo - 1];
      if m.conversation == conversation && m.user == user && m.role.User? then Some(upTo - 1)
      else Prompt(s, user, conversation, upTo - 1)
  }

  predicate Cancellable(status: Status) { status.Pending? || status.Running? }

  predicate JobCancellable(status: JobStatus) { status.Queued? || status.JobRunning? }

  function SetMessage(s: State, i: nat, status: Status): State
    requires i < |s.messages|
  {
    s.(messages := s.messages[i := s.messages[i].(status := status)])
  }

  function SetJob(s: State, i: nat, status: JobStatus): State
    requires i < |s.jobs|
  {
    s.(jobs := s.jobs[i := s.jobs[i].(status := status)])
  }

  /** The message's job, if it has one that belongs to the user. */
  function JobOf(s: State, user: nat, message: nat): Option<nat>
    requires message < |s.messages|
  {
    match s.messages[message].job
    case None => None
    case Some(j) => if j < |s.jobs| && s.jobs[j].user == user then Some(j) else None
  }

  function CancelBoth(s: State, user: nat, message: nat): State
    requires message < |s.messages|
  {
    var s1 := if Cancellable(s.messages[message].status) then SetMessage(s, message, Canceled) else s;
    var job := JobOf(s, user, message);
    if job.Some? && JobCancellable(s.jobs[job.value].status) then SetJob(s1, job.value, JobCanceled) else s1
  }

  /** Finalisation writes both rows, whatever they hold by then. */
  function FinaliseBoth(s: State, stream: nat, fails: bool): State
    requires stream < |s.streams|
  {
    var t := s.streams[stream];
    var s1 := if t.message < |s.messages| then SetMessage(s, t.message, Outcome(fails)) else s;
    var s2 := if t.job < |s1.jobs| then SetJob(s1, t.job, JobOutcome(fails)) else s1;
    s2.(streams := s2.streams[stream := t.(open := false)])
  }

  /** It also writes the conversation's row, deleted or not. */
  function FinaliseAll(s: State, stream: nat, fails: bool, text: string): State
    requires stream < |s.streams|
  {
    var s1 := FinaliseBoth(s, stream, fails);
    var message := s.streams[stream].message;
    if message < |s.messages| && s.messages[message].conversation < |s.conversations|
    then Count(s1, s.messages[message].conversation, 0, Some(text)) else s1
  }

  function MarkDeleted(s: State, conversation: nat): State
    requires conversation < |s.conversations|
  {
    var c := s.conversations[conversation];
    s.(conversations := s.conversations[conversation := c.(deleted := true, writes := c.writes + 1)])
  }

  function Step(s: State, op: Op): (State, Answer) {
    match op
    case Open(user) => (s.(conversations := s.conversations + [Conversation(user, 0, false, "", 0)]), Done)
    case Post(user, conversation, enabled, fails, text) =>
      if !Owns(s, user, conversation) then (s, NotFound)
      else if !enabled then (s, BadRequest)
      else (Count(AddExchange(s, user, conversation, Outcome(fails), JobOutcome(fails)), conversation, 2, Some(text)), Done)
    case StartStream(user, conversation, enabled) =>
      if !Owns(s, user, conversation) then (s, NotFound)
      else if !enabled then (s, BadRequest)
      else
        var s1 := Count(AddExchange(s, user, conversation, Running, JobRunning), conversation, 2, None);
        (s1.(streams := s1.streams + [Stream(|s.messages| + 1, |s.jobs|, true)]), Done)
    case Finalise(stream, fails, text) =>
      if stream < |s.streams| && s.streams[stream].open then (FinaliseAll(s, stream, fails, text), Done) else (s, NotFound)
    case Cancel(user, message) =>
      if !OwnsMessage(s, user, message) then (s, NotFound)
      else if s.messages[message].role.User? then (s, BadRequest)
      else (CancelBoth(s, user, message), Done)
    case CancelJob(user, job) =>
      if !(job < |s.jobs| && s.jobs[job].user == user) then (s, NotFound)
      else if s.jobs[job].status.JobCompleted? || s.jobs[job].status.JobFailed? then (s, BadRequest)
      else (SetJob(s, job, JobCanceled), Done)
    case Delete(user, conversation) =>
      if !Owns(s, user, conversation) then (s, NotFound)
      else (MarkDeleted(s, conversation), Done)
    case Regenerate(user, message, fails, text) =>
      if !OwnsMessage(s, user, message) then (s, NotFound)
      else if s.messages[message].role.User? then (s, BadRequest)
      else
        var target := s.messages[message];
        if !Owns(s, user, target.conversation) then (s, NotFound)
        else
          match Prompt(s, user, target.conversation, message + 1)
          case None => (s, BadRequest)
          case Some(asked) =>
            (Count(AddReply(s, user, target.conversation, asked, fails), target.conversation, 1, Some(text)), Done)
  }

  function Run(ops: seq<Op>): State {
    if ops == [] then State([], [], [], []) else Step(Run(ops[..|ops| - 1]), ops[|ops| - 1]).0
  }

  // ----- Invariants -----

  predicate Match(m: Status, j: JobStatus) {
    match m
    case Pending => j.Queued?
    case Running => j.JobRunning?
    case Completed => j.JobCompleted?
    case Failed => j.JobFailed?
    case Canceled => j.JobCanceled?
  }

  /** A reply and its job have come apart: the job was canceled alone while the reply was being made. */
  predicate CameApart(m: Status, j: JobStatus) { Cancellable(m) && j.JobCanceled? }

  /** A question is completed and has no job; a reply has its own, of the same user and with a matching status or come apart, and follows a question of its conversation. */
  predicate ReplyOk(s: State, i: nat)
    requires i < |s.messages|
  {
    var m := s.messages[i];
    if m.role.User? then m.job.None? && m.status.Completed?
    else
      && m.job.Some? && m.job.value < |s.jobs|
      && s.jobs[m.job.value].user == m.user
      && (Match(m.status, s.jobs[m.job.value].status) || CameApart(m.status, s.jobs[m.job.value].status))
      && m.parent.Some? && m.parent.value < i
      && var p := s.messages[m.parent.value]; p.role.User? && p.conversation == m.conversation && p.user == m.user
  }

  ghost predicate RepliesOk(s: State) {
    forall i: nat :: i < |s.messages| ==> ReplyOk(s, i)
  }

  ghost predicate JobsDistinct(s: State) {
    forall i, j :: 0 <= i < j < |s.messages| && s.messages[i].job.Some? ==> s.messages[i].job != s.messages[j].job
  }

  /** A stream's two rows belong together. */
  ghost predicate StreamsOk(s: State) {
    forall k :: 0 <= k < |s.streams| ==>
      && s.streams[k].message < |s.messages|
      && s.messages[s.streams[k].message].role.Assistant?
      && s.messages[s.streams[k].message].job == Some(s.streams[k].job)
  }

  ghost predicate OwnersOk(s: State) {
    forall i :: 0 <= i < |s.messages| ==> BelongsTo(s, s.messages[i].user, s.messages[i].conversation)
  }

  /** How many of the first n rows belong to a conversation. */
  function Stored(messages: seq<Message>, conversation: nat, n: nat): nat
    requires n <= |messages|
  {
    if n == 0 then 0
    else Stored(messages, conversation, n - 1) + if messages[n - 1].conversation == conversation then 1 else 0
  }

  ghost predicate CountsOk(s: State) {
    forall c: nat :: c < |s.conversations| ==> s.conversations[c].messageCount == Stored(s.messages, c, |s.messages|)
  }

  ghost predicate Inv(s: State) {
    RepliesOk(s) && JobsDistinct(s) && StreamsOk(s) && OwnersOk(s) && CountsOk(s)
  }

  lemma {:induction false} StoredPrefix(a: seq<Message>, b: seq<Message>, conversation: nat, n: nat)
    requires n <= |a| && n <= |b| && forall i :: 0 <= i < n ==> a[i].conversation == b[i].conversation
    ensures Stored(a, conversation, n) == Stored(b, conversation, n)
  {
    if n > 0 {
      StoredPrefix(a, b, conversation, n - 1);
    }
  }

  lemma {:induction false} PromptFacts(s: State, user: nat, conversation: nat, upTo: nat, known: nat)
    requires upTo <= |s.messages| && known < upTo
    requires s.messages[known].conversation == conversation && s.messages[known].user == user && s.messages[known].role.User?
    ensures var p := Prompt(s, user, conversation, upTo);
      && p.Some? && known <= p.value < upTo
      && s.messages[p.value].conversation == conversation && s.messages[p.value].user == user && s.messages[p.value].role.User?
  {
    if known < upTo - 1 {
      var m := s.messages[upTo - 1];
      if !(m.conversation == conversation && m.user == user && m.role.User?) {
        PromptFacts(s, user, conversation, upTo - 1, known);
      }
    }
  }

  /** An exchange keeps everything in order, provided its two statuses match. */
  lemma AddExchangeKeeps(s: State, user: nat, conversation: nat, status: Status, jobStatus: JobStatus, text: Option<string>)
    requires Inv(s) && Owns(s, user, conversation) && Match(status, jobStatus)
    ensures Inv(Count(AddExchange(s, user, conversation, status, jobStatus), conversation, 2, text))
  {
    var s' := Count(AddExchange(s, user, conversation, status, jobStatus), conversation, 2, text);
    var n := |s.messages|;
    forall i: nat | i < |s'.messages| ensures ReplyOk(s', i) {
      if i < n {
        assert s'.messages[i] == s.messages[i];
        assert ReplyOk(s, i);
      }
    }
    forall c: nat | c < |s'.conversations| ensures s'.conversations[c].messageCount == Stored(s'.messages, c, n + 2) {
      StoredPrefix(s.messages, s'.messages, c, n);
      assert Stored(s'.messages, c, n + 2) == Stored(s'.messages, c, n + 1) + if s'.messages[n + 1].conversation == c then 1 else 0;
    }
    forall i, j | 0 <= i < j < |s'.messages| && s'.messages[i].job.Some? ensures s'.messages[i].job != s'.messages[j].job {
      if i < n {
        assert ReplyOk(s, i);
      }
    }
  }

  /** Setting a reply and its job to matching statuses keeps everything in order: no other message shares the job. */
  lemma SetBothKeeps(s: State, i: nat, status: Status, jobStatus: JobStatus)
    requires Inv(s) && i < |s.messages| && s.messages[i].role.Assistant? && Match(status, jobStatus)
    ensures ReplyOk(s, i)
    ensures Inv(SetJob(SetMessage(s, i, status), s.messages[i].job.value, jobStatus))
  {
    assert ReplyOk(s, i);
    var job := s.messages[i].job.value;
    var s' := SetJob(SetMessage(s, i, status), job, jobStatus);
    forall k: nat | k < |s'.messages| ensures ReplyOk(s', k) {
      assert ReplyOk(s, k);
      if k != i && s.messages[k].role.Assistant? {
        assert s.messages[k].job != s.messages[i].job;
      }
    }
    forall c: nat | c < |s'.conversations| ensures s'.conversations[c].messageCount == Stored(s'.messages, c, |s'.messages|) {
      StoredPrefix(s.messages, s'.messages, c, |s.messages|);
    }
    forall k | 0 <= k < |s'.messages| ensures BelongsTo(s', s'.messages[k].user, s'.messages[k].conversation) {
      assert BelongsTo(s, s.messages[k].user, s.messages[k].conversation);
    }
  }

  lemma CancelKeeps(s: State, user: nat, message: nat)
    requires Inv(s) && OwnsMessage(s, user, message) && s.messages[message].role.Assistant?
    ensures Inv(CancelBoth(s, user, message))
    ensures CancelBoth(s, user, message).messages[message].status == if Cancellable(s.messages[message].status) then Canceled else s.messages[message].status
  {
    assert ReplyOk(s, message);
    SetBothKeeps(s, message, Canceled, JobCanceled);
    var job := s.messages[message].job.value;
    if s.jobs[job].status.JobCanceled? {
      assert SetJob(s, job, JobCanceled) == s;
    }
  }

  lemma FinaliseKeeps(s: State, stream: nat, fails: bool)
    requires Inv(s) && stream < |s.streams|
    ensures Inv(FinaliseBoth(s, stream, fails))
    ensures FinaliseBoth(s, stream, fails).messages[s.streams[stream].message].status == Outcome(fails)
  {
    var t := s.streams[stream];
    SetBothKeeps(s, t.message, Outcome(fails), JobOutcome(fails));
    var s2 := SetJob(SetMessage(s, t.message, Outcome(fails)), t.job, JobOutcome(fails));
    var s3 := s2.(streams := s2.streams[stream := t.(open := false)]);
    assert FinaliseBoth(s, stream, fails) == s3;
    forall k: nat | k < |s3.messages| ensures ReplyOk(s3, k) {
      assert ReplyOk(s2, k);
    }
    forall k | 0 <= k < |s3.messages| ensures BelongsTo(s3, s3.messages[k].user, s3.messages[k].conversation) {
      assert BelongsTo(s2, s2.messages[k].user, s2.messages[k].conversation);
    }
  }

  /** Writing a conversation's preview keeps everything in order. */
  lemma PreviewKeeps(s: State, conversation: nat, text: string)
    requires Inv(s) && conversation < |s.conversations|
    ensures Inv(Count(s, conversation, 0, Some(text)))
  {
    var s' := Count(s, conversation, 0, Some(text));
    forall k: nat | k < |s'.messages| ensures ReplyOk(s', k) {
      assert ReplyOk(s, k);
    }
    forall k | 0 <= k < |s'.messages| ensures BelongsTo(s', s'.messages[k].user, s'.messages[k].conversation) {
      assert BelongsTo(s, s.messages[k].user, s.messages[k].conversation);
    }
  }

  lemma FinaliseAllKeeps(s: State, stream: nat, fails: bool, text: string)
    requires Inv(s) && stream < |s.streams|
    ensures Inv(FinaliseAll(s, stream, fails, text))
  {
    FinaliseKeeps(s, stream, fails);
    var message := s.streams[stream].message;
    if s.messages[message].conversation < |s.conversations| {
      PreviewKeeps(FinaliseBoth(s, stream, fails), s.messages[message].conversation, text);
    }
  }

  lemma RegenerateKeeps(s: State, user: nat, message: nat, fails: bool, text: string)
    requires Inv(s) && OwnsMessage(s, user, message) && s.messages[message].role.Assistant?
    requires Owns(s, user, s.messages[message].conversation)
    ensures Inv(Step(s, Regenerate(user, message, fails, text)).0)
    ensures Step(s, Regenerate(user, message, fails, text)).1.Done?
  {
    var target := s.messages[message];
    assert ReplyOk(s, message);
    PromptFacts(s, user, target.conversation, message + 1, target.parent.value);
    var asked := Prompt(s, user, target.conversation, message + 1).value;
    AddReplyKeeps(s, user, target.conversation, asked, fails, text);
  }

  lemma AddReplyKeeps(s: State, user: nat, conversation: nat, asked: nat, fails: bool, text: string)
    requires Inv(s) && Owns(s, user, conversation) && asked < |s.messages|
    requires var p := s.messages[asked]; p.role.User? && p.conversation == conversation && p.user == user
    ensures Inv(Count(AddReply(s, user, conversation, asked, fails), conversation, 1, Some(text)))
  {
    var s' := Count(AddReply(s, user, conversation, asked, fails), conversation, 1, Some(text));
    var n := |s.messages|;
    forall i: nat | i < |s'.messages| ensures ReplyOk(s', i) {
      if i < n {
        assert s'.messages[i] == s.messages[i];
        assert ReplyOk(s, i);
      }
    }
    forall c: nat | c < |s'.conversations| ensures s'.conversations[c].messageCount == Stored(s'.messages, c, n + 1) {
      StoredPrefix(s.messages, s'.messages, c, n);
    }
    forall i, j | 0 <= i < j < |s'.messages| && s'.messages[i].job.Some? ensures s'.messages[i].job != s'.messages[j].job {
      if i < n {
        assert ReplyOk(s, i);
      }
    }
    forall k | 0 <= k < |s'.messages| ensures BelongsTo(s', s'.messages[k].user, s'.messages[k].conversation) {
      if k < n {
        assert BelongsTo(s, s.messages[k].user, s.messages[k].conversation);
      }
    }
  }

  lemma OpenKeeps(s: State, user: nat)
    requires Inv(s)
    ensures Inv(Step(s, Open(user)).0)
  {
    var s' := Step(s, Open(user)).0;
    var c := |s.conversations|;
    NobodyHome(s, c, |s.messages|);
    forall i: nat | i < |s'.messages| ensures ReplyOk(s', i) {
      assert ReplyOk(s, i);
    }
    forall k | 0 <= k < |s'.messages| ensures BelongsTo(s', s'.messages[k].user, s'.messages[k].conversation) {
      assert BelongsTo(s, s.messages[k].user, s.messages[k].conversation);
    }
  }

  lemma {:induction false} NobodyHome(s: State, c: nat, n: nat)
    requires OwnersOk(s) && n <= |s.messages| && c >= |s.conversations|
    ensures Stored(s.messages, c, n) == 0
  {
    if n > 0 {
      NobodyHome(s, c, n - 1);
      assert BelongsTo(s, s.messages[n - 1].user, s.messages[n - 1].conversation);
    }
  }

  lemma StartKeeps(s: State, user: nat, conversation: nat)
    requires Inv(s) && Owns(s, user, conversation)
    ensures Inv(Step(s, StartStream(user, conversation, true)).0)
  {
    AddExchangeKeeps(s, user, conversation, Running, JobRunning, None);
    var s1 := Count(AddExchange(s, user, conversation, Running, JobRunning), conversation, 2, None);
    var s' := Step(s, StartStream(user, conversation, true)).0;
    forall i: nat | i < |s'.messages| ensures ReplyOk(s', i) {
      assert ReplyOk(s1, i);
    }
    forall k | 0 <= k < |s'.messages| ensures BelongsTo(s', s'.messages[k].user, s'.messages[k].conversation) {
      assert BelongsTo(s1, s1.messages[k].user, s1.messages[k].conversation);
    }
  }

  lemma CancelJobKeeps(s: State, user: nat, job: nat)
    requires Inv(s) && Step(s, CancelJob(user, job)).1.Done?
    ensures Inv(Step(s, CancelJob(user, job)).0)
  {
    var s' := Step(s, CancelJob(user, job)).0;
    forall i: nat | i < |s'.messages| ensures ReplyOk(s', i) {
      assert ReplyOk(s, i);
    }
    forall k | 0 <= k < |s'.messages| ensures BelongsTo(s', s'.messages[k].user, s'.messages[k].conversation) {
      assert BelongsTo(s, s.messages[k].user, s.messages[k].conversation);
    }
  }

  lemma DeleteKeeps(s: State, user: nat, conversation: nat)
    requires Inv(s) && Owns(s, user, conversation)
    ensures Inv(Step(s, Delete(user, conversation)).0)
  {
    var s' := Step(s, Delete(user, conversation)).0;
    forall i: nat | i < |s'.messages| ensures ReplyOk(s', i) {
      assert ReplyOk(s, i);
    }
    forall k | 0 <= k < |s'.messages| ensures BelongsTo(s', s'.messages[k].user, s'.messages[k].conversation) {
      assert BelongsTo(s, s.messages[k].user, s.messages[k].conversation);
    }
  }

  lemma StepKeepsInv(s: State, op: Op)
    requires Inv(s)
    ensures Inv(Step(s, op).0)
  {
    if Step(s, op).1.Done? {
      match op
      case Open(user) => OpenKeeps(s, user);
      case Post(user, conversation, _, fails, text) => AddExchangeKeeps(s, user, conversation, Outcome(fails), JobOutcome(fails), Some(text));
      case StartStream(user, conversation, _) => StartKeeps(s, user, conversation);
      case Finalise(stream, fails, text) => FinaliseAllKeeps(s, stream, fails, text);
      case Cancel(user, message) => CancelKeeps(s, user, message);
      case CancelJob(user, job) => CancelJobKeeps(s, user, job);
      case Delete(user, conversation) => DeleteKeeps(s, user, conversation);
      case Regenerate(user, message, fails, text) => RegenerateKeeps(s, user, message, fails, text);
    }
  }

  lemma {:induction false} RunKeepsInv(ops: seq<Op>)
    ensures Inv(Run(ops))
  {
    if ops != [] {
      RunKeepsInv(ops[..|ops| - 1]);
      StepKeepsInv(Run(ops[..|ops| - 1]), ops[|ops| - 1]);
    }
  }

  // ----- What follows for every run -----

  /** The counter on a conversation is the number of its stored messages. */
  lemma CountIsExact(ops: seq<Op>, c: nat)
    requires c < |Run(ops).conversations|
    ensures Run(ops).conversations[c].messageCount == Stored(Run(ops).messages, c, |Run(ops).messages|)
  {
    RunKeepsInv(ops);
  }

  /** A reply can be regenerated exactly as long as its conversation is not deleted: the prompt it looks for exists. */
  lemma RegenerateFindsPrompt(ops: seq<Op>, user: nat, message: nat, fails: bool, text: string)
    requires OwnsMessage(Run(ops), user, message)
    ensures var s := Run(ops); var m := s.messages[message];
      && m.conversation < |s.conversations|
      && Step(s, Regenerate(user, message, fails, text)).1 ==
           if m.role.User? then BadRequest else if s.conversations[m.conversation].deleted then NotFound else Done
  {
    RunKeepsInv(ops);
    var s := Run(ops);
    var m := s.messages[message];
    assert BelongsTo(s, m.user, m.conversation);
    if m.role.Assistant? && !s.conversations[m.conversation].deleted {
      RegenerateKeeps(s, user, message, fails, text);
    }
  }

  /** Nothing but the i-th message and its job is touched. */
  ghost predicate OnlyRowsOf(s: State, s': State, i: nat)
    requires i < |s.messages|
  {
    && |s'.messages| == |s.messages| && |s'.jobs| == |s.jobs|
    && s'.conversations == s.conversations && s'.streams == s.streams
    && (forall k :: 0 <= k < |s.messages| && k != i ==> s'.messages[k] == s.messages[k])
    && (forall k :: 0 <= k < |s.jobs| && Some(k) != s.messages[i].job ==> s'.jobs[k] == s.jobs[k])
  }

  /** Cancelling a reply that is still being made cancels it and its job, and nothing else; any other reply it leaves alone. Twice is once. */
  lemma CancelEffect(ops: seq<Op>, user: nat, i: nat)
    requires OwnsMessage(Run(ops), user, i) && Run(ops).messages[i].role.Assistant?
    ensures var s := Run(ops); var s' := Step(s, Cancel(user, i)).0;
      && (if Cancellable(s.messages[i].status)
          then OnlyRowsOf(s, s', i) && s'.messages[i] == s.messages[i].(status := Canceled)
               && s'.messages[i].job.Some? && s'.messages[i].job.value < |s'.jobs| && s'.jobs[s'.messages[i].job.value].status.JobCanceled?
          else s' == s)
      && Step(s', Cancel(user, i)).0 == s'
  {
    RunKeepsInv(ops);
    assert ReplyOk(Run(ops), i);
  }

  /** The request writes the outcome of the stream that makes reply i. */
  predicate Finalises(s: State, op: Op, i: nat) {
    op.Finalise? && op.stream < |s.streams| && s.streams[op.stream].open && s.streams[op.stream].message == i
  }

  predicate FinalisesReply(ops: seq<Op>, n: nat, i: nat)
    requires n < |ops|
  {
    Finalises(Run(ops[..n]), ops[n], i)
  }

  ghost predicate Unfinalised(ops: seq<Op>, m: nat, n: nat, i: nat)
    requires n <= |ops|
  {
    forall k: nat :: m <= k < n ==> !FinalisesReply(ops, k, i)
  }

  // ----- Replies and their jobs -----

  /** The request cancels the job of reply i, and the job alone, while the reply is being made. */
  predicate Severs(s: State, op: Op, i: nat) {
    op.CancelJob? && OwnsMessage(s, op.user, i) && s.messages[i].job == Some(op.job) && Cancellable(s.messages[i].status)
  }

  /** The request sets reply i and its job alike: a cancel by its owner, or the outcome of its stream. */
  predicate Rejoins(s: State, op: Op, i: nat) {
    Finalises(s, op, i) || (op.Cancel? && op.message == i && OwnsMessage(s, op.user, i))
  }

  /** Of the first n requests the k-th is a break and none after it a repair. */
  ghost predicate Unrepaired(breaks: nat -> bool, repairs: nat -> bool, k: nat, n: nat) {
    k < n && breaks(k) && forall j: nat :: k < j < n ==> !repairs(j)
  }

  /** Some break has not been repaired. */
  ghost predicate SomeUnrepaired(breaks: nat -> bool, repairs: nat -> bool, n: nat) {
    exists k :: Unrepaired(breaks, repairs, k, n)
  }

  lemma UnrepairedNext(breaks: nat -> bool, repairs: nat -> bool, n: nat)
    ensures SomeUnrepaired(breaks, repairs, n + 1) <==> breaks(n) || (SomeUnrepaired(breaks, repairs, n) && !repairs(n))
  {
    if breaks(n) {
      assert Unrepaired(breaks, repairs, n, n + 1);
    } else if SomeUnrepaired(breaks, repairs, n) && !repairs(n) {
      var k: nat :| Unrepaired(breaks, repairs, k, n);
      assert Unrepaired(breaks, repairs, k, n + 1);
    }
    if SomeUnrepaired(breaks, repairs, n + 1) && !breaks(n) {
      var k: nat :| Unrepaired(breaks, repairs, k, n + 1);
      assert Unrepaired(breaks, repairs, k, n);
    }
  }

  /** The requests of a run that sever reply i from its job, and those that set both. */
  ghost function Severings(ops: seq<Op>, i: nat): nat -> bool { (k: nat) => k < |ops| && Severs(Run(ops[..k]), ops[k], i) }

  ghost function Rejoinings(ops: seq<Op>, i: nat): nat -> bool { (k: nat) => k < |ops| && Rejoins(Run(ops[..k]), ops[k], i) }

  predicate Apart(s: State, i: nat) {
    && i < |s.messages| && s.messages[i].job.Some? && s.messages[i].job.value < |s.jobs|
    && CameApart(s.messages[i].status, s.jobs[s.messages[i].job.value].status)
  }

  lemma CancelJobMovesApart(s: State, user: nat, job: nat, i: nat)
    requires Inv(s)
    ensures Apart(Step(s, CancelJob(user, job)).0, i) <==> Severs(s, CancelJob(user, job), i) || Apart(s, i)
  {
    if i < |s.messages| {
      assert ReplyOk(s, i);
    }
  }

  lemma CancelMovesApart(s: State, user: nat, message: nat, i: nat)
    requires Inv(s)
    ensures Apart(Step(s, Cancel(user, message)).0, i) <==> Apart(s, i) && !Rejoins(s, Cancel(user, message), i)
  {
    if i < |s.messages| {
      assert ReplyOk(s, i);
    }
    if OwnsMessage(s, user, message) {
      assert ReplyOk(s, message);
    }
  }

  lemma FinaliseMovesApart(s: State, stream: nat, fails: bool, text: string, i: nat)
    requires Inv(s)
    ensures Apart(Step(s, Finalise(stream, fails, text)).0, i) <==> Apart(s, i) && !Rejoins(s, Finalise(stream, fails, text), i)
  {
    if i < |s.messages| {
      assert ReplyOk(s, i);
    }
    if stream < |s.streams| {
      assert ReplyOk(s, s.streams[stream].message);
    }
  }

  /** All other requests leave stored replies and jobs alone, and what they add is not apart. */
  lemma OthersMoveNothingApart(s: State, op: Op, i: nat)
    requires Inv(s) && !op.CancelJob? && !op.Cancel? && !op.Finalise?
    ensures Apart(Step(s, op).0, i) <==> Apart(s, i)
  {
    if i < |s.messages| {
      assert ReplyOk(s, i);
    }
  }

  lemma StepMovesApart(s: State, op: Op, i: nat)
    requires Inv(s)
    ensures Apart(Step(s, op).0, i) <==> Severs(s, op, i) || (Apart(s, i) && !Rejoins(s, op, i))
  {
    match op
    case CancelJob(user, job) => CancelJobMovesApart(s, user, job, i);
    case Cancel(user, message) => CancelMovesApart(s, user, message, i);
    case Finalise(stream, fails, text) => FinaliseMovesApart(s, stream, fails, text, i);
    case _ => OthersMoveNothingApart(s, op, i);
  }

  lemma ApartNext(ops: seq<Op>, n: nat, i: nat)
    requires n < |ops|
    ensures Apart(Run(ops[..n + 1]), i) <==> Severings(ops, i)(n) || (Apart(Run(ops[..n]), i) && !Rejoinings(ops, i)(n))
  {
    assert ops[..n + 1][..n] == ops[..n];
    RunKeepsInv(ops[..n]);
    StepMovesApart(Run(ops[..n]), ops[n], i);
  }

  /** A reply and its job are apart exactly if the job was canceled alone and nothing has set both since. */
  lemma {:induction false} ApartIff(ops: seq<Op>, n: nat, i: nat)
    requires n <= |ops|
    ensures Apart(Run(ops[..n]), i) <==> SomeUnrepaired(Severings(ops, i), Rejoinings(ops, i), n)
  {
    if n > 0 {
      ApartIff(ops, n - 1, i);
      ApartNext(ops, n - 1, i);
      UnrepairedNext(Severings(ops, i), Rejoinings(ops, i), n - 1);
    } else {
      assert ops[..0] == [];
    }
  }

  /**
   In every reachable state each reply has its own job, and the two hold matching statuses, unless the job was canceled alone
   while the reply was being made and neither a cancel of the reply nor the outcome of its stream has come since.
   */
  lemma StatusesMatchUnlessSevered(ops: seq<Op>, i: nat)
    requires i < |Run(ops).messages| && Run(ops).messages[i].role.Assistant?
    ensures var s := Run(ops); var m := s.messages[i];
      && m.job.Some? && m.job.value < |s.jobs|
      && (Match(m.status, s.jobs[m.job.value].status) <==> !SomeUnrepaired(Severings(ops, i), Rejoinings(ops, i), |ops|))
      && forall k :: 0 <= k < |s.messages| && k != i ==> s.messages[k].job != m.job
  {
    RunKeepsInv(ops);
    assert ReplyOk(Run(ops), i);
    assert ops[..|ops|] == ops;
    ApartIff(ops, |ops|, i);
  }

  /** So they always match in runs in which no job is canceled alone. */
  lemma StatusesAlwaysMatch(ops: seq<Op>, i: nat)
    requires i < |Run(ops).messages| && Run(ops).messages[i].role.Assistant?
    requires forall k :: 0 <= k < |ops| ==> !ops[k].CancelJob?
    ensures var s := Run(ops); var m := s.messages[i];
      m.job.Some? && m.job.value < |s.jobs| && Match(m.status, s.jobs[m.job.value].status)
  {
    StatusesMatchUnlessSevered(ops, i);
  }

  /** And they do come apart: start, then cancel the job that `meta` names. */
  lemma JobCanBeCanceledAlone(ops: seq<Op>)
    requires ops == [Open(1), StartStream(1, 0, true), CancelJob(1, 0)]
    ensures var s := Run(ops);
      |s.messages| == 2 && |s.jobs| == 1 && s.messages[1].job == Some(0) && s.messages[1].status.Running? && s.jobs[0].status.JobCanceled?
  {
    assert ops[..2] == [Open(1), StartStream(1, 0, true)] && ops[..2][..1] == [Open(1)] && ops[..2][..1][..0] == [];
    assert Run([Open(1)]) == State([Conversation(1, 0, false, "", 0)], [], [], []);
    assert Run(ops[..2]) == Step(Run([Open(1)]), StartStream(1, 0, true)).0;
  }

  // ----- Deleted conversations -----

  /** Stream t belongs to conversation c and has not written its outcome yet. */
  predicate OpenIn(s: State, t: nat, c: nat) {
    t < |s.streams| && s.streams[t].open && s.streams[t].message < |s.messages| && s.messages[s.streams[t].message].conversation == c
  }

  /** Which streams of conversation c are open. */
  function OpenStreams(s: State, c: nat): set<nat> {
    set t: nat | t < |s.streams| && OpenIn(s, t, c)
  }

  /** The streams that the requests from the m-th to before the n-th finalise, or try to. */
  function Ended(ops: seq<Op>, m: nat, n: nat): set<nat>
    requires m <= n <= |ops|
    decreases n
  {
    if m == n then {} else Ended(ops, m, n - 1) + if ops[n - 1].Finalise? then {ops[n - 1].stream} else {}
  }

  /** Owner, counter, deletion mark and number of messages of a conversation are as they were. */
  ghost predicate Kept(s: State, s': State, c: nat) {
    && c < |s.conversations| && c < |s'.conversations|
    && s'.conversations[c] == s.conversations[c].(preview := s'.conversations[c].preview, writes := s'.conversations[c].writes)
    && Stored(s'.messages, c, |s'.messages|) == Stored(s.messages, c, |s.messages|)
  }

  /** What has become of a deleted conversation once these streams were to be finalised: its row was written once for each that was open. */
  ghost predicate Faded(s: State, s': State, c: nat, ended: set<nat>) {
    && Kept(s, s', c) && s.conversations[c].deleted
    && OpenStreams(s', c) == OpenStreams(s, c) - ended
    && s'.conversations[c].writes == s.conversations[c].writes + |OpenStreams(s, c) * ended|
    && (OpenStreams(s, c) * ended == {} ==> s'.conversations[c] == s.conversations[c])
  }

  lemma StepKeepsDeleted(s: State, op: Op, c: nat)
    requires Inv(s) && c < |s.conversations| && s.conversations[c].deleted
    ensures Kept(s, Step(s, op).0, c)
  {
    var s' := Step(s, op).0;
    StepKeepsInv(s, op);
    assert s'.conversations[c].messageCount == s.conversations[c].messageCount;
    assert CountsOk(s) && CountsOk(s');
  }

  /** A request writes the row of a deleted conversation only if it finalises an open stream of it. */
  lemma StepWritesDeleted(s: State, op: Op, c: nat)
    requires Inv(s) && c < |s.conversations| && s.conversations[c].deleted
    ensures var s' := Step(s, op).0;
      && c < |s'.conversations|
      && if op.Finalise? && op.stream in OpenStreams(s, c)
         then s'.conversations[c].writes == s.conversations[c].writes + 1 && s'.conversations[c].preview == Take(op.text, PREVIEW_LIMIT)
         else s'.conversations[c] == s.conversations[c]
  {
  }

  lemma StepClosesOne(s: State, op: Op, c: nat)
    requires Inv(s) && c < |s.conversations| && s.conversations[c].deleted
    ensures OpenStreams(Step(s, op).0, c) == OpenStreams(s, c) - if op.Finalise? then {op.stream} else {}
  {
    var s' := Step(s, op).0;
    if op.Finalise? {
      forall t: nat ensures OpenIn(s', t, c) <==> OpenIn(s, t, c) && op.stream != t {
      }
    } else {
      OthersCloseNothing(s, op, c);
    }
  }

  /** No stream is started in a deleted conversation, and only finalisation closes one. */
  lemma OthersCloseNothing(s: State, op: Op, c: nat)
    requires Inv(s) && c < |s.conversations| && s.conversations[c].deleted && !op.Finalise?
    ensures OpenStreams(Step(s, op).0, c) == OpenStreams(s, c)
  {
    var s' := Step(s, op).0;
    assert forall t: nat :: t < |s.streams| ==> s'.streams[t] == s.streams[t];
    forall t: nat ensures OpenIn(s', t, c) <==> OpenIn(s, t, c) {
    }
  }

  lemma FadesOn(s: State, s1: State, op: Op, c: nat, ended: set<nat>)
    requires Inv(s1) && Faded(s, s1, c, ended)
    ensures Faded(s, Step(s1, op).0, c, ended + if op.Finalise? then {op.stream} else {})
  {
    StepKeepsDeleted(s1, op, c);
    StepWritesDeleted(s1, op, c);
    StepClosesOne(s1, op, c);
    if op.Finalise? {
      OneMoreEnded(OpenStreams(s, c), ended, op.stream);
    }
  }

  /** One more that ended counts if it was open and had not ended before. */
  lemma OneMoreEnded(open: set<nat>, ended: set<nat>, t: nat)
    ensures |open * (ended + {t})| == |open * ended| + if t in open - ended then 1 else 0
    ensures open * (ended + {t}) == {} ==> open * ended == {} && t !in open - ended
    ensures open - ended - {t} == open - (ended + {t})
  {
    if t in open - ended {
      assert open * (ended + {t}) == open * ended + {t};
    } else {
      assert open * (ended + {t}) == open * ended;
    }
  }

  /** The states of a run, step by step. */
  function States(ops: seq<Op>): nat -> State { (k: nat) => if k <= |ops| then Run(ops[..k]) else Run(ops) }

  /** One state follows from the one before, which is in order. */
  ghost predicate Follows(ops: seq<Op>, state: nat -> State, k: nat)
    requires k < |ops|
  {
    Inv(state(k)) && state(k + 1) == Step(state(k), ops[k]).0
  }

  lemma StatesFollow(ops: seq<Op>, k: nat)
    requires k < |ops|
    ensures Follows(ops, States(ops), k)
  {
    assert ops[..k + 1][..k] == ops[..k];
    RunKeepsInv(ops[..k]);
  }

  lemma {:induction false} Fades(ops: seq<Op>, state: nat -> State, m: nat, n: nat, c: nat)
    requires m <= n <= |ops| && (forall k: nat :: m <= k < n ==> Follows(ops, state, k)) && Faded(state(m), state(m), c, {})
    ensures Faded(state(m), state(n), c, Ended(ops, m, n))
    decreases n
  {
    if m < n {
      Fades(ops, state, m, n - 1, c);
      assert Follows(ops, state, n - 1);
      FadesOn(state(m), state(n - 1), ops[n - 1], c, Ended(ops, m, n - 1));
    }
  }

  lemma FadedAtOnce(s: State, c: nat)
    requires c < |s.conversations| && s.conversations[c].deleted
    ensures Faded(s, s, c, {})
  {
    assert OpenStreams(s, c) * {} == {};
  }

  /**
   From its deletion on, over any run, a conversation keeps its owner, counter, deletion mark and number of messages.
   Its row is still written: once for each of its streams that was open at step m and has been finalised since.
   So it is written exactly if there is such a stream, and otherwise stays as it is.
   */
  lemma DeletedRow(ops: seq<Op>, m: nat, n: nat, c: nat)
    requires m <= n <= |ops|
    requires c < |Run(ops[..m]).conversations| && Run(ops[..m]).conversations[c].deleted
    ensures var before, after := Run(ops[..m]), Run(ops[..n]);
      var late := OpenStreams(before, c) * Ended(ops, m, n);
      && Kept(before, after, c)
      && after.conversations[c].writes == before.conversations[c].writes + |late|
      && (after.conversations[c].writes > before.conversations[c].writes <==> exists t :: t in late)
      && (late == {} ==> after.conversations[c] == before.conversations[c])
  {
    FadedAtOnce(Run(ops[..m]), c);
    forall k: nat | m <= k < n ensures Follows(ops, States(ops), k) {
      StatesFollow(ops, k);
    }
    Fades(ops, States(ops), m, n, c);
    var late := OpenStreams(Run(ops[..m]), c) * Ended(ops, m, n);
    if t :| t in late {
      assert |late| > 0;
    }
  }

  /** And it is: a reply of a deleted conversation is completed, and shown in its preview. */
  lemma DeletedIsStillWritten(ops: seq<Op>, text: string)
    requires ops == [Open(1), StartStream(1, 0, true), Delete(1, 0), Finalise(0, false, text)]
    ensures var before, after := Run(ops[..3]), Run(ops);
      && before.conversations == [Conversation(1, 2, true, "", 2)] && after.conversations == [Conversation(1, 2, true, Take(text, PREVIEW_LIMIT), 3)]
      && |before.messages| == |after.messages| == 2 && before.messages[1].status.Running? && after.messages[1].status.Completed?
  {
    assert ops[..3][..2] == [Open(1), StartStream(1, 0, true)] && ops[..3][..2][..1] == [Open(1)] && ops[..3][..2][..1][..0] == [];
    assert Run([Open(1)]) == State([Conversation(1, 0, false, "", 0)], [], [], []);
    var s2 := Run(ops[..3][..2]);
    assert s2 == Step(Run([Open(1)]), StartStream(1, 0, true)).0;
    assert Run(ops[..3]) == Step(s2, Delete(1, 0)).0 && Run(ops) == Step(Run(ops[..3]), Finalise(0, false, text)).0;
  }

  function StatusAt(ops: seq<Op>, n: nat, i: nat): Option<Status>
    requires n <= |ops|
  {
    if i < |Run(ops[..n]).messages| then Some(Run(ops[..n]).messages[i].status) else None
  }

  lemma StatusMovesAt(ops: seq<Op>, n: nat, i: nat)
    requires n < |ops| && StatusAt(ops, n, i).Some? && !Cancellable(StatusAt(ops, n, i).value)
    ensures if FinalisesReply(ops, n, i) then StatusAt(ops, n + 1, i) in {Some(Completed), Some(Failed)}
            else StatusAt(ops, n + 1, i) == StatusAt(ops, n, i)
  {
    assert ops[..n + 1][..n] == ops[..n];
    RunKeepsInv(ops[..n]);
  }

  /** A status that is final but for the moves `outcome` marks is canceled exactly until the first of them. */
  lemma {:induction false} CanceledUntil(status: nat -> Option<Status>, outcome: nat -> bool, m: nat, n: nat)
    requires m <= n && status(m) == Some(Canceled)
    requires forall k: nat :: m <= k < n && status(k) in {Some(Canceled), Some(Completed), Some(Failed)} ==>
      if outcome(k) then status(k + 1) in {Some(Completed), Some(Failed)} else status(k + 1) == status(k)
    ensures status(n) in {Some(Canceled), Some(Completed), Some(Failed)}
    ensures status(n) == Some(Canceled) <==> forall k: nat :: m <= k < n ==> !outcome(k)
    decreases n
  {
    if m < n {
      CanceledUntil(status, outcome, m, n - 1);
    }
  }

  /** A canceled reply stays canceled exactly as long as its own stream does not write its outcome. */
  lemma CanceledUntilFinalised(ops: seq<Op>, m: nat, n: nat, i: nat)
    requires m <= n <= |ops| && StatusAt(ops, m, i) == Some(Canceled)
    ensures StatusAt(ops, n, i) in {Some(Canceled), Some(Completed), Some(Failed)}
    ensures StatusAt(ops, n, i) == Some(Canceled) <==> Unfinalised(ops, m, n, i)
  {
    var status := (k: nat) => if k <= |ops| then StatusAt(ops, k, i) else None;
    var outcome := (k: nat) => k < |ops| && FinalisesReply(ops, k, i);
    forall k: nat | m <= k < n && status(k) in {Some(Canceled), Some(Completed), Some(Failed)}
      ensures if outcome(k) then status(k + 1) in {Some(Completed), Some(Failed)} else status(k + 1) == status(k)
    {
      StatusMovesAt(ops, k, i);
    }
    CanceledUntil(status, outcome, m, n);
    forall k: nat | m <= k < n ensures outcome(k) <==> FinalisesReply(ops, k, i) {
    }
  }

  /** The n-th request is a cancel of reply i by its owner. */
  predicate CancelsReply(ops: seq<Op>, n: nat, i: nat)
    requires n < |ops|
  {
    ops[n].Cancel? && ops[n].message == i && OwnsMessage(Run(ops[..n]), ops[n].user, i)
  }

  lemma UnfinalisedMovesAt(ops: seq<Op>, n: nat, i: nat)
    requires n < |ops| && StatusAt(ops, n, i) in {Some(Running), Some(Canceled)} && !FinalisesReply(ops, n, i)
    ensures StatusAt(ops, n + 1, i) == if CancelsReply(ops, n, i) then Some(Canceled) else StatusAt(ops, n, i)
  {
    assert ops[..n + 1][..n] == ops[..n];
    RunKeepsInv(ops[..n]);
    StepMovesUnfinalised(Run(ops[..n]), ops[n], i);
  }

  lemma StepMovesUnfinalised(s: State, op: Op, i: nat)
    requires Inv(s) && i < |s.messages| && s.messages[i].status in {Running, Canceled} && !Finalises(s, op, i)
    ensures var s' := Step(s, op).0;
      && i < |s'.messages|
      && s'.messages[i].status ==
           if op.Cancel? && op.message == i && OwnsMessage(s, op.user, i) then Canceled else s.messages[i].status
  {
    assert ReplyOk(s, i);
  }

  lemma {:induction false} RunningUntil(status: nat -> Option<Status>, cancels: nat -> bool, m: nat, n: nat)
    requires m <= n && status(m) == Some(Running)
    requires forall k: nat :: m <= k < n && status(k) in {Some(Running), Some(Canceled)} ==>
      status(k + 1) == if cancels(k) then Some(Canceled) else status(k)
    ensures status(n) in {Some(Running), Some(Canceled)}
    ensures status(n) == Some(Running) <==> forall k: nat :: m <= k < n ==> !cancels(k)
    decreases n
  {
    if m < n {
      RunningUntil(status, cancels, m, n - 1);
    }
  }

  ghost predicate Uncanceled(ops: seq<Op>, m: nat, n: nat, i: nat)
    requires n <= |ops|
  {
    forall k: nat :: m <= k < n ==> !CancelsReply(ops, k, i)
  }

  /** A reply whose stream never writes an outcome, say because it broke off, stays running exactly until its owner cancels it. */
  lemma RunningUntilCanceled(ops: seq<Op>, m: nat, n: nat, i: nat)
    requires m <= n <= |ops| && StatusAt(ops, m, i) == Some(Running) && Unfinalised(ops, m, n, i)
    ensures StatusAt(ops, n, i) in {Some(Running), Some(Canceled)}
    ensures StatusAt(ops, n, i) == Some(Running) <==> Uncanceled(ops, m, n, i)
  {
    var status := (k: nat) => if k <= |ops| then StatusAt(ops, k, i) else None;
    var cancels := (k: nat) => k < |ops| && CancelsReply(ops, k, i);
    forall k: nat | m <= k < n && status(k) in {Some(Running), Some(Canceled)}
      ensures status(k + 1) == if cancels(k) then Some(Canceled) else status(k)
    {
      UnfinalisedMovesAt(ops, k, i);
    }
    RunningUntil(status, cancels, m, n);
    forall k: nat | m <= k < n ensures cancels(k) <==> CancelsReply(ops, k, i) {
    }
  }

  /** And that does happen: start, cancel, finalise ends in "completed". */
  lemma CanceledIsNotTerminal(ops: seq<Op>)
    requires ops == [Open(1), StartStream(1, 0, true), Cancel(1, 1), Finalise(0, false, "")]
    ensures var before, after := Run(ops[..3]).messages, Run(ops).messages;
      |before| == |after| == 2 && before[1].status.Canceled? && after[1].status.Completed?
  {
    assert ops[..3][..2] == [Open(1), StartStream(1, 0, true)] && ops[..3][..2][..1] == [Open(1)] && ops[..3][..2][..1][..0] == [];
    assert Run([Open(1)]) == State([Conversation(1, 0, false, "", 0)], [], [], []);
    var s2 := Run(ops[..3][..2]);
    assert s2 == Step(Run([Open(1)]), StartStream(1, 0, true)).0;
    assert |s2.messages| == 2 && s2.messages[1].status.Running? && s2.streams == [Stream(1, 0, true)];
  }
}
