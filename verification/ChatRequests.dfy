/** What each request of the chat does to the rows, in plain terms. */
module ChatRequests {
  import opened Wrappers
  import opened ChatLifecycle

  /** The conversation is there, is the user's and is not deleted. */
  predicate May(s: State, user: nat, c: nat) {
    c < |s.conversations| && s.conversations[c].user == user && s.conversations[c].deleted == false
  }

  /** The conversation's row counts this many messages more, shows the beginning of the text if there is one, and is written once; no other row changes. */
  predicate RowWritten(s: State, s': State, c: nat, more: int, text: Option<string>) {
    && c < |s.conversations| == |s'.conversations|
    && (forall k :: 0 <= k < |s.conversations| && k != c ==> s'.conversations[k] == s.conversations[k])
    && var a, b := s.conversations[c], s'.conversations[c];
       && b.user == a.user && b.deleted == a.deleted && b.messageCount == a.messageCount + more && b.writes == a.writes + 1
       && match text
          case None => b.preview == a.preview
          case Some(t) => b.preview <= t && |b.preview| == if |t| < 120 then |t| else 120
  }

  /** One question and one reply to it are added, and a job for the reply; nothing stored changes. */
  predicate Asked(s: State, s': State, user: nat, c: nat, status: Status, job: JobStatus) {
    var n := |s.messages|;
    && s.messages <= s'.messages && |s'.messages| == n + 2 && s.jobs <= s'.jobs && |s'.jobs| == |s.jobs| + 1
    && s'.messages[n] == Message(c, user, User, Completed, None, None)
    && s'.jobs[|s.jobs|].user == user && s'.jobs[|s.jobs|].status == job
    && var reply := s'.messages[n + 1];
       && reply.conversation == c && reply.user == user && reply.role == Assistant && reply.status == status
       && reply.parent == Some(n) && reply.job == Some(|s.jobs|)
  }

  /**
   Posting: a question, its reply and their job, failed exactly if the model's call fails; refused for a conversation that is
   not the user's and for a model that is not enabled.
   */
  lemma PostDoes(s: State, user: nat, c: nat, enabled: bool, fails: bool, text: string, r: (State, Answer))
    requires r == Step(s, Post(user, c, enabled, fails, text))
    ensures if !May(s, user, c) then r == (s, NotFound)
            else if !enabled then r == (s, BadRequest)
            else
              && r.1 == Done && r.0.streams == s.streams && RowWritten(s, r.0, c, 2, Some(text))
              && Asked(s, r.0, user, c, if fails then Failed else Completed, if fails then JobFailed else JobCompleted)
  {
  }

  /** Starting a stream: a question, a running reply and a running job, and a stream that belongs to these two. */
  lemma StartDoes(s: State, user: nat, c: nat, enabled: bool, r: (State, Answer))
    requires r == Step(s, StartStream(user, c, enabled))
    ensures if !May(s, user, c) then r == (s, NotFound)
            else if !enabled then r == (s, BadRequest)
            else
              && r.1 == Done && RowWritten(s, r.0, c, 2, None) && Asked(s, r.0, user, c, Running, JobRunning)
              && r.0.streams == s.streams + [Stream(|s.messages| + 1, |s.jobs|, true)]
  {
  }

  /** The latest question of the user in the conversation at or before a row. */
  predicate LatestQuestion(s: State, user: nat, c: nat, upTo: nat, q: nat) {
    && q <= upTo < |s.messages| && IsQuestion(s.messages[q], user, c)
    && forall k :: q < k <= upTo ==> !IsQuestion(s.messages[k], user, c)
  }

  predicate IsQuestion(m: Message, user: nat, c: nat) { m.conversation == c && m.user == user && m.role == User }

  lemma {:induction false} PromptIsLatest(s: State, user: nat, c: nat, upTo: nat)
    requires upTo <= |s.messages|
    ensures match Prompt(s, user, c, upTo)
      case None => forall k :: 0 <= k < upTo ==> !IsQuestion(s.messages[k], user, c)
      case Some(q) => upTo > 0 && LatestQuestion(s, user, c, upTo - 1, q)
  {
    if upTo > 0 && !IsQuestion(s.messages[upTo - 1], user, c) {
      PromptIsLatest(s, user, c, upTo - 1);
    }
  }

  /** Regenerating a reply adds another one to the latest question before it, with its own job; failed exactly if the model's call fails. */
  lemma RegenerateDoes(s: State, user: nat, i: nat, fails: bool, text: string, r: (State, Answer))
    requires r == Step(s, Regenerate(user, i, fails, text))
    ensures if i >= |s.messages| || s.messages[i].user != user then r == (s, NotFound)
            else if s.messages[i].role == User then r == (s, BadRequest)
            else
              var c := s.messages[i].conversation;
              if !May(s, user, c) then r == (s, NotFound)
              else if forall k :: 0 <= k <= i ==> !IsQuestion(s.messages[k], user, c) then r == (s, BadRequest)
              else
                && r.1 == Done && r.0.streams == s.streams && RowWritten(s, r.0, c, 1, Some(text))
                && |r.0.messages| == |s.messages| + 1 && s.messages <= r.0.messages && |r.0.jobs| == |s.jobs| + 1 && s.jobs <= r.0.jobs
                && var reply := r.0.messages[|s.messages|];
                   && reply.conversation == c && reply.user == user && reply.role == Assistant
                   && reply.status == (if fails then Failed else Completed) && reply.job == Some(|s.jobs|)
                   && reply.parent.Some? && LatestQuestion(s, user, c, i, reply.parent.value)
                   && r.0.jobs[|s.jobs|] == Job(user, if fails then JobFailed else JobCompleted)
  {
    if i < |s.messages| {
      PromptIsLatest(s, user, s.messages[i].conversation, i + 1);
    }
  }

  /** Opening a conversation, deleting one, and cancelling a job on its own. */
  lemma OthersDo(s: State, user: nat, k: nat)
    ensures Step(s, Open(user)) == (s.(conversations := s.conversations + [Conversation(user, 0, false, "", 0)]), Done)
    ensures var r := Step(s, Delete(user, k));
      if !May(s, user, k) then r == (s, NotFound)
      else
        && r.1 == Done && r.0.messages == s.messages && r.0.jobs == s.jobs && r.0.streams == s.streams
        && r.0.conversations == s.conversations[k := s.conversations[k].(deleted := true, writes := s.conversations[k].writes + 1)]
    ensures var r := Step(s, CancelJob(user, k));
      if k >= |s.jobs| || s.jobs[k].user != user then r == (s, NotFound)
      else if s.jobs[k].status == JobCompleted || s.jobs[k].status == JobFailed then r == (s, BadRequest)
      else r == (s.(jobs := s.jobs[k := Job(user, JobCanceled)]), Done)
  {
  }

  /** A stream writes its outcome once: both its rows, and the preview of its conversation; a second time is refused. */
  lemma FinaliseDoes(ops: seq<Op>, k: nat, fails: bool, text: string, r: (State, Answer))
    requires r == Step(Run(ops), Finalise(k, fails, text))
    ensures var s := Run(ops);
      if k >= |s.streams| || !s.streams[k].open then r == (s, NotFound)
      else
        var t := s.streams[k];
        && r.1 == Done && r.0.streams == s.streams[k := Stream(t.message, t.job, false)]
        && t.message < |s.messages| && t.job < |s.jobs|
        && r.0.messages == s.messages[t.message := s.messages[t.message].(status := if fails then Failed else Completed)]
        && r.0.jobs == s.jobs[t.job := s.jobs[t.job].(status := if fails then JobFailed else JobCompleted)]
        && RowWritten(s, r.0, s.messages[t.message].conversation, 0, Some(text))
  {
    RunKeepsInv(ops);
    var s := Run(ops);
    if k < |s.streams| {
      StreamHasRows(s, k);
      FinaliseIs(s, k, fails, text, r);
    }
  }

  lemma StreamHasRows(s: State, k: nat)
    requires Inv(s) && k < |s.streams|
    ensures var t := s.streams[k];
      t.message < |s.messages| && t.job < |s.jobs| && s.messages[t.message].conversation < |s.conversations|
  {
    var t := s.streams[k];
    assert ReplyOk(s, t.message) && BelongsTo(s, s.messages[t.message].user, s.messages[t.message].conversation);
  }

  lemma FinaliseIs(s: State, k: nat, fails: bool, text: string, r: (State, Answer))
    requires k < |s.streams| && r == Step(s, Finalise(k, fails, text))
    requires var t := s.streams[k];
      t.message < |s.messages| && t.job < |s.jobs| && s.messages[t.message].conversation < |s.conversations|
    ensures var t := s.streams[k];
      if !t.open then r == (s, NotFound)
      else
        && r.1 == Done && r.0.streams == s.streams[k := Stream(t.message, t.job, false)]
        && r.0.messages == s.messages[t.message := s.messages[t.message].(status := if fails then Failed else Completed)]
        && r.0.jobs == s.jobs[t.job := s.jobs[t.job].(status := if fails then JobFailed else JobCompleted)]
        && RowWritten(s, r.0, s.messages[t.message].conversation, 0, Some(text))
  {
  }
}
