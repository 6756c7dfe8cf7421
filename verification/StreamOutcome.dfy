/** The streaming endpoint as a whole: what `done` tells the page, and what the rows hold. */
module StreamOutcome {
  import opened Wrappers
  import opened Json
  import opened Text
  import opened SseWire
  import opened AnswerStream
  import opened ChatStoreClass
  import Chat = ChatLifecycle

  function StatusText(status: Chat.Status): string {
    match status
    case Pending => "pending"
    case Running => "running"
    case Completed => "completed"
    case Failed => "failed"
    case Canceled => "canceled"
  }

  function JobText(status: Chat.JobStatus): string {
    match status
    case Queued => "queued"
    case JobRunning => "running"
    case JobCompleted => "completed"
    case JobFailed => "failed"
    case JobCanceled => "canceled"
  }

  /** The status in a frame's payload. */
  function ToldStatus(f: Frame): Json
    requires f.data.Obj?
  {
    LastField(f.data.fields, "status")
  }

  /** Both rows of a stream hold this status, and its conversation shows this text. */
  ghost predicate Holds(s: Chat.State, stream: nat, status: string, content: string) {
    && stream < |s.streams|
    && var t := s.streams[stream];
       && t.message < |s.messages| && t.job < |s.jobs|
       && StatusText(s.messages[t.message].status) == JobText(s.jobs[t.job].status) == status
       && var c := s.messages[t.message].conversation;
          c < |s.conversations| && s.conversations[c].preview == Take(content, Chat.PREVIEW_LIMIT)
  }

  /** Whatever has happened to the two rows since the stream started, its outcome is what they hold once it is written. */
  lemma OutcomeIsHeld(s: Chat.State, stream: nat, failed: bool, content: string)
    requires Chat.Inv(s) && stream < |s.streams| && s.streams[stream].open
    ensures Holds(Chat.Step(s, Chat.Finalise(stream, failed, content)).0, stream, if failed then "failed" else "completed", content)
  {
    var t := s.streams[stream];
    assert Chat.ReplyOk(s, t.message);
    assert Chat.BelongsTo(s, s.messages[t.message].user, s.messages[t.message].conversation);
  }

  /**
   The endpoint behind a stream that has been started: it sends the answer, then writes its outcome, then says it in `done`.
   The status in `done` is the one both rows hold. A stream that breaks off writes nothing.
   */
  method StreamAnswer(store: ChatStore, stream: nat, tools: Tools, q: Request) returns (frames: seq<Frame>, row: Option<Row>)
    requires PlainRequest(q) && Chat.Inv(store.View())
    requires stream < |store.streams| && store.streams[stream].open
    modifies store
    ensures row.None? <==> ListAnswer(tools.host, q)
    ensures row.None? ==> store.View() == old(store.View())
    ensures row.Some? ==> Complete(tools, q, frames, row.value)
    ensures row.Some? ==> store.View() == Chat.Step(old(store.View()), Chat.Finalise(stream, row.value.failed, row.value.content)).0
    ensures row.Some? ==> exists status ::
      ToldStatus(frames[|frames| - 1]) == Str(status) && Holds(store.View(), stream, status, row.value.content)
  {
    frames, row := Generate(tools, q);
    if row.Some? {
      OutcomeIsHeld(store.View(), stream, row.value.failed, row.value.content);
      DoneTells(q, row.value.failed, row.value.citations);
      var answer := store.FinaliseStream(stream, row.value.failed, row.value.content);
    }
  }
}
