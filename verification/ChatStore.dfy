/** The endpoints in the shape of the source: each reads rows, changes their fields and commits. */
module ChatStoreClass {
  import opened Wrappers
  import opened Text
  import opened ChatLifecycle

  class ChatStore {
    var conversations: seq<Conversation>
    var messages: seq<Message>
    var jobs: seq<Job>
    var streams: seq<Stream>

    function View(): State
      reads this
    {
      State(conversations, messages, jobs, streams)
    }

    constructor ()
      ensures View() == Run([])
    {
      conversations, messages, jobs, streams := [], [], [], [];
    }

    method OpenConversation(user: nat)
      modifies this
      ensures View() == Step(old(View()), Open(user)).0
    {
      conversations := conversations + [Conversation(user, 0, false, "", 0)];
    }

    /** Counts new messages and shows the beginning of the latest reply. */
    method WriteConversation(conversation: nat, more: int, text: Option<string>)
      requires conversation < |conversations|
      modifies this`conversations
      ensures View() == Count(old(View()), conversation, more, text)
    {
      var c := conversations[conversation];
      var preview := if text.Some? then Take(text.value, PREVIEW_LIMIT) else c.preview;
      conversations := conversations[conversation := c.(messageCount := c.messageCount + more, preview := preview, writes := c.writes + 1)];
    }

    method PostMessage(user: nat, conversation: nat, enabled: bool, fails: bool, text: string) returns (answer: Answer)
      modifies this
      ensures (View(), answer) == Step(old(View()), Post(user, conversation, enabled, fails, text))
    {
      if !Owns(View(), user, conversation) {
        return NotFound;
      }
      if !enabled {
        return BadRequest;
      }
      var asked := |messages|;
      messages := messages + [Message(conversation, user, User, Completed, None, None)];
      var job := |jobs|;
      jobs := jobs + [Job(user, JobCompleted)];
      if fails {
        jobs := jobs[job := jobs[job].(status := JobFailed)];
        assert jobs == old(jobs) + [Job(user, JobFailed)];
      }
      messages := messages + [Message(conversation, user, Assistant, if fails then Failed else Completed, Some(asked), Some(job))];
      WriteConversation(conversation, 2, Some(text));
      assert messages == old(messages) + [messages[asked], messages[asked + 1]];
      answer := Done;
    }

    method PostMessageStream(user: nat, conversation: nat, enabled: bool) returns (answer: Answer)
      modifies this
      ensures (View(), answer) == Step(old(View()), StartStream(user, conversation, enabled))
    {
      if !Owns(View(), user, conversation) {
        return NotFound;
      }
      if !enabled {
        return BadRequest;
      }
      var asked := |messages|;
      messages := messages + [Message(conversation, user, User, Completed, None, None)];
      var job := |jobs|;
      jobs := jobs + [Job(user, JobRunning)];
      messages := messages + [Message(conversation, user, Assistant, Running, Some(asked), Some(job))];
      WriteConversation(conversation, 2, None);
      streams := streams + [Stream(asked + 1, job, true)];
      assert messages == old(messages) + [messages[asked], messages[asked + 1]];
      answer := Done;
    }

    method FinaliseStream(stream: nat, fails: bool, text: string) returns (answer: Answer)
      modifies this
      ensures (View(), answer) == Step(old(View()), Finalise(stream, fails, text))
    {
      if !(stream < |streams| && streams[stream].open) {
        return NotFound;
      }
      var t := streams[stream];
      if t.message < |messages| {
        messages := messages[t.message := messages[t.message].(status := if fails then Failed else Completed)];
      }
      if t.job < |jobs| {
        jobs := jobs[t.job := jobs[t.job].(status := if fails then JobFailed else JobCompleted)];
      }
      streams := streams[stream := t.(open := false)];
      if t.message < |messages| && messages[t.message].conversation < |conversations| {
        var c := messages[t.message].conversation;
        WriteConversation(c, 0, Some(text));
      }
      answer := Done;
    }

    method CancelMessage(user: nat, message: nat) returns (answer: Answer)
      modifies this
      ensures (View(), answer) == Step(old(View()), Cancel(user, message))
    {
      if !OwnsMessage(View(), user, message) {
        return NotFound;
      }
      var m := messages[message];
      if m.role.User? {
        return BadRequest;
      }
      var job := JobOf(View(), user, message);
      if m.status.Pending? || m.status.Running? {
        messages := messages[message := m.(status := Canceled)];
      }
      if job.Some? && (jobs[job.value].status.Queued? || jobs[job.value].status.JobRunning?) {
        jobs := jobs[job.value := jobs[job.value].(status := JobCanceled)];
      }
      answer := Done;
    }

    /** The job's own endpoint; it knows nothing of the reply. */
    method CancelAnyJob(user: nat, job: nat) returns (answer: Answer)
      modifies this
      ensures (View(), answer) == Step(old(View()), CancelJob(user, job))
    {
      if !(job < |jobs| && jobs[job].user == user) {
        return NotFound;
      }
      if jobs[job].status.JobCompleted? || jobs[job].status.JobFailed? {
        return BadRequest;
      }
      if !jobs[job].status.JobCanceled? {
        jobs := jobs[job := jobs[job].(status := JobCanceled)];
      } else {
        assert jobs[job := jobs[job].(status := JobCanceled)] == jobs;
      }
      answer := Done;
    }

    method DeleteConversation(user: nat, conversation: nat) returns (answer: Answer)
      modifies this
      ensures (View(), answer) == Step(old(View()), Delete(user, conversation))
    {
      if !Owns(View(), user, conversation) {
        return NotFound;
      }
      var c := conversations[conversation];
      conversations := conversations[conversation := c.(deleted := true, writes := c.writes + 1)];
      answer := Done;
    }

    /** Walks back from the target to the prompt that produced it. */
    method FindPrompt(user: nat, conversation: nat, upTo: nat) returns (asked: Option<nat>)
      requires upTo <= |messages|
      ensures asked == Prompt(View(), user, conversation, upTo)
    {
      var i: nat := upTo;
      while i > 0
        invariant i <= upTo
        invariant Prompt(View(), user, conversation, upTo) == Prompt(View(), user, conversation, i)
      {
        var m := messages[i - 1];
        if m.conversation == conversation && m.user == user && m.role.User? {
          return Some(i - 1);
        }
        i := i - 1;
      }
      asked := None;
    }

    method RegenerateMessage(user: nat, message: nat, fails: bool, text: string) returns (answer: Answer)
      modifies this
      ensures (View(), answer) == Step(old(View()), Regenerate(user, message, fails, text))
    {
      if !OwnsMessage(View(), user, message) {
        return NotFound;
      }
      var target := messages[message];
      if target.role.User? {
        return BadRequest;
      }
      if !Owns(View(), user, target.conversation) {
        return NotFound;
      }
      var asked := FindPrompt(user, target.conversation, message + 1);
      if asked.None? {
        return BadRequest;
      }
      var job := |jobs|;
      jobs := jobs + [Job(user, if fails then JobFailed else JobCompleted)];
      messages := messages + [Message(target.conversation, user, Assistant, if fails then Failed else Completed, asked, Some(job))];
      WriteConversation(target.conversation, 1, Some(text));
      answer := Done;
    }
  }
}
