/** What the one-time code service answers, told from the history alone. */
module VerificationAnswers {
  import opened Wrappers
  import opened VerificationCodes
  import opened VerificationRuns

  // ----- Verifying -----

  /** A code for the pair is outstanding and less than 300 seconds old. */
  predicate Fresh(log: seq<Event>, p: Pair, now: int) {
    Outstanding(log, p).Some? && now < Outstanding(log, p).value.time + 300
  }

  /** The latest lockout of the pair leaves this many seconds. */
  ghost predicate LocksFor(log: seq<Event>, p: Pair, now: int, seconds: int) {
    && seconds > 0
    && (exists i :: 0 <= i < |log| && LockoutOf(log[i], p) && log[i].time + 1800 - now == seconds)
    && forall i :: 0 <= i < |log| && LockoutOf(log[i], p) ==> log[i].time + 1800 - now <= seconds
  }

  /** The wrong guesses counted against a pair: how many, and when the first of them was made. */
  datatype Guesses = Guesses(count: nat, since: int)

  /** A success wipes them out; a wrong guess is one more, or the first if the first one before is half an hour old. */
  function GuessesOf(log: seq<Event>, p: Pair): Guesses {
    if log == [] then Guesses(0, 0)
    else
      var e, before := log[|log| - 1], GuessesOf(log[..|log| - 1], p);
      if VerifiedFor(e, p) then Guesses(0, 0)
      else if !WrongGuess(e, p) then before
      else if before.count > 0 && e.time < before.since + 1800 then Guesses(before.count + 1, before.since)
      else Guesses(1, e.time)
  }

  /** Those that still count. */
  function Counted(log: seq<Event>, p: Pair, now: int): nat {
    var g := GuessesOf(log, p);
    if now < g.since + 1800 then g.count else 0
  }

  /** The counter in the store is the history's. */
  ghost predicate CounterIs(w: World, p: Pair) {
    var g := GuessesOf(w.log, p);
    if Live(w.st, AttemptsKey(p)) then g.count > 0 && w.st.store[AttemptsKey(p)] == Entry(Counter(g.count), Some(g.since + 1800))
    else g.count == 0 || g.since + 1800 <= w.st.now
  }

  lemma WaitKeepsCounter(w: World, seconds: nat, p: Pair)
    requires CounterIs(w, p)
    ensures CounterIs(Step(w, Wait(seconds)), p)
  {
  }

  lemma CreateKeepsCounter(w: World, q: Pair, ip: Option<string>, newCode: string, p: Pair)
    requires CounterIs(w, p)
    ensures CounterIs(Step(w, Create(q, ip, newCode)), p)
  {
    var w' := Step(w, Create(q, ip, newCode));
    assert w'.log[..|w'.log| - 1] == w.log;
  }

  lemma VerifyKeepsCounter(w: World, q: Pair, code: string, p: Pair)
    requires CounterIs(w, p)
    ensures CounterIs(Step(w, Verify(q, code)), p)
  {
    var w' := Step(w, Verify(q, code));
    assert w'.log[..|w'.log| - 1] == w.log;
  }

  lemma {:induction false} RunKeepsCounter(start: int, ops: seq<Op>, p: Pair)
    ensures CounterIs(Run(start, ops), p)
  {
    if ops != [] {
      var before := Run(start, ops[..|ops| - 1]);
      RunKeepsCounter(start, ops[..|ops| - 1], p);
      match ops[|ops| - 1]
      case Create(q, ip, newCode) => CreateKeepsCounter(before, q, ip, newCode, p);
      case Verify(q, code) => VerifyKeepsCounter(before, q, code, p);
      case Wait(seconds) => WaitKeepsCounter(before, seconds, p);
    }
  }

  /** The attempts left are five less the guesses that count, and none while the pair is locked out. */
  lemma RemainingIsHistory(start: int, ops: seq<Op>, p: Pair)
    requires LegalRun(ops)
    ensures var w := Run(start, ops);
      && RemainingAttempts(w.st, p) == (if LockedOut(w.log, p, w.st.now) then 0 else 5 - Counted(w.log, p, w.st.now))
      && Counted(w.log, p, w.st.now) <= 5
  {
    RunKeepsInv(start, ops, p, "");
    RunKeepsCounter(start, ops, p);
  }

  /** Which answer a verification gives, with its numbers, by what history says. */
  ghost predicate AnswersVerify(log: seq<Event>, p: Pair, now: int, code: string, answer: VerifyResult) {
    if LockedOut(log, p, now) then answer.VerifyLocked? && LocksFor(log, p, now, answer.ttl)
    else if !Fresh(log, p, now) then answer == CodeExpired
    else if Outstanding(log, p).value.code == code then answer == Verified
    else
      var guesses := Counted(log, p, now) + 1;
      if guesses < 5 then answer == InvalidCode(5 - guesses) else answer == TooManyAttempts(5) && guesses == 5
  }

  lemma VerifyAnswers(start: int, ops: seq<Op>, p: Pair, code: string)
    requires LegalRun(ops)
    ensures var w := Run(start, ops); AnswersVerify(w.log, p, w.st.now, code, VerifyCode(w.st, p, code).1)
  {
    RunKeepsInv(start, ops, p, "");
    RunKeepsCounter(start, ops, p);
    StateAnswers(Run(start, ops), p, code);
  }

  lemma StateAnswers(w: World, p: Pair, code: string)
    requires PastOnly(w) && CodeInv(w, p) && LockInv(w, p) && CounterInv(w, p) && CounterIs(w, p)
    ensures AnswersVerify(w.log, p, w.st.now, code, VerifyCode(w.st, p, code).1)
  {
    LockSeconds(w, p);
  }

  /** While a pair is locked the lock shows the seconds that the latest lockout leaves. */
  lemma LockSeconds(w: World, p: Pair)
    requires LockInv(w, p)
    ensures Live(w.st, LockedKey(p)) <==> LockedOut(w.log, p, w.st.now)
    ensures Live(w.st, LockedKey(p)) ==> LocksFor(w.log, p, w.st.now, Ttl(w.st, LockedKey(p)))
  {
  }

  // ----- Sending -----

  /** The latest of the marked events leaves this many seconds of its minute. */
  ghost predicate WaitsFor(log: seq<Event>, marked: Event -> bool, now: int, seconds: int) {
    && seconds > 0
    && (exists i :: 0 <= i < |log| && marked(log[i]) && log[i].time + 60 - now == seconds)
    && forall i :: 0 <= i < |log| && marked(log[i]) ==> log[i].time + 60 - now <= seconds
  }

  /** Which answer a request for a code gives, with its numbers: type, mailbox, address and lock are looked at in this order. */
  ghost predicate AnswersCreate(log: seq<Event>, p: Pair, ip: Option<string>, newCode: string, now: int, answer: CreateResult) {
    if p.codeType !in {"login", "bind", "reset"} then answer == InvalidType
    else if MailedRecently(log, p.email, now) then
      answer.RateLimited? && WaitsFor(log, e => MailedTo(e, p.email), now, answer.retryAfter)
    else if AddressUsedRecently(log, IpText(ip), now) then
      answer.RateLimited? && WaitsFor(log, e => CreatedFrom(e, IpText(ip)), now, answer.retryAfter)
    else if LockedOut(log, p, now) then answer.CreateLocked? && LocksFor(log, p, now, answer.ttl)
    else answer == Created(newCode)
  }

  lemma MailSeconds(w: World, email: string)
    requires EmailInv(w, email)
    ensures Live(w.st, EmailLimitKey(email)) <==> MailedRecently(w.log, email, w.st.now)
    ensures Live(w.st, EmailLimitKey(email)) ==> WaitsFor(w.log, e => MailedTo(e, email), w.st.now, Ttl(w.st, EmailLimitKey(email)))
  {
  }

  lemma AddressSeconds(w: World, address: string)
    requires AddressInv(w, address)
    ensures Live(w.st, IpLimitKey(address)) <==> AddressUsedRecently(w.log, address, w.st.now)
    ensures Live(w.st, IpLimitKey(address)) ==> WaitsFor(w.log, e => CreatedFrom(e, address), w.st.now, Ttl(w.st, IpLimitKey(address)))
  {
  }

  lemma CreateAnswers(start: int, ops: seq<Op>, p: Pair, ip: Option<string>, newCode: string)
    requires LegalRun(ops)
    ensures var w := Run(start, ops); AnswersCreate(w.log, p, ip, newCode, w.st.now, CreateCode(w.st, p, ip, newCode).1)
  {
    var w := Run(start, ops);
    RunKeepsInv(start, ops, p, IpText(ip));
    MailSeconds(w, p.email);
    AddressSeconds(w, IpText(ip));
    LockSeconds(w, p);
  }
}
