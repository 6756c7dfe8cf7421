/** What holds of every run of the one-time code service, for any one (e-mail, type) pair. */
module VerificationRuns {
  import opened Wrappers
  import opened VerificationCodes

  // ----- The history only grows, and never runs ahead of the clock -----

  ghost predicate PastOnly(w: World) {
    forall i :: 0 <= i < |w.log| ==> w.log[i].time <= w.st.now
  }

  lemma StepLog(w: World, op: Op)
    ensures var w' := Step(w, op);
      && w.st.now <= w'.st.now
      && (op.Wait? ==> w'.log == w.log && w'.st.store == w.st.store)
      && (!op.Wait? ==> |w'.log| == |w.log| + 1 && w'.log[..|w.log|] == w.log && w'.st.now == w.st.now && w'.log[|w.log|].time == w.st.now)
  {
  }

  // ----- The stored code is the outstanding one -----

  ghost predicate CodeInv(w: World, p: Pair) {
    match Outstanding(w.log, p)
    case None => CodeKey(p) !in w.st.store
    case Some(issue) =>
      && CodeKey(p) in w.st.store
      && w.st.store[CodeKey(p)] == Entry(Text(issue.code), Some(issue.time + CODE_EXPIRY_SECONDS))
      && issue.code != ""
  }

  lemma StepKeepsCode(w: World, op: Op, p: Pair)
    requires LegalOp(op) && CodeInv(w, p)
    ensures CodeInv(Step(w, op), p)
  {
    StepLog(w, op);
  }

  // ----- The lock is the memory of the last lockout -----

  ghost predicate LockInv(w: World, p: Pair) {
    && (LockedKey(p) in w.st.store ==>
          exists i :: 0 <= i < |w.log| && LockoutOf(w.log[i], p) && w.st.store[LockedKey(p)].expiry == Some(w.log[i].time + LOCKOUT_SECONDS))
    && (forall i :: 0 <= i < |w.log| && LockoutOf(w.log[i], p) ==>
          || w.log[i].time + LOCKOUT_SECONDS <= w.st.now
          || (LockedKey(p) in w.st.store && w.st.store[LockedKey(p)].expiry.Some?
              && w.log[i].time + LOCKOUT_SECONDS <= w.st.store[LockedKey(p)].expiry.value))
  }

  /** The lock is set by a lockout, removed by a success, and otherwise left alone. */
  lemma StepLock(w: World, op: Op, p: Pair)
    ensures var w' := Step(w, op); var k := LockedKey(p);
      if op.Verify? && op.p == p && VerifyCode(w.st, p, op.code).1.TooManyAttempts?
      then k in w'.st.store && w'.st.store[k].expiry == Some(w.st.now + LOCKOUT_SECONDS)
      else if op.Verify? && op.p == p && VerifyCode(w.st, p, op.code).1.Verified?
      then !Live(w.st, k) && k !in w'.st.store
      else (k in w'.st.store <==> k in w.st.store) && (k in w.st.store ==> w'.st.store[k] == w.st.store[k])
  {
  }

  lemma StepKeepsLock(w: World, op: Op, p: Pair)
    requires LockInv(w, p) && PastOnly(w)
    ensures LockInv(Step(w, op), p)
  {
    StepLog(w, op);
    StepLock(w, op, p);
    StepKeepsLockEntry(w, op, p);
    StepKeepsLockouts(w, op, p);
  }

  lemma StepKeepsLockEntry(w: World, op: Op, p: Pair)
    requires LockInv(w, p)
    ensures LockedKey(p) in Step(w, op).st.store ==>
      exists i :: 0 <= i < |Step(w, op).log| && LockoutOf(Step(w, op).log[i], p)
               && Step(w, op).st.store[LockedKey(p)].expiry == Some(Step(w, op).log[i].time + LOCKOUT_SECONDS)
  {
    StepLog(w, op);
    StepLock(w, op, p);
    var w' := Step(w, op);
    if LockedKey(p) in w'.st.store {
      if op.Verify? && op.p == p && VerifyCode(w.st, p, op.code).1.TooManyAttempts? {
        assert LockoutOf(w'.log[|w.log|], p);
      } else {
        var i :| 0 <= i < |w.log| && LockoutOf(w.log[i], p) && w.st.store[LockedKey(p)].expiry == Some(w.log[i].time + LOCKOUT_SECONDS);
        assert w'.log[i] == w.log[i];
      }
    }
  }

  lemma StepKeepsLockouts(w: World, op: Op, p: Pair)
    requires LockInv(w, p) && PastOnly(w)
    ensures var w' := Step(w, op);
      forall i :: 0 <= i < |w'.log| && LockoutOf(w'.log[i], p) ==>
          || w'.log[i].time + LOCKOUT_SECONDS <= w'.st.now
          || (LockedKey(p) in w'.st.store && w'.st.store[LockedKey(p)].expiry.Some?
              && w'.log[i].time + LOCKOUT_SECONDS <= w'.st.store[LockedKey(p)].expiry.value)
  {
    StepLog(w, op);
    StepLock(w, op, p);
    var w' := Step(w, op);
    forall i | 0 <= i < |w'.log| && LockoutOf(w'.log[i], p)
      ensures w'.log[i].time + LOCKOUT_SECONDS <= w'.st.now
        || (LockedKey(p) in w'.st.store && w'.st.store[LockedKey(p)].expiry.Some?
            && w'.log[i].time + LOCKOUT_SECONDS <= w'.st.store[LockedKey(p)].expiry.value)
    {
      if i < |w.log| {
        assert w'.log[i] == w.log[i];
      }
    }
  }

  // ----- The attempt counter and the lock -----

  /** A counter at its limit is covered by a lock that outlives it. */
  ghost predicate CounterInv(w: World, p: Pair) {
    AttemptsKey(p) in w.st.store ==>
      var e := w.st.store[AttemptsKey(p)];
      && e.value.Counter? && e.expiry.Some?
      && 1 <= e.value.n <= MAX_ATTEMPTS
      && e.expiry.value <= w.st.now + LOCKOUT_SECONDS
      && (e.value.n == MAX_ATTEMPTS ==>
            && LockedKey(p) in w.st.store && w.st.store[LockedKey(p)].expiry.Some?
            && e.expiry.value <= w.st.store[LockedKey(p)].expiry.value)
  }

  lemma StepKeepsCounter(w: World, op: Op, p: Pair)
    requires CounterInv(w, p)
    ensures CounterInv(Step(w, op), p)
  {
  }

  // ----- Rate limits -----

  /** A step touches the mailbox and address limits only when it is a successful create for them. */
  lemma StepLimits(w: World, op: Op, k: Key)
    requires k.EmailLimitKey? || k.IpLimitKey?
    ensures var w' := Step(w, op);
      if op.Create? && CreateCode(w.st, op.p, op.ip, op.newCode).1.Created?
         && (k == EmailLimitKey(op.p.email) || (op.ip.Some? && op.ip.value != "" && k == IpLimitKey(op.ip.value)))
      then k in w'.st.store && w'.st.store[k] == Entry(Text("1"), Some(w.st.now + RATE_LIMIT_SECONDS))
      else (k in w'.st.store <==> k in w.st.store) && (k in w.st.store ==> w'.st.store[k] == w.st.store[k])
  {
  }

  ghost predicate EmailInv(w: World, email: string) {
    && (EmailLimitKey(email) in w.st.store ==>
          exists i :: 0 <= i < |w.log| && MailedTo(w.log[i], email)
            && w.st.store[EmailLimitKey(email)].expiry == Some(w.log[i].time + RATE_LIMIT_SECONDS))
    && (forall i :: 0 <= i < |w.log| && MailedTo(w.log[i], email) ==>
          || w.log[i].time + RATE_LIMIT_SECONDS <= w.st.now
          || (EmailLimitKey(email) in w.st.store && w.st.store[EmailLimitKey(email)].expiry.Some?
              && w.log[i].time + RATE_LIMIT_SECONDS <= w.st.store[EmailLimitKey(email)].expiry.value))
  }

  lemma StepKeepsEmail(w: World, op: Op, email: string)
    requires EmailInv(w, email) && PastOnly(w)
    ensures EmailInv(Step(w, op), email)
  {
    StepKeepsEmailEntry(w, op, email);
    StepLog(w, op);
    var w' := Step(w, op);
    var k := EmailLimitKey(email);
    StepLimits(w, op, k);
    forall i | 0 <= i < |w'.log| && MailedTo(w'.log[i], email)
      ensures w'.log[i].time + RATE_LIMIT_SECONDS <= w'.st.now
        || (k in w'.st.store && w'.st.store[k].expiry.Some? && w'.log[i].time + RATE_LIMIT_SECONDS <= w'.st.store[k].expiry.value)
    {
      if i < |w.log| {
        assert w'.log[i] == w.log[i];
      }
    }
  }

  lemma StepKeepsEmailEntry(w: World, op: Op, email: string)
    requires EmailInv(w, email)
    ensures var w' := Step(w, op); var k := EmailLimitKey(email);
      k in w'.st.store ==>
        exists i :: 0 <= i < |w'.log| && MailedTo(w'.log[i], email) && w'.st.store[k].expiry == Some(w'.log[i].time + RATE_LIMIT_SECONDS)
  {
    StepLog(w, op);
    var w' := Step(w, op);
    var k := EmailLimitKey(email);
    StepLimits(w, op, k);
    if k in w'.st.store {
      if k in w.st.store && w'.st.store[k] == w.st.store[k] {
        var i :| 0 <= i < |w.log| && MailedTo(w.log[i], email) && w.st.store[k].expiry == Some(w.log[i].time + RATE_LIMIT_SECONDS);
        assert w'.log[i] == w.log[i];
      } else {
        assert MailedTo(w'.log[|w.log|], email);
      }
    }
  }

  ghost predicate AddressInv(w: World, address: string) {
    && (IpLimitKey(address) in w.st.store ==>
          exists i :: 0 <= i < |w.log| && CreatedFrom(w.log[i], address)
            && w.st.store[IpLimitKey(address)].expiry == Some(w.log[i].time + RATE_LIMIT_SECONDS))
    && (forall i :: 0 <= i < |w.log| && CreatedFrom(w.log[i], address) ==>
          || w.log[i].time + RATE_LIMIT_SECONDS <= w.st.now
          || (IpLimitKey(address) in w.st.store && w.st.store[IpLimitKey(address)].expiry.Some?
              && w.log[i].time + RATE_LIMIT_SECONDS <= w.st.store[IpLimitKey(address)].expiry.value))
  }

  lemma StepKeepsAddress(w: World, op: Op, address: string)
    requires AddressInv(w, address) && PastOnly(w)
    ensures AddressInv(Step(w, op), address)
  {
    StepKeepsAddressEntry(w, op, address);
    StepLog(w, op);
    var w' := Step(w, op);
    var k := IpLimitKey(address);
    StepLimits(w, op, k);
    forall i | 0 <= i < |w'.log| && CreatedFrom(w'.log[i], address)
      ensures w'.log[i].time + RATE_LIMIT_SECONDS <= w'.st.now
        || (k in w'.st.store && w'.st.store[k].expiry.Some? && w'.log[i].time + RATE_LIMIT_SECONDS <= w'.st.store[k].expiry.value)
    {
      if i < |w.log| {
        assert w'.log[i] == w.log[i];
      }
    }
  }

  lemma StepKeepsAddressEntry(w: World, op: Op, address: string)
    requires AddressInv(w, address)
    ensures var w' := Step(w, op); var k := IpLimitKey(address);
      k in w'.st.store ==>
        exists i :: 0 <= i < |w'.log| && CreatedFrom(w'.log[i], address) && w'.st.store[k].expiry == Some(w'.log[i].time + RATE_LIMIT_SECONDS)
  {
    StepLog(w, op);
    var w' := Step(w, op);
    var k := IpLimitKey(address);
    StepLimits(w, op, k);
    if k in w'.st.store {
      if k in w.st.store && w'.st.store[k] == w.st.store[k] {
        var i :| 0 <= i < |w.log| && CreatedFrom(w.log[i], address) && w.st.store[k].expiry == Some(w.log[i].time + RATE_LIMIT_SECONDS);
        assert w'.log[i] == w.log[i];
      } else {
        assert CreatedFrom(w'.log[|w.log|], address);
      }
    }
  }

  // ----- All of it, over every run -----

  ghost predicate Inv(w: World, p: Pair, address: string) {
    PastOnly(w) && CodeInv(w, p) && LockInv(w, p) && CounterInv(w, p) && EmailInv(w, p.email) && AddressInv(w, address)
  }

  lemma {:induction false} RunKeepsInv(start: int, ops: seq<Op>, p: Pair, address: string)
    requires LegalRun(ops)
    ensures Inv(Run(start, ops), p, address)
  {
    if ops != [] {
      var before := Run(start, ops[..|ops| - 1]);
      var op := ops[|ops| - 1];
      assert LegalOp(op);
      RunKeepsInv(start, ops[..|ops| - 1], p, address);
      StepLog(before, op);
      StepKeepsCode(before, op, p);
      StepKeepsLock(before, op, p);
      StepKeepsCounter(before, op, p);
      StepKeepsEmail(before, op, p.email);
      StepKeepsAddress(before, op, address);
      assert PastOnly(Step(before, op));
    }
  }

  /** A verification succeeds exactly when history says the pair is not locked out and this very code is outstanding and fresh. */
  lemma VerifyRefinesHistory(start: int, ops: seq<Op>, p: Pair, code: string)
    requires LegalRun(ops)
    ensures var w := Run(start, ops);
      VerifyCode(w.st, p, code).1.Verified?
      <==> (&& !LockedOut(w.log, p, w.st.now)
            && Outstanding(w.log, p).Some?
            && Outstanding(w.log, p).value.code == code
            && w.st.now < Outstanding(w.log, p).value.time + CODE_EXPIRY_SECONDS)
  {
    RunKeepsInv(start, ops, p, "");
  }

  /** A code goes out exactly when the type is known, the pair is not locked out and neither the mailbox nor the address was used within a minute. */
  lemma CreateRefinesHistory(start: int, ops: seq<Op>, p: Pair, ip: Option<string>, newCode: string)
    requires LegalRun(ops)
    ensures var w := Run(start, ops);
      CreateCode(w.st, p, ip, newCode).1.Created?
      <==> (&& p.codeType in VALID_TYPES
            && !LockedOut(w.log, p, w.st.now)
            && !MailedRecently(w.log, p.email, w.st.now)
            && !AddressUsedRecently(w.log, IpText(ip), w.st.now))
  {
    RunKeepsInv(start, ops, p, IpText(ip));
  }

  /** Any two codes sent to one mailbox, or requested from one address, are at least a minute apart. */
  lemma {:induction false} CreatesAreSpaced(start: int, ops: seq<Op>, i: nat, j: nat)
    requires LegalRun(ops)
    requires i < j < |Run(start, ops).log|
    requires var log := Run(start, ops).log;
      && log[i].CreateEvent? && log[i].created.Created? && log[j].CreateEvent? && log[j].created.Created?
      && (log[i].p.email == log[j].p.email || (log[i].ip.Some? && log[i].ip.value != "" && log[i].ip == log[j].ip))
    ensures var log := Run(start, ops).log; log[i].time + RATE_LIMIT_SECONDS <= log[j].time
  {
    var init, op := ops[..|ops| - 1], ops[|ops| - 1];
    var before := Run(start, init);
    StepLog(before, op);
    var log := Run(start, ops).log;
    assert log[i] == before.log[i];
    if j < |before.log| {
      assert log[j] == before.log[j];
      CreatesAreSpaced(start, init, i, j);
    } else {
      var p, ip := op.p, op.ip;
      CreateRefinesHistory(start, init, p, ip, op.newCode);
      if log[i].p.email == log[j].p.email {
        assert MailedTo(before.log[i], p.email);
      } else {
        assert CreatedFrom(before.log[i], IpText(ip));
      }
    }
  }

  /** The counter never passes its limit, and "no attempts left" means exactly "locked". */
  lemma NoAttemptsLeftIffLocked(start: int, ops: seq<Op>, p: Pair)
    requires LegalRun(ops)
    ensures var s := Run(start, ops).st;
      && 0 <= Count(s, AttemptsKey(p)) <= MAX_ATTEMPTS
      && (RemainingAttempts(s, p) == 0 <==> Live(s, LockedKey(p)))
  {
    RunKeepsInv(start, ops, p, "");
  }

  /** A counter that shows five is covered by a lock that expires no earlier. */
  lemma FifthFailureIsCovered(start: int, ops: seq<Op>, p: Pair)
    requires LegalRun(ops) && Count(Run(start, ops).st, AttemptsKey(p)) >= MAX_ATTEMPTS
    ensures var s := Run(start, ops).st;
      && Live(s, AttemptsKey(p)) && Live(s, LockedKey(p))
      && s.store[AttemptsKey(p)].expiry.Some? && s.store[LockedKey(p)].expiry.Some?
      && s.store[AttemptsKey(p)].expiry.value <= s.store[LockedKey(p)].expiry.value
  {
    RunKeepsInv(start, ops, p, "");
  }

  /** For the full half hour after a lockout every call for the pair fails and leaves the store as it was. */
  lemma LockoutFreezesPair(start: int, ops: seq<Op>, p: Pair, i: nat, code: string, ip: Option<string>, newCode: string)
    requires LegalRun(ops)
    requires i < |Run(start, ops).log| && LockoutOf(Run(start, ops).log[i], p)
    requires Run(start, ops).st.now < Run(start, ops).log[i].time + LOCKOUT_SECONDS
    ensures var s := Run(start, ops).st;
      && VerifyCode(s, p, code).1.VerifyLocked? && VerifyCode(s, p, code).0 == s
      && !CreateCode(s, p, ip, newCode).1.Created? && CreateCode(s, p, ip, newCode).0 == s
      && RemainingAttempts(s, p) == 0
  {
    RunKeepsInv(start, ops, p, "");
  }

  // ----- The brute-force bound -----

  /** How many guesses can already have been counted inside the window, by the state of counter and lock. */
  ghost predicate WindowInv(w: World, p: Pair, from: int) {
    var c := GuessesInWindow(w.log, p, from);
    var end := from + LOCKOUT_SECONDS;
    && (NoSuccessInWindow(w.log, p, from) ==> c <= 8)
    && (w.st.now < from ==> c == 0)
    && (w.st.now < end && NoSuccessInWindow(w.log, p, from) ==>
          if Live(w.st, LockedKey(p)) && w.st.store[LockedKey(p)].expiry.Some? && end <= w.st.store[LockedKey(p)].expiry.value then true
          else if Live(w.st, AttemptsKey(p)) then
            var e := w.st.store[AttemptsKey(p)];
            && e.value.Counter? && e.expiry.Some?
            && (e.expiry.value < end ==> c < e.value.n && (e.value.n == MAX_ATTEMPTS ==> c == 0))
            && (end <= e.expiry.value ==> c <= 3 + e.value.n && e.value.n < MAX_ATTEMPTS)
          else c <= 3)
  }

  /** What a step adds to the count, and that successes already in the window stay there. */
  lemma StepGuesses(w: World, op: Op, p: Pair, from: int)
    ensures var w' := Step(w, op); var inside := from <= w.st.now < from + LOCKOUT_SECONDS;
      && (NoSuccessInWindow(w'.log, p, from) ==>
            NoSuccessInWindow(w.log, p, from) && (inside && op.Verify? && op.p == p ==> !VerifyCode(w.st, p, op.code).1.Verified?))
      && GuessesInWindow(w'.log, p, from) == GuessesInWindow(w.log, p, from)
         + if inside && op.Verify? && op.p == p
              && (VerifyCode(w.st, p, op.code).1.InvalidCode? || VerifyCode(w.st, p, op.code).1.TooManyAttempts?) then 1 else 0
  {
    StepLog(w, op);
    var w' := Step(w, op);
    if !op.Wait? {
      assert w'.log[..|w'.log| - 1] == w.log;
      var e := w'.log[|w.log|];
      assert VerifiedFor(e, p) <==> op.Verify? && op.p == p && VerifyCode(w.st, p, op.code).1.Verified?;
    }
    if NoSuccessInWindow(w'.log, p, from) {
      forall i | 0 <= i < |w.log| && VerifiedFor(w.log[i], p)
        ensures !(from <= w.log[i].time < from + LOCKOUT_SECONDS)
      {
        assert w'.log[i] == w.log[i];
      }
    }
  }

  lemma StepKeepsWindowQuietly(w: World, op: Op, p: Pair, from: int)
    requires CounterInv(w, p) && WindowInv(w, p, from) && !(op.Verify? && op.p == p)
    ensures WindowInv(Step(w, op), p, from)
  {
    StepLog(w, op);
    StepGuesses(w, op, p, from);
    StepQuiet(w, op, p);
    WindowMoves(w, Step(w, op), p, from);
  }

  /** Counter and lock of the pair hold the same in both worlds. */
  predicate SameGuard(w: World, w': World, p: Pair) {
    forall k :: k in {AttemptsKey(p), LockedKey(p)} ==>
      (k in w'.st.store <==> k in w.st.store) && (k in w.st.store ==> w'.st.store[k] == w.st.store[k])
  }

  /** Waiting, creating and calls for other pairs leave counter and lock as they are. */
  lemma StepQuiet(w: World, op: Op, p: Pair)
    requires !(op.Verify? && op.p == p)
    ensures SameGuard(w, Step(w, op), p)
  {
  }

  /** As time passes and nothing is counted, the window only becomes harder to fill. */
  lemma WindowMoves(w: World, w': World, p: Pair, from: int)
    requires CounterInv(w, p) && WindowInv(w, p, from) && SameGuard(w, w', p) && w.st.now <= w'.st.now
    requires GuessesInWindow(w'.log, p, from) == GuessesInWindow(w.log, p, from)
    requires NoSuccessInWindow(w'.log, p, from) ==> NoSuccessInWindow(w.log, p, from)
    ensures WindowInv(w', p, from)
  {
    var a, l := AttemptsKey(p), LockedKey(p);
    assert (a in w'.st.store <==> a in w.st.store) && (a in w.st.store ==> w'.st.store[a] == w.st.store[a]);
    assert (l in w'.st.store <==> l in w.st.store) && (l in w.st.store ==> w'.st.store[l] == w.st.store[l]);
  }

  lemma StepKeepsWindow(w: World, op: Op, p: Pair, from: int)
    requires PastOnly(w) && CounterInv(w, p) && WindowInv(w, p, from)
    ensures WindowInv(Step(w, op), p, from)
  {
    if op.Verify? && op.p == p {
      StepGuesses(w, op, p, from);
    } else {
      StepKeepsWindowQuietly(w, op, p, from);
    }
  }

  lemma {:induction false} RunKeepsWindow(start: int, ops: seq<Op>, p: Pair, from: int)
    requires LegalRun(ops)
    ensures WindowInv(Run(start, ops), p, from)
  {
    if ops != [] {
      var init, op := ops[..|ops| - 1], ops[|ops| - 1];
      RunKeepsWindow(start, init, p, from);
      RunKeepsInv(start, init, p, "");
      StepKeepsWindow(Run(start, init), op, p, from);
    }
  }

  /** No window of half an hour without a success holds more than eight counted wrong guesses against one pair. */
  lemma BruteForceBound(start: int, ops: seq<Op>, p: Pair, from: int)
    requires LegalRun(ops)
    requires NoSuccessInWindow(Run(start, ops).log, p, from)
    ensures GuessesInWindow(Run(start, ops).log, p, from) <= 8
  {
    RunKeepsWindow(start, ops, p, from);
  }

  // ----- The bound is reached -----

  /** `n` guesses are on the counter until `x`, and `c` guesses fell into the window. */
  ghost predicate Tally(w: World, p: Pair, from: int, n: nat, x: int, c: nat) {
    && (if n == 0 then !Live(w.st, AttemptsKey(p))
        else AttemptsKey(p) in w.st.store && w.st.store[AttemptsKey(p)] == Entry(Counter(n), Some(x)) && w.st.now < x)
    && GuessesInWindow(w.log, p, from) == c
    && (forall i :: 0 <= i < |w.log| ==> !VerifiedFor(w.log[i], p))
  }

  /** Besides, a fresh code is out and the pair is not locked. */
  ghost predicate Scene(w: World, p: Pair, from: int, n: nat, x: int, c: nat) {
    && CodeKey(p) in w.st.store && w.st.store[CodeKey(p)].value == Text("1")
    && Live(w.st, CodeKey(p)) && !Live(w.st, LockedKey(p))
    && Tally(w, p, from, n, x, c)
  }

  lemma RunSnoc(start: int, ops: seq<Op>, op: Op)
    ensures Run(start, ops + [op]) == Step(Run(start, ops), op)
  {
  }

  lemma WrongGuessInScene(w: World, p: Pair, from: int, n: nat, x: int, c: nat)
    requires Scene(w, p, from, n, x, c) && n < 4
    ensures VerifyCode(w.st, p, "2").1.InvalidCode?
    ensures VerifyCode(w.st, p, "2").0 == w.st.(store := w.st.store[AttemptsKey(p) :=
              Entry(Counter(n + 1), Some(if n == 0 then w.st.now + LOCKOUT_SECONDS else x))])
  {
  }

  lemma GuessInScene(w: World, p: Pair, from: int, n: nat, x: int, c: nat)
    requires Scene(w, p, from, n, x, c) && n < 4
    ensures var w' := Step(w, Verify(p, "2"));
      && w'.st.now == w.st.now && w'.st.store - {AttemptsKey(p)} == w.st.store - {AttemptsKey(p)}
      && Scene(w', p, from, n + 1, if n == 0 then w.st.now + LOCKOUT_SECONDS else x,
               if from <= w.st.now < from + LOCKOUT_SECONDS then c + 1 else c)
  {
    var w', x' := Step(w, Verify(p, "2")), if n == 0 then w.st.now + LOCKOUT_SECONDS else x;
    WrongGuessInScene(w, p, from, n, x, c);
    StepGuesses(w, Verify(p, "2"), p, from);
    TallyGrows(w, w', p, from, n, x', GuessesInWindow(w'.log, p, from));
    SceneGoesOn(w, w', p, from, n, x, c, x', GuessesInWindow(w'.log, p, from));
  }

  lemma SceneGoesOn(w: World, w': World, p: Pair, from: int, n: nat, x: int, c: nat, x': int, c': nat)
    requires Scene(w, p, from, n, x, c) && Tally(w', p, from, n + 1, x', c')
    requires w'.st == w.st.(store := w.st.store[AttemptsKey(p) := Entry(Counter(n + 1), Some(x'))])
    ensures w'.st.now == w.st.now && w'.st.store - {AttemptsKey(p)} == w.st.store - {AttemptsKey(p)}
    ensures Scene(w', p, from, n + 1, x', c')
  {
  }

  lemma TallyGrows(w: World, w': World, p: Pair, from: int, n: nat, x: int, c: nat)
    requires w' == Step(w, Verify(p, "2")) && VerifyCode(w.st, p, "2").1.InvalidCode?
    requires forall i :: 0 <= i < |w.log| ==> !VerifiedFor(w.log[i], p)
    requires w'.st == w.st.(store := w.st.store[AttemptsKey(p) := Entry(Counter(n + 1), Some(x))]) && w.st.now < x
    requires GuessesInWindow(w'.log, p, from) == c
    ensures Tally(w', p, from, n + 1, x, c)
  {
  }

  /** One more wrong guess that does not lock. */
  lemma GuessOnce(start: int, ops: seq<Op>, p: Pair, from: int, n: nat, x: int, c: nat) returns (more: seq<Op>)
    requires LegalRun(ops) && n < 4 && Scene(Run(start, ops), p, from, n, x, c)
    ensures LegalRun(more)
    ensures var w, w' := Run(start, ops), Run(start, more);
      && w'.st.now == w.st.now && w'.st.store - {AttemptsKey(p)} == w.st.store - {AttemptsKey(p)}
      && Scene(w', p, from, n + 1, if n == 0 then w.st.now + LOCKOUT_SECONDS else x,
               if from <= w.st.now < from + LOCKOUT_SECONDS then c + 1 else c)
  {
    more := ops + [Verify(p, "2")];
    RunSnoc(start, ops, Verify(p, "2"));
    GuessInScene(Run(start, ops), p, from, n, x, c);
  }

  ghost predicate MaySend(w: World, p: Pair) {
    && p.codeType in VALID_TYPES
    && !Live(w.st, EmailLimitKey(p.email)) && !Live(w.st, IpLimitKey("None")) && !Live(w.st, LockedKey(p))
  }

  /** A code is sent: nothing else of the scene changes. */
  lemma SendCode(start: int, ops: seq<Op>, p: Pair, from: int, n: nat, x: int, c: nat) returns (more: seq<Op>)
    requires LegalRun(ops) && MaySend(Run(start, ops), p) && Tally(Run(start, ops), p, from, n, x, c)
    ensures LegalRun(more)
    ensures var w, w' := Run(start, ops), Run(start, more);
      && w'.st.now == w.st.now && Scene(w', p, from, n, x, c)
      && w'.st.store[CodeKey(p)].expiry == Some(w.st.now + CODE_EXPIRY_SECONDS)
      && EmailLimitKey(p.email) in w'.st.store && w'.st.store[EmailLimitKey(p.email)].expiry == Some(w.st.now + RATE_LIMIT_SECONDS)
      && !Live(w'.st, IpLimitKey("None"))
  {
    more := ops + [Create(p, None, "1")];
    SendInScene(Run(start, ops), p, from, n, x, c);
    RunSnoc(start, ops, Create(p, None, "1"));
    assert Run(start, more) == Step(Run(start, ops), Create(p, None, "1"));
  }

  lemma SendInScene(w: World, p: Pair, from: int, n: nat, x: int, c: nat)
    requires MaySend(w, p) && Tally(w, p, from, n, x, c)
    ensures var w' := Step(w, Create(p, None, "1"));
      && w'.st.now == w.st.now && Scene(w', p, from, n, x, c)
      && w'.st.store[CodeKey(p)].expiry == Some(w.st.now + CODE_EXPIRY_SECONDS)
      && EmailLimitKey(p.email) in w'.st.store && w'.st.store[EmailLimitKey(p.email)].expiry == Some(w.st.now + RATE_LIMIT_SECONDS)
      && !Live(w'.st, IpLimitKey("None"))
  {
  }

  /** Time passes while the code stays valid. */
  lemma LetPass(start: int, ops: seq<Op>, p: Pair, from: int, n: nat, x: int, c: nat, d: nat) returns (more: seq<Op>)
    requires LegalRun(ops) && Tally(Run(start, ops), p, from, n, x, c)
    ensures LegalRun(more)
    ensures var w, w' := Run(start, ops), Run(start, more);
      w'.st.now == w.st.now + d && w'.st.store == w.st.store
      && Tally(w', p, from, if n > 0 && x <= w'.st.now then 0 else n, x, c)
  {
    more := ops + [Wait(d)];
    RunSnoc(start, ops, Wait(d));
  }

  /** A first code, one guess, and a second code sent nine seconds before that guess is forgotten. */
  lemma LeadIn(p: Pair, from: int) returns (ops: seq<Op>)
    requires p.codeType in VALID_TYPES && from == 1791
    ensures LegalRun(ops) && Scene(Run(0, ops), p, from, 1, 1800, 0) && Run(0, ops).st.now == 1791
    ensures Run(0, ops).st.store[CodeKey(p)].expiry == Some(2091)
  {
    ops := SendCode(0, [], p, from, 0, 0, 0);
    ops := GuessOnce(0, ops, p, from, 0, 0, 0);
    assert EmailLimitKey(p.email) in Run(0, ops).st.store - {AttemptsKey(p)};
    assert Live(Run(0, ops).st, IpLimitKey("None")) ==> IpLimitKey("None") in Run(0, ops).st.store - {AttemptsKey(p)};
    ops := LetPass(0, ops, p, from, 1, 1800, 0, 1791);
    ops := SendCode(0, ops, p, from, 1, 1800, 0);
  }

  /** `k` more wrong guesses inside the window, none of them the fifth. */
  lemma {:induction false} GuessMore(start: int, ops: seq<Op>, p: Pair, from: int, n: nat, x: int, c: nat, k: nat) returns (more: seq<Op>)
    requires LegalRun(ops) && 1 <= n && n + k <= 4 && Scene(Run(start, ops), p, from, n, x, c)
    requires from <= Run(start, ops).st.now < from + LOCKOUT_SECONDS
    ensures LegalRun(more)
    ensures var w, w' := Run(start, ops), Run(start, more);
      && w'.st.now == w.st.now && w'.st.store - {AttemptsKey(p)} == w.st.store - {AttemptsKey(p)}
      && Scene(w', p, from, n + k, x, c + k)
    decreases k
  {
    more := ops;
    if k > 0 {
      more := GuessOnce(start, ops, p, from, n, x, c);
      more := GuessMore(start, more, p, from, n + 1, x, c + 1, k - 1);
    }
  }

  lemma LastGuess(start: int, ops: seq<Op>, p: Pair, from: int, x: int, c: nat) returns (more: seq<Op>)
    requires LegalRun(ops) && Scene(Run(start, ops), p, from, 4, x, c)
    requires from <= Run(start, ops).st.now < from + LOCKOUT_SECONDS
    ensures LegalRun(more)
    ensures NoSuccessInWindow(Run(start, more).log, p, from)
    ensures GuessesInWindow(Run(start, more).log, p, from) == c + 1
  {
    var guess := Verify(p, "2");
    var w := Run(start, ops);
    RunSnoc(start, ops, guess);
    StepLog(w, guess);
    more := ops + [guess];
    var w' := Run(start, more);
    assert w'.log[..|w'.log| - 1] == w.log;
    assert WrongGuess(w'.log[|w.log|], p);
  }

  /** Three guesses in the window, and nine seconds until the counter starts afresh. */
  lemma ThreeLeftOver(p: Pair) returns (ops: seq<Op>)
    requires p.codeType in VALID_TYPES
    ensures LegalRun(ops) && Scene(Run(0, ops), p, 1791, 4, 1800, 3) && Run(0, ops).st.now == 1791
    ensures Run(0, ops).st.store[CodeKey(p)].expiry == Some(2091)
  {
    ops := LeadIn(p, 1791);
    assert CodeKey(p) in Run(0, ops).st.store - {AttemptsKey(p)};
    ops := GuessMore(0, ops, p, 1791, 1, 1800, 0, 3);
    assert CodeKey(p) in Run(0, ops).st.store - {AttemptsKey(p)};
  }

  /** The bound is exact: in some run the window from second 1791 holds eight wrong guesses and no success. */
  lemma BruteForceBoundIsReached(p: Pair) returns (ops: seq<Op>)
    requires p.codeType in VALID_TYPES
    ensures LegalRun(ops)
    ensures NoSuccessInWindow(Run(0, ops).log, p, 1791)
    ensures GuessesInWindow(Run(0, ops).log, p, 1791) == 8
  {
    ops := ThreeLeftOver(p);
    ops := LetPass(0, ops, p, 1791, 4, 1800, 3, 9);
    ops := GuessOnce(0, ops, p, 1791, 0, 1800, 3);
    ops := GuessMore(0, ops, p, 1791, 1, 3600, 4, 3);
    ops := LastGuess(0, ops, p, 1791, 3600, 7);
  }
}
