/**
 The one-time code service: a timed state machine over a TTL key store.

 `State` is the store at one instant; `CreateCode` and `VerifyCode` say what one service call does to it.
 `World` adds the history of calls, against which the service is specified.
 `VerificationService` is the service in the shape of the source, proved to take exactly these steps.
 */
module VerificationCodes {
  import opened Wrappers

  const CODE_EXPIRY_SECONDS := 300
  const RATE_LIMIT_SECONDS := 60
  const MAX_ATTEMPTS := 5
  const LOCKOUT_SECONDS := 1800
  const VALID_TYPES: set<string> := {"login", "bind", "reset"}

  // ----- The key store -----

  datatype Pair = Pair(email: string, codeType: string)

  datatype Key =
    | CodeKey(p: Pair)
    | EmailLimitKey(email: string)
    | IpLimitKey(ip: string)
    | AttemptsKey(p: Pair)
    | LockedKey(p: Pair)

  function KindText(k: Key): string {
    match k
    case CodeKey(_) => "verify_code:"
    case EmailLimitKey(_) => "rate_limit:email:"
    case IpLimitKey(_) => "rate_limit:ip:"
    case AttemptsKey(_) => "verify_attempts:"
    case LockedKey(_) => "verify_locked:"
  }

  function Subject(k: Key): string {
    match k
    case EmailLimitKey(email) => email
    case IpLimitKey(ip) => ip
    case CodeKey(p) => p.email + ":" + p.codeType
    case AttemptsKey(p) => p.email + ":" + p.codeType
    case LockedKey(p) => p.email + ":" + p.codeType
  }

  /** The text the key has in the store. */
  function KeyText(k: Key): string { KindText(k) + Subject(k) }

  function TypeOf(k: Key): string {
    match k
    case CodeKey(p) => p.codeType
    case AttemptsKey(p) => p.codeType
    case LockedKey(p) => p.codeType
    case _ => ""
  }

  lemma SuffixAfterColon(e1: string, t1: string, e2: string, t2: string)
    requires e1 + ":" + t1 == e2 + ":" + t2
    requires ':' !in t1 && ':' !in t2
    ensures e1 == e2 && t1 == t2
  {
    var s1, s2 := e1 + ":" + t1, e2 + ":" + t2;
    forall k | |e1| < k < |s1| ensures s1[k] != ':' { assert s1[k] == t1[k - |e1| - 1]; }
    forall k | |e2| < k < |s2| ensures s2[k] != ':' { assert s2[k] == t2[k - |e2| - 1]; }
    assert s1[|e1|] == ':' && s2[|e2|] == ':';
    assert |e1| == |e2|;
    assert s1[..|e1|] == e1 && s2[..|e2|] == e2;
    assert s1[|e1| + 1..] == t1 && s2[|e2| + 1..] == t2;
  }

  lemma DropPrefix(pre: string, a: string, b: string)
    requires pre + a == pre + b
    ensures a == b
  {
    assert (pre + a)[|pre|..] == a;
    assert (pre + b)[|pre|..] == b;
  }

  /** Two characters tell the kinds apart. */
  lemma KindChars(k: Key)
    ensures var s := KeyText(k); |s| >= 12 && s[7] == KindText(k)[7] && s[11] == KindText(k)[11]
    ensures |KindText(k)| >= 12
  {
  }

  /** Different keys have different texts as long as no code type contains a colon, so the store may be keyed by `Key`. */
  lemma KeyTextInjective(a: Key, b: Key)
    requires ':' !in TypeOf(a) && ':' !in TypeOf(b)
    requires KeyText(a) == KeyText(b)
    ensures a == b
  {
    KindChars(a);
    KindChars(b);
    DropPrefix(KindText(a), Subject(a), Subject(b));
    if !a.EmailLimitKey? && !a.IpLimitKey? {
      SuffixAfterColon(a.p.email, a.p.codeType, b.p.email, b.p.codeType);
    }
  }

  datatype Value = Text(s: string) | Counter(n: int)
  datatype Entry = Entry(value: Value, expiry: Option<int>)
  type Store = map<Key, Entry>
  datatype State = State(now: int, store: Store)

  /** An entry is visible strictly before its expiry; what is left of it afterwards cannot be observed. */
  predicate Live(s: State, k: Key) {
    k in s.store && (s.store[k].expiry.None? || s.now < s.store[k].expiry.value)
  }

  function Ttl(s: State, k: Key): int
    requires Live(s, k)
  {
    if s.store[k].expiry.None? then -1 else s.store[k].expiry.value - s.now
  }

  function SetEx(s: State, k: Key, seconds: int, text: string): State {
    s.(store := s.store[k := Entry(Text(text), Some(s.now + seconds))])
  }

  function Delete(s: State, k: Key): State {
    s.(store := s.store - {k})
  }

  /** The number a counter key shows; a missing counter shows 0. */
  function Count(s: State, k: Key): int {
    if Live(s, k) && s.store[k].value.Counter? then s.store[k].value.n else 0
  }

  /** Incrementing a missing counter starts it at 1 without an expiry; otherwise the expiry stays. */
  function Incr(s: State, k: Key): State {
    s.(store := s.store[k := Entry(Counter(Count(s, k) + 1), if Live(s, k) then s.store[k].expiry else None)])
  }

  function Expire(s: State, k: Key, seconds: int): State
    requires k in s.store
  {
    s.(store := s.store[k := s.store[k].(expiry := Some(s.now + seconds))])
  }

  // ----- The service calls -----

  datatype CreateResult = Created(code: string) | InvalidType | RateLimited(retryAfter: int) | CreateLocked(ttl: int)
  datatype VerifyResult = Verified | CodeExpired | InvalidCode(remaining: int) | TooManyAttempts(attempts: int) | VerifyLocked(ttl: int)

  /** An absent address still names a key when it is checked: the key's text is formatted with "None". */
  function IpText(ip: Option<string>): string {
    match ip
    case None => "None"
    case Some(x) => x
  }

  function RateLimit(s: State, email: string, ip: Option<string>): Option<int> {
    if Live(s, EmailLimitKey(email)) then Some(Ttl(s, EmailLimitKey(email)))
    else if Live(s, IpLimitKey(IpText(ip))) then Some(Ttl(s, IpLimitKey(IpText(ip))))
    else None
  }

  function CreateCode(s: State, p: Pair, ip: Option<string>, newCode: string): (State, CreateResult) {
    if p.codeType !in VALID_TYPES then (s, InvalidType)
    else if RateLimit(s, p.email, ip).Some? then (s, RateLimited(RateLimit(s, p.email, ip).value))
    else if Live(s, LockedKey(p)) then (s, CreateLocked(Ttl(s, LockedKey(p))))
    else
      var s1 := SetEx(s, CodeKey(p), CODE_EXPIRY_SECONDS, newCode);
      var s2 := SetEx(s1, EmailLimitKey(p.email), RATE_LIMIT_SECONDS, "1");
      var s3 := if ip.Some? && ip.value != "" then SetEx(s2, IpLimitKey(ip.value), RATE_LIMIT_SECONDS, "1") else s2;
      (s3, Created(newCode))
  }

  /** The stored code; an empty one reads as missing. */
  function StoredCode(s: State, p: Pair): string {
    if Live(s, CodeKey(p)) && s.store[CodeKey(p)].value.Text? then s.store[CodeKey(p)].value.s else ""
  }

  function CountFailure(s: State, p: Pair): State {
    var s1 := Incr(s, AttemptsKey(p));
    if Count(s1, AttemptsKey(p)) == 1 then Expire(s1, AttemptsKey(p), LOCKOUT_SECONDS) else s1
  }

  function VerifyCode(s: State, p: Pair, code: string): (State, VerifyResult) {
    if Live(s, LockedKey(p)) then (s, VerifyLocked(Ttl(s, LockedKey(p))))
    else if StoredCode(s, p) == "" then (s, CodeExpired)
    else if StoredCode(s, p) != code then
      var attempts := Count(s, AttemptsKey(p)) + 1;
      var s1 := CountFailure(s, p);
      if attempts >= MAX_ATTEMPTS then (SetEx(s1, LockedKey(p), LOCKOUT_SECONDS, "1"), TooManyAttempts(attempts))
      else (s1, InvalidCode(MAX_ATTEMPTS - attempts))
    else
      (Delete(Delete(Delete(s, CodeKey(p)), AttemptsKey(p)), LockedKey(p)), Verified)
  }

  function RemainingAttempts(s: State, p: Pair): int {
    if Live(s, LockedKey(p)) then 0
    else
      var left := MAX_ATTEMPTS - Count(s, AttemptsKey(p));
      if left < 0 then 0 else left
  }

  // ----- Runs and their history -----

  datatype Op =
    | Create(p: Pair, ip: Option<string>, newCode: string)
    | Verify(p: Pair, code: string)
    | Wait(seconds: nat)

  datatype Event =
    | CreateEvent(time: int, p: Pair, ip: Option<string>, created: CreateResult)
    | VerifyEvent(time: int, p: Pair, code: string, verified: VerifyResult)

  datatype World = World(st: State, log: seq<Event>)

  /** A generated code is never empty; nothing else is assumed of it. */
  predicate LegalOp(op: Op) {
    op.Create? ==> op.newCode != ""
  }

  function Step(w: World, op: Op): World {
    match op
    case Create(p, ip, newCode) =>
      var (s, r) := CreateCode(w.st, p, ip, newCode);
      World(s, w.log + [CreateEvent(w.st.now, p, ip, r)])
    case Verify(p, code) =>
      var (s, r) := VerifyCode(w.st, p, code);
      World(s, w.log + [VerifyEvent(w.st.now, p, code, r)])
    case Wait(seconds) => w.(st := w.st.(now := w.st.now + seconds))
  }

  function Run(start: int, ops: seq<Op>): World {
    if ops == [] then World(State(start, map[]), [])
    else Step(Run(start, ops[..|ops| - 1]), ops[|ops| - 1])
  }

  predicate LegalRun(ops: seq<Op>) {
    forall i :: 0 <= i < |ops| ==> LegalOp(ops[i])
  }

  // ----- What the history says -----

  predicate CreatedFor(e: Event, p: Pair) { e.CreateEvent? && e.p == p && e.created.Created? }
  predicate VerifiedFor(e: Event, p: Pair) { e.VerifyEvent? && e.p == p && e.verified.Verified? }
  predicate LockoutOf(e: Event, p: Pair) { e.VerifyEvent? && e.p == p && e.verified.TooManyAttempts? }
  predicate WrongGuess(e: Event, p: Pair) { e.VerifyEvent? && e.p == p && (e.verified.InvalidCode? || e.verified.TooManyAttempts?) }

  datatype Issue = Issue(code: string, time: int)

  /** The latest successful create for the pair, unless a later verification consumed it. */
  function Outstanding(log: seq<Event>, p: Pair): Option<Issue> {
    if log == [] then None
    else
      var e := log[|log| - 1];
      if CreatedFor(e, p) then Some(Issue(e.created.code, e.time))
      else if VerifiedFor(e, p) then None
      else Outstanding(log[..|log| - 1], p)
  }

  /** The pair failed for the fifth time less than half an hour ago. */
  predicate LockedOut(log: seq<Event>, p: Pair, now: int) {
    exists i :: 0 <= i < |log| && LockoutOf(log[i], p) && now < log[i].time + LOCKOUT_SECONDS
  }

  predicate MailedTo(e: Event, email: string) { e.CreateEvent? && e.created.Created? && e.p.email == email }

  /** Some code went out to this e-mail address less than a minute ago. */
  predicate MailedRecently(log: seq<Event>, email: string, now: int) {
    exists i :: 0 <= i < |log| && MailedTo(log[i], email) && now < log[i].time + RATE_LIMIT_SECONDS
  }

  predicate CreatedFrom(e: Event, address: string) {
    e.CreateEvent? && e.created.Created? && e.ip.Some? && e.ip.value != "" && e.ip.value == address
  }

  predicate AddressUsedRecently(log: seq<Event>, address: string, now: int) {
    exists i :: 0 <= i < |log| && CreatedFrom(log[i], address) && now < log[i].time + RATE_LIMIT_SECONDS
  }

  /** Wrong guesses counted against the pair in the half-open window of 1800 seconds from `w`. */
  function GuessesInWindow(log: seq<Event>, p: Pair, w: int): nat {
    if log == [] then 0
    else
      var e := log[|log| - 1];
      GuessesInWindow(log[..|log| - 1], p, w)
      + if WrongGuess(e, p) && w <= e.time < w + LOCKOUT_SECONDS then 1 else 0
  }

  predicate NoSuccessInWindow(log: seq<Event>, p: Pair, w: int) {
    forall i :: 0 <= i < |log| && VerifiedFor(log[i], p) ==> !(w <= log[i].time < w + LOCKOUT_SECONDS)
  }
}
