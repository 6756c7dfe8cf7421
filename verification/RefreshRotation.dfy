/**
 Sessions and their single-use refresh tokens. A token stands for its hash; every issued token is new, which is what
 random token identifiers and an injective hash amount to.
 */
module RefreshRotation {
  import opened Wrappers

  type Token = nat

  datatype Session = Session(user: nat, access: Token, refresh: Token, active: bool, lastActivity: int, expiresAt: int)

  /** `next` is the first token not issued yet; `life` is how long a refresh token lasts. */
  datatype State = State(sessions: seq<Session>, next: Token, now: int, life: nat)

  /**
   `jwt` is what the signature check of the presented token yields, `known` whether that user still exists and `bearer` the
   access token a logout carries.
   */
  datatype Op =
    | Login(user: nat, authenticated: bool)
    | Refresh(token: Token, jwt: Option<nat>, known: bool)
    | Logout(bearer: Option<Token>)
    | Wait(duration: nat)

  datatype Answer = Issued(session: nat) | Unauthorized | LoggedOut(revoked: bool) | Waited

  function ByRefresh(sessions: seq<Session>, token: Token): (r: Option<nat>)
    ensures if r.Some? then r.value < |sessions| && sessions[r.value].refresh == token
            else forall k :: 0 <= k < |sessions| ==> sessions[k].refresh != token
  {
    if sessions == [] then None
    else if sessions[|sessions| - 1].refresh == token then Some(|sessions| - 1)
    else ByRefresh(sessions[..|sessions| - 1], token)
  }

  function ByAccess(sessions: seq<Session>, token: Token): (r: Option<nat>)
    ensures if r.Some? then r.value < |sessions| && sessions[r.value].access == token
            else forall k :: 0 <= k < |sessions| ==> sessions[k].access != token
  {
    if sessions == [] then None
    else if sessions[|sessions| - 1].access == token then Some(|sessions| - 1)
    else ByAccess(sessions[..|sessions| - 1], token)
  }

  function Create(s: State, user: nat): State {
    s.(sessions := s.sessions + [Session(user, s.next, s.next + 1, true, s.now, s.now + s.life)], next := s.next + 2)
  }

  function Deactivate(s: State, k: nat): State
    requires k < |s.sessions|
  {
    s.(sessions := s.sessions[k := s.sessions[k].(active := false, lastActivity := s.now)])
  }

  /** The row the token consumes, if any; a row found active is inactive afterwards, expired or not. */
  function Consume(s: State, token: Token): (State, Option<nat>) {
    match ByRefresh(s.sessions, token)
    case None => (s, None)
    case Some(k) =>
      if !s.sessions[k].active then (s, None)
      else (Deactivate(s, k), if s.sessions[k].expiresAt < s.now then None else Some(k))
  }

  function Revoke(s: State, token: Token): (State, bool) {
    match ByAccess(s.sessions, token)
    case None => (s, false)
    case Some(k) => if !s.sessions[k].active then (s, false) else (Deactivate(s, k), true)
  }

  function Step(s: State, op: Op): (State, Answer) {
    match op
    case Login(user, authenticated) =>
      if authenticated then (Create(s, user), Issued(|s.sessions|)) else (s, Unauthorized)
    case Refresh(token, jwt, known) =>
      if jwt.None? then (s, Unauthorized)
      else
        var (s1, row) := Consume(s, token);
        if row.None? || !known then (s1, Unauthorized) else (Create(s1, jwt.value), Issued(|s.sessions|))
    case Logout(bearer) =>
      if bearer.None? then (s, LoggedOut(false))
      else var (s1, revoked) := Revoke(s, bearer.value); (s1, LoggedOut(revoked))
    case Wait(d) => (s.(now := s.now + d), Waited)
  }

  /** Which session's refresh token brought a session about, noted beside the rows. */
  datatype World = World(state: State, parents: seq<Option<nat>>)

  function Next(w: World, op: Op): World {
    var (s, answer) := Step(w.state, op);
    var parent := if op.Refresh? then ByRefresh(w.state.sessions, op.token) else None;
    World(s, if answer.Issued? then w.parents + [parent] else w.parents)
  }

  function Run(life: nat, ops: seq<Op>): World {
    if ops == [] then World(State([], 0, 0, life), []) else Next(Run(life, ops[..|ops| - 1]), ops[|ops| - 1])
  }

  // ----- Invariants -----

  ghost predicate TokensOk(s: State) {
    && (forall k :: 0 <= k < |s.sessions| ==> s.sessions[k].access < s.next && s.sessions[k].refresh < s.next)
    && (forall i, j :: 0 <= i < j < |s.sessions| ==>
          s.sessions[i].access != s.sessions[j].access && s.sessions[i].refresh != s.sessions[j].refresh)
  }

  ghost predicate ParentsOk(parents: seq<Option<nat>>) {
    forall k :: 0 <= k < |parents| && parents[k].Some? ==> parents[k].value < k
  }

  /** The login that a session descends from. */
  function Root(parents: seq<Option<nat>>, k: nat): nat
    requires k < |parents|
  {
    match parents[k]
    case None => k
    case Some(p) => if p < k then Root(parents, p) else k
  }

  /** Of two sessions descending from one login, the older is spent. */
  ghost predicate ChainsOk(w: World) {
    && |w.parents| == |w.state.sessions|
    && forall i, j :: 0 <= i < j < |w.parents| && Root(w.parents, i) == Root(w.parents, j) ==> !w.state.sessions[i].active
  }

  ghost predicate Inv(w: World) {
    TokensOk(w.state) && ParentsOk(w.parents) && ChainsOk(w)
  }

  lemma {:induction false} RootStable(parents: seq<Option<nat>>, p: Option<nat>, k: nat)
    requires k < |parents|
    ensures Root(parents + [p], k) == Root(parents, k)
  {
    if parents[k].Some? && parents[k].value < k {
      RootStable(parents, p, parents[k].value);
    }
  }

  lemma {:induction false} RootBelow(parents: seq<Option<nat>>, k: nat)
    requires k < |parents|
    ensures Root(parents, k) <= k
  {
    if parents[k].Some? && parents[k].value < k {
      RootBelow(parents, parents[k].value);
    }
  }

  /** A new login starts a chain of its own. */
  lemma LoginKeeps(w: World, user: nat)
    requires Inv(w)
    ensures Inv(World(Create(w.state, user), w.parents + [None]))
  {
    var parents := w.parents + [None];
    forall i, j | 0 <= i < j < |parents| && Root(parents, i) == Root(parents, j) ensures !Create(w.state, user).sessions[i].active {
      RootStable(w.parents, None, i);
      RootBelow(w.parents, i);
      if j < |w.parents| {
        RootStable(w.parents, None, j);
      }
    }
  }

  /** Spending a session and issuing its child leaves the child as the chain's only live member. */
  lemma RotationKeeps(w: World, p: nat, user: nat)
    requires Inv(w) && p < |w.parents| && w.state.sessions[p].active
    ensures Inv(World(Create(Deactivate(w.state, p), user), w.parents + [Some(p)]))
  {
    var parents := w.parents + [Some(p)];
    RootStable(w.parents, Some(p), p);
    forall i, j | 0 <= i < j < |parents| && Root(parents, i) == Root(parents, j)
      ensures !Create(Deactivate(w.state, p), user).sessions[i].active
    {
      RootStable(w.parents, Some(p), i);
      if j < |w.parents| {
        RootStable(w.parents, Some(p), j);
      } else {
        assert Root(w.parents, i) == Root(w.parents, p);
      }
    }
  }

  lemma NextKeepsInv(w: World, op: Op)
    requires Inv(w)
    ensures Inv(Next(w, op))
  {
    match op
    case Login(user, authenticated) =>
      if authenticated {
        LoginKeeps(w, user);
      }
    case Refresh(token, jwt, known) =>
      var row := ByRefresh(w.state.sessions, token);
      if Next(w, op).parents != w.parents {
        RotationKeeps(w, row.value, jwt.value);
      }
    case Logout(_) =>
    case Wait(_) =>
  }

  lemma {:induction false} RunKeepsInv(life: nat, ops: seq<Op>)
    ensures Inv(Run(life, ops))
  {
    if ops != [] {
      RunKeepsInv(life, ops[..|ops| - 1]);
      NextKeepsInv(Run(life, ops[..|ops| - 1]), ops[|ops| - 1]);
    }
  }

  // ----- What follows for every run -----

  function StateAt(life: nat, ops: seq<Op>, m: nat): State
    requires m <= |ops|
  {
    Run(life, ops[..m]).state
  }

  function AnswerAt(life: nat, ops: seq<Op>, m: nat): Answer
    requires m < |ops|
  {
    Step(StateAt(life, ops, m), ops[m]).1
  }

  predicate IsActive(s: State, k: nat) { k < |s.sessions| && s.sessions[k].active }

  /** At most one session of a chain is active at any time. */
  lemma OneActivePerChain(life: nat, ops: seq<Op>, i: nat, j: nat)
    requires var w := Run(life, ops);
      && i < |w.parents| && j < |w.parents| && Root(w.parents, i) == Root(w.parents, j)
      && IsActive(w.state, i) && IsActive(w.state, j)
    ensures i == j
  {
    RunKeepsInv(life, ops);
  }

  lemma StepAt(life: nat, ops: seq<Op>, m: nat)
    requires m < |ops|
    ensures StateAt(life, ops, m + 1) == Step(StateAt(life, ops, m), ops[m]).0
  {
    assert ops[..m + 1][..m] == ops[..m];
  }

  /** Rows are never dropped, keep their user, tokens and expiry, and once inactive stay inactive. */
  lemma {:induction false} InactiveStays(life: nat, ops: seq<Op>, m: nat, n: nat, k: nat)
    requires m <= n <= |ops| && k < |StateAt(life, ops, m).sessions|
    ensures var a, b := StateAt(life, ops, m).sessions, StateAt(life, ops, n).sessions;
      && |a| <= |b| && b[k].access == a[k].access && b[k].refresh == a[k].refresh && b[k].expiresAt == a[k].expiresAt && b[k].user == a[k].user
      && (!a[k].active ==> b[k] == a[k])
    decreases n
  {
    if m < n {
      InactiveStays(life, ops, m, n - 1, k);
      StepAt(life, ops, n - 1);
    }
  }

  /** The user a request would issue a session to: who logs in, or whom the presented token names. */
  function Asking(op: Op): Option<nat> {
    match op
    case Login(user, _) => Some(user)
    case Refresh(_, jwt, _) => jwt
    case _ => None
  }

  /**
   The session an answer names: it is the last row and the only new one, it belongs to whoever asked, is active, expires a
   lifetime from now, and neither of its two tokens is a token of any earlier session.
   */
  ghost predicate IssuedTo(s: State, s': State, user: nat, k: nat) {
    && k == |s.sessions| && |s'.sessions| == k + 1
    && var row := s'.sessions[k];
       && row.user == user && row.active && row.expiresAt == s.now + s.life && row.lastActivity == s.now && row.access != row.refresh
       && forall i :: 0 <= i < k ==> {s'.sessions[i].access, s'.sessions[i].refresh} !! {row.access, row.refresh}
  }

  ghost predicate TokensApart(s: State) {
    forall i :: 0 <= i < |s.sessions| ==> s.sessions[i].access < s.next && s.sessions[i].refresh < s.next
  }

  lemma IssuesTo(s: State, op: Op, r: (State, Answer))
    requires TokensApart(s) && r == Step(s, op)
    ensures if r.1.Issued? then Asking(op).Some? && IssuedTo(s, r.0, Asking(op).value, r.1.session) else |r.0.sessions| == |s.sessions|
    ensures r.0.now == s.now + (if op.Wait? then op.duration else 0) && r.0.life == s.life
  {
  }

  /** Over every run: an answer that issues a session names a fresh one of the asking user, and no other answer adds a row. */
  lemma SessionIsIssued(life: nat, ops: seq<Op>, op: Op, r: (State, Answer))
    requires r == Step(Run(life, ops).state, op)
    ensures var s := Run(life, ops).state;
      if r.1.Issued? then Asking(op).Some? && IssuedTo(s, r.0, Asking(op).value, r.1.session) else |r.0.sessions| == |s.sessions|
  {
    RunKeepsInv(life, ops);
    IssuesTo(Run(life, ops).state, op, r);
  }

  /** A request ends a session at the time it is made: which one, and what a logout answers. */
  lemma EndsSession(s: State, op: Op, k: nat)
    requires TokensOk(s) && k < |s.sessions| && s.sessions[k].active
    ensures var t := Step(s, op).0;
      k < |t.sessions| && t.sessions[k] == if Uses(s, op, k) then s.sessions[k].(active := false, lastActivity := s.now) else s.sessions[k]
  {
  }

  /** Logging in succeeds exactly with good credentials; logging out says whether the bearer's session was still active. */
  lemma LogInAndOut(life: nat, ops: seq<Op>, user: nat, authenticated: bool, bearer: Option<Token>)
    ensures var s := Run(life, ops).state;
      && (Step(s, Login(user, authenticated)).1.Issued? <==> authenticated)
      && Step(s, Logout(bearer)).1 == LoggedOut(exists k :: 0 <= k < |s.sessions| && s.sessions[k].active && bearer == Some(s.sessions[k].access))
  {
    RunKeepsInv(life, ops);
    var s := Run(life, ops).state;
    if bearer.Some? && ByAccess(s.sessions, bearer.value).Some? {
      var k := ByAccess(s.sessions, bearer.value).value;
      assert s.sessions[k].access == bearer.value;
    }
  }

  /** A refresh token is accepted at most once in any run. */
  lemma AcceptedAtMostOnce(life: nat, ops: seq<Op>, m: nat, n: nat)
    requires m < n < |ops| && ops[m].Refresh? && ops[n].Refresh? && ops[m].token == ops[n].token
    requires AnswerAt(life, ops, m).Issued?
    ensures AnswerAt(life, ops, n).Unauthorized?
  {
    var k := ByRefresh(StateAt(life, ops, m).sessions, ops[m].token).value;
    StepAt(life, ops, m);
    InactiveStays(life, ops, m + 1, n, k);
    RunKeepsInv(life, ops[..n]);
  }

  /** A request uses session k up: its refresh token is presented with a good signature, or its access token logs out. */
  predicate Uses(s: State, op: Op, k: nat) {
    k < |s.sessions| && match op
      case Refresh(token, jwt, _) => token == s.sessions[k].refresh && jwt.Some?
      case Logout(bearer) => bearer == Some(s.sessions[k].access)
      case _ => false
  }

  predicate Spends(life: nat, ops: seq<Op>, m: nat, k: nat)
    requires m < |ops|
  {
    Uses(StateAt(life, ops, m), ops[m], k)
  }

  ghost predicate Unspent(life: nat, ops: seq<Op>, n: nat, k: nat)
    requires n <= |ops|
  {
    forall m: nat :: m < n ==> !Spends(life, ops, m, k)
  }

  /** A session is active exactly as long as nothing has used it up. */
  lemma {:induction false} ActiveIffUnspent(life: nat, ops: seq<Op>, n: nat, k: nat)
    requires n <= |ops| && k < |StateAt(life, ops, n).sessions|
    ensures StateAt(life, ops, n).sessions[k].active <==> Unspent(life, ops, n, k)
  {
    if n > 0 {
      var m := n - 1;
      StepAt(life, ops, m);
      RunKeepsInv(life, ops[..m]);
      if k < |StateAt(life, ops, m).sessions| {
        ActiveIffUnspent(life, ops, m, k);
        SpendingStep(StateAt(life, ops, m), ops[m], k);
        assert Unspent(life, ops, n, k) <==> Unspent(life, ops, m, k) && !Spends(life, ops, m, k);
      } else {
        forall x: nat | x < n ensures !Spends(life, ops, x, k) {
          if k < |StateAt(life, ops, x).sessions| {
            InactiveStays(life, ops, x, m, k);
          }
        }
      }
    }
  }

  lemma SpendingStep(s: State, op: Op, k: nat)
    requires TokensOk(s) && k < |s.sessions|
    ensures var t := Step(s, op).0;
      k < |t.sessions| && (t.sessions[k].active <==> s.sessions[k].active && !Uses(s, op, k))
  {
  }

  /**
   The acceptance of a refresh, told from the history alone: a good signature for a user who exists, and a session of that
   token that no earlier request used up and that has not expired.
   */
  lemma RefreshRefinesHistory(life: nat, ops: seq<Op>, token: Token, jwt: Option<nat>, known: bool)
    ensures var s := StateAt(life, ops, |ops|);
      Step(s, Refresh(token, jwt, known)).1.Issued?
      <==> jwt.Some? && known
           && (exists k: nat :: k < |s.sessions| && s.sessions[k].refresh == token
                             && s.now <= s.sessions[k].expiresAt && Unspent(life, ops, |ops|, k))
  {
    RunKeepsInv(life, ops);
    assert ops[..|ops|] == ops;
    var s := StateAt(life, ops, |ops|);
    forall k: nat | k < |s.sessions| ensures s.sessions[k].active <==> Unspent(life, ops, |ops|, k) {
      ActiveIffUnspent(life, ops, |ops|, k);
    }
  }
}
