/**
 Many concurrent `complete` calls around one cache. Only the lookup and the insert are atomic;
 between them a call waits for the upstream model while other calls go on.
 */
module CachingProvider {
  import opened Wrappers
  import opened Json
  import opened CompletionCache

  type Fields = map<string, Json>

  /** What the upstream returns: normally a dictionary; anything else is passed on untouched. */
  datatype Result = Dict(fields: Fields) | Bare(value: Json)

  datatype Call = Call(messages: seq<Json>, tools: Option<seq<Json>>, model: string, temperature: Option<real>)

  datatype Env = Env(enabled: bool, defaultModel: string, defaultTemperature: real, ttl: int, capacity: nat)

  /** The digest of a request stands for its contents: messages, model, temperature and tools, with defaults filled in. */
  datatype Key = Key(messages: seq<Json>, model: string, temperature: real, tools: seq<Json>)

  function CacheKey(env: Env, call: Call): Key {
    Key(
      call.messages,
      if call.model != "" then call.model else env.defaultModel,
      if call.temperature.Some? then call.temperature.value else env.defaultTemperature,
      if call.tools.Some? then call.tools.value else [])
  }

  // ----- What makes two calls the same request -----

  /** The model a call is for: the one it names, or the default one. */
  function ModelOf(env: Env, call: Call): string { if |call.model| == 0 then env.defaultModel else call.model }

  /** The temperature it asks for, or the default one; zero is a temperature. */
  function TemperatureOf(env: Env, call: Call): real {
    match call.temperature
    case Some(t) => t
    case None => env.defaultTemperature
  }

  /** Its tools; none are as good as an empty list. */
  function ToolsOf(call: Call): seq<Json> {
    match call.tools
    case Some(tools) => tools
    case None => []
  }

  /** The calls ask for the same: these messages, of this model, at this temperature, with these tools. */
  predicate SameRequest(env: Env, a: Call, b: Call) {
    && a.messages == b.messages && ToolsOf(a) == ToolsOf(b)
    && ModelOf(env, a) == ModelOf(env, b) && TemperatureOf(env, a) == TemperatureOf(env, b)
  }

  /** Calls share a key exactly if they ask for the same. */
  lemma KeysAgreeIff(env: Env, a: Call, b: Call)
    ensures CacheKey(env, a) == CacheKey(env, b) <==> SameRequest(env, a, b)
  {
  }

  /** An upstream that answers by messages, model, temperature and tools alone. */
  type Upstream = (seq<Json>, string, real, seq<Json>) -> Result

  function Says(env: Env, f: Upstream, call: Call): Result {
    f(call.messages, ModelOf(env, call), TemperatureOf(env, call), ToolsOf(call))
  }

  const MARKS: set<string> := {"cache", "cache_key"}

  function Stripped(fields: Fields): Fields {
    fields - MARKS
  }

  function Marked(fields: Fields, mark: string, digest: string): Result {
    Dict(fields["cache" := Str(mark)]["cache_key" := Str(digest)])
  }

  /** What a reply says apart from the two cache fields. */
  function Visible(r: Result): Result {
    match r
    case Dict(fields) => Dict(Stripped(fields))
    case Bare(_) => r
  }

  datatype Source = FromCache(at: int) | FromUpstream

  datatype Phase = Arrived | Asking | Answered | Replied(reply: Result, source: Source) | Failed

  /** One call in progress; `upstream` is the model's answer and `storedAt` the time it entered the cache, once these exist. */
  datatype Progress = Progress(call: Call, phase: Phase, upstream: Option<Result>, storedAt: Option<int>)

  datatype World = World(now: int, cache: Cache<Key, Fields>, calls: seq<Progress>)

  datatype Move =
    | Arrive(call: Call)
    | Lookup(i: nat)
    | Answer(i: nat, result: Result)
    | Break(i: nat)
    | Store(i: nat)
    | Wait(seconds: nat)

  /** One atomic step. `digest` is the text of the key; a move that is not possible changes nothing. */
  function Step(env: Env, digest: Key -> string, w: World, m: Move): World {
    match m
    case Arrive(call) =>
      w.(calls := w.calls + [Progress(call, if env.enabled then Arrived else Asking, None, None)])
    case Lookup(i) =>
      if i < |w.calls| && w.calls[i].phase.Arrived? then
        var key := CacheKey(env, w.calls[i].call);
        var cached := Reply(w.cache, key, w.now);
        var phase := if cached.Some? then Replied(Marked(cached.value, "hit", digest(key)), FromCache(w.now)) else Asking;
        w.(cache := AfterGet(w.cache, key, w.now), calls := w.calls[i := w.calls[i].(phase := phase)])
      else w
    case Answer(i, result) =>
      if i < |w.calls| && w.calls[i].phase.Asking? then
        var phase := if env.enabled && result.Dict? then Answered else Replied(result, FromUpstream);
        w.(calls := w.calls[i := w.calls[i].(phase := phase, upstream := Some(result))])
      else w
    case Break(i) =>
      if i < |w.calls| && w.calls[i].phase.Asking? then w.(calls := w.calls[i := w.calls[i].(phase := Failed)]) else w
    case Store(i) =>
      if i < |w.calls| && w.calls[i].phase.Answered? && w.calls[i].upstream.Some? && w.calls[i].upstream.value.Dict? then
        var key := CacheKey(env, w.calls[i].call);
        var snapshot := Stripped(w.calls[i].upstream.value.fields);
        var phase := Replied(Marked(snapshot, "miss", digest(key)), FromUpstream);
        w.(cache := AfterPut(w.cache, key, snapshot, w.now + env.ttl, env.capacity),
           calls := w.calls[i := w.calls[i].(phase := phase, storedAt := Some(w.now))])
      else w
    case Wait(seconds) => w.(now := w.now + seconds)
  }

  function Run(env: Env, digest: Key -> string, start: int, moves: seq<Move>): World {
    if moves == [] then World(start, [], [])
    else Step(env, digest, Run(env, digest, start, moves[..|moves| - 1]), moves[|moves| - 1])
  }

  // ----- Provenance -----

  /** Call `j` asked for `key`, got an answer that reads `fields` without the marks, and stored it at `at`. */
  ghost predicate Origin(env: Env, w: World, j: nat, key: Key, fields: Fields, at: int) {
    && j < |w.calls|
    && CacheKey(env, w.calls[j].call) == key
    && w.calls[j].upstream.Some? && w.calls[j].upstream.value.Dict?
    && Stripped(w.calls[j].upstream.value.fields) == fields
    && w.calls[j].storedAt == Some(at)
  }

  ghost predicate HasOrigin(env: Env, w: World, key: Key, fields: Fields, at: int) {
    exists j :: Origin(env, w, j, key, fields, at)
  }

  ghost predicate CacheInv(env: Env, w: World) {
    forall e :: e in w.cache ==> e.expiresAt - env.ttl <= w.now && HasOrigin(env, w, e.key, e.value, e.expiresAt - env.ttl)
  }

  ghost predicate Provenance(env: Env, w: World, i: nat)
    requires i < |w.calls| && w.calls[i].phase.Replied? && w.calls[i].phase.source.FromCache?
  {
    var p := w.calls[i];
    && p.phase.reply.Dict?
    && exists j, at :: Origin(env, w, j, CacheKey(env, p.call), Stripped(p.phase.reply.fields), at)
                       && at <= p.phase.source.at <= at + env.ttl
  }

  /**
   Where a hit comes from, in terms of the calls: call `j` asked for the same, was answered by the upstream with what the
   hit says apart from its marks, and stored that at most the time-to-live before the lookup.
   */
  ghost predicate ComesFrom(env: Env, w: World, i: nat, j: nat)
    requires i < |w.calls| && w.calls[i].phase.Replied? && w.calls[i].phase.source.FromCache?
  {
    var p := w.calls[i];
    && j < |w.calls| && SameRequest(env, w.calls[j].call, p.call)
    && w.calls[j].upstream.Some? && w.calls[j].upstream.value.Dict?
    && Visible(p.phase.reply) == Visible(w.calls[j].upstream.value)
    && w.calls[j].storedAt.Some? && w.calls[j].storedAt.value <= p.phase.source.at <= w.calls[j].storedAt.value + env.ttl
  }

  ghost predicate HitsInv(env: Env, w: World) {
    forall i: nat :: i < |w.calls| && w.calls[i].phase.Replied? && w.calls[i].phase.source.FromCache? ==> Provenance(env, w, i)
  }

  /** Calls that are not finished have stored nothing yet, and a reply from the upstream is the upstream's answer. */
  ghost predicate PhaseInv(w: World) {
    forall i :: 0 <= i < |w.calls| ==>
      && (w.calls[i].phase.Arrived? || w.calls[i].phase.Asking? ==> w.calls[i].upstream.None? && w.calls[i].storedAt.None?)
      && (w.calls[i].phase.Answered? ==> w.calls[i].storedAt.None?)
      && (w.calls[i].phase.Replied? && w.calls[i].phase.source.FromUpstream? ==>
            w.calls[i].upstream.Some? && Visible(w.calls[i].upstream.value) == Visible(w.calls[i].phase.reply))
  }

  lemma OriginStays(env: Env, digest: Key -> string, w: World, m: Move, j: nat, key: Key, fields: Fields, at: int)
    requires PhaseInv(w) && Origin(env, w, j, key, fields, at)
    ensures Origin(env, Step(env, digest, w, m), j, key, fields, at)
  {
  }

  lemma StepKeepsPhases(env: Env, digest: Key -> string, w: World, m: Move)
    requires PhaseInv(w)
    ensures PhaseInv(Step(env, digest, w, m))
  {
  }

  lemma StepKeepsCache(env: Env, digest: Key -> string, w: World, m: Move)
    requires PhaseInv(w) && CacheInv(env, w)
    ensures CacheInv(env, Step(env, digest, w, m))
  {
    var w' := Step(env, digest, w, m);
    forall e | e in w'.cache
      ensures e.expiresAt - env.ttl <= w'.now && HasOrigin(env, w', e.key, e.value, e.expiresAt - env.ttl)
    {
      if e in w.cache {
        var j :| Origin(env, w, j, e.key, e.value, e.expiresAt - env.ttl);
        OriginStays(env, digest, w, m, j, e.key, e.value, e.expiresAt - env.ttl);
      } else {
        NewEntry(env, digest, w, m, e);
        assert Origin(env, w', m.i, e.key, e.value, e.expiresAt - env.ttl);
      }
    }
  }

  /** Only an insert adds an entry, and it adds the answer of its own call. */
  lemma NewEntry(env: Env, digest: Key -> string, w: World, m: Move, e: Entry<Key, Fields>)
    requires e in Step(env, digest, w, m).cache && e !in w.cache
    ensures m.Store? && Origin(env, Step(env, digest, w, m), m.i, e.key, e.value, e.expiresAt - env.ttl)
    ensures e.expiresAt - env.ttl == w.now
  {
    match m
    case Lookup(i) =>
      var key := CacheKey(env, w.calls[i].call);
      WithoutFacts(w.cache, key);
      FindFacts(w.cache, key);
    case Store(i) =>
      WithoutFacts(w.cache, CacheKey(env, w.calls[i].call));
    case _ =>
  }

  lemma StepKeepsHits(env: Env, digest: Key -> string, w: World, m: Move)
    requires PhaseInv(w) && CacheInv(env, w) && HitsInv(env, w)
    ensures HitsInv(env, Step(env, digest, w, m))
  {
    var w' := Step(env, digest, w, m);
    forall i: nat | i < |w'.calls| && w'.calls[i].phase.Replied? && w'.calls[i].phase.source.FromCache?
      ensures Provenance(env, w', i)
    {
      if i < |w.calls| && w.calls[i].phase.Replied? {
        var p := w.calls[i];
        assert w'.calls[i] == p;
        var j: nat, at :| Origin(env, w, j, CacheKey(env, p.call), Stripped(p.phase.reply.fields), at)
          && at <= p.phase.source.at <= at + env.ttl;
        OriginStays(env, digest, w, m, j, CacheKey(env, p.call), Stripped(p.phase.reply.fields), at);
      } else {
        FreshHit(env, digest, w, m, i);
      }
    }
  }

  lemma MarksComeOff(fields: Fields, mark: string, digest: string)
    ensures Stripped(Marked(Stripped(fields), mark, digest).fields) == Stripped(fields)
  {
  }

  lemma HitReplies(env: Env, digest: Key -> string, w: World, i: nat)
    requires i < |w.calls| && w.calls[i].phase.Arrived? && Hit(w.cache, CacheKey(env, w.calls[i].call), w.now)
    ensures var key := CacheKey(env, w.calls[i].call);
      && Find(w.cache, key).Some? && Find(w.cache, key).value in w.cache && Find(w.cache, key).value.key == key
      && w.now <= Find(w.cache, key).value.expiresAt
      && Step(env, digest, w, Lookup(i)).calls
         == w.calls[i := w.calls[i].(phase := Replied(Marked(Find(w.cache, key).value.value, "hit", digest(key)), FromCache(w.now)))]
  {
    FindFacts(w.cache, CacheKey(env, w.calls[i].call));
  }

  lemma FreshHit(env: Env, digest: Key -> string, w: World, m: Move, i: nat)
    requires PhaseInv(w) && CacheInv(env, w) && m == Lookup(i)
    requires i < |w.calls| && w.calls[i].phase.Arrived? && Hit(w.cache, CacheKey(env, w.calls[i].call), w.now)
    ensures Provenance(env, Step(env, digest, w, m), i)
  {
    HitReplies(env, digest, w, i);
    var key := CacheKey(env, w.calls[i].call);
    var e := Find(w.cache, key).value;
    var at := e.expiresAt - env.ttl;
    var j: nat :| Origin(env, w, j, key, e.value, at);
    OriginStays(env, digest, w, m, j, key, e.value, at);
    MarksComeOff(w.calls[j].upstream.value.fields, "hit", digest(key));
  }

  lemma {:induction false} RunKeepsInv(env: Env, digest: Key -> string, start: int, moves: seq<Move>)
    ensures var w := Run(env, digest, start, moves); PhaseInv(w) && CacheInv(env, w) && HitsInv(env, w)
  {
    if moves != [] {
      var init, m := moves[..|moves| - 1], moves[|moves| - 1];
      var w := Run(env, digest, start, init);
      RunKeepsInv(env, digest, start, init);
      StepKeepsPhases(env, digest, w, m);
      StepKeepsCache(env, digest, w, m);
      StepKeepsHits(env, digest, w, m);
    }
  }

  /**
   For every interleaving: a reply taken from the cache is, without its marks, some upstream answer to a call
   that asked for the same, stored at most the time-to-live before the lookup.
   */
  lemma HitsHaveProvenance(env: Env, digest: Key -> string, start: int, moves: seq<Move>, i: nat) returns (j: nat)
    requires var w := Run(env, digest, start, moves);
      i < |w.calls| && w.calls[i].phase.Replied? && w.calls[i].phase.source.FromCache?
    ensures ComesFrom(env, Run(env, digest, start, moves), i, j)
  {
    RunKeepsInv(env, digest, start, moves);
    j := HitComesFrom(env, Run(env, digest, start, moves), i);
  }

  lemma HitComesFrom(env: Env, w: World, i: nat) returns (j: nat)
    requires i < |w.calls| && w.calls[i].phase.Replied? && w.calls[i].phase.source.FromCache? && Provenance(env, w, i)
    ensures ComesFrom(env, w, i, j)
  {
    var p := w.calls[i];
    var at;
    j, at :| Origin(env, w, j, CacheKey(env, p.call), Stripped(p.phase.reply.fields), at) && at <= p.phase.source.at <= at + env.ttl;
    KeysAgreeIff(env, w.calls[j].call, p.call);
  }

  // ----- Transparency -----

  /** Every upstream answer so far is what `f` says for the request. */
  ghost predicate AnsweredBy(env: Env, w: World, f: Upstream) {
    forall i :: 0 <= i < |w.calls| && w.calls[i].upstream.Some? ==> w.calls[i].upstream.value == Says(env, f, w.calls[i].call)
  }

  lemma RepliesAreTheUpstreams(env: Env, digest: Key -> string, start: int, moves: seq<Move>, f: Upstream, i: nat)
    requires var w := Run(env, digest, start, moves); AnsweredBy(env, w, f) && i < |w.calls| && w.calls[i].phase.Replied?
    ensures var p := Run(env, digest, start, moves).calls[i]; Visible(p.phase.reply) == Visible(Says(env, f, p.call))
  {
    var w := Run(env, digest, start, moves);
    RunKeepsInv(env, digest, start, moves);
    if w.calls[i].phase.source.FromCache? {
      var j := HitComesFrom(env, w, i);
      assert w.calls[j].upstream.value == Says(env, f, w.calls[j].call);
    }
  }

  /**
   With an upstream that is a function of messages, model, temperature and tools, two providers with the same defaults give
   the same visible reply to the same call, whatever their capacity and time-to-live, whether or not they cache, and however
   calls interleave.
   */
  lemma CachingIsTransparent(
      env: Env, other: Env, digest: Key -> string, start: int, start': int, moves: seq<Move>, moves': seq<Move>,
      f: Upstream, i: nat, i': nat)
    requires env.defaultModel == other.defaultModel && env.defaultTemperature == other.defaultTemperature
    requires var w := Run(env, digest, start, moves); AnsweredBy(env, w, f) && i < |w.calls| && w.calls[i].phase.Replied?
    requires var w' := Run(other, digest, start', moves'); AnsweredBy(other, w', f) && i' < |w'.calls| && w'.calls[i'].phase.Replied?
    requires Run(env, digest, start, moves).calls[i].call == Run(other, digest, start', moves').calls[i'].call
    ensures Visible(Run(env, digest, start, moves).calls[i].phase.reply) == Visible(Run(other, digest, start', moves').calls[i'].phase.reply)
  {
    RepliesAreTheUpstreams(env, digest, start, moves, f, i);
    RepliesAreTheUpstreams(other, digest, start', moves', f, i');
  }

  // ----- When there is a hit -----

  /**
   What a lookup does, told from the calls alone: it replies at once exactly if some earlier answer to the same request is
   still in the cache and was stored no more than the time-to-live ago. Otherwise the upstream is asked.
   */
  ghost predicate StillHeld(env: Env, w: World, i: nat, e: Entry<Key, Fields>, j: nat)
    requires i < |w.calls|
  {
    && j < |w.calls| && SameRequest(env, w.calls[j].call, w.calls[i].call)
    && e in w.cache && e.key == CacheKey(env, w.calls[j].call)
    && w.calls[j].upstream.Some? && Visible(w.calls[j].upstream.value) == Dict(e.value)
    && w.calls[j].storedAt.Some? && w.now <= w.calls[j].storedAt.value + env.ttl == e.expiresAt
  }

  lemma HeldIsHit(env: Env, w: World, i: nat, e: Entry<Key, Fields>, j: nat)
    requires DistinctKeys(w.cache) && i < |w.calls| && StillHeld(env, w, i, e, j)
    ensures Hit(w.cache, CacheKey(env, w.calls[i].call), w.now)
  {
    KeysAgreeIff(env, w.calls[j].call, w.calls[i].call);
    FindFacts(w.cache, e.key);
  }

  lemma HeldIsFound(env: Env, w: World, i: nat, e: Entry<Key, Fields>, j: nat)
    requires CacheInv(env, w) && DistinctKeys(w.cache) && i < |w.calls|
    requires e in w.cache && e.key == CacheKey(env, w.calls[i].call) && w.now <= e.expiresAt
    requires Origin(env, w, j, e.key, e.value, e.expiresAt - env.ttl)
    ensures StillHeld(env, w, i, e, j)
  {
    KeysAgreeIff(env, w.calls[j].call, w.calls[i].call);
  }

  lemma {:induction false} CacheIsDistinct(env: Env, digest: Key -> string, start: int, moves: seq<Move>)
    ensures DistinctKeys(Run(env, digest, start, moves).cache)
  {
    if moves != [] {
      var init, m := moves[..|moves| - 1], moves[|moves| - 1];
      var w := Run(env, digest, start, init);
      CacheIsDistinct(env, digest, start, init);
      MoveKeepsDistinct(env, digest, w, m);
    }
  }

  lemma MoveKeepsDistinct(env: Env, digest: Key -> string, w: World, m: Move)
    requires DistinctKeys(w.cache)
    ensures DistinctKeys(Step(env, digest, w, m).cache)
  {
    match m
    case Lookup(i) =>
      if i < |w.calls| {
        var key := CacheKey(env, w.calls[i].call);
        StepKeepsBound(w.cache, |w.cache|, Get(key, w.now));
      }
    case Store(i) =>
      if i < |w.calls| && w.calls[i].upstream.Some? && w.calls[i].upstream.value.Dict? {
        PutKeepsDistinct(w.cache, CacheKey(env, w.calls[i].call), Stripped(w.calls[i].upstream.value.fields), w.now + env.ttl, env.capacity);
      }
    case _ =>
  }

  lemma PutKeepsDistinct(c: Cache<Key, Fields>, key: Key, value: Fields, expiresAt: int, capacity: nat)
    requires DistinctKeys(c)
    ensures DistinctKeys(AfterPut(c, key, value, expiresAt, capacity))
  {
    WithoutFacts(c, key);
    AppendDistinct(Without(c, key), Entry(key, value, expiresAt));
  }

  lemma LookupRepliesIff(env: Env, digest: Key -> string, start: int, moves: seq<Move>, i: nat)
    requires var w := Run(env, digest, start, moves); i < |w.calls| && w.calls[i].phase.Arrived?
    ensures var w := Run(env, digest, start, moves);
      var after := Step(env, digest, w, Lookup(i)).calls[i].phase;
      if exists e, j :: StillHeld(env, w, i, e, j) then after.Replied? && after.source == FromCache(w.now) else after.Asking?
  {
    var w := Run(env, digest, start, moves);
    RunKeepsInv(env, digest, start, moves);
    CacheIsDistinct(env, digest, start, moves);
    LookupIff(env, digest, w, i);
  }

  lemma LookupIff(env: Env, digest: Key -> string, w: World, i: nat)
    requires CacheInv(env, w) && DistinctKeys(w.cache) && i < |w.calls| && w.calls[i].phase.Arrived?
    ensures var after := Step(env, digest, w, Lookup(i)).calls[i].phase;
      if exists e, j :: StillHeld(env, w, i, e, j) then after.Replied? && after.source == FromCache(w.now) else after.Asking?
  {
    var key := CacheKey(env, w.calls[i].call);
    FindFacts(w.cache, key);
    if Hit(w.cache, key, w.now) {
      var e := Find(w.cache, key).value;
      var j :| Origin(env, w, j, e.key, e.value, e.expiresAt - env.ttl);
      HeldIsFound(env, w, i, e, j);
    } else if exists e, j :: StillHeld(env, w, i, e, j) {
      var e, j :| StillHeld(env, w, i, e, j);
      HeldIsHit(env, w, i, e, j);
    }
  }

  // ----- What a reply looks like -----

  /** A cached answer carries its mark and the digest of its request; without the cache nothing is added to an answer. */
  predicate Labelled(env: Env, digest: Key -> string, p: Progress) {
    p.phase.Replied? ==>
      match p.phase.source
      case FromCache(_) =>
        && env.enabled && p.phase.reply.Dict? && "cache" in p.phase.reply.fields && p.phase.reply.fields["cache"] == Str("hit")
        && "cache_key" in p.phase.reply.fields && p.phase.reply.fields["cache_key"] == Str(digest(CacheKey(env, p.call)))
      case FromUpstream =>
        if !env.enabled || p.phase.reply.Bare? then p.upstream == Some(p.phase.reply)
        else
          && "cache" in p.phase.reply.fields && p.phase.reply.fields["cache"] == Str("miss")
          && "cache_key" in p.phase.reply.fields && p.phase.reply.fields["cache_key"] == Str(digest(CacheKey(env, p.call)))
  }

  ghost predicate AllLabelled(env: Env, digest: Key -> string, w: World) {
    forall i :: 0 <= i < |w.calls| ==>
      && Labelled(env, digest, w.calls[i])
      && (!env.enabled ==> !w.calls[i].phase.Arrived? && !w.calls[i].phase.Answered?)
  }

  lemma StepLabels(env: Env, digest: Key -> string, w: World, m: Move)
    requires AllLabelled(env, digest, w)
    ensures AllLabelled(env, digest, Step(env, digest, w, m))
  {
  }

  lemma {:induction false} RepliesAreLabelled(env: Env, digest: Key -> string, start: int, moves: seq<Move>)
    ensures AllLabelled(env, digest, Run(env, digest, start, moves))
  {
    if moves != [] {
      RepliesAreLabelled(env, digest, start, moves[..|moves| - 1]);
      StepLabels(env, digest, Run(env, digest, start, moves[..|moves| - 1]), moves[|moves| - 1]);
    }
  }

  // ----- The shared cache is one run of lookups and inserts -----

  /** What a move does to the cache, if anything. */
  function OpOf(env: Env, w: World, m: Move): Option<Op<Key, Fields>> {
    match m
    case Lookup(i) =>
      if i < |w.calls| && w.calls[i].phase.Arrived? then Some(Get(CacheKey(env, w.calls[i].call), w.now)) else None
    case Store(i) =>
      if i < |w.calls| && w.calls[i].phase.Answered? && w.calls[i].upstream.Some? && w.calls[i].upstream.value.Dict?
      then Some(Put(CacheKey(env, w.calls[i].call), Stripped(w.calls[i].upstream.value.fields), w.now + env.ttl)) else None
    case _ => None
  }

  function Trace(env: Env, digest: Key -> string, start: int, moves: seq<Move>): seq<Op<Key, Fields>> {
    if moves == [] then []
    else
      var init := moves[..|moves| - 1];
      var op := OpOf(env, Run(env, digest, start, init), moves[|moves| - 1]);
      Trace(env, digest, start, init) + if op.Some? then [op.value] else []
  }

  lemma MoveIsOp(env: Env, digest: Key -> string, w: World, m: Move)
    ensures Step(env, digest, w, m).cache
         == match OpOf(env, w, m) case None => w.cache case Some(op) => CompletionCache.Step(w.cache, env.capacity, op)
  {
  }

  lemma OneOpMore(capacity: nat, ops: seq<Op<Key, Fields>>, op: Op<Key, Fields>)
    ensures CompletionCache.Run(capacity, ops + [op]) == CompletionCache.Step(CompletionCache.Run(capacity, ops), capacity, op)
  {
    assert (ops + [op])[..|ops|] == ops;
  }

  /** However calls interleave, the cache is what the same lookups and inserts, one after the other, make of it. */
  lemma {:induction false} CacheIsOneRun(env: Env, digest: Key -> string, start: int, moves: seq<Move>)
    ensures Run(env, digest, start, moves).cache == CompletionCache.Run(env.capacity, Trace(env, digest, start, moves))
  {
    if moves != [] {
      var init, m := moves[..|moves| - 1], moves[|moves| - 1];
      CacheIsOneRun(env, digest, start, init);
      var w, before := Run(env, digest, start, init), Trace(env, digest, start, init);
      var op := OpOf(env, w, m);
      MoveIsOp(env, digest, w, m);
      if op.Some? {
        OneOpMore(env.capacity, before, op.value);
      } else {
        assert before + [] == before;
      }
    }
  }
}
