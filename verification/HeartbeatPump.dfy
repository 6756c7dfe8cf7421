/**
 The heartbeat pump: a producer task copies the upstream into a bounded queue, a consumer takes items out,
 and a timeout on the empty queue yields a keepalive instead. Any enabled step may happen next.
 */
module HeartbeatPump {

  const QUEUE_SIZE := 16

  datatype Item<T> = Chunk(c: T) | StreamEnd

  /** How the upstream stops once its chunks are out. */
  datatype Upstream<T> = Upstream(chunks: seq<T>, fails: bool)

  /** The producer waits for the upstream, holds an item it wants to put, or has finished. */
  datatype Producer<T> = Pulling | Putting(item: Item<T>) | Stopped

  /** The consumer waits on the queue, is suspended at a `yield`, or has left the loop. */
  datatype Consumer = Getting | Suspended | Returned | Raised

  datatype Output<T> = Yielded(c: T) | Heartbeat

  datatype Pump<T> = Pump(
    unread: seq<T>,
    fails: bool,
    producer: Producer<T>,
    queue: seq<Item<T>>,
    errorBox: bool,
    consumer: Consumer,
    output: seq<Output<T>>)

  function Start<T>(u: Upstream<T>): Pump<T> {
    Pump(u.chunks, u.fails, Pulling, [], false, Getting, [])
  }

  datatype Move = Pull | Put | Take | Timeout | Resume

  predicate Enabled<T>(s: Pump<T>, m: Move) {
    match m
    case Pull => s.producer.Pulling?
    case Put => s.producer.Putting? && |s.queue| < QUEUE_SIZE
    case Take => s.consumer.Getting? && s.queue != []
    case Timeout => s.consumer.Getting?
    case Resume => s.consumer.Suspended?
  }

  function Step<T>(s: Pump<T>, m: Move): Pump<T>
    requires Enabled(s, m)
  {
    match m
    case Pull =>
      if s.unread != [] then s.(unread := s.unread[1..], producer := Putting(Chunk(s.unread[0])))
      else s.(errorBox := s.fails, producer := Putting(StreamEnd))
    case Put =>
      s.(queue := s.queue + [s.producer.item], producer := if s.producer.item.StreamEnd? then Stopped else Pulling)
    case Take =>
      match s.queue[0] {
        case StreamEnd => s.(queue := s.queue[1..], consumer := if s.errorBox then Raised else Returned)
        case Chunk(c) => s.(queue := s.queue[1..], consumer := Suspended, output := s.output + [Yielded(c)])
      }
    case Timeout => s.(consumer := Suspended, output := s.output + [Heartbeat])
    case Resume => s.(consumer := Getting)
  }

  /** The state after a schedule; a move whose turn comes while it is not enabled waits and changes nothing. */
  function Run<T>(u: Upstream<T>, schedule: seq<Move>): Pump<T> {
    if schedule == [] then Start(u)
    else
      var before, m := Run(u, schedule[..|schedule| - 1]), schedule[|schedule| - 1];
      if Enabled(before, m) then Step(before, m) else before
  }

  predicate Left<T>(s: Pump<T>) { s.consumer.Returned? || s.consumer.Raised? }

  // ----- Conservation -----

  /** The yielded chunks, heartbeats erased. */
  function Chunks<T>(output: seq<Output<T>>): seq<T> {
    if output == [] then []
    else
      var last := output[|output| - 1];
      Chunks(output[..|output| - 1]) + if last.Yielded? then [last.c] else []
  }

  function Contents<T>(items: seq<Item<T>>): seq<T> {
    if items == [] then []
    else (if items[0].Chunk? then [items[0].c] else []) + Contents(items[1..])
  }

  function InHand<T>(p: Producer<T>): seq<T> {
    if p.Putting? && p.item.Chunk? then [p.item.c] else []
  }

  lemma {:induction false} ContentsSnoc<T>(items: seq<Item<T>>, x: Item<T>)
    ensures Contents(items + [x]) == Contents(items) + Contents([x])
  {
    if items != [] {
      assert (items + [x])[1..] == items[1..] + [x];
      ContentsSnoc(items[1..], x);
    } else {
      assert [] + [x] == [x];
    }
  }

  /** Everything that was ever in the upstream is in exactly one place, in order. */
  ghost predicate Conserved<T(!new)>(s: Pump<T>, u: Upstream<T>) {
    Chunks(s.output) + Contents(s.queue) + InHand(s.producer) + s.unread == u.chunks
  }

  /** The end marker comes last: nothing is behind it in the queue, nothing in hand, nothing unread. */
  ghost predicate EndIsLast<T(!new)>(s: Pump<T>, u: Upstream<T>) {
    && |s.queue| <= QUEUE_SIZE
    && s.fails == u.fails
    && (forall i :: 0 <= i < |s.queue| - 1 ==> s.queue[i].Chunk?)
    && (s.queue != [] && s.queue[|s.queue| - 1].StreamEnd? ==> s.producer.Stopped?)
    && (s.producer.Stopped? || (s.producer.Putting? && s.producer.item.StreamEnd?) ==> s.unread == [] && s.errorBox == u.fails)
    && (s.producer.Stopped? ==>
          if Left(s) then s.queue == []
          else s.queue != [] && s.queue[|s.queue| - 1].StreamEnd?)
    && (Left(s) ==> s.producer.Stopped?)
    && (s.consumer.Returned? ==> !u.fails)
    && (s.consumer.Raised? ==> u.fails)
  }

  lemma PullConserves<T(!new)>(s: Pump<T>, u: Upstream<T>)
    requires Enabled(s, Pull) && Conserved(s, u)
    ensures Conserved(Step(s, Pull), u)
  {
  }

  lemma PutConserves<T(!new)>(s: Pump<T>, u: Upstream<T>)
    requires Enabled(s, Put) && Conserved(s, u)
    ensures Conserved(Step(s, Put), u)
  {
    var s' := Step(s, Put);
    ContentsSnoc(s.queue, s.producer.item);
    assert [s.producer.item][1..] == [] && Contents([s.producer.item]) == InHand(s.producer);
    assert Contents(s'.queue) == Contents(s.queue) + InHand(s.producer) && InHand(s'.producer) == [];
    assert Chunks(s.output) + (Contents(s.queue) + InHand(s.producer)) + [] == Chunks(s.output) + Contents(s.queue) + InHand(s.producer);
  }

  lemma TakeConserves<T(!new)>(s: Pump<T>, u: Upstream<T>)
    requires Enabled(s, Take) && Conserved(s, u)
    ensures Conserved(Step(s, Take), u)
  {
    var s' := Step(s, Take);
    if s.queue[0].Chunk? {
      assert s'.output[..|s'.output| - 1] == s.output;
      assert Chunks(s.output) + ([s.queue[0].c] + Contents(s.queue[1..])) == Chunks(s.output) + [s.queue[0].c] + Contents(s.queue[1..]);
    } else {
      assert Contents(s.queue) == Contents(s.queue[1..]);
    }
  }

  lemma StepConserves<T(!new)>(s: Pump<T>, u: Upstream<T>, m: Move)
    requires Enabled(s, m) && Conserved(s, u)
    ensures Conserved(Step(s, m), u)
  {
    match m
    case Pull => PullConserves(s, u);
    case Put => PutConserves(s, u);
    case Take => TakeConserves(s, u);
    case Timeout => assert Step(s, m).output[..|s.output|] == s.output;
    case Resume =>
  }

  lemma StepKeepsEnd<T(!new)>(s: Pump<T>, u: Upstream<T>, m: Move)
    requires Enabled(s, m) && EndIsLast(s, u)
    ensures EndIsLast(Step(s, m), u)
  {
  }

  /** In every state of every interleaving: nothing is lost, duplicated or reordered, and the queue stays within its bound. */
  lemma {:induction false} PumpConserves<T(!new)>(u: Upstream<T>, schedule: seq<Move>)
    ensures Conserved(Run(u, schedule), u) && EndIsLast(Run(u, schedule), u)
  {
    if schedule == [] {
      var s := Start(u);
      assert Chunks(s.output) + Contents(s.queue) + InHand(s.producer) + s.unread == s.unread;
    } else {
      var before, m := Run(u, schedule[..|schedule| - 1]), schedule[|schedule| - 1];
      PumpConserves(u, schedule[..|schedule| - 1]);
      if Enabled(before, m) {
        StepConserves(before, u, m);
        StepKeepsEnd(before, u, m);
      }
    }
  }

  /** What has been yielded is always a prefix of the upstream; a consumer that left the loop has yielded all of it, and raised exactly if the upstream failed. */
  lemma YieldsInOrder<T(!new)>(u: Upstream<T>, schedule: seq<Move>)
    ensures var s := Run(u, schedule);
      && Chunks(s.output) <= u.chunks && |s.queue| <= QUEUE_SIZE
      && (Left(s) ==> Chunks(s.output) == u.chunks && (s.consumer.Raised? <==> u.fails))
  {
    PumpConserves(u, schedule);
    var s := Run(u, schedule);
    FirstOfFour(Chunks(s.output), Contents(s.queue), InHand(s.producer), s.unread);
  }

  lemma FirstOfFour<T>(a: seq<T>, b: seq<T>, c: seq<T>, d: seq<T>)
    ensures a <= a + b + c + d && (b == c == d == [] ==> a == a + b + c + d)
  {
    assert a + b + c + d == a + (b + c + d);
  }

  // ----- Progress -----

  /** Work left: a chunk costs five while unread and less the further it has come; the end marker likewise. */
  function Work<T>(s: Pump<T>): nat {
    5 * |s.unread| + 3 * |s.queue|
    + (match s.producer case Pulling => 6 case Putting(x) => if x.Chunk? then 10 else 5 case Stopped => 0)
    + (match s.consumer case Getting => 1 case Suspended => 2 case _ => 0)
  }

  lemma StepCosts<T>(s: Pump<T>, m: Move)
    requires Enabled(s, m) && !m.Timeout?
    ensures Work(Step(s, m)) < Work(s)
  {
  }

  /** While the consumer keeps reading no state is stuck, and every step but the timeout leaves less work. */
  lemma PumpProgresses<T(!new)>(u: Upstream<T>, schedule: seq<Move>)
    ensures var s := Run(u, schedule);
      && (!Left(s) ==> Enabled(s, Pull) || Enabled(s, Put) || Enabled(s, Take) || Enabled(s, Resume))
      && (Left(s) ==> forall m: Move :: !Enabled(s, m))
      && (forall m: Move :: Enabled(s, m) && !m.Timeout? ==> Work(Step(s, m)) < Work(s))
  {
    PumpConserves(u, schedule);
    var s := Run(u, schedule);
    forall m: Move | Enabled(s, m) && !m.Timeout? ensures Work(Step(s, m)) < Work(s) {
      StepCosts(s, m);
    }
  }

  // ----- Fair schedules finish -----

  function RunFrom<T>(s: Pump<T>, schedule: seq<Move>): Pump<T>
    decreases |schedule|
  {
    if schedule == [] then s
    else RunFrom(if Enabled(s, schedule[0]) then Step(s, schedule[0]) else s, schedule[1..])
  }

  /** All that a step has to keep, in one place. */
  lemma StepAdvances<T(!new)>(s: Pump<T>, u: Upstream<T>, m: Move)
    requires Enabled(s, m) && Conserved(s, u) && EndIsLast(s, u)
    ensures var s' := Step(s, m); Conserved(s', u) && EndIsLast(s', u) && (if m.Timeout? then Work(s') <= Work(s) + 1 else Work(s') < Work(s))
  {
    StepConserves(s, u, m);
    StepKeepsEnd(s, u, m);
    if !m.Timeout? {
      StepCosts(s, m);
    }
  }

  /** Everybody gets a turn; keepalives may fire. */
  predicate FairRound(round: seq<Move>) {
    Pull in round && Put in round && Take in round && Resume in round
  }

  /** How many timeouts a schedule holds. */
  function Timeouts(schedule: seq<Move>): nat {
    if schedule == [] then 0 else (if schedule[0].Timeout? then 1 else 0) + Timeouts(schedule[1..])
  }

  lemma {:induction false} RunFromKeeps<T(!new)>(s: Pump<T>, u: Upstream<T>, schedule: seq<Move>)
    requires EndIsLast(s, u) && Conserved(s, u)
    ensures var s' := RunFrom(s, schedule);
      && EndIsLast(s', u) && Conserved(s', u) && Work(s') <= Work(s) + Timeouts(schedule)
      && (Timeouts(schedule) == 0 ==> forall m :: m in schedule && Enabled(s, m) ==> Work(s') < Work(s))
    decreases |schedule|
  {
    if schedule != [] {
      var m := schedule[0];
      assert schedule == [m] + schedule[1..];
      if Enabled(s, m) {
        StepAdvances(s, u, m);
        RunFromKeeps(Step(s, m), u, schedule[1..]);
      } else {
        RunFromKeeps(s, u, schedule[1..]);
      }
    }
  }

  lemma RoundWorks<T(!new)>(s: Pump<T>, u: Upstream<T>, round: seq<Move>)
    requires EndIsLast(s, u) && Conserved(s, u) && FairRound(round)
    ensures EndIsLast(RunFrom(s, round), u) && Conserved(RunFrom(s, round), u)
    ensures if Left(s) then RunFrom(s, round) == s else Work(RunFrom(s, round)) < Work(s) + 2 * Timeouts(round)
  {
    RunFromKeeps(s, u, round);
    if Left(s) {
      LeftStays(s, u, round);
    } else {
      assert Enabled(s, Pull) || Enabled(s, Put) || Enabled(s, Take) || Enabled(s, Resume);
    }
  }

  function RunRounds<T>(s: Pump<T>, rounds: seq<seq<Move>>): Pump<T> {
    if rounds == [] then s
    else RunFrom(RunRounds(s, rounds[..|rounds| - 1]), rounds[|rounds| - 1])
  }

  function AllTimeouts(rounds: seq<seq<Move>>): nat {
    if rounds == [] then 0 else AllTimeouts(rounds[..|rounds| - 1]) + Timeouts(rounds[|rounds| - 1])
  }

  lemma {:induction false} RoundsCount<T(!new)>(u: Upstream<T>, rounds: seq<seq<Move>>)
    requires forall r :: r in rounds ==> FairRound(r)
    ensures var s := RunRounds(Start(u), rounds);
      && EndIsLast(s, u) && Conserved(s, u)
      && (Left(s) || Work(s) + |rounds| <= 5 * |u.chunks| + 7 + 2 * AllTimeouts(rounds))
  {
    if rounds == [] {
      PumpConserves(u, []);
    } else {
      var init, round := rounds[..|rounds| - 1], rounds[|rounds| - 1];
      RoundsCount(u, init);
      assert round in rounds;
      RoundWorks(RunRounds(Start(u), init), u, round);
    }
  }

  /**
   Fair rounds, in whatever order inside, end the run within a number of rounds fixed by the upstream's length and the
   number of keepalives, with every chunk yielded once and in order.
   */
  lemma FairRunsFinish<T(!new)>(u: Upstream<T>, rounds: seq<seq<Move>>)
    requires forall r :: r in rounds ==> FairRound(r)
    requires |rounds| > 5 * |u.chunks| + 7 + 2 * AllTimeouts(rounds)
    ensures var s := RunRounds(Start(u), rounds); Left(s) && Chunks(s.output) == u.chunks && (s.consumer.Raised? <==> u.fails)
  {
    RoundsCount(u, rounds);
    var s := RunRounds(Start(u), rounds);
    FirstOfFour(Chunks(s.output), Contents(s.queue), InHand(s.producer), s.unread);
  }

  lemma {:induction false} LeftStays<T(!new)>(s: Pump<T>, u: Upstream<T>, schedule: seq<Move>)
    requires Left(s) && EndIsLast(s, u)
    ensures RunFrom(s, schedule) == s
    decreases |schedule|
  {
    if schedule != [] {
      assert !Enabled(s, schedule[0]);
      LeftStays(s, u, schedule[1..]);
    }
  }

  // ----- The pump as the source runs it -----

  /** One turn of the producer task: read a chunk, or put what it holds; at the end of the upstream, note a failure and hold the marker. */
  method Produce<T(!new)>(s: Pump<T>) returns (s': Pump<T>)
    requires s.producer.Pulling? || (s.producer.Putting? && |s.queue| < QUEUE_SIZE)
    ensures s' == Step(s, if s.producer.Pulling? then Pull else Put)
  {
    var unread, queue, errorBox, producer := s.unread, s.queue, s.errorBox, s.producer;
    if producer.Pulling? {
      if unread == [] {
        errorBox := s.fails;
        producer := Putting(StreamEnd);
      } else {
        producer := Putting(Chunk(unread[0]));
        unread := unread[1..];
      }
    } else {
      queue := queue + [producer.item];
      producer := if producer.item.StreamEnd? then Stopped else Pulling;
    }
    s' := s.(unread := unread, queue := queue, errorBox := errorBox, producer := producer);
  }

  /** One turn of the consumer: take an item and yield it or leave, or come back from a `yield`. */
  method Deliver<T(!new)>(s: Pump<T>) returns (s': Pump<T>)
    requires s.consumer.Suspended? || (s.consumer.Getting? && s.queue != [])
    ensures s' == Step(s, if s.consumer.Suspended? then Resume else Take)
  {
    var queue, consumer, output := s.queue, s.consumer, s.output;
    if consumer.Suspended? {
      consumer := Getting;
    } else {
      var item := queue[0];
      queue := queue[1..];
      if item.StreamEnd? {
        consumer := if s.errorBox then Raised else Returned;
      } else {
        output := output + [Yielded(item.c)];
        consumer := Suspended;
      }
    }
    s' := s.(queue := queue, consumer := consumer, output := output);
  }

  /**
   Producer and consumer side by side, each guarded choice being one turn of one of them;
   `beats` is how often the wait may still time out.
   */
  method WrapWithHeartbeat<T(!new)>(u: Upstream<T>, beats: nat) returns (output: seq<Output<T>>, raised: bool)
    ensures Chunks(output) == u.chunks
    ensures raised <==> u.fails
  {
    var s := Start(u);
    var left := beats;
    assert Conserved(s, u) by {
      assert Chunks(s.output) + Contents(s.queue) + InHand(s.producer) + s.unread == s.unread;
    }
    while s.consumer.Getting? || s.consumer.Suspended?
      invariant Conserved(s, u) && EndIsLast(s, u)
      decreases left, Work(s)
    {
      if {
        case s.producer.Pulling? || (s.producer.Putting? && |s.queue| < QUEUE_SIZE) =>
          StepAdvances(s, u, if s.producer.Pulling? then Pull else Put);
          s := Produce(s);
        case s.consumer.Suspended? || (s.consumer.Getting? && s.queue != []) =>
          StepAdvances(s, u, if s.consumer.Suspended? then Resume else Take);
          s := Deliver(s);
        case s.consumer.Getting? && left > 0 =>
          StepAdvances(s, u, Timeout);
          s := s.(output := s.output + [Heartbeat], consumer := Suspended);
          left := left - 1;
      }
    }
    assert Chunks(s.output) + (Contents(s.queue) + InHand(s.producer) + s.unread) == u.chunks;
    output := s.output;
    raised := s.consumer.Raised?;
  }
}
