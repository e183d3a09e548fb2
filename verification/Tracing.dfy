/** What the stamps of a traced run say: the events of one batch form a causal chain, and so do the
    uses of one region, so the producer's reuse of a region is causally after everything done to it. */
module Tracing {
  import opened Wrappers
  import opened Clocks
  import opened Processes
  import opened Channels
  import opened Ring
  import opened RingState
  import opened StageTurns
  import RT = RingTurns

  type Trace = seq<TraceEvent>

  /** The event has happened before everything stamped `v` or later. */
  ghost predicate Known(e: TraceEvent, v: Stamp) {
    AtMost(e.stamp.vector, v.vector)
  }

  /** How far round the ring an event is: sent on channel `i` is `2 * i`, received from it one more. */
  function Rank(c: Config, e: TraceEvent): nat {
    match e.role
    case Supervisor => 0
    case Producer => if e.action == SendAction then 0 else 2 * c.stages + 3
    case Transformer(i) => if e.action == ReceiveAction then 2 * i + 1 else 2 * i + 2
    case Sink => if e.action == ReceiveAction then 2 * c.stages + 1 else 2 * c.stages + 2
  }

  /** One event must come causally before another: it is earlier on the same batch's way round the
      ring, or belongs to a batch at least a whole pool earlier. */
  predicate MustPrecede(c: Config, e: TraceEvent, f: TraceEvent) {
    (e.batch == f.batch && Rank(c, e) < Rank(c, f)) || e.batch + c.pool <= f.batch
  }

  /** Everything that must come before does, by the stamps. */
  ghost predicate Causal(c: Config, trace: Trace) {
    forall i: nat, j: nat :: i < |trace| && j < |trace| && MustPrecede(c, trace[i], trace[j]) ==>
      HappenedBefore(trace[i].stamp, trace[j].stamp)
  }

  /** No event is recorded twice. */
  ghost predicate Once(c: Config, trace: Trace) {
    forall i: nat, j: nat :: i < j < |trace| ==> trace[i].batch != trace[j].batch || Rank(c, trace[i]) != Rank(c, trace[j])
  }

  /** Whoever holds stamp `v` knows all that has happened to batch `b`, none of it further round the
      ring than `rank`, and to the batches a pool or more before. */
  ghost predicate KnowsBatch(c: Config, trace: Trace, b: nat, v: Stamp, rank: int) {
    forall k: nat :: k < |trace| && (trace[k].batch == b || trace[k].batch + c.pool <= b) ==>
      Known(trace[k], v) && (trace[k].batch == b ==> Rank(c, trace[k]) <= rank)
  }

  ghost predicate KnowsReturned(trace: Trace, back: nat, v: Stamp) {
    forall k: nat :: k < |trace| && trace[k].batch < back ==> Known(trace[k], v)
  }

  ghost predicate Started(trace: Trace, sent: nat) {
    forall k: nat :: k < |trace| ==> trace[k].batch < sent
  }

  ghost predicate MessagesKnow(c: Config, x: Counters, qs: Queues, trace: Trace)
    requires |x| == c.stages + 3
  {
    forall i: nat, n: nat :: i <= c.stages + 1 && i in qs && n < |qs[i]| ==> KnowsBatch(c, trace, x[i + 1] + n, qs[i][n].sentAt, 2 * i)
  }

  predicate Recorded(trace: Trace, role: Role, action: Action, batch: nat) {
    exists k | 0 <= k < |trace| :: trace[k].role == role && trace[k].action == action && trace[k].batch == batch
  }

  /** The stages at the two ends of channel `i`. */
  function SenderOf(c: Config, i: nat): Role
    requires i <= c.stages + 1
  {
    if i == 0 then Producer else ConsumerOf(c, i - 1).role
  }

  function ReceiverOf(c: Config, i: nat): Role
    requires i <= c.stages + 1
  {
    if i == c.stages + 1 then Producer else ConsumerOf(c, i).role
  }

  /** Every send and every receive so far is in the trace, and there are no more entries than that: all hops
      but the first and the last are both. */
  ghost predicate Complete(c: Config, x: Counters, trace: Trace)
    requires |x| == c.stages + 3
  {
    && |trace| + x[0] + x[c.stages + 2] == 2 * Messages(x, c.stages + 3)
    && (forall i: nat, b: nat :: i <= c.stages + 1 && b < x[i] ==> Recorded(trace, SenderOf(c, i), SendAction, b))
    && (forall i: nat, b: nat :: i <= c.stages + 1 && b < x[i + 1] ==> Recorded(trace, ReceiverOf(c, i), ReceiveAction, b))
  }

  lemma RecordedMore(trace: Trace, more: Trace, role: Role, action: Action, batch: nat)
    requires Recorded(trace, role, action, batch) || Recorded(more, role, action, batch)
    ensures Recorded(trace + more, role, action, batch)
  {
    if Recorded(trace, role, action, batch) {
      var k :| 0 <= k < |trace| && trace[k].role == role && trace[k].action == action && trace[k].batch == batch;
      assert (trace + more)[k] == trace[k];
    } else {
      var k :| 0 <= k < |more| && more[k].role == role && more[k].action == action && more[k].batch == batch;
      assert (trace + more)[|trace| + k] == more[k];
    }
  }

  /** Hop `h` adds one batch to what is received on channel `h - 1` and sent on channel `h`. */
  lemma CompleteAfter(c: Config, x: Counters, trace: Trace, h: nat, more: Trace)
    requires |x| == c.stages + 3 && Complete(c, x, trace) && h <= c.stages + 2
    requires |more| == if h == 0 || h == c.stages + 2 then 1 else 2
    requires h <= c.stages + 1 ==> Recorded(more, SenderOf(c, h), SendAction, x[h])
    requires h > 0 ==> Recorded(more, ReceiverOf(c, h - 1), ReceiveAction, x[h])
    ensures Complete(c, Hop(x, h), trace + more)
  {
    var y := Hop(x, h);
    Ring.MessagesAfterHop(x, h, c.stages + 3);
    forall i: nat, b: nat | i <= c.stages + 1 && b < y[i] ensures Recorded(trace + more, SenderOf(c, i), SendAction, b) {
      RecordedMore(trace, more, SenderOf(c, i), SendAction, b);
    }
    forall i: nat, b: nat | i <= c.stages + 1 && b < y[i + 1] ensures Recorded(trace + more, ReceiverOf(c, i), ReceiveAction, b) {
      RecordedMore(trace, more, ReceiverOf(c, i), ReceiveAction, b);
    }
  }

  /** Each message knows its batch's past, and the producer knows that of all batches it has back. */
  ghost predicate TraceShows(c: Config, x: Counters, qs: Queues, producer: Stamp, trace: Trace)
    requires |x| == c.stages + 3
  {
    && Causal(c, trace) && Once(c, trace) && Started(trace, x[0]) && (if c.trace then Complete(c, x, trace) else trace == [])
    && MessagesKnow(c, x, qs, trace) && KnowsReturned(trace, x[c.stages + 2], producer)
  }

  lemma KnownLater(e: TraceEvent, v: Stamp, w: Stamp)
    requires Known(e, v) && AtMost(v.vector, w.vector)
    ensures Known(e, w)
  {
    AtMostTransitive(e.stamp.vector, v.vector, w.vector);
  }

  /** A new event is strictly after whatever it follows. */
  lemma EventsAdvance(clock: Stamp, sent: Stamp)
    ensures StrictlyBelow(clock.vector, LocalEvent(clock).vector)
    ensures StrictlyBelow(clock.vector, ReceiveEvent(clock, sent).vector)
    ensures StrictlyBelow(sent.vector, ReceiveEvent(clock, sent).vector)
  {
    var p, merged := clock.process, Merged(clock.vector, sent.vector);
    forall q ensures Get(merged, q) == Max(Get(clock.vector, q), Get(sent.vector, q)) {
      GetMerged(clock.vector, sent.vector, q);
    }
    assert Get(LocalEvent(clock).vector, p) == Get(clock.vector, p) + 1;
    assert Get(ReceiveEvent(clock, sent).vector, p) == Get(merged, p) + 1;
  }

  lemma BelowThenStrict(u: Vector, v: Vector, w: Vector)
    requires AtMost(u, v) && StrictlyBelow(v, w)
    ensures StrictlyBelow(u, w)
  {
    AtMostTransitive(u, v, w);
    if AtMost(w, u) {
      AtMostTransitive(w, u, v);
    }
  }

  /** Appending an event of batch `b` further round the ring, whose stamp is after one that knows the
      batch, keeps the trace causal. */
  lemma CausalAppend(c: Config, trace: Trace, e: TraceEvent, v: Stamp, rank: int)
    requires c.pool > 0 && Causal(c, trace) && KnowsBatch(c, trace, e.batch, v, rank) && rank < Rank(c, e)
    requires StrictlyBelow(v.vector, e.stamp.vector) && Started(trace, e.batch + c.pool) && Once(c, trace)
    ensures Causal(c, trace + [e]) && Once(c, trace + [e]) && KnowsBatch(c, trace + [e], e.batch, e.stamp, Rank(c, e))
  {
    var longer := trace + [e];
    forall i: nat, j: nat | i < |longer| && j < |longer| && MustPrecede(c, longer[i], longer[j])
      ensures HappenedBefore(longer[i].stamp, longer[j].stamp)
    {
      if j < |trace| {
        assert i < |trace| && MustPrecede(c, trace[i], trace[j]);
      } else {
        assert Known(trace[i], v);
        BelowThenStrict(trace[i].stamp.vector, v.vector, e.stamp.vector);
      }
    }
    forall k: nat | k < |longer| && (longer[k].batch == e.batch || longer[k].batch + c.pool <= e.batch)
      ensures Known(longer[k], e.stamp) && (longer[k].batch == e.batch ==> Rank(c, longer[k]) <= Rank(c, e))
    {
      if k < |trace| {
        assert Known(trace[k], v);
        KnownLater(trace[k], v, e.stamp);
      }
    }
  }

  /** An event of another batch, and none a pool earlier, does not concern batch `b`. */
  lemma KnowsKept(c: Config, trace: Trace, e: TraceEvent, b: nat, v: Stamp, rank: int)
    requires KnowsBatch(c, trace, b, v, rank) && e.batch != b && b < e.batch + c.pool
    ensures KnowsBatch(c, trace + [e], b, v, rank)
  {
    var longer := trace + [e];
    forall k: nat | k < |longer| && (longer[k].batch == b || longer[k].batch + c.pool <= b)
      ensures Known(longer[k], v) && (longer[k].batch == b ==> Rank(c, longer[k]) <= rank)
    {
      assert k < |trace| && Known(trace[k], v);
    }
  }

  /** Two events of batch `b` in a row. */
  lemma CausalPair(c: Config, trace: Trace, e: TraceEvent, f: TraceEvent, v: Stamp, rank: int)
    requires c.pool > 0 && Causal(c, trace) && KnowsBatch(c, trace, e.batch, v, rank) && f.batch == e.batch
    requires StrictlyBelow(v.vector, e.stamp.vector) && StrictlyBelow(e.stamp.vector, f.stamp.vector)
    requires rank < Rank(c, e) < Rank(c, f) && Started(trace, e.batch + c.pool) && Once(c, trace)
    ensures Causal(c, trace + [e, f]) && Once(c, trace + [e, f]) && KnowsBatch(c, trace + [e, f], e.batch, f.stamp, Rank(c, f))
  {
    CausalAppend(c, trace, e, v, rank);
    CausalAppend(c, trace + [e], f, e.stamp, Rank(c, e));
    assert trace + [e] + [f] == trace + [e, f];
  }

  lemma KnowsKeptPair(c: Config, trace: Trace, e: TraceEvent, f: TraceEvent, b: nat, v: Stamp, rank: int)
    requires KnowsBatch(c, trace, b, v, rank) && f.batch == e.batch && e.batch != b && b < e.batch + c.pool
    ensures KnowsBatch(c, trace + [e, f], b, v, rank)
  {
    KnowsKept(c, trace, e, b, v, rank);
    KnowsKept(c, trace + [e], f, b, v, rank);
    assert trace + [e] + [f] == trace + [e, f];
  }

  /** A batch on channel `j` is neither the one hop `i` takes nor one that could reuse its region. */
  lemma OtherBatch(c: Config, x: Counters, i: nat, j: nat, v: nat)
    requires Valid(c, x) && i <= c.stages + 1 && j <= c.stages + 1 && x[i + 1] < x[i] && x[j + 1] <= v < x[j]
    ensures j != i ==> v != x[i + 1]
    ensures v < x[i + 1] + c.pool
  {
    Descending(c, x, 0, j);
    Descending(c, x, i + 1, c.stages + 2);
    if j < i {
      Descending(c, x, j + 1, i);
    } else if i < j {
      Descending(c, x, i + 1, j);
    }
  }

  lemma {:induction false} MessagesAfterHop(c: Config, x: Counters, qs: Queues, trace: Trace, i: nat, e: TraceEvent, f: TraceEvent, m: Message)
    requires Valid(c, x) && QueuesShow(c, x, qs) && MessagesKnow(c, x, qs, trace) && i <= c.stages && x[i + 1] < x[i]
    requires e.batch == f.batch == x[i + 1] && KnowsBatch(c, trace + [e, f], x[i + 1], m.sentAt, 2 * (i + 1))
    ensures MessagesKnow(c, Hop(x, i + 1), qs[i := qs[i][1..]][i + 1 := qs[i + 1] + [m]], trace + [e, f])
  {
    var y: Counters, qs': Queues := Hop(x, i + 1), qs[i := qs[i][1..]][i + 1 := qs[i + 1] + [m]];
    forall j: nat, n: nat | j <= c.stages + 1 && j in qs' && n < |qs'[j]|
      ensures KnowsBatch(c, trace + [e, f], y[j + 1] + n, qs'[j][n].sentAt, 2 * j)
    {
      assert QueueShows(c, x, j, qs[j]);
      if j == i + 1 && n == |qs[j]| {
      } else {
        var n0 := if j == i then n + 1 else n;
        assert qs'[j][n] == qs[j][n0] && KnowsBatch(c, trace, x[j + 1] + n0, qs[j][n0].sentAt, 2 * j);
        OtherBatch(c, x, i, j, x[j + 1] + n0);
        KnowsKeptPair(c, trace, e, f, x[j + 1] + n0, qs[j][n0].sentAt, 2 * j);
      }
    }
  }

  /** A stage's turn: receive and send of one batch. */
  lemma {:induction false} TraceAfterHop(c: Config, x: Counters, qs: Queues, producer: Stamp, trace: Trace, i: nat,
                                       e: TraceEvent, f: TraceEvent, m: Message)
    requires Valid(c, x) && QueuesShow(c, x, qs) && TraceShows(c, x, qs, producer, trace)
    requires i <= c.stages && x[i + 1] < x[i] && c.trace
    requires e.batch == f.batch == x[i + 1] && f.stamp == m.sentAt && qs[i] != []
    requires e.role == f.role == ConsumerOf(c, i).role && e.action == ReceiveAction && f.action == SendAction
    requires StrictlyBelow(qs[i][0].sentAt.vector, e.stamp.vector) && StrictlyBelow(e.stamp.vector, f.stamp.vector)
    ensures TraceShows(c, Hop(x, i + 1), qs[i := qs[i][1..]][i + 1 := qs[i + 1] + [m]], producer, trace + [e, f])
  {
    RT.OnChannelBound(c, x, i);
    Descending(c, x, 0, i);
    Descending(c, x, i + 1, c.stages + 2);
    assert KnowsBatch(c, trace, x[i + 1] + 0, qs[i][0].sentAt, 2 * i);
    CausalPair(c, trace, e, f, qs[i][0].sentAt, 2 * i);
    assert [e, f][0] == e && [e, f][1] == f;
    CompleteAfter(c, x, trace, i + 1, [e, f]);
    MessagesAfterHop(c, x, qs, trace, i, e, f, m);
  }

  /** The producer takes a batch back: it then knows all that happened to it. */
  lemma TraceAfterReturn(c: Config, x: Counters, qs: Queues, producer: Stamp, trace: Trace, e: TraceEvent)
    requires Valid(c, x) && QueuesShow(c, x, qs) && TraceShows(c, x, qs, producer, trace)
    requires x[c.stages + 2] < x[c.stages + 1] && c.trace && e.batch == x[c.stages + 2] && qs[c.stages + 1] != []
    requires StrictlyBelow(qs[c.stages + 1][0].sentAt.vector, e.stamp.vector) && AtMost(producer.vector, e.stamp.vector)
    requires e.role == Producer && e.action == ReceiveAction
    ensures TraceShows(c, Hop(x, c.stages + 2), qs[c.stages + 1 := qs[c.stages + 1][1..]], e.stamp, trace + [e])
  {
    var last := c.stages + 1;
    RT.OnChannelBound(c, x, last);
    Descending(c, x, 0, last);
    assert KnowsBatch(c, trace, x[last + 1] + 0, qs[last][0].sentAt, 2 * last);
    CausalAppend(c, trace, e, qs[last][0].sentAt, 2 * last);
    MessagesAfterReturn(c, x, qs, trace, e);
    assert [e][0] == e;
    CompleteAfter(c, x, trace, last + 1, [e]);
    forall k: nat | k < |trace + [e]| && (trace + [e])[k].batch < x[last + 1] + 1 ensures Known((trace + [e])[k], e.stamp) {
      if k < |trace| && trace[k].batch < x[last + 1] {
        KnownLater(trace[k], producer, e.stamp);
      }
    }
  }

  lemma {:induction false} MessagesAfterReturn(c: Config, x: Counters, qs: Queues, trace: Trace, e: TraceEvent)
    requires Valid(c, x) && QueuesShow(c, x, qs) && MessagesKnow(c, x, qs, trace)
    requires x[c.stages + 2] < x[c.stages + 1] && e.batch == x[c.stages + 2]
    ensures MessagesKnow(c, Hop(x, c.stages + 2), qs[c.stages + 1 := qs[c.stages + 1][1..]], trace + [e])
  {
    var last, y: Counters, qs': Queues := c.stages + 1, Hop(x, c.stages + 2), qs[c.stages + 1 := qs[c.stages + 1][1..]];
    forall j: nat, n: nat | j <= last && j in qs' && n < |qs'[j]|
      ensures KnowsBatch(c, trace + [e], y[j + 1] + n, qs'[j][n].sentAt, 2 * j)
    {
      assert QueueShows(c, x, j, qs[j]);
      var n0 := if j == last then n + 1 else n;
      assert qs'[j][n] == qs[j][n0] && KnowsBatch(c, trace, x[j + 1] + n0, qs[j][n0].sentAt, 2 * j);
      OtherBatch(c, x, last, j, x[j + 1] + n0);
      KnowsKept(c, trace, e, x[j + 1] + n0, qs[j][n0].sentAt, 2 * j);
    }
  }

  lemma {:induction false} MessagesAfterSend(c: Config, x: Counters, qs: Queues, trace: Trace, e: TraceEvent, m: Message)
    requires Valid(c, x) && QueuesShow(c, x, qs) && MessagesKnow(c, x, qs, trace) && CanSend(c, x)
    requires e.batch == x[0] && KnowsBatch(c, trace + [e], x[0], m.sentAt, 0)
    ensures MessagesKnow(c, Hop(x, 0), qs[0 := qs[0] + [m]], trace + [e])
  {
    Descending(c, x, 0, c.stages + 2);
    var y: Counters, qs': Queues := Hop(x, 0), qs[0 := qs[0] + [m]];
    forall j: nat, n: nat | j <= c.stages + 1 && j in qs' && n < |qs'[j]|
      ensures KnowsBatch(c, trace + [e], y[j + 1] + n, qs'[j][n].sentAt, 2 * j)
    {
      assert QueueShows(c, x, j, qs[j]);
      if j != 0 || n != |qs[0]| {
        assert KnowsBatch(c, trace, x[j + 1] + n, qs[j][n].sentAt, 2 * j);
        Descending(c, x, 0, j);
        KnowsKept(c, trace, e, x[j + 1] + n, qs[j][n].sentAt, 2 * j);
      }
    }
  }

  /** The producer sends a batch: it knows all that happened to the batch that used the region before. */
  lemma {:induction false} TraceAfterSend(c: Config, x: Counters, qs: Queues, producer: Stamp, trace: Trace, e: TraceEvent, m: Message)
    requires Valid(c, x) && QueuesShow(c, x, qs) && TraceShows(c, x, qs, producer, trace) && CanSend(c, x) && c.trace
    requires e.batch == x[0] && e.stamp == m.sentAt && StrictlyBelow(producer.vector, e.stamp.vector)
    requires e.role == Producer && e.action == SendAction
    ensures TraceShows(c, Hop(x, 0), qs[0 := qs[0] + [m]], e.stamp, trace + [e])
  {
    Descending(c, x, 0, c.stages + 2);
    assert KnowsBatch(c, trace, x[0], producer, -1);
    CausalAppend(c, trace, e, producer, -1);
    assert [e][0] == e;
    CompleteAfter(c, x, trace, 0, [e]);
    MessagesAfterSend(c, x, qs, trace, e, m);
    forall k: nat | k < |trace + [e]| && (trace + [e])[k].batch < x[c.stages + 2] ensures Known((trace + [e])[k], e.stamp) {
      KnownLater(trace[k], producer, e.stamp);
    }
  }

  // ---- a turn of the pipeline ----

  /** The parts of a stage's turn the trace depends on. */
  lemma RelayedIs(c: Config, x: Counters, s: RT.Snapshot, q: nat, s1: RT.Snapshot, d: Delivery)
    returns (r: TurnEffect, stamp: Stamp)
    requires RT.SnapshotShows(c, x, s) && 1 <= q <= c.stages + 1 && x[InputOf(c, q) + 1] < x[InputOf(c, q)]
    requires x[InputOf(c, q) + 1] + 3 < HANDLE_LIMIT
    requires InputOf(c, q) in s.queues && s.queues[InputOf(c, q)] != [] && InputOf(c, q) + 1 in s.queues
    requires (s1, d) == RT.ReceivedBy(c, x, s, q, RT.TurnStamp(c, s, q))
    ensures var i := InputOf(c, q); var stage := ConsumerOf(c, i);
            && MayPassOn(s1, stage, d) && r == Relayed(c, s1, stage, d) && stamp == ReceiveEvent(s.procs[q].clock, s.queues[i][0].sentAt)
            && r.state.queues == s.queues[i := s.queues[i][1..]][i + 1 := s.queues[i + 1] + [RT.Passes(c, x, i, stamp)]]
            && RT.Producer(c) in r.state.procs && r.state.procs[RT.Producer(c)].clock == s.procs[RT.Producer(c)].clock
            && r.trace == RelayEntries(c, stage.role, x[i + 1], stamp, LocalEvent(stamp))
  {
    RT.TurnAllowed(c, x, s, q);
    stamp := RT.TurnStamp(c, s, q);
    PassedOnIs(c, x, s, q, stamp);
    r := Relayed(c, s1, ConsumerOf(c, InputOf(c, q)), d);
  }

  lemma TraceAfterRelay(c: Config, x: Counters, qs: Queues, producer: Stamp, trace: Trace, i: nat, stamp: Stamp,
                        clock: Stamp, qs': Queues, entries: Trace)
    requires Valid(c, x) && QueuesShow(c, x, qs) && TraceShows(c, x, qs, producer, trace)
    requires i <= c.stages && x[i + 1] < x[i] && qs[i] != [] && stamp == ReceiveEvent(clock, qs[i][0].sentAt)
    requires qs' == qs[i := qs[i][1..]][i + 1 := qs[i + 1] + [RT.Passes(c, x, i, stamp)]]
    requires entries == RelayEntries(c, ConsumerOf(c, i).role, x[i + 1], stamp, LocalEvent(stamp))
    ensures TraceShows(c, Hop(x, i + 1), qs', producer, trace + entries)
  {
    var role := ConsumerOf(c, i).role;
    if c.trace {
      EventsAdvance(clock, qs[i][0].sentAt);
      EventsAdvance(stamp, stamp);
      var e, f := TraceEvent(role, ReceiveAction, x[i + 1], stamp), TraceEvent(role, SendAction, x[i + 1], LocalEvent(stamp));
      TraceAfterHop(c, x, qs, producer, trace, i, e, f, RT.Passes(c, x, i, stamp));
      assert entries == [e, f];
    } else {
      assert trace + entries == [];
    }
  }

  ghost predicate Traced(c: Config, x: Counters, s: RT.Snapshot, trace: Trace)
    requires |x| == c.stages + 3
  {
    RT.Producer(c) in s.procs && TraceShows(c, x, s.queues, s.procs[RT.Producer(c)].clock, trace)
  }

  lemma HopTraced(c: Config, x: Counters, s: RT.Snapshot, q: nat, s1: RT.Snapshot, d: Delivery, trace: Trace)
    returns (r: TurnEffect)
    requires RT.SnapshotShows(c, x, s) && 1 <= q <= c.stages + 1 && x[InputOf(c, q) + 1] < x[InputOf(c, q)]
    requires Traced(c, x, s, trace) && x[InputOf(c, q) + 1] + 3 < HANDLE_LIMIT
    requires InputOf(c, q) in s.queues && s.queues[InputOf(c, q)] != [] && InputOf(c, q) + 1 in s.queues
    requires (s1, d) == RT.ReceivedBy(c, x, s, q, RT.TurnStamp(c, s, q))
    ensures MayPassOn(s1, ConsumerOf(c, InputOf(c, q)), d) && r == Relayed(c, s1, ConsumerOf(c, InputOf(c, q)), d)
    ensures Traced(c, Hop(x, InputOf(c, q) + 1), r.state, trace + r.trace)
  {
    var stamp;
    r, stamp := RelayedIs(c, x, s, q, s1, d);
    TraceAfterRelay(c, x, s.queues, s.procs[RT.Producer(c)].clock, trace, InputOf(c, q), stamp, s.procs[q].clock, r.state.queues, r.trace);
  }

  /** The parts of a return the trace depends on. */
  lemma ReturnedIs(c: Config, x: Counters, s: RT.Snapshot)
    requires RT.SnapshotShows(c, x, s) && x[c.stages + 2] < x[c.stages + 1]
    ensures var last, stage, p := c.stages + 1, ProducerStage(c, x), RT.Producer(c);
            && Returns(s, stage, true) && p in s.procs && last in s.queues && s.queues[last] != []
            && var d, s' := Returned(s, stage), AfterReceiving(s, stage);
               && d.data == x[last + 1] && d.receivedAt == ReceiveEvent(s.procs[p].clock, s.queues[last][0].sentAt)
               && p in s'.procs && s'.queues == s.queues[last := s.queues[last][1..]] && s'.procs[p].clock == d.receivedAt
  {
    var last, p := c.stages + 1, s.procs[RT.Producer(c)];
    ReturnTurnMeans(c, x, s);
    assert QueueShows(c, x, last, s.queues[last]);
    RT.OnChannelBound(c, x, last);
    RT.ReceiveBatch(c, x, s.kernel, s.queues, last, p);
  }

  lemma TraceAfterDrained(c: Config, x: Counters, qs: Queues, clock: Stamp, trace: Trace)
    requires Valid(c, x) && QueuesShow(c, x, qs) && TraceShows(c, x, qs, clock, trace)
    requires x[c.stages + 2] < x[c.stages + 1] && qs[c.stages + 1] != []
    ensures var last := c.stages + 1; var stamp := ReceiveEvent(clock, qs[last][0].sentAt);
            TraceShows(c, Hop(x, last + 1), qs[last := qs[last][1..]], stamp,
                       trace + Entry(c, Producer, ReceiveAction, x[last + 1], stamp))
  {
    var stamp := ReceiveEvent(clock, qs[c.stages + 1][0].sentAt);
    if c.trace {
      EventsAdvance(clock, qs[c.stages + 1][0].sentAt);
      TraceAfterReturn(c, x, qs, clock, trace, TraceEvent(Producer, ReceiveAction, x[c.stages + 2], stamp));
    } else {
      assert trace + Entry(c, Producer, ReceiveAction, x[c.stages + 2], stamp) == [];
    }
  }

  lemma ReturnTraced(c: Config, x: Counters, s: RT.Snapshot, trace: Trace)
    requires RT.SnapshotShows(c, x, s) && x[c.stages + 2] < x[c.stages + 1] && Traced(c, x, s, trace)
    ensures var stage := ProducerStage(c, x);
            && Returns(s, stage, true)
            && var d := Returned(s, stage);
               Traced(c, Hop(x, c.stages + 2), AfterReceiving(s, stage), trace + Entry(c, Producer, ReceiveAction, d.data, d.receivedAt))
  {
    ReturnedIs(c, x, s);
    TraceAfterDrained(c, x, s.queues, s.procs[RT.Producer(c)].clock, trace);
  }

  lemma SentIs(c: Config, x: Counters, s: RT.Snapshot) returns (clock: Stamp, m: Message)
    requires RT.SnapshotShows(c, x, s) && CanSend(c, x)
    ensures var stage, p := ProducerStage(c, x), RT.Producer(c);
            && MayFill(s, stage) && p in s.procs && 0 in s.queues && s.procs[p].clock == clock && m.sentAt == LocalEvent(clock)
            && var r := Sending(c, s, stage);
               && r.state.queues == s.queues[0 := s.queues[0] + [m]] && p in r.state.procs && r.state.procs[p].clock == m.sentAt
               && r.trace == Entry(c, Producer, SendAction, x[0], m.sentAt)
  {
    RT.SendAllowed(c, x, s);
    FilledIs(c, x, s);
    clock := s.procs[RT.Producer(c)].clock;
    var cap := RegionCap(c, x, x[0]);
    m := Message(x[0], [cap.(epoch := cap.epoch + 1)], LocalEvent(clock));
  }

  lemma {:induction false} SendTraced(c: Config, x: Counters, s: RT.Snapshot, trace: Trace)
    requires RT.SnapshotShows(c, x, s) && CanSend(c, x) && Traced(c, x, s, trace)
    ensures MayFill(s, ProducerStage(c, x))
    ensures var r := Sending(c, s, ProducerStage(c, x)); Traced(c, Hop(x, 0), r.state, trace + r.trace)
  {
    var clock, m := SentIs(c, x, s);
    TraceAfterSending(c, x, s.queues, clock, trace, m);
  }

  lemma TraceAfterSending(c: Config, x: Counters, qs: Queues, clock: Stamp, trace: Trace, m: Message)
    requires Valid(c, x) && QueuesShow(c, x, qs) && TraceShows(c, x, qs, clock, trace) && CanSend(c, x)
    requires m.sentAt == LocalEvent(clock)
    ensures TraceShows(c, Hop(x, 0), qs[0 := qs[0] + [m]], m.sentAt, trace + Entry(c, Producer, SendAction, x[0], m.sentAt))
  {
    if c.trace {
      EventsAdvance(clock, clock);
      TraceAfterSend(c, x, qs, clock, trace, TraceEvent(Producer, SendAction, x[0], m.sentAt), m);
    } else {
      assert trace + Entry(c, Producer, SendAction, x[0], m.sentAt) == [];
    }
  }

  /** The next return taken back, in every respect at once. */
  lemma TakeBack(c: Config, x: Counters, s: RT.Snapshot, trace: Trace, s1: RT.Snapshot, d: Delivery)
    requires RT.SnapshotShows(c, x, s) && Traced(c, x, s, trace) && Returns(s, ProducerStage(c, x), true)
    requires s1 == AfterReceiving(s, ProducerStage(c, x)) && d == Returned(s, ProducerStage(c, x))
    ensures var y := Hop(x, c.stages + 2);
            && Valid(c, y) && Drain(c, y) == Drain(c, x) && RT.SnapshotShows(c, y, s1)
            && |d.handles| == 1 && Freed(ProducerStage(c, x), d.handles[0]) == ProducerStage(c, y) && 0 <= d.data
            && Traced(c, y, s1, trace + Entry(c, Producer, ReceiveAction, d.data, d.receivedAt))
  {
    ReturnTurnMeans(c, x, s);
    ReturnTraced(c, x, s, trace);
  }

  lemma NothingBack(c: Config, x: Counters, s: RT.Snapshot)
    requires RT.SnapshotShows(c, x, s) && Returns(s, ProducerStage(c, x), false)
    ensures Drain(c, x) == x
  {
    ReturnTurnMeans(c, x, s);
  }

  lemma {:induction false} DrainTraced(c: Config, x: Counters, s: RT.Snapshot, all: Receipts, trace: Trace)
    requires RT.SnapshotShows(c, x, s) && Drains(s, ProducerStage(c, x), all) && Traced(c, x, s, trace)
    ensures var d := Drained(c, s, ProducerStage(c, x), all);
            && RT.SnapshotShows(c, Drain(c, x), d.0) && d.1 == ProducerStage(c, Drain(c, x))
            && Traced(c, Drain(c, x), d.0, trace + d.2)
    decreases |all|
  {
    if all == [] {
      NothingBack(c, x, s);
      assert trace + [] == trace;
    } else {
      var y, s1, d := Hop(x, c.stages + 2), all[0].0, all[0].1;
      TakeBack(c, x, s, trace, s1, d);
      var entry := Entry(c, Producer, ReceiveAction, d.data, d.receivedAt);
      DrainTraced(c, y, s1, all[1..], trace + entry);
      Regrouped(trace, entry, Drained(c, s1, ProducerStage(c, y), all[1..]).2);
    }
  }

  lemma FinishTraced(c: Config, x: Counters, s: RT.Snapshot, entries: Trace, any: bool, trace: Trace)
    requires RT.SnapshotShows(c, x, s) && Traced(c, x, s, trace + entries)
    ensures Wants(c, ProducerStage(c, x)) ==> MayFill(s, ProducerStage(c, x))
    ensures var d := FinishTurn(c, s, ProducerStage(c, x), entries, any);
            Traced(c, SentIfAny(c, x), d.state, trace + d.trace)
  {
    if CanSend(c, x) {
      AfterSendingIs(c, x);
      SendTraced(c, x, s, trace + entries);
      Regrouped(trace, entries, Sending(c, s, ProducerStage(c, x)).trace);
    }
  }

  lemma ProduceTraced(c: Config, x: Counters, s: RT.Snapshot, all: Receipts, trace: Trace)
    requires RT.SnapshotShows(c, x, s) && MayProduce(c, s, ProducerStage(c, x), all) && Traced(c, x, s, trace)
    ensures var d := Produced(c, s, ProducerStage(c, x), all);
            Traced(c, Step(c, x, c.stages + 2).0, d.state, trace + d.trace)
  {
    DrainTraced(c, x, s, all, trace);
    var d := Drained(c, s, ProducerStage(c, x), all);
    FinishTraced(c, Drain(c, x), d.0, d.2, all != [], trace);
    ProducerStep(c, x);
  }

  lemma {:induction false} FoundIs(c: Config, x: Counters, s: RT.Snapshot, q: nat, found: Option<(RT.Snapshot, Delivery)>)
    requires RT.SnapshotShows(c, x, s) && 1 <= q <= c.stages + 1 && Finds(s, ConsumerOf(c, InputOf(c, q)), found)
    ensures var i := InputOf(c, q);
            && i in s.queues && i + 1 in s.queues && (found.Some? <==> x[i + 1] < x[i])
            && (found.Some? ==> x[i + 1] + 3 < HANDLE_LIMIT && s.queues[i] != [] &&
                                found.value == RT.ReceivedBy(c, x, s, q, RT.TurnStamp(c, s, q)))
  {
    RT.TurnReceives(c, x, s, q);
    RT.OnChannelBound(c, x, InputOf(c, q));
  }

  /** A turn that passes a batch on. */
  lemma PassTraced(c: Config, x: Counters, s: RT.Snapshot, q: nat, s1: RT.Snapshot, d: Delivery, trace: Trace)
    requires RT.SnapshotShows(c, x, s) && 1 <= q <= c.stages + 1 && Traced(c, x, s, trace)
    requires Finds(s, ConsumerOf(c, InputOf(c, q)), Some((s1, d)))
    ensures MayPassOn(s1, ConsumerOf(c, InputOf(c, q)), d)
    ensures var r := Relayed(c, s1, ConsumerOf(c, InputOf(c, q)), d); Traced(c, Step(c, x, q).0, r.state, trace + r.trace)
  {
    FoundIs(c, x, s, q, Some((s1, d)));
    StepHops(c, x, q);
    var _ := HopTraced(c, x, s, q, s1, d, trace);
  }

  /** A turn that finds nothing. */
  lemma RestTraced(c: Config, x: Counters, s: RT.Snapshot, q: nat, trace: Trace)
    requires RT.SnapshotShows(c, x, s) && 1 <= q <= c.stages + 1 && Traced(c, x, s, trace)
    requires Finds(s, ConsumerOf(c, InputOf(c, q)), None)
    ensures Traced(c, Step(c, x, q).0, s, trace + [])
  {
    FoundIs(c, x, s, q, None);
    assert trace + [] == trace;
  }

  lemma RelayTraced(c: Config, x: Counters, s: RT.Snapshot, q: nat, found: Option<(RT.Snapshot, Delivery)>, trace: Trace)
    requires RT.SnapshotShows(c, x, s) && 1 <= q <= c.stages + 1 && Traced(c, x, s, trace)
    requires Allowed(c, s, ConsumerOf(c, InputOf(c, q)), Relay(found))
    ensures var d := DoneBy(c, s, ConsumerOf(c, InputOf(c, q)), Relay(found));
            Traced(c, Step(c, x, q).0, d.state, trace + d.trace)
  {
    match found
    case None => RestTraced(c, x, s, q, trace);
    case Some((s1, d)) => PassTraced(c, x, s, q, s1, d, trace);
  }

  /** Whatever turn comes next, the trace goes on showing what it should. */
  lemma TurnTraced(c: Config, x: Counters, s: RT.Snapshot, stages: seq<Stage>, q: nat, w: Work, trace: Trace)
    requires RT.SnapshotShows(c, x, s) && StagesShow(c, x, stages) && q < c.stages + 3 && Allowed(c, s, stages[q], w)
    requires Traced(c, x, s, trace)
    ensures var d := DoneBy(c, s, stages[q], w); Traced(c, Step(c, x, q).0, d.state, trace + d.trace)
  {
    if q == 0 {
      assert trace + [] == trace;
    } else if q <= c.stages + 1 {
      assert stages[q] == ConsumerOf(c, InputOf(c, q));
      RelayTraced(c, x, s, q, w.found, trace);
    } else {
      ProduceTraced(c, x, s, w.all, trace);
    }
  }

  lemma TraceStart(c: Config, s: RT.Snapshot)
    requires RT.SnapshotShows(c, Start(c), s)
    ensures Traced(c, Start(c), s, [])
  {
    assert forall b: nat, v: Stamp, rank: int :: KnowsBatch(c, [], b, v, rank);
    MessagesWhenEqual(Start(c), 0, c.stages + 3);
  }

  // ---- what a finished trace says ----

  /** A batch's way round: what is sent on channel `i` is received from it later, and every event of a
      stage further on happens after every event of one before. */
  lemma HopsAreCausal(c: Config, x: Counters, trace: Trace, i: nat, j: nat, b: nat) returns (k: nat, l: nat)
    requires |x| == c.stages + 3 && Causal(c, trace) && Complete(c, x, trace)
    requires i <= j <= c.stages + 1 && b < x[i] && b < x[j + 1]
    ensures k < |trace| && trace[k].role == SenderOf(c, i) && trace[k].action == SendAction && trace[k].batch == b
    ensures l < |trace| && trace[l].role == ReceiverOf(c, j) && trace[l].action == ReceiveAction && trace[l].batch == b
    ensures HappenedBefore(trace[k].stamp, trace[l].stamp)
  {
    assert Recorded(trace, SenderOf(c, i), SendAction, b) && Recorded(trace, ReceiverOf(c, j), ReceiveAction, b);
    k :| 0 <= k < |trace| && trace[k].role == SenderOf(c, i) && trace[k].action == SendAction && trace[k].batch == b;
    l :| 0 <= l < |trace| && trace[l].role == ReceiverOf(c, j) && trace[l].action == ReceiveAction && trace[l].batch == b;
    assert MustPrecede(c, trace[k], trace[l]);
  }

  /** Flow control is causal: the sink's send of batch `b` happened before the producer's send of the
      next batch in the same region. */
  lemma ReuseFollowsReturn(c: Config, x: Counters, trace: Trace, b: nat) returns (k: nat, l: nat)
    requires |x| == c.stages + 3 && Causal(c, trace) && Complete(c, x, trace)
    requires b < x[c.stages + 1] && b + c.pool < x[0]
    ensures k < |trace| && trace[k].role == Sink && trace[k].action == SendAction && trace[k].batch == b
    ensures l < |trace| && trace[l].role == Producer && trace[l].action == SendAction && trace[l].batch == b + c.pool
    ensures HappenedBefore(trace[k].stamp, trace[l].stamp)
  {
    assert Recorded(trace, SenderOf(c, c.stages + 1), SendAction, b) && Recorded(trace, SenderOf(c, 0), SendAction, b + c.pool);
    k :| 0 <= k < |trace| && trace[k].role == Sink && trace[k].action == SendAction && trace[k].batch == b;
    l :| 0 <= l < |trace| && trace[l].role == Producer && trace[l].action == SendAction && trace[l].batch == b + c.pool;
    assert MustPrecede(c, trace[k], trace[l]);
  }
}
