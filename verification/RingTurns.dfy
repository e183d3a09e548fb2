/** One turn of the ring pipeline on kernel values: each kernel call a stage makes succeeds, and its
    outcome is the one the counters stand for. */
module RingTurns {
  import opened Wrappers
  import opened Rights
  import opened Capabilities
  import opened Clocks
  import opened Processes
  import opened Transfers
  import opened Channels
  import opened Data
  import opened Ring
  import opened RingState
  import Regions

  const I64_RANGE: nat := 0x1_0000_0000_0000_0000

  /** Batch numbers travel as signed words. */
  function AsSigned(n: nat): int {
    if n < I64_RANGE / 2 then n else n - I64_RANGE
  }

  function AsUnsigned(i: int): int {
    if i < 0 then i + I64_RANGE else i
  }

  /** Sending a batch number as a signed word and reading it back loses nothing. */
  lemma SignedRoundTrip(n: nat)
    requires n < I64_RANGE
    ensures AsUnsigned(AsSigned(n)) == n && -(I64_RANGE / 2) <= AsSigned(n) < I64_RANGE / 2
  {
  }

  /** All the kernel holds for the pipeline, except the tables. */
  ghost predicate Shows(c: Config, x: Counters, k: KernelState, qs: Queues, m: Regions.Store) {
    Valid(c, x) && KernelShows(c, x, k) && QueuesShow(c, x, qs) && StoreShows(c, x, m)
  }

  // ---- receiving ----

  /** With nothing on its channel a stage's receive finds nothing and changes nothing. */
  lemma ReceiveNothing(c: Config, x: Counters, k: KernelState, qs: Queues, i: nat, p: ProcState)
    requires Valid(c, x) && KernelShows(c, x, k) && QueuesShow(c, x, qs) && i <= c.stages + 1 && x[i + 1] == x[i]
    ensures ReceiveOutcome(k, qs, Capability(i, {READ}, 0), p) == Ok(None)
  {
    assert QueueShows(c, x, i, qs[i]);
  }

  /** A receive on channel `i` brings its oldest batch, under the receiver's next handle. */
  lemma ReceiveBatch(c: Config, x: Counters, k: KernelState, qs: Queues, i: nat, p: ProcState)
    requires Valid(c, x) && KernelShows(c, x, k) && QueuesShow(c, x, qs) && i <= c.stages + 1 && x[i + 1] < x[i]
    requires p.nextHandle + 1 < HANDLE_LIMIT
    ensures var r := ReceiveOutcome(k, qs, Capability(i, {READ}, 0), p);
            && r.Ok? && r.value.Some? && r.value.value.queues == qs[i := qs[i][1..]]
            && r.value.value.delivery.data == x[i + 1] && r.value.value.delivery.handles == [p.nextHandle]
            && r.value.value.delivery.sentAt == qs[i][0].sentAt
            && r.value.value.delivery.receivedAt == ReceiveEvent(p.clock, qs[i][0].sentAt)
            && r.value.value.receiver ==
               ProcState(p.table[p.nextHandle := RegionCap(c, x, x[i + 1])], p.nextHandle + 1,
                         r.value.value.delivery.receivedAt)
  {
    assert QueueShows(c, x, i, qs[i]);
    QueuePopped(c, x, i, qs[i]);
    GrantOne(p, RegionCap(c, x, x[i + 1]));
  }

  lemma OnChannelBound(c: Config, x: Counters, i: nat)
    requires Valid(c, x) && i <= c.stages + 1
    ensures x[i + 1] <= x[i] <= c.batches
    ensures x[i + 1] < x[i] ==> InWindow(c, x, x[i + 1]) && c.pool > 0
  {
    Descending(c, x, 0, i);
    if x[i + 1] < x[i] {
      OnChannel(c, x, i, x[i + 1]);
    }
  }

  // ---- whole turns ----

  lemma ValidAfterHop(c: Config, x: Counters, i: nat)
    requires Valid(c, x) && i <= c.stages + 1 && x[i + 1] < x[i]
    ensures Valid(c, Hop(x, i + 1))
  {
  }

  /** Queues once the batch at the head of channel `i` has gone on to channel `i + 1`. */
  lemma QueuesAfterHop(c: Config, x: Counters, qs: Queues, i: nat, msg: Message)
    requires Valid(c, x) && QueuesShow(c, x, qs) && i <= c.stages && x[i + 1] < x[i]
    requires msg.data == x[i + 1] && msg.caps == [RegionCap(c, Hop(x, i + 1), x[i + 1])]
    ensures QueuesShow(c, Hop(x, i + 1), qs[i := qs[i][1..]][i + 1 := qs[i + 1] + [msg]])
  {
    var y, qs' := Hop(x, i + 1), qs[i := qs[i][1..]][i + 1 := qs[i + 1] + [msg]];
    OnChannel(c, x, i, x[i + 1]);
    forall h | 0 <= h <= c.stages + 1 ensures h in qs' && QueueShows(c, y, h, qs'[h]) {
      assert QueueShows(c, x, h, qs[h]);
      if h == i {
        QueuePopped(c, x, i, qs[i]);
      } else if h == i + 1 {
        QueuePushed(c, x, i + 1, qs[i + 1], msg);
      } else {
        if h < i {
          Descending(c, x, h + 1, i);
        } else {
          Descending(c, x, i + 1, h);
        }
        QueueKept(c, x, i + 1, h, qs[h]);
      }
    }
  }

  /** After a hop, everything shows the next counters. */
  lemma ShowsAfterHop(c: Config, x: Counters, k: KernelState, qs: Queues, m: Regions.Store, i: nat, msg: Message, bytes: seq<byte>)
    requires Shows(c, x, k, qs, m) && i <= c.stages && x[i + 1] < x[i]
    requires msg.data == x[i + 1] && msg.caps == [RegionCap(c, Hop(x, i + 1), x[i + 1])]
    requires i < c.stages ==> bytes == WorkedBytes(c.seed, x[i + 1], c.regionSize, i + 1)
    ensures Shows(c, Hop(x, i + 1), BumpAll(k, {RegionId(c, Slot(c, x[i + 1]))}),
                  qs[i := qs[i][1..]][i + 1 := qs[i + 1] + [msg]],
                  if i < c.stages then m[RegionId(c, Slot(c, x[i + 1])) := bytes] else m)
  {
    OnChannel(c, x, i, x[i + 1]);
    ValidAfterHop(c, x, i);
    KernelAfterSend(c, x, k, i + 1);
    QueuesAfterHop(c, x, qs, i, msg);
    if i < c.stages {
      StoreAfterHop(c, x, m, i + 1, bytes);
    } else {
      StoreAfterReturn(c, x, m, i + 1);
    }
  }

  lemma QueuesAfterDrain(c: Config, x: Counters, qs: Queues)
    requires Valid(c, x) && QueuesShow(c, x, qs) && x[c.stages + 2] < x[c.stages + 1]
    ensures QueuesShow(c, Hop(x, c.stages + 2), qs[c.stages + 1 := qs[c.stages + 1][1..]])
  {
    var last, qs' := c.stages + 1, qs[c.stages + 1 := qs[c.stages + 1][1..]];
    forall h | 0 <= h <= last ensures h in qs' && QueueShows(c, Hop(x, last + 1), h, qs'[h]) {
      assert QueueShows(c, x, h, qs[h]);
      if h == last {
        QueuePopped(c, x, h, qs[h]);
      } else {
        QueueKept(c, x, last + 1, h, qs[h]);
      }
    }
  }

  /** After the producer has taken one batch back, everything shows the next counters. */
  lemma ShowsAfterDrain(c: Config, x: Counters, k: KernelState, qs: Queues, m: Regions.Store)
    requires Shows(c, x, k, qs, m) && x[c.stages + 2] < x[c.stages + 1]
    ensures Shows(c, Hop(x, c.stages + 2), k, qs[c.stages + 1 := qs[c.stages + 1][1..]], m)
  {
    ValidAfterHop(c, x, c.stages + 1);
    KernelAfterDrain(c, x, k);
    StoreAfterReturn(c, x, m, c.stages + 2);
    QueuesAfterDrain(c, x, qs);
  }

  lemma QueuesAfterSend(c: Config, x: Counters, qs: Queues, msg: Message)
    requires Valid(c, x) && QueuesShow(c, x, qs) && CanSend(c, x)
    requires msg.data == x[0] && msg.caps == [RegionCap(c, Hop(x, 0), x[0])]
    ensures QueuesShow(c, Hop(x, 0), qs[0 := qs[0] + [msg]])
  {
    var qs' := qs[0 := qs[0] + [msg]];
    Descending(c, x, 0, c.stages + 2);
    forall h | 0 <= h <= c.stages + 1 ensures h in qs' && QueueShows(c, Hop(x, 0), h, qs'[h]) {
      assert QueueShows(c, x, h, qs[h]);
      if h == 0 {
        QueuePushed(c, x, 0, qs[0], msg);
      } else {
        Descending(c, x, 0, h);
        QueueKept(c, x, 0, h, qs[h]);
      }
    }
  }

  /** After the producer has sent a batch, everything shows the next counters. */
  lemma ShowsAfterSend(c: Config, x: Counters, k: KernelState, qs: Queues, m: Regions.Store, msg: Message)
    requires Shows(c, x, k, qs, m) && CanSend(c, x)
    requires msg.data == x[0] && msg.caps == [RegionCap(c, Hop(x, 0), x[0])]
    ensures Shows(c, Hop(x, 0), BumpAll(k, {RegionId(c, Slot(c, x[0]))}), qs[0 := qs[0] + [msg]],
                  m[RegionId(c, Slot(c, x[0])) := BatchBytes(c.seed, x[0], c.regionSize)])
  {
    Descending(c, x, 0, c.stages + 2);
    KernelAfterSend(c, x, k, 0);
    StoreAfterHop(c, x, m, 0, BatchBytes(c.seed, x[0], c.regionSize));
    QueuesAfterSend(c, x, qs, msg);
  }

  // ---- the producer's table ----

  /** A hop beyond the producer does not touch what the producer holds. */
  lemma ProducerAfterHop(c: Config, x: Counters, i: nat, p: ProcState)
    requires Valid(c, x) && ProducerShows(c, x, p) && i <= c.stages && x[i + 1] < x[i]
    ensures ProducerShows(c, Hop(x, i + 1), p)
  {
    OnChannel(c, x, i, x[i + 1]);
    Descending(c, x, 0, i);
    Descending(c, x, 0, c.stages + 2);
    forall h: nat | h in p.table && h >= 2 ensures p.table[h] == RegionCap(c, Hop(x, i + 1), h - 2) {
      CapAfterHop(c, x, i + 1, h - 2);
    }
  }

  /** A returned region is free again, for the batch `pool` later. */
  lemma {:induction false} ProducerAfterDrain(c: Config, x: Counters, p: ProcState, p': ProcState)
    requires Valid(c, x) && ProducerShows(c, x, p) && x[c.stages + 2] < x[c.stages + 1]
    requires p'.table == p.table[p.nextHandle := RegionCap(c, x, x[c.stages + 2])] && p'.nextHandle == p.nextHandle + 1
    ensures ProducerShows(c, Hop(x, c.stages + 2), p')
  {
    var back, y := x[c.stages + 2], Hop(x, c.stages + 2);
    Descending(c, x, 0, c.stages + 1);
    SlotAhead(c, back, c.pool);
    EpochAfterHop(c, x, c.stages + 2, Slot(c, back));
    forall h: nat | h in p'.table && h >= 2 ensures p'.table[h] == RegionCap(c, y, h - 2) {
      if h != p.nextHandle {
        CapAfterHop(c, x, c.stages + 2, h - 2);
      }
    }
  }

  /** The free region at the front has gone out with the batch. */
  lemma ProducerAfterSend(c: Config, x: Counters, p: ProcState, p': ProcState)
    requires Valid(c, x) && ProducerShows(c, x, p) && CanSend(c, x)
    requires p'.table == p.table - {2 + x[0]} && p'.nextHandle == p.nextHandle
    ensures ProducerShows(c, Hop(x, 0), p')
  {
    Descending(c, x, 0, c.stages + 2);
    forall h: nat | h in p'.table && h >= 2 ensures p'.table[h] == RegionCap(c, Hop(x, 0), h - 2) {
      CapAfterHop(c, x, 0, h - 2);
    }
  }

  /** A stage's table is the same before and after its turn. */
  lemma StageAfterTurn(input: nat, h: Handle, cap: Capability)
    requires h >= 2
    ensures StageTable(input)[h := cap] - {h} == StageTable(input)
  {
  }

  // ---- the whole state ----

  /** The kernel's state as the pipeline sees it. */
  datatype Snapshot = Snapshot(kernel: KernelState, queues: Queues, store: Regions.Store, procs: map<ProcessId, ProcState>)

  /** Every table is the one the counters stand for. */
  ghost predicate ProcsShow(c: Config, x: Counters, procs: map<ProcessId, ProcState>)
    requires |x| == c.stages + 3
  {
    && (forall q: nat :: q in procs <==> q < c.stages + 3)
    && procs[0].table == SupervisorTable(c)
    && (forall q :: 1 <= q <= c.stages + 1 ==> StageShows(c, x, InputOf(c, q), procs[q]))
    && ProducerShows(c, x, procs[c.stages + 2])
  }

  /** Every part of the state is the one the counters stand for. */
  ghost predicate SnapshotShows(c: Config, x: Counters, s: Snapshot) {
    InBounds(c) && Shows(c, x, s.kernel, s.queues, s.store) && ProcsShow(c, x, s.procs)
  }

  /** The state after process `q` has received on `channel`. */
  function AfterReceive(s: Snapshot, q: ProcessId, channel: Capability): Snapshot
    requires q in s.procs
  {
    match ReceiveOutcome(s.kernel, s.queues, channel, s.procs[q])
    case Err(_) => s
    case Ok(None) => s
    case Ok(Some(r)) => s.(queues := r.queues, procs := s.procs[q := r.receiver])
  }

  /** The state and the delivery once stage `q` has received the batch at the head of its channel. */
  function ReceivedBy(c: Config, x: Counters, s: Snapshot, q: nat, stamp: Stamp): (Snapshot, Delivery)
    requires |x| == c.stages + 3 && 1 <= q <= c.stages + 1 && x[InputOf(c, q) + 1] + 3 < HANDLE_LIMIT
    requires InputOf(c, q) in s.queues && s.queues[InputOf(c, q)] != []
  {
    var i, b := InputOf(c, q), x[InputOf(c, q) + 1];
    (s.(queues := s.queues[i := s.queues[i][1..]],
        procs := s.procs[q := ProcState(StageTable(i)[2 + b := RegionCap(c, x, b)], b + 3, stamp)]),
     Delivery(b, [2 + b], s.queues[i][0].sentAt, stamp))
  }

  /** The stamp of the receive a stage makes at its turn. */
  function TurnStamp(c: Config, s: Snapshot, q: nat): Stamp
    requires 1 <= q <= c.stages + 1 && q in s.procs && InputOf(c, q) in s.queues && s.queues[InputOf(c, q)] != []
  {
    ReceiveEvent(s.procs[q].clock, s.queues[InputOf(c, q)][0].sentAt)
  }

  /** What a stage finds on its channel at its turn. */
  lemma {:induction false} TurnReceives(c: Config, x: Counters, s: Snapshot, q: nat)
    requires SnapshotShows(c, x, s) && 1 <= q <= c.stages + 1
    ensures var i := InputOf(c, q); var p := s.procs[q]; var o := ReceiveOutcome(s.kernel, s.queues, p.table[0], p);
            && p.table == StageTable(i) && i in s.queues && i + 1 in s.queues
            && (x[i + 1] == x[i] ==> o == Ok(None))
            && (x[i + 1] < x[i] ==>
                  && x[i + 1] + 3 < HANDLE_LIMIT && s.queues[i] != []
                  && o.Ok? && o.value.Some? && o.value.value.delivery == ReceivedBy(c, x, s, q, TurnStamp(c, s, q)).1
                  && AfterReceive(s, q, p.table[0]) == ReceivedBy(c, x, s, q, TurnStamp(c, s, q)).0)
  {
    var i := InputOf(c, q);
    assert StageShows(c, x, i, s.procs[q]);
    assert QueueShows(c, x, i, s.queues[i]);
    OnChannelBound(c, x, i);
    if x[i + 1] == x[i] {
      ReceiveNothing(c, x, s.kernel, s.queues, i, s.procs[q]);
    } else {
      ReceiveBatch(c, x, s.kernel, s.queues, i, s.procs[q]);
    }
  }

  /** The tables between turns, once stage `q` has passed one more batch on. */
  lemma StagesAfterTurn(c: Config, x: Counters, procs: map<ProcessId, ProcState>, q: nat, p: ProcState)
    requires |x| == c.stages + 3 && 1 <= q <= c.stages + 1
    requires forall q' :: 1 <= q' <= c.stages + 1 ==> q' in procs && StageShows(c, x, InputOf(c, q'), procs[q'])
    requires p.table == StageTable(InputOf(c, q)) && p.nextHandle == x[InputOf(c, q) + 1] + 3
    ensures forall q' :: 1 <= q' <= c.stages + 1 ==>
            StageShows(c, Hop(x, InputOf(c, q) + 1), InputOf(c, q'), procs[q := p][q'])
  {
    forall q' | 1 <= q' <= c.stages + 1
      ensures StageShows(c, Hop(x, InputOf(c, q) + 1), InputOf(c, q'), procs[q := p][q'])
    {
      assert StageShows(c, x, InputOf(c, q'), procs[q']);
    }
  }

  /** What the work leaves in the store: a transformer rewrites the batch's region, the sink only reads it. */
  ghost predicate StoreWorked(c: Config, x: Counters, s: Snapshot, i: nat, bytes: seq<byte>, store: Regions.Store)
    requires |x| == c.stages + 3 && i <= c.stages
  {
    var r := RegionId(c, Slot(c, x[i + 1]));
    if i < c.stages then r in s.store && bytes == Transformed(i, s.store[r]) && store == s.store[r := bytes]
    else store == s.store
  }

  /** The message stage `q` passes on. */
  function Passes(c: Config, x: Counters, i: nat, stamp: Stamp): Message
    requires |x| == c.stages + 3 && i <= c.stages
  {
    Message(x[i + 1], [RegionCap(c, Hop(x, i + 1), x[i + 1])], LocalEvent(stamp))
  }

  /** What a stage may do with the batch it is about to receive, and what that leaves. */
  lemma TurnAllowed(c: Config, x: Counters, s: Snapshot, q: nat)
    requires SnapshotShows(c, x, s) && 1 <= q <= c.stages + 1 && x[InputOf(c, q) + 1] < x[InputOf(c, q)]
    ensures var i := InputOf(c, q); var b := x[i + 1]; var cap := RegionCap(c, x, b);
            && s.kernel.Permits(cap, OWNER) && s.kernel.Permits(StageTable(i)[1], {WRITE})
            && cap.obj in s.store && s.store[cap.obj] == WorkedBytes(c.seed, b, c.regionSize, i)
            && cap.(epoch := cap.epoch + 1) == RegionCap(c, Hop(x, i + 1), b)
            && StageTable(i)[2 + b := cap] - {2 + b} == StageTable(i)
  {
    var i := InputOf(c, q);
    OnChannelBound(c, x, i);
    RegionCapLive(c, x, s.kernel, x[i + 1]);
    WorkedNext(c, x, s, i);
    CapAfterHop(c, x, i + 1, x[i + 1]);
    StageAfterTurn(i, 2 + x[i + 1], RegionCap(c, x, x[i + 1]));
  }

  lemma ProcsAfterTurn(c: Config, x: Counters, procs: map<ProcessId, ProcState>, q: nat, stamp: Stamp)
    requires Valid(c, x) && ProcsShow(c, x, procs) && 1 <= q <= c.stages + 1 && x[InputOf(c, q) + 1] < x[InputOf(c, q)]
    requires x[InputOf(c, q) + 1] + 3 < HANDLE_LIMIT
    ensures ProcsShow(c, Hop(x, InputOf(c, q) + 1),
              procs[q := ProcState(StageTable(InputOf(c, q)), x[InputOf(c, q) + 1] + 3, stamp)])
  {
    var i := InputOf(c, q);
    ProducerAfterHop(c, x, i, procs[c.stages + 2]);
    StagesAfterTurn(c, x, procs, q, ProcState(StageTable(i), x[i + 1] + 3, stamp));
  }

  /** A turn of a transformer or of the sink leaves the state the next counters stand for. */
  lemma ShowsAfterTurn(c: Config, x: Counters, s: Snapshot, q: nat, stamp: Stamp, bytes: seq<byte>, store: Regions.Store)
    requires SnapshotShows(c, x, s) && 1 <= q <= c.stages + 1 && x[InputOf(c, q) + 1] < x[InputOf(c, q)]
    requires StoreWorked(c, x, s, InputOf(c, q), bytes, store)
    requires x[InputOf(c, q) + 1] + 3 < HANDLE_LIMIT
    ensures var i := InputOf(c, q); var b := x[i + 1];
            && i in s.queues && s.queues[i] != [] && i + 1 in s.queues
            && SnapshotShows(c, Hop(x, i + 1), Snapshot(BumpAll(s.kernel, {RegionId(c, Slot(c, b))}),
                 s.queues[i := s.queues[i][1..]][i + 1 := s.queues[i + 1] + [Passes(c, x, i, stamp)]], store,
                 s.procs[q := ProcState(StageTable(i), b + 3, LocalEvent(stamp))]))
  {
    var i := InputOf(c, q);
    assert QueueShows(c, x, i, s.queues[i]);
    WorkedNext(c, x, s, i);
    ShowsAfterHop(c, x, s.kernel, s.queues, s.store, i, Passes(c, x, i, stamp), bytes);
    ProcsAfterTurn(c, x, s.procs, q, LocalEvent(stamp));
  }

  lemma WorkedNext(c: Config, x: Counters, s: Snapshot, i: nat)
    requires Shows(c, x, s.kernel, s.queues, s.store) && i <= c.stages && x[i + 1] < x[i]
    ensures var r := RegionId(c, Slot(c, x[i + 1]));
            && r in s.store && s.store[r] == WorkedBytes(c.seed, x[i + 1], c.regionSize, i)
            && WorkedBytes(c.seed, x[i + 1], c.regionSize, i + 1) == Transformed(i, s.store[r])
  {
  }

  // ---- the producer's turn ----

  function ReturnView(c: Config): Capability {
    Capability(c.stages + 1, {READ}, 0)
  }

  function Producer(c: Config): ProcessId {
    c.stages + 2
  }

  lemma {:induction false} ProcsAfterReturn(c: Config, x: Counters, procs: map<ProcessId, ProcState>, stamp: Stamp)
    requires InBounds(c) && Valid(c, x) && ProcsShow(c, x, procs) && x[c.stages + 2] < x[c.stages + 1]
    ensures var p := procs[Producer(c)];
            p.nextHandle + 1 < HANDLE_LIMIT &&
            ProcsShow(c, Hop(x, c.stages + 2),
              procs[Producer(c) := ProcState(p.table[p.nextHandle := RegionCap(c, x, x[c.stages + 2])], p.nextHandle + 1, stamp)])
  {
    var p := procs[Producer(c)];
    Descending(c, x, 0, c.stages + 1);
    var p' := ProcState(p.table[p.nextHandle := RegionCap(c, x, x[c.stages + 2])], p.nextHandle + 1, stamp);
    ProducerAfterDrain(c, x, p, p');
    StagesIgnoreDrain(c, x, procs, p');
  }

  lemma ProcsAfterSend(c: Config, x: Counters, procs: map<ProcessId, ProcState>, stamp: Stamp)
    requires Valid(c, x) && ProcsShow(c, x, procs) && CanSend(c, x)
    ensures var p := procs[Producer(c)];
            ProcsShow(c, Hop(x, 0), procs[Producer(c) := ProcState(p.table - {2 + x[0]}, p.nextHandle, stamp)])
  {
    var p := procs[Producer(c)];
    var p' := ProcState(p.table - {2 + x[0]}, p.nextHandle, stamp);
    ProducerAfterSend(c, x, p, p');
    StagesIgnoreDrain(c, x, procs, p');
  }

  lemma {:induction false} TakesReturn(c: Config, x: Counters, s: Snapshot)
    requires SnapshotShows(c, x, s) && x[c.stages + 2] < x[c.stages + 1]
    ensures var p := s.procs[Producer(c)]; var o := ReceiveOutcome(s.kernel, s.queues, ReturnView(c), p);
            && o.Ok? && o.value.Some? && o.value.value.delivery.handles == [2 + x[c.stages + 2] + c.pool]
            && o.value.value.delivery.data == x[c.stages + 2] && Valid(c, Hop(x, c.stages + 2))
            && SnapshotShows(c, Hop(x, c.stages + 2), AfterReceive(s, Producer(c), ReturnView(c)))
  {
    var p, last := s.procs[Producer(c)], c.stages + 1;
    assert QueueShows(c, x, last, s.queues[last]);
    OnChannelBound(c, x, last);
    ReceiveBatch(c, x, s.kernel, s.queues, last, p);
    ShowsAfterDrain(c, x, s.kernel, s.queues, s.store);
    ProcsAfterReturn(c, x, s.procs, ReceiveEvent(p.clock, s.queues[last][0].sentAt));
  }

  /** What the producer finds on the return channel: nothing, or the oldest batch's region, which is
      then free under the next handle. */
  lemma ReturnMeans(c: Config, x: Counters, s: Snapshot)
    requires SnapshotShows(c, x, s)
    ensures var p := s.procs[Producer(c)]; var o := ReceiveOutcome(s.kernel, s.queues, ReturnView(c), p);
            && 1 in p.table && p.table[1] == ReturnView(c) && o.Ok? && (o.value.Some? <==> x[c.stages + 2] < x[c.stages + 1])
            && (o.value.Some? ==>
                  && o.value.value.delivery.handles == [2 + x[c.stages + 2] + c.pool]
                  && o.value.value.delivery.data == x[c.stages + 2] && Valid(c, Hop(x, c.stages + 2))
                  && SnapshotShows(c, Hop(x, c.stages + 2), AfterReceive(s, Producer(c), ReturnView(c))))
  {
    OnChannelBound(c, x, c.stages + 1);
    if x[c.stages + 2] == x[c.stages + 1] {
      ReceiveNothing(c, x, s.kernel, s.queues, c.stages + 1, s.procs[Producer(c)]);
    } else {
      TakesReturn(c, x, s);
    }
  }

  lemma StagesIgnoreDrain(c: Config, x: Counters, procs: map<ProcessId, ProcState>, p: ProcState)
    requires |x| == c.stages + 3
    requires forall q :: 1 <= q <= c.stages + 1 ==> q in procs && StageShows(c, x, InputOf(c, q), procs[q])
    ensures forall q :: 1 <= q <= c.stages + 1 ==>
              StageShows(c, Hop(x, c.stages + 2), InputOf(c, q), procs[Producer(c) := p][q])
    ensures forall q :: 1 <= q <= c.stages + 1 ==> StageShows(c, Hop(x, 0), InputOf(c, q), procs[Producer(c) := p][q])
  {
    forall q | 1 <= q <= c.stages + 1
      ensures StageShows(c, Hop(x, c.stages + 2), InputOf(c, q), procs[Producer(c) := p][q])
      ensures StageShows(c, Hop(x, 0), InputOf(c, q), procs[Producer(c) := p][q])
    {
      assert StageShows(c, x, InputOf(c, q), procs[q]);
    }
  }

  /** The producer may fill the region at its first free handle and send it. */
  lemma SendAllowed(c: Config, x: Counters, s: Snapshot)
    requires SnapshotShows(c, x, s) && CanSend(c, x)
    ensures var p, h := s.procs[Producer(c)], 2 + x[0];
            && {0, h} <= p.table.Keys && p.table[0] == Capability(0, {WRITE}, 0) && p.table[h] == RegionCap(c, x, x[0])
            && s.kernel.Permits(p.table[h], OWNER) && s.kernel.Permits(p.table[0], {WRITE}) && 0 in s.queues
            && p.table[h].obj in s.store && |s.store[p.table[h].obj]| == c.regionSize && x[0] < I64_RANGE / 2
  {
    Descending(c, x, 0, c.stages + 2);
    RegionCapLive(c, x, s.kernel, x[0]);
    assert QueueShows(c, x, 0, s.queues[0]);
  }

  /** The state after the producer has sent its next batch. */
  function SentNext(c: Config, x: Counters, s: Snapshot): Snapshot
    requires |x| == c.stages + 3 && Producer(c) in s.procs && 0 in s.queues
  {
    var p, cap := s.procs[Producer(c)], RegionCap(c, x, x[0]);
    var m := Message(x[0], [cap.(epoch := cap.epoch + 1)], LocalEvent(p.clock));
    Snapshot(BumpAll(s.kernel, {cap.obj}), s.queues[0 := s.queues[0] + [m]],
             s.store[cap.obj := BatchBytes(c.seed, x[0], c.regionSize)],
             s.procs[Producer(c) := ProcState(p.table - {2 + x[0]}, p.nextHandle, m.sentAt)])
  }

  lemma NextMessage(c: Config, x: Counters, s: Snapshot) returns (m: Message)
    requires SnapshotShows(c, x, s) && CanSend(c, x)
    ensures m.data == x[0] && m.caps == [RegionCap(c, Hop(x, 0), x[0])]
    ensures Producer(c) in s.procs && 0 in s.queues && Valid(c, Hop(x, 0))
    ensures var p := s.procs[Producer(c)];
            SentNext(c, x, s) == Snapshot(BumpAll(s.kernel, {RegionId(c, Slot(c, x[0]))}), s.queues[0 := s.queues[0] + [m]],
              s.store[RegionId(c, Slot(c, x[0])) := BatchBytes(c.seed, x[0], c.regionSize)],
              s.procs[Producer(c) := ProcState(p.table - {2 + x[0]}, p.nextHandle, m.sentAt)])
  {
    Descending(c, x, 0, c.stages + 2);
    CapAfterHop(c, x, 0, x[0]);
    var cap := RegionCap(c, x, x[0]);
    m := Message(x[0], [cap.(epoch := cap.epoch + 1)], LocalEvent(s.procs[Producer(c)].clock));
  }

  lemma SendMeans(c: Config, x: Counters, s: Snapshot)
    requires SnapshotShows(c, x, s) && CanSend(c, x)
    ensures 0 in s.queues && Valid(c, Hop(x, 0)) && SnapshotShows(c, Hop(x, 0), SentNext(c, x, s))
  {
    var m := NextMessage(c, x, s);
    ShowsAfterSend(c, x, s.kernel, s.queues, s.store, m);
    ProcsAfterSend(c, x, s.procs, m.sentAt);
  }
}
