/** One turn of each of the pipeline's stages as a function of the kernel's state: what it finds to do,
    and what it leaves behind. */
module StageTurns {
  import opened Wrappers
  import opened Rights
  import opened Capabilities
  import opened Clocks
  import opened Processes
  import opened Transfers
  import opened Channels
  import opened Data
  import opened Ring
  import opened Workload
  import opened RingState
  import RT = RingTurns

  datatype Role = Supervisor | Producer | Transformer(i: nat) | Sink

  datatype Action = SendAction | ReceiveAction

  datatype TraceEvent = TraceEvent(role: Role, action: Action, batch: nat, stamp: Stamp)

  datatype Report = Report(results: seq<BatchResult>, trace: seq<TraceEvent>, stats: Stats)

  datatype Stage = Stage(pid: ProcessId, role: Role, input: Option<Handle>, output: Option<Handle>,
                         freeRegions: seq<Handle>, nextBatch: nat)

  /** The handles of the free regions, the next batch's first. */
  function FreeHandles(c: Config, x: Counters): seq<Handle>
    requires |x| == c.stages + 3 && x[0] <= x[c.stages + 2] + c.pool
  {
    seq(x[c.stages + 2] + c.pool - x[0], k requires 0 <= k => 2 + x[0] + k)
  }

  /** The stage that consumes channel `i`. */
  function ConsumerOf(c: Config, i: nat): Stage
    requires i <= c.stages
  {
    Stage(c.stages + 1 - i, if i == c.stages then Sink else Transformer(i), Some(0), Some(1), [], 0)
  }

  /** The producer's stage record: the free regions' handles, oldest first, and the next batch. */
  function ProducerStage(c: Config, x: Counters): Stage
    requires Valid(c, x)
  {
    Stage(c.stages + 2, Producer, Some(1), Some(0), FreeHandles(c, x), x[0])
  }

  ghost predicate StagesShow(c: Config, x: Counters, stages: seq<Stage>) {
    && Valid(c, x) && |stages| == c.stages + 3
    && stages[0] == Stage(0, Supervisor, None, None, [], 0)
    && (forall q :: 1 <= q <= c.stages + 1 ==> stages[q] == ConsumerOf(c, InputOf(c, q)))
    && stages[c.stages + 2] == ProducerStage(c, x)
  }

  /** Counters that differ only beyond the producer leave every stage record as it is. */
  lemma StagesAfterTurn(c: Config, x: Counters, stages: seq<Stage>, q: nat)
    requires StagesShow(c, x, stages) && q <= c.stages + 1
    ensures StagesShow(c, Step(c, x, q).0, stages)
  {
    StepKeepsValid(c, x, q);
  }

  lemma StagesAfterProducer(c: Config, x: Counters, y: Counters, stages: seq<Stage>)
    requires StagesShow(c, x, stages) && Valid(c, y)
    ensures StagesShow(c, y, stages[c.stages + 2 := ProducerStage(c, y)])
  {
  }

  lemma StagesNumbered(c: Config, x: Counters, stages: seq<Stage>)
    requires StagesShow(c, x, stages)
    ensures Numbered(stages)
  {
    forall q: nat | q < |stages| ensures stages[q].pid == q {
      assert 1 <= q <= c.stages + 1 ==> stages[q] == ConsumerOf(c, InputOf(c, q));
    }
  }

  /** The stage at each position is played by the process of that number. */
  ghost predicate Numbered(stages: seq<Stage>) {
    forall q: nat :: q < |stages| ==> stages[q].pid == q
  }

  /** The ready queue when it is process `at`'s turn: everyone once, in spawn order, starting there. */
  ghost predicate InTurn(ready: seq<ProcessId>, n: nat, at: nat) {
    at < n && |ready| == n && forall k: nat :: k < n ==> ready[k] == if at + k < n then at + k else at + k - n
  }

  /** A trace entry, when the run is traced. */
  function Entry(c: Config, role: Role, action: Action, batch: nat, stamp: Stamp): seq<TraceEvent> {
    if c.trace then [TraceEvent(role, action, batch, stamp)] else []
  }

  function Record(c: Config, r: Report, role: Role, action: Action, batch: nat, stamp: Stamp): Report {
    r.(trace := r.trace + Entry(c, role, action, batch, stamp))
  }

  function CountMessage(s: Stats, c: Config): Stats {
    s.(messages := s.messages + 1, bytesProcessed := s.bytesProcessed + c.regionSize)
  }

  /** The state after a stage has worked on a delivered region and moved it on. */
  function PassedOn(s: RT.Snapshot, stage: Stage, d: Delivery): RT.Snapshot
    requires stage.pid in s.procs && stage.output.Some? && |d.handles| == 1
    requires {stage.output.value, d.handles[0]} <= s.procs[stage.pid].table.Keys
    requires s.procs[stage.pid].table[stage.output.value].obj in s.queues
    requires s.procs[stage.pid].table[d.handles[0]].obj in s.store
  {
    var p := s.procs[stage.pid];
    var out, cap := p.table[stage.output.value].obj, p.table[d.handles[0]];
    var m := Message(d.data, [cap.(epoch := cap.epoch + 1)], LocalEvent(p.clock));
    RT.Snapshot(BumpAll(s.kernel, {cap.obj}), s.queues[out := s.queues[out] + [m]],
                if stage.role.Transformer? then s.store[cap.obj := Transformed(stage.role.i, s.store[cap.obj])] else s.store,
                s.procs[stage.pid := ProcState(p.table - {d.handles[0]}, p.nextHandle, m.sentAt)])
  }

  /** What a stage's receive leaves and delivers: nothing, or a delivery it may pass on. */
  ghost predicate Finds(s: RT.Snapshot, stage: Stage, found: Option<(RT.Snapshot, Delivery)>) {
    && stage.pid in s.procs && stage.input.Some? && stage.input.value in s.procs[stage.pid].table
    && var channel := s.procs[stage.pid].table[stage.input.value];
       var o := ReceiveOutcome(s.kernel, s.queues, channel, s.procs[stage.pid]);
       o.Ok? && match found
                case None => o.value.None?
                case Some((s1, d)) => o.value.Some? && o.value.value.delivery == d &&
                                      RT.AfterReceive(s, stage.pid, channel) == s1 && MayPassOn(s1, stage, d)
  }

  /** The result of passing a delivery on: the sink's checksum. */
  function ResultOn(s: RT.Snapshot, stage: Stage, d: Delivery): Option<BatchResult>
    requires stage.pid in s.procs && |d.handles| == 1 && 0 <= d.data && d.handles[0] in s.procs[stage.pid].table
    requires s.procs[stage.pid].table[d.handles[0]].obj in s.store
  {
    if stage.role.Transformer? then None
    else Some(BatchResult(d.data, Checksum(s.store[s.procs[stage.pid].table[d.handles[0]].obj])))
  }

  lemma HasMessage(c: Config, x: Counters, s: RT.Snapshot, q: nat) returns (s1: RT.Snapshot, d: Delivery)
    requires RT.SnapshotShows(c, x, s) && 1 <= q <= c.stages + 1 && x[InputOf(c, q) + 1] < x[InputOf(c, q)]
    ensures var i := InputOf(c, q);
            && x[i + 1] + 3 < HANDLE_LIMIT && i in s.queues && s.queues[i] != [] && i + 1 in s.queues && q in s.procs
    ensures (s1, d) == RT.ReceivedBy(c, x, s, q, RT.TurnStamp(c, s, q))
  {
    RT.TurnReceives(c, x, s, q);
    var r := RT.ReceivedBy(c, x, s, q, RT.TurnStamp(c, s, q));
    s1, d := r.0, r.1;
  }

  lemma ReceivedIsFound(c: Config, x: Counters, s: RT.Snapshot, q: nat, s1: RT.Snapshot, d: Delivery)
    requires RT.SnapshotShows(c, x, s) && 1 <= q <= c.stages + 1 && x[InputOf(c, q) + 1] < x[InputOf(c, q)]
    requires x[InputOf(c, q) + 1] + 3 < HANDLE_LIMIT && q in s.procs && InputOf(c, q) in s.queues && s.queues[InputOf(c, q)] != []
    requires (s1, d) == RT.ReceivedBy(c, x, s, q, RT.TurnStamp(c, s, q)) && MayPassOn(s1, ConsumerOf(c, InputOf(c, q)), d)
    ensures Finds(s, ConsumerOf(c, InputOf(c, q)), Some((s1, d)))
  {
    RT.TurnReceives(c, x, s, q);
  }

  lemma FindsMessage(c: Config, x: Counters, s: RT.Snapshot, q: nat) returns (s1: RT.Snapshot, d: Delivery)
    requires RT.SnapshotShows(c, x, s) && 1 <= q <= c.stages + 1 && x[InputOf(c, q) + 1] < x[InputOf(c, q)]
    ensures var i := InputOf(c, q); var stage := ConsumerOf(c, i);
            && Finds(s, stage, Some((s1, d))) && RT.SnapshotShows(c, Hop(x, i + 1), PassedOn(s1, stage, d))
            && ResultOn(s1, stage, d) == if i == c.stages then Some(ReferenceResult(c, x[i + 1])) else None
  {
    s1, d := HasMessage(c, x, s, q);
    ReceivedMayPassOn(c, x, s, q, s1, d);
    ReceivedIsFound(c, x, s, q, s1, d);
  }

  lemma StepHops(c: Config, x: Counters, q: nat)
    requires |x| == c.stages + 3 && 1 <= q <= c.stages + 1 && Step(c, x, q).1
    ensures var i := InputOf(c, q);
            && x[i + 1] < x[i] && Step(c, x, q).0 == Hop(x, i + 1)
            && ResultOf(c, x, q) == if i == c.stages then Some(ReferenceResult(c, x[i + 1])) else None
  {
  }

  /** A stage with a message on its channel takes it and may do all of its turn; the state it leaves is
      the one the next counters stand for, and the sink's result is the batch's reference result. */
  lemma FindsOne(c: Config, x: Counters, s: RT.Snapshot, q: nat) returns (s1: RT.Snapshot, d: Delivery)
    requires RT.SnapshotShows(c, x, s) && 1 <= q <= c.stages + 1 && Step(c, x, q).1
    ensures var stage := ConsumerOf(c, InputOf(c, q));
            && Finds(s, stage, Some((s1, d))) && RT.SnapshotShows(c, Step(c, x, q).0, PassedOn(s1, stage, d))
            && ResultOf(c, x, q) == ResultOn(s1, stage, d)
  {
    StepHops(c, x, q);
    s1, d := FindsMessage(c, x, s, q);
  }

  /** At its turn a stage with nothing on its channel has nothing to do. */
  lemma FindsNone(c: Config, x: Counters, s: RT.Snapshot, q: nat)
    requires RT.SnapshotShows(c, x, s) && 1 <= q <= c.stages + 1 && !Step(c, x, q).1
    ensures Finds(s, ConsumerOf(c, InputOf(c, q)), None) && Step(c, x, q).0 == x && ResultOf(c, x, q) == None
  {
    RT.OnChannelBound(c, x, InputOf(c, q));
    RT.TurnReceives(c, x, s, q);
  }

  /** Passing the received batch on leaves the table with its two views and the rest as stated. */
  lemma PassedOnIs(c: Config, x: Counters, s: RT.Snapshot, q: nat, stamp: Stamp)
    requires |x| == c.stages + 3 && 1 <= q <= c.stages + 1 && x[InputOf(c, q) + 1] + 3 < HANDLE_LIMIT
    requires InputOf(c, q) in s.queues && s.queues[InputOf(c, q)] != [] && InputOf(c, q) + 1 in s.queues
    requires var i := InputOf(c, q); var b := x[i + 1]; var cap := RegionCap(c, x, b);
             && s.kernel.Permits(cap, OWNER) && s.kernel.Permits(StageTable(i)[1], {WRITE}) && cap.obj in s.store
             && cap.(epoch := cap.epoch + 1) == RegionCap(c, Hop(x, i + 1), b)
             && StageTable(i)[2 + b := cap] - {2 + b} == StageTable(i)
    ensures var i := InputOf(c, q); var b := x[i + 1]; var cap := RegionCap(c, x, b);
            var (s1, d) := RT.ReceivedBy(c, x, s, q, stamp); var stage := ConsumerOf(c, i);
            && MayPassOn(s1, stage, d) && s1.procs[q].table[2 + b] == cap
            && PassedOn(s1, stage, d) ==
               RT.Snapshot(BumpAll(s.kernel, {cap.obj}),
                 s.queues[i := s.queues[i][1..]][i + 1 := s.queues[i + 1] + [RT.Passes(c, x, i, stamp)]],
                 if i < c.stages then s.store[cap.obj := Transformed(i, s.store[cap.obj])] else s.store,
                 s.procs[q := ProcState(StageTable(i), b + 3, LocalEvent(stamp))])
  {
    var i := InputOf(c, q);
    var s1 := RT.ReceivedBy(c, x, s, q, stamp).0;
    assert s1.queues[i + 1] == s.queues[i + 1];
    assert s1.procs[q].table[1] == StageTable(i)[1];
  }

  lemma ReceivedMayPassOn(c: Config, x: Counters, s: RT.Snapshot, q: nat, s1: RT.Snapshot, d: Delivery)
    requires RT.SnapshotShows(c, x, s) && 1 <= q <= c.stages + 1 && x[InputOf(c, q) + 1] < x[InputOf(c, q)]
    requires x[InputOf(c, q) + 1] + 3 < HANDLE_LIMIT && q in s.procs
    requires InputOf(c, q) in s.queues && s.queues[InputOf(c, q)] != [] && InputOf(c, q) + 1 in s.queues
    requires (s1, d) == RT.ReceivedBy(c, x, s, q, RT.TurnStamp(c, s, q))
    ensures var i := InputOf(c, q); var stage := ConsumerOf(c, i);
            && MayPassOn(s1, stage, d) && RT.SnapshotShows(c, Hop(x, i + 1), PassedOn(s1, stage, d))
            && ResultOn(s1, stage, d) == if i == c.stages then Some(ReferenceResult(c, x[i + 1])) else None
  {
    var i, b, stamp := InputOf(c, q), x[InputOf(c, q) + 1], RT.TurnStamp(c, s, q);
    RT.TurnAllowed(c, x, s, q);
    PassedOnIs(c, x, s, q, stamp);
    var bytes := Transformed(i, s.store[RegionCap(c, x, b).obj]);
    RT.ShowsAfterTurn(c, x, s, q, stamp, bytes, if i < c.stages then s.store[RegionCap(c, x, b).obj := bytes] else s.store);
  }

  /** A stage may work on a delivered region and move it on. */
  ghost predicate MayPassOn(s: RT.Snapshot, stage: Stage, d: Delivery) {
    && stage.pid in s.procs && stage.output.Some? && |d.handles| == 1 && 0 <= d.data
    && {stage.output.value, d.handles[0]} <= s.procs[stage.pid].table.Keys
    && var out, cap := s.procs[stage.pid].table[stage.output.value], s.procs[stage.pid].table[d.handles[0]];
       s.kernel.Permits(cap, OWNER) && cap.obj in s.store && s.kernel.Permits(out, {WRITE}) && out.obj in s.queues
  }

  // ---- the producer's turn ----

  predicate HasInput(s: RT.Snapshot, stage: Stage) {
    stage.pid in s.procs && stage.input.Some? && stage.input.value in s.procs[stage.pid].table
  }

  /** A receive by the process playing `stage`, on its input. */
  function Receiving(s: RT.Snapshot, stage: Stage): Result<Option<Received>, IpcError>
    requires HasInput(s, stage)
  {
    ReceiveOutcome(s.kernel, s.queues, s.procs[stage.pid].table[stage.input.value], s.procs[stage.pid])
  }

  function AfterReceiving(s: RT.Snapshot, stage: Stage): RT.Snapshot
    requires HasInput(s, stage)
  {
    RT.AfterReceive(s, stage.pid, s.procs[stage.pid].table[stage.input.value])
  }

  /** What the producer's receive brings: nothing, or one region. */
  ghost predicate Returns(s: RT.Snapshot, stage: Stage, some: bool) {
    && HasInput(s, stage) && Receiving(s, stage).Ok? && Receiving(s, stage).value.Some? == some
    && (some ==> |Receiving(s, stage).value.value.delivery.handles| == 1 && 0 <= Receiving(s, stage).value.value.delivery.data)
  }

  function Returned(s: RT.Snapshot, stage: Stage): Delivery
    requires Returns(s, stage, true)
  {
    Receiving(s, stage).value.value.delivery
  }

  function Freed(stage: Stage, h: Handle): Stage {
    stage.(freeRegions := stage.freeRegions + [h])
  }

  /** Receives in a row: the state each leaves and what it delivers. */
  type Receipts = seq<(RT.Snapshot, Delivery)>

  /** The producer can receive exactly these returns. */
  ghost predicate Drains(s: RT.Snapshot, stage: Stage, all: Receipts)
    decreases |all|
  {
    if all == [] then Returns(s, stage, false)
    else
      && Returns(s, stage, true) && all[0] == (AfterReceiving(s, stage), Returned(s, stage))
      && Drains(all[0].0, Freed(stage, all[0].1.handles[0]), all[1..])
  }

  /** The state, the stage record and the trace entries once it has. */
  function Drained(c: Config, s: RT.Snapshot, stage: Stage, all: Receipts): (RT.Snapshot, Stage, seq<TraceEvent>)
    decreases |all|
  {
    if all == [] then (s, stage, [])
    else
      var (s1, d) := all[0];
      var rest := Drained(c, s1, if d.handles == [] then stage else Freed(stage, d.handles[0]), all[1..]);
      (rest.0, rest.1, (if d.data < 0 then [] else Entry(c, Producer, ReceiveAction, d.data, d.receivedAt)) + rest.2)
  }

  lemma Regrouped<T>(a: seq<T>, b: seq<T>, c: seq<T>)
    ensures (a + b) + c == a + (b + c)
  {
  }

  /** Part of the receives are done: the rest lead to the same end. */
  ghost predicate StillToDrain(c: Config, s: RT.Snapshot, stage: Stage, all: Receipts, trace: seq<TraceEvent>,
                               here: RT.Snapshot, freed: Stage, left: Receipts, traced: seq<TraceEvent>)
  {
    var end, rest := Drained(c, s, stage, all), Drained(c, here, freed, left);
    rest.0 == end.0 && rest.1 == end.1 && traced + rest.2 == trace + end.2
  }

  lemma DrainStep(c: Config, s: RT.Snapshot, stage: Stage, all: Receipts, trace: seq<TraceEvent>,
                  here: RT.Snapshot, freed: Stage, left: Receipts, traced: seq<TraceEvent>)
    requires Drains(here, freed, left) && StillToDrain(c, s, stage, all, trace, here, freed, left, traced)
    ensures Returns(here, freed, left != [])
    ensures left == [] ==> Drained(c, s, stage, all).0 == here && Drained(c, s, stage, all).1 == freed &&
                           traced == trace + Drained(c, s, stage, all).2
    ensures left != [] ==>
            var d := Returned(here, freed);
            && left[0] == (AfterReceiving(here, freed), d) && Drains(left[0].0, Freed(freed, d.handles[0]), left[1..])
            && StillToDrain(c, s, stage, all, trace, left[0].0, Freed(freed, d.handles[0]), left[1..],
                            traced + Entry(c, Producer, ReceiveAction, d.data, d.receivedAt))
  {
    if left != [] {
      var d := Returned(here, freed);
      Regrouped(traced, Entry(c, Producer, ReceiveAction, d.data, d.receivedAt),
                Drained(c, left[0].0, Freed(freed, d.handles[0]), left[1..]).2);
    }
  }

  lemma FreedIs(c: Config, x: Counters, h: Handle)
    requires Valid(c, x) && x[c.stages + 2] < x[c.stages + 1] && h == 2 + x[c.stages + 2] + c.pool
    ensures Valid(c, Hop(x, c.stages + 2)) && Freed(ProducerStage(c, x), h) == ProducerStage(c, Hop(x, c.stages + 2))
  {
    Descending(c, x, 0, c.stages + 1);
    assert FreeHandles(c, Hop(x, c.stages + 2)) == FreeHandles(c, x) + [h];
  }

  /** The producer finds a returned region exactly when there is one, and the state it is left in is
      the one the next counters stand for. */
  lemma {:induction false} ReturnTurnMeans(c: Config, x: Counters, s: RT.Snapshot)
    requires RT.SnapshotShows(c, x, s)
    ensures var q, stage := RT.Producer(c), ProducerStage(c, x);
            && Returns(s, stage, x[q] < x[q - 1])
            && (x[q] < x[q - 1] ==>
                  && Valid(c, Hop(x, q)) && RT.SnapshotShows(c, Hop(x, q), AfterReceiving(s, stage))
                  && Freed(stage, Returned(s, stage).handles[0]) == ProducerStage(c, Hop(x, q)))
  {
    var q := RT.Producer(c);
    RT.ReturnMeans(c, x, s);
    if x[q] < x[q - 1] {
      FreedIs(c, x, 2 + x[q] + c.pool);
    }
  }

  /** At its turn the producer takes back everything the sink has returned. */
  lemma {:induction false} DrainMeans(c: Config, x: Counters, s: RT.Snapshot) returns (all: Receipts)
    requires RT.SnapshotShows(c, x, s)
    ensures Drains(s, ProducerStage(c, x), all) && Valid(c, Drain(c, x)) && |all| + x[c.stages + 2] == x[c.stages + 1]
    ensures var d := Drained(c, s, ProducerStage(c, x), all);
            RT.SnapshotShows(c, Drain(c, x), d.0) && d.1 == ProducerStage(c, Drain(c, x))
    decreases x[c.stages + 1] - x[c.stages + 2]
  {
    ReturnTurnMeans(c, x, s);
    if x[c.stages + 2] == x[c.stages + 1] {
      assert Drain(c, x) == x;
      all := [];
    } else {
      var y, stage := Hop(x, c.stages + 2), ProducerStage(c, x);
      assert Drain(c, y) == Drain(c, x);
      var rest := DrainMeans(c, y, AfterReceiving(s, stage));
      all := [(AfterReceiving(s, stage), Returned(s, stage))] + rest;
      assert all[1..] == rest;
    }
  }

  /** The producer has a batch left and a region for it. */
  predicate Wants(c: Config, stage: Stage) {
    stage.nextBatch < c.batches && stage.freeRegions != []
  }

  /** The producer may fill its first free region and send it. */
  ghost predicate MayFill(s: RT.Snapshot, stage: Stage) {
    && stage.pid in s.procs && stage.output.Some? && stage.freeRegions != [] && stage.nextBatch < RT.I64_RANGE / 2
    && {stage.output.value, stage.freeRegions[0]} <= s.procs[stage.pid].table.Keys
    && var out, cap := s.procs[stage.pid].table[stage.output.value], s.procs[stage.pid].table[stage.freeRegions[0]];
       s.kernel.Permits(cap, OWNER) && cap.obj in s.store && s.kernel.Permits(out, {WRITE}) && out.obj in s.queues
  }

  /** The state once it has. */
  function FilledAndSent(c: Config, s: RT.Snapshot, stage: Stage): RT.Snapshot
    requires stage.pid in s.procs && stage.output.Some? && stage.freeRegions != []
    requires {stage.output.value, stage.freeRegions[0]} <= s.procs[stage.pid].table.Keys
    requires s.procs[stage.pid].table[stage.output.value].obj in s.queues
    requires s.procs[stage.pid].table[stage.freeRegions[0]].obj in s.store
  {
    var p := s.procs[stage.pid];
    var out, cap := p.table[stage.output.value].obj, p.table[stage.freeRegions[0]];
    var m := Message(stage.nextBatch, [cap.(epoch := cap.epoch + 1)], LocalEvent(p.clock));
    RT.Snapshot(BumpAll(s.kernel, {cap.obj}), s.queues[out := s.queues[out] + [m]],
                s.store[cap.obj := BatchBytes(c.seed, stage.nextBatch, |s.store[cap.obj]|)],
                s.procs[stage.pid := ProcState(p.table - {stage.freeRegions[0]}, p.nextHandle, m.sentAt)])
  }

  function AfterSending(stage: Stage): Stage
    requires stage.freeRegions != []
  {
    stage.(freeRegions := stage.freeRegions[1..], nextBatch := stage.nextBatch + 1)
  }

  /** The producer's send spelt out for its first free region. */
  lemma FilledIs(c: Config, x: Counters, s: RT.Snapshot)
    requires Valid(c, x) && CanSend(c, x) && RT.Producer(c) in s.procs
    requires var p, h := s.procs[RT.Producer(c)], 2 + x[0];
             && {0, h} <= p.table.Keys && p.table[0] == Capability(0, {WRITE}, 0) && p.table[h] == RegionCap(c, x, x[0])
             && s.kernel.Permits(p.table[h], OWNER) && s.kernel.Permits(p.table[0], {WRITE}) && 0 in s.queues
             && p.table[h].obj in s.store && |s.store[p.table[h].obj]| == c.regionSize && x[0] < RT.I64_RANGE / 2
    ensures var stage := ProducerStage(c, x);
            MayFill(s, stage) && FilledAndSent(c, s, stage) == RT.SentNext(c, x, s)
  {
  }

  lemma AfterSendingIs(c: Config, x: Counters)
    requires Valid(c, x) && CanSend(c, x)
    ensures Valid(c, Hop(x, 0)) && Wants(c, ProducerStage(c, x))
    ensures AfterSending(ProducerStage(c, x)) == ProducerStage(c, Hop(x, 0))
  {
    Descending(c, x, 0, c.stages + 2);
    assert FreeHandles(c, Hop(x, 0)) == FreeHandles(c, x)[1..];
  }

  lemma SendTurnMeans(c: Config, x: Counters, s: RT.Snapshot)
    requires RT.SnapshotShows(c, x, s) && CanSend(c, x)
    ensures Valid(c, Hop(x, 0)) && MayFill(s, ProducerStage(c, x))
    ensures RT.SnapshotShows(c, Hop(x, 0), FilledAndSent(c, s, ProducerStage(c, x)))
  {
    AfterSendingIs(c, x);
    RT.SendAllowed(c, x, s);
    FilledIs(c, x, s);
    RT.SendMeans(c, x, s);
  }

  // ---- any turn ----

  /** What a turn finds to do. */
  datatype Work = Rest | Relay(found: Option<(RT.Snapshot, Delivery)>) | Produce(all: Receipts)

  /** What a turn leaves: the state, the stage record, and what it adds to the report. */
  datatype TurnEffect = TurnEffect(state: RT.Snapshot, stage: Stage, trace: seq<TraceEvent>, result: Option<BatchResult>,
                       sent: bool, progressed: bool)

  function Reported(c: Config, r: Report, d: TurnEffect): Report {
    Added(c, r, d.trace, d.result, d.sent)
  }

  /** The report with a turn's trace entries, its result and its message in it. */
  function Added(c: Config, r: Report, entries: seq<TraceEvent>, result: Option<BatchResult>, sent: bool): Report {
    Report(AddResult(r.results, result), r.trace + entries, if sent then CountMessage(r.stats, c) else r.stats)
  }

  ghost predicate MayProduce(c: Config, s: RT.Snapshot, stage: Stage, all: Receipts) {
    Drains(s, stage, all) && var d := Drained(c, s, stage, all); Wants(c, d.1) ==> MayFill(d.0, d.1)
  }

  /** Every call the turn makes will succeed. */
  ghost predicate Allowed(c: Config, s: RT.Snapshot, stage: Stage, w: Work) {
    match w
    case Rest => stage.role.Supervisor?
    case Relay(found) => (stage.role.Transformer? || stage.role.Sink?) && Finds(s, stage, found)
    case Produce(all) => stage.role.Producer? && MayProduce(c, s, stage, all)
  }

  function RelayEntries(c: Config, role: Role, batch: nat, received: Stamp, sent: Stamp): seq<TraceEvent> {
    Entry(c, role, ReceiveAction, batch, received) + Entry(c, role, SendAction, batch, sent)
  }

  function Idle(s: RT.Snapshot, stage: Stage): TurnEffect {
    TurnEffect(s, stage, [], None, false, false)
  }

  ghost function Relayed(c: Config, s: RT.Snapshot, stage: Stage, d: Delivery): TurnEffect
    requires MayPassOn(s, stage, d)
  {
    TurnEffect(PassedOn(s, stage, d), stage,
         RelayEntries(c, stage.role, d.data, d.receivedAt, LocalEvent(s.procs[stage.pid].clock)),
         ResultOn(s, stage, d), true, true)
  }

  ghost function Sending(c: Config, s: RT.Snapshot, stage: Stage): TurnEffect
    requires MayFill(s, stage)
  {
    TurnEffect(FilledAndSent(c, s, stage), AfterSending(stage),
         Entry(c, Producer, SendAction, stage.nextBatch, LocalEvent(s.procs[stage.pid].clock)), None, true, true)
  }

  /** What the producer does once it has taken everything back. */
  ghost function FinishTurn(c: Config, s: RT.Snapshot, stage: Stage, entries: seq<TraceEvent>, any: bool): TurnEffect
    requires Wants(c, stage) ==> MayFill(s, stage)
  {
    if Wants(c, stage) then var sent := Sending(c, s, stage); sent.(trace := entries + sent.trace)
    else TurnEffect(s, stage, entries, None, false, any)
  }

  ghost function Produced(c: Config, s: RT.Snapshot, stage: Stage, all: Receipts): TurnEffect
    requires MayProduce(c, s, stage, all)
  {
    var d := Drained(c, s, stage, all);
    FinishTurn(c, d.0, d.1, d.2, all != [])
  }

  ghost function DoneBy(c: Config, s: RT.Snapshot, stage: Stage, w: Work): TurnEffect
    requires Allowed(c, s, stage, w)
  {
    match w
    case Rest => Idle(s, stage)
    case Relay(None) => Idle(s, stage)
    case Relay(Some((s1, d))) => Relayed(c, s1, stage, d)
    case Produce(all) => Produced(c, s, stage, all)
  }

  /** Turn `q` may do all of `w`, and leaves what the next counters stand for. */
  ghost predicate TurnGoes(c: Config, x: Counters, s: RT.Snapshot, stages: seq<Stage>, q: nat, w: Work)
    requires |x| == c.stages + 3 && q < c.stages + 3 && |stages| == c.stages + 3
  {
    && Allowed(c, s, stages[q], w)
    && var d, y := DoneBy(c, s, stages[q], w), Step(c, x, q).0;
       && RT.SnapshotShows(c, y, d.state) && StagesShow(c, y, stages[q := d.stage])
       && d.progressed == Step(c, x, q).1 && d.sent == SendsMessage(c, x, q) && d.result == ResultOf(c, x, q)
  }

  lemma PassDoes(c: Config, x: Counters, s: RT.Snapshot, q: nat, stage: Stage) returns (w: Work, d: TurnEffect)
    requires RT.SnapshotShows(c, x, s) && 1 <= q <= c.stages + 1 && Step(c, x, q).1 && stage == ConsumerOf(c, InputOf(c, q))
    ensures Allowed(c, s, stage, w) && d == DoneBy(c, s, stage, w)
    ensures d.stage == stage && d.progressed && d.sent && d.result == ResultOf(c, x, q)
    ensures RT.SnapshotShows(c, Step(c, x, q).0, d.state)
  {
    var s1, delivery := FindsOne(c, x, s, q);
    w := Relay(Some((s1, delivery)));
    d := Relayed(c, s1, stage, delivery);
  }

  /** A consumer's record is what the counters say, and its turn leaves the records as they are. */
  lemma ConsumerKept(c: Config, x: Counters, stages: seq<Stage>, q: nat)
    requires StagesShow(c, x, stages) && 1 <= q <= c.stages + 1
    ensures |stages| == c.stages + 3 && stages[q] == ConsumerOf(c, InputOf(c, q)) && stages[q := stages[q]] == stages
    ensures StagesShow(c, Step(c, x, q).0, stages)
  {
    StagesAfterTurn(c, x, stages, q);
    assert stages[q := stages[q]] == stages;
  }

  lemma {:induction false} PassGoes(c: Config, x: Counters, s: RT.Snapshot, stages: seq<Stage>, q: nat) returns (w: Work)
    requires RT.SnapshotShows(c, x, s) && StagesShow(c, x, stages) && 1 <= q <= c.stages + 1 && Step(c, x, q).1
    ensures TurnGoes(c, x, s, stages, q, w)
  {
    ConsumerKept(c, x, stages, q);
    var d;
    w, d := PassDoes(c, x, s, q, stages[q]);
  }

  lemma WaitGoes(c: Config, x: Counters, s: RT.Snapshot, stages: seq<Stage>, q: nat)
    requires RT.SnapshotShows(c, x, s) && StagesShow(c, x, stages) && 1 <= q <= c.stages + 1 && !Step(c, x, q).1
    ensures TurnGoes(c, x, s, stages, q, Relay(None))
  {
    ConsumerKept(c, x, stages, q);
    FindsNone(c, x, s, q);
  }

  lemma {:induction false} ProducerGoes(c: Config, x: Counters, s: RT.Snapshot, stages: seq<Stage>) returns (w: Work)
    requires RT.SnapshotShows(c, x, s) && StagesShow(c, x, stages)
    ensures TurnGoes(c, x, s, stages, c.stages + 2, w)
  {
    var all := ProduceMeans(c, x, s);
    w := Produce(all);
    StepKeepsValid(c, x, c.stages + 2);
    StagesAfterProducer(c, x, Step(c, x, c.stages + 2).0, stages);
  }

  /** Every turn of a state the counters stand for may do all it finds to do, and leaves the state the
      next counters stand for; it makes progress, sends a message and finishes a result exactly when
      the counters say so. */
  lemma TurnMeans(c: Config, x: Counters, s: RT.Snapshot, stages: seq<Stage>, q: nat) returns (w: Work)
    requires RT.SnapshotShows(c, x, s) && StagesShow(c, x, stages) && q < c.stages + 3
    ensures TurnGoes(c, x, s, stages, q, w)
  {
    if q == 0 {
      w := Rest;
      assert stages[q := stages[q]] == stages;
    } else if q <= c.stages + 1 {
      w := Relay(None);
      if Step(c, x, q).1 {
        w := PassGoes(c, x, s, stages, q);
      } else {
        WaitGoes(c, x, s, stages, q);
      }
    } else {
      w := ProducerGoes(c, x, s, stages);
    }
  }

  /** Reporting the returns first and the send after is reporting both. */
  lemma ProducerReports(c: Config, r: Report, s: RT.Snapshot, stage: Stage, entries: seq<TraceEvent>, any: bool)
    requires Wants(c, stage) ==> MayFill(s, stage)
    ensures var d, after := FinishTurn(c, s, stage, entries, any), r.(trace := r.trace + entries);
            Reported(c, r, d) == Reported(c, after, if Wants(c, stage) then Sending(c, s, stage) else Idle(s, stage))
  {
    if Wants(c, stage) {
      Regrouped(r.trace, entries, Sending(c, s, stage).trace);
    }
  }

  function SentIfAny(c: Config, x: Counters): Counters
    requires |x| == c.stages + 3
  {
    if CanSend(c, x) then Hop(x, 0) else x
  }

  lemma ProducerStep(c: Config, x: Counters)
    requires |x| == c.stages + 3
    ensures Step(c, x, c.stages + 2) ==
            (SentIfAny(c, Drain(c, x)), x[c.stages + 2] < x[c.stages + 1] || CanSend(c, Drain(c, x)))
  {
  }

  lemma FinishMeans(c: Config, x: Counters, s: RT.Snapshot, entries: seq<TraceEvent>, any: bool)
    requires RT.SnapshotShows(c, x, s)
    ensures Valid(c, SentIfAny(c, x)) && (Wants(c, ProducerStage(c, x)) ==> MayFill(s, ProducerStage(c, x)))
    ensures var d := FinishTurn(c, s, ProducerStage(c, x), entries, any);
            && RT.SnapshotShows(c, SentIfAny(c, x), d.state) && d.stage == ProducerStage(c, SentIfAny(c, x))
            && d.progressed == (any || CanSend(c, x)) && d.sent == CanSend(c, x) && d.result == None
  {
    if CanSend(c, x) {
      SendTurnMeans(c, x, s);
      AfterSendingIs(c, x);
    }
  }

  lemma ProduceMeans(c: Config, x: Counters, s: RT.Snapshot) returns (all: Receipts)
    requires RT.SnapshotShows(c, x, s)
    ensures var q, stage := c.stages + 2, ProducerStage(c, x);
            && MayProduce(c, s, stage, all) && Valid(c, Step(c, x, q).0)
            && var d := Produced(c, s, stage, all);
               && RT.SnapshotShows(c, Step(c, x, q).0, d.state) && d.stage == ProducerStage(c, Step(c, x, q).0)
               && d.progressed == Step(c, x, q).1 && d.sent == CanSend(c, Drain(c, x)) && d.result == None
  {
    all := DrainMeans(c, x, s);
    ProducerStep(c, x);
    var d := Drained(c, s, ProducerStage(c, x), all);
    FinishMeans(c, Drain(c, x), d.0, d.2, all != []);
  }

  // ---- no turn makes or removes a queue ----

  lemma ReceiveKeepsQueues(s: RT.Snapshot, q: ProcessId, channel: Capability)
    requires q in s.procs
    ensures RT.AfterReceive(s, q, channel).queues.Keys == s.queues.Keys
  {
  }

  lemma {:induction false} DrainKeepsQueues(c: Config, s: RT.Snapshot, stage: Stage, all: Receipts)
    requires Drains(s, stage, all)
    ensures Drained(c, s, stage, all).0.queues.Keys == s.queues.Keys
    decreases |all|
  {
    if all != [] {
      ReceiveKeepsQueues(s, stage.pid, s.procs[stage.pid].table[stage.input.value]);
      DrainKeepsQueues(c, all[0].0, Freed(stage, all[0].1.handles[0]), all[1..]);
    }
  }

  lemma FinishKeepsQueues(c: Config, s: RT.Snapshot, stage: Stage, entries: seq<TraceEvent>, any: bool)
    requires Wants(c, stage) ==> MayFill(s, stage)
    ensures FinishTurn(c, s, stage, entries, any).state.queues.Keys == s.queues.Keys
  {
  }

  lemma RelayKeepsQueues(s: RT.Snapshot, stage: Stage, s1: RT.Snapshot, d: Delivery)
    requires Finds(s, stage, Some((s1, d)))
    ensures PassedOn(s1, stage, d).queues.Keys == s.queues.Keys
  {
    ReceiveKeepsQueues(s, stage.pid, s.procs[stage.pid].table[stage.input.value]);
  }

  lemma TurnKeepsQueues(c: Config, s: RT.Snapshot, stage: Stage, w: Work)
    requires Allowed(c, s, stage, w)
    ensures DoneBy(c, s, stage, w).state.queues.Keys == s.queues.Keys
  {
    match w
    case Rest =>
    case Relay(found) =>
      if found.Some? {
        RelayKeepsQueues(s, stage, found.value.0, found.value.1);
      }
    case Produce(all) =>
      DrainKeepsQueues(c, s, stage, all);
      var d := Drained(c, s, stage, all);
      FinishKeepsQueues(c, d.0, d.1, d.2, all != []);
  }
}
