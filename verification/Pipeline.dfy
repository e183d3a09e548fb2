/** The ring pipeline over the kernel: least-privilege stages, a region moved on every hop. */
module Pipeline {
  import opened Wrappers
  import opened Rights
  import opened Capabilities
  import opened Clocks
  import opened Processes
  import opened Transfers
  import opened Channels
  import opened Scheduling
  import opened Data
  import opened Regions
  import opened Ring
  import opened Workload
  import opened RingState
  import opened StageTurns
  import opened Boot
  import opened Tracing
  import opened Ownership
  import RT = RingTurns

  /** Everything is as the counters say after `t` turns: kernel, queues, regions, every table, every
      stage record and the trace. */
  ghost predicate Matches(c: Config, t: nat, s: RT.Snapshot, stages: seq<Stage>, trace: Trace) {
    var x := At(c, t).x;
    RT.SnapshotShows(c, x, s) && StagesShow(c, x, stages) && Traced(c, x, s, trace) && OnlyChannels(c, s.queues)
  }

  lemma SameChannels(c: Config, before: Queues, after: Queues)
    requires OnlyChannels(c, before) && after.Keys == before.Keys
    ensures OnlyChannels(c, after)
  {
    forall i | i in after ensures i <= c.stages + 1 {
      assert i in before.Keys;
    }
  }

  /** The next turn may do all it finds to do, and everything is then as the counters say. */
  lemma MatchesNext(c: Config, t: nat, s: RT.Snapshot, stages: seq<Stage>, trace: Trace) returns (w: Work)
    requires Matches(c, t, s, stages, trace)
    ensures var turn := TurnAt(c, t);
            && Numbered(stages) && |stages| == c.stages + 3 && Allowed(c, s, stages[turn], w)
            && var d, x := DoneBy(c, s, stages[turn], w), At(c, t).x;
               && Matches(c, t + 1, d.state, stages[turn := d.stage], trace + d.trace)
               && d.progressed == Step(c, x, turn).1 && d.sent == SendsMessage(c, x, turn) && d.result == ResultOf(c, x, turn)
  {
    var x, turn := At(c, t).x, TurnAt(c, t);
    StepAt(c, t);
    StagesNumbered(c, x, stages);
    w := TurnMeans(c, x, s, stages, turn);
    TurnTraced(c, x, s, stages, turn, w, trace);
    TurnKeepsQueues(c, s, stages[turn], w);
    SameChannels(c, s.queues, DoneBy(c, s, stages[turn], w).state.queues);
  }

  /** The report once a turn has been counted. */
  ghost function Counted(c: Config, t: nat, report: Report): (Stats, seq<BatchResult>) {
    var x, turn := At(c, t).x, TurnAt(c, t);
    var stats := report.stats.(schedulerTurns := report.stats.schedulerTurns + 1);
    var sent := if SendsMessage(c, x, turn) then CountMessage(stats, c) else stats;
    (if Step(c, x, turn).1 then sent else sent.(idleTurns := sent.idleTurns + 1), AddResult(report.results, ResultOf(c, x, turn)))
  }

  lemma {:induction false} TracksTurn(c: Config, t: nat, report: Report, idle: nat)
    requires Tracks(c, t, report.results, report.stats, idle) && |report.results| < c.batches
    ensures t < TurnLimit(c)
    ensures var (stats, results) := Counted(c, t, report);
            var idle' := if Step(c, At(c, t).x, TurnAt(c, t)).1 then 0 else idle + 1;
            if idle' <= c.stages + 3 then Tracks(c, t + 1, results, stats, idle') else Expected(c) == GaveUp(stats.schedulerTurns)
  {
    TracksStep(c, t, report.results, report.stats, idle);
  }

  /** The report and the idle streak once turn `t` has been counted. */
  function Settled(report: Report, progressed: bool, idle: nat): (Report, nat) {
    if progressed then (report, 0) else (report.(stats := report.stats.(idleTurns := report.stats.idleTurns + 1)), idle + 1)
  }

  /** A counted turn leaves the run on track, or too many idle ones in a row have stalled it as expected.
      `before` is the report before the turn. */
  lemma SettledTracks(c: Config, t: nat, before: Report, report: Report, progressed: bool, idle: nat)
    requires Tracks(c, t, before.results, before.stats, idle) && |before.results| < c.batches
    requires var x, turn := At(c, t).x, TurnAt(c, t);
             var stats := before.stats.(schedulerTurns := before.stats.schedulerTurns + 1);
             && progressed == Step(c, x, turn).1 && report.results == AddResult(before.results, ResultOf(c, x, turn))
             && report.stats == if SendsMessage(c, x, turn) then CountMessage(stats, c) else stats
    ensures t < TurnLimit(c)
    ensures var (after, idle') := Settled(report, progressed, idle);
            if idle' <= c.stages + 3 then Tracks(c, t + 1, after.results, after.stats, idle')
            else Expected(c) == GaveUp(after.stats.schedulerTurns)
  {
    TracksTurn(c, t, before, idle);
  }

  lemma RunFinished(c: Config, t: nat, report: Report, idle: nat)
    requires Tracks(c, t, report.results, report.stats, idle) && |report.results| >= c.batches
    ensures Expected(c) == Completed(report.results, report.stats) && report.stats.schedulerTurns == t
  {
    FinishedMeansExpected(c, t, report.results);
  }

  // ---- booting ----

  method CreateChannels(c: Config, kernel: Kernel, channels: ChannelRegistry) returns (chan: seq<Capability>, ret: Capability)
    requires kernel.View() == BootKernel(0) && channels.queues == BootQueues(0)
    modifies kernel, channels
    ensures kernel.View() == BootKernel(c.stages + 2) && channels.queues == BootQueues(c.stages + 2)
    ensures chan == FirstCaps(0, c.stages + 1) && ret == FirstCap(c.stages + 1)
  {
    chan := [];
    for i := 0 to c.stages + 1
      invariant kernel.View() == BootKernel(i) && channels.queues == BootQueues(i) && chan == FirstCaps(0, i)
    {
      NewChannelStep(i);
      var cap := channels.New(kernel);
      chan := chan + [cap];
    }
    NewChannelStep(c.stages + 1);
    ret := channels.New(kernel);
  }

  method CreateRegions(c: Config, kernel: Kernel, memory: RegionRegistry) returns (regions: seq<Capability>)
    requires kernel.View() == BootKernel(c.stages + 2) && memory.regions == BootStore(c, 0)
    modifies kernel, memory
    ensures kernel.View() == BootKernel(Objects(c)) && memory.regions == BootStore(c, c.pool)
    ensures regions == FirstCaps(c.stages + 2, c.pool)
  {
    regions := [];
    for j := 0 to c.pool
      invariant kernel.View() == BootKernel(c.stages + 2 + j) && memory.regions == BootStore(c, j)
      invariant regions == FirstCaps(c.stages + 2, j)
    {
      NewRegionStep(c, j);
      var cap := memory.New(kernel, c.regionSize);
      regions := regions + [cap];
    }
  }

  /** The supervisor is given everything; object `h` ends up under handle `h`. */
  method Endow(c: Config, sup: Process, chan: seq<Capability>, ret: Capability, regions: seq<Capability>)
    returns (chanAt: seq<Handle>, retAt: Handle, regionsAt: seq<Handle>)
    requires sup.View() == NewProcess(0) && Objects(c) < HANDLE_LIMIT
    requires chan == FirstCaps(0, c.stages + 1) && ret == FirstCap(c.stages + 1) && regions == FirstCaps(c.stages + 2, c.pool)
    modifies sup`table, sup`nextHandle
    ensures sup.View() == ProcState(BootTable(Objects(c)), Objects(c), NewClock(0))
    ensures |chanAt| == c.stages + 1 && (forall i: nat :: i < |chanAt| ==> chanAt[i] == i) && retAt == c.stages + 1
    ensures |regionsAt| == c.pool && forall j: nat :: j < |regionsAt| ==> regionsAt[j] == RegionId(c, j)
  {
    assert BootTable(0) == map[];
    GrantFirstCaps(sup.View(), 0, c.stages + 1);
    chanAt := sup.GrantEach(chan);
    GrantFirstCap(sup.View(), c.stages + 1);
    retAt := sup.Grant(ret);
    GrantFirstCaps(sup.View(), c.stages + 2, c.pool);
    regionsAt := sup.GrantEach(regions);
  }

  /** The handles process `pid` holds, in ascending order. */
  method HandlesOf(sched: Scheduler, pid: ProcessId) returns (h: seq<Handle>)
    requires sched.Valid() && pid in sched.processes
    ensures Listing(h, sched.View().procs[pid].table)
  {
    h := SortedHandles(sched.processes[pid]);
  }

  /** Spawns a child of the supervisor, and lists the handles it was given. */
  method SpawnWith(kernel: Kernel, sched: Scheduler, grants: seq<Grant>, ghost k: KernelState, ghost next: SchedState)
    returns (r: Result<ProcessId, PipelineError>, h: seq<Handle>)
    requires sched.Valid() && kernel !in sched.Repr && kernel as object != sched
    requires sched.View().SpawnChild(kernel.View(), 0, grants) == Ok((k, next)) && sched.nextPid in next.procs
    modifies sched, sched.Repr, kernel`epochs
    ensures sched.Valid() && fresh(sched.Repr - old(sched.Repr)) && kernel.View() == k && sched.View() == next
    ensures r == Ok(old(sched.nextPid)) && Listing(h, next.procs[old(sched.nextPid)].table)
  {
    var spawned := sched.SpawnChild(kernel, 0, grants);
    match spawned {
      case Err(e) => return Err(ProcessFailure(e)), [];
      case Ok(pid) =>
        h := HandlesOf(sched, pid);
        r := Ok(pid);
    }
  }

  lemma ConsumerRecord(c: Config, i: nat, h: seq<Handle>)
    requires i <= c.stages && Listing(h, StageTable(i))
    ensures |h| == 2 && ConsumerOf(c, i) ==
            Stage(c.stages + 1 - i, if i == c.stages then Sink else Transformer(i), Some(h[0]), Some(h[1]), [], 0)
  {
    ListingOfFirst(h, StageTable(i), 2);
  }

  /** Spawns the stage whose turn it is to be spawned. */
  method SpawnNext(c: Config, kernel: Kernel, sched: Scheduler, q: nat, input: Handle, output: Handle, ghost s: SchedState)
    returns (r: Result<Stage, PipelineError>, ghost next: SchedState)
    requires sched.Valid() && kernel !in sched.Repr && kernel as object != sched && 1 <= q <= c.stages + 1
    requires sched.View() == s && Booting(c, s, q) && kernel.View() == BootKernel(Objects(c))
    requires input == InputOf(c, q) && output == input + 1
    modifies sched, sched.Repr, kernel`epochs
    ensures sched.Valid() && fresh(sched.Repr - old(sched.Repr)) && kernel.View() == BootKernel(Objects(c))
    ensures sched.View() == next && Booting(c, next, q + 1) && r == Ok(ConsumerOf(c, InputOf(c, q)))
  {
    next := SpawnConsumer(c, s, q);
    var spawned, h := SpawnWith(kernel, sched, ViewGrants(input, output), kernel.View(), next);
    match spawned {
      case Err(e) => r := Err(e);
      case Ok(pid) =>
        ConsumerRecord(c, input, h);
        r := Ok(Stage(pid, if input == c.stages then Sink else Transformer(input), Some(h[0]), Some(h[1]), [], 0));
    }
  }

  /** The sink first, then the transformers from the last to the first. */
  method SpawnConsumers(c: Config, kernel: Kernel, sched: Scheduler, chan: seq<Handle>, ret: Handle, ghost start: SchedState)
    returns (r: Result<seq<Stage>, PipelineError>, ghost s: SchedState)
    requires sched.Valid() && kernel !in sched.Repr && kernel as object != sched
    requires sched.View() == start && Booting(c, start, 1) && kernel.View() == BootKernel(Objects(c))
    requires |chan| == c.stages + 1 && (forall i: nat :: i < |chan| ==> chan[i] == i) && ret == c.stages + 1
    modifies sched, sched.Repr, kernel`epochs
    ensures sched.Valid() && fresh(sched.Repr - old(sched.Repr)) && kernel.View() == BootKernel(Objects(c))
    ensures sched.View() == s && Booting(c, s, c.stages + 2)
    ensures r.Ok? && Consumers(c, r.value, c.stages + 1)
  {
    var stages: seq<Stage> := [];
    s := start;
    for q := 1 to c.stages + 2
      invariant sched.Valid() && fresh(sched.Repr - old(sched.Repr)) && kernel !in sched.Repr
      invariant sched.View() == s && Booting(c, s, q) && kernel.View() == BootKernel(Objects(c))
      invariant Consumers(c, stages, q - 1)
    {
      var i := c.stages + 1 - q;
      var spawned;
      spawned, s := SpawnNext(c, kernel, sched, q, chan[i], if i == c.stages then ret else chan[i + 1], s);
      match spawned {
        case Err(e) => return Err(e), s;
        case Ok(stage) => stages := stages + [stage];
      }
    }
    r := Ok(stages);
  }

  /** The producer's grants, by the supervisor's handles. */
  method ProducerBatch(c: Config, c0: Handle, ret: Handle, regions: seq<Handle>) returns (grants: seq<Grant>)
    requires c0 == 0 && ret == c.stages + 1
    requires |regions| == c.pool && forall j: nat :: j < |regions| ==> regions[j] == RegionId(c, j)
    ensures grants == ProducerGrants(c)
  {
    grants := [Derive(c0, {WRITE}), Derive(ret, {READ})] + seq(|regions|, j requires 0 <= j < |regions| => Move(regions[j]));
  }

  /** The producer's record, from its handles in order: the return channel is its input. */
  lemma ProducerRecord(c: Config, h: seq<Handle>)
    requires Listing(h, ProducerTable(c))
    ensures |h| == c.pool + 2 && Stage(c.stages + 2, Producer, Some(h[1]), Some(h[0]), h[2..], 0) == ProducerStage(c, Start(c))
  {
    ListingOfFirst(h, ProducerTable(c), c.pool + 2);
    assert h[2..] == FreeHandles(c, Start(c));
  }

  /** The producer last: it gets every region. */
  method SpawnLast(c: Config, kernel: Kernel, sched: Scheduler, grants: seq<Grant>, ghost s: SchedState)
    returns (r: Result<Stage, PipelineError>, ghost next: SchedState)
    requires sched.Valid() && kernel !in sched.Repr && kernel as object != sched && InBounds(c)
    requires sched.View() == s && Booting(c, s, c.stages + 2) && kernel.View() == BootKernel(Objects(c))
    requires grants == ProducerGrants(c)
    modifies sched, sched.Repr, kernel`epochs
    ensures sched.Valid() && fresh(sched.Repr - old(sched.Repr)) && kernel.View() == RunningKernel(c)
    ensures sched.View() == next && Booted(c, next) && r == Ok(ProducerStage(c, Start(c)))
  {
    next := SpawnProducer(c, s);
    var spawned, h := SpawnWith(kernel, sched, grants, RunningKernel(c), next);
    match spawned {
      case Err(e) => r := Err(e);
      case Ok(pid) =>
        ProducerRecord(c, h);
        r := Ok(Stage(pid, Producer, Some(h[1]), Some(h[0]), h[2..], 0));
    }
  }

  method SpawnSupervisor(sched: Scheduler) returns (sup: Process)
    requires sched.Valid() && sched.Repr == {} && sched.View() == EMPTY_SCHEDULER
    modifies sched
    ensures sched.Valid() && fresh(sched.Repr) && sup in sched.Repr
    ensures sched.processes == map[0 := sup] && sched.nextPid == 1 && sched.ready == [0] && sup.View() == NewProcess(0)
  {
    assert sched.processes.Keys == sched.View().procs.Keys;
    assert sched.processes == map[];
    var supervisor := sched.Spawn([]);
    sup := sched.processes[supervisor];
    assert sched.processes.Keys == sched.View().procs.Keys;
    assert sup.View() == sched.View().procs[0];
  }

  lemma SupervisorBooting(c: Config, sched: Scheduler, sup: Process)
    requires sched.Valid() && sched.processes == map[0 := sup] && sched.nextPid == 1 && sched.ready == [0]
    requires sup.table == BootTable(Objects(c))
    ensures Booting(c, sched.View(), 1)
  {
    assert sched.View().procs[0] == sup.View();
  }

  /** The supervisor, and everything it creates. */
  method CreateAll(c: Config, kernel: Kernel, sched: Scheduler, channels: ChannelRegistry, memory: RegionRegistry)
    returns (chan: seq<Handle>, ret: Handle, regions: seq<Handle>, ghost s: SchedState)
    requires kernel.View() == EMPTY_KERNEL && channels.queues == map[] && memory.regions == map[]
    requires sched.Valid() && sched.Repr == {} && sched.View() == EMPTY_SCHEDULER && InBounds(c)
    modifies kernel, sched, channels, memory
    ensures sched.Valid() && fresh(sched.Repr) && sched.View() == s && Booting(c, s, 1)
    ensures kernel.View() == BootKernel(Objects(c)) && channels.queues == BootQueues(c.stages + 2)
    ensures memory.regions == BootStore(c, c.pool)
    ensures |chan| == c.stages + 1 && (forall i: nat :: i < |chan| ==> chan[i] == i) && ret == c.stages + 1
    ensures |regions| == c.pool && forall j: nat :: j < |regions| ==> regions[j] == RegionId(c, j)
  {
    BootAtNothing();
    var sup := SpawnSupervisor(sched);
    var chanCaps, retCap := CreateChannels(c, kernel, channels);
    var regionCaps := CreateRegions(c, kernel, memory);
    chan, ret, regions := Endow(c, sup, chanCaps, retCap, regionCaps);
    SupervisorBooting(c, sched, sup);
    s := sched.View();
  }

  /** What booting leaves is what no turns at all leave. */
  lemma BootedMatches(c: Config, s: SchedState, stages: seq<Stage>)
    requires InBounds(c) && Booted(c, s) && |stages| == c.stages + 3
    requires stages[0] == Stage(0, Supervisor, None, None, [], 0) && stages[c.stages + 2] == ProducerStage(c, Start(c))
    requires Consumers(c, stages[1..c.stages + 2], c.stages + 1)
    ensures forall q: nat :: q in s.procs <==> q < c.stages + 3
    ensures Matches(c, 0, RT.Snapshot(RunningKernel(c), BootQueues(c.stages + 2), BootStore(c, c.pool), s.procs), stages, [])
    ensures InTurn(s.ready, c.stages + 3, 0)
  {
    BootedShows(c, s);
    TraceStart(c, RT.Snapshot(RunningKernel(c), BootQueues(c.stages + 2), BootStore(c, c.pool), s.procs));
    forall q | 1 <= q <= c.stages + 1 ensures stages[q] == ConsumerOf(c, InputOf(c, q)) {
      assert stages[1..c.stages + 2][q - 1] == stages[q];
    }
  }

  method SpawnEach(c: Config, kernel: Kernel, sched: Scheduler, chan: seq<Handle>, ret: Handle, regions: seq<Handle>,
                     ghost start: SchedState)
    returns (r: Result<seq<Stage>, PipelineError>, ghost s: SchedState)
    requires sched.Valid() && kernel !in sched.Repr && kernel as object != sched && InBounds(c)
    requires sched.View() == start && Booting(c, start, 1) && kernel.View() == BootKernel(Objects(c))
    requires |chan| == c.stages + 1 && (forall i: nat :: i < |chan| ==> chan[i] == i) && ret == c.stages + 1
    requires |regions| == c.pool && forall j: nat :: j < |regions| ==> regions[j] == RegionId(c, j)
    modifies sched, sched.Repr, kernel`epochs
    ensures sched.Valid() && fresh(sched.Repr - old(sched.Repr)) && kernel.View() == RunningKernel(c) && sched.View() == s
    ensures r.Ok? && Booted(c, s) && |r.value| == c.stages + 3
    ensures r.Ok? ==> r.value[0] == Stage(0, Supervisor, None, None, [], 0) && r.value[c.stages + 2] == ProducerStage(c, Start(c)) &&
                      Consumers(c, r.value[1..c.stages + 2], c.stages + 1)
  {
    var grants := ProducerBatch(c, chan[0], ret, regions);
    var stages: seq<Stage> := [Stage(0, Supervisor, None, None, [], 0)];
    var consumers;
    consumers, s := SpawnConsumers(c, kernel, sched, chan, ret, start);
    match consumers {
      case Err(e) => return Err(e), s;
      case Ok(more) => stages := stages + more;
    }
    var producer;
    producer, s := SpawnLast(c, kernel, sched, grants, s);
    match producer {
      case Err(e) => return Err(e), s;
      case Ok(last) => stages := stages + [last];
    }
    assert stages[1..c.stages + 2] == stages[1..][..c.stages + 1];
    r := Ok(stages);
  }

  /** Every stage, in the order the round-robin will follow. */
  method SpawnStages(c: Config, kernel: Kernel, sched: Scheduler, chan: seq<Handle>, ret: Handle, regions: seq<Handle>,
                     ghost start: SchedState)
    returns (r: Result<seq<Stage>, PipelineError>, ghost s: SchedState)
    requires sched.Valid() && kernel !in sched.Repr && kernel as object != sched && InBounds(c)
    requires sched.View() == start && Booting(c, start, 1) && kernel.View() == BootKernel(Objects(c))
    requires |chan| == c.stages + 1 && (forall i: nat :: i < |chan| ==> chan[i] == i) && ret == c.stages + 1
    requires |regions| == c.pool && forall j: nat :: j < |regions| ==> regions[j] == RegionId(c, j)
    modifies sched, sched.Repr, kernel`epochs
    ensures sched.Valid() && fresh(sched.Repr - old(sched.Repr)) && kernel.View() == RunningKernel(c) && sched.View() == s
    ensures r.Ok? && InTurn(s.ready, c.stages + 3, 0) && forall q: nat :: q in s.procs <==> q < c.stages + 3
    ensures r.Ok? ==> Matches(c, 0,
      RT.Snapshot(RunningKernel(c), BootQueues(c.stages + 2), BootStore(c, c.pool), s.procs), r.value, [])
  {
    r, s := SpawnEach(c, kernel, sched, chan, ret, regions, start);
    match r {
      case Err(_) =>
      case Ok(stages) => BootedMatches(c, s, stages);
    }
  }

  method BootAll(c: Config, kernel: Kernel, sched: Scheduler, channels: ChannelRegistry, memory: RegionRegistry)
    returns (r: Result<seq<Stage>, PipelineError>, ghost s: RT.Snapshot)
    requires kernel.View() == EMPTY_KERNEL && channels.queues == map[] && memory.regions == map[]
    requires sched.Valid() && sched.Repr == {} && sched.View() == EMPTY_SCHEDULER && InBounds(c)
    modifies kernel, sched, channels, memory
    ensures sched.Valid() && fresh(sched.Repr)
    ensures RT.Snapshot(kernel.View(), channels.queues, memory.regions, sched.View().procs) == s
    ensures r.Ok? && Matches(c, 0, s, r.value, []) && InTurn(sched.ready, c.stages + 3, 0)
    ensures forall q: nat :: q in sched.processes <==> q < c.stages + 3
  {
    var chan, ret, regions, start := CreateAll(c, kernel, sched, channels, memory);
    ghost var end;
    r, end := SpawnStages(c, kernel, sched, chan, ret, regions, start);
    assert sched.processes.Keys == end.procs.Keys;
    s := RT.Snapshot(RunningKernel(c), BootQueues(c.stages + 2), BootStore(c, c.pool), end.procs);
  }

  class KernelPipeline {
    const config: Config
    const kernel: Kernel
    const sched: Scheduler
    const channels: ChannelRegistry
    const memory: RegionRegistry
    var stages: seq<Stage>

    constructor Assemble(c: Config, kernel: Kernel, sched: Scheduler, channels: ChannelRegistry, memory: RegionRegistry,
                         stages: seq<Stage>, ghost s: RT.Snapshot)
      requires sched.Valid() && sched.Repr !! {kernel, sched, channels, memory}
      requires forall q: nat :: q in sched.processes <==> q < c.stages + 3
      requires RT.Snapshot(kernel.View(), channels.queues, memory.regions, sched.View().procs) == s
      requires InTurn(sched.ready, c.stages + 3, 0)
      ensures config == c && this.kernel == kernel && this.sched == sched && this.channels == channels
      ensures this.memory == memory && this.stages == stages
      ensures Separate() && View() == s && InStep(0)
    {
      config := c;
      this.kernel, this.sched, this.channels, this.memory, this.stages := kernel, sched, channels, memory, stages;
    }

    ghost predicate Separate()
      reads sched
    {
      && sched.Repr !! {this, kernel, sched, channels, memory} && sched.Valid()
      && (forall q: nat :: q in sched.processes <==> q < config.stages + 3)
    }

    ghost function View(): RT.Snapshot
      requires Separate()
      reads this, kernel, sched, sched.Repr, channels, memory
    {
      RT.Snapshot(kernel.View(), channels.queues, memory.regions, sched.View().procs)
    }

    /** Boots the kernel, creates the channels and regions, and spawns every stage. */
    static method New(c: Config) returns (r: Result<KernelPipeline, PipelineError>)
      requires InBounds(c)
      ensures r.Ok? && fresh(r.value) && r.value.config == c
      ensures r.value.Separate() && Matches(c, 0, r.value.View(), r.value.stages, []) && r.value.InStep(0)
      ensures fresh({r.value.kernel, r.value.sched, r.value.channels, r.value.memory} + r.value.sched.Repr)
    {
      var kernel := new Kernel();
      var sched := new Scheduler();
      var channels := new ChannelRegistry();
      var memory := new RegionRegistry();
      var spawned, s := BootAll(c, kernel, sched, channels, memory);
      var stages := [];
      match spawned {
        case Err(e) => return Err(e);
        case Ok(all) => stages := all;
      }
      var pipeline := new KernelPipeline.Assemble(c, kernel, sched, channels, memory, stages, s);
      r := Ok(pipeline);
    }

    // ---- the kernel calls a stage makes, as the process playing it ----

    method ReceiveAs(q: ProcessId, h: Handle) returns (r: Result<Option<Delivery>, IpcError>)
      requires Separate() && q in sched.processes && h in sched.processes[q].table
      modifies channels, sched.processes[q]
      ensures Separate() && sched.processes == old(sched.processes)
      ensures View() == old(RT.AfterReceive(View(), q, sched.processes[q].table[h]))
      ensures var o := old(ReceiveOutcome(kernel.View(), channels.queues, sched.processes[q].table[h], sched.processes[q].View()));
              r == if o.Err? then Err(o.error) else if o.value.None? then Ok(None) else Ok(Some(o.value.value.delivery))
    {
      var proc := sched.processes[q];
      r := channels.Receive(kernel, proc.table[h], proc);
      assert sched.View().procs == old(sched.View()).procs[q := proc.View()];
    }

    /** The sink's or a transformer's work on the region it has just received. */
    method WorkOn(q: ProcessId, role: Role, batch: nat, region: Handle) returns (r: Result<Option<BatchResult>, PipelineError>)
      requires Separate() && q in sched.processes && region in sched.processes[q].table
      requires var cap := sched.processes[q].table[region]; kernel.View().Permits(cap, OWNER) && cap.obj in memory.regions
      modifies memory
      ensures Separate() && sched.View() == old(sched.View())
      ensures var o := sched.processes[q].table[region].obj; var bytes := old(memory.regions)[o];
              if role.Transformer? then
                r == Ok(None) && memory.regions == old(memory.regions)[o := Transformed(role.i, bytes)]
              else
                r == Ok(Some(BatchResult(batch, Checksum(bytes)))) && memory.regions == old(memory.regions)
    {
      var cap := sched.processes[q].table[region];
      if role.Transformer? {
        var updated := memory.Update(kernel, cap, s => Transformed(role.i, s));
        match updated {
          case Err(e) => return Err(MemoryFailure(e));
          case Ok(_) => r := Ok(None);
        }
      } else {
        var sum := memory.Inspect(kernel, cap, s => Checksum(s));
        match sum {
          case Err(e) => return Err(MemoryFailure(e));
          case Ok(value) => r := Ok(Some(BatchResult(batch, value)));
        }
      }
    }

    /** Process `q` moves the region at handle `h` on over its output channel. */
    method MoveOn(q: ProcessId, output: Handle, h: Handle, data: int) returns (r: Result<Stamp, IpcError>)
      requires Separate() && q in sched.processes && {output, h} <= sched.processes[q].table.Keys
      requires var t := sched.processes[q].table;
               kernel.View().Permits(t[h], OWNER) && kernel.View().Permits(t[output], {WRITE}) && t[output].obj in channels.queues
      modifies kernel`epochs, channels, sched.processes[q]
      ensures Separate()
      ensures var s, p := old(View()), old(sched.processes[q].View());
              var out, cap := p.table[output].obj, p.table[h];
              var m := Message(data, [cap.(epoch := cap.epoch + 1)], LocalEvent(p.clock));
              && r == Ok(m.sentAt)
              && View() == s.(kernel := BumpAll(s.kernel, {cap.obj}), queues := s.queues[out := s.queues[out] + [m]],
                              procs := s.procs[q := ProcState(p.table - {h}, p.nextHandle, m.sentAt)])
    {
      var proc := sched.processes[q];
      MoveOne(kernel.View(), proc.table, h);
      r := channels.Send(kernel, proc.table[output], proc, [Move(h)], data);
      assert sched.View().procs == old(sched.View()).procs[q := proc.View()];
    }

    /** A stage's work on the batch it has just received, and the batch's way on. */
    method PassOn(stage: Stage, d: Delivery, report: Report) returns (r: Result<bool, PipelineError>, after: Report)
      requires Separate() && MayPassOn(View(), stage, d)
      modifies kernel`epochs, channels, memory, sched.processes[stage.pid]
      ensures Separate() && r == Ok(true) && View() == PassedOn(old(View()), stage, d)
      ensures after == Added(config, report,
        RelayEntries(config, stage.role, d.data, d.receivedAt, LocalEvent(old(View()).procs[stage.pid].clock)),
        ResultOn(old(View()), stage, d), true)
    {
      assert sched.processes[stage.pid].View() == View().procs[stage.pid];
      var batch := RT.AsUnsigned(d.data);
      after := Record(config, report, stage.role, ReceiveAction, batch, d.receivedAt);
      if d.handles == [] {
        return Err(MissingRegion), after;
      }
      var result := WorkOn(stage.pid, stage.role, batch, d.handles[0]);
      match result {
        case Err(e) => return Err(e), after;
        case Ok(finished) => after := after.(results := AddResult(after.results, finished));
      }
      var sent := MoveOn(stage.pid, stage.output.value, d.handles[0], d.data);
      match sent {
        case Err(e) => return Err(IpcFailure(e)), after;
        case Ok(stamp) =>
          Regrouped(report.trace, Entry(config, stage.role, ReceiveAction, batch, d.receivedAt),
                    Entry(config, stage.role, SendAction, batch, stamp));
          after := Record(config, after.(stats := CountMessage(after.stats, config)), stage.role, SendAction, batch, stamp);
      }
      r := Ok(true);
    }

    /** One turn of a stage that consumes one channel: receive, work, move on. */
    method StageTurn(stage: Stage, report: Report, ghost found: Option<(RT.Snapshot, Delivery)>)
      returns (r: Result<bool, PipelineError>, after: Report)
      requires Separate() && Finds(View(), stage, found) && stage.pid in sched.processes
      modifies kernel`epochs, channels, memory, sched.processes[stage.pid]
      ensures Separate() && r == Ok(found.Some?)
      ensures found.None? ==> View() == old(View()) && after == report
      ensures found.Some? ==> View() == PassedOn(found.value.0, stage, found.value.1)
      ensures found.Some? ==> after == Reported(config, report, Relayed(config, found.value.0, stage, found.value.1))
    {
      assert sched.processes[stage.pid].View() == View().procs[stage.pid];
      var received := ReceiveAs(stage.pid, stage.input.value);
      match received {
        case Err(e) => return Err(IpcFailure(e)), report;
        case Ok(None) => return Ok(false), report;
        case Ok(Some(d)) => r, after := PassOn(stage, d, report);
      }
    }

    /** The producer takes one returned region back, if there is one. */
    method TakeReturn(stage: Stage, report: Report, ghost some: bool)
      returns (r: Result<bool, PipelineError>, freed: Stage, after: Report)
      requires Separate() && stage.pid in sched.processes && Returns(View(), stage, some)
      modifies channels, sched.processes[stage.pid]
      ensures Separate() && r == Ok(some)
      ensures !some ==> View() == old(View()) && freed == stage && after == report
      ensures some ==> View() == old(AfterReceiving(View(), stage))
      ensures some ==> var d := old(Returned(View(), stage));
              && freed == Freed(stage, d.handles[0])
              && after == report.(trace := report.trace + Entry(config, Producer, ReceiveAction, d.data, d.receivedAt))
    {
      freed, after := stage, report;
      assert sched.processes[stage.pid].View() == View().procs[stage.pid];
      var received := ReceiveAs(stage.pid, stage.input.value);
      match received {
        case Err(e) => r := Err(IpcFailure(e));
        case Ok(None) => r := Ok(false);
        case Ok(Some(d)) =>
          if d.handles == [] {
            return Err(MissingRegion), stage, report;
          }
          freed := Freed(stage, d.handles[0]);
          after := Record(config, report, Producer, ReceiveAction, RT.AsUnsigned(d.data), d.receivedAt);
          r := Ok(true);
      }
    }

    /** The producer takes every returned region back, oldest first. */
    method TakeReturns(stage: Stage, report: Report, ghost all: Receipts)
      returns (r: Result<bool, PipelineError>, freed: Stage, after: Report)
      requires Separate() && stage.pid in sched.processes && Drains(View(), stage, all)
      modifies channels, sched.processes[stage.pid]
      ensures Separate() && r == Ok(all != [])
      ensures var d := Drained(config, old(View()), stage, all);
              View() == d.0 && freed == d.1 && after == report.(trace := report.trace + d.2)
      ensures freed.pid == stage.pid
    {
      ghost var left, here := all, View();
      freed, after := stage, report;
      var progressed, more := false, true;
      while more
        invariant Separate() && View() == here && freed.pid == stage.pid && stage.pid in sched.processes
        invariant Drains(here, freed, left) && (!more ==> left == [])
        invariant StillToDrain(config, old(View()), stage, all, report.trace, here, freed, left, after.trace)
        invariant after == report.(trace := after.trace)
        invariant progressed == (left != all) && |left| <= |all|
        decreases left, more
      {
        DrainStep(config, old(View()), stage, all, report.trace, here, freed, left, after.trace);
        var took;
        took, freed, after := TakeReturn(freed, after, left != []);
        match took {
          case Err(e) => return Err(e), freed, after;
          case Ok(any) =>
            more := any;
            if any {
              progressed, left, here := true, left[1..], left[0].0;
            }
        }
      }
      r := Ok(progressed);
    }

    /** The producer's work on a free region. */
    method Fill(q: ProcessId, region: Handle, batch: nat) returns (r: Result<Unit, PipelineError>)
      requires Separate() && q in sched.processes && region in sched.processes[q].table
      requires var cap := sched.processes[q].table[region]; kernel.View().Permits(cap, OWNER) && cap.obj in memory.regions
      modifies memory
      ensures Separate() && sched.View() == old(sched.View()) && r == Ok(Unit.Unit)
      ensures var o := sched.processes[q].table[region].obj;
              memory.regions == old(memory.regions)[o := BatchBytes(config.seed, batch, |old(memory.regions)[o]|)]
    {
      var seed := config.seed;
      var filled := memory.Update(kernel, sched.processes[q].table[region], s => BatchBytes(seed, batch, |s|));
      match filled {
        case Err(e) => r := Err(MemoryFailure(e));
        case Ok(_) => r := Ok(Unit.Unit);
      }
    }

    /** Fills the first free region and sends it on, as one batch. */
    method FillAndSend(stage: Stage, report: Report) returns (r: Result<bool, PipelineError>, after: Report)
      requires Separate() && MayFill(View(), stage)
      modifies kernel`epochs, channels, memory, sched.processes[stage.pid]
      ensures Separate() && r == Ok(true) && View() == FilledAndSent(config, old(View()), stage)
      ensures after == Added(config, report, Entry(config, Producer, SendAction, stage.nextBatch,
        LocalEvent(old(View()).procs[stage.pid].clock)), None, true)
    {
      after := report;
      var batch, region := stage.nextBatch, stage.freeRegions[0];
      assert sched.processes[stage.pid].View() == View().procs[stage.pid];
      var filled := Fill(stage.pid, region, batch);
      match filled {
        case Err(e) => return Err(e), after;
        case Ok(_) =>
      }
      var sent := MoveOn(stage.pid, stage.output.value, region, RT.AsSigned(batch));
      match sent {
        case Err(e) => return Err(IpcFailure(e)), after;
        case Ok(stamp) =>
          after := Record(config, after.(stats := CountMessage(after.stats, config)), Producer, SendAction, batch, stamp);
      }
      r := Ok(true);
    }

    /** The producer sends its next batch, if it has one and a region for it. */
    method SendNext(stage: Stage, report: Report) returns (r: Result<bool, PipelineError>, next: Stage, after: Report)
      requires Separate() && stage.pid in sched.processes && (Wants(config, stage) ==> MayFill(View(), stage))
      modifies kernel`epochs, channels, memory, sched.processes[stage.pid]
      ensures Separate()
      ensures var d := if Wants(config, stage) then Sending(config, old(View()), stage) else Idle(old(View()), stage);
              View() == d.state && next == d.stage && r == Ok(d.progressed) && after == Reported(config, report, d)
    {
      r, next, after := Ok(false), stage, report;
      if stage.nextBatch < config.batches && stage.freeRegions != [] {
        r, after := FillAndSend(stage, report);
        next := AfterSending(stage);
      }
    }

    /** The producer takes everything returned back, and then sends one batch if it may. */
    method ProducerTurn(stage: Stage, report: Report, ghost all: Receipts)
      returns (r: Result<bool, PipelineError>, next: Stage, after: Report)
      requires Separate() && stage.pid in sched.processes && MayProduce(config, View(), stage, all)
      modifies kernel`epochs, channels, memory, sched.processes[stage.pid]
      ensures Separate()
      ensures var d := Produced(config, old(View()), stage, all);
              View() == d.state && next == d.stage && r == Ok(d.progressed) && after == Reported(config, report, d)
    {
      var taken, sent;
      ghost var d := Drained(config, View(), stage, all);
      ProducerReports(config, report, d.0, d.1, d.2, all != []);
      taken, next, after := TakeReturns(stage, report, all);
      match taken {
        case Err(e) => return Err(e), next, after;
        case Ok(any) =>
          sent, next, after := SendNext(next, after);
          match sent {
            case Err(e) => r := Err(e);
            case Ok(one) => r := Ok(any || one);
          }
      }
    }

    /** The turn of a stage in any role. */
    method StageStep(stage: Stage, report: Report, ghost w: Work)
      returns (r: Result<bool, PipelineError>, next: Stage, after: Report)
      requires Separate() && stage.pid in sched.processes && Allowed(config, View(), stage, w)
      modifies kernel`epochs, channels, memory, sched.processes[stage.pid]
      ensures Separate()
      ensures var d := DoneBy(config, old(View()), stage, w);
              View() == d.state && next == d.stage && r == Ok(d.progressed) && after == Reported(config, report, d)
    {
      next := stage;
      if stage.role.Supervisor? {
        r, after := Ok(false), report;
      } else if stage.role.Producer? {
        r, next, after := ProducerTurn(stage, report, w.all);
      } else {
        r, after := StageTurn(stage, report, w.found);
      }
    }

    /** One turn of the stage at `index`. */
    method TakeTurn(index: nat, report: Report, ghost w: Work) returns (r: Result<bool, PipelineError>, after: Report)
      requires Separate() && index < |stages| && stages[index].pid == index && index in sched.processes
      requires Allowed(config, View(), stages[index], w)
      modifies this`stages, kernel`epochs, channels, memory, sched.processes[index]
      ensures Separate()
      ensures var d := old(DoneBy(config, View(), stages[index], w));
              && View() == d.state && stages == old(stages)[index := d.stage]
              && r == Ok(d.progressed) && after == Reported(config, report, d)
    {
      var next;
      r, next, after := StageStep(stages[index], report, w);
      stages := stages[index := next];
    }

    /** The stage played by the process whose turn it is. */
    method NextStage(ghost at: nat) returns (index: nat)
      requires Separate() && Numbered(stages) && InTurn(sched.ready, |stages|, at)
      modifies sched`ready
      ensures Separate() && View() == old(View()) && index == at && InTurn(sched.ready, |stages|, Following(|stages|, at))
    {
      var next := sched.ScheduleNext();
      index := 0;
      while index < |stages| && stages[index].pid != next.value
        invariant index <= at
      {
        index := index + 1;
      }
    }

    /** Whose turn it is after a number of turns, in the ready queue. */
    ghost predicate InStep(t: nat)
      reads sched
    {
      InTurn(sched.ready, config.stages + 3, TurnAt(config, t))
    }

    /** One turn of whoever is at the front of the ready queue. */
    method NextTurn(report: Report, ghost t: nat) returns (r: Result<bool, PipelineError>, after: Report)
      requires Separate() && Matches(config, t, View(), stages, report.trace) && InStep(t)
      modifies this`stages, sched`ready, kernel`epochs, channels, memory, sched.Repr
      ensures Separate() && Matches(config, t + 1, View(), stages, after.trace) && InStep(t + 1)
      ensures var x, turn := At(config, t).x, TurnAt(config, t);
              && r == Ok(Step(config, x, turn).1) && after.results == AddResult(report.results, ResultOf(config, x, turn))
              && after.stats == if SendsMessage(config, x, turn) then CountMessage(report.stats, config) else report.stats
    {
      ghost var w := MatchesNext(config, t, View(), stages, report.trace);
      var index := NextStage(TurnAt(config, t));
      r, after := TakeTurn(index, report, w);
    }

    /** A run that has taken `t` turns, with its report and its idle streak so far. */
    ghost predicate Running(t: nat, report: Report, idle: nat)
      reads this, kernel, sched, sched.Repr, channels, memory
    {
      && Separate() && InStep(t) && Matches(config, t, View(), stages, report.trace)
      && Tracks(config, t, report.results, report.stats, idle)
    }

    /** One iteration of the run: a turn, counted; too many idle ones in a row stall the run. */
    method CountedTurn(report: Report, idleStreak: nat, ghost t: nat)
      returns (r: Result<Unit, PipelineError>, after: Report, idle: nat)
      requires Running(t, report, idleStreak) && |report.results| < config.batches
      modifies this`stages, sched`ready, kernel`epochs, channels, memory, sched.Repr
      ensures Separate() && t < TurnLimit(config)
      ensures r.Ok? ==> Running(t + 1, after, idle)
      ensures r.Err? ==> Expected(config).GaveUp? && r.error == Stalled(Expected(config).turns)
    {
      var progressed;
      progressed, after := NextTurn(report.(stats := report.stats.(schedulerTurns := report.stats.schedulerTurns + 1)), t);
      r, idle := Ok(Unit.Unit), 0;
      match progressed {
        case Err(e) => return Err(e), after, idle;
        case Ok(any) =>
          SettledTracks(config, t, report, after, any, idleStreak);
          if !any {
            after := after.(stats := after.stats.(idleTurns := after.stats.idleTurns + 1));
            idle := idleStreak + 1;
            if idle > config.stages + 3 {
              return Err(Stalled(after.stats.schedulerTurns)), after, idle;
            }
          }
      }
    }

    /** Turn after turn, until every batch has its result or the run stalls. */
    method RunTurns(start: Report) returns (r: Result<Report, PipelineError>, ghost t: nat, ghost idle: nat)
      requires Running(0, start, 0)
      modifies this`stages, sched`ready, kernel`epochs, channels, memory, sched.Repr
      ensures Separate()
      ensures r.Ok? ==> Running(t, r.value, idle) && |r.value.results| >= config.batches
      ensures r.Err? ==> Expected(config).GaveUp? && r.error == Stalled(Expected(config).turns)
    {
      var report, idleStreak := start, 0;
      t, idle := 0, 0;
      while |report.results| < config.batches
        invariant Running(t, report, idleStreak) && idle == idleStreak
        decreases TurnLimit(config) - t
      {
        var counted;
        counted, report, idleStreak := CountedTurn(report, idleStreak, t);
        idle := idleStreak;
        match counted {
          case Err(e) => return Err(e), t, idle;
          case Ok(_) => t := t + 1;
        }
      }
      r := Ok(report);
    }

    /** Runs to completion: until the sink has finished every batch. */
    method Run() returns (r: Result<Report, PipelineError>)
      requires Separate() && Matches(config, 0, View(), stages, []) && InStep(0)
      modifies this`stages, sched`ready, kernel`epochs, channels, memory, sched.Repr
      ensures match Expected(config)
              case Completed(results, stats) => r.Ok? && r.value.results == results && r.value.stats == stats
              case GaveUp(turns) => r == Err(Stalled(turns))
      ensures Separate() && (r.Ok? ==> Matches(config, r.value.stats.schedulerTurns, View(), stages, r.value.trace))
    {
      TracksStart(config);
      ghost var t, idle;
      r, t, idle := RunTurns(Report([], [], NO_STATS));
      if r.Ok? {
        RunFinished(config, t, r.value, idle);
      }
    }
  }

  /** Builds the pipeline and runs it: booting never fails, and the outcome is the expected one. */
  method RunKernelPipeline(c: Config) returns (r: Result<Report, PipelineError>)
    requires InBounds(c)
    ensures match Expected(c)
            case Completed(results, stats) => r.Ok? && r.value.results == results && r.value.stats == stats
            case GaveUp(turns) => r == Err(Stalled(turns))
    ensures r.Ok? ==> Causal(c, r.value.trace) && Once(c, r.value.trace)
    ensures r.Ok? ==> if c.trace then Complete(c, At(c, r.value.stats.schedulerTurns).x, r.value.trace) else r.value.trace == []
  {
    var built := KernelPipeline.New(c);
    match built {
      case Err(e) => r := Err(e);
      case Ok(pipeline) => r := pipeline.Run();
    }
  }
}
