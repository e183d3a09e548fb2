/** The chaos harness as a whole: whatever operations it runs, the kernel and the model never disagree,
    and a corrupted model is caught at once. */
module ChaosRun {
  import opened Wrappers
  import opened Rights
  import opened Capabilities
  import opened Clocks
  import opened Processes
  import opened Causality
  import opened Data
  import opened Machine
  import opened Chaos
  import opened ChaosMatch
  import opened ChaosEvents
  import opened ChaosWorld
  import opened ChaosOps
  import opened ChaosTransfer
  import opened ChaosSpawn
  import Boot
  import Channels
  import Checker
  import DataMeans
  import MC = MachineCausality
  import Regions
  import S = Scheduling
  import T = Transfers

  // ---- setup ----

  /** One root process, no objects. */
  function RootWorld(): World {
    World(Sys(EMPTY_KERNEL, S.EMPTY_SCHEDULER.Spawn([]), map[], map[]),
          Shadow([], [], [ProcModel(0, map[])], seq(CHANNELS, _ => []), []),
          Events([], [], [None]))
  }

  /** One more channel, granted to the root. */
  function AddChannel(w: World): World {
    if !Exists(w, 0) then w
    else
      var (k, queues, cap) := Channels.NewChannel(w.sys.kernel, w.sys.queues);
      var c := |w.shadow.channels|;
      var w' := w.(sys := w.sys.(kernel := k, queues := queues), shadow := w.shadow.(channels := w.shadow.channels + [cap.obj]));
      Install(w', 0, cap, CapModel(Channel(c), cap.rights, 0))
  }

  function Repeat(f: World -> World, w: World, n: nat): World {
    if n == 0 then w else f(Repeat(f, w, n - 1))
  }

  function WithChannels(n: nat): World {
    Repeat(AddChannel, RootWorld(), n)
  }

  function AddRegion(w: World, size: nat): World {
    match ExecuteNewRegion(w, 0, size) case Ok(w') => w' case Err(_) => w
  }

  /** Three channels and two regions, all held by the root. */
  function NewWorld(): World {
    AddRegion(AddRegion(WithChannels(CHANNELS), 8), 8)
  }

  function RootTable(n: nat): TableModel {
    map h | h in Boot.Below(n) :: CapModel(Channel(h), OWNER, 0)
  }

  function RootStash(n: nat): (s: seq<(Capability, CapModel)>)
    ensures |s| == n
  {
    seq(n, i requires 0 <= i < n => (Boot.FirstCap(i), CapModel(Channel(i), OWNER, 0)))
  }

  function FirstIds(n: nat): (s: seq<ObjectId>)
    ensures |s| == n
  {
    seq(n, i requires 0 <= i < n => i)
  }

  function ChannelWorld(n: nat): World
    requires n < HANDLE_LIMIT
  {
    World(Sys(Boot.BootKernel(n), S.SchedState(map[0 := ProcState(Boot.BootTable(n), n, NewClock(0))], 1, [0]), Boot.BootQueues(n), map[]),
          Shadow(FirstIds(n), [], [ProcModel(0, RootTable(n))], seq(CHANNELS, _ => []), RootStash(n)),
          Events([], [], [None]))
  }

  lemma RootPartsGrow(n: nat)
    ensures FirstIds(n) + [n] == FirstIds(n + 1)
    ensures RootStash(n) + [(Boot.FirstCap(n), CapModel(Channel(n), OWNER, 0))] == RootStash(n + 1)
    ensures RootTable(n)[n := CapModel(Channel(n), OWNER, 0)] == RootTable(n + 1)
  {
  }

  /** The root's world with a new channel's kernel, queues and id, before the root is given it. */
  lemma InstallChannelIs(n: nat, w: World)
    requires n + 1 < HANDLE_LIMIT
    requires w == ChannelWorld(n).(sys := ChannelWorld(n).sys.(kernel := Boot.BootKernel(n + 1), queues := Boot.BootQueues(n + 1)),
                                   shadow := ChannelWorld(n).shadow.(channels := FirstIds(n + 1)))
    ensures Exists(w, 0) && Install(w, 0, Boot.FirstCap(n), CapModel(Channel(n), OWNER, 0)) == ChannelWorld(n + 1)
  {
    Boot.GrantFirstCap(w.sys.sched.procs[0], n);
    RootPartsGrow(n);
  }

  lemma AddChannelIs(n: nat)
    requires n + 1 < HANDLE_LIMIT
    ensures AddChannel(ChannelWorld(n)) == ChannelWorld(n + 1)
  {
    var w := ChannelWorld(n);
    Boot.NewChannelStep(n);
    RootPartsGrow(n);
    InstallChannelIs(n, w.(sys := w.sys.(kernel := Boot.BootKernel(n + 1), queues := Boot.BootQueues(n + 1)),
                           shadow := w.shadow.(channels := FirstIds(n + 1))));
  }

  lemma RootWorldIs()
    ensures ChannelWorld(0) == RootWorld()
  {
    Boot.BootAtNothing();
    assert Boot.BootTable(0) == map[] && RootTable(0) == map[];
  }

  /** `f` adds a channel. */
  ghost predicate Adds(f: World -> World) {
    forall w {:trigger AddChannel(w)} :: f(w) == AddChannel(w)
  }

  lemma AddsOne(f: World -> World, n: nat, w: World, next: World)
    requires Adds(f) && n + 1 < HANDLE_LIMIT && w == ChannelWorld(n) && next == ChannelWorld(n + 1)
    ensures f(w) == next
  {
    AddChannelIs(n);
  }

  lemma {:induction false} AddsAll(f: World -> World, start: World, n: nat, w: World)
    requires Adds(f) && n < HANDLE_LIMIT && start == ChannelWorld(0) && w == ChannelWorld(n)
    ensures Repeat(f, start, n) == w
  {
    if n > 0 {
      var before := ChannelWorld(n - 1);
      AddsAll(f, start, n - 1, before);
      AddsOne(f, n - 1, before, w);
    }
  }

  lemma WithChannelsIs(n: nat)
    requires n < HANDLE_LIMIT
    ensures WithChannels(n) == ChannelWorld(n)
  {
    RootWorldIs();
    AddsAll(AddChannel, RootWorld(), n, ChannelWorld(n));
  }

  lemma RootMatches(sh: Shadow, proc: ProcState)
    requires sh == ChannelWorld(CHANNELS).shadow && proc == ProcState(Boot.BootTable(CHANNELS), CHANNELS, NewClock(0))
    ensures ProcMatches(sh, proc, sh.procs[0])
  {
    var mt := RootTable(CHANNELS);
    forall h | h in proc.table ensures CapMatches(sh, proc.table[h], mt[h]) {
    }
    forall c | 0 <= c < CHANNELS ensures ChannelHandles(mt, c) != {} {
      assert c in mt && mt[c].obj == Channel(c);
      assert c in ChannelHandles(mt, c);
    }
  }

  lemma NothingInFlight(sh: Shadow, queues: Channels.Queues)
    requires sh == ChannelWorld(CHANNELS).shadow && queues == Boot.BootQueues(CHANNELS)
    ensures FlightsMatch(sh, [], queues)
  {
    forall c: nat | c < CHANNELS ensures c in queues && FlightMatches(sh, [], queues[c], sh.inFlight[c]) {
    }
  }

  lemma NoEventsMatch(procs: map<ProcessId, ProcState>)
    requires procs.Keys == {0} && procs[0].clock == NewClock(0)
    ensures EventsMatch(Events([], [], [None]), procs, 1, [])
  {
    assert Checker.StampsOf([]) == [] && Checker.AllPreds([]) == [];
  }

  lemma ChannelWorldMatches()
    ensures Matches(ChannelWorld(CHANNELS), [])
  {
    var w := ChannelWorld(CHANNELS);
    RootMatches(w.shadow, w.sys.sched.procs[0]);
    NothingInFlight(w.shadow, w.sys.queues);
    NoEventsMatch(w.sys.sched.procs);
  }

  lemma AddRegionRoom(w: World, size: nat, n: nat)
    requires ExecuteNewRegion(w, 0, size).Ok? && Room(w, n + 1) && Light(w, 0)
    ensures Room(AddRegion(w, size), n) && Light(AddRegion(w, size), 0) && AddRegion(w, size).shadow.procs != []
  {
  }

  lemma AddRegionMatches(w: World, size: nat, n: nat)
    requires Matches(w, []) && w.shadow.procs != [] && Room(w, n + 1) && Light(w, 0)
    ensures Matches(AddRegion(w, size), []) && AddRegion(w, size).shadow.procs != []
    ensures Room(AddRegion(w, size), n) && Light(AddRegion(w, size), 0)
  {
    NewRegionMatches(w, [], 0, size);
    AddRegionRoom(w, size, n);
  }

  lemma ChannelWorldRoom()
    ensures Room(ChannelWorld(CHANNELS), HANDLE_LIMIT - 4) && Light(ChannelWorld(CHANNELS), 0)
  {
  }

  lemma TwoRegions(w: World)
    requires Matches(w, []) && w.shadow.procs != [] && Room(w, HANDLE_LIMIT - 4) && Light(w, 0)
    ensures var w' := AddRegion(AddRegion(w, 8), 8);
            Matches(w', []) && w'.shadow.procs != [] && Room(w', HANDLE_LIMIT - 6) && Light(w', 0)
  {
    AddRegionMatches(w, 8, HANDLE_LIMIT - 5);
    AddRegionMatches(AddRegion(w, 8), 8, HANDLE_LIMIT - 6);
  }

  /** The world the harness starts in matches. */
  lemma NewWorldMatches()
    ensures Matches(NewWorld(), []) && NewWorld().shadow.procs != []
    ensures Room(NewWorld(), HANDLE_LIMIT - 6) && Light(NewWorld(), 0)
  {
    WithChannelsIs(CHANNELS);
    ChannelWorldMatches();
    ChannelWorldRoom();
    TwoRegions(WithChannels(CHANNELS));
  }

  /** What there is to begin with: the root with three channels and two regions of eight zero bytes, all of
      it seen. */
  lemma NewWorldHas()
    ensures var sh := NewWorld().shadow;
            && sh.channels == FirstIds(CHANNELS) && |sh.procs| == 1 && |sh.stash| == CHANNELS + 2
            && sh.regions == [RegionModel(CHANNELS, true, 0, Regions.Zeros(8)), RegionModel(CHANNELS + 1, true, 0, Regions.Zeros(8))]
  {
    WithChannelsIs(CHANNELS);
  }

  // ---- any operation ----

  /** Raw indices are reduced to an existing process and channel. */
  function Aimed(w: World, op: ChaosOp): ChaosOp
    requires w.shadow.procs != []
  {
    var p := op.p % |w.shadow.procs|;
    match op
    case Send(_, channel, grants) => Send(p, channel % CHANNELS, grants)
    case Receive(_, channel) => Receive(p, channel % CHANNELS)
    case _ => op.(p := p)
  }

  lemma CountsRound(a: nat, n: nat)
    requires n > 0
    ensures a % n < n && (a < n ==> a % n == a) && a % n % n == a % n
  {
  }

  /** An operation that is in range runs as it is. */
  lemma AimedMeans(w: World, op: ChaosOp)
    requires InRange(w, op)
    ensures Aimed(w, op) == op
  {
    CountsRound(op.p, |w.shadow.procs|);
    if op.Send? || op.Receive? {
      CountsRound(op.channel, CHANNELS);
    }
  }

  /** No batch names more than `g` handles. */
  predicate Sized(op: ChaosOp, g: nat) {
    (op.Send? || op.Spawn?) ==> |op.grants| <= g
  }

  /** Handles one operation can give one process. */
  function Demand(g: nat): nat {
    g + CHANNELS + 1
  }

  /** The operation ran as predicted, and left kernel and model matching. */
  ghost predicate Ran(w: World, a: ChaosOp, log: Log) {
    Execute(w, a).Ok? && Matches(Execute(w, a).value, log)
  }

  /** The operation names an existing process and channel. */
  predicate InRange(w: World, a: ChaosOp) {
    a.p < |w.shadow.procs| && ((a.Send? || a.Receive?) ==> a.channel < CHANNELS)
  }

  lemma SendRan(w: World, log: Log, a: ChaosOp) returns (log': Log)
    requires Matches(w, log) && a.Send? && InRange(w, a)
    ensures Ran(w, a, log')
  {
    SendMatches(w, log, a.p, a.channel, a.grants);
    log' := if ExecuteSend(w, a.p, a.channel, a.grants).value != w then log + [MC.NextEvent(log, a.p, None)] else log;
  }

  lemma SpawnRan(w: World, log: Log, a: ChaosOp) returns (log': Log)
    requires Matches(w, log) && a.Spawn? && InRange(w, a) && CHANNELS + |a.grants| < HANDLE_LIMIT
    ensures Ran(w, a, log')
  {
    log' := SpawnMatches(w, log, a.p, a.grants);
  }

  lemma ReceiveRan(w: World, log: Log, a: ChaosOp, g: nat) returns (log': Log)
    requires Matches(w, log) && a.Receive? && InRange(w, a) && Room(w, g) && Light(w, g)
    ensures Ran(w, a, log')
  {
    log' := ReceiveMatches(w, log, a.p, a.channel, g);
  }

  lemma {:induction false} OtherRan(w: World, log: Log, a: ChaosOp) returns (log': Log)
    requires Matches(w, log) && !(a.Send? || a.Spawn? || a.Receive?) && InRange(w, a) && Room(w, 1)
    ensures Ran(w, a, log')
  {
    log' := log;
    match a
    case NewRegion(p, size) => NewRegionMatches(w, log, p, size);
    case Local(p) =>
      LocalMatches(w, log, p);
      log' := log + [MC.NextEvent(log, p, None)];
    case _ => AccessMatches(w, log, a);
  }

  lemma AimedInRange(w: World, op: ChaosOp, g: nat)
    requires w.shadow.procs != []
    ensures InRange(w, Aimed(w, op)) && (Sized(op, g) ==> Sized(Aimed(w, op), g))
  {
  }

  /** Shadow-model simulation: every operation is predicted exactly and leaves kernel and model matching. */
  lemma ExecuteMatches(w: World, log: Log, op: ChaosOp, g: nat) returns (log': Log)
    requires Matches(w, log) && w.shadow.procs != [] && Sized(op, g) && Room(w, Demand(g)) && Light(w, g)
    ensures Ran(w, Aimed(w, op), log')
  {
    var a := Aimed(w, op);
    AimedInRange(w, op, g);
    assert 0 in w.sys.sched.procs;
    match a
    case Spawn(_, _) => log' := SpawnRan(w, log, a);
    case Send(_, _, _) => log' := SendRan(w, log, a);
    case Receive(_, _) => log' := ReceiveRan(w, log, a, g);
    case _ => log' := OtherRan(w, log, a);
  }

  // ---- handles and message sizes stay bounded ----

  lemma {:induction false} GrantRoom(p: ProcState, caps: seq<Capability>, n: nat)
    requires p.nextHandle + |caps| + n < HANDLE_LIMIT
    ensures p.GrantAll(caps).nextHandle + n < HANDLE_LIMIT
  {
    GrantAllCounter(p, caps);
  }

  lemma ReceiveRoom(w: World, p: nat, channel: nat, g: nat, n: nat)
    requires ExecuteReceive(w, p, channel).Ok? && Room(w, n + g) && Light(w, g)
    ensures Room(ExecuteReceive(w, p, channel).value, n) && Light(ExecuteReceive(w, p, channel).value, g)
  {
    var cap, proc := ChannelCap(w, p, channel).value, ProcOf(w, p);
    var r := Channels.ReceiveOutcome(w.sys.kernel, w.sys.queues, cap, proc);
    if r.value.Some? {
      var caps := w.sys.queues[cap.obj][0].caps;
      assert |caps| == |w.shadow.inFlight[channel][0].caps|;
      GrantRoom(proc, caps, n);
    }
  }

  lemma SendRoom(w: World, p: nat, channel: nat, grants: seq<(nat, GrantKind)>, g: nat, n: nat)
    requires ExecuteSend(w, p, channel, grants).Ok? && Room(w, n) && Light(w, g) && |grants| <= g
    ensures Room(ExecuteSend(w, p, channel, grants).value, n) && Light(ExecuteSend(w, p, channel, grants).value, g)
  {
  }

  lemma BatchSize(k: KernelState, t: Table, grants: seq<T.Grant>)
    ensures T.RunBatch(k, t, grants).Ok? ==> |T.RunBatch(k, t, grants).value.delivered| == |grants|
  {
    T.BatchEffect(k, t, grants);
  }

  lemma SpawnRoom(w: World, p: nat, grants: seq<(nat, GrantKind)>, g: nat, n: nat)
    requires ExecuteSpawn(w, p, grants).Ok? && Room(w, n) && Light(w, g) && |grants| <= g && n + g + CHANNELS < HANDLE_LIMIT
    ensures Room(ExecuteSpawn(w, p, grants).value, n) && Light(ExecuteSpawn(w, p, grants).value, g)
  {
    if ExecuteSpawn(w, p, grants).value != w {
      var mt := w.shadow.procs[p].table;
      var all := ChannelGrants(mt) + ToGrants(ConcreteGrants(mt, grants));
      var pid := w.shadow.procs[p].pid;
      BatchSize(w.sys.kernel, w.sys.sched.procs[pid].table, all);
      var e := w.sys.sched.Endow(w.sys.kernel, pid, all).value;
      var child := NewProcess(w.sys.sched.nextPid);
      GrantRoom(child.(clock := ReceiveEvent(child.clock, e.spawnedAt)), e.delivered, n);
    }
  }

  /** What the operation leaves still has room, and light messages. */
  ghost predicate StaysRoomy(w: World, a: ChaosOp, g: nat, n: nat) {
    Execute(w, a).Ok? && Room(Execute(w, a).value, n) && Light(Execute(w, a).value, g)
  }

  /** Accesses touch memory and authority only. */
  lemma AccessKeeps(w: World, a: ChaosOp)
    requires (a.Read? || a.Write? || a.Revoke? || a.Destroy?) && ExecuteAccess(w, a).Ok?
    ensures var w' := ExecuteAccess(w, a).value; w'.sys.sched == w.sys.sched && w'.shadow.inFlight == w.shadow.inFlight
  {
  }

  lemma LocalRoom(w: World, p: nat, g: nat, n: nat)
    requires ExecuteLocal(w, p).Ok? && Light(w, g) && Room(w, n)
    ensures Room(ExecuteLocal(w, p).value, n) && Light(ExecuteLocal(w, p).value, g)
  {
  }

  lemma NewRegionRoom(w: World, p: nat, size: nat, g: nat, n: nat)
    requires ExecuteNewRegion(w, p, size).Ok? && Light(w, g) && Room(w, n + 1)
    ensures Room(ExecuteNewRegion(w, p, size).value, n) && Light(ExecuteNewRegion(w, p, size).value, g)
  {
  }

  lemma OtherRoom(w: World, a: ChaosOp, g: nat, n: nat)
    requires Execute(w, a).Ok? && !(a.Send? || a.Spawn? || a.Receive?) && Light(w, g) && Room(w, n + 1)
    ensures StaysRoomy(w, a, g, n)
  {
    match a
    case NewRegion(p, size) => NewRegionRoom(w, p, size, g, n);
    case Local(p) => LocalRoom(w, p, g, n);
    case _ => AccessKeeps(w, a);
  }

  lemma BatchRoom(w: World, a: ChaosOp, g: nat, n: nat)
    requires Execute(w, a).Ok? && (a.Send? || a.Spawn?) && |a.grants| <= g && Light(w, g) && Room(w, n) && n + g + CHANNELS < HANDLE_LIMIT
    ensures StaysRoomy(w, a, g, n)
  {
    if a.Send? {
      SendRoom(w, a.p, a.channel, a.grants, g, n);
    } else {
      SpawnRoom(w, a.p, a.grants, g, n);
    }
  }

  lemma ExecuteRoom(w: World, op: ChaosOp, g: nat, n: nat)
    requires w.shadow.procs != [] && Execute(w, Aimed(w, op)).Ok? && Sized(op, g) && Light(w, g)
    requires Room(w, n + Demand(g)) && n + Demand(g) < HANDLE_LIMIT
    ensures StaysRoomy(w, Aimed(w, op), g, n)
  {
    var a := Aimed(w, op);
    AimedInRange(w, op, g);
    if a.Receive? {
      ReceiveRoom(w, a.p, a.channel, g, n);
    } else if a.Send? || a.Spawn? {
      BatchRoom(w, a, g, n);
    } else {
      OtherRoom(w, a, g, n);
    }
  }

  // ---- whole runs ----

  function After(w: World, op: ChaosOp): World {
    if w.shadow.procs == [] then w
    else match Execute(w, Aimed(w, op)) case Ok(w') => w' case Err(_) => w
  }

  /** The world after the first `n` operations, `f` saying what one operation does. */
  function Fold(f: (World, ChaosOp) -> World, start: World, ops: seq<ChaosOp>, n: nat): World
    requires n <= |ops|
  {
    if n == 0 then start else f(Fold(f, start, ops, n - 1), ops[n - 1])
  }

  function WorldAt(start: World, ops: seq<ChaosOp>, n: nat): World
    requires n <= |ops|
  {
    Fold(After, start, ops, n)
  }

  /** Whatever holds at the start and survives every operation holds all along. */
  lemma {:induction false} Keeps(f: (World, ChaosOp) -> World, start: World, ops: seq<ChaosOp>, n: nat, R: (nat, World) -> bool)
    requires n <= |ops| && R(0, start)
    requires forall i: nat, w: World :: i < |ops| && R(i, w) ==> R(i + 1, f(w, ops[i]))
    ensures R(n, Fold(f, start, ops, n))
  {
    if n > 0 {
      Keeps(f, start, ops, n - 1, R);
    }
  }

  /** `f` is what an operation does. */
  ghost predicate Executes(f: (World, ChaosOp) -> World) {
    forall w, op {:trigger After(w, op)} :: f(w, op) == After(w, op)
  }

  /** Handles `n` more operations can need. */
  function Needs(n: nat, g: nat): nat {
    if n == 0 then 0 else Needs(n - 1, g) + Demand(g)
  }

  /** No batch names more than `g` handles, and the run is short enough that no handle counter wraps. */
  ghost predicate Feasible(ops: seq<ChaosOp>, g: nat) {
    (forall i :: 0 <= i < |ops| ==> Sized(ops[i], g)) && Needs(|ops|, g) + 6 <= HANDLE_LIMIT
  }

  /** The state of a run that is going well. */
  ghost predicate Running(w: World, log: Log, g: nat, left: nat) {
    Matches(w, log) && w.shadow.procs != [] && Room(w, Needs(left, g)) && Light(w, g) && Needs(left, g) < HANDLE_LIMIT
  }

  lemma RunningNext(w: World, log: Log, op: ChaosOp, g: nat, left: nat) returns (log': Log)
    requires Running(w, log, g, left + 1) && Sized(op, g)
    ensures Execute(w, Aimed(w, op)).Ok? && Running(Execute(w, Aimed(w, op)).value, log', g, left)
  {
    log' := ExecuteMatches(w, log, op, g);
    ExecuteRoom(w, op, g, Needs(left, g));
    StillPopulated(Execute(w, Aimed(w, op)).value, log');
  }

  lemma StillPopulated(w: World, log: Log)
    requires Matches(w, log)
    ensures w.shadow.procs != []
  {
  }

  // ---- a corrupted model is caught ----

  /** The first region with bytes that some capability can still read. */
  function Target(sh: Shadow, n: nat): (r: Option<nat>)
    requires n <= |sh.regions|
    ensures r.Some? ==> r.value < n && Auditable(sh, r.value)
  {
    if n == 0 then None
    else
      match Target(sh, n - 1)
      case Some(r) => Some(r)
      case None => if Auditable(sh, n - 1) then Some(n - 1) else None
  }

  /** There is a target exactly if some region can be audited. */
  lemma {:induction false} TargetIsFound(sh: Shadow, n: nat)
    requires n <= |sh.regions|
    ensures Target(sh, n).Some? <==> exists i: nat :: i < n && Auditable(sh, i)
  {
    if n > 0 {
      TargetIsFound(sh, n - 1);
    }
  }

  predicate Auditable(sh: Shadow, r: nat)
    requires r < |sh.regions|
  {
    sh.regions[r].bytes != [] && Auditor(sh, r, |sh.stash|).Some?
  }

  /** Flips the first byte of the model of region `r`. */
  function Corrupted(w: World, r: nat): World
    requires r < |w.shadow.regions| && w.shadow.regions[r].bytes != []
  {
    var model := w.shadow.regions[r];
    w.(shadow := w.shadow.(regions := w.shadow.regions[r := model.(bytes := model.bytes[0 := XorByte(model.bytes[0], 0xFF)])]))
  }

  lemma FlippedByteDiffers(b: byte)
    ensures XorByte(b, 0xFF) != b
  {
    DataMeans.XorParts(b, 0xFF);
  }

  lemma {:induction false} AuditorIgnoresBytes(sh: Shadow, sh': Shadow, r: nat, n: nat)
    requires n <= |sh.stash| && sh'.stash == sh.stash && sh'.channels == sh.channels && |sh'.regions| == |sh.regions|
    requires forall i :: 0 <= i < |sh.regions| ==> sh'.regions[i] == sh.regions[i].(bytes := sh'.regions[i].bytes)
    ensures Auditor(sh', r, n) == Auditor(sh, r, n)
  {
    if n > 0 {
      AuditorIgnoresBytes(sh, sh', r, n - 1);
    }
  }

  /** The sweep catches a single flipped byte in the model of any region it can audit. */
  lemma CorruptionIsCaught(w: World, log: Log, r: nat)
    requires Matches(w, log) && r < |w.shadow.regions| && Auditable(w.shadow, r)
    ensures !Swept(Corrupted(w, r))
  {
    var w' := Corrupted(w, r);
    AuditorIgnoresBytes(w.shadow, w'.shadow, r, |w.shadow.stash|);
    RegionsSwept(w, r);
    FlippedByteDiffers(w.shadow.regions[r].bytes[0]);
    assert w'.shadow.regions[r].bytes[0] != w.shadow.regions[r].bytes[0];
    assert !RegionSwept(w', r);
  }

  // ---- the harness ----

  /** The least `i` from `at` on, below `n`, for which `P` holds. */
  function FirstFrom(P: nat -> bool, at: nat, n: nat): (r: Option<nat>)
    ensures r.Some? ==> at <= r.value < n && P(r.value) && forall i: nat :: at <= i < r.value ==> !P(i)
    ensures r.None? ==> forall i: nat :: at <= i < n ==> !P(i)
  {
    if n == 0 then None
    else
      match FirstFrom(P, at, n - 1)
      case Some(i) => Some(i)
      case None => if at <= n - 1 && P(n - 1) then Some(n - 1) else None
  }

  /** Once found, the first stays the first. */
  lemma {:induction false} FirstFound(P: nat -> bool, at: nat, step: nat, n: nat)
    requires step < n && at <= step && P(step) && FirstFrom(P, at, step).None?
    ensures FirstFrom(P, at, n) == Some(step)
    decreases n
  {
    if step + 1 < n {
      FirstFound(P, at, step, n - 1);
    }
  }

  predicate HasTarget(sh: Shadow) {
    Target(sh, |sh.regions|).Some?
  }

  /** The worlds of a run, by number of operations. */
  function Worlds(f: (World, ChaosOp) -> World, start: World, ops: seq<ChaosOp>): nat -> World {
    (n: nat) => if n <= |ops| then Fold(f, start, ops, n) else start
  }

  /** After which steps some region can be audited. */
  function Catchable(worlds: nat -> World, n: nat): nat -> bool {
    (i: nat) => i < n && HasTarget(worlds(i + 1).shadow)
  }

  /** The run is going well, with some history of events behind it. */
  ghost predicate RunsWell(w: World, g: nat, left: nat) {
    exists log :: Running(w, log, g, left)
  }

  lemma StaysWell(w: World, op: ChaosOp, g: nat, left: nat, next: World)
    requires RunsWell(w, g, left + 1) && Sized(op, g) && next == After(w, op)
    ensures RunsWell(next, g, left)
  {
    var log :| Running(w, log, g, left + 1);
    var log' := RunningNext(w, log, op, g, left);
  }

  lemma StaysWellBy(f: (World, ChaosOp) -> World, w: World, op: ChaosOp, g: nat, left: nat)
    requires Executes(f) && RunsWell(w, g, left + 1) && Sized(op, g)
    ensures RunsWell(f(w, op), g, left)
  {
    StaysWell(w, op, g, left, After(w, op));
  }

  lemma RunningAt(f: (World, ChaosOp) -> World, start: World, ops: seq<ChaosOp>, g: nat, n: nat)
    requires Executes(f) && Feasible(ops, g) && RunsWell(start, g, |ops|) && n <= |ops|
    ensures RunsWell(Fold(f, start, ops, n), g, |ops| - n)
  {
    var R := (i: nat, w: World) => i <= |ops| && RunsWell(w, g, |ops| - i);
    forall i: nat, w: World | i < |ops| && R(i, w) ensures R(i + 1, f(w, ops[i])) {
      StaysWellBy(f, w, ops[i], g, |ops| - i - 1);
    }
    Keeps(f, start, ops, n, R);
  }

  lemma StepOk(w: World, op: ChaosOp, g: nat, left: nat)
    requires RunsWell(w, g, left + 1) && Sized(op, g)
    ensures Advances(w, op, After(w, op))
  {
    var log :| Running(w, log, g, left + 1);
    var _ := ExecuteMatches(w, log, op, g);
  }

  lemma StepOkBy(f: (World, ChaosOp) -> World, w: World, op: ChaosOp, g: nat, left: nat)
    requires Executes(f) && RunsWell(w, g, left + 1) && Sized(op, g)
    ensures Advances(w, op, f(w, op))
  {
    StepOk(w, op, g, left);
  }

  /** In a matching world the sweep is clean, and would catch any corruption. */
  lemma AuditsWork(w: World, log: Log)
    requires Matches(w, log)
    ensures Swept(w) && forall r: nat :: r < |w.shadow.regions| && Auditable(w.shadow, r) ==> !Swept(Corrupted(w, r))
  {
    MatchingIsSwept(w, log);
    forall r: nat | r < |w.shadow.regions| && Auditable(w.shadow, r) ensures !Swept(Corrupted(w, r)) {
      CorruptionIsCaught(w, log, r);
    }
  }

  /** What the causality check relies on. */
  ghost predicate Checkable(ev: Events) {
    && |ev.stamps| == |ev.preds| && Checker.Backward(ev.preds)
    && forall i: nat, j: nat :: i < |ev.stamps| && j < |ev.stamps| && i != j ==> Checker.Agrees(ev.stamps, ev.preds, i, j)
  }

  lemma ChecksOut(w: World, log: Log)
    requires Matches(w, log)
    ensures Checkable(w.events)
  {
    CheckPasses(w.events, w.sys.sched.procs, w.sys.sched.nextPid, log);
  }

  lemma WellSweepable(w: World, g: nat, left: nat)
    requires RunsWell(w, g, left)
    ensures Sweepable(w) && Checkable(w.events)
  {
    var log :| Running(w, log, g, left);
    AuditsWork(w, log);
    ChecksOut(w, log);
  }

  /** One operation of a run. */
  method Advance(w: World, op: ChaosOp, ghost next: World) returns (r: Result<World, Violation>)
    requires w.shadow.procs != [] && Execute(w, Aimed(w, op)) == Ok(next)
    ensures r == Ok(next)
  {
    r := Execute(w, Aimed(w, op));
  }

  /** The sweep after a step, with the model corrupted first if a fault is due and some region can be audited. */
  method Audit(w: World, due: bool) returns (clean: bool)
    requires Sweepable(w)
    ensures clean == !(due && HasTarget(w.shadow))
  {
    if due {
      var target := Target(w.shadow, |w.shadow.regions|);
      if target.Some? {
        clean := Swept(Corrupted(w, target.value));
        return;
      }
    }
    clean := Swept(w);
  }

  /** What the audit of a world relies on. */
  predicate Sweepable(w: World) {
    Swept(w) && forall r: nat | r < |w.shadow.regions| :: Auditable(w.shadow, r) ==> !Swept(Corrupted(w, r))
  }

  /** The check at the end of a run. */
  method FinalCheck(ev: Events) returns (ok: bool)
    requires Checkable(ev)
    ensures ok
  {
    ok := Checker.CheckCausality(ev.stamps, ev.preds);
  }

  /** What holds of the world after `n` operations of a run, and of the step from it. */
  ghost predicate AlongAt(ops: seq<ChaosOp>, worlds: nat -> World, n: nat) {
    && (n <= |ops| ==> Sweepable(worlds(n)) && Checkable(worlds(n).events))
    && (n < |ops| ==> Advances(worlds(n), ops[n], worlds(n + 1)))
  }

  /** `worlds` are the worlds of a run. */
  ghost predicate Along(ops: seq<ChaosOp>, worlds: nat -> World) {
    forall n: nat :: AlongAt(ops, worlds, n)
  }

  ghost predicate Advances(w: World, op: ChaosOp, next: World) {
    w.shadow.procs != [] && Execute(w, Aimed(w, op)) == Ok(next)
  }

  /** `catchable` says after which steps some region can be audited. */
  ghost predicate Marks(catchable: nat -> bool, worlds: nat -> World, n: nat) {
    forall i: nat {:trigger catchable(i)} :: catchable(i) == (i < n && HasTarget(worlds(i + 1).shadow))
  }

  lemma {:induction false} SweepsAt(f: (World, ChaosOp) -> World, start: World, ops: seq<ChaosOp>, g: nat, n: nat, w: World)
    requires Executes(f) && Feasible(ops, g) && RunsWell(start, g, |ops|) && n <= |ops| && w == Fold(f, start, ops, n)
    ensures Sweepable(w) && Checkable(w.events)
  {
    RunningAt(f, start, ops, g, n);
    WellSweepable(w, g, |ops| - n);
  }

  lemma AdvancesAt(f: (World, ChaosOp) -> World, start: World, ops: seq<ChaosOp>, g: nat, n: nat, w: World)
    requires Executes(f) && Feasible(ops, g) && RunsWell(start, g, |ops|) && n < |ops| && w == Fold(f, start, ops, n)
    ensures Advances(w, ops[n], f(w, ops[n]))
  {
    RunningAt(f, start, ops, g, n);
    StepOkBy(f, w, ops[n], g, |ops| - n - 1);
  }

  /** Every world of a run sweeps clean, would show any corruption, and passes the causality check; and
      kernel and model never disagree on a step. */
  lemma WorldsAreAlong(f: (World, ChaosOp) -> World, start: World, ops: seq<ChaosOp>, g: nat)
    requires Executes(f) && Feasible(ops, g) && RunsWell(start, g, |ops|)
    ensures Along(ops, Worlds(f, start, ops))
  {
    forall n: nat ensures AlongAt(ops, Worlds(f, start, ops), n) {
      IsAlongAt(f, start, ops, g, n);
    }
  }

  lemma IsAlongAt(f: (World, ChaosOp) -> World, start: World, ops: seq<ChaosOp>, g: nat, n: nat)
    requires Executes(f) && Feasible(ops, g) && RunsWell(start, g, |ops|)
    ensures AlongAt(ops, Worlds(f, start, ops), n)
  {
    if n <= |ops| {
      SweepsAt(f, start, ops, g, n, Fold(f, start, ops, n));
    }
    if n < |ops| {
      AdvancesAt(f, start, ops, g, n, Fold(f, start, ops, n));
    }
  }

  method AdvanceAlong(ops: seq<ChaosOp>, step: nat, w: World, ghost worlds: nat -> World) returns (r: Result<World, Violation>)
    requires Along(ops, worlds) && step < |ops| && w == worlds(step)
    ensures r == Ok(worlds(step + 1))
  {
    assert AlongAt(ops, worlds, step);
    r := Advance(w, ops[step], worlds(step + 1));
  }

  method AuditAlong(ghost ops: seq<ChaosOp>, ghost n: nat, w: World, due: bool, ghost worlds: nat -> World) returns (clean: bool)
    requires Along(ops, worlds) && n <= |ops| && w == worlds(n)
    ensures clean == !(due && HasTarget(w.shadow))
  {
    assert AlongAt(ops, worlds, n);
    clean := Audit(w, due);
  }

  /** One step of a run, with its sweep: `None` if it fails. */
  method StepAndSweep(ops: seq<ChaosOp>, step: nat, w: World, due: bool, ghost worlds: nat -> World) returns (r: Option<World>)
    requires Along(ops, worlds) && step < |ops| && w == worlds(step)
    ensures r == if due && HasTarget(worlds(step + 1).shadow) then None else Some(worlds(step + 1))
  {
    var executed := AdvanceAlong(ops, step, w, worlds);
    match executed {
      case Err(_) => return None;
      case Ok(next) =>
        var clean := AuditAlong(ops, step + 1, next, due, worlds);
        r := if clean then Some(next) else None;
    }
  }

  /** How a run must end: `fault` is the step from which the model is due to be corrupted. */
  function Verdict(fault: Option<nat>, catchable: nat -> bool, n: nat, last: World): Result<World, nat> {
    match fault
    case None => Ok(last)
    case Some(at) =>
      match FirstFrom(catchable, at, n)
      case Some(step) => Err(step)
      case None => Ok(last)
  }

  lemma FailsAt(fault: Option<nat>, catchable: nat -> bool, step: nat, n: nat, last: World)
    requires fault.Some? && fault.value <= step < n && catchable(step) && FirstFrom(catchable, fault.value, step).None?
    ensures Verdict(fault, catchable, n, last) == Err(step)
  {
    FirstFound(catchable, fault.value, step, n);
  }

  lemma NotYet(catchable: nat -> bool, at: nat, step: nat)
    requires FirstFrom(catchable, at, step).None? && !(at <= step && catchable(step))
    ensures FirstFrom(catchable, at, step + 1).None?
  {
  }

  /** Runs every operation with a sweep after each; fails with the number of the step that failed. */
  method StepAll(ops: seq<ChaosOp>, fault: Option<nat>, start: World, ghost worlds: nat -> World, ghost catchable: nat -> bool)
      returns (r: Result<World, nat>)
    requires Along(ops, worlds) && start == worlds(0) && Marks(catchable, worlds, |ops|)
    ensures r == Verdict(fault, catchable, |ops|, worlds(|ops|))
  {
    var w := start;
    for step := 0 to |ops|
      invariant w == worlds(step)
      invariant fault.Some? ==> FirstFrom(catchable, fault.value, step).None?
    {
      var swept := StepAndSweep(ops, step, w, fault.Some? && step >= fault.value, worlds);
      match swept {
        case None =>
          FailsAt(fault, catchable, step, |ops|, worlds(|ops|));
          return Err(step);
        case Some(next) =>
          w := next;
          if fault.Some? {
            NotYet(catchable, fault.value, step);
          }
      }
    }
    r := Ok(w);
  }

  /** All the steps, and the causality check at the end of those that all pass. */
  method RunAlong(ops: seq<ChaosOp>, fault: Option<nat>, start: World, ghost worlds: nat -> World, ghost catchable: nat -> bool)
      returns (r: Result<World, nat>)
    requires Along(ops, worlds) && start == worlds(0) && Marks(catchable, worlds, |ops|)
    ensures r == Verdict(fault, catchable, |ops|, worlds(|ops|))
  {
    r := StepAll(ops, fault, start, worlds, catchable);
    match r {
      case Err(_) =>
      case Ok(w) =>
        var steps: nat := |ops|;
        assert AlongAt(ops, worlds, steps);
        var passed := FinalCheck(w.events);
        if !passed {
          r := Err(steps);
        }
    }
  }

  lemma StartsWell(ops: seq<ChaosOp>, g: nat)
    requires Feasible(ops, g)
    ensures RunsWell(NewWorld(), g, |ops|)
  {
    NewWorldMatches();
    assert Running(NewWorld(), [], g, |ops|);
  }

  lemma CatchableMarks(worlds: nat -> World, n: nat)
    ensures Marks(Catchable(worlds, n), worlds, n)
  {
  }

  method RunFrom(start: World, ops: seq<ChaosOp>, fault: Option<nat>, ghost f: (World, ChaosOp) -> World, ghost g: nat)
      returns (r: Result<World, nat>)
    requires Executes(f) && Feasible(ops, g) && RunsWell(start, g, |ops|)
    ensures r == Verdict(fault, Catchable(Worlds(f, start, ops), |ops|), |ops|, Fold(f, start, ops, |ops|))
  {
    WorldsAreAlong(f, start, ops, g);
    ghost var worlds := Worlds(f, start, ops);
    CatchableMarks(worlds, |ops|);
    r := RunAlong(ops, fault, start, worlds, Catchable(worlds, |ops|));
  }

  /** Without a fault every run passes. With the model corrupted at the first auditable moment from step
      `fault` on, it fails at exactly that step, and passes if there is none. */
  method RunSteps(ops: seq<ChaosOp>, fault: Option<nat>, ghost g: nat) returns (r: Result<World, nat>)
    requires Feasible(ops, g)
    ensures r == Verdict(fault, Catchable(Worlds(After, NewWorld(), ops), |ops|), |ops|, WorldAt(NewWorld(), ops, |ops|))
  {
    StartsWell(ops, g);
    r := RunFrom(NewWorld(), ops, fault, After, g);
  }
}
