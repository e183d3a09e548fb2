/** Runs of the harness are runs of the kernel from boot, and its audit misses no region anyone can read. */
module ChaosHistory {
  import opened Wrappers
  import opened Rights
  import opened Capabilities
  import opened Clocks
  import opened Processes
  import opened Causality
  import opened Machine
  import opened MachineAuthority
  import opened Runs
  import opened Chaos
  import opened ChaosMatch
  import opened ChaosWorld
  import opened ChaosTransfer
  import opened ChaosAudit
  import opened ChaosSteps
  import opened ChaosRun
  import Authority
  import Channels
  import Scheduling
  import T = Transfers

  // ---- the stash grows by what is held ----

  predicate Holds(s: Sys, p: ProcessId, h: Handle, cap: Capability) {
    p in s.sched.procs && h in s.sched.procs[p].table && s.sched.procs[p].table[h] == cap
  }

  ghost predicate HeldSomewhere(s: Sys, cap: Capability) {
    exists p, h :: Holds(s, p, h, cap)
  }

  /** Nothing has left the stash, and what was added is held by some process. */
  ghost predicate StashGrew(stash: Stash, w: World) {
    && stash <= w.shadow.stash
    && forall i :: |stash| <= i < |w.shadow.stash| ==> HeldSomewhere(w.sys, w.shadow.stash[i].0)
  }

  lemma NewRegionGrows(w: World, p: nat, size: nat)
    requires Exists(w, p)
    ensures StashGrew(w.shadow.stash, ExecuteNewRegion(w, p, size).value)
  {
    var w' := ExecuteNewRegion(w, p, size).value;
    var n := |w.shadow.stash|;
    assert |w'.shadow.stash| == n + 1;
    assert Holds(w'.sys, w.shadow.procs[p].pid, ProcOf(w, p).nextHandle, w'.shadow.stash[n].0);
  }

  /** What was delivered is held under the handles it was delivered at. */
  lemma StashedGrows(stash: Stash, w: World, pid: ProcessId, hs: seq<Handle>, ms: seq<CapModel>)
    requires pid in w.sys.sched.procs && |hs| == |ms| && forall h :: h in hs ==> h in w.sys.sched.procs[pid].table
    requires w.shadow.stash == stash + Stashed(w.sys.sched.procs[pid].table, hs, ms)
    ensures StashGrew(stash, w)
  {
    forall i | |stash| <= i < |w.shadow.stash| ensures HeldSomewhere(w.sys, w.shadow.stash[i].0) {
      assert Holds(w.sys, pid, hs[i - |stash|], w.shadow.stash[i].0);
    }
  }

  lemma ReceiveGrows(w: World, p: nat, channel: nat)
    requires Exists(w, p) && ExecuteReceive(w, p, channel).Ok?
    ensures StashGrew(w.shadow.stash, ExecuteReceive(w, p, channel).value)
  {
    var w' := ExecuteReceive(w, p, channel).value;
    var r := Channels.ReceiveOutcome(w.sys.kernel, w.sys.queues, ChannelCap(w, p, channel).value, ProcOf(w, p));
    if r.value.Some? {
      StashedGrows(w.shadow.stash, w', w.shadow.procs[p].pid, r.value.value.delivery.handles, w.shadow.inFlight[channel][0].caps);
    }
  }

  lemma BornGrows(w: World, p: nat, k: KernelState, sched: Scheduling.SchedState, sh: Shadow, models: seq<CapModel>)
    requires Exists(w, p) && Born(w, p, k, sched, sh, models).Ok?
    ensures StashGrew(sh.stash, Born(w, p, k, sched, sh, models).value)
  {
    var w', child := Born(w, p, k, sched, sh, models).value, w.sys.sched.nextPid;
    StashedGrows(sh.stash, w', child, Ascending(sched.procs[child].table.Keys), models);
  }

  lemma SpawnGrows(w: World, p: nat, picks: seq<(nat, GrantKind)>)
    requires Exists(w, p) && ExecuteSpawn(w, p, picks).Ok?
    ensures StashGrew(w.shadow.stash, ExecuteSpawn(w, p, picks).value)
  {
    if |w.shadow.procs| != MAX_PROCESSES {
      var mt := w.shadow.procs[p].table;
      var gs := ConcreteGrants(mt, picks);
      var r := ApplyGrantsModel(w.shadow, p, gs);
      if r.Some? {
        var spawned := w.sys.sched.SpawnChild(w.sys.kernel, w.shadow.procs[p].pid, ChannelGrants(mt) + ToGrants(gs)).value;
        BornGrows(w, p, spawned.0, spawned.1, r.value.0, ChannelModels() + r.value.1);
      }
    }
  }

  lemma AccessGrows(w: World, op: ChaosOp)
    requires IsAccess(op) && ExecuteAccess(w, op).Ok?
    ensures StashGrew(w.shadow.stash, ExecuteAccess(w, op).value)
  {
  }

  lemma SendGrows(w: World, p: nat, channel: nat, picks: seq<(nat, GrantKind)>)
    requires ExecuteSend(w, p, channel, picks).Ok?
    ensures StashGrew(w.shadow.stash, ExecuteSend(w, p, channel, picks).value)
  {
  }

  /** Nothing ever seen is forgotten, and only what a process holds is added to it. */
  lemma StashGrows(w: World, op: ChaosOp)
    requires Exists(w, op.p) && Execute(w, op).Ok?
    ensures StashGrew(w.shadow.stash, Execute(w, op).value)
  {
    match op
    case NewRegion(p, size) => NewRegionGrows(w, p, size);
    case Spawn(p, picks) => SpawnGrows(w, p, picks);
    case Send(p, channel, picks) => SendGrows(w, p, channel, picks);
    case Receive(p, channel) => ReceiveGrows(w, p, channel);
    case Local(_) =>
    case _ => AccessGrows(w, op);
  }

  // ---- the harness only makes honest calls ----

  ghost predicate Minted(stash: Stash, minted: set<Capability>) {
    forall i :: 0 <= i < |stash| ==> stash[i].0 in minted
  }

  /** The world's kernel has this history, in which everything the harness has ever seen was minted. */
  ghost predicate Genuine(w: World, h: History) {
    w.sys == h.sys && Consistent(h) && Minted(w.shadow.stash, h.ledger.minted)
  }

  lemma {:induction false} RunOne(h: History, call: Op)
    ensures Run(h, [call]) == Next(h, call)
  {
    assert [call][1..] == [];
  }

  lemma {:induction false} RunTwo(h: History, first: Op, second: Op)
    ensures Run(h, [first, second]) == Next(Next(h, first), second)
  {
    assert [first, second][1..] == [second];
    RunOne(Next(h, first), second);
  }

  lemma {:induction false} RunThen(h: History, first: seq<Op>, more: seq<Op>)
    ensures Run(h, first + more) == Run(Run(h, first), more)
    decreases |first|
  {
    if first == [] {
      assert first + more == more;
    } else {
      assert (first + more)[1..] == first[1..] + more;
      RunThen(Next(h, first[0]), first[1..], more);
    }
  }

  /** The new object's first capability is minted, so giving it away is honest. */
  lemma CreatedIsMinted(h: History, call: Op)
    requires Consistent(h) && (call.MakeRegion? || call == MakeChannel)
    ensures Possible(h, call) && Capability(h.sys.kernel.nextId, OWNER, 0) in Next(h, call).ledger.minted
  {
    Authority.PerformOne(h.ledger, Authority.Create(OWNER));
  }

  /** Making an object and giving its first capability away are two honest calls. */
  lemma MakeAndGive(h: History, make: Op, p: ProcessId) returns (calls: seq<Op>)
    requires Consistent(h) && (make.MakeRegion? || make == MakeChannel)
    ensures calls == [make, Give(p, Capability(h.sys.kernel.nextId, OWNER, 0))]
    ensures Run(h, calls).sys == Step(Step(h.sys, make), calls[1])
  {
    calls := [make, Give(p, Capability(h.sys.kernel.nextId, OWNER, 0))];
    CreatedIsMinted(h, make);
    RunTwo(h, make, calls[1]);
  }

  lemma HonestRuns(h: History, call: Op)
    requires Possible(h, call)
    ensures Run(h, [call]).sys == Performed(h.sys, [call])
  {
    RunOne(h, call);
    PerformedOne(h.sys, call);
  }

  lemma HeldIsMinted(s: Sys, minted: set<Capability>, cap: Capability)
    requires TablesHold(s.sched.procs, minted) && HeldSomewhere(s, cap)
    ensures cap in minted
  {
    var p, h :| Holds(s, p, h, cap);
    assert TableHolds(s.sched.procs[p].table, minted);
  }

  lemma ChannelCapMinted(w: World, h: History, p: nat, channel: nat)
    requires Genuine(w, h) && Exists(w, p) && ChannelCap(w, p, channel).Some?
    ensures ChannelCap(w, p, channel).value in h.ledger.minted
  {
    var k := ChannelCapMeans(w, p, channel);
    assert Holds(w.sys, w.shadow.procs[p].pid, k, ChannelCap(w, p, channel).value);
    HeldIsMinted(w.sys, h.ledger.minted, ChannelCap(w, p, channel).value);
  }

  lemma PickMinted(w: World, h: History, p: nat, pick: Pick, wantRegion: bool)
    requires Genuine(w, h) && Exists(w, p) && PickCap(w, p, pick, wantRegion).Ok? && PickCap(w, p, pick, wantRegion).value.Some?
    ensures PickCap(w, p, pick, wantRegion).value.value.0 in h.ledger.minted
  {
    match pick
    case FromTable(n) =>
      var mt := w.shadow.procs[p].table;
      var hs := Ascending(if wantRegion then RegionHandles(mt) else mt.Keys);
      var cap := PickCap(w, p, pick, wantRegion).value.value.0;
      assert Holds(w.sys, w.shadow.procs[p].pid, hs[n % |hs|], cap);
      HeldIsMinted(w.sys, h.ledger.minted, cap);
    case FromStash(n) => var i := StashPickMeans(w, p, n, wantRegion);
  }

  lemma AtMostOneCall(w: World, op: ChaosOp)
    requires Exists(w, op.p) && !op.NewRegion?
    ensures |CallsOf(w, op)| <= 1
  {
  }

  lemma AccessIsHonest(h: History, op: ChaosOp, cap: Capability)
    requires IsAccess(op) && cap in h.ledger.minted
    ensures forall i :: 0 <= i < |AccessCalls(op, cap)| ==> Possible(h, AccessCalls(op, cap)[i])
  {
  }

  /** Everything the harness calls the kernel with was minted. */
  lemma CallIsHonest(w: World, h: History, op: ChaosOp)
    requires Genuine(w, h) && Exists(w, op.p) && !op.NewRegion? && CallsOf(w, op) != []
    ensures Possible(h, CallsOf(w, op)[0])
  {
    if IsAccess(op) {
      var cap := PickCap(w, op.p, op.pick, RegionsOnly(op)).value.value.0;
      PickMinted(w, h, op.p, op.pick, RegionsOnly(op));
      AccessIsHonest(h, op, cap);
      assert CallsOf(w, op) == AccessCalls(op, cap);
    } else if op.Send? || op.Receive? {
      ChannelCapMinted(w, h, op.p, op.channel);
    }
  }

  lemma CallsRun(w: World, h: History, op: ChaosOp)
    requires Genuine(w, h) && Exists(w, op.p)
    ensures Run(h, CallsOf(w, op)).sys == Performed(w.sys, CallsOf(w, op))
  {
    var calls := CallsOf(w, op);
    if op.NewRegion? {
      var _ := MakeAndGive(h, calls[0], w.shadow.procs[op.p].pid);
      PerformedTwo(h.sys, calls[0], calls[1]);
    } else if calls != [] {
      AtMostOneCall(w, op);
      CallIsHonest(w, h, op);
      assert calls == [calls[0]];
      HonestRuns(h, calls[0]);
    }
  }

  lemma StashStaysMinted(stash: Stash, w: World, minted: set<Capability>, now: set<Capability>)
    requires Minted(stash, minted) && minted <= now && TablesHold(w.sys.sched.procs, now) && StashGrew(stash, w)
    ensures Minted(w.shadow.stash, now)
  {
    forall i | 0 <= i < |w.shadow.stash| ensures w.shadow.stash[i].0 in now {
      if i >= |stash| {
        HeldIsMinted(w.sys, now, w.shadow.stash[i].0);
      }
    }
  }

  /** After an operation the world's kernel has its old history and the calls of the operation. */
  lemma StaysGenuine(w: World, h: History, op: ChaosOp)
    requires Genuine(w, h) && Exists(w, op.p) && Execute(w, op).Ok?
    ensures Genuine(Execute(w, op).value, Run(h, CallsOf(w, op)))
  {
    ExecuteIsCalls(w, op);
    CallsRun(w, h, op);
    StashGrows(w, op);
    RunsAreConsistent(h, CallsOf(w, op));
    StashStaysMinted(w.shadow.stash, Execute(w, op).value, h.ledger.minted, Run(h, CallsOf(w, op)).ledger.minted);
  }

  // ---- setting up is honest too ----

  /** The harness's only process so far is the root, its kernel has a history from boot, and everything held
      has been seen. */
  ghost predicate SettingUp(w: World) {
    Exists(w, 0) && Numbered(w) && AllSeen(w) && HasHistory(w)
  }

  ghost predicate HasHistory(w: World) {
    exists calls :: Genuine(w, Run(GENESIS, calls))
  }

  lemma RootSetUp()
    ensures SettingUp(RootWorld())
  {
    var w, call := RootWorld(), SpawnRoot([]);
    GenesisConsistent();
    NextConsistent(GENESIS, call);
    RunOne(GENESIS, call);
    assert Genuine(w, Run(GENESIS, [call]));
  }

  lemma Continues(w: World, calls: seq<Op>, h: History, more: seq<Op>, w': World)
    requires h == Run(GENESIS, calls) && Genuine(w', Run(h, more))
    ensures HasHistory(w')
  {
    RunThen(GENESIS, calls, more);
  }

  lemma AddChannelGrows(w: World)
    requires Exists(w, 0) && w.shadow.procs[0].pid == 0
    ensures StashGrew(w.shadow.stash, AddChannel(w))
  {
    var w', n := AddChannel(w), |w.shadow.stash|;
    assert |w'.shadow.stash| == n + 1;
    assert Holds(w'.sys, 0, ProcOf(w, 0).nextHandle, w'.shadow.stash[n].0);
  }

  lemma AddChannelIsCalls(w: World)
    requires Exists(w, 0) && w.shadow.procs[0].pid == 0
    ensures AddChannel(w).sys == Step(Step(w.sys, MakeChannel), Give(0, Capability(w.sys.kernel.nextId, OWNER, 0)))
  {
  }

  lemma AddChannelGenuine(w: World, h: History) returns (calls: seq<Op>)
    requires Genuine(w, h) && Exists(w, 0) && w.shadow.procs[0].pid == 0
    ensures Genuine(AddChannel(w), Run(h, calls))
  {
    calls := MakeAndGive(h, MakeChannel, 0);
    RunsAreConsistent(h, calls);
    AddChannelGrows(w);
    AddChannelIsCalls(w);
    StashStaysMinted(w.shadow.stash, AddChannel(w), h.ledger.minted, Run(h, calls).ledger.minted);
  }

  lemma AddChannelSeen(w: World)
    requires Exists(w, 0) && Numbered(w) && AllSeen(w)
    ensures Exists(AddChannel(w), 0) && Numbered(AddChannel(w)) && AllSeen(AddChannel(w))
  {
    var (k, queues, cap) := Channels.NewChannel(w.sys.kernel, w.sys.queues);
    var c := |w.shadow.channels|;
    var w' := w.(sys := w.sys.(kernel := k, queues := queues), shadow := w.shadow.(channels := w.shadow.channels + [cap.obj]));
    forall q | 0 <= q < |w'.shadow.procs|
      ensures Exists(w', q) && w'.shadow.procs[q].pid == q
      ensures EntriesSeen(ProcOf(w', q).table, w'.shadow.procs[q].table, w'.shadow.stash)
    {
      assert Exists(w, q) && EntriesSeen(ProcOf(w, q).table, w.shadow.procs[q].table, w.shadow.stash);
    }
    InstallSeen(w', 0, cap, CapModel(Channel(c), cap.rights, 0));
  }

  lemma AddChannelSetUp(w: World)
    requires SettingUp(w)
    ensures SettingUp(AddChannel(w))
  {
    var calls :| Genuine(w, Run(GENESIS, calls));
    var more := AddChannelGenuine(w, Run(GENESIS, calls));
    Continues(w, calls, Run(GENESIS, calls), more, AddChannel(w));
    AddChannelSeen(w);
  }

  lemma AddRegionSetUp(w: World, size: nat)
    requires SettingUp(w)
    ensures SettingUp(AddRegion(w, size))
  {
    var op := NewRegion(0, size);
    var calls :| Genuine(w, Run(GENESIS, calls));
    StaysGenuine(w, Run(GENESIS, calls), op);
    Continues(w, calls, Run(GENESIS, calls), CallsOf(w, op), AddRegion(w, size));
    NewRegionSeen(w, 0, size);
    RegionKeepsNumbers(w, size);
  }

  lemma RegionKeepsNumbers(w: World, size: nat)
    requires Exists(w, 0) && Numbered(w)
    ensures Exists(AddRegion(w, size), 0) && Numbered(AddRegion(w, size))
  {
    var w' := AddRegion(w, size);
    forall q | 0 <= q < |w'.shadow.procs| ensures w'.shadow.procs[q].pid == q && Exists(w', q) {
      assert Exists(w, q) && w.shadow.procs[q].pid == q;
    }
  }

  /** Whatever holds of a world and survives `f` survives any number of repetitions. */
  lemma {:induction false} RepeatKeeps(f: World -> World, w: World, n: nat)
    requires Adds(f) && SettingUp(w)
    ensures SettingUp(Repeat(f, w, n))
  {
    if n > 0 {
      RepeatKeeps(f, w, n - 1);
      var before := Repeat(f, w, n - 1);
      AddChannelSetUp(before);
      assert f(before) == AddChannel(before);
    }
  }

  lemma NewWorldSetUp()
    ensures HasHistory(NewWorld()) && AllSeen(NewWorld())
  {
    RootSetUp();
    RepeatKeeps(AddChannel, RootWorld(), CHANNELS);
    AddRegionSetUp(WithChannels(CHANNELS), 8);
    AddRegionSetUp(AddRegion(WithChannels(CHANNELS), 8), 8);
  }

  // ---- whole runs of the harness ----

  /** The world after some operations of a run: matching, with a history, everything held seen. */
  ghost predicate OnRecord(w: World, g: nat, left: nat) {
    RunsWell(w, g, left) && HasHistory(w) && AllSeen(w)
  }

  lemma NextOnRecord(w: World, op: ChaosOp, g: nat, left: nat)
    requires OnRecord(w, g, left + 1) && Sized(op, g)
    ensures OnRecord(ChaosRun.After(w, op), g, left)
  {
    var log :| Running(w, log, g, left + 1);
    var log' := RunningNext(w, log, op, g, left);
    var a, w' := Aimed(w, op), ChaosRun.After(w, op);
    AimedInRange(w, op, g);
    MatchingIsNumbered(w, log);
    StaysSeen(w, log, a, g, w', log');
    var calls :| Genuine(w, Run(GENESIS, calls));
    StaysGenuine(w, Run(GENESIS, calls), a);
    Continues(w, calls, Run(GENESIS, calls), CallsOf(w, a), w');
  }

  lemma NextOnRecordBy(f: (World, ChaosOp) -> World, w: World, op: ChaosOp, g: nat, left: nat)
    requires Executes(f) && OnRecord(w, g, left + 1) && Sized(op, g)
    ensures OnRecord(f(w, op), g, left)
  {
    NextOnRecord(w, op, g, left);
    assert f(w, op) == ChaosRun.After(w, op);
  }

  lemma AllOnRecord(f: (World, ChaosOp) -> World, start: World, ops: seq<ChaosOp>, g: nat, n: nat)
    requires Executes(f) && Feasible(ops, g) && OnRecord(start, g, |ops|) && n <= |ops|
    ensures OnRecord(Fold(f, start, ops, n), g, |ops| - n)
  {
    var R := (i: nat, w: World) => i <= |ops| && OnRecord(w, g, |ops| - i);
    forall i: nat, w: World | i < |ops| && R(i, w) ensures R(i + 1, f(w, ops[i])) {
      NextOnRecordBy(f, w, ops[i], g, |ops| - i - 1);
    }
    Keeps(f, start, ops, n, R);
  }

  /** Whatever the harness does, its kernel is one the step system reaches from boot by honest calls, so
      every theorem about runs holds of it; and the audit after each step looks at every region that any
      process can read. */
  lemma HarnessRunsAreRuns(ops: seq<ChaosOp>, g: nat, n: nat) returns (calls: seq<Op>)
    requires Feasible(ops, g) && n <= |ops|
    ensures WorldAt(NewWorld(), ops, n).sys == Run(GENESIS, calls).sys && Consistent(Run(GENESIS, calls))
    ensures AllSeen(WorldAt(NewWorld(), ops, n))
  {
    StartsWell(ops, g);
    NewWorldSetUp();
    AllOnRecord(ChaosRun.After, NewWorld(), ops, g, n);
    calls :| Genuine(WorldAt(NewWorld(), ops, n), Run(GENESIS, calls));
  }

  /** In every world of a run, a region some process can read is audited. */
  lemma ReadableIsAlwaysAudited(ops: seq<ChaosOp>, g: nat, n: nat, p: nat, h: Handle, r: nat)
    requires Feasible(ops, g) && n <= |ops|
    requires var s := WorldAt(NewWorld(), ops, n).sys;
             p in s.sched.procs && h in s.sched.procs[p].table && s.sched.procs[p].table[h].obj == CHANNELS + r &&
             s.kernel.Permits(s.sched.procs[p].table[h], {READ})
    ensures var sh := WorldAt(NewWorld(), ops, n).shadow; r < |sh.regions| && Auditor(sh, r, |sh.stash|).Some?
  {
    StartsWell(ops, g);
    NewWorldSetUp();
    AllOnRecord(ChaosRun.After, NewWorld(), ops, g, n);
    var w := WorldAt(NewWorld(), ops, n);
    var log :| Running(w, log, g, |ops| - n);
    ReadableIsAudited(w, log, p, h, r);
  }
}
