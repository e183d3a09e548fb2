/** Booting the ring: what the supervisor creates, and what each stage is spawned with. */
module Boot {
  import opened Wrappers
  import opened Rights
  import opened Capabilities
  import opened Clocks
  import opened Processes
  import opened Transfers
  import opened Channels
  import opened Scheduling
  import opened Ring
  import opened RingState
  import opened StageTurns
  import Regions
  import RT = RingTurns

  /** Everything the supervisor creates: a channel per hop, the return channel, the regions. */
  function Objects(c: Config): nat {
    c.stages + 2 + c.pool
  }

  function Below(n: nat): (s: set<nat>)
    ensures forall o: nat :: o in s <==> o < n
  {
    if n == 0 then {} else Below(n - 1) + {n - 1}
  }

  /** `n` objects, nothing revoked. */
  function BootKernel(n: nat): KernelState {
    KernelState(n, map o | o in Below(n) :: 0)
  }

  function BootQueues(n: nat): Queues {
    map o | o in Below(n) :: []
  }

  function BootStore(c: Config, n: nat): Regions.Store {
    if n == 0 then map[] else BootStore(c, n - 1)[RegionId(c, n - 1) := Regions.Zeros(c.regionSize)]
  }

  lemma {:induction false} BootStoreIs(c: Config, n: nat)
    ensures forall o: nat :: o in BootStore(c, n) <==> c.stages + 2 <= o < c.stages + 2 + n
    ensures forall o: nat :: o in BootStore(c, n) ==> BootStore(c, n)[o] == Regions.Zeros(c.regionSize)
  {
    if n > 0 {
      BootStoreIs(c, n - 1);
    }
  }

  /** The first capability of object `o`. */
  function FirstCap(o: ObjectId): Capability {
    Capability(o, OWNER, 0)
  }

  function FirstCaps(from: nat, n: nat): (caps: seq<Capability>)
    ensures |caps| == n
  {
    seq(n, i requires 0 <= i < n => FirstCap(from + i))
  }

  /** The supervisor's table before it spawns the producer: object `h` under handle `h`. */
  function BootTable(n: nat): Table {
    map h: nat | h < n :: FirstCap(h)
  }

  lemma BootAtNothing()
    ensures BootKernel(0) == EMPTY_KERNEL && BootQueues(0) == map[]
  {
  }

  lemma NewChannelStep(n: nat)
    ensures NewChannel(BootKernel(n), BootQueues(n)) == (BootKernel(n + 1), BootQueues(n + 1), FirstCap(n))
  {
    assert BootKernel(n).epochs[n := 0] == BootKernel(n + 1).epochs;
    assert BootQueues(n)[n := []] == BootQueues(n + 1);
  }

  lemma NewRegionStep(c: Config, j: nat)
    ensures Regions.NewRegion(BootKernel(c.stages + 2 + j), BootStore(c, j), c.regionSize) ==
            (BootKernel(c.stages + 3 + j), BootStore(c, j + 1), FirstCap(c.stages + 2 + j))
  {
    var n := c.stages + 2 + j;
    assert BootKernel(n).epochs[n := 0] == BootKernel(n + 1).epochs;
  }

  /** Granting the next first capabilities extends the supervisor's table. */
  lemma {:induction false} GrantFirstCaps(p: ProcState, n: nat, more: nat)
    requires p.table == BootTable(n) && p.nextHandle == n && n + more < HANDLE_LIMIT
    ensures p.GrantAll(FirstCaps(n, more)) == ProcState(BootTable(n + more), n + more, p.clock)
    ensures forall i: nat :: i < more ==> HandlesFrom(p.nextHandle, more)[i] == n + i
  {
    var caps := FirstCaps(n, more);
    GrantAllEffect(p, caps);
    HandlesWithoutWrap(n, more);
    var t := p.GrantAll(caps).table;
    forall h: nat | h in t ensures h < n + more && t[h] == FirstCap(h) {
      if h >= n {
        assert t[n + (h - n)] == caps[h - n];
      }
    }
    assert t == BootTable(n + more);
  }

  lemma GrantFirstCap(p: ProcState, n: nat)
    requires p.table == BootTable(n) && p.nextHandle == n && n + 1 < HANDLE_LIMIT
    ensures p.Grant(FirstCap(n)) == ProcState(BootTable(n + 1), n + 1, p.clock)
  {
    assert BootTable(n)[n := FirstCap(n)] == BootTable(n + 1);
  }

  // ---- spawning ----

  /** The supervisor and the first `q - 1` stages exist; the ready queue is in spawn order. */
  ghost predicate Booting(c: Config, s: SchedState, q: nat) {
    && s.nextPid == q > 0 && (forall p: nat :: p in s.procs <==> p < q)
    && s.procs[0].table == BootTable(Objects(c))
    && (forall p :: 1 <= p < q && p <= c.stages + 1 ==>
          s.procs[p].table == StageTable(InputOf(c, p)) && s.procs[p].nextHandle == 2)
    && |s.ready| == q && forall k: nat :: k < q ==> s.ready[k] == k
  }

  /** A stage between two channels gets a receive-only view of one and a send-only view of the other. */
  function ViewGrants(input: Handle, output: Handle): seq<Grant> {
    [Derive(input, {READ}), Derive(output, {WRITE})]
  }

  lemma ViewsRun(k: KernelState, n: nat, i: nat)
    requires k == BootKernel(n) && i + 1 < n
    ensures RunBatch(k, BootTable(n), ViewGrants(i, i + 1)) ==
            Ok(Applied(k, BootTable(n), [Capability(i, {READ}, 0), Capability(i + 1, {WRITE}, 0)]))
  {
    var grants, t := ViewGrants(i, i + 1), BootTable(n);
    BatchEffect(k, t, grants);
    assert Admissible(k, t, grants);
    assert MovedObjects(t, grants, 2) == {} && TakenHandles(grants, 2) == {};
    assert BumpAll(k, {}).epochs == k.epochs && t - {} == t;
    assert Effect(k, t, grants, 2).delivered == [Delivers(t, grants[0]), Delivers(t, grants[1])];
  }

  /** A stage's table once its two views are granted. */
  lemma GrantViews(p: ProcState, i: nat)
    requires p.table == map[] && p.nextHandle == 0
    ensures p.GrantAll([Capability(i, {READ}, 0), Capability(i + 1, {WRITE}, 0)]) == ProcState(StageTable(i), 2, p.clock)
  {
    var a, b := Capability(i, {READ}, 0), Capability(i + 1, {WRITE}, 0);
    assert [a, b][..1] == [a] && [a][..0] == [];
    assert p.GrantAll([a]) == p.Grant(a);
    assert p.GrantAll([a, b]) == p.Grant(a).Grant(b);
    assert map[0 := a][1 := b] == StageTable(i);
  }

  /** Spawning the stage that consumes channel `i` succeeds, and costs the supervisor nothing. */
  lemma EndowsConsumer(c: Config, s: SchedState, i: nat) returns (e: Endowment)
    requires s.nextPid > 0 && 0 in s.procs && s.procs[0].table == BootTable(Objects(c)) && i <= c.stages
    ensures s.Endow(BootKernel(Objects(c)), 0, ViewGrants(i, i + 1)) == Ok(e) && e.kernel == BootKernel(Objects(c))
    ensures e.delivered == [Capability(i, {READ}, 0), Capability(i + 1, {WRITE}, 0)]
    ensures 0 in e.sched.procs && e.sched == s.(procs := s.procs[0 := e.sched.procs[0]])
    ensures e.sched.procs[0].table == BootTable(Objects(c))
  {
    ViewsRun(BootKernel(Objects(c)), Objects(c), i);
    e := s.Endow(BootKernel(Objects(c)), 0, ViewGrants(i, i + 1)).value;
  }

  lemma AdoptsConsumer(s: SchedState, stamp: Stamp, i: nat) returns (next: SchedState)
    ensures next == s.Adopt([Capability(i, {READ}, 0), Capability(i + 1, {WRITE}, 0)], stamp)
    ensures s.nextPid in next.procs && next.procs == s.procs[s.nextPid := next.procs[s.nextPid]]
    ensures next.nextPid == s.nextPid + 1 && next.ready == s.ready + [s.nextPid]
    ensures next.procs[s.nextPid].table == StageTable(i) && next.procs[s.nextPid].nextHandle == 2
  {
    var child := NewProcess(s.nextPid);
    GrantViews(child.(clock := ReceiveEvent(child.clock, stamp)), i);
    next := s.Adopt([Capability(i, {READ}, 0), Capability(i + 1, {WRITE}, 0)], stamp);
  }

  /** One more stage has been spawned. */
  lemma BootingNext(c: Config, s: SchedState, q: nat, supervisor: ProcState, born: ProcState, next: SchedState)
    requires Booting(c, s, q) && 1 <= q <= c.stages + 1 && supervisor.table == BootTable(Objects(c))
    requires born.table == StageTable(InputOf(c, q)) && born.nextHandle == 2
    requires next == SchedState(s.procs[0 := supervisor][q := born], q + 1, s.ready + [q])
    ensures Booting(c, next, q + 1)
  {
  }

  lemma SpawnConsumer(c: Config, s: SchedState, q: nat) returns (next: SchedState)
    requires Booting(c, s, q) && 1 <= q <= c.stages + 1
    ensures var k, i := BootKernel(Objects(c)), InputOf(c, q);
            && s.SpawnChild(k, 0, ViewGrants(i, i + 1)) == Ok((k, next)) && Booting(c, next, q + 1)
            && q in next.procs && next.procs[q].table == StageTable(i)
  {
    var e := EndowsConsumer(c, s, InputOf(c, q));
    next := AdoptsConsumer(e.sched, e.spawnedAt, InputOf(c, q));
    BootingNext(c, s, q, e.sched.procs[0], next.procs[q], next);
  }

  /** The stage records of the first `n` stages after the supervisor. */
  ghost predicate Consumers(c: Config, stages: seq<Stage>, n: nat) {
    |stages| == n <= c.stages + 1 && forall q :: 1 <= q <= n ==> stages[q - 1] == ConsumerOf(c, InputOf(c, q))
  }

  // ---- the producer ----

  function RegionMoves(c: Config): (grants: seq<Grant>)
    ensures |grants| == c.pool
  {
    seq(c.pool, j requires 0 <= j < c.pool => Move(RegionId(c, j)))
  }

  /** The producer owns every region, and sees the two ends of the ring one way each. */
  function ProducerGrants(c: Config): (grants: seq<Grant>)
    ensures |grants| == c.pool + 2
  {
    [Derive(0, {WRITE}), Derive(c.stages + 1, {READ})] + RegionMoves(c)
  }

  function ProducerCaps(c: Config): (caps: seq<Capability>)
    ensures |caps| == c.pool + 2
  {
    [Capability(0, {WRITE}, 0), Capability(c.stages + 1, {READ}, 0)] +
    seq(c.pool, j requires 0 <= j < c.pool => Capability(RegionId(c, j), OWNER, 1))
  }

  /** The kernel once every region has moved to the producer. */
  function RunningKernel(c: Config): KernelState {
    KernelState(Objects(c), map o | o in Below(Objects(c)) :: if o < c.stages + 2 then 0 else 1)
  }

  lemma {:induction false} ProducerAdmissible(c: Config)
    ensures Admissible(BootKernel(Objects(c)), BootTable(Objects(c)), ProducerGrants(c))
  {
    var k, t, grants := BootKernel(Objects(c)), BootTable(Objects(c)), ProducerGrants(c);
    forall i | 0 <= i < |grants| ensures Authorised(k, t, grants[i]) {
      assert i >= 2 ==> grants[i] == Move(RegionId(c, i - 2));
    }
    assert forall i :: 2 <= i < |grants| ==> grants[i] == RegionMoves(c)[i - 2];
  }

  lemma ProducerTakes(c: Config)
    requires Admissible(BootKernel(Objects(c)), BootTable(Objects(c)), ProducerGrants(c))
    ensures var t, grants := BootTable(Objects(c)), ProducerGrants(c);
            && (forall o: nat :: o in MovedObjects(t, grants, |grants|) <==> c.stages + 2 <= o < Objects(c))
            && (forall h: nat :: h in TakenHandles(grants, |grants|) <==> c.stages + 2 <= h < Objects(c))
  {
    var t, grants := BootTable(Objects(c)), ProducerGrants(c);
    forall o: nat ensures o in MovedObjects(t, grants, |grants|) <==> c.stages + 2 <= o < Objects(c) {
      if c.stages + 2 <= o < Objects(c) {
        var i := o - c.stages;
        assert grants[i] == RegionMoves(c)[i - 2] == Move(o);
        assert t[grants[i].h].obj == o;
      }
    }
    forall h: nat ensures h in TakenHandles(grants, |grants|) <==> c.stages + 2 <= h < Objects(c) {
      if c.stages + 2 <= h < Objects(c) {
        assert grants[h - c.stages] == RegionMoves(c)[h - c.stages - 2] == Move(h);
      }
    }
  }

  lemma ProducerRun(c: Config)
    ensures RunBatch(BootKernel(Objects(c)), BootTable(Objects(c)), ProducerGrants(c)) ==
            Ok(Applied(RunningKernel(c), SupervisorTable(c), ProducerCaps(c)))
  {
    var k, t, grants := BootKernel(Objects(c)), BootTable(Objects(c)), ProducerGrants(c);
    ProducerAdmissible(c);
    ProducerTakes(c);
    BatchEffect(k, t, grants);
    var a := Effect(k, t, grants, |grants|);
    assert a.kernel.epochs == RunningKernel(c).epochs;
    assert a.table == SupervisorTable(c);
    forall i | 0 <= i < |grants| ensures a.delivered[i] == ProducerCaps(c)[i] {
      assert i >= 2 ==> grants[i] == RegionMoves(c)[i - 2];
    }
    assert a.delivered == ProducerCaps(c);
  }

  function ProducerTable(c: Config): Table {
    map h: nat | h < c.pool + 2 :: ProducerCaps(c)[h]
  }

 lemma GrantProducerCaps(c: Config, p: ProcState)
    requires p.table == map[] && p.nextHandle == 0 && c.pool + 2 < HANDLE_LIMIT
    ensures p.GrantAll(ProducerCaps(c)) == ProcState(ProducerTable(c), c.pool + 2, p.clock)
  {
    GrantToNew(p, ProducerCaps(c));
    assert p.GrantAll(ProducerCaps(c)).table == ProducerTable(c);
  }

  lemma {:induction false} SlotAtStart(c: Config, v: nat)
    requires v < c.pool
    ensures Slot(c, v) == v
  {
    if v > 0 {
      SlotAtStart(c, v - 1);
    }
  }

  lemma {:induction false} MovesAtStart(c: Config, j: nat, n: nat)
    requires n <= c.stages + 3
    ensures Moves(c, Start(c), j, n) == 0
  {
    if n > 0 {
      MovesAtStart(c, j, n - 1);
    }
  }

  lemma ProducerAtStart(c: Config, clock: Stamp)
    requires InBounds(c)
    ensures ProducerShows(c, Start(c), ProcState(ProducerTable(c), c.pool + 2, clock))
  {
    forall h: nat | h in ProducerTable(c) && h >= 2 ensures ProducerTable(c)[h] == RegionCap(c, Start(c), h - 2) {
      SlotAtStart(c, h - 2);
      MovesAtStart(c, h - 2, c.stages + 2);
    }
  }

  lemma KernelAtStart(c: Config)
    ensures KernelShows(c, Start(c), RunningKernel(c))
  {
    forall j | 0 <= j < c.pool ensures RunningKernel(c).epochs[RegionId(c, j)] == Epoch(c, Start(c), j) {
      MovesAtStart(c, j, c.stages + 2);
    }
  }

  /** The state the ring starts in. */
  ghost predicate Booted(c: Config, s: SchedState) {
    && s.nextPid == c.stages + 3 && (forall p: nat :: p in s.procs <==> p < c.stages + 3)
    && s.procs[0].table == SupervisorTable(c)
    && (forall p :: 1 <= p <= c.stages + 1 ==>
          s.procs[p].table == StageTable(InputOf(c, p)) && s.procs[p].nextHandle == 2)
    && s.procs[c.stages + 2].table == ProducerTable(c) && s.procs[c.stages + 2].nextHandle == c.pool + 2
    && |s.ready| == c.stages + 3 && forall k: nat :: k < c.stages + 3 ==> s.ready[k] == k
  }

  lemma AdoptsProducer(c: Config, s: SchedState, stamp: Stamp) returns (next: SchedState)
    requires InBounds(c) && s.nextPid == c.stages + 2
    ensures next == s.Adopt(ProducerCaps(c), stamp)
    ensures next.procs == s.procs[c.stages + 2 := next.procs[c.stages + 2]] && c.stages + 2 in next.procs
    ensures next.nextPid == c.stages + 3 && next.ready == s.ready + [c.stages + 2]
    ensures next.procs[c.stages + 2].table == ProducerTable(c) && next.procs[c.stages + 2].nextHandle == c.pool + 2
  {
    var child := NewProcess(c.stages + 2);
    GrantProducerCaps(c, child.(clock := ReceiveEvent(child.clock, stamp)));
    next := s.Adopt(ProducerCaps(c), stamp);
  }

  lemma EndowsProducer(c: Config, s: SchedState) returns (e: Endowment)
    requires InBounds(c) && Booting(c, s, c.stages + 2)
    ensures s.Endow(BootKernel(Objects(c)), 0, ProducerGrants(c)) == Ok(e)
    ensures e.kernel == RunningKernel(c) && e.delivered == ProducerCaps(c)
    ensures 0 in e.sched.procs && e.sched == s.(procs := s.procs[0 := e.sched.procs[0]])
    ensures e.sched.procs[0].table == SupervisorTable(c)
  {
    ProducerRun(c);
    e := s.Endow(BootKernel(Objects(c)), 0, ProducerGrants(c)).value;
  }

  /** Spawning the producer succeeds, and moves every region to it. */
  lemma SpawnProducer(c: Config, s: SchedState) returns (next: SchedState)
    requires InBounds(c) && Booting(c, s, c.stages + 2)
    ensures s.SpawnChild(BootKernel(Objects(c)), 0, ProducerGrants(c)) == Ok((RunningKernel(c), next)) && Booted(c, next)
  {
    var e := EndowsProducer(c, s);
    next := AdoptsProducer(c, e.sched, e.spawnedAt);
  }

  lemma StoreAtStart(c: Config)
    ensures StoreShows(c, Start(c), BootStore(c, c.pool))
  {
    BootStoreIs(c, c.pool);
  }

  lemma QueuesAtStart(c: Config)
    ensures QueuesShow(c, Start(c), BootQueues(c.stages + 2))
  {
    var qs := BootQueues(c.stages + 2);
    forall i: nat | i in qs ensures QueueShows(c, Start(c), i, qs[i]) {
    }
  }

  lemma BootedShows(c: Config, s: SchedState)
    requires InBounds(c) && Booted(c, s)
    ensures RT.SnapshotShows(c, Start(c),
              RT.Snapshot(RunningKernel(c), BootQueues(c.stages + 2), BootStore(c, c.pool), s.procs))
    ensures InTurn(s.ready, c.stages + 3, 0)
  {
    var x := Start(c);
    KernelAtStart(c);
    StoreAtStart(c);
    QueuesAtStart(c);
    forall q | 1 <= q <= c.stages + 1 ensures StageShows(c, x, InputOf(c, q), s.procs[q]) {
    }
    ProducerAtStart(c, s.procs[c.stages + 2].clock);
  }
}
