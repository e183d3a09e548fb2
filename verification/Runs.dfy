/** Whole runs of the step system, from boot, by any sequence of operations whatever: the safety
    theorems about authority, causality, scheduling and memory. */
module Runs {
  import opened Wrappers
  import opened Rights
  import opened Capabilities
  import opened Clocks
  import opened Processes
  import opened Transfers
  import opened Channels
  import opened Scheduling
  import opened Authority
  import opened Causality
  import opened Machine
  import opened MachineAuthority
  import opened MachineCausality
  import opened MachineStorage
  import Regions

  /** A state with its history: all that was ever minted, every event, every write. */
  datatype History = History(sys: Sys, ledger: Ledger, chronicle: Chronicle, patches: Patches)

  const GENESIS: History := History(BOOT, NOTHING, UNWRITTEN, map[])

  /** Capabilities and stamps cannot be forged, and closures over a region's bytes cannot resize it. */
  ghost predicate Possible(h: History, op: Op) {
    Honest(h.ledger, op) && Witnessed(h.chronicle, op) && WellBehaved(op)
  }

  ghost function Next(h: History, op: Op): History {
    if Possible(h, op) then
      History(Step(h.sys, op), PerformAll(h.ledger, ActsOf(h.sys, op)), Chronicled(h.sys, h.chronicle, op),
              Patched(h.sys, h.patches, op))
    else h
  }

  ghost function Run(h: History, ops: seq<Op>): History
    decreases |ops|
  {
    if ops == [] then h else Run(Next(h, ops[0]), ops[1..])
  }

  /** Authority is accounted for, clocks and messages are dated, the ready queue is fair, and memory
      holds what was written. */
  ghost predicate Consistent(h: History) {
    Accounted(h.sys, h.ledger) && Dated(h.sys, h.chronicle) && h.sys.sched.Fair() && Kept(h.sys, h.patches)
  }

  lemma GenesisConsistent()
    ensures Consistent(GENESIS)
  {
  }

  lemma ProcessesFair(s: Sys, op: Op)
    requires s.sched.Fair() && (op.SpawnRoot? || op.SpawnFrom? || op.Schedule?)
    ensures Step(s, op).sched.Fair()
  {
    match op
    case SpawnRoot(initial) => StepKeepsFair(s.sched, Spawning(initial));
    case SpawnFrom(parent, grants) => StepKeepsFair(s.sched, SpawningChild(s.kernel, parent, grants));
    case Schedule => StepKeepsFair(s.sched, SchedOp.Next);
  }

  /** The set of processes and the queue stay as they are. */
  lemma StepKeepsQueue(s: Sys, op: Op)
    requires !(op.SpawnRoot? || op.SpawnFrom? || op.Schedule?)
    ensures var s' := Step(s, op).sched; s' == s.sched.(procs := s'.procs) && s'.procs.Keys == s.sched.procs.Keys
  {
  }

  /** What an operation does to the scheduler. */
  lemma StepFair(s: Sys, op: Op)
    requires s.sched.Fair()
    ensures Step(s, op).sched.Fair()
  {
    if op.SpawnRoot? || op.SpawnFrom? || op.Schedule? {
      ProcessesFair(s, op);
    } else {
      StepKeepsQueue(s, op);
      assert forall p: ProcessId :: p in Step(s, op).sched.procs.Keys <==> p in s.sched.procs.Keys;
    }
  }

  lemma NextConsistent(h: History, op: Op)
    requires Consistent(h)
    ensures Consistent(Next(h, op))
  {
    if Possible(h, op) {
      StepAccounted(h.sys, h.ledger, op);
      StepDated(h.sys, h.chronicle, op);
      StepFair(h.sys, op);
      StepKept(h.sys, h.patches, op);
    }
  }

  /** Every reachable state is consistent. */
  lemma {:induction false} RunsAreConsistent(h: History, ops: seq<Op>)
    requires Consistent(h)
    ensures Consistent(Run(h, ops)) && h.ledger.minted <= Run(h, ops).ledger.minted
    decreases |ops|
  {
    if ops != [] {
      NextConsistent(h, ops[0]);
      RunsAreSound(h.ledger, ActsOf(h.sys, ops[0]));
      RunsAreConsistent(Next(h, ops[0]), ops[1..]);
    }
  }

  // ---- the theorems ----

  /** Permanent death: a capability that has failed as revoked or unknown fails in every later state of
      every run, whoever uses it. */
  lemma {:induction false} DeadInEveryRun(h: History, ops: seq<Op>, c: Capability, required: set<Right>)
    requires Consistent(h) && c in h.ledger.minted && h.sys.kernel.Check(c, NONE).Err?
    ensures Run(h, ops).sys.kernel.Check(c, required).Err?
    decreases |ops|
  {
    if ops != [] {
      NextConsistent(h, ops[0]);
      RunsAreSound(h.ledger, ActsOf(h.sys, ops[0]));
      DeadForever(h.ledger, ActsOf(h.sys, ops[0]), c);
      DeadInEveryRun(Next(h, ops[0]), ops[1..], c, required);
    }
  }

  /** After a bare revoke no capability for the object, old or new, ever passes a check again. */
  lemma {:induction false} BarrenInEveryRun(h: History, ops: seq<Op>, o: ObjectId, c: Capability)
    requires Consistent(h) && Barren(h.ledger, o)
    requires c in Run(h, ops).ledger.minted && c.obj == o
    ensures Run(h, ops).sys.kernel.Check(c, NONE).Err?
    decreases |ops|
  {
    if ops == [] {
      assert !h.ledger.kernel.Live(c);
    } else {
      NextConsistent(h, ops[0]);
      BarrenForever(h.ledger, ActsOf(h.sys, ops[0]), o);
      BarrenInEveryRun(Next(h, ops[0]), ops[1..], o, c);
    }
  }

  lemma RevokeIsForever(h: History, cap: Capability, ops: seq<Op>, c: Capability)
    requires Consistent(h) && cap in h.ledger.minted && h.sys.kernel.Permits(cap, {DESTROY}) && c.obj == cap.obj
    requires c in Run(Next(h, RevokeObject(cap)), ops).ledger.minted
    ensures Run(Next(h, RevokeObject(cap)), ops).sys.kernel.Check(c, NONE).Err?
  {
    var op := RevokeObject(cap);
    NextConsistent(h, op);
    PerformOne(h.ledger, Authority.Revoke(cap));
    RevokeLeavesBarren(h.ledger, cap);
    BarrenInEveryRun(Next(h, op), ops, cap.obj, c);
  }

  /** No operation of the run makes a kernel call that names the object. */
  ghost predicate Spared(h: History, ops: seq<Op>, o: ObjectId)
    decreases |ops|
  {
    ops == [] || ((Possible(h, ops[0]) ==> Spare(ActsOf(h.sys, ops[0]), o)) && Spared(Next(h, ops[0]), ops[1..], o))
  }

  lemma NextSole(h: History, op: Op, c: Capability)
    requires Consistent(h) && Sole(h.ledger, c) && (Possible(h, op) ==> Spare(ActsOf(h.sys, op), c.obj))
    ensures Sole(Next(h, op).ledger, c)
  {
    if Possible(h, op) {
      SoleKeptByAll(h.ledger, ActsOf(h.sys, op), c);
    }
  }

  /** The one live capability for an object stays the only one of all ever minted, however long the run,
      until an operation names the object. */
  lemma {:induction false} SoleInEveryRun(h: History, ops: seq<Op>, c: Capability)
    requires Consistent(h) && Sole(h.ledger, c) && Spared(h, ops, c.obj)
    ensures Sole(Run(h, ops).ledger, c)
    decreases |ops|
  {
    if ops != [] {
      NextConsistent(h, ops[0]);
      NextSole(h, ops[0], c);
      SoleInEveryRun(Next(h, ops[0]), ops[1..], c);
    }
  }

  /** Exclusive ownership over runs: what a send moves is from then on the only capability of all ever
      minted that passes a check for its object, until an operation names the object. */
  lemma {:induction false} SentStaysSole(h: History, op: Op, i: nat, ops: seq<Op>) returns (cap: Capability)
    requires Consistent(h) && Possible(h, op) && op.SendOn? && op.p in h.sys.sched.procs
    requires SendOutcome(h.sys.kernel, h.sys.queues, op.channel, h.sys.sched.procs[op.p], op.grants, op.data).Ok?
    requires i < |op.grants| && op.grants[i].Move?
    ensures var q := Next(h, op).sys.queues[op.channel.obj]; q != [] && i < |q[|q| - 1].caps| && cap == q[|q| - 1].caps[i]
    ensures Spared(Next(h, op), ops, cap.obj) ==> Sole(Run(Next(h, op), ops).ledger, cap)
  {
    SendMovesExclusively(h.sys, h.ledger, op, i);
    var q := Next(h, op).sys.queues[op.channel.obj];
    cap := q[|q| - 1].caps[i];
    NextConsistent(h, op);
    if Spared(Next(h, op), ops, cap.obj) {
      SoleInEveryRun(Next(h, op), ops, cap);
    }
  }

  /** The same for what a spawn moves to the child. */
  lemma BornStaysSole(h: History, op: Op, i: nat, ops: seq<Op>) returns (cap: Capability)
    requires Consistent(h) && Possible(h, op) && op.SpawnFrom? && h.sys.sched.SpawnChild(h.sys.kernel, op.parent, op.grants).Ok?
    requires |op.grants| < HANDLE_LIMIT && i < |op.grants| && op.grants[i].Move?
    ensures var procs, child := Next(h, op).sys.sched.procs, h.sys.sched.nextPid;
            child in procs && i in procs[child].table && cap == procs[child].table[i]
    ensures Spared(Next(h, op), ops, cap.obj) ==> Sole(Run(Next(h, op), ops).ledger, cap)
  {
    SpawnMovesExclusively(h.sys, h.ledger, op, i);
    cap := Next(h, op).sys.sched.procs[h.sys.sched.nextPid].table[i];
    NextConsistent(h, op);
    if Spared(Next(h, op), ops, cap.obj) {
      SoleInEveryRun(Next(h, op), ops, cap);
    }
  }

  /** And for a bare reissue. */
  lemma ReissuedStaysSole(h: History, cap: Capability, ops: seq<Op>)
    requires Consistent(h) && cap in h.ledger.minted && h.sys.kernel.Permits(cap, {DESTROY})
    requires Spared(Next(h, ReissueObject(cap)), ops, cap.obj)
    ensures Sole(Run(Next(h, ReissueObject(cap)), ops).ledger, cap.(epoch := cap.epoch + 1))
  {
    PerformOne(h.ledger, Authority.Reissue(cap));
    ReissueIsSole(h.ledger, cap);
    NextConsistent(h, ReissueObject(cap));
    SoleInEveryRun(Next(h, ReissueObject(cap)), ops, cap.(epoch := cap.epoch + 1));
  }

  /** Global attenuation: in every reachable state every minted capability has at most the rights of the
      one that opened its epoch, and at most those its object was created with. */
  lemma AttenuatedInEveryRun(ops: seq<Op>, c: Capability)
    requires c in Run(GENESIS, ops).ledger.minted
    ensures Attenuated(Run(GENESIS, ops).ledger, c)
  {
    GenesisConsistent();
    RunsAreConsistent(GENESIS, ops);
  }

  /** A process holds the capability, or a queued message carries it. */
  ghost predicate Around(s: Sys, c: Capability) {
    || (exists p, n :: p in s.sched.procs && n in s.sched.procs[p].table && s.sched.procs[p].table[n] == c)
    || (exists o, m :: o in s.queues && m in s.queues[o] && c in m.caps)
  }

  /** No forgery: whatever any process holds or any message carries was minted. */
  lemma MintedInEveryRun(ops: seq<Op>, c: Capability)
    requires Around(Run(GENESIS, ops).sys, c)
    ensures c in Run(GENESIS, ops).ledger.minted
  {
    GenesisConsistent();
    RunsAreConsistent(GENESIS, ops);
    AroundIsMinted(Run(GENESIS, ops), c);
  }

  lemma AroundIsMinted(h: History, c: Capability)
    requires Accounted(h.sys, h.ledger) && Around(h.sys, c)
    ensures c in h.ledger.minted
  {
    if p, n :| p in h.sys.sched.procs && n in h.sys.sched.procs[p].table && h.sys.sched.procs[p].table[n] == c {
      assert TableHolds(h.sys.sched.procs[p].table, h.ledger.minted);
    } else {
      var o, m :| o in h.sys.queues && m in h.sys.queues[o] && c in m.caps;
      assert QueueHolds(h.sys.queues[o], h.ledger.minted);
    }
  }

  /** Causality is exact: in every run, one of two distinct events happened before the other by their
      stamps exactly when program order, messages and births lead from one to the other; and the total
      order agrees, the lower process first at equal times. */
  lemma CausalityInEveryRun(ops: seq<Op>, i: nat, j: nat)
    requires i < |Run(GENESIS, ops).chronicle.log| && j < |Run(GENESIS, ops).chronicle.log| && i != j
    ensures var log := Run(GENESIS, ops).chronicle.log;
            && (HappenedBefore(log[i].stamp, log[j].stamp) <==> Leads(log, i, j))
            && (Leads(log, i, j) ==> KeyLess(log[i].stamp, log[j].stamp))
            && (KeyLess(log[i].stamp, log[j].stamp) || KeyLess(log[j].stamp, log[i].stamp))
            && (log[i].stamp.lamport == log[j].stamp.lamport ==>
                  (KeyLess(log[i].stamp, log[j].stamp) <==> log[i].process < log[j].process))
  {
    GenesisConsistent();
    RunsAreConsistent(GENESIS, ops);
    StampsAreExact(Run(GENESIS, ops).chronicle.log, i, j);
    TotalOrderExtendsCausality(Run(GENESIS, ops).chronicle.log, i, j);
  }

  /** In every run each byte of an existing region is what the last authorised write left there, else
      zero; and no channel is a region. */
  lemma MemoryInEveryRun(ops: seq<Op>, o: ObjectId, i: nat)
    requires o in Run(GENESIS, ops).sys.store && i < |Run(GENESIS, ops).sys.store[o]|
    ensures var h := Run(GENESIS, ops);
            o in h.patches && h.sys.store[o][i] == LastWritten(h.patches[o], i) && o !in h.sys.queues
  {
    GenesisConsistent();
    RunsAreConsistent(GENESIS, ops);
    assert StoredAs(Run(GENESIS, ops).sys.store[o], Run(GENESIS, ops).patches[o]);
  }

  /** In every run the ready queue lists exactly the existing processes, each once. */
  lemma FairInEveryRun(ops: seq<Op>)
    ensures Run(GENESIS, ops).sys.sched.Fair()
  {
    GenesisConsistent();
    RunsAreConsistent(GENESIS, ops);
  }

  function CountTurns(ops: seq<Op>): nat {
    if ops == [] then 0 else (if ops[0].Schedule? then 1 else 0) + CountTurns(ops[1..])
  }

  /** One operation moves a waiting process forward exactly when it hands out a turn. */
  lemma NextAdvances(h: History, op: Op, i: nat)
    requires i < |h.sys.sched.ready| && (op.Schedule? ==> i > 0)
    ensures var j := if op.Schedule? then i - 1 else i;
            j < |Next(h, op).sys.sched.ready| && Next(h, op).sys.sched.ready[j] == h.sys.sched.ready[i]
  {
    if !(op.SpawnRoot? || op.SpawnFrom? || op.Schedule?) {
      StepKeepsQueue(h.sys, op);
    }
  }

  /** Bounded waiting in every run: the process at position `i` of the queue is the one the `(i + 1)`-th
      following turn goes to, whatever else the kernel does in between. */
  lemma {:induction false} WaitingInEveryRun(h: History, ops: seq<Op>, i: nat)
    requires i < |h.sys.sched.ready| && CountTurns(ops) <= i
    ensures var j := i - CountTurns(ops);
            j < |Run(h, ops).sys.sched.ready| && Run(h, ops).sys.sched.ready[j] == h.sys.sched.ready[i]
    decreases |ops|
  {
    if ops != [] {
      NextAdvances(h, ops[0], i);
      WaitingInEveryRun(Next(h, ops[0]), ops[1..], if ops[0].Schedule? then i - 1 else i);
    }
  }
}
