/** Conservation over whole runs: how many places hold a capability is exactly what the operations of the
    run have put in, less what they have taken out. */
module RunsConserve {
  import opened Wrappers
  import opened Rights
  import opened Capabilities
  import opened Clocks
  import opened Processes
  import opened Transfers
  import opened Channels
  import opened Scheduling
  import opened Machine
  import opened MachineConservation
  import opened Runs

  /** The operation does not exhaust a process's 32-bit handle counter. */
  ghost predicate RoomFor(s: Sys, op: Op) {
    match op
    case SpawnRoot(initial) => |initial| < HANDLE_LIMIT
    case SpawnFrom(_, grants) => |grants| < HANDLE_LIMIT
    case Give(p, _) => p in s.sched.procs ==> s.sched.procs[p].HasRoom(1)
    case ReceiveOn(channel, p) =>
      p in s.sched.procs && channel.obj in s.queues && s.queues[channel.obj] != [] ==>
        s.sched.procs[p].HasRoom(|s.queues[channel.obj][0].caps|)
    case _ => true
  }

  /** What an operation adds to the number of places that hold `c`: a batch trades moved capabilities
      for their reissues and adds the derived ones; otherwise only giving and dropping count. */
  ghost function Gained(s: Sys, op: Op, c: Capability): int {
    match op
    case SpawnRoot(initial) => CountIn(initial, c)
    case SpawnFrom(parent, grants) => if s.sched.SpawnChild(s.kernel, parent, grants).Ok? then Traded(s, parent, grants, c) else 0
    case SendOn(channel, p, grants, data) =>
      if p in s.sched.procs && SendOutcome(s.kernel, s.queues, channel, s.sched.procs[p], grants, data).Ok?
      then Traded(s, p, grants, c) else 0
    case Give(p, cap) => if p in s.sched.procs then IfSame(cap, c) else 0
    case Drop(p, h) => if p in s.sched.procs && h in s.sched.procs[p].table then 0 - IfSame(s.sched.procs[p].table[h], c) else 0
    case _ => 0
  }

  ghost function Traded(s: Sys, p: ProcessId, grants: seq<Grant>, c: Capability): int {
    if p in s.sched.procs && Admissible(s.kernel, s.sched.procs[p].table, grants) then
      var t := s.sched.procs[p].table;
      Issued(t, grants, |grants|, c) - Replaced(t, grants, |grants|, c)
    else 0
  }

  /** The operation keeps handles and ids in order, and adds exactly what it should. */
  ghost predicate Balanced(s: Sys, op: Op, c: Capability) {
    InOrder(Step(s, op)) && Total(Step(s, op), c) == Total(s, c) + Gained(s, op, c)
  }

  // ---- one operation ----

  lemma SendBalanced(s: Sys, op: Op, c: Capability)
    requires InOrder(s) && op.SendOn?
    ensures Balanced(s, op, c)
  {
    if op.p in s.sched.procs && SendOutcome(s.kernel, s.queues, op.channel, s.sched.procs[op.p], op.grants, op.data).Ok? {
      SendConserves(s, op, c);
      var k, sender, m := SendIs(s, op);
    }
  }

  lemma BornFresh(child: ProcState, caps: seq<Capability>)
    requires child.table == map[] && child.nextHandle == 0 && |caps| < HANDLE_LIMIT
    ensures child.GrantAll(caps).Fresh()
  {
    GrantAllEffect(child, caps);
  }

  lemma SpawnInOrder(s: Sys, op: Op)
    requires InOrder(s) && op.SpawnFrom? && RoomFor(s, op) && s.sched.SpawnChild(s.kernel, op.parent, op.grants).Ok?
    ensures InOrder(Step(s, op))
  {
    var k, parent, delivered, born := SpawnIs(s, op);
    BornFresh(Newborn(s.sched.nextPid, parent.clock), delivered);
  }

  lemma SpawnBalanced(s: Sys, op: Op, c: Capability)
    requires InOrder(s) && op.SpawnFrom? && RoomFor(s, op)
    ensures Balanced(s, op, c)
  {
    if s.sched.SpawnChild(s.kernel, op.parent, op.grants).Ok? {
      SpawnConserves(s, op, c);
      SpawnInOrder(s, op);
    }
  }

  lemma ReceiveBalanced(s: Sys, op: Op, c: Capability)
    requires InOrder(s) && op.ReceiveOn? && RoomFor(s, op)
    ensures Balanced(s, op, c)
  {
    ReceiveConserves(s, op, c);
    if op.p in s.sched.procs && op.channel.obj in s.queues && s.queues[op.channel.obj] != [] {
      GrantAllEffect(s.sched.procs[op.p], s.queues[op.channel.obj][0].caps);
    }
  }

  /** One process is added. */
  lemma EntryAdded(s: Sys, s': Sys, born: ProcState, c: Capability)
    requires InOrder(s) && born.Fresh() && s'.queues == s.queues && s'.kernel == s.kernel
    requires s'.sched.procs == s.sched.procs[s.sched.nextPid := born] && s'.sched.nextPid == s.sched.nextPid + 1
    ensures InOrder(s') && Total(s', c) == Total(s, c) + Held(born, c)
  {
    AllHeldSame(s.sched.procs, s'.sched.procs, s.sched.nextPid, c);
  }

  lemma RootBalanced(s: Sys, op: Op, c: Capability)
    requires InOrder(s) && op.SpawnRoot? && RoomFor(s, op)
    ensures Balanced(s, op, c)
  {
    var child := NewProcess(s.sched.nextPid);
    BornFresh(child, op.initial);
    HeldByNew(child, op.initial, c);
    EntryAdded(s, Step(s, op), child.GrantAll(op.initial), c);
  }

  /** One process's entry is replaced. */
  lemma EntryReplaced(s: Sys, p: ProcessId, proc: ProcState, c: Capability)
    requires InOrder(s) && p in s.sched.procs && proc.Fresh()
    ensures InOrder(WithProc(s, p, proc))
    ensures Total(WithProc(s, p, proc), c) + Held(s.sched.procs[p], c) == Total(s, c) + Held(proc, c)
  {
    AllHeldAfter(s.sched.procs, p, proc, s.sched.nextPid, c);
  }

  lemma ProcessBalanced(s: Sys, op: Op, c: Capability)
    requires InOrder(s) && (op.Give? || op.Local? || op.Observe?) && RoomFor(s, op)
    ensures Balanced(s, op, c)
  {
    match op
    case Give(p, cap) =>
      if p in s.sched.procs {
        HeldAfterGrant(s.sched.procs[p], cap, c);
        EntryReplaced(s, p, s.sched.procs[p].Grant(cap), c);
      }
    case Local(p) =>
      if p in s.sched.procs {
        EntryReplaced(s, p, s.sched.procs[p].(clock := LocalEvent(s.sched.procs[p].clock)), c);
      }
    case Observe(p, sent) =>
      if p in s.sched.procs {
        EntryReplaced(s, p, s.sched.procs[p].(clock := ReceiveEvent(s.sched.procs[p].clock, sent)), c);
      }
  }

  lemma DropBalanced(s: Sys, op: Op, c: Capability)
    requires InOrder(s) && op.Drop?
    ensures Balanced(s, op, c)
  {
    if op.p in s.sched.procs {
      var p := s.sched.procs[op.p];
      EntryReplaced(s, op.p, p.(table := p.table - {op.h}), c);
      if op.h in p.table {
        HeldAfterTake(p.table, op.h, p.nextHandle, c);
      } else {
        assert p.table - {op.h} == p.table;
      }
    }
  }

  /** A new object, and with a channel an empty queue. */
  lemma ObjectBalanced(s: Sys, op: Op, c: Capability)
    requires InOrder(s) && (op.MakeObject? || op.MakeRegion? || op.MakeChannel?)
    ensures Balanced(s, op, c)
  {
    InFlightSame(s.queues, Step(s, op).queues, s.kernel.nextId, c);
  }

  /** Everything else touches neither tables, nor queues, nor the counters behind handles and ids. */
  lemma AuthorityBalanced(s: Sys, op: Op, c: Capability)
    requires InOrder(s) && (op.RevokeObject? || op.ReissueObject? || op.DeriveView? || op.DestroyObject? || op.Schedule?)
    ensures Balanced(s, op, c)
  {
  }

  lemma {:induction false} MemoryBalanced(s: Sys, op: Op, c: Capability)
    requires InOrder(s) && (op.WriteTo? || op.UpdateIn? || op.DestroyIn? || op.Reclaim?)
    ensures Balanced(s, op, c)
  {
  }

  lemma StepBalanced(s: Sys, op: Op, c: Capability)
    requires InOrder(s) && RoomFor(s, op)
    ensures Balanced(s, op, c)
  {
    match op
    case SendOn(_, _, _, _) => SendBalanced(s, op, c);
    case SpawnFrom(_, _) => SpawnBalanced(s, op, c);
    case ReceiveOn(_, _) => ReceiveBalanced(s, op, c);
    case SpawnRoot(_) => RootBalanced(s, op, c);
    case Drop(_, _) => DropBalanced(s, op, c);
    case Give(_, _) => ProcessBalanced(s, op, c);
    case Local(_) => ProcessBalanced(s, op, c);
    case Observe(_, _) => ProcessBalanced(s, op, c);
    case MakeObject(_) => ObjectBalanced(s, op, c);
    case MakeChannel => ObjectBalanced(s, op, c);
    case MakeRegion(_) => ObjectBalanced(s, op, c);
    case WriteTo(_, _, _) => MemoryBalanced(s, op, c);
    case UpdateIn(_, _) => MemoryBalanced(s, op, c);
    case DestroyIn(_) => MemoryBalanced(s, op, c);
    case Reclaim => MemoryBalanced(s, op, c);
    case _ => AuthorityBalanced(s, op, c);
  }

  // ---- whole runs ----

  /** No operation of the run exhausts a handle counter. */
  ghost predicate Roomy(h: History, ops: seq<Op>)
    decreases |ops|
  {
    ops == [] || ((Possible(h, ops[0]) ==> RoomFor(h.sys, ops[0])) && Roomy(Runs.Next(h, ops[0]), ops[1..]))
  }

  ghost function GainedNext(h: History, op: Op, c: Capability): int {
    if Possible(h, op) then Gained(h.sys, op, c) else 0
  }

  ghost function GainedInAll(h: History, ops: seq<Op>, c: Capability): int
    decreases |ops|
  {
    if ops == [] then 0 else GainedNext(h, ops[0], c) + GainedInAll(Runs.Next(h, ops[0]), ops[1..], c)
  }

  lemma NextBalanced(h: History, op: Op, c: Capability, next: History)
    requires InOrder(h.sys) && (Possible(h, op) ==> RoomFor(h.sys, op)) && next == Runs.Next(h, op)
    ensures InOrder(next.sys) && Total(next.sys, c) == Total(h.sys, c) + GainedNext(h, op, c)
  {
    if Possible(h, op) {
      StepBalanced(h.sys, op, c);
    }
  }

  lemma {:induction false} RunBalanced(h: History, ops: seq<Op>, c: Capability)
    requires InOrder(h.sys) && Roomy(h, ops)
    ensures InOrder(Run(h, ops).sys) && Total(Run(h, ops).sys, c) == Total(h.sys, c) + GainedInAll(h, ops, c)
    decreases |ops|
  {
    if ops != [] {
      NextBalanced(h, ops[0], c, Runs.Next(h, ops[0]));
      RunBalanced(Runs.Next(h, ops[0]), ops[1..], c);
    }
  }

  /** Conservation in every run that exhausts no handle counter: handles have been issued in order, so a
      fresh one never named a live entry, and the places holding `c` number exactly what the run put in
      less what it took out; a receive, and anything refused, counts for nothing. */
  lemma ConservedInEveryRun(ops: seq<Op>, c: Capability)
    requires Roomy(GENESIS, ops)
    ensures InOrder(Run(GENESIS, ops).sys) && Total(Run(GENESIS, ops).sys, c) == GainedInAll(GENESIS, ops, c)
  {
    RunBalanced(GENESIS, ops, c);
  }
}
