/** The whole kernel as one step system: every operation its components offer, over one state. A
    refused operation leaves the state as it was. */
module Machine {
  import opened Wrappers
  import opened Rights
  import opened Capabilities
  import opened Clocks
  import opened Processes
  import opened Transfers
  import opened Channels
  import opened Scheduling
  import opened Data
  import opened Regions

  datatype Sys = Sys(kernel: KernelState, sched: SchedState, queues: Queues, store: Store)

  const BOOT: Sys := Sys(EMPTY_KERNEL, EMPTY_SCHEDULER, map[], map[])

  datatype Op =
    | MakeObject(rights: set<Right>)
    | RevokeObject(cap: Capability)
    | ReissueObject(cap: Capability)
    | DeriveView(cap: Capability, rights: set<Right>)
    | DestroyObject(cap: Capability)
    | MakeChannel
    | MakeRegion(size: nat)
    | SpawnRoot(initial: seq<Capability>)
    | SpawnFrom(parent: ProcessId, grants: seq<Grant>)
    | Schedule
    | Give(p: ProcessId, cap: Capability)
    | Drop(p: ProcessId, h: Handle)
    | Local(p: ProcessId)
    | Observe(p: ProcessId, sent: Stamp)
    | SendOn(channel: Capability, p: ProcessId, grants: seq<Grant>, data: int)
    | ReceiveOn(channel: Capability, p: ProcessId)
    | WriteTo(cap: Capability, offset: nat, bytes: seq<byte>)
    | UpdateIn(cap: Capability, f: seq<byte> -> seq<byte>)
    | DestroyIn(cap: Capability)
    | Reclaim

  /** The state with process `p`'s entry replaced. */
  function WithProc(s: Sys, p: ProcessId, proc: ProcState): Sys {
    s.(sched := s.sched.(procs := s.sched.procs[p := proc]))
  }

  function KernelStep(s: Sys, op: Op): Sys {
    match op
    case MakeObject(rights) => s.(kernel := s.kernel.NewObject(rights).0)
    case RevokeObject(cap) => (match s.kernel.Revoke(cap) case Ok(k) => s.(kernel := k) case Err(_) => s)
    case ReissueObject(cap) => (match s.kernel.Reissue(cap) case Ok(r) => s.(kernel := r.0) case Err(_) => s)
    case DestroyObject(cap) => (match s.kernel.Destroy(cap) case Ok(k) => s.(kernel := k) case Err(_) => s)
    case MakeChannel =>
      var (k, queues, _) := NewChannel(s.kernel, s.queues);
      s.(kernel := k, queues := queues)
    case MakeRegion(size) =>
      var (k, store, _) := NewRegion(s.kernel, s.store, size);
      s.(kernel := k, store := store)
    case _ => s
  }

  function ProcessStep(s: Sys, op: Op): Sys {
    match op
    case SpawnRoot(initial) => s.(sched := s.sched.Spawn(initial))
    case SpawnFrom(parent, grants) =>
      (match s.sched.SpawnChild(s.kernel, parent, grants)
       case Ok(r) => s.(kernel := r.0, sched := r.1)
       case Err(_) => s)
    case Schedule => if s.sched.ready == [] then s else s.(sched := s.sched.Rotate())
    case Give(p, cap) => if p in s.sched.procs then WithProc(s, p, s.sched.procs[p].Grant(cap)) else s
    case Drop(p, h) =>
      if p in s.sched.procs then WithProc(s, p, s.sched.procs[p].(table := s.sched.procs[p].table - {h})) else s
    case Local(p) =>
      if p in s.sched.procs then WithProc(s, p, s.sched.procs[p].(clock := LocalEvent(s.sched.procs[p].clock))) else s
    case Observe(p, sent) =>
      if p in s.sched.procs then WithProc(s, p, s.sched.procs[p].(clock := ReceiveEvent(s.sched.procs[p].clock, sent)))
      else s
    case _ => s
  }

  function ChannelStep(s: Sys, op: Op): Sys {
    match op
    case SendOn(channel, p, grants, data) =>
      if p !in s.sched.procs then s
      else
        (match SendOutcome(s.kernel, s.queues, channel, s.sched.procs[p], grants, data)
         case Ok(r) => WithProc(s.(kernel := r.kernel, queues := r.queues), p, r.sender)
         case Err(_) => s)
    case ReceiveOn(channel, p) =>
      if p !in s.sched.procs then s
      else
        (match ReceiveOutcome(s.kernel, s.queues, channel, s.sched.procs[p])
         case Ok(Some(r)) => WithProc(s.(queues := r.queues), p, r.receiver)
         case Ok(None) => s
         case Err(_) => s)
    case _ => s
  }

  function RegionStep(s: Sys, op: Op): Sys {
    match op
    case WriteTo(cap, offset, bytes) =>
      (match WriteBytes(s.kernel, s.store, cap, offset, bytes) case Ok(store) => s.(store := store) case Err(_) => s)
    case UpdateIn(cap, f) =>
      (match UpdateBytes(s.kernel, s.store, cap, f) case Ok(store) => s.(store := store) case Err(_) => s)
    case DestroyIn(cap) =>
      (match Regions.DestroyRegion(s.kernel, s.store, cap)
       case Ok(r) => s.(kernel := r.0, store := r.1)
       case Err(_) => s)
    case Reclaim => s.(store := Regions.Reclaim(s.kernel, s.store))
    case _ => s
  }

  function Step(s: Sys, op: Op): Sys {
    match op
    case MakeObject(_) => KernelStep(s, op)
    case RevokeObject(_) => KernelStep(s, op)
    case ReissueObject(_) => KernelStep(s, op)
    case DeriveView(_, _) => s
    case DestroyObject(_) => KernelStep(s, op)
    case MakeChannel => KernelStep(s, op)
    case MakeRegion(_) => KernelStep(s, op)
    case SpawnRoot(_) => ProcessStep(s, op)
    case SpawnFrom(_, _) => ProcessStep(s, op)
    case Schedule => ProcessStep(s, op)
    case Give(_, _) => ProcessStep(s, op)
    case Drop(_, _) => ProcessStep(s, op)
    case Local(_) => ProcessStep(s, op)
    case Observe(_, _) => ProcessStep(s, op)
    case SendOn(_, _, _, _) => ChannelStep(s, op)
    case ReceiveOn(_, _) => ChannelStep(s, op)
    case WriteTo(_, _, _) => RegionStep(s, op)
    case UpdateIn(_, _) => RegionStep(s, op)
    case DestroyIn(_) => RegionStep(s, op)
    case Reclaim => RegionStep(s, op)
  }

  // ---- what the operations with several parts do ----

  /** What an accepted send changes: the sender, the kernel's epochs, and the end of one queue. */
  lemma SendIs(s: Sys, op: Op) returns (k: KernelState, sender: ProcState, m: Message)
    requires op.SendOn? && op.p in s.sched.procs
    requires SendOutcome(s.kernel, s.queues, op.channel, s.sched.procs[op.p], op.grants, op.data).Ok?
    ensures var p, o := s.sched.procs[op.p], op.channel.obj;
            && Admissible(s.kernel, p.table, op.grants) && o in s.queues
            && Step(s, op) == WithProc(s.(kernel := k, queues := s.queues[o := s.queues[o] + [m]]), op.p, sender)
            && var a := Effect(s.kernel, p.table, op.grants, |op.grants|);
               k == a.kernel && sender == ProcState(a.table, p.nextHandle, LocalEvent(p.clock)) &&
               m == Message(op.data, a.delivered, LocalEvent(p.clock))
  {
    var p := s.sched.procs[op.p];
    SendMeans(s.kernel, s.queues, op.channel, p, op.grants, op.data);
    var a := Effect(s.kernel, p.table, op.grants, |op.grants|);
    k, sender := a.kernel, ProcState(a.table, p.nextHandle, LocalEvent(p.clock));
    m := Message(op.data, a.delivered, LocalEvent(p.clock));
  }

  /** What a spawn changes: the parent, the kernel's epochs, and one more process. */
  lemma {:induction false} SpawnIs(s: Sys, op: Op) returns (k: KernelState, parent: ProcState, delivered: seq<Capability>, born: ProcState)
    requires op.SpawnFrom? && s.sched.SpawnChild(s.kernel, op.parent, op.grants).Ok?
    ensures op.parent in s.sched.procs && Admissible(s.kernel, s.sched.procs[op.parent].table, op.grants)
    ensures var p := s.sched.procs[op.parent];
            var a := Effect(s.kernel, p.table, op.grants, |op.grants|);
            k == a.kernel && parent == ProcState(a.table, p.nextHandle, LocalEvent(p.clock)) && delivered == a.delivered
    ensures born == Newborn(s.sched.nextPid, parent.clock).GrantAll(delivered)
    ensures Step(s, op) == s.(kernel := k, sched := SchedState(s.sched.procs[op.parent := parent][s.sched.nextPid := born],
                                                               s.sched.nextPid + 1, s.sched.ready + [s.sched.nextPid]))
  {
    var p := s.sched.procs[op.parent];
    BatchEffect(s.kernel, p.table, op.grants);
    var a := Effect(s.kernel, p.table, op.grants, |op.grants|);
    k, parent, delivered := a.kernel, ProcState(a.table, p.nextHandle, LocalEvent(p.clock)), a.delivered;
    born := Newborn(s.sched.nextPid, parent.clock).GrantAll(delivered);
  }

  /** A child before anything is granted to it: its first event receives the spawn. */
  function Newborn(child: ProcessId, spawnedAt: Stamp): (p: ProcState)
    ensures p.table == map[] && p.nextHandle == 0 && p.clock == ReceiveEvent(NewClock(child), spawnedAt)
  {
    NewProcess(child).(clock := ReceiveEvent(NewProcess(child).clock, spawnedAt))
  }

  /** Object ids are never handed out again. */
  lemma IdsGrow(s: Sys, op: Op)
    ensures s.kernel.nextId <= Step(s, op).kernel.nextId
  {
    if op.SendOn? && op.p in s.sched.procs {
      BatchEffect(s.kernel, s.sched.procs[op.p].table, op.grants);
    }
    if op.SpawnFrom? && op.parent in s.sched.procs {
      BatchEffect(s.kernel, s.sched.procs[op.parent].table, op.grants);
    }
  }
}
