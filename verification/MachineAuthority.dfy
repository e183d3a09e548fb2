/** What the step system does to authority: every operation is a run of kernel calls with minted
    capabilities, and no table or message ever holds anything else. */
module MachineAuthority {
  import opened Wrappers
  import opened Rights
  import opened Capabilities
  import opened Clocks
  import opened Processes
  import opened Transfers
  import opened Channels
  import opened Scheduling
  import opened Authority
  import opened Machine
  import Regions

  ghost predicate CapsHold(caps: seq<Capability>, minted: set<Capability>) {
    forall c :: c in caps ==> c in minted
  }

  ghost predicate TableHolds(t: Table, minted: set<Capability>) {
    forall h :: h in t ==> t[h] in minted
  }

  ghost predicate TablesHold(procs: map<ProcessId, ProcState>, minted: set<Capability>) {
    forall p :: p in procs ==> TableHolds(procs[p].table, minted)
  }

  ghost predicate QueueHolds(q: seq<Message>, minted: set<Capability>) {
    forall m :: m in q ==> CapsHold(m.caps, minted)
  }

  ghost predicate QueuesHold(queues: Queues, minted: set<Capability>) {
    forall o :: o in queues ==> QueueHolds(queues[o], minted)
  }

  /** The ledger is the history of this state's kernel, and everything held or in flight was minted. */
  ghost predicate Accounted(s: Sys, l: Ledger) {
    s.kernel == l.kernel && Sound(l) && TablesHold(s.sched.procs, l.minted) && QueuesHold(s.queues, l.minted)
  }

  /** Capabilities cannot be forged: an operation only uses minted ones. */
  predicate Honest(l: Ledger, op: Op) {
    match op
    case RevokeObject(cap) => cap in l.minted
    case ReissueObject(cap) => cap in l.minted
    case DeriveView(cap, _) => cap in l.minted
    case DestroyObject(cap) => cap in l.minted
    case SpawnRoot(initial) => forall c | c in initial :: c in l.minted
    case Give(_, cap) => cap in l.minted
    case SendOn(channel, _, _, _) => channel in l.minted
    case ReceiveOn(channel, _) => channel in l.minted
    case WriteTo(cap, _, _) => cap in l.minted
    case UpdateIn(cap, _) => cap in l.minted
    case DestroyIn(cap) => cap in l.minted
    case _ => true
  }

  /** The kernel calls an operation makes. */
  function ActsOf(s: Sys, op: Op): seq<Act> {
    match op
    case MakeObject(rights) => [Create(rights)]
    case MakeChannel => [Create(OWNER)]
    case MakeRegion(_) => [Create(OWNER)]
    case RevokeObject(cap) => [Revoke(cap)]
    case ReissueObject(cap) => [Reissue(cap)]
    case DeriveView(cap, rights) => [Attenuate(cap, rights)]
    case DestroyObject(cap) => [Destroy(cap)]
    case DestroyIn(cap) => if Regions.DestroyRegion(s.kernel, s.store, cap).Ok? then [Destroy(cap)] else []
    case SpawnFrom(p, grants) => if p in s.sched.procs then GrantActs(s, p, grants) else []
    case SendOn(channel, p, grants, data) =>
      if p in s.sched.procs && SendOutcome(s.kernel, s.queues, channel, s.sched.procs[p], grants, data).Ok?
      then GrantActs(s, p, grants) else []
    case _ => []
  }

  /** The calls a batch makes if it is accepted. */
  function GrantActs(s: Sys, p: ProcessId, grants: seq<Grant>): seq<Act>
    requires p in s.sched.procs
  {
    var t := s.sched.procs[p].table;
    if RunBatch(s.kernel, t, grants).Ok? then
      BatchEffect(s.kernel, t, grants);
      BatchActs(t, grants, |grants|)
    else []
  }

  // ---- tables and queues only ever hold what was minted ----

  lemma {:induction false} GrantAllHolds(p: ProcState, caps: seq<Capability>, minted: set<Capability>)
    requires TableHolds(p.table, minted) && CapsHold(caps, minted)
    ensures TableHolds(p.GrantAll(caps).table, minted)
    decreases |caps|
  {
    if caps != [] {
      var n := |caps| - 1;
      assert caps[n] in caps && forall c :: c in caps[..n] ==> c in caps;
      GrantAllHolds(p, caps[..n], minted);
    }
  }

  lemma HoldMore(s: Sys, minted: set<Capability>, more: set<Capability>)
    requires TablesHold(s.sched.procs, minted) && QueuesHold(s.queues, minted) && minted <= more
    ensures TablesHold(s.sched.procs, more) && QueuesHold(s.queues, more)
  {
    forall p | p in s.sched.procs ensures TableHolds(s.sched.procs[p].table, more) {
      assert TableHolds(s.sched.procs[p].table, minted);
    }
    forall o | o in s.queues ensures QueueHolds(s.queues[o], more) {
      assert QueueHolds(s.queues[o], minted);
      forall m | m in s.queues[o] ensures CapsHold(m.caps, more) {
        assert CapsHold(m.caps, minted);
      }
    }
  }

  /** An accepted batch in history terms: what is left in the table and what is delivered was minted. */
  lemma BatchAccounted(s: Sys, l: Ledger, p: ProcessId, grants: seq<Grant>)
    requires Accounted(s, l) && p in s.sched.procs && Admissible(s.kernel, s.sched.procs[p].table, grants)
    ensures var a, l' := Effect(s.kernel, s.sched.procs[p].table, grants, |grants|), PerformAll(l, GrantActs(s, p, grants));
            && l'.kernel == a.kernel && Sound(l') && l.minted <= l'.minted
            && TableHolds(a.table, l.minted) && CapsHold(a.delivered, l'.minted)
  {
    var t := s.sched.procs[p].table;
    assert TableHolds(t, l.minted);
    BatchEffect(s.kernel, t, grants);
    BatchIsActs(l, t, grants, |grants|);
    RunsAreSound(l, GrantActs(s, p, grants));
  }

  lemma OneTable(procs: map<ProcessId, ProcState>, p: ProcessId, proc: ProcState, minted: set<Capability>)
    requires TablesHold(procs, minted) && TableHolds(proc.table, minted)
    ensures TablesHold(procs[p := proc], minted)
  {
    var after := procs[p := proc];
    forall q | q in after ensures TableHolds(after[q].table, minted) {
      if q != p {
        assert TableHolds(procs[q].table, minted);
      }
    }
  }

  lemma OneMessage(queues: Queues, o: ObjectId, m: Message, minted: set<Capability>)
    requires QueuesHold(queues, minted) && o in queues && CapsHold(m.caps, minted)
    ensures QueuesHold(queues[o := queues[o] + [m]], minted)
  {
    assert QueueHolds(queues[o], minted);
    assert QueueHolds(queues[o] + [m], minted);
  }

  lemma SendAccounted(s: Sys, l: Ledger, op: Op)
    requires Accounted(s, l) && op.SendOn?
    ensures Accounted(Step(s, op), PerformAll(l, ActsOf(s, op)))
  {
    if op.p in s.sched.procs && SendOutcome(s.kernel, s.queues, op.channel, s.sched.procs[op.p], op.grants, op.data).Ok? {
      var k, sender, m := SendIs(s, op);
      BatchAccounted(s, l, op.p, op.grants);
      var l' := PerformAll(l, ActsOf(s, op));
      HoldMore(s, l.minted, l'.minted);
      OneTable(s.sched.procs, op.p, sender, l'.minted);
      OneMessage(s.queues, op.channel.obj, m, l'.minted);
    }
  }

  lemma RefusedSpawn(s: Sys, op: Op)
    requires op.SpawnFrom? && s.sched.SpawnChild(s.kernel, op.parent, op.grants).Err?
    ensures ActsOf(s, op) == [] && Step(s, op) == s
  {
  }

  lemma SpawnAccounted(s: Sys, l: Ledger, op: Op)
    requires Accounted(s, l) && op.SpawnFrom?
    ensures Accounted(Step(s, op), PerformAll(l, ActsOf(s, op)))
  {
    if s.sched.SpawnChild(s.kernel, op.parent, op.grants).Ok? {
      var k, parent, delivered, born := SpawnIs(s, op);
      BatchAccounted(s, l, op.parent, op.grants);
      var l' := PerformAll(l, ActsOf(s, op));
      HoldMore(s, l.minted, l'.minted);
      GrantAllHolds(Newborn(s.sched.nextPid, parent.clock), delivered, l'.minted);
      OneTable(s.sched.procs, op.parent, parent, l'.minted);
      OneTable(s.sched.procs[op.parent := parent], s.sched.nextPid, born, l'.minted);
    } else {
      RefusedSpawn(s, op);
    }
  }

  lemma {:induction false} ReceiveAccounted(s: Sys, l: Ledger, op: Op)
    requires Accounted(s, l) && op.ReceiveOn?
    ensures Accounted(Step(s, op), PerformAll(l, ActsOf(s, op)))
  {
    if op.p in s.sched.procs {
      var r := ReceiveOutcome(s.kernel, s.queues, op.channel, s.sched.procs[op.p]);
      if r.Ok? && r.value.Some? {
        var q := s.queues[op.channel.obj];
        assert QueueHolds(q, l.minted) && q[0] in q;
        GrantAllHolds(s.sched.procs[op.p], q[0].caps, l.minted);
        assert forall m :: m in q[1..] ==> m in q;
      }
    }
  }

  lemma {:induction false} RootAccounted(s: Sys, l: Ledger, op: Op)
    requires Accounted(s, l) && op.SpawnRoot? && Honest(l, op)
    ensures Accounted(Step(s, op), PerformAll(l, ActsOf(s, op)))
  {
    GrantAllHolds(NewProcess(s.sched.nextPid), op.initial, l.minted);
  }

  /** Calls straight into the kernel, and the creation of channels and regions. */
  lemma {:induction false} KernelAccounted(s: Sys, l: Ledger, op: Op)
    requires Accounted(s, l) && Honest(l, op)
    requires op.MakeObject? || op.RevokeObject? || op.ReissueObject? || op.DeriveView? || op.DestroyObject? ||
             op.MakeChannel? || op.MakeRegion? || op.DestroyIn?
    ensures Accounted(Step(s, op), PerformAll(l, ActsOf(s, op)))
  {
    var acts := ActsOf(s, op);
    if acts != [] {
      PerformOne(l, acts[0]);
      PerformKeepsSound(l, acts[0]);
      HoldMore(s, l.minted, Perform(l, acts[0]).minted);
    }
  }

  /** Every operation keeps everything held and in flight accounted for. */
  lemma {:induction false} StepAccounted(s: Sys, l: Ledger, op: Op)
    requires Accounted(s, l) && Honest(l, op)
    ensures Accounted(Step(s, op), PerformAll(l, ActsOf(s, op)))
  {
    match op
    case SendOn(_, _, _, _) => SendAccounted(s, l, op);
    case SpawnFrom(_, _) => SpawnAccounted(s, l, op);
    case ReceiveOn(_, _) => ReceiveAccounted(s, l, op);
    case SpawnRoot(_) => RootAccounted(s, l, op);
    case MakeObject(_) => KernelAccounted(s, l, op);
    case RevokeObject(_) => KernelAccounted(s, l, op);
    case ReissueObject(_) => KernelAccounted(s, l, op);
    case DeriveView(_, _) => KernelAccounted(s, l, op);
    case DestroyObject(_) => KernelAccounted(s, l, op);
    case MakeChannel => KernelAccounted(s, l, op);
    case MakeRegion(_) => KernelAccounted(s, l, op);
    case DestroyIn(_) => KernelAccounted(s, l, op);
    case Schedule =>
    case Give(p, cap) =>
      if p in s.sched.procs {
        assert TableHolds(s.sched.procs[p].table, l.minted);
      }
    case Drop(p, h) =>
      if p in s.sched.procs {
        assert TableHolds(s.sched.procs[p].table, l.minted);
      }
    case Local(p) =>
    case Observe(p, _) =>
    case WriteTo(_, _, _) =>
    case UpdateIn(_, _) =>
    case Reclaim =>
  }

  /** What a batch moves was never held before, and is delivered once. */
  lemma {:induction false} MovedIsNew(s: Sys, l: Ledger, p: ProcessId, grants: seq<Grant>, i: nat)
    requires Accounted(s, l) && p in s.sched.procs && Admissible(s.kernel, s.sched.procs[p].table, grants)
    requires i < |grants| && grants[i].Move?
    ensures var t := s.sched.procs[p].table; var cap := Delivers(t, grants[i]);
            && cap !in l.minted && forall k: nat :: k < |grants| && Delivers(t, grants[k]) == cap ==> k == i
  {
    var t := s.sched.procs[p].table;
    assert TableHolds(t, l.minted);
    assert Authorised(s.kernel, t, grants[i]);
    var cap := Delivers(t, grants[i]);
    assert cap in l.minted ==> Reached(l.kernel, cap.obj, cap.epoch);
    forall k: nat | k < |grants| && Delivers(t, grants[k]) == cap ensures k == i {
      assert Authorised(s.kernel, t, grants[k]);
    }
  }

  /** The table does not hold `cap`. */
  ghost predicate Lacks(t: Table, cap: Capability) {
    forall h :: h in t ==> t[h] != cap
  }

  /** Of a moved object the batch leaves one live capability, which nobody held before and which is
      delivered once. */
  lemma {:induction false} MovedExclusively(s: Sys, l: Ledger, p: ProcessId, grants: seq<Grant>, i: nat) returns (cap: Capability)
    requires Accounted(s, l) && p in s.sched.procs && Admissible(s.kernel, s.sched.procs[p].table, grants)
    requires i < |grants| && grants[i].Move?
    ensures cap == Delivers(s.sched.procs[p].table, grants[i]) && Sole(PerformAll(l, GrantActs(s, p, grants)), cap)
    ensures forall q :: q in s.sched.procs ==> Lacks(s.sched.procs[q].table, cap)
    ensures forall k: nat :: k < |grants| && Delivers(s.sched.procs[p].table, grants[k]) == cap ==> k == i
  {
    var t := s.sched.procs[p].table;
    cap := Delivers(t, grants[i]);
    MovedIsNew(s, l, p, grants, i);
    BatchEffect(s.kernel, t, grants);
    forall q | q in s.sched.procs ensures Lacks(s.sched.procs[q].table, cap) {
      assert TableHolds(s.sched.procs[q].table, l.minted);
    }
    assert TableHolds(t, l.minted);
    MoveLeavesSole(l, t, grants, i);
  }

  /** A region or any object moved by a send is owned by the message alone: of all capabilities ever
      minted only the one in the message passes a check, and no process holds that one. */
  lemma {:induction false} SendMovesExclusively(s: Sys, l: Ledger, op: Op, i: nat)
    requires Accounted(s, l) && op.SendOn? && op.p in s.sched.procs
    requires SendOutcome(s.kernel, s.queues, op.channel, s.sched.procs[op.p], op.grants, op.data).Ok?
    requires i < |op.grants| && op.grants[i].Move?
    ensures var procs, q := Step(s, op).sched.procs, Step(s, op).queues[op.channel.obj];
            && q != [] && i < |q[|q| - 1].caps|
            && Sole(PerformAll(l, ActsOf(s, op)), q[|q| - 1].caps[i])
            && forall p :: p in procs ==> Lacks(procs[p].table, q[|q| - 1].caps[i])
  {
    var k, sender, m := SendIs(s, op);
    var cap := MovedExclusively(s, l, op.p, op.grants, i);
    assert Lacks(s.sched.procs[op.p].table, cap);
    assert Lacks(sender.table, cap);
  }

  /** `cap` is in the new process's table, under handle `i`, and nowhere else. */
  lemma ChildAlone(procs: map<ProcessId, ProcState>, p: ProcessId, parent: ProcState, child: ProcessId, born: ProcState,
                   caps: seq<Capability>, i: nat, after: map<ProcessId, ProcState>)
    requires i < |caps| && ListsOut(born.table, caps) && after == procs[p := parent][child := born]
    requires (forall q :: q in procs ==> Lacks(procs[q].table, caps[i])) && Lacks(parent.table, caps[i])
    requires forall k: nat :: k < |caps| && caps[k] == caps[i] ==> k == i
    ensures child in after && i in after[child].table && after[child].table[i] == caps[i]
    ensures forall q :: q in after && q != child ==> Lacks(after[q].table, caps[i])
    ensures forall h :: h in after[child].table && after[child].table[h] == caps[i] ==> h == i
  {
  }

  /** The same for a spawn: what moves to a child is the child's alone, under the handle of its place in
      the batch. */
  lemma {:induction false} SpawnMovesExclusively(s: Sys, l: Ledger, op: Op, i: nat)
    requires Accounted(s, l) && op.SpawnFrom? && s.sched.SpawnChild(s.kernel, op.parent, op.grants).Ok?
    requires |op.grants| < HANDLE_LIMIT && i < |op.grants| && op.grants[i].Move?
    ensures var procs, child := Step(s, op).sched.procs, s.sched.nextPid;
            && child in procs && i in procs[child].table
            && Sole(PerformAll(l, ActsOf(s, op)), procs[child].table[i])
            && (forall p :: p in procs && p != child ==> Lacks(procs[p].table, procs[child].table[i]))
            && forall h :: h in procs[child].table && procs[child].table[h] == procs[child].table[i] ==> h == i
  {
    var k, parent, delivered, born := SpawnIs(s, op);
    GrantToNew(Newborn(s.sched.nextPid, parent.clock), delivered);
    var cap := MovedExclusively(s, l, op.parent, op.grants, i);
    assert Lacks(s.sched.procs[op.parent].table, cap);
    assert Lacks(parent.table, cap);
    ChildAlone(s.sched.procs, op.parent, parent, s.sched.nextPid, born, delivered, i, Step(s, op).sched.procs);
  }
}
