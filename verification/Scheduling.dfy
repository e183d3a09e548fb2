/** Spawning and the cooperative round-robin. The only order is the position in a FIFO queue. */
module Scheduling {
  import opened Wrappers
  import opened Capabilities
  import opened Clocks
  import opened Processes
  import opened Transfers

  datatype SpawnError = UnknownProcess(pid: ProcessId) | BadGrant(grant: GrantError)

  datatype SchedState = SchedState(procs: map<ProcessId, ProcState>, nextPid: nat, ready: seq<ProcessId>) {
    function Spawn(initial: seq<Capability>): SchedState {
      SchedState(procs[nextPid := NewProcess(nextPid).GrantAll(initial)], nextPid + 1, ready + [nextPid])
    }

    /** The parent's half of a spawn: the batch leaves its table, and it records a send. */
    function Endow(k: KernelState, parent: ProcessId, grants: seq<Grant>): Result<Endowment, SpawnError> {
      if parent !in procs then Err(UnknownProcess(parent))
      else
        var a :- RunBatch(k, procs[parent].table, grants).MapErr(e => BadGrant(e));
        var spawnedAt := LocalEvent(procs[parent].clock);
        Ok(Endowment(a.kernel, this.(procs := procs[parent := procs[parent].(table := a.table, clock := spawnedAt)]),
                     a.delivered, spawnedAt))
    }

    /** The child's half: its first event receives the spawn, and its table is what was delivered. */
    function Adopt(delivered: seq<Capability>, spawnedAt: Stamp): SchedState {
      var child := NewProcess(nextPid);
      var born := child.(clock := ReceiveEvent(child.clock, spawnedAt)).GrantAll(delivered);
      SchedState(procs[nextPid := born], nextPid + 1, ready + [nextPid])
    }

    function SpawnChild(k: KernelState, parent: ProcessId, grants: seq<Grant>): Result<(KernelState, SchedState), SpawnError> {
      var e :- Endow(k, parent, grants);
      Ok((e.kernel, e.sched.Adopt(e.delivered, e.spawnedAt)))
    }

    /** The process at the front runs, and goes to the back. */
    function Rotate(): SchedState
      requires ready != []
    {
      this.(ready := ready[1..] + [ready[0]])
    }

    /** The queue lists exactly the existing processes, each once; ids are handed out in order. */
    ghost predicate Fair() {
      && (forall p :: p in procs ==> p < nextPid)
      && (forall p: ProcessId :: p in procs <==> p in ready)
      && (forall i, j :: 0 <= i < j < |ready| ==> ready[i] != ready[j])
    }
  }

  /** A spawn between its two halves. */
  datatype Endowment = Endowment(kernel: KernelState, sched: SchedState, delivered: seq<Capability>, spawnedAt: Stamp)

  /** A spawn succeeds exactly with a parent and an admissible batch, and says which was missing. The child
      gets an id nobody has had, exactly what the batch delivers under the handles 0, 1, ... in order, and a
      first event that receives the parent's; nobody else changes. */
  lemma SpawnMeans(s: SchedState, k: KernelState, parent: ProcessId, grants: seq<Grant>)
    requires |grants| < HANDLE_LIMIT && s.nextPid !in s.procs
    ensures var r := s.SpawnChild(k, parent, grants);
            && (r.Ok? <==> parent in s.procs && Admissible(k, s.procs[parent].table, grants))
            && (parent !in s.procs ==> r == Err(UnknownProcess(parent)))
            && (parent in s.procs && r.Err? ==> r.error.BadGrant? && Err(r.error.grant) == Resolve(k, s.procs[parent].table, grants))
            && (r.Ok? ==>
                  var (k', s') := r.value; var p, child := s.procs[parent], s.nextPid;
                  var a := Effect(k, p.table, grants, |grants|);
                  && k' == a.kernel && s'.nextPid == child + 1 && s'.ready == s.ready + [child]
                  && s'.procs.Keys == s.procs.Keys + {child}
                  && s'.procs[parent] == p.(table := a.table, clock := LocalEvent(p.clock))
                  && ListsOut(s'.procs[child].table, a.delivered)
                  && s'.procs[child].clock == ReceiveEvent(NewClock(child), LocalEvent(p.clock))
                  && forall q :: q in s.procs && q != parent ==> s'.procs[q] == s.procs[q])
  {
    if parent in s.procs {
      BatchEffect(k, s.procs[parent].table, grants);
      ResolveIffAdmissible(k, s.procs[parent].table, grants);
      if Admissible(k, s.procs[parent].table, grants) {
        var child := NewProcess(s.nextPid);
        GrantToNew(child.(clock := ReceiveEvent(child.clock, LocalEvent(s.procs[parent].clock))),
                   Effect(k, s.procs[parent].table, grants, |grants|).delivered);
      }
    }
  }

  /** A root process holds exactly what it is given, in order, and has had no event. */
  lemma RootMeans(s: SchedState, initial: seq<Capability>)
    requires |initial| < HANDLE_LIMIT && s.nextPid !in s.procs
    ensures var s', child := s.Spawn(initial), s.nextPid;
            && s'.procs.Keys == s.procs.Keys + {child} && ListsOut(s'.procs[child].table, initial)
            && s'.procs[child].clock == NewClock(child) && (forall q :: q in s.procs ==> s'.procs[q] == s.procs[q])
            && s'.nextPid == child + 1 && s'.ready == s.ready + [child]
  {
    GrantToNew(NewProcess(s.nextPid), initial);
  }

  const EMPTY_SCHEDULER: SchedState := SchedState(map[], 0, [])

  // ---- bounded waiting ----

  datatype SchedOp =
    | Spawning(initial: seq<Capability>)
    | SpawningChild(k: KernelState, parent: ProcessId, grants: seq<Grant>)
    | Next

  function SchedStep(s: SchedState, op: SchedOp): SchedState {
    match op
    case Spawning(initial) => s.Spawn(initial)
    case SpawningChild(k, parent, grants) =>
      (match s.SpawnChild(k, parent, grants) case Err(_) => s case Ok(r) => r.1)
    case Next => if s.ready == [] then s else s.Rotate()
  }

  function SchedRun(s: SchedState, ops: seq<SchedOp>): SchedState
    decreases |ops|
  {
    if ops == [] then s else SchedRun(SchedStep(s, ops[0]), ops[1..])
  }

  function CountNext(ops: seq<SchedOp>): nat {
    if ops == [] then 0 else (if ops[0].Next? then 1 else 0) + CountNext(ops[1..])
  }

  lemma {:induction false} StepKeepsFair(s: SchedState, op: SchedOp)
    requires s.Fair()
    ensures SchedStep(s, op).Fair()
  {
    var s' := SchedStep(s, op);
    if op.Next? {
      if s.ready != [] {
        assert s.ready == [s.ready[0]] + s.ready[1..];
        forall p ensures p in s'.ready <==> p in s.ready {
        }
      }
    } else if s' != s {
      assert s'.ready == s.ready + [s.nextPid];
      assert s.nextPid !in s.ready;
    }
  }

  /** Every run from the empty scheduler leaves a queue listing exactly the processes, each once. */
  lemma {:induction false} RunKeepsFair(s: SchedState, ops: seq<SchedOp>)
    requires s.Fair()
    ensures SchedRun(s, ops).Fair()
    decreases |ops|
  {
    if ops != [] {
      StepKeepsFair(s, ops[0]);
      RunKeepsFair(SchedStep(s, ops[0]), ops[1..]);
    }
  }

  /** One step moves a waiting process forward exactly when the scheduler hands out a turn. */
  lemma StepAdvances(s: SchedState, op: SchedOp, i: nat)
    requires i < |s.ready| && (op.Next? ==> i > 0)
    ensures var j := if op.Next? then i - 1 else i;
            j < |SchedStep(s, op).ready| && SchedStep(s, op).ready[j] == s.ready[i]
  {
  }

  /** Bounded waiting: the process at position `i` is the one the `(i + 1)`-th following turn goes
      to, however many spawns happen in between. */
  lemma {:induction false} BoundedWaiting(s: SchedState, ops: seq<SchedOp>, i: nat)
    requires i < |s.ready| && CountNext(ops) <= i
    ensures var j := i - CountNext(ops);
            j < |SchedRun(s, ops).ready| && SchedRun(s, ops).ready[j] == s.ready[i]
    decreases |ops|
  {
    if ops != [] {
      StepAdvances(s, ops[0], i);
      BoundedWaiting(SchedStep(s, ops[0]), ops[1..], if ops[0].Next? then i - 1 else i);
    }
  }

  // ---- the scheduler object ----

  class Scheduler {
    var processes: map<ProcessId, Process>
    var nextPid: nat
    var ready: seq<ProcessId>

    /** The objects of every process. */
    ghost var Repr: set<object>

    /** Every process knows its own id, so no two entries are the same object. */
    ghost predicate Valid()
      reads this
    {
      && this !in Repr
      && (forall p :: p in processes ==> p < nextPid && processes[p].id == p && processes[p] in Repr)
    }

    ghost function View(): SchedState
      requires Valid()
      reads this, Repr
    {
      SchedState(map p | p in processes :: processes[p].View(), nextPid, ready)
    }

    constructor ()
      ensures Valid() && Repr == {} && View() == EMPTY_SCHEDULER
    {
      processes, nextPid, ready, Repr := map[], 0, [], {};
    }

    /** Enters a new process object; the existing ones are untouched. */
    method Admit(proc: Process)
      requires Valid() && proc.id == nextPid
      requires proc !in Repr
      modifies this
      ensures Valid() && Repr == old(Repr) + {proc}
      ensures View() == SchedState(old(View()).procs[old(nextPid) := proc.View()], old(nextPid) + 1, old(ready) + [old(nextPid)])
    {
      ready := ready + [nextPid];
      processes := processes[nextPid := proc];
      nextPid := nextPid + 1;
      Repr := Repr + {proc};
    }

    method Spawn(initial: seq<Capability>) returns (pid: ProcessId)
      requires Valid()
      modifies this
      ensures Valid() && fresh(Repr - old(Repr))
      ensures View() == old(View()).Spawn(initial) && pid == old(nextPid)
    {
      pid := nextPid;
      var proc := new Process(pid);
      var _ := proc.GrantEach(initial);
      Admit(proc);
    }

    method Endow(kernel: Kernel, parent: ProcessId, grants: seq<Grant>)
      returns (r: Result<(seq<Capability>, Stamp), SpawnError>)
      requires Valid() && kernel !in Repr
      modifies Repr, kernel`epochs
      ensures Valid()
      ensures var e := old(View().Endow(kernel.View(), parent, grants));
              if e.Err? then r == Err(e.error) && View() == old(View()) && kernel.View() == old(kernel.View())
              else r == Ok((e.value.delivered, e.value.spawnedAt)) && View() == e.value.sched && kernel.View() == e.value.kernel
    {
      if parent !in processes {
        return Err(UnknownProcess(parent));
      }
      var proc := processes[parent];
      var resolved := ResolveGrants(kernel, proc, grants);
      if resolved.Err? {
        return Err(BadGrant(resolved.error));
      }
      BatchEffect(kernel.View(), proc.table, grants);
      var delivered := ApplyGrants(kernel, proc, grants, resolved.value);
      var spawnedAt := proc.RecordSend();
      assert View().procs == old(View()).procs[parent := proc.View()];
      r := Ok((delivered, spawnedAt));
    }

    /** All or nothing: a rejected spawn changes no table, no clock and no epoch. */
    method SpawnChild(kernel: Kernel, parent: ProcessId, grants: seq<Grant>) returns (r: Result<ProcessId, SpawnError>)
      requires Valid() && kernel !in Repr && kernel as object != this
      modifies this, Repr, kernel`epochs
      ensures Valid() && fresh(Repr - old(Repr))
      ensures var s := old(View().SpawnChild(kernel.View(), parent, grants));
              if s.Err? then r == Err(s.error) && View() == old(View()) && kernel.View() == old(kernel.View())
              else r == Ok(old(nextPid)) && View() == s.value.1 && kernel.View() == s.value.0
    {
      var endowed := Endow(kernel, parent, grants);
      if endowed.Err? {
        return Err(endowed.error);
      }
      r := Ok(nextPid);
      Bear(endowed.value.0, endowed.value.1);
    }

    method Bear(delivered: seq<Capability>, spawnedAt: Stamp)
      requires Valid()
      modifies this
      ensures Valid() && fresh(Repr - old(Repr))
      ensures View() == old(View()).Adopt(delivered, spawnedAt)
    {
      var child := new Process(nextPid);
      var _ := child.RecordReceive(spawnedAt);
      var _ := child.GrantEach(delivered);
      Admit(child);
    }

    method ScheduleNext() returns (pid: Option<ProcessId>)
      modifies this`ready
      ensures old(ready) == [] ==> pid == None && ready == []
      ensures old(ready) != [] ==> pid == Some(old(ready)[0]) && ready == old(ready)[1..] + [old(ready)[0]]
    {
      if ready == [] {
        return None;
      }
      pid := Some(ready[0]);
      ready := ready[1..] + [ready[0]];
    }
  }
}
