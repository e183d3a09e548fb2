/** What the step system does to the clocks: every run records a log its stamps describe exactly. */
module MachineCausality {
  import opened Wrappers
  import opened Capabilities
  import opened Clocks
  import opened Processes
  import opened Transfers
  import opened Channels
  import opened Scheduling
  import opened Causality
  import opened Machine

  /** The events so far, and for every queued message the event that sent it. */
  datatype Chronicle = Chronicle(log: Log, sends: map<ObjectId, seq<nat>>)

  const UNWRITTEN: Chronicle := Chronicle([], map[])

  ghost predicate QueueDated(q: seq<Message>, sends: seq<nat>, log: Log) {
    |q| == |sends| && forall n :: 0 <= n < |q| ==> sends[n] < |log| && q[n].sentAt == log[sends[n]].stamp
  }

  /** Every process's clocks show its latest event, and a process that does not exist yet has none. */
  ghost predicate ClocksDated(procs: map<ProcessId, ProcState>, next: ProcessId, log: Log) {
    && (forall p :: p in procs ==> p < next && procs[p].clock == ClockOf(log, p, |log|))
    && (forall p :: p >= next ==> ClockOf(log, p, |log|) == NewClock(p))
  }

  /** Every message carries the stamp of the event that sent it. */
  ghost predicate QueuesDated(queues: Queues, sends: map<ObjectId, seq<nat>>, log: Log) {
    forall o :: o in queues ==> o in sends && QueueDated(queues[o], sends[o], log)
  }

  ghost predicate Dated(s: Sys, c: Chronicle) {
    Recorded(c.log) && ClocksDated(s.sched.procs, s.sched.nextPid, c.log) && QueuesDated(s.queues, c.sends, c.log)
  }

  /** A stamp can only be obtained from an event. */
  ghost predicate Witnessed(c: Chronicle, op: Op) {
    op.Observe? ==> exists i :: 0 <= i < |c.log| && c.log[i].stamp == op.sent
  }

  /** The event that stamped `sent`. */
  ghost function EventOf(c: Chronicle, sent: Stamp): (i: nat)
    ensures (exists k :: 0 <= k < |c.log| && c.log[k].stamp == sent) ==> i < |c.log| && c.log[i].stamp == sent
  {
    if k :| 0 <= k < |c.log| && c.log[k].stamp == sent then k else 0
  }

  /** The events an operation adds, and what it does to the dates of the queues. */
  ghost function Chronicled(s: Sys, c: Chronicle, op: Op): Chronicle {
    match op
    case MakeChannel => c.(sends := c.sends[s.kernel.nextId := []])
    case Local(p) =>
      if p in s.sched.procs then Noted(s, c, p, None) else c
    case Observe(p, sent) =>
      if p in s.sched.procs then Noted(s, c, p, Some(EventOf(c, sent))) else c
    case SendOn(channel, p, grants, data) =>
      if p in s.sched.procs && SendOutcome(s.kernel, s.queues, channel, s.sched.procs[p], grants, data).Ok? &&
         channel.obj in c.sends
      then Noted(s, c, p, None).(sends := c.sends[channel.obj := c.sends[channel.obj] + [|c.log|]])
      else c
    case ReceiveOn(channel, p) =>
      if p in s.sched.procs && channel.obj in c.sends && c.sends[channel.obj] != [] &&
         ReceiveOutcome(s.kernel, s.queues, channel, s.sched.procs[p]).Ok?
      then Noted(s, c, p, Some(c.sends[channel.obj][0])).(sends := c.sends[channel.obj := c.sends[channel.obj][1..]])
      else c
    case SpawnFrom(parent, grants) =>
      if s.sched.SpawnChild(s.kernel, parent, grants).Ok? then
        Noted(s, Noted(s, c, parent, None), s.sched.nextPid, Some(|c.log|))
      else c
    case _ => c
  }

  /** One more event at `p`, stamped by its clocks. */
  ghost function Noted(s: Sys, c: Chronicle, p: ProcessId, cause: Option<nat>): Chronicle {
    c.(log := c.log + [NextEvent(c.log, p, cause)])
  }

  function NextEvent(log: Log, p: ProcessId, cause: Option<nat>): Event {
    var clock := ClockOf(log, p, |log|);
    Event(p, cause, match cause
                    case None => LocalEvent(clock)
                    case Some(i) => if i < |log| then ReceiveEvent(clock, log[i].stamp) else LocalEvent(clock))
  }

  /** Noting an event keeps everything else dated. */
  lemma NotedKeeps(log: Log, p: ProcessId, cause: Option<nat>)
    requires Recorded(log) && (cause.Some? ==> cause.value < |log|)
    ensures var e := NextEvent(log, p, cause);
            && Recorded(log + [e])
            && forall q :: ClockOf(log + [e], q, |log| + 1) == if q == p then e.stamp else ClockOf(log, q, |log|)
  {
    RecordNext(log, NextEvent(log, p, cause));
  }

  /** An event at an existing process. */
  lemma ClocksAfterEvent(procs: map<ProcessId, ProcState>, next: ProcessId, log: Log, p: ProcessId, cause: Option<nat>, proc: ProcState)
    requires Recorded(log) && ClocksDated(procs, next, log) && p in procs && (cause.Some? ==> cause.value < |log|)
    requires proc.clock == NextEvent(log, p, cause).stamp
    ensures Recorded(log + [NextEvent(log, p, cause)]) && ClocksDated(procs[p := proc], next, log + [NextEvent(log, p, cause)])
  {
    NotedKeeps(log, p, cause);
    var after, longer := procs[p := proc], log + [NextEvent(log, p, cause)];
    forall q | q in after ensures q < next && after[q].clock == ClockOf(longer, q, |longer|) {
      if q != p {
        assert procs[q].clock == ClockOf(log, q, |log|);
      }
    }
  }

  /** The first event of a new process. */
  lemma ClocksAfterBirth(procs: map<ProcessId, ProcState>, next: ProcessId, log: Log, cause: nat, proc: ProcState)
    requires Recorded(log) && ClocksDated(procs, next, log) && cause < |log|
    requires proc.clock == NextEvent(log, next, Some(cause)).stamp
    ensures var e := NextEvent(log, next, Some(cause));
            Recorded(log + [e]) && ClocksDated(procs[next := proc], next + 1, log + [e])
  {
    NotedKeeps(log, next, Some(cause));
  }

  lemma QueuesStayDated(queues: Queues, sends: map<ObjectId, seq<nat>>, log: Log, e: Event)
    requires QueuesDated(queues, sends, log)
    ensures QueuesDated(queues, sends, log + [e])
  {
    forall o | o in queues ensures QueueDated(queues[o], sends[o], log + [e]) {
      assert QueueDated(queues[o], sends[o], log);
    }
  }

  lemma QueuesAfterSend(queues: Queues, sends: map<ObjectId, seq<nat>>, log: Log, e: Event, o: ObjectId, m: Message)
    requires QueuesDated(queues, sends, log) && o in queues && m.sentAt == e.stamp
    ensures QueuesDated(queues[o := queues[o] + [m]], sends[o := sends[o] + [|log|]], log + [e])
  {
    QueuesStayDated(queues, sends, log, e);
    assert QueueDated(queues[o], sends[o], log + [e]);
  }

  lemma QueuesAfterReceive(queues: Queues, sends: map<ObjectId, seq<nat>>, log: Log, e: Event, o: ObjectId)
    requires QueuesDated(queues, sends, log) && o in queues && queues[o] != []
    ensures sends[o] != [] && sends[o][0] < |log| && queues[o][0].sentAt == log[sends[o][0]].stamp
    ensures QueuesDated(queues[o := queues[o][1..]], sends[o := sends[o][1..]], log + [e])
  {
    QueuesStayDated(queues, sends, log, e);
    assert QueueDated(queues[o], sends[o], log) && QueueDated(queues[o], sends[o], log + [e]);
  }

  lemma {:induction false} EventDated(s: Sys, c: Chronicle, op: Op)
    requires Dated(s, c) && Witnessed(c, op) && (op.Local? || op.Observe?)
    ensures Dated(Step(s, op), Chronicled(s, c, op))
  {
    if op.p in s.sched.procs {
      var cause := if op.Local? then None else Some(EventOf(c, op.sent));
      ClocksAfterEvent(s.sched.procs, s.sched.nextPid, c.log, op.p, cause, Step(s, op).sched.procs[op.p]);
      QueuesStayDated(s.queues, c.sends, c.log, NextEvent(c.log, op.p, cause));
    }
  }

  lemma SendDated(s: Sys, c: Chronicle, op: Op)
    requires Dated(s, c) && op.SendOn?
    ensures Dated(Step(s, op), Chronicled(s, c, op))
  {
    if op.p in s.sched.procs && SendOutcome(s.kernel, s.queues, op.channel, s.sched.procs[op.p], op.grants, op.data).Ok? {
      var k, sender, m := SendIs(s, op);
      ClocksAfterEvent(s.sched.procs, s.sched.nextPid, c.log, op.p, None, sender);
      QueuesAfterSend(s.queues, c.sends, c.log, NextEvent(c.log, op.p, None), op.channel.obj, m);
    }
  }

  lemma {:induction false} ReceiveDated(s: Sys, c: Chronicle, op: Op)
    requires Dated(s, c) && op.ReceiveOn?
    ensures Dated(Step(s, op), Chronicled(s, c, op))
  {
    if op.p in s.sched.procs {
      var r, o := ReceiveOutcome(s.kernel, s.queues, op.channel, s.sched.procs[op.p]), op.channel.obj;
      if r.Ok? && r.value.Some? {
        assert QueueDated(s.queues[o], c.sends[o], c.log);
        var cause := Some(c.sends[o][0]);
        QueuesAfterReceive(s.queues, c.sends, c.log, NextEvent(c.log, op.p, cause), o);
        ClocksAfterEvent(s.sched.procs, s.sched.nextPid, c.log, op.p, cause, r.value.value.receiver);
      } else if o in s.queues {
        assert QueueDated(s.queues[o], c.sends[o], c.log);
      }
    }
  }

  /** The log after a spawn: the parent's send and the child's birth. */
  function SpawnLog(log: Log, parent: ProcessId, child: ProcessId): Log {
    var sent := log + [NextEvent(log, parent, None)];
    sent + [NextEvent(sent, child, Some(|log|))]
  }

  lemma EntriesDated(s: Sys, c: Chronicle, p: ProcessId, parent: ProcState, born: ProcState)
    requires Dated(s, c) && p in s.sched.procs && parent.clock == LocalEvent(s.sched.procs[p].clock)
    requires born.clock == ReceiveEvent(NewClock(s.sched.nextPid), parent.clock)
    ensures var child, log := s.sched.nextPid, SpawnLog(c.log, p, s.sched.nextPid);
            && Recorded(log) && ClocksDated(s.sched.procs[p := parent][child := born], child + 1, log)
            && QueuesDated(s.queues, c.sends, log)
  {
    var sent := NextEvent(c.log, p, None);
    ClocksAfterEvent(s.sched.procs, s.sched.nextPid, c.log, p, None, parent);
    QueuesStayDated(s.queues, c.sends, c.log, sent);
    BirthDated(s.sched.procs[p := parent], s.sched.nextPid, c.log + [sent], s.queues, c.sends, |c.log|, born);
  }

  lemma SpawnChronicled(s: Sys, c: Chronicle, op: Op)
    requires op.SpawnFrom? && s.sched.SpawnChild(s.kernel, op.parent, op.grants).Ok?
    ensures Chronicled(s, c, op) == c.(log := SpawnLog(c.log, op.parent, s.sched.nextPid))
  {
  }

  lemma SpawnedDated(s: Sys, c: Chronicle, op: Op)
    requires Dated(s, c) && op.SpawnFrom? && s.sched.SpawnChild(s.kernel, op.parent, op.grants).Ok?
    ensures Dated(Step(s, op), c.(log := SpawnLog(c.log, op.parent, s.sched.nextPid)))
  {
    var k, parent, delivered, born := SpawnIs(s, op);
    GrantAllCounter(Newborn(s.sched.nextPid, parent.clock), delivered);
    EntriesDated(s, c, op.parent, parent, born);
  }

  /** A spawn is two events: the parent's send, and the child's birth, which receives it. */
  lemma SpawnDated(s: Sys, c: Chronicle, op: Op)
    requires Dated(s, c) && op.SpawnFrom?
    ensures Dated(Step(s, op), Chronicled(s, c, op))
  {
    if s.sched.SpawnChild(s.kernel, op.parent, op.grants).Ok? {
      SpawnChronicled(s, c, op);
      SpawnedDated(s, c, op);
    }
  }

  lemma BirthDated(procs: map<ProcessId, ProcState>, next: ProcessId, log: Log, queues: Queues, sends: map<ObjectId, seq<nat>>,
                   cause: nat, proc: ProcState)
    requires Recorded(log) && ClocksDated(procs, next, log) && QueuesDated(queues, sends, log) && cause < |log|
    requires proc.clock == ReceiveEvent(NewClock(next), log[cause].stamp)
    ensures var longer := log + [NextEvent(log, next, Some(cause))];
            Recorded(longer) && ClocksDated(procs[next := proc], next + 1, longer) && QueuesDated(queues, sends, longer)
  {
    ClocksAfterBirth(procs, next, log, cause, proc);
    QueuesStayDated(queues, sends, log, NextEvent(log, next, Some(cause)));
  }

  lemma RootDated(s: Sys, c: Chronicle, op: Op)
    requires Dated(s, c) && op.SpawnRoot?
    ensures Dated(Step(s, op), Chronicled(s, c, op))
  {
    GrantAllCounter(NewProcess(s.sched.nextPid), op.initial);
  }

  /** Only events and processes are dated. */
  lemma KernelDated(s: Sys, c: Chronicle, op: Op)
    requires Dated(s, c)
    requires op.MakeObject? || op.RevokeObject? || op.ReissueObject? || op.DeriveView? || op.DestroyObject? || op.MakeChannel?
    ensures Dated(Step(s, op), Chronicled(s, c, op))
  {
  }

  lemma TablesDated(s: Sys, c: Chronicle, op: Op)
    requires Dated(s, c) && (op.Schedule? || op.Give? || op.Drop?)
    ensures Dated(Step(s, op), Chronicled(s, c, op))
  {
  }

  lemma MemoryDated(s: Sys, c: Chronicle, op: Op)
    requires Dated(s, c) && (op.MakeRegion? || op.WriteTo? || op.UpdateIn? || op.DestroyIn? || op.Reclaim?)
    ensures Dated(Step(s, op), Chronicled(s, c, op))
  {
  }

  /** Every operation keeps the clocks and the messages dated by the log. */
  lemma StepDated(s: Sys, c: Chronicle, op: Op)
    requires Dated(s, c) && Witnessed(c, op)
    ensures Dated(Step(s, op), Chronicled(s, c, op))
  {
    match op
    case SendOn(_, _, _, _) => SendDated(s, c, op);
    case ReceiveOn(_, _) => ReceiveDated(s, c, op);
    case SpawnFrom(_, _) => SpawnDated(s, c, op);
    case Local(_) => EventDated(s, c, op);
    case Observe(_, _) => EventDated(s, c, op);
    case SpawnRoot(_) => RootDated(s, c, op);
    case Schedule => TablesDated(s, c, op);
    case Give(_, _) => TablesDated(s, c, op);
    case Drop(_, _) => TablesDated(s, c, op);
    case MakeRegion(_) => MemoryDated(s, c, op);
    case WriteTo(_, _, _) => MemoryDated(s, c, op);
    case UpdateIn(_, _) => MemoryDated(s, c, op);
    case DestroyIn(_) => MemoryDated(s, c, op);
    case Reclaim => MemoryDated(s, c, op);
    case _ => KernelDated(s, c, op);
  }
}
