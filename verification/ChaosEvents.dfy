/** The harness's event graph is the true one: its stamps and predecessor lists are those of a log the
    run records. */
module ChaosEvents {
  import opened Wrappers
  import opened Clocks
  import opened Processes
  import opened Causality
  import opened Checker
  import opened Chaos
  import MC = MachineCausality

  /** The recorded events are the log, and every process's last event and clocks are the log's. */
  ghost predicate EventsMatch(ev: Events, procs: map<ProcessId, ProcState>, next: ProcessId, log: Log) {
    && Recorded(log) && MC.ClocksDated(procs, next, log)
    && ev.stamps == StampsOf(log) && ev.preds == AllPreds(log)
    && |ev.last| == next && (forall p: nat :: p < next ==> ev.last[p] == LastOf(log, p, |log|))
  }

  lemma PredsKept(log: Log, e: Event)
    ensures AllPreds(log + [e]) == AllPreds(log) + [PredsOf(log + [e], |log|)]
    ensures StampsOf(log + [e]) == StampsOf(log) + [e.stamp]
  {
    var longer := log + [e];
    forall j: nat | j < |log| ensures PredsOf(longer, j) == PredsOf(log, j) {
      LastOfPrefix(log, [e], log[j].process, j);
    }
    assert AllPreds(longer) == AllPreds(log) + [PredsOf(longer, |log|)];
    assert StampsOf(longer) == StampsOf(log) + [e.stamp];
  }

  function CauseList(cause: Option<nat>): seq<nat> {
    match cause case Some(s) => [s] case None => []
  }

  /** Recording the next event in the harness is recording it in the log. */
  lemma {:induction false} RecordMatches(ev: Events, log: Log, next: nat, p: nat, cause: Option<nat>)
    requires Recorded(log) && (cause.Some? ==> cause.value < |log|) && p < next
    requires ev.stamps == StampsOf(log) && ev.preds == AllPreds(log) && |ev.last| == next
    requires forall q: nat :: q < next ==> ev.last[q] == LastOf(log, q, |log|)
    ensures var e := MC.NextEvent(log, p, cause); var longer := log + [e];
            var ev' := Chaos.Record(ev, p, e.stamp, CauseList(cause));
            && ev'.stamps == StampsOf(longer) && ev'.preds == AllPreds(longer) && |ev'.last| == next
            && forall q: nat :: q < next ==> ev'.last[q] == LastOf(longer, q, |longer|)
  {
    var e := MC.NextEvent(log, p, cause);
    PredsKept(log, e);
    LastOfPrefix(log, [e], p, |log|);
    forall q: nat | q < next && q != p ensures LastOf(log + [e], q, |log| + 1) == LastOf(log, q, |log|) {
      LastOfPrefix(log, [e], q, |log|);
    }
  }

  /** An event at an existing process. */
  lemma EventMatches(ev: Events, procs: map<ProcessId, ProcState>, next: ProcessId, log: Log, p: nat, cause: Option<nat>, proc: ProcState)
    requires EventsMatch(ev, procs, next, log) && p in procs && p < next && (cause.Some? ==> cause.value < |log|)
    requires proc.clock == MC.NextEvent(log, p, cause).stamp
    ensures EventsMatch(Chaos.Record(ev, p, proc.clock, CauseList(cause)), procs[p := proc], next, log + [MC.NextEvent(log, p, cause)])
  {
    RecordMatches(ev, log, next, p, cause);
    MC.ClocksAfterEvent(procs, next, log, p, cause, proc);
  }

  lemma EventsShow(log: Log, p: ProcessId, n: nat)
    requires Recorded(log) && n <= |log| && LastOf(log, p, n).Some?
    ensures Get(ClockOf(log, p, n).vector, p) > 0
  {
    var k := LastOf(log, p, n).value;
    EntryBounds(log, k, p);
    CountGrows(log, p, 0, k + 1);
  }

  lemma NoEventsYet(log: Log, p: ProcessId, n: nat)
    requires Recorded(log) && n <= |log| && ClockOf(log, p, n) == NewClock(p)
    ensures LastOf(log, p, n) == None
  {
    if LastOf(log, p, n).Some? {
      EventsShow(log, p, n);
    }
  }

  /** The birth of the next process, received from the event just recorded. */
  lemma BirthMatches(ev: Events, procs: map<ProcessId, ProcState>, next: ProcessId, log: Log, cause: nat, proc: ProcState)
    requires EventsMatch(ev, procs, next, log) && cause < |log|
    requires proc.clock == MC.NextEvent(log, next, Some(cause)).stamp
    ensures EventsMatch(Chaos.Record(ev.(last := ev.last + [None]), next, proc.clock, [cause]), procs[next := proc], next + 1,
                        log + [MC.NextEvent(log, next, Some(cause))])
  {
    NoEventsYet(log, next, |log|);
    RecordMatches(ev.(last := ev.last + [None]), log, next + 1, next, Some(cause));
    MC.ClocksAfterBirth(procs, next, log, cause, proc);
  }

  /** The end-of-run check passes on whatever the harness has recorded. */
  lemma CheckPasses(ev: Events, procs: map<ProcessId, ProcState>, next: ProcessId, log: Log)
    requires EventsMatch(ev, procs, next, log)
    ensures |ev.stamps| == |ev.preds| && Backward(ev.preds)
    ensures forall i: nat, j: nat :: i < |ev.stamps| && j < |ev.stamps| && i != j ==> Agrees(ev.stamps, ev.preds, i, j)
  {
    RecordedBackward(log);
    forall i: nat, j: nat | i < |log| && j < |log| && i != j ensures Agrees(ev.stamps, ev.preds, i, j) {
      RecordedRunsPass(log, i, j);
    }
  }
}
