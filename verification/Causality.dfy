/** The event graph of a run, and the proof that stamps characterise it exactly. */
module Causality {
  import opened Wrappers
  import opened Clocks

  /** One recorded event: where it happened, the send it received if it is a receive or a birth, and
      the stamp its process's clocks gave it. */
  datatype Event = Event(process: ProcessId, cause: Option<nat>, stamp: Stamp)

  type Log = seq<Event>

  /** The latest event of process `p` among the first `n`. */
  function LastOf(log: Log, p: ProcessId, n: nat): (r: Option<nat>)
    requires n <= |log|
    ensures r.Some? ==> r.value < n && log[r.value].process == p
    ensures r.None? ==> forall k :: 0 <= k < n ==> log[k].process != p
    ensures r.Some? ==> forall k :: r.value < k < n ==> log[k].process != p
  {
    if n == 0 then None
    else if log[n - 1].process == p then Some(n - 1)
    else LastOf(log, p, n - 1)
  }

  /** The clocks of process `p` after the first `n` events: the stamp of its latest one. */
  function ClockOf(log: Log, p: ProcessId, n: nat): Stamp
    requires n <= |log|
  {
    match LastOf(log, p, n)
    case None => NewClock(p)
    case Some(k) => log[k].stamp
  }

  /** Event `i` was stamped by its process's clocks: a receive merges the stamp of its send. */
  predicate Stamped(log: Log, i: nat)
    requires i < |log|
  {
    var e := log[i];
    var clock := ClockOf(log, e.process, i);
    match e.cause
    case None => e.stamp == LocalEvent(clock)
    case Some(s) => s < i && e.stamp == ReceiveEvent(clock, log[s].stamp)
  }

  /** A log a run can record. */
  ghost predicate Recorded(log: Log) {
    forall i: nat :: i < |log| ==> Stamped(log, i)
  }

  // ---- the true causal order ----

  /** An edge of the event graph: the next event of the same process, or a send and its receive. */
  predicate Edge(log: Log, i: nat, j: nat)
    requires i < |log| && j < |log|
  {
    i < j && (log[j].cause == Some(i) || LastOf(log, log[j].process, j) == Some(i))
  }

  ghost predicate Path(log: Log, via: seq<nat>) {
    && |via| >= 2
    && (forall k :: 0 <= k < |via| ==> via[k] < |log|)
    && (forall k :: 0 <= k < |via| - 1 ==> Edge(log, via[k], via[k + 1]))
  }

  /** Ground truth: there is a path of program order and messages from `i` to `j`. */
  ghost predicate Leads(log: Log, i: nat, j: nat) {
    exists via :: Path(log, via) && via[0] == i && via[|via| - 1] == j
  }

  /** An event and everything before it, computed backwards. */
  function Past(log: Log, j: nat): (s: set<nat>)
    requires j < |log|
    ensures j in s && forall i :: i in s ==> i <= j
    decreases j
  {
    var own := LastOf(log, log[j].process, j);
    {j} + (if own.Some? then Past(log, own.value) else {}) +
    (match log[j].cause
     case Some(s) => if s < j then Past(log, s) else {}
     case None => {})
  }

  lemma PathsAscend(log: Log, via: seq<nat>)
    requires Path(log, via)
    ensures via[0] < via[|via| - 1]
    decreases |via|
  {
    var n := |via|;
    assert Edge(log, via[n - 2], via[n - 2 + 1]);
    if n > 2 {
      assert Path(log, via[..n - 1]);
      PathsAscend(log, via[..n - 1]);
    }
  }

  lemma {:induction false} PathInPast(log: Log, via: seq<nat>)
    requires Path(log, via)
    ensures via[0] in Past(log, via[|via| - 1])
    decreases |via|
  {
    var n := |via|;
    assert Edge(log, via[n - 2], via[n - 2 + 1]);
    if n > 2 {
      assert Path(log, via[..n - 1]);
      PathInPast(log, via[..n - 1]);
      PastTransitive(log, via[0], via[n - 2], via[n - 1]);
    }
  }

  lemma {:induction false} PastTransitive(log: Log, i: nat, j: nat, k: nat)
    requires k < |log| && j in Past(log, k) && i in Past(log, j)
    ensures i in Past(log, k)
    decreases k
  {
    if j != k {
      var own := LastOf(log, log[k].process, k);
      if own.Some? && j in Past(log, own.value) {
        PastTransitive(log, i, j, own.value);
      } else {
        PastTransitive(log, i, j, log[k].cause.value);
      }
    }
  }

  lemma {:induction false} PastHasPath(log: Log, i: nat, j: nat)
    requires j < |log| && i in Past(log, j) && i != j
    ensures Leads(log, i, j)
    decreases j
  {
    var own := LastOf(log, log[j].process, j);
    var k := if own.Some? && i in Past(log, own.value) then own.value else log[j].cause.value;
    assert Edge(log, k, j);
    if i == k {
      assert Path(log, [i, j]);
    } else {
      PastHasPath(log, i, k);
      var via :| Path(log, via) && via[0] == i && via[|via| - 1] == k;
      assert Path(log, via + [j]);
    }
  }

  /** The past is exactly what leads to an event. */
  lemma PastIsGroundTruth(log: Log, i: nat, j: nat)
    requires j < |log|
    ensures Leads(log, i, j) <==> i in Past(log, j) && i != j
  {
    if Leads(log, i, j) {
      var via :| Path(log, via) && via[0] == i && via[|via| - 1] == j;
      PathsAscend(log, via);
      PathInPast(log, via);
    }
    if i in Past(log, j) && i != j {
      PastHasPath(log, i, j);
    }
  }

  // ---- what the vector entries are ----

  /** How many of the first `n` events happened at `q`. */
  function CountAt(log: Log, q: ProcessId, n: nat): nat
    requires n <= |log|
  {
    if n == 0 then 0 else CountAt(log, q, n - 1) + if log[n - 1].process == q then 1 else 0
  }

  lemma {:induction false} CountFromLast(log: Log, q: ProcessId, n: nat)
    requires n <= |log|
    ensures var k := LastOf(log, q, n);
            CountAt(log, q, n) == if k.Some? then CountAt(log, q, k.value + 1) else 0
  {
    if n > 0 && log[n - 1].process != q {
      CountFromLast(log, q, n - 1);
    }
  }

  lemma {:induction false} CountGrows(log: Log, q: ProcessId, m: nat, n: nat)
    requires m <= n <= |log|
    ensures CountAt(log, q, m) <= CountAt(log, q, n)
    ensures (exists k :: m <= k < n && log[k].process == q) ==> CountAt(log, q, m) < CountAt(log, q, n)
    decreases n
  {
    if m < n {
      CountGrows(log, q, m, n - 1);
    }
  }

  lemma {:induction false} StampProcess(log: Log, i: nat)
    requires Recorded(log) && i < |log|
    ensures log[i].stamp.process == log[i].process
    decreases i
  {
    assert Stamped(log, i);
    var own := LastOf(log, log[i].process, i);
    if own.Some? {
      StampProcess(log, own.value);
    }
  }

  /** What process `p` knew of `q` before event `i`, from its own last event or the send it receives. */
  function Heard(log: Log, i: nat, q: ProcessId): nat
    requires i < |log|
  {
    var own, cause := LastOf(log, log[i].process, i), log[i].cause;
    Max(if own.Some? then Get(log[own.value].stamp.vector, q) else 0,
        if cause.Some? && cause.value < i then Get(log[cause.value].stamp.vector, q) else 0)
  }

  lemma StampEntry(log: Log, i: nat, q: ProcessId)
    requires Recorded(log) && i < |log|
    ensures Get(log[i].stamp.vector, q) == Heard(log, i, q) + if q == log[i].process then 1 else 0
  {
    assert Stamped(log, i);
    var own := LastOf(log, log[i].process, i);
    if own.Some? {
      StampProcess(log, own.value);
    }
    var clock := ClockOf(log, log[i].process, i);
    assert clock.process == log[i].process;
    if log[i].cause.Some? {
      GetMerged(clock.vector, log[log[i].cause.value].stamp.vector, q);
    }
  }

  /** No entry exceeds the number of events there have been; a process's own entry is that number. */
  lemma {:induction false} EntryBounds(log: Log, i: nat, q: ProcessId)
    requires Recorded(log) && i < |log|
    ensures Get(log[i].stamp.vector, q) <= CountAt(log, q, i + 1)
    ensures Get(log[i].stamp.vector, log[i].process) == CountAt(log, log[i].process, i + 1)
    decreases i, if q == log[i].process then 0 else 1
  {
    var p, own, cause := log[i].process, LastOf(log, log[i].process, i), log[i].cause;
    assert Stamped(log, i);
    StampEntry(log, i, p);
    CountFromLast(log, p, i);
    if own.Some? {
      EntryBounds(log, own.value, p);
    }
    if cause.Some? {
      EntryBounds(log, cause.value, p);
      CountGrows(log, p, cause.value + 1, i);
    }
    if q != p {
      StampEntry(log, i, q);
      if own.Some? {
        EntryBounds(log, own.value, q);
        CountGrows(log, q, own.value + 1, i);
      }
      if cause.Some? {
        EntryBounds(log, cause.value, q);
        CountGrows(log, q, cause.value + 1, i);
      }
    }
  }

  /** The earlier of two events of one process is in the later one's past. */
  lemma {:induction false} ProgramOrder(log: Log, i: nat, j: nat)
    requires i <= j < |log| && log[i].process == log[j].process
    ensures i in Past(log, j)
    decreases j
  {
    if i < j {
      ProgramOrder(log, i, LastOf(log, log[j].process, j).value);
    }
  }

  /** The core invariant: event `j` has seen event `i` exactly when its entry for `i`'s process has
      reached `i`. */
  lemma {:induction false} KnowsExactly(log: Log, i: nat, j: nat)
    requires Recorded(log) && i < |log| && j < |log|
    ensures i in Past(log, j) <==> Get(log[i].stamp.vector, log[i].process) <= Get(log[j].stamp.vector, log[i].process)
    decreases j
  {
    var q, own, cause := log[i].process, LastOf(log, log[j].process, j), log[j].cause;
    assert Stamped(log, j);
    EntryBounds(log, i, q);
    EntryBounds(log, j, q);
    if j < i {
      CountGrows(log, q, j + 1, i + 1);
    } else if i < j {
      if q == log[j].process {
        ProgramOrder(log, i, j);
        CountGrows(log, q, i + 1, j + 1);
      } else {
        StampEntry(log, j, q);
        CountGrows(log, q, 0, i + 1);
        if own.Some? {
          KnowsExactly(log, i, own.value);
        }
        if cause.Some? {
          KnowsExactly(log, i, cause.value);
        }
      }
    }
  }

  // ---- each entry counts the events of that process in the past ----

  /** The events of `q` among the first `n` that are at most the `m`-th of `q`. */
  function FirstEvents(log: Log, q: ProcessId, m: nat, n: nat): set<nat>
    requires n <= |log|
  {
    if n == 0 then {}
    else FirstEvents(log, q, m, n - 1) + if log[n - 1].process == q && CountAt(log, q, n) <= m then {n - 1} else {}
  }

  lemma {:induction false} FirstEventsAre(log: Log, q: ProcessId, m: nat, n: nat)
    requires n <= |log|
    ensures forall i :: i in FirstEvents(log, q, m, n) <==> 0 <= i < n && log[i].process == q && CountAt(log, q, i + 1) <= m
  {
    if n > 0 {
      FirstEventsAre(log, q, m, n - 1);
    }
  }

  lemma OneMore(s: set<nat>, n: nat)
    requires n !in s
    ensures |s + {n}| == |s| + 1
  {
  }

  lemma {:induction false} FirstEventsCount(log: Log, q: ProcessId, m: nat, n: nat)
    requires n <= |log|
    ensures |FirstEvents(log, q, m, n)| == if m < CountAt(log, q, n) then m else CountAt(log, q, n)
  {
    if n > 0 {
      FirstEventsCount(log, q, m, n - 1);
      FirstEventsAre(log, q, m, n - 1);
      var before := FirstEvents(log, q, m, n - 1);
      OneMore(before, n - 1);
    }
  }

  /** The events of process `q` that event `j` has seen. */
  function SeenAt(log: Log, j: nat, q: ProcessId): set<nat>
    requires j < |log|
  {
    set i | i in Past(log, j) && log[i].process == q
  }

  /** Entry `q` of an event's vector is how many events of `q` are in its causal past, itself included. */
  lemma EntryCountsPast(log: Log, j: nat, q: ProcessId)
    requires Recorded(log) && j < |log|
    ensures Get(log[j].stamp.vector, q) == |SeenAt(log, j, q)|
  {
    var m := Get(log[j].stamp.vector, q);
    FirstEventsAre(log, q, m, |log|);
    FirstEventsCount(log, q, m, |log|);
    EntryBounds(log, j, q);
    CountGrows(log, q, j + 1, |log|);
    forall i: nat ensures i in SeenAt(log, j, q) <==> i in FirstEvents(log, q, m, |log|) {
      if i < |log| && log[i].process == q {
        KnowsExactly(log, i, j);
        EntryBounds(log, i, q);
      }
    }
    assert SeenAt(log, j, q) == FirstEvents(log, q, m, |log|);
  }

  // ---- stamps decide causality ----

  lemma {:induction false} PastIsBelow(log: Log, i: nat, j: nat)
    requires Recorded(log) && j < |log| && i in Past(log, j)
    ensures AtMost(log[i].stamp.vector, log[j].stamp.vector)
    decreases j
  {
    if i != j {
      var own, cause := LastOf(log, log[j].process, j), log[j].cause;
      assert Stamped(log, j);
      var k := if own.Some? && i in Past(log, own.value) then own.value else cause.value;
      PastIsBelow(log, i, k);
      forall q ensures Get(log[k].stamp.vector, q) <= Get(log[j].stamp.vector, q) {
        StampEntry(log, j, q);
      }
      AtMostTransitive(log[i].stamp.vector, log[k].stamp.vector, log[j].stamp.vector);
    }
  }

  /** Vector clocks are exact: for distinct events, one stamp happened before the other if and only if
      there is a path of program order, messages and births between the events. */
  lemma StampsAreExact(log: Log, i: nat, j: nat)
    requires Recorded(log) && i < |log| && j < |log| && i != j
    ensures HappenedBefore(log[i].stamp, log[j].stamp) <==> Leads(log, i, j)
  {
    PastIsGroundTruth(log, i, j);
    KnowsExactly(log, i, j);
    KnowsExactly(log, j, i);
    if i in Past(log, j) {
      PastIsBelow(log, i, j);
    }
  }

  /** The clock condition: Lamport time grows along every path. */
  lemma {:induction false} LamportGrows(log: Log, i: nat, j: nat)
    requires Recorded(log) && j < |log| && i in Past(log, j) && i != j
    ensures log[i].stamp.lamport < log[j].stamp.lamport
    decreases j
  {
    var own, cause := LastOf(log, log[j].process, j), log[j].cause;
    assert Stamped(log, j);
    var k := if own.Some? && i in Past(log, own.value) then own.value else cause.value;
    if i != k {
      LamportGrows(log, i, k);
    }
  }

  /** Events on a path, the last of them `j`; a single event is one too. */
  ghost predicate ChainTo(log: Log, via: seq<nat>, j: nat) {
    && |via| > 0 && via[|via| - 1] == j && (forall k :: 0 <= k < |via| ==> via[k] < |log|)
    && forall k :: 0 <= k < |via| - 1 ==> Edge(log, via[k], via[k + 1])
  }

  lemma EdgeRaisesTime(log: Log, i: nat, j: nat)
    requires Recorded(log) && i < |log| && j < |log| && Edge(log, i, j)
    ensures log[i].stamp.lamport < log[j].stamp.lamport
  {
    assert Stamped(log, j);
  }

  lemma {:induction false} ChainsAreNoLonger(log: Log, via: seq<nat>, j: nat)
    requires Recorded(log) && ChainTo(log, via, j)
    ensures |via| <= log[j].stamp.lamport
    decreases |via|
  {
    var n := |via|;
    assert Stamped(log, j);
    if n > 1 {
      assert Edge(log, via[n - 2], via[n - 2 + 1]);
      EdgeRaisesTime(log, via[n - 2], j);
      ChainsAreNoLonger(log, via[..n - 1], via[n - 2]);
    }
  }

  lemma ChainExtends(log: Log, via: seq<nat>, i: nat, j: nat)
    requires j < |log| && ChainTo(log, via, i) && Edge(log, i, j)
    ensures ChainTo(log, via + [j], j)
  {
    var longer := via + [j];
    forall k | 0 <= k < |longer| - 1 ensures Edge(log, longer[k], longer[k + 1]) {
      assert k < |via| - 1 ==> Edge(log, via[k], via[k + 1]);
    }
  }

  lemma {:induction false} LongestChain(log: Log, j: nat) returns (via: seq<nat>)
    requires Recorded(log) && j < |log|
    ensures ChainTo(log, via, j) && |via| == log[j].stamp.lamport
    decreases j
  {
    assert Stamped(log, j);
    var own, cause := LastOf(log, log[j].process, j), log[j].cause;
    if cause.Some? && (own.None? || log[own.value].stamp.lamport <= log[cause.value].stamp.lamport) {
      via := LongestChain(log, cause.value);
      ChainExtends(log, via, cause.value, j);
      via := via + [j];
    } else if own.Some? {
      via := LongestChain(log, own.value);
      ChainExtends(log, via, own.value, j);
      via := via + [j];
    } else {
      via := [j];
    }
  }

  /** Lamport time is exact too: it is the number of events on the longest path to the event. */
  lemma LamportIsDepth(log: Log, j: nat)
    requires Recorded(log) && j < |log|
    ensures exists via :: ChainTo(log, via, j) && |via| == log[j].stamp.lamport
    ensures forall via :: ChainTo(log, via, j) ==> |via| <= log[j].stamp.lamport
  {
    var longest := LongestChain(log, j);
    forall via | ChainTo(log, via, j) ensures |via| <= log[j].stamp.lamport {
      ChainsAreNoLonger(log, via, j);
    }
  }

  /** The total order is strict on recorded events, no two have the same key, it extends causality, and at
      equal times the lower process comes first. */
  lemma TotalOrderExtendsCausality(log: Log, i: nat, j: nat)
    requires Recorded(log) && i < |log| && j < |log| && i != j
    ensures KeyLess(log[i].stamp, log[j].stamp) || KeyLess(log[j].stamp, log[i].stamp)
    ensures Leads(log, i, j) ==> KeyLess(log[i].stamp, log[j].stamp) && !KeyLess(log[j].stamp, log[i].stamp)
    ensures log[i].stamp.lamport == log[j].stamp.lamport ==>
            (KeyLess(log[i].stamp, log[j].stamp) <==> log[i].process < log[j].process)
  {
    StampProcess(log, i);
    StampProcess(log, j);
    PastIsGroundTruth(log, i, j);
    if log[i].process == log[j].process {
      ProgramOrder(log, if i < j then i else j, if i < j then j else i);
      LamportGrows(log, if i < j then i else j, if i < j then j else i);
    }
    if Leads(log, i, j) {
      LamportGrows(log, i, j);
    }
  }

  // ---- recording one more event ----

  lemma {:induction false} LastOfPrefix(log: Log, more: Log, p: ProcessId, n: nat)
    requires n <= |log|
    ensures LastOf(log + more, p, n) == LastOf(log, p, n)
  {
    if n > 0 {
      LastOfPrefix(log, more, p, n - 1);
    }
  }

  /** Appending a correctly stamped event keeps the log one a run can record. */
  lemma RecordNext(log: Log, e: Event)
    requires Recorded(log)
    requires match e.cause
             case None => e.stamp == LocalEvent(ClockOf(log, e.process, |log|))
             case Some(s) => s < |log| && e.stamp == ReceiveEvent(ClockOf(log, e.process, |log|), log[s].stamp)
    ensures Recorded(log + [e])
    ensures forall p :: ClockOf(log + [e], p, |log| + 1) == if p == e.process then e.stamp else ClockOf(log, p, |log|)
  {
    var longer := log + [e];
    forall i: nat | i < |longer| ensures Stamped(longer, i) {
      LastOfPrefix(log, [e], longer[i].process, i);
      if i < |log| {
        assert Stamped(log, i) && longer[i] == log[i];
      }
    }
    forall p ensures ClockOf(longer, p, |log| + 1) == if p == e.process then e.stamp else ClockOf(log, p, |log|) {
      LastOfPrefix(log, [e], p, |log|);
    }
  }
}
