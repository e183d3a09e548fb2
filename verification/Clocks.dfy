/** Logical clocks: Lamport counters, vector clocks, and the pair every process owns.
    Process ids and counters are unbounded naturals. */
module Clocks {
  type ProcessId = nat

  /** A sparse vector: an absent process reads as zero, and an explicit zero means the same. */
  type Vector = map<ProcessId, nat>

  datatype Causality = Before | After | Equal | Concurrent

  function Get(v: Vector, q: ProcessId): nat {
    if q in v then v[q] else 0
  }

  function Ticked(v: Vector, q: ProcessId): Vector {
    v[q := Get(v, q) + 1]
  }

  function Max(a: nat, b: nat): nat {
    if a < b then b else a
  }

  function Merged(a: Vector, b: Vector): Vector {
    map q | q in a.Keys + b.Keys :: Max(Get(a, q), Get(b, q))
  }

  /** The causal order on vectors: at most as many events seen, at every process. */
  ghost predicate AtMost(a: Vector, b: Vector) {
    forall q :: Get(a, q) <= Get(b, q)
  }

  ghost predicate Same(a: Vector, b: Vector) {
    forall q :: Get(a, q) == Get(b, q)
  }

  ghost predicate StrictlyBelow(a: Vector, b: Vector) {
    AtMost(a, b) && !AtMost(b, a)
  }

  /** The outcome of comparing two vectors by the pointwise order. */
  ghost function Compared(a: Vector, b: Vector): Causality {
    if AtMost(a, b) then (if AtMost(b, a) then Equal else Before)
    else if AtMost(b, a) then After
    else Concurrent
  }

  datatype Stamp = Stamp(process: ProcessId, lamport: nat, vector: Vector)

  ghost predicate HappenedBefore(a: Stamp, b: Stamp) {
    Compared(a.vector, b.vector) == Before
  }

  /** Lamport's total order: time first, process id to break ties. */
  predicate KeyLess(a: Stamp, b: Stamp) {
    a.lamport < b.lamport || (a.lamport == b.lamport && a.process < b.process)
  }

  /** A process's pair of clocks as a value: the stamp of its latest event. */
  function NewClock(p: ProcessId): Stamp {
    Stamp(p, 0, map[])
  }

  function LocalEvent(c: Stamp): Stamp {
    Stamp(c.process, c.lamport + 1, Ticked(c.vector, c.process))
  }

  function ReceiveEvent(c: Stamp, sent: Stamp): Stamp {
    Stamp(c.process, Max(c.lamport, sent.lamport) + 1, Ticked(Merged(c.vector, sent.vector), c.process))
  }

  // ---- vectors form a join-semilattice ----

  lemma GetMerged(a: Vector, b: Vector, q: ProcessId)
    ensures Get(Merged(a, b), q) == Max(Get(a, q), Get(b, q))
  {
  }

  lemma AtMostTransitive(a: Vector, b: Vector, c: Vector)
    requires AtMost(a, b) && AtMost(b, c)
    ensures AtMost(a, c)
  {
    forall q ensures Get(a, q) <= Get(c, q) {
      assert Get(a, q) <= Get(b, q) <= Get(c, q);
    }
  }

  /** `Merged` is the least upper bound: above both arguments, and below every other such vector. */
  lemma MergeIsLeastUpperBound(a: Vector, b: Vector, c: Vector)
    ensures AtMost(a, Merged(a, b)) && AtMost(b, Merged(a, b))
    ensures AtMost(Merged(a, b), c) <==> AtMost(a, c) && AtMost(b, c)
  {
    forall q ensures Get(Merged(a, b), q) == Max(Get(a, q), Get(b, q)) {
      GetMerged(a, b, q);
    }
    if AtMost(Merged(a, b), c) {
      AtMostTransitive(a, Merged(a, b), c);
      AtMostTransitive(b, Merged(a, b), c);
    }
  }

  /** Merging is commutative, associative and idempotent, up to explicit zeros. */
  lemma MergeIsSemilattice(a: Vector, b: Vector, c: Vector)
    ensures Same(Merged(a, b), Merged(b, a))
    ensures Same(Merged(Merged(a, b), c), Merged(a, Merged(b, c)))
    ensures Same(Merged(a, a), a)
  {
    forall q
      ensures Get(Merged(a, b), q) == Get(Merged(b, a), q) && Get(Merged(a, a), q) == Get(a, q)
      ensures Get(Merged(Merged(a, b), c), q) == Get(Merged(a, Merged(b, c)), q)
    {
      GetMerged(a, b, q);
      GetMerged(b, a, q);
      GetMerged(a, a, q);
      GetMerged(b, c, q);
      GetMerged(Merged(a, b), c, q);
      GetMerged(a, Merged(b, c), q);
    }
  }

  /** Comparing decides the strict order and equality, and is antisymmetric. */
  lemma CompareDecidesOrder(a: Vector, b: Vector)
    ensures Compared(a, b) == Equal <==> Same(a, b)
    ensures Compared(a, b) == Before <==> StrictlyBelow(a, b)
    ensures Compared(a, b) == Before <==> Compared(b, a) == After
    ensures Compared(a, b) == Concurrent <==> Compared(b, a) == Concurrent
  {
  }

  /** Comparing is transitive and cannot see explicit zeros. */
  lemma CompareIsTransitive(a: Vector, b: Vector, c: Vector)
    ensures Compared(a, b) == Before && Compared(b, c) == Before ==> Compared(a, c) == Before
    ensures Same(a, b) ==> Compared(a, c) == Compared(b, c) && Compared(c, a) == Compared(c, b)
  {
    if AtMost(a, b) && AtMost(b, c) {
      AtMostTransitive(a, b, c);
      if AtMost(c, a) {
        AtMostTransitive(c, a, b);
      }
    }
  }

  // ---- the total order ----

  /** At equal times the lower process comes first. */
  lemma TiesGoByProcess(a: Stamp, b: Stamp)
    requires a.lamport == b.lamport
    ensures KeyLess(a, b) <==> a.process < b.process
  {
  }

  /** A strict total order on keys: never both ways round, transitive, and different keys are ordered. */
  lemma KeysAreOrdered(a: Stamp, b: Stamp, c: Stamp)
    ensures !(KeyLess(a, b) && KeyLess(b, a))
    ensures KeyLess(a, b) && KeyLess(b, c) ==> KeyLess(a, c)
    ensures KeyLess(a, b) || KeyLess(b, a) <==> (a.lamport, a.process) != (b.lamport, b.process)
  {
  }

  // ---- the clocks ----

  class LamportClock {
    var time: nat

    constructor ()
      ensures time == 0
    {
      time := 0;
    }

    method Tick() returns (t: nat)
      modifies this
      ensures t == time == old(time) + 1
    {
      time := time + 1;
      t := time;
    }

    /** Jumps past both this clock and the remote one. */
    method Observe(remote: nat) returns (t: nat)
      modifies this
      ensures t == time && old(time) < t && remote < t
      ensures t == old(time) + 1 || t == remote + 1
    {
      time := (if time < remote then remote else time) + 1;
      t := time;
    }
  }

  class VectorClock {
    var entries: Vector

    constructor ()
      ensures entries == map[]
    {
      entries := map[];
    }

    method Tick(q: ProcessId)
      modifies this
      ensures entries == Ticked(old(entries), q)
    {
      entries := entries[q := Get(entries, q) + 1];
    }

    /** Entry by entry, in place. */
    method Merge(other: Vector)
      modifies this
      ensures entries == Merged(old(entries), other)
    {
      var rest := other.Keys;
      while rest != {}
        invariant rest <= other.Keys
        invariant entries.Keys == old(entries.Keys) + (other.Keys - rest)
        invariant forall q :: q in entries.Keys && q !in rest ==> entries[q] == Merged(old(entries), other)[q]
        invariant forall q :: q in rest ==> Get(entries, q) == Get(old(entries), q)
        decreases rest
      {
        var q :| q in rest;
        entries := entries[q := Max(Get(entries, q), other[q])];
        rest := rest - {q};
      }
    }

    method Compare(other: Vector) returns (c: Causality)
      ensures c == Compared(entries, other)
    {
      c := CompareEntries(entries, other);
    }
  }

  /** The keys of a vector, as an iterator over it yields them. */
  method KeysOf(v: Vector) returns (ks: seq<ProcessId>)
    ensures forall q: ProcessId :: q in ks <==> q in v
  {
    ks := [];
    var rest := v.Keys;
    while rest != {}
      invariant rest <= v.Keys && forall q: ProcessId :: q in ks <==> q in v.Keys - rest
      decreases rest
    {
      var q :| q in rest;
      ks := ks + [q];
      rest := rest - {q};
    }
  }

  /** Two flags over the keys of one vector chained with the keys of the other decide the order; a key of
      both is met twice. */
  method CompareEntries(a: Vector, b: Vector) returns (c: Causality)
    ensures c == Compared(a, b)
  {
    var someLess, someGreater := false, false;
    var left := KeysOf(a);
    var right := KeysOf(b);
    var chain := left + right;
    for i := 0 to |chain|
      invariant someLess <==> exists k :: 0 <= k < i && Get(a, chain[k]) < Get(b, chain[k])
      invariant someGreater <==> exists k :: 0 <= k < i && Get(a, chain[k]) > Get(b, chain[k])
    {
      if Get(a, chain[i]) < Get(b, chain[i]) {
        someLess := true;
      } else if Get(a, chain[i]) > Get(b, chain[i]) {
        someGreater := true;
      }
    }
    FlagsDecide(a, b, chain, someLess, someGreater);
    c := if someLess then (if someGreater then Concurrent else Before)
         else if someGreater then After
         else Equal;
  }

  /** The flags over any listing of all keys of both say which way the order fails. */
  lemma FlagsDecide(a: Vector, b: Vector, chain: seq<ProcessId>, someLess: bool, someGreater: bool)
    requires forall q: ProcessId :: q in chain <==> q in a || q in b
    requires someLess <==> exists k :: 0 <= k < |chain| && Get(a, chain[k]) < Get(b, chain[k])
    requires someGreater <==> exists k :: 0 <= k < |chain| && Get(a, chain[k]) > Get(b, chain[k])
    ensures someLess <==> !AtMost(b, a)
    ensures someGreater <==> !AtMost(a, b)
  {
    if q: ProcessId :| Get(a, q) < Get(b, q) {
      assert q in chain;
    }
    if q: ProcessId :| Get(a, q) > Get(b, q) {
      assert q in chain;
    }
  }

  /** One process's clocks, advanced together; every method is one event. */
  class EventClock {
    const process: ProcessId
    const lamport: LamportClock
    const vector: VectorClock

    ghost function Footprint(): set<object> {
      {this, lamport, vector}
    }

    function View(): Stamp
      reads lamport, vector
    {
      Stamp(process, lamport.time, vector.entries)
    }

    constructor (p: ProcessId)
      ensures process == p && fresh(Footprint())
      ensures View() == NewClock(p)
    {
      process := p;
      lamport := new LamportClock();
      vector := new VectorClock();
    }

    method Local() returns (s: Stamp)
      modifies lamport, vector
      ensures s == View() == LocalEvent(old(View()))
    {
      var _ := lamport.Tick();
      vector.Tick(process);
      s := View();
    }

    method Send() returns (s: Stamp)
      modifies lamport, vector
      ensures s == View() == LocalEvent(old(View()))
    {
      s := Local();
    }

    /** Merge what the sender knew, then count the receive itself. */
    method Receive(sent: Stamp) returns (s: Stamp)
      modifies lamport, vector
      ensures s == View() == ReceiveEvent(old(View()), sent)
    {
      var _ := lamport.Observe(sent.lamport);
      vector.Merge(sent.vector);
      vector.Tick(process);
      s := View();
    }
  }
}
