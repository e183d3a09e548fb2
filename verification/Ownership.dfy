/** Who owns what between two turns of the ring pipeline: every region has exactly one capability in the
    whole system, live, with the producer or in one queued message. */
module Ownership {
  import opened Wrappers
  import opened Rights
  import opened Capabilities
  import opened Clocks
  import opened Processes
  import opened Data
  import opened Ring
  import opened Workload
  import opened RingState
  import opened RingTurns
  import Boot
  import Channels
  import Schedule
  import StageTurns

  /** The queues are those of the channels and the return channel, and no others. */
  ghost predicate OnlyChannels(c: Config, queues: Channels.Queues) {
    forall i :: i in queues ==> i <= c.stages + 1
  }

  /** Where a capability can be: under a handle of a process, or in a message on one of the channels. */
  datatype Place = Held(p: ProcessId, h: Handle) | Queued(channel: nat, message: nat, index: nat)

  /** What is at a place, if anything. */
  function CapAt(c: Config, s: Snapshot, at: Place): Option<Capability> {
    match at
    case Held(p, h) => if p in s.procs && h in s.procs[p].table then Some(s.procs[p].table[h]) else None
    case Queued(i, n, k) =>
      if i in s.queues && n < |s.queues[i]| && k < |s.queues[i][n].caps| then Some(s.queues[i][n].caps[k])
      else None
  }

  ghost predicate RegionAt(c: Config, s: Snapshot, at: Place, j: nat) {
    CapAt(c, s, at).Some? && CapAt(c, s, at).value.obj == RegionId(c, j)
  }

  /** The batch that a region is out with, or will next go out with. */
  lemma InUseBy(c: Config, x: Counters, j: nat) returns (v: nat)
    requires Valid(c, x) && j < c.pool
    ensures InWindow(c, x, v) && Slot(c, v) == j
  {
    var first := x[c.stages + 2];
    var ahead := if Slot(c, first) <= j then j - Slot(c, first) else j + c.pool - Slot(c, first);
    SlotAhead(c, first, ahead);
    v := first + ahead;
  }

  /** The channel a batch that has been sent and not taken back is on. */
  lemma {:induction false} ChannelOf(c: Config, x: Counters, v: nat, n: nat) returns (i: nat)
    requires Valid(c, x) && n <= c.stages + 2 && x[n] <= v < x[0]
    ensures i < n && x[i + 1] <= v < x[i]
  {
    if v < x[n - 1] {
      i := n - 1;
    } else {
      i := ChannelOf(c, x, v, n - 1);
    }
  }

  /** `at` is where batch `v`'s region belongs. */
  ghost predicate Places(c: Config, x: Counters, v: nat, at: Place)
    requires |x| == c.stages + 3
  {
    match at
    case Held(p, h) => p == Producer(c) && h == v + 2 && v >= x[0]
    case Queued(i, n, k) => i <= c.stages + 1 && k == 0 && v == x[i + 1] + n && v < x[i]
  }

  /** Where the capability of the region in use by batch `v` is. */
  lemma PlaceOf(c: Config, x: Counters, s: Snapshot, v: nat) returns (at: Place)
    requires SnapshotShows(c, x, s) && InWindow(c, x, v)
    ensures CapAt(c, s, at) == Some(RegionCap(c, x, v)) && (at.Held? ==> at.p == Producer(c))
  {
    if v >= x[0] {
      at := Held(Producer(c), v + 2);
    } else {
      var i := ChannelOf(c, x, v, c.stages + 2);
      assert QueueShows(c, x, i, s.queues[i]);
      at := Queued(i, v - x[i + 1], 0);
    }
  }

  lemma QueuedBatch(c: Config, x: Counters, s: Snapshot, i: nat, n: nat, k: nat, j: nat) returns (v: nat)
    requires SnapshotShows(c, x, s) && OnlyChannels(c, s.queues) && RegionAt(c, s, Queued(i, n, k), j)
    ensures InWindow(c, x, v) && Slot(c, v) == j && Places(c, x, v, Queued(i, n, k))
  {
    assert QueueShows(c, x, i, s.queues[i]);
    v := x[i + 1] + n;
    OnChannel(c, x, i, v);
  }

  /** Any place holding a region's capability is the place of some batch. */
  lemma BatchAt(c: Config, x: Counters, s: Snapshot, at: Place, j: nat) returns (v: nat)
    requires SnapshotShows(c, x, s) && OnlyChannels(c, s.queues) && RegionAt(c, s, at, j)
    ensures InWindow(c, x, v) && Slot(c, v) == j && Places(c, x, v, at)
  {
    match at
    case Held(p, h) => v := HeldByProducer(c, x, s, p, h, j);
    case Queued(i, n, k) => v := QueuedBatch(c, x, s, i, n, k, j);
  }

  lemma HeldByProducer(c: Config, x: Counters, s: Snapshot, p: ProcessId, h: Handle, j: nat) returns (v: nat)
    requires SnapshotShows(c, x, s) && RegionAt(c, s, Held(p, h), j)
    ensures InWindow(c, x, v) && Slot(c, v) == j && Places(c, x, v, Held(p, h))
  {
    Descending(c, x, 0, c.stages + 2);
    v := h - 2;
  }

  lemma SamePlace(c: Config, x: Counters, a: Place, b: Place, v: nat)
    requires Valid(c, x)
    requires Places(c, x, v, a) && Places(c, x, v, b)
    ensures a == b
  {
    if a.Queued? {
      Descending(c, x, 0, a.channel);
    }
    if b.Queued? {
      Descending(c, x, 0, b.channel);
    }
    if a.Queued? && b.Queued? && a.channel < b.channel {
      Descending(c, x, a.channel + 1, b.channel);
    } else if a.Queued? && b.Queued? && b.channel < a.channel {
      Descending(c, x, b.channel + 1, a.channel);
    }
  }

  /** Exclusive ownership between turns: of every region there is exactly one capability in all tables
      and messages, live and with every right, in the producer's table or in one queued message. */
  lemma OneOwner(c: Config, x: Counters, s: Snapshot, j: nat) returns (at: Place)
    requires SnapshotShows(c, x, s) && OnlyChannels(c, s.queues) && j < c.pool
    ensures RegionAt(c, s, at, j) && s.kernel.Permits(CapAt(c, s, at).value, OWNER) && (at.Held? ==> at.p == Producer(c))
    ensures forall other: Place :: RegionAt(c, s, other, j) ==> other == at
  {
    var v := InUseBy(c, x, j);
    at := PlaceOf(c, x, s, v);
    RegionCapLive(c, x, s.kernel, v);
    forall other: Place | RegionAt(c, s, other, j) ensures other == at {
      OnlyPlace(c, x, s, at, other, j);
    }
  }

  lemma OnlyPlace(c: Config, x: Counters, s: Snapshot, a: Place, b: Place, j: nat)
    requires SnapshotShows(c, x, s) && OnlyChannels(c, s.queues) && RegionAt(c, s, a, j) && RegionAt(c, s, b, j)
    ensures a == b
  {
    var v := BatchAt(c, x, s, a, j);
    var w := BatchAt(c, x, s, b, j);
    if v != w {
      SlotsDiffer(c, x, v, w);
    }
    SamePlace(c, x, a, b, v);
  }

  // ---- how much each process holds ----

  lemma {:induction false} BelowSize(n: nat)
    ensures |Boot.Below(n)| == n
  {
    if n > 0 {
      BelowSize(n - 1);
    }
  }

  function Shifted(from: nat, n: nat): (s: set<nat>)
    ensures forall h: nat :: h in s <==> from <= h < from + n
  {
    if n == 0 then {} else Shifted(from, n - 1) + {from + n - 1}
  }

  lemma {:induction false} ShiftedSize(from: nat, n: nat)
    ensures |Shifted(from, n)| == n
  {
    if n > 0 {
      ShiftedSize(from, n - 1);
    }
  }

  lemma SupervisorSize(c: Config)
    ensures |SupervisorTable(c)| == c.stages + 2
  {
    assert SupervisorTable(c).Keys == Boot.Below(c.stages + 2);
    BelowSize(c.stages + 2);
  }

  lemma StageSize(i: nat)
    ensures |StageTable(i)| == 2
  {
    assert StageTable(i).Keys == {0, 1};
  }

  lemma TwoAndMore(keys: set<Handle>, from: nat, n: nat)
    requires from >= 2 && forall h: nat :: h in keys <==> h < 2 || from <= h < from + n
    ensures |keys| == 2 + n
  {
    assert keys == {0, 1} + Shifted(from, n);
    ShiftedSize(from, n);
  }

  lemma ProducerSize(c: Config, x: Counters, t: Table)
    requires |x| == c.stages + 3 && x[0] <= x[c.stages + 2] + c.pool
    requires forall h: nat :: h in t <==> h < 2 || x[0] <= h - 2 < x[c.stages + 2] + c.pool
    ensures |t| == 2 + |StageTurns.FreeHandles(c, x)|
  {
    TwoAndMore(t.Keys, 2 + x[0], x[c.stages + 2] + c.pool - x[0]);
  }

  /** Handles at every turn boundary: two for a transformer or the sink, all channels for the supervisor,
      and two more than its free regions for the producer. */
  lemma TableSizes(c: Config, x: Counters, s: Snapshot, p: ProcessId)
    requires SnapshotShows(c, x, s) && p in s.procs
    ensures |s.procs[p].table| == if p == 0 then c.stages + 2
                                  else if p == Producer(c) then 2 + |StageTurns.FreeHandles(c, x)| else 2
  {
    if p == 0 {
      SupervisorSize(c);
    } else if p == Producer(c) {
      ProducerSize(c, x, s.procs[p].table);
    } else {
      assert StageShows(c, x, InputOf(c, p), s.procs[p]);
      StageSize(InputOf(c, p));
    }
  }

  // ---- over a whole run ----

  /** At every turn boundary no channel, the return channel included, holds more than one message. */
  lemma QueuesStayShort(c: Config, t: nat, s: Snapshot, i: nat)
    requires SnapshotShows(c, At(c, t).x, s) && i <= c.stages + 1
    ensures i in s.queues && |s.queues[i]| <= 1
  {
    var x := At(c, t).x;
    assert QueueShows(c, x, i, s.queues[i]);
    if c.pool > 0 {
      Schedule.AtMostOneMessage(c, t, i);
    } else {
      OnChannelBound(c, x, i);
    }
  }

  /** How many of the first `n` batches use region `j`: those whose number is `j` modulo the pool size. */
  lemma {:induction false} UsesCount(c: Config, n: nat, j: nat)
    requires j < c.pool
    ensures Uses(c, n, j) == |Users(c, n, j)| && forall b :: b in Users(c, n, j) <==> 0 <= b < n && b % c.pool == j
  {
    if n > 0 {
      UsesCount(c, n - 1, j);
      SlotIsRemainder(c, n - 1);
      if Slot(c, n - 1) == j {
        assert n - 1 !in Users(c, n - 1, j);
      }
    }
  }

  function Users(c: Config, n: nat, j: nat): set<nat> {
    if n == 0 then {} else Users(c, n - 1, j) + if Slot(c, n - 1) == j then {n - 1} else {}
  }

  /** Where each region's epoch ends: one for its spawn, and one for every hop of every batch using it. */
  lemma RegionEndsAt(c: Config, x: Counters, s: Snapshot, j: nat)
    requires SnapshotShows(c, x, s) && Done(c, x) && j < c.pool
    ensures RegionId(c, j) in s.kernel.epochs
    ensures s.kernel.epochs[RegionId(c, j)] == 1 + (c.stages + 2) * |Users(c, c.batches, j)|
  {
    FinalEpoch(c, x, j);
    UsesCount(c, c.batches, j);
  }
}
