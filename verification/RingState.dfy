/** What the kernel's state is when the ring pipeline's counters are `x`: every queue, table, epoch
    and region the pipeline can touch is a function of the counters. One lemma per component says
    how a hop changes it. */
module RingState {
  import opened Wrappers
  import opened Rights
  import opened Capabilities
  import opened Clocks
  import opened Processes
  import opened Transfers
  import opened Channels
  import opened Data
  import opened Ring
  import opened Workload
  import Regions

  /** Few enough grants that no process's handle counter wraps. */
  ghost predicate InBounds(c: Config) {
    c.batches + c.pool + 2 < HANDLE_LIMIT && c.stages + c.pool + 2 < HANDLE_LIMIT
  }

  // Object ids: channel i is i, the return channel stages + 1, region j comes after all channels.

  function RegionId(c: Config, j: nat): ObjectId {
    c.stages + 2 + j
  }

  /** The region batch `b` travels in: the pool is used in rotation. */
  function Slot(c: Config, b: nat): (j: nat)
    ensures c.pool > 0 ==> j < c.pool
  {
    if b == 0 || Slot(c, b - 1) + 1 == c.pool then 0 else Slot(c, b - 1) + 1
  }

  lemma {:induction false} SlotIsRemainder(c: Config, b: nat)
    requires c.pool > 0
    ensures Slot(c, b) == b % c.pool
  {
    if b > 0 {
      SlotIsRemainder(c, b - 1);
      ModSuccessor(b - 1, c.pool);
    }
  }

  lemma {:induction false} SlotAhead(c: Config, b: nat, d: nat)
    requires c.pool > 0 && d <= c.pool
    ensures Slot(c, b + d) == if Slot(c, b) + d < c.pool then Slot(c, b) + d else Slot(c, b) + d - c.pool
  {
    if d > 0 {
      SlotAhead(c, b, d - 1);
    }
  }

  /** Batches out at the same time are in different regions. */
  lemma {:induction false} SlotsDiffer(c: Config, x: Counters, v: nat, b: nat)
    requires Valid(c, x) && InWindow(c, x, v) && InWindow(c, x, b) && v != b
    ensures Slot(c, v) != Slot(c, b)
  {
    if v < b {
      SlotAhead(c, v, b - v);
    } else {
      SlotAhead(c, b, v - b);
    }
  }

  /** The batches whose regions are out or free: `pool` of them, from the first not taken back on. */
  predicate InWindow(c: Config, x: Counters, v: nat)
    requires |x| == c.stages + 3
  {
    x[c.stages + 2] <= v < x[c.stages + 2] + c.pool
  }

  /** How many of the first `n` batches travel in region `j`. */
  function Uses(c: Config, n: nat, j: nat): nat {
    if n == 0 then 0 else Uses(c, n - 1, j) + if Slot(c, n - 1) == j then 1 else 0
  }

  /** How many times region `j` has been sent by the first `n` hops. */
  function Moves(c: Config, x: Counters, j: nat, n: nat): nat
    requires n <= |x|
  {
    if n == 0 then 0 else Moves(c, x, j, n - 1) + Uses(c, x[n - 1], j)
  }

  /** Region `j`'s epoch: one for the spawn that gave it to the producer, one for every send since. */
  function Epoch(c: Config, x: Counters, j: nat): nat
    requires |x| == c.stages + 3
  {
    1 + Moves(c, x, j, c.stages + 2)
  }

  lemma {:induction false} MovesAfterHop(c: Config, x: Counters, i: nat, j: nat, n: nat)
    requires i < |x| && n <= |x|
    ensures Moves(c, x[i := x[i] + 1], j, n) == Moves(c, x, j, n) + if i < n && Slot(c, x[i]) == j then 1 else 0
  {
    if n > 0 {
      MovesAfterHop(c, x, i, j, n - 1);
    }
  }

  lemma EpochAfterHop(c: Config, x: Counters, i: nat, j: nat)
    requires |x| == c.stages + 3 && i <= c.stages + 2
    ensures Epoch(c, x[i := x[i] + 1], j) ==
            Epoch(c, x, j) + if i <= c.stages + 1 && Slot(c, x[i]) == j then 1 else 0
  {
    MovesAfterHop(c, x, i, j, c.stages + 2);
  }

  lemma {:induction false} MovesWhenEqual(c: Config, x: Counters, b: nat, j: nat, n: nat)
    requires n <= |x| && forall i :: 0 <= i < n ==> x[i] == b
    ensures Moves(c, x, j, n) == n * Uses(c, b, j)
  {
    if n > 0 {
      MovesWhenEqual(c, x, b, j, n - 1);
      assert n * Uses(c, b, j) == (n - 1) * Uses(c, b, j) + Uses(c, b, j);
    }
  }

  /** When the run is over region `j` has moved on every hop of every batch that used it. */
  lemma FinalEpoch(c: Config, x: Counters, j: nat)
    requires Valid(c, x) && Done(c, x)
    ensures Epoch(c, x, j) == 1 + (c.stages + 2) * Uses(c, c.batches, j)
  {
    DoneMeansAllSent(c, x);
    MovesWhenEqual(c, x, c.batches, j, c.stages + 2);
  }

  /** The one live capability of the region batch `v` travels in. */
  function RegionCap(c: Config, x: Counters, v: nat): Capability
    requires |x| == c.stages + 3
  {
    Capability(RegionId(c, Slot(c, v)), OWNER, Epoch(c, x, Slot(c, v)))
  }

  /** The counters once hop `i` has passed one more batch on. */
  function Hop(x: Counters, i: nat): Counters
    requires i < |x|
  {
    x[i := x[i] + 1]
  }

  /** A send makes the batch's capability a new one and leaves every other batch's alone; taking a
      batch back changes none. */
  lemma CapAfterHop(c: Config, x: Counters, i: nat, v: nat)
    requires Valid(c, x) && i <= c.stages + 2 && InWindow(c, x, v)
    requires i <= c.stages + 1 ==> InWindow(c, x, x[i])
    ensures RegionCap(c, Hop(x, i), v) ==
            if i <= c.stages + 1 && v == x[i] then RegionCap(c, x, v).(epoch := RegionCap(c, x, v).epoch + 1)
            else RegionCap(c, x, v)
  {
    EpochAfterHop(c, x, i, Slot(c, v));
    if i <= c.stages + 1 && v != x[i] {
      SlotsDiffer(c, x, v, x[i]);
    }
  }

  // ---- the kernel's epochs ----

  ghost predicate KernelShows(c: Config, x: Counters, k: KernelState)
    requires |x| == c.stages + 3
  {
    && k.nextId == c.stages + 2 + c.pool
    && (forall o: nat :: o in k.epochs <==> o < c.stages + 2 + c.pool)
    && (forall o: nat :: o < c.stages + 2 ==> k.epochs[o] == 0)
    && (forall j :: 0 <= j < c.pool ==> k.epochs[RegionId(c, j)] == Epoch(c, x, j))
  }

  lemma KernelAfterSend(c: Config, x: Counters, k: KernelState, i: nat)
    requires Valid(c, x) && KernelShows(c, x, k) && i <= c.stages + 1 && c.pool > 0
    ensures KernelShows(c, Hop(x, i), BumpAll(k, {RegionId(c, Slot(c, x[i]))}))
  {
    var k' := BumpAll(k, {RegionId(c, Slot(c, x[i]))});
    forall o: ObjectId ensures o in k'.epochs <==> o in k.epochs {
    }
    forall j | 0 <= j < c.pool ensures k'.epochs[RegionId(c, j)] == Epoch(c, Hop(x, i), j) {
      EpochAfterHop(c, x, i, j);
    }
  }

  lemma KernelAfterDrain(c: Config, x: Counters, k: KernelState)
    requires Valid(c, x) && KernelShows(c, x, k)
    ensures KernelShows(c, Hop(x, c.stages + 2), k)
  {
    forall j | 0 <= j < c.pool ensures Epoch(c, Hop(x, c.stages + 2), j) == Epoch(c, x, j) {
      EpochAfterHop(c, x, c.stages + 2, j);
    }
  }

  lemma RegionCapLive(c: Config, x: Counters, k: KernelState, v: nat)
    requires Valid(c, x) && KernelShows(c, x, k) && c.pool > 0
    ensures k.Permits(RegionCap(c, x, v), OWNER)
  {
  }

  // ---- the queues ----

  /** Channel `i` holds the batches between its counters, each with its region's live capability. */
  ghost predicate QueueShows(c: Config, x: Counters, i: nat, q: seq<Message>)
    requires |x| == c.stages + 3 && i <= c.stages + 1
  {
    && |q| + x[i + 1] == x[i]
    && forall n :: 0 <= n < |q| ==> q[n].data == x[i + 1] + n && q[n].caps == [RegionCap(c, x, x[i + 1] + n)]
  }

  ghost predicate QueuesShow(c: Config, x: Counters, qs: Queues)
    requires |x| == c.stages + 3
  {
    forall i :: 0 <= i <= c.stages + 1 ==> i in qs && QueueShows(c, x, i, qs[i])
  }

  /** Every batch on a channel is one whose region is out. */
  lemma OnChannel(c: Config, x: Counters, i: nat, b: nat)
    requires Valid(c, x) && i <= c.stages + 1 && x[i + 1] <= b < x[i]
    ensures InWindow(c, x, b) && c.pool > 0
  {
    Descending(c, x, 0, i);
    Descending(c, x, i + 1, c.stages + 2);
  }

  lemma QueueKept(c: Config, x: Counters, h: nat, i: nat, q: seq<Message>)
    requires Valid(c, x) && i <= c.stages + 1 && QueueShows(c, x, i, q)
    requires h <= c.stages + 2 && h != i && h != i + 1 && (h <= c.stages + 1 ==> InWindow(c, x, x[h]))
    requires h <= c.stages + 1 ==> x[h] < x[i + 1] || x[i] <= x[h]
    ensures QueueShows(c, Hop(x, h), i, q)
  {
    forall n | 0 <= n < |q| ensures q[n].caps == [RegionCap(c, Hop(x, h), x[i + 1] + n)] {
      OnChannel(c, x, i, x[i + 1] + n);
      CapAfterHop(c, x, h, x[i + 1] + n);
    }
  }

  /** The hop after channel `i` takes its oldest message. */
  lemma QueuePopped(c: Config, x: Counters, i: nat, q: seq<Message>)
    requires Valid(c, x) && i <= c.stages + 1 && QueueShows(c, x, i, q) && x[i + 1] < x[i]
    ensures q != [] && q[0].data == x[i + 1] && q[0].caps == [RegionCap(c, x, x[i + 1])]
    ensures QueueShows(c, Hop(x, i + 1), i, q[1..])
  {
    OnChannel(c, x, i, x[i + 1]);
    forall n | 0 <= n < |q| - 1
      ensures q[1..][n].caps == [RegionCap(c, Hop(x, i + 1), x[i + 1] + 1 + n)]
    {
      OnChannel(c, x, i, x[i + 1] + 1 + n);
      CapAfterHop(c, x, i + 1, x[i + 1] + 1 + n);
      assert q[1..][n] == q[n + 1];
    }
  }

  /** The hop before channel `i` appends a batch with its region's new capability. */
  lemma QueuePushed(c: Config, x: Counters, i: nat, q: seq<Message>, m: Message)
    requires Valid(c, x) && i <= c.stages + 1 && QueueShows(c, x, i, q) && InWindow(c, x, x[i])
    requires m.data == x[i] && m.caps == [RegionCap(c, Hop(x, i), x[i])]
    ensures QueueShows(c, Hop(x, i), i, q + [m])
  {
    forall n | 0 <= n < |q| ensures q[n].caps == [RegionCap(c, Hop(x, i), x[i + 1] + n)] {
      OnChannel(c, x, i, x[i + 1] + n);
      CapAfterHop(c, x, i, x[i + 1] + n);
    }
  }

  // ---- the regions ----

  ghost predicate StoreShows(c: Config, x: Counters, m: Regions.Store)
    requires |x| == c.stages + 3
  {
    && (forall j :: 0 <= j < c.pool ==> RegionId(c, j) in m && |m[RegionId(c, j)]| == c.regionSize)
    && (forall i, b :: 0 <= i <= c.stages && x[i + 1] <= b < x[i] ==>
          RegionId(c, Slot(c, b)) in m && m[RegionId(c, Slot(c, b))] == WorkedBytes(c.seed, b, c.regionSize, i))
  }

  /** Hop `i` has rewritten its batch's region and passes it on; no other batch's bytes change. */
  lemma StoreAfterHop(c: Config, x: Counters, m: Regions.Store, i: nat, bytes: seq<byte>)
    requires Valid(c, x) && StoreShows(c, x, m) && i <= c.stages && Valid(c, Hop(x, i)) && InWindow(c, x, x[i])
    requires bytes == WorkedBytes(c.seed, x[i], c.regionSize, i)
    ensures StoreShows(c, Hop(x, i), m[RegionId(c, Slot(c, x[i])) := bytes])
  {
    var m' := m[RegionId(c, Slot(c, x[i])) := bytes];
    forall h, b | 0 <= h <= c.stages && Hop(x, i)[h + 1] <= b < Hop(x, i)[h]
      ensures RegionId(c, Slot(c, b)) in m' && m'[RegionId(c, Slot(c, b))] == WorkedBytes(c.seed, b, c.regionSize, h)
    {
      if b == x[i] {
        SameChannel(c, x, i, h);
      } else {
        OnChannel(c, x, h, b);
        SlotsDiffer(c, x, b, x[i]);
      }
    }
  }

  lemma SameChannel(c: Config, x: Counters, i: nat, h: nat)
    requires Valid(c, x) && i <= c.stages && h <= c.stages && Valid(c, Hop(x, i))
    requires Hop(x, i)[h + 1] <= x[i] < Hop(x, i)[h]
    ensures h == i
  {
    if h < i {
      Descending(c, Hop(x, i), h + 1, i);
    } else if i < h {
      Descending(c, x, i, h);
    }
  }

  /** Past the last transformer the bytes no longer matter, only the size of the region. */
  lemma StoreAfterReturn(c: Config, x: Counters, m: Regions.Store, i: nat)
    requires Valid(c, x) && StoreShows(c, x, m) && c.stages < i <= c.stages + 2
    ensures StoreShows(c, Hop(x, i), m)
  {
  }

  // ---- the tables ----

  /** A transformer's or the sink's table between turns: its two channel views and nothing else. */
  function StageTable(input: nat): Table {
    map[0 := Capability(input, {READ}, 0), 1 := Capability(input + 1, {WRITE}, 0)]
  }

  ghost predicate StageShows(c: Config, x: Counters, i: nat, p: ProcState)
    requires |x| == c.stages + 3 && i <= c.stages
  {
    p.table == StageTable(i) && p.nextHandle == 2 + x[i + 1]
  }

  /** The producer's table: its two channel views, and the capability of every free region, the one
      for batch `v` under handle `v + 2`. */
  ghost predicate ProducerShows(c: Config, x: Counters, p: ProcState)
    requires |x| == c.stages + 3
  {
    && p.nextHandle == 2 + c.pool + x[c.stages + 2]
    && (forall h: nat :: h in p.table <==> h < 2 || x[0] <= h - 2 < x[c.stages + 2] + c.pool)
    && p.table[0] == Capability(0, {WRITE}, 0) && p.table[1] == Capability(c.stages + 1, {READ}, 0)
    && (forall h: nat :: h in p.table && h >= 2 ==> p.table[h] == RegionCap(c, x, h - 2))
  }

  /** The supervisor keeps the full channel capabilities, and no region. */
  function SupervisorTable(c: Config): Table {
    map h: nat | h < c.stages + 2 :: Capability(h, OWNER, 0)
  }

  /** A message carries the one capability just received straight on. */
  lemma MoveOne(k: KernelState, t: Table, h: Handle)
    requires h in t && k.Permits(t[h], OWNER)
    ensures RunBatch(k, t, [Move(h)]) ==
            Ok(Applied(BumpAll(k, {t[h].obj}), t - {h}, [t[h].(epoch := t[h].epoch + 1)]))
  {
    var grants := [Move(h)];
    BatchEffect(k, t, grants);
    assert Admissible(k, t, grants);
    assert MovedObjects(t, grants, 1) == {t[h].obj};
    assert TakenHandles(grants, 1) == {h};
    assert Effect(k, t, grants, 1).delivered == [Delivers(t, Move(h))];
  }

  lemma GrantOne(p: ProcState, cap: Capability)
    requires p.nextHandle + 1 < HANDLE_LIMIT
    ensures p.GrantAll([cap]) == p.(table := p.table[p.nextHandle := cap], nextHandle := p.nextHandle + 1)
    ensures HandlesFrom(p.nextHandle, 1) == [p.nextHandle]
  {
    assert [cap][..0] == [];
  }
}
