/** A process: a private table of capabilities under small handles, and a pair of clocks. */
module Processes {
  import opened Wrappers
  import opened Capabilities
  import opened Clocks

  type Handle = nat
  type Table = map<Handle, Capability>

  /** The handle counter is a 32-bit word. */
  const HANDLE_LIMIT: nat := 0x1_0000_0000

  type Word32 = x: nat | x < 0x1_0000_0000

  datatype ProcState = ProcState(table: Table, nextHandle: Word32, clock: Stamp) {
    /** Enters `cap` under the next handle; the handle counter wraps. */
    function Grant(cap: Capability): ProcState {
      this.(table := table[nextHandle := cap], nextHandle := (nextHandle + 1) % HANDLE_LIMIT)
    }

    function GrantAll(caps: seq<Capability>): ProcState
      decreases |caps|
    {
      if caps == [] then this else GrantAll(caps[..|caps| - 1]).Grant(caps[|caps| - 1])
    }

    /** No handle has been issued at or above `nextHandle`. */
    predicate Fresh() {
      forall h :: h in table ==> h < nextHandle
    }

    /** `n` more grants will not wrap the handle counter. */
    predicate HasRoom(n: nat) {
      Fresh() && nextHandle + n < HANDLE_LIMIT
    }
  }

  function NewProcess(p: ProcessId): ProcState {
    ProcState(map[], 0, NewClock(p))
  }

  /** The handles `n` grants in a row are given. */
  function HandlesFrom(first: Word32, n: nat): (hs: seq<Handle>)
    ensures |hs| == n
  {
    seq(n, i requires 0 <= i < n => (first + i) % HANDLE_LIMIT)
  }

  /** The handle counter is 32 bits wide: the handle after the last is the first again, and whatever is still
      under it is overwritten. */
  lemma HandlesWrap(p: ProcState, cap: Capability)
    requires p.nextHandle == 0xFFFF_FFFF
    ensures p.Grant(cap).nextHandle == 0 && p.Grant(cap).table == p.table[0xFFFF_FFFF := cap]
    ensures forall other :: p.Grant(cap).Grant(other).table[0] == other
  {
  }

  lemma HandlesWithoutWrap(first: Word32, n: nat)
    requires first + n < HANDLE_LIMIT
    ensures forall i :: 0 <= i < n ==> HandlesFrom(first, n)[i] == first + i
  {
  }

  lemma {:induction false} GrantAllCounter(p: ProcState, caps: seq<Capability>)
    ensures p.GrantAll(caps).nextHandle == (p.nextHandle + |caps|) % HANDLE_LIMIT
    ensures p.GrantAll(caps).clock == p.clock
  {
    if caps != [] {
      GrantAllCounter(p, caps[..|caps| - 1]);
    }
  }

  /** With room, granting `caps` adds exactly those entries, at consecutive unused handles. */
  lemma {:induction false} GrantAllEffect(p: ProcState, caps: seq<Capability>)
    requires p.HasRoom(|caps|)
    ensures p.GrantAll(caps) == ProcState(p.GrantAll(caps).table, p.nextHandle + |caps|, p.clock)
    ensures p.GrantAll(caps).Fresh()
    ensures forall h :: h in p.GrantAll(caps).table <==> h in p.table || p.nextHandle <= h < p.nextHandle + |caps|
    ensures forall h :: h in p.table ==> p.GrantAll(caps).table[h] == p.table[h]
    ensures forall i :: 0 <= i < |caps| ==> p.GrantAll(caps).table[p.nextHandle + i] == caps[i]
  {
    if caps != [] {
      GrantAllEffect(p, caps[..|caps| - 1]);
    }
  }

  /** The table holds `caps` in order and nothing else. */
  ghost predicate ListsOut(t: Table, caps: seq<Capability>) {
    && (forall h :: h in t ==> h < |caps|)
    && (forall k: nat :: k < |caps| ==> k in t && t[k] == caps[k])
  }

  /** What is granted to a new process, in order, is its table. */
  lemma GrantToNew(p: ProcState, caps: seq<Capability>)
    requires p.table == map[] && p.nextHandle == 0 && |caps| < HANDLE_LIMIT
    ensures ListsOut(p.GrantAll(caps).table, caps)
    ensures p.GrantAll(caps) == ProcState(p.GrantAll(caps).table, |caps|, p.clock)
  {
    GrantAllEffect(p, caps);
    forall k: nat | k < |caps| ensures k in p.GrantAll(caps).table && p.GrantAll(caps).table[k] == caps[k] {
      assert p.GrantAll(caps).table[p.nextHandle + k] == caps[k];
    }
  }

  class Process {
    const id: ProcessId
    var table: Table
    var nextHandle: Word32
    /** The process's clocks, held inline: the value an `EventClock` shows. */
    var clock: Stamp

    function View(): ProcState
      reads this
    {
      ProcState(table, nextHandle, clock)
    }

    constructor (p: ProcessId)
      ensures id == p && View() == NewProcess(p)
    {
      id, table, nextHandle, clock := p, map[], 0, NewClock(p);
    }

    /** The only way a capability enters a table. */
    method Grant(cap: Capability) returns (h: Handle)
      modifies this`table, this`nextHandle
      ensures View() == old(View()).Grant(cap)
      ensures h == old(nextHandle) && h in table && table[h] == cap
      ensures old(View()).HasRoom(1) ==> h !in old(table) && View().Fresh()
    {
      h := nextHandle;
      nextHandle := (nextHandle + 1) % HANDLE_LIMIT;
      table := table[h := cap];
    }

    method GrantEach(caps: seq<Capability>) returns (hs: seq<Handle>)
      modifies this`table, this`nextHandle
      ensures View() == old(View()).GrantAll(caps)
      ensures hs == HandlesFrom(old(nextHandle), |caps|)
    {
      hs := [];
      for i := 0 to |caps|
        invariant View() == old(View()).GrantAll(caps[..i])
        invariant hs == HandlesFrom(old(nextHandle), i)
      {
        GrantAllCounter(old(View()), caps[..i]);
        assert caps[..i + 1][..i] == caps[..i];
        var h := Grant(caps[i]);
        hs := hs + [h];
      }
      assert caps[..|caps|] == caps;
    }

    method Lookup(h: Handle) returns (cap: Option<Capability>)
      ensures cap == if h in table then Some(table[h]) else None
    {
      cap := if h in table then Some(table[h]) else None;
    }

    /** Afterwards the handle resolves to nothing. */
    method Take(h: Handle) returns (cap: Option<Capability>)
      modifies this`table
      ensures cap == if h in old(table) then Some(old(table)[h]) else None
      ensures View() == old(View()).(table := old(table) - {h})
    {
      cap := if h in table then Some(table[h]) else None;
      table := table - {h};
    }

    method RecordLocal() returns (s: Stamp)
      modifies this`clock
      ensures s == LocalEvent(old(clock)) && View() == old(View()).(clock := s)
    {
      clock := LocalEvent(clock);
      s := clock;
    }

    method RecordSend() returns (s: Stamp)
      modifies this`clock
      ensures s == LocalEvent(old(clock)) && View() == old(View()).(clock := s)
    {
      s := RecordLocal();
    }

    method RecordReceive(sent: Stamp) returns (s: Stamp)
      modifies this`clock
      ensures s == ReceiveEvent(old(clock), sent) && View() == old(View()).(clock := s)
    {
      clock := ReceiveEvent(clock, sent);
      s := clock;
    }
  }

  /** All the handles of a table, in ascending order. */
  ghost predicate Listing(hs: seq<Handle>, t: Table) {
    && (forall i, j :: 0 <= i < j < |hs| ==> hs[i] < hs[j])
    && (forall h :: h in hs <==> h in t)
  }

  lemma {:induction false} AscendingAtLeast(hs: seq<Handle>, t: Table, i: nat)
    requires Listing(hs, t) && i < |hs|
    ensures i <= hs[i]
  {
    if i > 0 {
      AscendingAtLeast(hs, t, i - 1);
    }
  }

  lemma {:induction false} ListingStarts(hs: seq<Handle>, t: Table, n: nat, i: nat)
    requires Listing(hs, t) && (forall h: nat :: h in t <==> h < n) && i <= n
    ensures i <= |hs| && forall j :: 0 <= j < i ==> hs[j] == j
  {
    if i > 0 {
      ListingStarts(hs, t, n, i - 1);
      assert i - 1 in t && i - 1 in hs;
      var at :| 0 <= at < |hs| && hs[at] == i - 1;
      AscendingAtLeast(hs, t, at);
      AscendingAtLeast(hs, t, i - 1);
    }
  }

  /** The listing of a table that has lost nothing is the handles in the order they were issued. */
  lemma ListingOfFirst(hs: seq<Handle>, t: Table, n: nat)
    requires Listing(hs, t) && forall h: nat :: h in t <==> h < n
    ensures |hs| == n && forall j: nat :: j < n ==> hs[j] == j
  {
    ListingStarts(hs, t, n, n);
    if hs != [] {
      AscendingAtLeast(hs, t, |hs| - 1);
      assert hs[|hs| - 1] in hs;
    }
  }

  lemma {:induction false} SmallestExists(s: set<Handle>) returns (h: Handle)
    requires s != {}
    ensures h in s && forall k :: k in s ==> h <= k
    decreases s
  {
    h :| h in s;
    if s != {h} {
      var k := SmallestExists(s - {h});
      assert forall other :: other in s ==> other == h || other in s - {h};
      h := if k < h then k else h;
    }
  }

  /** Sorts a table's handles. */
  method SortedHandles(p: Process) returns (hs: seq<Handle>)
    ensures Listing(hs, p.table)
  {
    hs := [];
    var rest := p.table.Keys;
    while rest != {}
      invariant rest <= p.table.Keys && forall h :: h in hs <==> h in p.table.Keys - rest
      invariant forall i, j :: 0 <= i < j < |hs| ==> hs[i] < hs[j]
      invariant forall i, h :: 0 <= i < |hs| && h in rest ==> hs[i] < h
      decreases rest
    {
      ghost var least := SmallestExists(rest);
      var h :| h in rest && forall k :: k in rest ==> h <= k;
      hs := hs + [h];
      rest := rest - {h};
    }
  }
}
