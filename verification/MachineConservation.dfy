/** Capabilities are conserved: how many places (table entries, messages in flight) hold a capability
    changes only by what a batch reissues and derives. Stated for each capability, this is equality of
    the multisets of all held capabilities. */
module MachineConservation {
  import opened Wrappers
  import opened Rights
  import opened Capabilities
  import opened Clocks
  import opened Processes
  import opened Transfers
  import opened Channels
  import opened Scheduling
  import opened Machine

  /** One if the two are the same capability. */
  function IfSame(a: Capability, c: Capability): nat {
    if a == c then 1 else 0
  }

  function CountIn(caps: seq<Capability>, c: Capability): nat {
    if caps == [] then 0 else CountIn(caps[..|caps| - 1], c) + IfSame(caps[|caps| - 1], c)
  }

  // ---- one table ----

  /** How many handles below `n` hold `c`. */
  function HeldBelow(t: Table, n: nat, c: Capability): nat {
    if n == 0 then 0 else HeldBelow(t, n - 1, c) + if n - 1 in t then IfSame(t[n - 1], c) else 0
  }

  function Held(p: ProcState, c: Capability): nat {
    HeldBelow(p.table, p.nextHandle, c)
  }

  lemma {:induction false} HeldSame(t: Table, t': Table, n: nat, c: Capability)
    requires forall h: nat :: h < n ==> (h in t <==> h in t') && (h in t ==> t[h] == t'[h])
    ensures HeldBelow(t, n, c) == HeldBelow(t', n, c)
  {
    if n > 0 {
      HeldSame(t, t', n - 1, c);
    }
  }

  lemma HeldAfterGrant(p: ProcState, cap: Capability, c: Capability)
    requires p.HasRoom(1)
    ensures Held(p.Grant(cap), c) == Held(p, c) + IfSame(cap, c) && p.Grant(cap).Fresh()
  {
    HeldSame(p.table, p.table[p.nextHandle := cap], p.nextHandle, c);
  }

  lemma {:induction false} HeldAfterGrants(p: ProcState, caps: seq<Capability>, c: Capability)
    requires p.HasRoom(|caps|)
    ensures Held(p.GrantAll(caps), c) == Held(p, c) + CountIn(caps, c)
    decreases |caps|
  {
    if caps != [] {
      var n := |caps| - 1;
      HeldAfterGrants(p, caps[..n], c);
      GrantAllEffect(p, caps[..n]);
      HeldAfterGrant(p.GrantAll(caps[..n]), caps[n], c);
    }
  }

  lemma {:induction false} HeldAfterTake(t: Table, h: Handle, n: nat, c: Capability)
    requires h in t && h < n
    ensures HeldBelow(t - {h}, n, c) + IfSame(t[h], c) == HeldBelow(t, n, c)
  {
    if h < n - 1 {
      HeldAfterTake(t, h, n - 1, c);
    } else {
      HeldSame(t, t - {h}, n - 1, c);
    }
  }

  // ---- what a batch takes, delivers, kills and mints ----

  /** How often the first `n` grants take `c` out of the table. */
  function Left(t: Table, grants: seq<Grant>, n: nat, c: Capability): nat
    requires n <= |grants| && forall i :: 0 <= i < |grants| ==> grants[i].h in t
  {
    if n == 0 then 0 else Left(t, grants, n - 1, c) + if Leaves(grants[n - 1]) then IfSame(t[grants[n - 1].h], c) else 0
  }

  /** How often the moves of a batch kill `c`. */
  function Replaced(t: Table, grants: seq<Grant>, n: nat, c: Capability): nat
    requires n <= |grants| && forall i :: 0 <= i < |grants| ==> grants[i].h in t
  {
    if n == 0 then 0 else Replaced(t, grants, n - 1, c) + if grants[n - 1].Move? then IfSame(t[grants[n - 1].h], c) else 0
  }

  /** How often `c` is a reissue or a derived view the batch mints. */
  function Issued(t: Table, grants: seq<Grant>, n: nat, c: Capability): nat
    requires n <= |grants| && forall i :: 0 <= i < |grants| ==> grants[i].h in t
  {
    if n == 0 then 0
    else Issued(t, grants, n - 1, c) + if grants[n - 1].Transfer? then 0 else IfSame(Delivers(t, grants[n - 1]), c)
  }

  lemma {:induction false} HeldAfterBatch(k: KernelState, p: ProcState, grants: seq<Grant>, n: nat, c: Capability)
    requires Admissible(k, p.table, grants) && n <= |grants| && p.Fresh()
    ensures HeldBelow(p.table - TakenHandles(grants, n), p.nextHandle, c) + Left(p.table, grants, n, c) == Held(p, c)
  {
    if n == 0 {
      assert p.table - TakenHandles(grants, 0) == p.table;
    } else {
      HeldAfterBatch(k, p, grants, n - 1, c);
      var g, rest := grants[n - 1], p.table - TakenHandles(grants, n - 1);
      if Leaves(g) {
        assert g.h in rest;
        HeldAfterTake(rest, g.h, p.nextHandle, c);
        assert p.table - TakenHandles(grants, n) == rest - {g.h};
      } else {
        assert TakenHandles(grants, n) == TakenHandles(grants, n - 1);
      }
    }
  }

  lemma {:induction false} DeliveredBalance(t: Table, grants: seq<Grant>, delivered: seq<Capability>, n: nat, c: Capability)
    requires n <= |grants| == |delivered|
    requires forall i :: 0 <= i < |grants| ==> grants[i].h in t && delivered[i] == Delivers(t, grants[i])
    ensures CountIn(delivered[..n], c) + Replaced(t, grants, n, c) == Left(t, grants, n, c) + Issued(t, grants, n, c)
  {
    if n > 0 {
      DeliveredBalance(t, grants, delivered, n - 1, c);
      assert delivered[..n][..n - 1] == delivered[..n - 1];
    }
  }

  /** A batch's balance: what stays in the table and what is delivered is what the table held, with the
      moved capabilities replaced by their reissues and the derived ones added. */
  lemma BatchBalance(k: KernelState, p: ProcState, grants: seq<Grant>, c: Capability)
    requires Admissible(k, p.table, grants) && p.Fresh()
    ensures var a, n := Effect(k, p.table, grants, |grants|), |grants|;
            HeldBelow(a.table, p.nextHandle, c) + CountIn(a.delivered, c) + Replaced(p.table, grants, n, c) ==
            Held(p, c) + Issued(p.table, grants, n, c)
  {
    var a, n := Effect(k, p.table, grants, |grants|), |grants|;
    HeldAfterBatch(k, p, grants, n, c);
    DeliveredBalance(p.table, grants, a.delivered, n, c);
    assert a.delivered[..n] == a.delivered;
  }

  // ---- all tables, all queues ----

  function AllHeld(procs: map<ProcessId, ProcState>, n: nat, c: Capability): nat {
    if n == 0 then 0 else AllHeld(procs, n - 1, c) + if n - 1 in procs then Held(procs[n - 1], c) else 0
  }

  function InMessages(q: seq<Message>, c: Capability): nat {
    if q == [] then 0 else CountIn(q[0].caps, c) + InMessages(q[1..], c)
  }

  function AllInFlight(queues: Queues, n: nat, c: Capability): nat {
    if n == 0 then 0 else AllInFlight(queues, n - 1, c) + if n - 1 in queues then InMessages(queues[n - 1], c) else 0
  }

  /** In how many places, tables and queued messages together, `c` is held. */
  function Total(s: Sys, c: Capability): nat {
    AllHeld(s.sched.procs, s.sched.nextPid, c) + AllInFlight(s.queues, s.kernel.nextId, c)
  }

  lemma {:induction false} AllHeldSame(procs: map<ProcessId, ProcState>, procs': map<ProcessId, ProcState>, n: nat, c: Capability)
    requires forall p: nat :: p < n ==> (p in procs <==> p in procs') && (p in procs ==> procs[p] == procs'[p])
    ensures AllHeld(procs, n, c) == AllHeld(procs', n, c)
  {
    if n > 0 {
      AllHeldSame(procs, procs', n - 1, c);
    }
  }

  lemma {:induction false} AllHeldAfter(procs: map<ProcessId, ProcState>, p: ProcessId, proc: ProcState, n: nat, c: Capability)
    requires p in procs && p < n
    ensures AllHeld(procs[p := proc], n, c) + Held(procs[p], c) == AllHeld(procs, n, c) + Held(proc, c)
  {
    if p < n - 1 {
      AllHeldAfter(procs, p, proc, n - 1, c);
    } else {
      AllHeldSame(procs, procs[p := proc], n - 1, c);
    }
  }

  lemma {:induction false} InFlightSame(queues: Queues, queues': Queues, n: nat, c: Capability)
    requires forall o: nat :: o < n ==> (o in queues <==> o in queues') && (o in queues ==> queues[o] == queues'[o])
    ensures AllInFlight(queues, n, c) == AllInFlight(queues', n, c)
  {
    if n > 0 {
      InFlightSame(queues, queues', n - 1, c);
    }
  }

  lemma {:induction false} InFlightAfter(queues: Queues, o: ObjectId, q: seq<Message>, n: nat, c: Capability)
    requires o in queues && o < n
    ensures AllInFlight(queues[o := q], n, c) + InMessages(queues[o], c) == AllInFlight(queues, n, c) + InMessages(q, c)
  {
    if o < n - 1 {
      InFlightAfter(queues, o, q, n - 1, c);
    } else {
      InFlightSame(queues, queues[o := q], n - 1, c);
    }
  }

  lemma {:induction false} InMessagesPush(q: seq<Message>, m: Message, c: Capability)
    ensures InMessages(q + [m], c) == InMessages(q, c) + CountIn(m.caps, c)
    decreases |q|
  {
    if q == [] {
      assert q + [m] == [m] && [m][1..] == [];
    } else {
      assert (q + [m])[1..] == q[1..] + [m];
      InMessagesPush(q[1..], m, c);
    }
  }

  // ---- the operations ----

  /** Handles and ids have been issued in order. */
  ghost predicate InOrder(s: Sys) {
    && (forall p :: p in s.sched.procs ==> p < s.sched.nextPid && s.sched.procs[p].Fresh())
    && (forall o :: o in s.queues ==> o < s.kernel.nextId)
  }

  /** Receiving moves capabilities from the channel to the receiver, and neither adds nor loses one. */
  lemma ReceiveConserves(s: Sys, op: Op, c: Capability)
    requires InOrder(s) && op.ReceiveOn?
    requires op.p in s.sched.procs && op.channel.obj in s.queues && s.queues[op.channel.obj] != [] ==>
             s.sched.procs[op.p].HasRoom(|s.queues[op.channel.obj][0].caps|)
    ensures Total(Step(s, op), c) == Total(s, c)
  {
    if op.p in s.sched.procs {
      var r := ReceiveOutcome(s.kernel, s.queues, op.channel, s.sched.procs[op.p]);
      if r.Ok? && r.value.Some? {
        var o := op.channel.obj;
        HeldAfterGrants(s.sched.procs[op.p], s.queues[o][0].caps, c);
        AllHeldAfter(s.sched.procs, op.p, r.value.value.receiver, s.sched.nextPid, c);
        InFlightAfter(s.queues, o, s.queues[o][1..], s.kernel.nextId, c);
      }
    }
  }

  /** A refused send or spawn changes no table, no queue, no epoch and no clock. */
  lemma RefusedChangesNothing(s: Sys, op: Op)
    requires op.SendOn? || op.SpawnFrom?
    requires op.SendOn? && op.p in s.sched.procs ==>
             SendOutcome(s.kernel, s.queues, op.channel, s.sched.procs[op.p], op.grants, op.data).Err?
    requires op.SpawnFrom? ==> s.sched.SpawnChild(s.kernel, op.parent, op.grants).Err?
    ensures Step(s, op) == s
  {
  }

  /** The total after one process's table and one queue have changed. */
  lemma TotalAfterSend(s: Sys, p: ProcessId, proc: ProcState, o: ObjectId, m: Message, k: KernelState, c: Capability)
    requires InOrder(s) && p in s.sched.procs && o in s.queues && k.nextId == s.kernel.nextId
    ensures var s' := WithProc(s.(kernel := k, queues := s.queues[o := s.queues[o] + [m]]), p, proc);
            Total(s', c) + Held(s.sched.procs[p], c) == Total(s, c) + Held(proc, c) + CountIn(m.caps, c)
  {
    AllHeldAfter(s.sched.procs, p, proc, s.sched.nextPid, c);
    InMessagesPush(s.queues[o], m, c);
    InFlightAfter(s.queues, o, s.queues[o] + [m], s.kernel.nextId, c);
  }

  /** The total after one process's table has changed and another process has been added. */
  lemma TotalAfterSpawn(s: Sys, p: ProcessId, proc: ProcState, born: ProcState, s': Sys, c: Capability)
    requires InOrder(s) && p in s.sched.procs && s'.kernel.nextId == s.kernel.nextId && s'.queues == s.queues
    requires s'.sched.procs == s.sched.procs[p := proc][s.sched.nextPid := born] && s'.sched.nextPid == s.sched.nextPid + 1
    ensures Total(s', c) + Held(s.sched.procs[p], c) == Total(s, c) + Held(proc, c) + Held(born, c)
  {
    AllHeldAfter(s.sched.procs, p, proc, s.sched.nextPid, c);
    AllHeldSame(s.sched.procs[p := proc], s'.sched.procs, s.sched.nextPid, c);
  }

  /** A send replaces each moved capability by its reissue and adds each derived one; nothing else. */
  lemma SendConserves(s: Sys, op: Op, c: Capability)
    requires InOrder(s) && op.SendOn? && op.p in s.sched.procs
    requires SendOutcome(s.kernel, s.queues, op.channel, s.sched.procs[op.p], op.grants, op.data).Ok?
    ensures Admissible(s.kernel, s.sched.procs[op.p].table, op.grants)
    ensures var t, n := s.sched.procs[op.p].table, |op.grants|;
            Total(Step(s, op), c) + Replaced(t, op.grants, n, c) == Total(s, c) + Issued(t, op.grants, n, c)
  {
    var k, sender, m := SendIs(s, op);
    BatchBalance(s.kernel, s.sched.procs[op.p], op.grants, c);
    TotalAfterSend(s, op.p, sender, op.channel.obj, m, k, c);
  }

  lemma HeldByNew(child: ProcState, caps: seq<Capability>, c: Capability)
    requires child.table == map[] && child.nextHandle == 0 && |caps| < HANDLE_LIMIT
    ensures Held(child.GrantAll(caps), c) == CountIn(caps, c)
  {
    HeldAfterGrants(child, caps, c);
  }

  /** So does a spawn, with the child's table in the place of the message. */
  lemma SpawnConserves(s: Sys, op: Op, c: Capability)
    requires InOrder(s) && op.SpawnFrom? && s.sched.SpawnChild(s.kernel, op.parent, op.grants).Ok?
    requires |op.grants| < HANDLE_LIMIT
    ensures op.parent in s.sched.procs && Admissible(s.kernel, s.sched.procs[op.parent].table, op.grants)
    ensures var t, n := s.sched.procs[op.parent].table, |op.grants|;
            Total(Step(s, op), c) + Replaced(t, op.grants, n, c) == Total(s, c) + Issued(t, op.grants, n, c)
  {
    var k, parent, delivered, born := SpawnIs(s, op);
    BatchBalance(s.kernel, s.sched.procs[op.parent], op.grants, c);
    HeldByNew(Newborn(s.sched.nextPid, parent.clock), delivered, c);
    TotalAfterSpawn(s, op.parent, parent, born, Step(s, op), c);
  }
}
