/** What the harness's audit covers: everything held was seen, so no region a process can read escapes it. */
module ChaosAudit {
  import opened Wrappers
  import opened Rights
  import opened Capabilities
  import opened Clocks
  import opened Processes
  import opened Causality
  import opened Machine
  import opened Chaos
  import opened ChaosMatch
  import opened ChaosWorld
  import Channels
  import Regions
  import S = Scheduling
  import T = Transfers

  type Stash = seq<(Capability, CapModel)>

  /** Every entry of the table, with the model of it, has been seen. */
  ghost predicate EntriesSeen(t: Table, mt: TableModel, stash: Stash) {
    forall h :: h in mt && h in t ==> (t[h], mt[h]) in stash
  }

  /** Everything held by anyone has been seen. */
  ghost predicate AllSeen(w: World) {
    forall p :: 0 <= p < |w.shadow.procs| ==> Exists(w, p) && EntriesSeen(ProcOf(w, p).table, w.shadow.procs[p].table, w.shadow.stash)
  }

  /** The model names its processes in order. */
  ghost predicate Numbered(w: World) {
    forall p :: 0 <= p < |w.shadow.procs| ==> w.shadow.procs[p].pid == p && Exists(w, p)
  }

  /** Process `p` holds what it held, as far as it still does. */
  ghost predicate NothingNew(w: World, w': World, p: nat)
    requires p < |w.shadow.procs| && p < |w'.shadow.procs| && Exists(w, p) && Exists(w', p)
  {
    var t, mt, t', mt' := ProcOf(w, p).table, w.shadow.procs[p].table, ProcOf(w', p).table, w'.shadow.procs[p].table;
    forall h :: h in mt' && h in t' ==> h in mt && h in t && t'[h] == t[h] && mt'[h] == mt[h]
  }

  ghost predicate Accounts(w: World, w': World, p: nat)
    requires p < |w'.shadow.procs| && Exists(w', p)
  {
    || (p < |w.shadow.procs| && Exists(w, p) && NothingNew(w, w', p))
    || EntriesSeen(ProcOf(w', p).table, w'.shadow.procs[p].table, w'.shadow.stash)
  }

  /** Whoever holds anything new had it seen. */
  lemma SeenFrom(w: World, w': World)
    requires AllSeen(w) && Numbered(w') && w.shadow.stash <= w'.shadow.stash
    requires forall p :: 0 <= p < |w'.shadow.procs| ==> Accounts(w, w', p)
    ensures AllSeen(w')
  {
    forall p | 0 <= p < |w'.shadow.procs|
      ensures Exists(w', p) && EntriesSeen(ProcOf(w', p).table, w'.shadow.procs[p].table, w'.shadow.stash)
    {
      assert Accounts(w, w', p);
    }
  }

  // ---- what becomes of tables ----

  /** Part of a table. */
  predicate Within<V(==)>(t': map<Handle, V>, t: map<Handle, V>) {
    forall h | h in t' :: h in t && t'[h] == t[h]
  }

  lemma {:induction false} ModelWithin(a: Applying, gs: seq<Choice>, n: nat)
    requires |a.caps| == |gs| && n <= |gs|
    ensures Within(ModelApply(a, gs, n).table, a.table)
  {
    if n > 0 {
      ModelWithin(a, gs, n - 1);
    }
  }

  /** A batch only takes entries away, from the model's table and from the kernel's. */
  lemma BatchWithin(sh: Shadow, p: nat, gs: seq<Choice>, k: KernelState, t: Table, grants: seq<T.Grant>)
    requires p < |sh.procs| && Chosen(sh, sh.procs[p].table, gs)
    ensures var r := ApplyGrantsModel(sh, p, gs);
            r.Some? ==>
              && |r.value.0.procs| == |sh.procs| && Within(r.value.0.procs[p].table, sh.procs[p].table) && r.value.0.stash == sh.stash
              && r.value.0.procs == sh.procs[p := sh.procs[p].(table := r.value.0.procs[p].table)]
    ensures T.RunBatch(k, t, grants).Ok? ==> Within(T.RunBatch(k, t, grants).value.table, t)
  {
    var caps := ModelResolve(sh, sh.procs[p].table, gs, |gs|);
    if caps.Some? {
      ModelWithin(Applying(sh.regions, sh.procs[p].table, caps.value), gs, |gs|);
    }
    T.BatchEffect(k, t, grants);
  }

  /** An entry of a mirrored table is a delivery at one of the handles, or was there before. */
  lemma {:induction false} MirrorIs(mt: TableModel, hs: seq<Handle>, ms: seq<CapModel>)
    requires |hs| == |ms|
    ensures forall h :: h in Mirror(mt, hs, ms) ==>
              (exists i :: 0 <= i < |hs| && hs[i] == h && Mirror(mt, hs, ms)[h] == ms[i]) ||
              (h !in hs && h in mt && Mirror(mt, hs, ms)[h] == mt[h])
    decreases |hs|
  {
    if hs != [] {
      var n := |hs| - 1;
      MirrorIs(mt, hs[..n], ms[..n]);
      forall h | h in Mirror(mt, hs, ms) && h != hs[n]
        ensures (exists i :: 0 <= i < |hs| && hs[i] == h && Mirror(mt, hs, ms)[h] == ms[i]) ||
                (h !in hs && h in mt && Mirror(mt, hs, ms)[h] == mt[h])
      {
        assert h in Mirror(mt, hs[..n], ms[..n]);
        assert hs == hs[..n] + [hs[n]];
      }
    }
  }

  lemma {:induction false} MirrorSeen(t: Table, t': Table, mt: TableModel, hs: seq<Handle>, ms: seq<CapModel>, stash: Stash)
    requires |hs| == |ms| && (forall h :: h in hs ==> h in t') && EntriesSeen(t, mt, stash) && mt.Keys <= t.Keys
    requires forall h :: h in t ==> h in t' && t'[h] == t[h]
    ensures EntriesSeen(t', Mirror(mt, hs, ms), stash + Stashed(t', hs, ms))
  {
    MirrorIs(mt, hs, ms);
    var more := Stashed(t', hs, ms);
    forall h | h in Mirror(mt, hs, ms) && h in t' ensures (t'[h], Mirror(mt, hs, ms)[h]) in stash + more {
      if i :| 0 <= i < |hs| && hs[i] == h && Mirror(mt, hs, ms)[h] == ms[i] {
        assert more[i] == (t'[h], ms[i]);
        assert more[i] in stash + more;
      }
    }
  }

  // ---- operation by operation ----

  lemma InstallSeen(w: World, p: nat, cap: Capability, m: CapModel)
    requires AllSeen(w) && Numbered(w) && Exists(w, p)
    ensures AllSeen(Install(w, p, cap, m)) && Numbered(Install(w, p, cap, m))
  {
    var w' := Install(w, p, cap, m);
    forall q | 0 <= q < |w'.shadow.procs| ensures Exists(w', q) && w'.shadow.procs[q].pid == q && Accounts(w, w', q) {
      assert Exists(w, q) && w.shadow.procs[q].pid == q;
      assert EntriesSeen(ProcOf(w, q).table, w.shadow.procs[q].table, w.shadow.stash);
      if q == p {
        InstalledSeen(ProcOf(w, p), w.shadow.procs[p].table, cap, m, w.shadow.stash);
      }
    }
    SeenFrom(w, w');
  }

  lemma InstalledSeen(proc: ProcState, mt: TableModel, cap: Capability, m: CapModel, stash: Stash)
    requires EntriesSeen(proc.table, mt, stash)
    ensures EntriesSeen(proc.Grant(cap).table, mt[proc.nextHandle := m], stash + [(cap, m)])
  {
    assert (stash + [(cap, m)])[|stash|] == (cap, m);
  }

  lemma NewRegionSeen(w: World, p: nat, size: nat)
    requires AllSeen(w) && Numbered(w) && Exists(w, p)
    ensures AllSeen(ExecuteNewRegion(w, p, size).value)
  {
    var (k, store, cap) := Regions.NewRegion(w.sys.kernel, w.sys.store, size);
    var r := RegionModel(cap.obj, true, 0, Regions.Zeros(size));
    var w' := w.(sys := w.sys.(kernel := k, store := store), shadow := w.shadow.(regions := w.shadow.regions + [r]));
    forall q | 0 <= q < |w'.shadow.procs|
      ensures Exists(w', q) && w'.shadow.procs[q].pid == q
      ensures EntriesSeen(ProcOf(w', q).table, w'.shadow.procs[q].table, w'.shadow.stash)
    {
      assert Exists(w, q) && EntriesSeen(ProcOf(w, q).table, w.shadow.procs[q].table, w.shadow.stash);
    }
    InstallSeen(w', p, cap, CapModel(Region(|w.shadow.regions|), cap.rights, 0));
  }

  /** The tables are as they were but for process `p`'s. */
  ghost predicate OthersKept(w: World, w': World, p: nat) {
    && w.shadow.stash <= w'.shadow.stash && |w.shadow.procs| <= |w'.shadow.procs|
    && forall q :: 0 <= q < |w.shadow.procs| && q != p ==>
         w'.shadow.procs[q] == w.shadow.procs[q] && q in w.sys.sched.procs && q in w'.sys.sched.procs &&
         w'.sys.sched.procs[q].table == w.sys.sched.procs[q].table
  }

  lemma OneChanged(w: World, w': World, p: nat)
    requires AllSeen(w) && Numbered(w) && Numbered(w') && OthersKept(w, w', p) && p < |w.shadow.procs|
    requires NothingNew(w, w', p) || EntriesSeen(ProcOf(w', p).table, w'.shadow.procs[p].table, w'.shadow.stash)
    requires forall q :: |w.shadow.procs| <= q < |w'.shadow.procs| ==>
               EntriesSeen(ProcOf(w', q).table, w'.shadow.procs[q].table, w'.shadow.stash)
    ensures AllSeen(w')
  {
    forall q | 0 <= q < |w'.shadow.procs| ensures Accounts(w, w', q) {
      assert Exists(w', q) && w'.shadow.procs[q].pid == q;
      if q < |w.shadow.procs| && q != p {
        assert Exists(w, q) && w.shadow.procs[q].pid == q;
        assert NothingNew(w, w', q);
      }
    }
    SeenFrom(w, w');
  }

  lemma SendSeen(w: World, p: nat, channel: nat, picks: seq<(nat, GrantKind)>, w': World)
    requires AllSeen(w) && Numbered(w) && Numbered(w') && p < |w.shadow.procs| && ExecuteSend(w, p, channel, picks) == Ok(w')
    ensures AllSeen(w')
  {
    if w' != w {
      var gs := ConcreteGrants(w.shadow.procs[p].table, picks);
      BatchWithin(w.shadow, p, gs, w.sys.kernel, ProcOf(w, p).table, ToGrants(gs));
      OneChanged(w, w', p);
    }
  }

  lemma ReceivedTable(proc: ProcState, caps: seq<Capability>)
    requires proc.HasRoom(|caps|)
    ensures var t := proc.GrantAll(caps).table;
            && (forall h :: h in proc.table ==> h in t && t[h] == proc.table[h])
            && forall h :: h in HandlesFrom(proc.nextHandle, |caps|) ==> h in t
  {
    GrantAllEffect(proc, caps);
    HandlesWithoutWrap(proc.nextHandle, |caps|);
  }

  lemma ReceiveSeen(w: World, p: nat, channel: nat, w': World)
    requires AllSeen(w) && Numbered(w) && Numbered(w') && p < |w.shadow.procs| && ExecuteReceive(w, p, channel) == Ok(w')
    requires forall m :: m in w.shadow.inFlight[channel] ==> ProcOf(w, p).HasRoom(|m.caps|)
    requires w.shadow.procs[p].table.Keys == ProcOf(w, p).table.Keys
    ensures AllSeen(w')
  {
    if w' != w {
      var m := w.shadow.inFlight[channel][0];
      var caps := w.sys.queues[ChannelCap(w, p, channel).value.obj][0].caps;
      assert m in w.shadow.inFlight[channel] && |m.caps| == |caps|;
      DeliverySeen(ProcOf(w, p), w.shadow.procs[p].table, caps, m.caps, w.shadow.stash);
      OneChanged(w, w', p);
    }
  }

  lemma DeliverySeen(proc: ProcState, mt: TableModel, caps: seq<Capability>, ms: seq<CapModel>, stash: Stash)
    requires proc.HasRoom(|caps|) && |caps| == |ms| && EntriesSeen(proc.table, mt, stash) && mt.Keys == proc.table.Keys
    ensures var hs, t := HandlesFrom(proc.nextHandle, |caps|), proc.GrantAll(caps).table;
            (forall h :: h in hs ==> h in t) && EntriesSeen(t, Mirror(mt, hs, ms), stash + Stashed(t, hs, ms))
  {
    ReceivedTable(proc, caps);
    MirrorSeen(proc.table, proc.GrantAll(caps).table, mt, HandlesFrom(proc.nextHandle, |caps|), ms, stash);
  }

  /** The child's table is mirrored from nothing, so all of it has been seen. */
  lemma ChildSeen(t: Table, hs: seq<Handle>, models: seq<CapModel>, stash: Stash)
    requires |hs| == |models| && forall h :: h in hs ==> h in t
    ensures EntriesSeen(t, Mirror(map[], hs, models), stash + Stashed(t, hs, models))
  {
    MirrorSeen(map[], t, map[], hs, models, stash);
  }

  lemma BornSeen(w: World, p: nat, k: KernelState, sched: S.SchedState, sh: Shadow, models: seq<CapModel>, w': World)
    requires AllSeen(w) && Numbered(w) && Numbered(w') && p < |w.shadow.procs| && w.sys.sched.nextPid == |w.shadow.procs|
    requires Born(w, p, k, sched, sh, models) == Ok(w') && sh.stash == w.shadow.stash
    requires |sh.procs| == |w.shadow.procs| && sh.procs == w.shadow.procs[p := w.shadow.procs[p].(table := sh.procs[p].table)]
    requires Within(sh.procs[p].table, w.shadow.procs[p].table)
    requires p in sched.procs && Within(sched.procs[p].table, ProcOf(w, p).table)
    requires forall q :: q in w.sys.sched.procs && q != p ==> q in sched.procs && sched.procs[q] == w.sys.sched.procs[q]
    ensures AllSeen(w')
  {
    var child := |w.shadow.procs|;
    var hs := Ascending(sched.procs[child].table.Keys);
    ChildSeen(sched.procs[child].table, hs, models, sh.stash);
    assert w'.sys.sched == sched && w'.shadow.stash == sh.stash + Stashed(sched.procs[child].table, hs, models);
    assert w'.shadow.procs == sh.procs + [ProcModel(child, Mirror(map[], hs, models))];
    FamilySeen(w, w', p);
  }

  lemma FamilySeen(w: World, w': World, p: nat)
    requires AllSeen(w) && Numbered(w) && Numbered(w') && p < |w.shadow.procs| && |w'.shadow.procs| == |w.shadow.procs| + 1
    requires w.shadow.stash <= w'.shadow.stash
    requires forall q :: 0 <= q < |w.shadow.procs| && q != p ==> w'.shadow.procs[q] == w.shadow.procs[q]
    requires forall q :: q in w.sys.sched.procs && q != p ==> q in w'.sys.sched.procs && w'.sys.sched.procs[q] == w.sys.sched.procs[q]
    requires Within(w'.shadow.procs[p].table, w.shadow.procs[p].table) && Within(ProcOf(w', p).table, ProcOf(w, p).table)
    requires EntriesSeen(ProcOf(w', |w.shadow.procs|).table, w'.shadow.procs[|w.shadow.procs|].table, w'.shadow.stash)
    ensures AllSeen(w')
  {
    forall q | 0 <= q < |w.shadow.procs| ensures q in w.sys.sched.procs {
      assert Exists(w, q) && w.shadow.procs[q].pid == q;
    }
    OneChanged(w, w', p);
  }

  lemma SpawnSeen(w: World, p: nat, picks: seq<(nat, GrantKind)>, w': World)
    requires AllSeen(w) && Numbered(w) && Numbered(w') && p < |w.shadow.procs| && ExecuteSpawn(w, p, picks) == Ok(w')
    requires w.sys.sched.nextPid == |w.shadow.procs| && w.sys.sched.nextPid !in w.sys.sched.procs
    ensures AllSeen(w')
  {
    if w' != w {
      var mt := w.shadow.procs[p].table;
      var gs := ConcreteGrants(mt, picks);
      var grants := ChannelGrants(mt) + ToGrants(gs);
      BatchWithin(w.shadow, p, gs, w.sys.kernel, ProcOf(w, p).table, grants);
      var spawned := w.sys.sched.SpawnChild(w.sys.kernel, w.shadow.procs[p].pid, grants).value;
      var r := ApplyGrantsModel(w.shadow, p, gs).value;
      BornSeen(w, p, spawned.0, spawned.1, r.0, ChannelModels() + r.1, w');
    }
  }

  /** The operation leaves the harness's tables and stash alone. */
  ghost predicate Untouched(w: World, w': World) {
    && w'.shadow.procs == w.shadow.procs && w'.shadow.stash == w.shadow.stash
    && w'.sys.sched.procs.Keys == w.sys.sched.procs.Keys
    && forall q :: q in w.sys.sched.procs ==> w'.sys.sched.procs[q].table == w.sys.sched.procs[q].table
  }

  lemma UntouchedSeen(w: World, w': World)
    requires AllSeen(w) && Untouched(w, w')
    ensures AllSeen(w')
  {
    forall p | 0 <= p < |w'.shadow.procs|
      ensures Exists(w', p) && EntriesSeen(ProcOf(w', p).table, w'.shadow.procs[p].table, w'.shadow.stash)
    {
      assert Exists(w, p);
    }
  }

  lemma AccessUntouched(w: World, op: ChaosOp, w': World)
    requires (op.Read? || op.Write? || op.Revoke? || op.Destroy?) && ExecuteAccess(w, op) == Ok(w')
    ensures Untouched(w, w')
  {
  }

  lemma OtherUntouched(w: World, op: ChaosOp, w': World)
    requires Execute(w, op) == Ok(w') && !(op.NewRegion? || op.Send? || op.Receive? || op.Spawn?)
    ensures Untouched(w, w')
  {
    if !op.Local? {
      AccessUntouched(w, op, w');
    }
  }

  lemma MatchingIsNumbered(w: World, log: Log)
    requires Matches(w, log)
    ensures Numbered(w) && w.sys.sched.nextPid == |w.shadow.procs| && w.sys.sched.nextPid !in w.sys.sched.procs
    ensures forall p :: 0 <= p < |w.shadow.procs| ==> w.shadow.procs[p].table.Keys == ProcOf(w, p).table.Keys && ProcOf(w, p).Fresh()
  {
    forall p | 0 <= p < |w.shadow.procs|
      ensures Exists(w, p) && w.shadow.procs[p].pid == p
      ensures w.shadow.procs[p].table.Keys == ProcOf(w, p).table.Keys && ProcOf(w, p).Fresh()
    {
      assert ProcMatches(w.shadow, w.sys.sched.procs[p], w.shadow.procs[p]);
    }
  }

  /** Whatever the operation, everything held afterwards has been seen. */
  lemma StaysSeen(w: World, log: Log, op: ChaosOp, g: nat, w': World, log': Log)
    requires Matches(w, log) && AllSeen(w) && op.p < |w.shadow.procs| && Room(w, g) && Light(w, g)
    requires Execute(w, op) == Ok(w') && Matches(w', log')
    ensures AllSeen(w')
  {
    MatchingIsNumbered(w, log);
    MatchingIsNumbered(w', log');
    match op
    case NewRegion(p, size) => NewRegionSeen(w, p, size);
    case Spawn(p, picks) => SpawnSeen(w, p, picks, w');
    case Send(p, channel, picks) => SendSeen(w, p, channel, picks, w');
    case Receive(p, channel) => ReceiveSeen(w, p, channel, w');
    case _ =>
      OtherUntouched(w, op, w');
      UntouchedSeen(w, w');
  }

  // ---- the audit covers every region that can be read ----

  /** The capability is for region `r`, and has been seen with this model. */
  ghost predicate SeenAs(sh: Shadow, k: KernelState, cap: Capability, m: CapModel, r: nat) {
    KernelMatches(sh, k) && CapMatches(sh, cap, m) && (cap, m) in sh.stash && m.obj == Region(r)
  }

  /** A live capability with read authority that has been seen lets the audit look at its region. */
  lemma SeenIsAudited(sh: Shadow, k: KernelState, cap: Capability, m: CapModel, r: nat)
    requires SeenAs(sh, k, cap, m, r) && k.Permits(cap, {READ})
    ensures r < |sh.regions| && Auditor(sh, r, |sh.stash|).Some?
  {
    ChecksAreExact(sh, k, cap, m, {READ});
    var i: nat :| i < |sh.stash| && sh.stash[i] == (cap, m);
    assert Audits(sh, r, i);
    AuditorIs(sh, r, |sh.stash|);
  }

  lemma HeldIsSeen(w: World, log: Log, p: nat, h: Handle, r: nat) returns (m: CapModel)
    requires Matches(w, log) && AllSeen(w) && p in w.sys.sched.procs && h in w.sys.sched.procs[p].table
    requires w.sys.sched.procs[p].table[h].obj == CHANNELS + r
    ensures SeenAs(w.shadow, w.sys.kernel, w.sys.sched.procs[p].table[h], m, r)
  {
    MatchingIsNumbered(w, log);
    var sh := w.shadow;
    assert ProcMatches(sh, w.sys.sched.procs[p], sh.procs[p]);
    m := sh.procs[p].table[h];
    assert Exists(w, p) && EntriesSeen(ProcOf(w, p).table, sh.procs[p].table, sh.stash);
  }

  /** The audit looks at every region some process can read, through a capability that is live. */
  lemma ReadableIsAudited(w: World, log: Log, p: nat, h: Handle, r: nat)
    requires Matches(w, log) && AllSeen(w) && p in w.sys.sched.procs && h in w.sys.sched.procs[p].table
    requires w.sys.sched.procs[p].table[h].obj == CHANNELS + r && w.sys.kernel.Permits(w.sys.sched.procs[p].table[h], {READ})
    ensures r < |w.shadow.regions| && Auditor(w.shadow, r, |w.shadow.stash|).Some?
  {
    var m := HeldIsSeen(w, log, p, h, r);
    SeenIsAudited(w.shadow, w.sys.kernel, w.sys.sched.procs[p].table[h], m, r);
  }
}
