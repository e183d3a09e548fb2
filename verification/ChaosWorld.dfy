/** The invariant the harness checks, and the proof that every operation keeps it: the kernel always
    does what the model predicts. */
module ChaosWorld {
  import opened Wrappers
  import opened Rights
  import opened Capabilities
  import opened Clocks
  import opened Processes
  import opened Channels
  import opened Causality
  import opened Machine
  import opened Chaos
  import opened ChaosMatch
  import opened ChaosEvents
  import T = Transfers
  import S = Scheduling
  import MC = MachineCausality
  import Regions

  /** A process always holds every channel, with at least the rights children get. */
  ghost predicate HoldsChannels(mt: TableModel) {
    && (forall c :: 0 <= c < CHANNELS ==> ChannelHandles(mt, c) != {})
    && (forall h :: h in mt && !IsRegion(mt[h]) ==> CHILD_RIGHTS <= mt[h].rights)
  }

  ghost predicate ProcMatches(sh: Shadow, proc: ProcState, pm: ProcModel) {
    TableMatches(sh, proc.table, pm.table) && HoldsChannels(pm.table) && proc.Fresh()
  }

  ghost predicate ProcsMatch(sh: Shadow, sched: S.SchedState) {
    && sched.nextPid == |sh.procs| > 0 && (forall p: nat :: p in sched.procs <==> p < |sh.procs|)
    && forall p :: 0 <= p < |sh.procs| ==> sh.procs[p].pid == p && ProcMatches(sh, sched.procs[p], sh.procs[p])
  }

  ghost predicate AllRegions(caps: seq<CapModel>) {
    forall i :: 0 <= i < |caps| ==> IsRegion(caps[i])
  }

  ghost predicate MessageMatches(sh: Shadow, stamps: seq<Stamp>, m: Message, mm: MessageModel) {
    && CapsMatch(sh, m.caps, mm.caps) && AllRegions(mm.caps)
    && mm.sendEvent < |stamps| && m.sentAt == stamps[mm.sendEvent]
  }

  ghost predicate FlightMatches(sh: Shadow, stamps: seq<Stamp>, q: seq<Message>, ms: seq<MessageModel>) {
    |q| == |ms| && forall n :: 0 <= n < |q| ==> MessageMatches(sh, stamps, q[n], ms[n])
  }

  ghost predicate FlightsMatch(sh: Shadow, stamps: seq<Stamp>, queues: Queues) {
    |sh.inFlight| == CHANNELS &&
    forall c: nat :: c < CHANNELS ==> c in queues && FlightMatches(sh, stamps, queues[c], sh.inFlight[c])
  }

  ghost predicate StashMatches(sh: Shadow) {
    forall i :: 0 <= i < |sh.stash| ==> CapMatches(sh, sh.stash[i].0, sh.stash[i].1)
  }

  ghost predicate StoreMatches(regions: seq<RegionModel>, store: Regions.Store) {
    && (forall r: nat :: r < |regions| && regions[r].alive ==> CHANNELS + r in store && store[CHANNELS + r] == regions[r].bytes)
    && (forall o :: o in store ==> CHANNELS <= o < CHANNELS + |regions| && regions[o - CHANNELS].alive)
  }

  ghost predicate IdsMatch(sh: Shadow, k: KernelState) {
    KernelMatches(sh, k) && k.nextId == CHANNELS + |sh.regions|
  }

  /** The kernel is what the model says, and the event graph is the true one. */
  ghost predicate Matches(w: World, log: Log) {
    && IdsMatch(w.shadow, w.sys.kernel) && StoreMatches(w.shadow.regions, w.sys.store)
    && ProcsMatch(w.shadow, w.sys.sched) && FlightsMatch(w.shadow, w.events.stamps, w.sys.queues)
    && StashMatches(w.shadow) && EventsMatch(w.events, w.sys.sched.procs, w.sys.sched.nextPid, log)
  }

  /** Every process can still be given `n` capabilities before its handle counter wraps. */
  ghost predicate Room(w: World, n: nat) {
    forall p :: p in w.sys.sched.procs ==> w.sys.sched.procs[p].nextHandle + n < HANDLE_LIMIT
  }

  /** No message in flight carries more than `g` capabilities. */
  ghost predicate Light(w: World, g: nat) {
    forall c, n :: 0 <= c < |w.shadow.inFlight| && 0 <= n < |w.shadow.inFlight[c]| ==> |w.shadow.inFlight[c][n].caps| <= g
  }

  // ---- the sweep passes whenever kernel and model match ----

  lemma {:induction false} AuditorIs(sh: Shadow, r: nat, n: nat)
    requires n <= |sh.stash|
    ensures Auditor(sh, r, n).Some? ==> exists i: nat :: i < n && Audits(sh, r, i) && Auditor(sh, r, n) == Some(sh.stash[i].0)
    ensures Auditor(sh, r, n).None? <==> forall i: nat :: i < n ==> !Audits(sh, r, i)
  {
    if n > 0 {
      AuditorIs(sh, r, n - 1);
    }
  }

  lemma {:induction false} AliveFromRegions(regions: seq<RegionModel>, n: nat)
    requires n <= |regions|
    ensures |AliveIds(regions, n)| == CountAlive(regions[..n])
  {
    if n > 0 {
      AliveFromRegions(regions, n - 1);
      assert regions[..n][..n - 1] == regions[..n - 1];
    }
  }

  function AliveIds(regions: seq<RegionModel>, n: nat): (s: set<ObjectId>)
    requires n <= |regions|
    ensures forall o :: o in s <==> CHANNELS <= o < CHANNELS + n && regions[o - CHANNELS].alive
  {
    if n == 0 then {} else AliveIds(regions, n - 1) + if regions[n - 1].alive then {CHANNELS + n - 1} else {}
  }

  lemma RegionCountMatches(regions: seq<RegionModel>, store: Regions.Store)
    requires StoreMatches(regions, store)
    ensures |store| == CountAlive(regions)
  {
    var alive := AliveIds(regions, |regions|);
    forall o ensures o in store.Keys <==> o in alive {
      if o in alive {
        assert regions[o - CHANNELS].alive && CHANNELS + (o - CHANNELS) in store;
      }
    }
    assert store.Keys == alive;
    AliveFromRegions(regions, |regions|);
    assert regions[..|regions|] == regions;
  }

  lemma RegionsSwept(w: World, r: nat)
    requires IdsMatch(w.shadow, w.sys.kernel) && StoreMatches(w.shadow.regions, w.sys.store) && StashMatches(w.shadow)
    requires r < |w.shadow.regions|
    ensures RegionSwept(w, r)
  {
    var n := |w.shadow.stash|;
    AuditorIs(w.shadow, r, n);
    if Auditor(w.shadow, r, n).Some? {
      var i: nat :| i < n && Audits(w.shadow, r, i) && Auditor(w.shadow, r, n) == Some(w.shadow.stash[i].0);
      var (cap, m) := w.shadow.stash[i];
      assert CapMatches(w.shadow, cap, m);
      ChecksAreExact(w.shadow, w.sys.kernel, cap, m, {READ});
      assert RegionMatches(w.shadow.regions[r], w.sys.kernel);
    }
  }

  lemma TablesSwept(w: World, p: nat)
    requires ProcsMatch(w.shadow, w.sys.sched) && p < |w.shadow.procs|
    ensures TableSwept(w, p)
  {
    assert ProcMatches(w.shadow, w.sys.sched.procs[p], w.shadow.procs[p]);
    assert Exists(w, p);
    forall h | h in w.shadow.procs[p].table
      ensures var m, cap := w.shadow.procs[p].table[h], ProcOf(w, p).table[h];
              ValidObj(w.shadow, m.obj) && cap.obj == ObjectIdOf(w.shadow, m.obj) && cap.rights == m.rights
    {
      assert CapMatches(w.shadow, ProcOf(w, p).table[h], w.shadow.procs[p].table[h]);
    }
  }

  /** The full-state audit passes in every matching world. */
  lemma MatchingIsSwept(w: World, log: Log)
    requires Matches(w, log)
    ensures Swept(w)
  {
    forall p: nat | p < |w.shadow.procs| ensures TableSwept(w, p) {
      TablesSwept(w, p);
    }
    forall i: nat | i < |w.shadow.stash| ensures StashSwept(w, i) {
      assert CapMatches(w.shadow, w.shadow.stash[i].0, w.shadow.stash[i].1);
      ChecksAreExact(w.shadow, w.sys.kernel, w.shadow.stash[i].0, w.shadow.stash[i].1, NONE);
    }
    RegionCountMatches(w.shadow.regions, w.sys.store);
    forall r: nat | r < |w.shadow.regions| ensures RegionSwept(w, r) {
      RegionsSwept(w, r);
    }
  }
}
