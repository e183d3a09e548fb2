/** Operation by operation: the kernel does what the model predicts, and both match afterwards. */
module ChaosOps {
  import opened Wrappers
  import opened Rights
  import opened Capabilities
  import opened Clocks
  import opened Processes
  import opened Channels
  import opened Causality
  import opened Data
  import opened Machine
  import opened Chaos
  import opened ChaosMatch
  import opened ChaosEvents
  import opened ChaosWorld
  import T = Transfers
  import S = Scheduling
  import MC = MachineCausality
  import Regions

  // ---- what a change of the model keeps ----

  lemma ProcsKept(sh: Shadow, sh': Shadow, sched: S.SchedState)
    requires Extends(sh, sh') && sh'.procs == sh.procs && ProcsMatch(sh, sched)
    ensures ProcsMatch(sh', sched)
  {
    forall p | 0 <= p < |sh.procs| ensures ProcMatches(sh', sched.procs[p], sh.procs[p]) {
      assert ProcMatches(sh, sched.procs[p], sh.procs[p]);
      TableMatchesKept(sh, sh', sched.procs[p].table, sh.procs[p].table);
    }
  }

  lemma MessageKept(sh: Shadow, sh': Shadow, stamps: seq<Stamp>, more: seq<Stamp>, m: Message, mm: MessageModel)
    requires Extends(sh, sh') && MessageMatches(sh, stamps, m, mm)
    ensures MessageMatches(sh', stamps + more, m, mm)
  {
    CapsMatchKept(sh, sh', m.caps, mm.caps);
  }

  lemma FlightKept(sh: Shadow, sh': Shadow, stamps: seq<Stamp>, more: seq<Stamp>, q: seq<Message>, ms: seq<MessageModel>)
    requires Extends(sh, sh') && FlightMatches(sh, stamps, q, ms)
    ensures FlightMatches(sh', stamps + more, q, ms)
  {
    forall n | 0 <= n < |q| ensures MessageMatches(sh', stamps + more, q[n], ms[n]) {
      MessageKept(sh, sh', stamps, more, q[n], ms[n]);
    }
  }

  lemma FlightsKept(sh: Shadow, sh': Shadow, stamps: seq<Stamp>, more: seq<Stamp>, queues: Queues)
    requires Extends(sh, sh') && sh'.inFlight == sh.inFlight && FlightsMatch(sh, stamps, queues)
    ensures FlightsMatch(sh', stamps + more, queues)
  {
    forall c: nat | c < CHANNELS ensures FlightMatches(sh', stamps + more, queues[c], sh.inFlight[c]) {
      FlightKept(sh, sh', stamps, more, queues[c], sh.inFlight[c]);
    }
  }

  lemma StashKept(sh: Shadow, sh': Shadow)
    requires Extends(sh, sh') && StashMatches(sh) && sh.stash <= sh'.stash
    requires forall i :: |sh.stash| <= i < |sh'.stash| ==> CapMatches(sh', sh'.stash[i].0, sh'.stash[i].1)
    ensures StashMatches(sh')
  {
    forall i | 0 <= i < |sh'.stash| ensures CapMatches(sh', sh'.stash[i].0, sh'.stash[i].1) {
      if i < |sh.stash| {
        CapMatchesKept(sh, sh', sh.stash[i].0, sh.stash[i].1);
      }
    }
  }

  /** One process's table and model replaced. */
  lemma ProcReplaced(sh: Shadow, sh': Shadow, sched: S.SchedState, p: nat, proc: ProcState)
    requires ProcsMatch(sh, sched) && p < |sh.procs| && Extends(sh, sh') && |sh'.procs| == |sh.procs|
    requires sh'.procs == sh.procs[p := ProcModel(p, sh'.procs[p].table)] && ProcMatches(sh', proc, sh'.procs[p])
    ensures ProcsMatch(sh', sched.(procs := sched.procs[p := proc]))
  {
    forall q | 0 <= q < |sh.procs| && q != p ensures ProcMatches(sh', sched.procs[q], sh.procs[q]) {
      assert ProcMatches(sh, sched.procs[q], sh.procs[q]);
      TableMatchesKept(sh, sh', sched.procs[q].table, sh.procs[q].table);
    }
  }

  // ---- local events ----

  lemma {:induction false} LocalMatches(w: World, log: Log, p: nat)
    requires Matches(w, log) && p < |w.shadow.procs|
    ensures ExecuteLocal(w, p).Ok?
    ensures Matches(ExecuteLocal(w, p).value, log + [MC.NextEvent(log, p, None)])
  {
    var sh, proc := w.shadow, w.sys.sched.procs[p];
    assert ProcMatches(sh, proc, sh.procs[p]);
    var stamp := LocalEvent(proc.clock);
    ProcReplaced(sh, sh, w.sys.sched, p, proc.(clock := stamp));
    EventMatches(w.events, w.sys.sched.procs, w.sys.sched.nextPid, log, p, None, proc.(clock := stamp));
    FlightsKept(sh, sh, w.events.stamps, [stamp], w.sys.queues);
  }

  // ---- picking a capability ----

  lemma PickMatches(w: World, log: Log, p: nat, pick: Pick, wantRegion: bool)
    requires Matches(w, log) && p < |w.shadow.procs|
    ensures PickCap(w, p, pick, wantRegion).Ok?
    ensures var r := PickCap(w, p, pick, wantRegion);
            r.Ok? && r.value.Some? ==> CapMatches(w.shadow, r.value.value.0, r.value.value.1) && (wantRegion ==> IsRegion(r.value.value.1))
  {
    var mt := w.shadow.procs[p].table;
    assert ProcMatches(w.shadow, w.sys.sched.procs[p], w.shadow.procs[p]);
    match pick
    case FromTable(n) =>
      var hs := Ascending(if wantRegion then RegionHandles(mt) else mt.Keys);
      if hs != [] {
        var h := hs[n % |hs|];
        assert h in hs;
        assert CapMatches(w.shadow, w.sys.sched.procs[p].table[h], mt[h]);
      }
    case FromStash(n) =>
      var cs := Candidates(w.shadow.stash, wantRegion);
      if cs != [] {
        var c := cs[n % |cs|];
        assert c in cs && c in w.shadow.stash;
        var i :| 0 <= i < |w.shadow.stash| && w.shadow.stash[i] == c;
        assert CapMatches(w.shadow, w.shadow.stash[i].0, w.shadow.stash[i].1);
      }
  }

  /** The model predicts every region access exactly, the error and its fields included. */
  lemma AccessesAreExact(w: World, cap: Capability, m: CapModel, required: set<Right>, offset: nat, len: nat)
    requires IdsMatch(w.shadow, w.sys.kernel) && StoreMatches(w.shadow.regions, w.sys.store) && CapMatches(w.shadow, cap, m)
    ensures Regions.CheckedRange(w.sys.kernel, w.sys.store, cap, required, offset, len) ==
            match PredictAccess(w.shadow, m, required, offset, len) case Ok(_) => Ok(offset + len) case Err(e) => Err(e)
    ensures PredictAccess(w.shadow, m, required, offset, len).Ok? ==>
            && m.obj.Region? && w.shadow.regions[m.obj.r].alive && cap.obj == CHANNELS + m.obj.r && cap.obj in w.sys.store
            && w.sys.store[cap.obj] == w.shadow.regions[m.obj.r].bytes && offset + len <= |w.sys.store[cap.obj]|
  {
    ChecksAreExact(w.shadow, w.sys.kernel, cap, m, required);
    if m.obj.Region? {
      assert RegionMatches(w.shadow.regions[m.obj.r], w.sys.kernel);
    }
  }

  lemma ReadAgrees(w: World, cap: Capability, m: CapModel, offset: nat, len: nat)
    requires IdsMatch(w.shadow, w.sys.kernel) && StoreMatches(w.shadow.regions, w.sys.store) && CapMatches(w.shadow, cap, m)
    ensures ReadWith(w, cap, m, offset, len) == Ok(w)
  {
    AccessesAreExact(w, cap, m, {READ}, offset, len);
  }

  // ---- changes to one region ----

  lemma RegionChanged(w: World, log: Log, r: nat, model: RegionModel, k: KernelState, store: Regions.Store)
    requires Matches(w, log) && r < |w.shadow.regions| && model.object_ == w.shadow.regions[r].object_
    requires var sh := Changed(w, r, model, k, store).shadow; IdsMatch(sh, k) && StoreMatches(sh.regions, store)
    ensures Matches(Changed(w, r, model, k, store), log)
  {
    var sh, sh' := w.shadow, w.shadow.(regions := w.shadow.regions[r := model]);
    ProcsKept(sh, sh', w.sys.sched);
    FlightsKept(sh, sh', w.events.stamps, [], w.sys.queues);
    assert w.events.stamps + [] == w.events.stamps;
    StashKept(sh, sh');
  }

  /** What an access changes, if anything: one region, its bytes, its epoch or its being alive. */
  ghost predicate ChangesOne(w: World, r: Result<World, Violation>) {
    r.Ok? && (r.value == w ||
              exists i: nat, model: RegionModel, k: KernelState, store: Regions.Store :: IsChange(w, r.value, i, model, k, store))
  }

  ghost predicate IsChange(w: World, w': World, i: nat, model: RegionModel, k: KernelState, store: Regions.Store) {
    && i < |w.shadow.regions| && model.object_ == w.shadow.regions[i].object_ && w' == Changed(w, i, model, k, store)
    && IdsMatch(w'.shadow, k) && StoreMatches(w'.shadow.regions, store)
  }

  lemma ChangeMatches(w: World, log: Log, r: Result<World, Violation>)
    requires Matches(w, log) && ChangesOne(w, r)
    ensures Matches(r.value, log)
  {
    if r.value != w {
      var i: nat, model: RegionModel, k: KernelState, store: Regions.Store :| IsChange(w, r.value, i, model, k, store);
      RegionChanged(w, log, i, model, k, store);
    }
  }

  lemma WriteAgrees(w: World, cap: Capability, m: CapModel, offset: nat, data: seq<byte>)
    requires IdsMatch(w.shadow, w.sys.kernel) && StoreMatches(w.shadow.regions, w.sys.store) && CapMatches(w.shadow, cap, m)
    ensures ChangesOne(w, WriteWith(w, cap, m, offset, data))
  {
    AccessesAreExact(w, cap, m, {WRITE}, offset, |data|);
    if PredictAccess(w.shadow, m, {WRITE}, offset, |data|).Ok? {
      var r := m.obj.r;
      var bytes := Regions.Overwrite(w.shadow.regions[r].bytes, offset, data);
      BytesChanged(w, r, bytes);
      assert IsChange(w, WriteWith(w, cap, m, offset, data).value, r, w.shadow.regions[r].(bytes := bytes), w.sys.kernel,
                      w.sys.store[cap.obj := bytes]);
    }
  }

  lemma BytesChanged(w: World, r: nat, bytes: seq<byte>)
    requires IdsMatch(w.shadow, w.sys.kernel) && StoreMatches(w.shadow.regions, w.sys.store)
    requires r < |w.shadow.regions| && w.shadow.regions[r].alive
    ensures var regions := w.shadow.regions[r := w.shadow.regions[r].(bytes := bytes)];
            IdsMatch(w.shadow.(regions := regions), w.sys.kernel) && StoreMatches(regions, w.sys.store[CHANNELS + r := bytes])
  {
    var regions := w.shadow.regions[r := w.shadow.regions[r].(bytes := bytes)];
    forall q | 0 <= q < |regions| ensures RegionMatches(regions[q], w.sys.kernel) {
      assert RegionMatches(w.shadow.regions[q], w.sys.kernel);
    }
  }

  lemma RevokeAgrees(w: World, cap: Capability, m: CapModel)
    requires IdsMatch(w.shadow, w.sys.kernel) && StoreMatches(w.shadow.regions, w.sys.store)
    requires CapMatches(w.shadow, cap, m) && IsRegion(m)
    ensures ChangesOne(w, RevokeWith(w, cap, m))
  {
    ChecksAreExact(w.shadow, w.sys.kernel, cap, m, {DESTROY});
    if PredictCheck(w.shadow, m, {DESTROY}).Ok? {
      var r, model := m.obj.r, w.shadow.regions[m.obj.r];
      assert RegionMatches(model, w.sys.kernel);
      BumpsAlike(w.shadow, w.sys.kernel, r);
      assert IsChange(w, RevokeWith(w, cap, m).value, r, model.(epoch := model.epoch + 1), w.sys.kernel.Revoke(cap).value,
                      w.sys.store);
    }
  }

  lemma DestroyAgrees(w: World, cap: Capability, m: CapModel)
    requires IdsMatch(w.shadow, w.sys.kernel) && StoreMatches(w.shadow.regions, w.sys.store)
    requires CapMatches(w.shadow, cap, m) && IsRegion(m)
    ensures ChangesOne(w, DestroyWith(w, cap, m))
  {
    ChecksAreExact(w.shadow, w.sys.kernel, cap, m, {DESTROY});
    if PredictCheck(w.shadow, m, {DESTROY}).Ok? {
      var r, model := m.obj.r, w.shadow.regions[m.obj.r];
      assert RegionMatches(model, w.sys.kernel);
      RegionGone(w, r);
      assert IsChange(w, DestroyWith(w, cap, m).value, r, model.(alive := false), w.sys.kernel.Destroy(cap).value,
                      w.sys.store - {cap.obj});
    }
  }

  lemma RegionGone(w: World, r: nat)
    requires IdsMatch(w.shadow, w.sys.kernel) && StoreMatches(w.shadow.regions, w.sys.store) && r < |w.shadow.regions|
    ensures var regions := w.shadow.regions[r := w.shadow.regions[r].(alive := false)];
            && IdsMatch(w.shadow.(regions := regions), w.sys.kernel.(epochs := w.sys.kernel.epochs - {CHANNELS + r}))
            && StoreMatches(regions, w.sys.store - {CHANNELS + r})
  {
    var regions := w.shadow.regions[r := w.shadow.regions[r].(alive := false)];
    var k := w.sys.kernel.(epochs := w.sys.kernel.epochs - {CHANNELS + r});
    forall q | 0 <= q < |regions| ensures RegionMatches(regions[q], k) {
      assert RegionMatches(w.shadow.regions[q], w.sys.kernel);
    }
  }

  lemma AccessAgrees(w: World, op: ChaosOp, cap: Capability, m: CapModel)
    requires IdsMatch(w.shadow, w.sys.kernel) && StoreMatches(w.shadow.regions, w.sys.store) && CapMatches(w.shadow, cap, m)
    requires op.Read? || op.Write? || ((op.Revoke? || op.Destroy?) && IsRegion(m))
    ensures ChangesOne(w, AccessWith(w, op, cap, m))
  {
    match op
    case Read(_, _, _, offset, len) => ReadAgrees(w, cap, m, offset, len);
    case Write(_, _, _, offset, len, fill) => WriteAgrees(w, cap, m, offset, seq(len, _ => fill));
    case Revoke(_, _) => RevokeAgrees(w, cap, m);
    case Destroy(_, _) => DestroyAgrees(w, cap, m);
  }

  /** Every read, write, revoke and destroy, with a live capability or a stale one, has exactly the
      outcome the model predicts. */
  lemma AccessMatches(w: World, log: Log, op: ChaosOp)
    requires Matches(w, log) && (op.Read? || op.Write? || op.Revoke? || op.Destroy?) && op.p < |w.shadow.procs|
    ensures ExecuteAccess(w, op).Ok? && Matches(ExecuteAccess(w, op).value, log)
  {
    var regionsOnly := if op.Read? || op.Write? then op.regionsOnly else true;
    PickMatches(w, log, op.p, op.pick, regionsOnly);
    var picked := PickCap(w, op.p, op.pick, regionsOnly).value;
    if picked.Some? {
      AccessAgrees(w, op, picked.value.0, picked.value.1);
      ChangeMatches(w, log, AccessWith(w, op, picked.value.0, picked.value.1));
    }
  }
}
