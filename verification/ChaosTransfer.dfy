/** Capabilities on the move in the harness: new regions, sends, receives and spawns leave kernel and
    model matching. */
module ChaosTransfer {
  import opened Wrappers
  import opened Rights
  import opened Capabilities
  import opened Clocks
  import opened Processes
  import opened Channels
  import opened Causality
  import opened Data
  import opened Machine
  import opened Chaos
  import opened ChaosMatch
  import opened ChaosEvents
  import opened ChaosWorld
  import opened ChaosOps
  import T = Transfers
  import S = Scheduling
  import MC = MachineCausality
  import Regions

  // ---- granting into a table and mirroring it ----

  lemma HoldsMore(mt: TableModel, h: Handle, m: CapModel)
    requires HoldsChannels(mt) && h !in mt && IsRegion(m)
    ensures HoldsChannels(mt[h := m])
  {
    var mt' := mt[h := m];
    forall c | 0 <= c < CHANNELS ensures ChannelHandles(mt', c) != {} {
      assert Least(ChannelHandles(mt, c)) in ChannelHandles(mt', c);
    }
  }

  /** One more grant, mirrored under the same handle. */
  lemma MirrorOne(sh: Shadow, p: ProcState, mt: TableModel, cap: Capability, m: CapModel)
    requires TableMatches(sh, p.table, mt) && CapMatches(sh, cap, m) && p.HasRoom(1)
    ensures TableMatches(sh, p.Grant(cap).table, mt[p.nextHandle := m]) && p.Grant(cap).Fresh()
  {
  }

  lemma HandlesBut(first: Handle, n: nat)
    requires first + n + 1 < HANDLE_LIMIT
    ensures HandlesFrom(first, n + 1)[..n] == HandlesFrom(first, n) && HandlesFrom(first, n + 1)[n] == first + n
  {
    HandlesWithoutWrap(first, n + 1);
  }

  /** The last of several. */
  lemma {:induction false} MirrorLast(sh: Shadow, p: ProcState, q: ProcState, mt: TableModel, nt: TableModel,
                                    caps: seq<Capability>, ms: seq<CapModel>)
    requires |caps| == |ms| > 0 && CapMatches(sh, caps[|caps| - 1], ms[|ms| - 1]) && p.nextHandle + |caps| < HANDLE_LIMIT
    requires q == p.GrantAll(caps[..|caps| - 1]) && nt == Mirror(mt, HandlesFrom(p.nextHandle, |caps| - 1), ms[..|caps| - 1])
    requires TableMatches(sh, q.table, nt) && q.Fresh()
    ensures TableMatches(sh, p.GrantAll(caps).table, Mirror(mt, HandlesFrom(p.nextHandle, |caps|), ms)) && p.GrantAll(caps).Fresh()
  {
    GrantAllCounter(p, caps[..|caps| - 1]);
    HandlesBut(p.nextHandle, |caps| - 1);
    MirrorOne(sh, q, nt, caps[|caps| - 1], ms[|ms| - 1]);
  }

  lemma {:induction false} MirrorTables(sh: Shadow, p: ProcState, mt: TableModel, caps: seq<Capability>, ms: seq<CapModel>)
    requires TableMatches(sh, p.table, mt) && CapsMatch(sh, caps, ms) && p.HasRoom(|caps|)
    ensures TableMatches(sh, p.GrantAll(caps).table, Mirror(mt, HandlesFrom(p.nextHandle, |caps|), ms))
    ensures p.GrantAll(caps).Fresh()
    decreases |caps|
  {
    if caps != [] {
      var n := |caps| - 1;
      MirrorTables(sh, p, mt, caps[..n], ms[..n]);
      MirrorLast(sh, p, p.GrantAll(caps[..n]), mt, Mirror(mt, HandlesFrom(p.nextHandle, n), ms[..n]), caps, ms);
    }
  }

  lemma {:induction false} MirrorHolds(mt: TableModel, hs: seq<Handle>, ms: seq<CapModel>)
    requires HoldsChannels(mt) && |hs| == |ms| && AllRegions(ms)
    requires (forall i :: 0 <= i < |hs| ==> hs[i] !in mt) && forall i, j :: 0 <= i < j < |hs| ==> hs[i] != hs[j]
    ensures HoldsChannels(Mirror(mt, hs, ms))
    ensures forall h :: h in Mirror(mt, hs, ms) <==> h in mt || h in hs
    decreases |hs|
  {
    if hs != [] {
      var n := |hs| - 1;
      MirrorHolds(mt, hs[..n], ms[..n]);
      HoldsMore(Mirror(mt, hs[..n], ms[..n]), hs[n], ms[n]);
      assert hs == hs[..n] + [hs[n]];
    }
  }

  /** Receiving capabilities and mirroring the delivery keeps a table and its model alike. */
  lemma DeliveryMatches(sh: Shadow, p: ProcState, pm: ProcModel, caps: seq<Capability>, ms: seq<CapModel>)
    requires ProcMatches(sh, p, pm) && CapsMatch(sh, caps, ms) && AllRegions(ms) && p.HasRoom(|caps|)
    ensures ProcMatches(sh, p.GrantAll(caps), pm.(table := Mirror(pm.table, HandlesFrom(p.nextHandle, |caps|), ms)))
  {
    MirrorTables(sh, p, pm.table, caps, ms);
    HandlesWithoutWrap(p.nextHandle, |caps|);
    MirrorHolds(pm.table, HandlesFrom(p.nextHandle, |caps|), ms);
  }

  // ---- new regions ----

  lemma RegionAdded(sh: Shadow, k: KernelState, store: Regions.Store, size: nat)
    requires IdsMatch(sh, k) && StoreMatches(sh.regions, store)
    ensures var (k', store', cap) := Regions.NewRegion(k, store, size);
            var sh' := sh.(regions := sh.regions + [RegionModel(cap.obj, true, 0, Regions.Zeros(size))]);
            && Extends(sh, sh') && IdsMatch(sh', k') && StoreMatches(sh'.regions, store')
            && CapMatches(sh', cap, CapModel(Region(|sh.regions|), cap.rights, 0))
  {
    var (k', store', cap) := Regions.NewRegion(k, store, size);
    var sh' := sh.(regions := sh.regions + [RegionModel(cap.obj, true, 0, Regions.Zeros(size))]);
    forall r | 0 <= r < |sh'.regions| ensures RegionMatches(sh'.regions[r], k') {
      if r < |sh.regions| {
        assert RegionMatches(sh.regions[r], k);
      }
    }
  }

  lemma {:induction false} InstallMatches(sh: Shadow, sh': Shadow, sched: S.SchedState, p: nat, cap: Capability, m: CapModel)
    requires ProcsMatch(sh, sched) && p < |sh.procs| && Extends(sh, sh') && CapMatches(sh', cap, m) && IsRegion(m)
    requires sched.procs[p].HasRoom(1) && StashMatches(sh)
    requires sh'.procs == sh.procs[p := sh.procs[p].(table := sh.procs[p].table[sched.procs[p].nextHandle := m])]
    requires sh'.stash == sh.stash + [(cap, m)]
    ensures ProcsMatch(sh', sched.(procs := sched.procs[p := sched.procs[p].Grant(cap)])) && StashMatches(sh')
  {
    var proc, pm := sched.procs[p], sh.procs[p];
    assert ProcMatches(sh, proc, pm);
    TableMatchesKept(sh, sh', proc.table, pm.table);
    HoldsMore(pm.table, proc.nextHandle, m);
    assert ProcMatches(sh', proc.Grant(cap), sh'.procs[p]);
    ProcReplaced(sh, sh', sched, p, proc.Grant(cap));
    StashKept(sh, sh');
  }

  lemma {:induction false} NewRegionMatches(w: World, log: Log, p: nat, size: nat)
    requires Matches(w, log) && p < |w.shadow.procs| && Room(w, 1)
    ensures ExecuteNewRegion(w, p, size).Ok? && Matches(ExecuteNewRegion(w, p, size).value, log)
  {
    assert ProcMatches(w.shadow, w.sys.sched.procs[p], w.shadow.procs[p]);
    RegionAdded(w.shadow, w.sys.kernel, w.sys.store, size);
    var after := ExecuteNewRegion(w, p, size).value;
    var cap := Regions.NewRegion(w.sys.kernel, w.sys.store, size).2;
    InstallMatches(w.shadow, after.shadow, w.sys.sched, p, cap, CapModel(Region(|w.shadow.regions|), cap.rights, 0));
    FlightsKept(w.shadow, after.shadow, w.events.stamps, [], w.sys.queues);
    assert w.events.stamps + [] == w.events.stamps;
    var proc := w.sys.sched.procs[p];
    ClocksKept(w, log, p, proc.Grant(cap));
    IdsKept(w, after, cap, size);
  }

  /** A change of one table leaves the clocks as they were. */
  lemma ClocksKept(w: World, log: Log, p: nat, proc: ProcState)
    requires EventsMatch(w.events, w.sys.sched.procs, w.sys.sched.nextPid, log) && p in w.sys.sched.procs
    requires proc.clock == w.sys.sched.procs[p].clock
    ensures EventsMatch(w.events, w.sys.sched.procs[p := proc], w.sys.sched.nextPid, log)
  {
  }

  lemma IdsKept(w: World, after: World, cap: Capability, size: nat)
    requires var (k, store, c) := Regions.NewRegion(w.sys.kernel, w.sys.store, size);
             && after.sys.kernel == k && cap == c
             && after.shadow.channels == w.shadow.channels
             && after.shadow.regions == w.shadow.regions + [RegionModel(cap.obj, true, 0, Regions.Zeros(size))]
    requires IdsMatch(w.shadow.(regions := after.shadow.regions), after.sys.kernel)
    ensures IdsMatch(after.shadow, after.sys.kernel)
  {
  }

  // ---- what a batch leaves the sender ----

  /** A capability has only one model. */
  lemma ModelUnique(sh: Shadow, sh': Shadow, cap: Capability, m: CapModel, m': CapModel)
    requires IdsInOrder(sh) && IdsInOrder(sh') && CapMatches(sh, cap, m) && CapMatches(sh', cap, m')
    ensures m == m'
  {
  }

  lemma SubsetHolds(mt: TableModel, mt': TableModel)
    requires HoldsChannels(mt) && (forall h :: h in mt' ==> h in mt && mt'[h] == mt[h])
    requires forall h :: h in mt && !IsRegion(mt[h]) ==> h in mt'
    ensures HoldsChannels(mt')
  {
    forall c | 0 <= c < CHANNELS ensures ChannelHandles(mt', c) != {} {
      assert Least(ChannelHandles(mt, c)) in ChannelHandles(mt', c);
    }
  }

  lemma TakenAreRegions(mt: TableModel, gs: seq<Choice>, h: Handle)
    requires forall i :: 0 <= i < |gs| ==> gs[i].0 in mt && IsRegion(mt[gs[i].0])
    requires h in mt && !IsRegion(mt[h])
    ensures h !in T.TakenHandles(ToGrants(gs), |gs|)
  {
  }

  /** Only region handles leave, so the sender keeps its channels. */
  lemma SenderKeepsChannels(sh: Shadow, sh': Shadow, proc: ProcState, mt: TableModel, mt': TableModel, gs: seq<Choice>)
    requires IdsInOrder(sh) && IdsInOrder(sh') && TableMatches(sh, proc.table, mt) && HoldsChannels(mt)
    requires forall i :: 0 <= i < |gs| ==> gs[i].0 in mt && IsRegion(mt[gs[i].0])
    requires TableMatches(sh', proc.table - T.TakenHandles(ToGrants(gs), |gs|), mt')
    ensures HoldsChannels(mt')
  {
    var taken := T.TakenHandles(ToGrants(gs), |gs|);
    forall h | h in mt' ensures h in mt && mt'[h] == mt[h] {
      assert h in proc.table - taken;
      ModelUnique(sh, sh', proc.table[h], mt[h], mt'[h]);
    }
    forall h | h in mt && !IsRegion(mt[h]) ensures h in mt' {
      TakenAreRegions(mt, gs, h);
      assert h in proc.table - taken;
    }
    SubsetHolds(mt, mt');
  }

  /** Epochs aside, a batch leaves the model's regions alone. */
  lemma StoreUnmoved(regions: seq<RegionModel>, regions': seq<RegionModel>, store: Regions.Store)
    requires StoreMatches(regions, store) && |regions'| == |regions|
    requires forall r :: 0 <= r < |regions| ==> regions'[r] == regions[r].(epoch := regions'[r].epoch)
    ensures StoreMatches(regions', store)
  {
    forall r: nat | r < |regions'| && regions'[r].alive ensures CHANNELS + r in store && store[CHANNELS + r] == regions'[r].bytes {
      assert regions[r].alive;
    }
  }

  lemma ChannelCapIs(w: World, log: Log, p: nat, channel: nat)
    requires Matches(w, log) && p < |w.shadow.procs| && channel < CHANNELS
    ensures Exists(w, p) && ChannelCap(w, p, channel).Some?
    ensures var cap := ChannelCap(w, p, channel).value;
            && cap.obj == channel && w.sys.kernel.Permits(cap, CHILD_RIGHTS) && channel in w.sys.queues
            && Least(ChannelHandles(w.shadow.procs[p].table, channel)) in ProcOf(w, p).table
            && cap == ProcOf(w, p).table[Least(ChannelHandles(w.shadow.procs[p].table, channel))]
  {
    var proc, mt := w.sys.sched.procs[p], w.shadow.procs[p].table;
    assert ProcMatches(w.shadow, proc, w.shadow.procs[p]);
    var h := Least(ChannelHandles(mt, channel));
    assert CapMatches(w.shadow, proc.table[h], mt[h]);
    ChecksAreExact(w.shadow, w.sys.kernel, proc.table[h], mt[h], CHILD_RIGHTS);
    assert FlightMatches(w.shadow, w.events.stamps, w.sys.queues[channel], w.shadow.inFlight[channel]);
  }

  /** The model of a batch, with the sender's process and model. */
  lemma BatchMatches(w: World, log: Log, p: nat, gs: seq<Choice>)
    requires Matches(w, log) && p < |w.shadow.procs|
    requires forall i :: 0 <= i < |gs| ==> gs[i].0 in w.shadow.procs[p].table && IsRegion(w.shadow.procs[p].table[gs[i].0])
    ensures Exists(w, p) && Chosen(w.shadow, w.shadow.procs[p].table, gs)
    ensures var t, r := ProcOf(w, p).table, ApplyGrantsModel(w.shadow, p, gs);
            && (r.Some? <==> T.Admissible(w.sys.kernel, t, ToGrants(gs)))
            && (r.Some? ==>
                  var (sh, delivered) := r.value; var a := T.Effect(w.sys.kernel, t, ToGrants(gs), |gs|);
                  && GrantedAlike(w.shadow, p, a, sh, delivered) && Extends(w.shadow, sh)
                  && IdsMatch(sh, a.kernel) && StoreMatches(sh.regions, w.sys.store) && HoldsChannels(sh.procs[p].table))
  {
    var proc := w.sys.sched.procs[p];
    assert ProcMatches(w.shadow, proc, w.shadow.procs[p]);
    GrantsAlike(w.shadow, w.sys.kernel, proc.table, p, gs);
    var r := ApplyGrantsModel(w.shadow, p, gs);
    if r.Some? {
      StoreUnmoved(w.shadow.regions, r.value.0.regions, w.sys.store);
      SenderKeepsChannels(w.shadow, r.value.0, proc, w.shadow.procs[p].table, r.value.0.procs[p].table, gs);
    }
  }

  // ---- sends ----

  lemma FlightPushed(sh: Shadow, sh': Shadow, stamps: seq<Stamp>, stamp: Stamp, queues: Queues, channel: nat, m: Message, mm: MessageModel)
    requires Extends(sh, sh') && FlightsMatch(sh, stamps, queues) && channel < CHANNELS
    requires sh'.inFlight == sh.inFlight[channel := sh.inFlight[channel] + [mm]]
    requires MessageMatches(sh', stamps + [stamp], m, mm)
    ensures FlightsMatch(sh', stamps + [stamp], queues[channel := queues[channel] + [m]])
  {
    forall c: nat | c < CHANNELS
      ensures FlightMatches(sh', stamps + [stamp], queues[channel := queues[channel] + [m]][c], sh'.inFlight[c])
    {
      FlightKept(sh, sh', stamps, [stamp], queues[c], sh.inFlight[c]);
    }
  }

  /** What a send leaves: the sender without what it gave, and the message with it. */
  lemma {:induction false} SentMatches(w: World, log: Log, p: nat, channel: nat, a: T.Applied, sh: Shadow, caps: seq<CapModel>)
    requires Matches(w, log) && p < |w.shadow.procs| && channel < CHANNELS
    requires GrantedAlike(w.shadow, p, a, sh, caps) && Extends(w.shadow, sh) && IdsMatch(sh, a.kernel)
    requires StoreMatches(sh.regions, w.sys.store) && HoldsChannels(sh.procs[p].table)
    requires forall h :: h in a.table ==> h in w.sys.sched.procs[p].table
    ensures var proc := w.sys.sched.procs[p]; var stamp := LocalEvent(proc.clock);
            var sh' := sh.(inFlight := sh.inFlight[channel := sh.inFlight[channel] + [MessageModel(|w.events.stamps|, caps)]]);
            Matches(World(WithProc(Sys(a.kernel, w.sys.sched, w.sys.queues[channel := w.sys.queues[channel] +
                                         [Message(0, a.delivered, stamp)]], w.sys.store),
                                   p, proc.(table := a.table, clock := stamp)),
                          sh', Chaos.Record(w.events, p, stamp, [])), log + [MC.NextEvent(log, p, None)])
  {
    var proc := w.sys.sched.procs[p];
    var stamp := LocalEvent(proc.clock);
    var mm := MessageModel(|w.events.stamps|, caps);
    var sh' := sh.(inFlight := sh.inFlight[channel := sh.inFlight[channel] + [mm]]);
    assert ProcMatches(w.shadow, proc, w.shadow.procs[p]);
    TableMatchesKept(sh, sh', a.table, sh.procs[p].table);
    assert ProcMatches(sh', proc.(table := a.table, clock := stamp), sh'.procs[p]);
    ProcReplaced(w.shadow, sh', w.sys.sched, p, proc.(table := a.table, clock := stamp));
    CapsMatchKept(sh, sh', a.delivered, caps);
    FlightPushed(w.shadow, sh', w.events.stamps, stamp, w.sys.queues, channel, Message(0, a.delivered, stamp), mm);
    StashKept(w.shadow, sh');
    EventMatches(w.events, w.sys.sched.procs, w.sys.sched.nextPid, log, p, None, proc.(table := a.table, clock := stamp));
  }

  /** Every send succeeds or is rejected exactly as predicted. */
  lemma {:induction false} SendMatches(w: World, log: Log, p: nat, channel: nat, picks: seq<(nat, GrantKind)>)
    requires Matches(w, log) && p < |w.shadow.procs| && channel < CHANNELS
    ensures var r := ExecuteSend(w, p, channel, picks);
            r.Ok? && (r.value == w || Matches(r.value, log + [MC.NextEvent(log, p, None)]))
  {
    var gs := ConcreteGrants(w.shadow.procs[p].table, picks);
    BatchMatches(w, log, p, gs);
    ChannelCapIs(w, log, p, channel);
    var cap, proc := ChannelCap(w, p, channel).value, ProcOf(w, p);
    Channels.SendMeans(w.sys.kernel, w.sys.queues, cap, proc, ToGrants(gs), 0);
    var r := ApplyGrantsModel(w.shadow, p, gs);
    if r.Some? {
      SentMatches(w, log, p, channel, T.Effect(w.sys.kernel, proc.table, ToGrants(gs), |gs|), r.value.0, r.value.1);
    }
  }

  // ---- receives ----

  lemma FlightPopped(sh: Shadow, sh': Shadow, stamps: seq<Stamp>, stamp: Stamp, queues: Queues, channel: nat)
    requires Extends(sh, sh') && FlightsMatch(sh, stamps, queues) && channel < CHANNELS && sh.inFlight[channel] != []
    requires sh'.inFlight == sh.inFlight[channel := sh.inFlight[channel][1..]]
    ensures queues[channel] != []
    ensures FlightsMatch(sh', stamps + [stamp], queues[channel := queues[channel][1..]])
  {
    forall c: nat | c < CHANNELS
      ensures FlightMatches(sh', stamps + [stamp], queues[channel := queues[channel][1..]][c], sh'.inFlight[c])
    {
      FlightKept(sh, sh', stamps, [stamp], queues[c], sh.inFlight[c]);
    }
  }

  /** The world once process `p` has received the oldest message of a channel. */
  function AfterReceive(w: World, p: nat, channel: nat): World
    requires Exists(w, p) && channel < |w.shadow.inFlight| && w.shadow.inFlight[channel] != []
    requires channel in w.sys.queues && w.sys.queues[channel] != []
    requires |w.sys.queues[channel][0].caps| == |w.shadow.inFlight[channel][0].caps|
  {
    var proc, pm, m, mm := ProcOf(w, p), w.shadow.procs[p], w.sys.queues[channel][0], w.shadow.inFlight[channel][0];
    var stamp, hs := ReceiveEvent(proc.clock, m.sentAt), HandlesFrom(proc.nextHandle, |m.caps|);
    var sh := w.shadow.(procs := w.shadow.procs[p := pm.(table := Mirror(pm.table, hs, mm.caps))],
                        inFlight := w.shadow.inFlight[channel := w.shadow.inFlight[channel][1..]],
                        stash := w.shadow.stash + seq(|m.caps|, i requires 0 <= i < |m.caps| => (m.caps[i], mm.caps[i])));
    World(WithProc(w.sys.(queues := w.sys.queues[channel := w.sys.queues[channel][1..]]), pm.pid,
                   proc.GrantAll(m.caps).(clock := stamp)),
          sh, Chaos.Record(w.events, p, stamp, [mm.sendEvent]))
  }

  lemma ReceiverMatches(sh: Shadow, sh': Shadow, sched: S.SchedState, p: nat, caps: seq<Capability>, ms: seq<CapModel>, stamp: Stamp)
    requires ProcsMatch(sh, sched) && p < |sh.procs| && Extends(sh, sh') && CapsMatch(sh, caps, ms) && AllRegions(ms)
    requires sched.procs[p].HasRoom(|caps|)
    requires var pm, hs := sh.procs[p], HandlesFrom(sched.procs[p].nextHandle, |caps|);
             sh'.procs == sh.procs[p := pm.(table := Mirror(pm.table, hs, ms))]
    ensures ProcsMatch(sh', sched.(procs := sched.procs[p := sched.procs[p].GrantAll(caps).(clock := stamp)]))
  {
    var proc, pm := sched.procs[p], sh.procs[p];
    assert ProcMatches(sh, proc, pm);
    DeliveryMatches(sh, proc, pm, caps, ms);
    var got := proc.GrantAll(caps).(clock := stamp);
    TableMatchesKept(sh, sh', got.table, sh'.procs[p].table);
    assert ProcMatches(sh', got, sh'.procs[p]);
    ProcReplaced(sh, sh', sched, p, got);
  }

  lemma {:induction false} ReceivedMatches(w: World, log: Log, p: nat, channel: nat, g: nat)
    requires Matches(w, log) && p < |w.shadow.procs| && channel < CHANNELS && Room(w, g) && Light(w, g)
    requires |w.shadow.inFlight| == CHANNELS && w.shadow.inFlight[channel] != []
    ensures Exists(w, p) && channel in w.sys.queues && w.sys.queues[channel] != []
    ensures |w.sys.queues[channel][0].caps| == |w.shadow.inFlight[channel][0].caps| && w.shadow.inFlight[channel][0].sendEvent < |log|
    ensures Matches(AfterReceive(w, p, channel), log + [MC.NextEvent(log, p, Some(w.shadow.inFlight[channel][0].sendEvent))])
  {
    assert FlightMatches(w.shadow, w.events.stamps, w.sys.queues[channel], w.shadow.inFlight[channel]);
    var proc, pm, m, mm := w.sys.sched.procs[p], w.shadow.procs[p], w.sys.queues[channel][0], w.shadow.inFlight[channel][0];
    assert MessageMatches(w.shadow, w.events.stamps, m, mm);
    assert ProcMatches(w.shadow, proc, pm);
    assert |mm.caps| <= g;
    var after, cause := AfterReceive(w, p, channel), Some(mm.sendEvent);
    var stamp := ReceiveEvent(proc.clock, m.sentAt);
    ReceiverMatches(w.shadow, after.shadow, w.sys.sched, p, m.caps, mm.caps, stamp);
    FlightPopped(w.shadow, after.shadow, w.events.stamps, stamp, w.sys.queues, channel);
    CapsMatchKept(w.shadow, after.shadow, m.caps, mm.caps);
    StashKept(w.shadow, after.shadow);
    GrantAllCounter(proc, m.caps);
    EventMatches(w.events, w.sys.sched.procs, w.sys.sched.nextPid, log, p, cause, proc.GrantAll(m.caps).(clock := stamp));
  }

  /** Every receive delivers exactly when the model expects it, what the model expects. */
  lemma {:induction false} ReceiveMatches(w: World, log: Log, p: nat, channel: nat, g: nat) returns (log': Log)
    requires Matches(w, log) && p < |w.shadow.procs| && channel < CHANNELS && Room(w, g) && Light(w, g)
    ensures ExecuteReceive(w, p, channel).Ok? && Matches(ExecuteReceive(w, p, channel).value, log')
    ensures ExecuteReceive(w, p, channel).value == w ||
            (channel < |w.shadow.inFlight| && w.shadow.inFlight[channel] != [] && Exists(w, p) && channel in w.sys.queues &&
             w.sys.queues[channel] != [] && |w.sys.queues[channel][0].caps| == |w.shadow.inFlight[channel][0].caps| &&
             ExecuteReceive(w, p, channel).value == AfterReceive(w, p, channel))
  {
    ChannelCapIs(w, log, p, channel);
    assert FlightMatches(w.shadow, w.events.stamps, w.sys.queues[channel], w.shadow.inFlight[channel]);
    log' := log;
    if w.shadow.inFlight[channel] != [] {
      ReceivedMatches(w, log, p, channel, g);
      ReceiveIs(w, p, channel, ChannelCap(w, p, channel).value);
      log' := log + [MC.NextEvent(log, p, Some(w.shadow.inFlight[channel][0].sendEvent))];
    }
  }

  lemma ReceiveIs(w: World, p: nat, channel: nat, cap: Capability)
    requires Exists(w, p) && channel < |w.shadow.inFlight| && w.shadow.inFlight[channel] != []
    requires channel in w.sys.queues && w.sys.queues[channel] != [] && ProcOf(w, p).HasRoom(|w.sys.queues[channel][0].caps|)
    requires |w.sys.queues[channel][0].caps| == |w.shadow.inFlight[channel][0].caps|
    requires w.shadow.inFlight[channel][0].sendEvent < |w.events.stamps|
    requires w.sys.queues[channel][0].sentAt == w.events.stamps[w.shadow.inFlight[channel][0].sendEvent]
    requires ChannelCap(w, p, channel) == Some(cap) && cap.obj == channel && w.sys.kernel.Permits(cap, {READ})
    ensures ExecuteReceive(w, p, channel) == Ok(AfterReceive(w, p, channel))
  {
    var proc, m, mm := ProcOf(w, p), w.sys.queues[channel][0], w.shadow.inFlight[channel][0];
    var hs := HandlesFrom(proc.nextHandle, |m.caps|);
    GrantAllDelivers(proc, m.caps);
    var t := proc.GrantAll(m.caps).table;
    assert Stashed(t, hs, mm.caps) == seq(|m.caps|, i requires 0 <= i < |m.caps| => (m.caps[i], mm.caps[i]));
  }
}
