/** Spawning in the harness: a child gets both ends of every channel and what the batch delivers, and the
    model's mirror of its table is exact. */
module ChaosSpawn {
  import opened Wrappers
  import opened Rights
  import opened Capabilities
  import opened Clocks
  import opened Processes
  import opened Channels
  import opened Causality
  import opened Machine
  import opened Chaos
  import opened ChaosMatch
  import opened ChaosEvents
  import opened ChaosWorld
  import opened ChaosOps
  import opened ChaosTransfer
  import T = Transfers
  import S = Scheduling
  import MC = MachineCausality

  // ---- the channels do not change what a batch may do ----

  ghost predicate DerivesChannel(k: KernelState, t: Table, g: T.Grant, c: nat) {
    && g.Derive? && g.rights == CHILD_RIGHTS && T.Authorised(k, t, g)
    && t[g.h].obj == c && t[g.h].epoch == 0
  }

  /** The first grants are derivations of channels, the rest touch regions only. */
  ghost predicate ChannelsFirst(k: KernelState, t: Table, cs: seq<T.Grant>, rs: seq<T.Grant>) {
    && |cs| == CHANNELS
    && (forall c :: 0 <= c < CHANNELS ==> DerivesChannel(k, t, cs[c], c))
    && (forall i :: 0 <= i < |rs| ==> rs[i].h in t && t[rs[i].h].obj >= CHANNELS)
  }

  lemma RegionsAdmissible(k: KernelState, t: Table, cs: seq<T.Grant>, rs: seq<T.Grant>)
    requires ChannelsFirst(k, t, cs, rs) && T.Admissible(k, t, cs + rs)
    ensures T.Admissible(k, t, rs)
  {
    var all := cs + rs;
    assert forall i :: 0 <= i < |rs| ==> all[CHANNELS + i] == rs[i];
    forall i | 0 <= i < |rs| ensures T.Authorised(k, t, rs[i]) {
      assert T.Authorised(k, t, all[CHANNELS + i]);
    }
    forall i, j | 0 <= i < j < |rs| && T.Leaves(rs[i]) && T.Leaves(rs[j]) ensures rs[i].h != rs[j].h {
      assert T.Leaves(all[CHANNELS + i]) && T.Leaves(all[CHANNELS + j]);
    }
    forall i, j | 0 <= i < |rs| && 0 <= j < |rs| && i != j && rs[i].Move? ensures t[rs[j].h].obj != t[rs[i].h].obj {
      assert all[CHANNELS + i].Move? && all[CHANNELS + j] == rs[j];
    }
  }

  lemma AllAdmissible(k: KernelState, t: Table, cs: seq<T.Grant>, rs: seq<T.Grant>)
    requires ChannelsFirst(k, t, cs, rs) && T.Admissible(k, t, rs)
    ensures T.Admissible(k, t, cs + rs)
  {
    var all := cs + rs;
    forall i | 0 <= i < |all| ensures T.Authorised(k, t, all[i]) {
      assert i >= CHANNELS ==> all[i] == rs[i - CHANNELS];
    }
    forall i, j | 0 <= i < j < |all| && T.Leaves(all[i]) && T.Leaves(all[j]) ensures all[i].h != all[j].h {
      assert i >= CHANNELS && all[i] == rs[i - CHANNELS] && all[j] == rs[j - CHANNELS];
    }
    forall i, j | 0 <= i < |all| && 0 <= j < |all| && i != j && all[i].Move? ensures t[all[j].h].obj != t[all[i].h].obj {
      assert i >= CHANNELS && all[i] == rs[i - CHANNELS];
      assert j >= CHANNELS ==> all[j] == rs[j - CHANNELS];
    }
  }

  /** Deriving the channels first never makes a batch of regions invalid, nor saves an invalid one. */
  lemma ChannelsChangeNothing(k: KernelState, t: Table, cs: seq<T.Grant>, rs: seq<T.Grant>)
    requires ChannelsFirst(k, t, cs, rs)
    ensures T.Admissible(k, t, cs + rs) <==> T.Admissible(k, t, rs)
  {
    if T.Admissible(k, t, cs + rs) {
      RegionsAdmissible(k, t, cs, rs);
    }
    if T.Admissible(k, t, rs) {
      AllAdmissible(k, t, cs, rs);
    }
  }

  /** What the channels are delivered as. */
  function ChannelCaps(): (caps: seq<Capability>)
    ensures |caps| == CHANNELS && forall c :: 0 <= c < CHANNELS ==> caps[c] == Capability(c, CHILD_RIGHTS, 0)
  {
    seq(CHANNELS, c requires 0 <= c < CHANNELS => Capability(c, CHILD_RIGHTS, 0))
  }

  lemma ChannelsDelivered(k: KernelState, t: Table, cs: seq<T.Grant>, rs: seq<T.Grant>)
    requires ChannelsFirst(k, t, cs, rs) && T.Admissible(k, t, rs)
    ensures T.Admissible(k, t, cs + rs)
    ensures var a, b := T.Effect(k, t, cs + rs, |cs + rs|), T.Effect(k, t, rs, |rs|);
            a.kernel == b.kernel && a.table == b.table && a.delivered == ChannelCaps() + b.delivered
  {
    ChannelsChangeNothing(k, t, cs, rs);
    var all := cs + rs;
    assert forall i :: 0 <= i < |rs| ==> all[CHANNELS + i] == rs[i];
    SameTaken(t, cs, rs);
    var a, b := T.Effect(k, t, all, |all|), T.Effect(k, t, rs, |rs|);
    forall i | 0 <= i < |all| ensures a.delivered[i] == (ChannelCaps() + b.delivered)[i] {
      assert i >= CHANNELS ==> all[i] == rs[i - CHANNELS];
    }
    assert a.delivered == ChannelCaps() + b.delivered;
  }

  lemma SameTaken(t: Table, cs: seq<T.Grant>, rs: seq<T.Grant>)
    requires |cs| == CHANNELS && (forall c :: 0 <= c < CHANNELS ==> cs[c].Derive? && cs[c].h in t)
    requires forall i :: 0 <= i < |rs| ==> rs[i].h in t
    ensures T.MovedObjects(t, cs + rs, |cs + rs|) == T.MovedObjects(t, rs, |rs|)
    ensures T.TakenHandles(cs + rs, |cs + rs|) == T.TakenHandles(rs, |rs|)
  {
    var all := cs + rs;
    forall i | 0 <= i < |rs| ensures all[CHANNELS + i] == rs[i] {
    }
    forall i | 0 <= i < |all| && (all[i].Move? || T.Leaves(all[i])) ensures i >= CHANNELS && all[i] == rs[i - CHANNELS] {
    }
  }

  // ---- the child ----

  lemma {:induction false} AscendingSorted(s: set<Handle>)
    ensures forall i, j :: 0 <= i < j < |Ascending(s)| ==> Ascending(s)[i] < Ascending(s)[j]
    decreases s
  {
    if s != {} {
      AscendingSorted(s - {Least(s)});
      forall j | 1 <= j < |Ascending(s)| ensures Least(s) < Ascending(s)[j] {
        assert Ascending(s)[j] in Ascending(s - {Least(s)});
      }
    }
  }

  lemma {:induction false} MirrorAt(mt: TableModel, hs: seq<Handle>, ms: seq<CapModel>, i: nat)
    requires |hs| == |ms| && i < |hs| && forall a, b :: 0 <= a < b < |hs| ==> hs[a] != hs[b]
    ensures hs[i] in Mirror(mt, hs, ms) && Mirror(mt, hs, ms)[hs[i]] == ms[i]
    decreases |hs|
  {
    if i < |hs| - 1 {
      MirrorAt(mt, hs[..|hs| - 1], ms[..|hs| - 1], i);
    }
  }

  lemma {:induction false} MirrorKeys(mt: TableModel, hs: seq<Handle>, ms: seq<CapModel>, h: Handle)
    requires |hs| == |ms| && h in Mirror(mt, hs, ms) && h !in mt
    ensures h in hs
    decreases |hs|
  {
    if hs != [] && h != hs[|hs| - 1] {
      MirrorKeys(mt, hs[..|hs| - 1], ms[..|hs| - 1], h);
    }
  }

  lemma AscendingOfFirst(t: Table, n: nat)
    requires (forall h: nat :: h in t <==> h < n) && n < HANDLE_LIMIT
    ensures |Ascending(t.Keys)| == n && forall i: nat :: i < n ==> Ascending(t.Keys)[i] == i
  {
    AscendingSorted(t.Keys);
    ListingOfFirst(Ascending(t.Keys), t, n);
  }

  /** A new process's handles, listed, are the ones it was issued. */
  lemma {:induction false} BornHandles(p: ProcState, caps: seq<Capability>)
    requires p.table == map[] && p.nextHandle == 0 && |caps| < HANDLE_LIMIT
    ensures Ascending(p.GrantAll(caps).table.Keys) == HandlesFrom(0, |caps|)
  {
    GrantAllEffect(p, caps);
    AscendingOfFirst(p.GrantAll(caps).table, |caps|);
    FirstHandles(Ascending(p.GrantAll(caps).table.Keys), |caps|);
  }

  lemma FirstHandles(hs: seq<Handle>, n: nat)
    requires |hs| == n < HANDLE_LIMIT && forall i: nat :: i < n ==> hs[i] == i
    ensures hs == HandlesFrom(0, n)
  {
    var issued := HandlesFrom(0, n);
    HandlesWithoutWrap(0, n);
    forall i: nat | i < n ensures hs[i] == issued[i] {
      assert HandlesFrom(0, n)[i] == 0 + i;
    }
  }

  /** The child's table and its mirror match, and it holds every channel. */
  lemma BornMatches(sh: Shadow, p: ProcState, delivered: seq<Capability>, models: seq<CapModel>, pid: ProcessId)
    requires p.table == map[] && p.nextHandle == 0 && CHANNELS + |delivered| < HANDLE_LIMIT
    requires IdsInOrder(sh) && CapsMatch(sh, delivered, models) && AllRegions(models)
    ensures var caps, ms := ChannelCaps() + delivered, ChannelModels() + models;
            var hs := HandlesFrom(0, |caps|);
            CapsMatch(sh, caps, ms) && ProcMatches(sh, p.GrantAll(caps), ProcModel(pid, Mirror(map[], hs, ms)))
  {
    var caps, ms := ChannelCaps() + delivered, ChannelModels() + models;
    var hs := HandlesFrom(0, |caps|);
    forall i | 0 <= i < |caps| ensures CapMatches(sh, caps[i], ms[i]) {
      if i < CHANNELS {
        assert caps[i] == Capability(i, CHILD_RIGHTS, 0) && ms[i] == CapModel(Channel(i), CHILD_RIGHTS, 0);
      } else {
        assert CapMatches(sh, delivered[i - CHANNELS], models[i - CHANNELS]);
      }
    }
    MirrorTables(sh, p, map[], caps, ms);
    HandlesWithoutWrap(0, |caps|);
    BornHolds(hs, ms, models);
  }

  lemma BornHolds(hs: seq<Handle>, ms: seq<CapModel>, models: seq<CapModel>)
    requires ms == ChannelModels() + models && AllRegions(models) && |hs| == |ms|
    requires forall i :: 0 <= i < |hs| ==> hs[i] == i
    ensures HoldsChannels(Mirror(map[], hs, ms))
  {
    var mt := Mirror(map[], hs, ms);
    forall c | 0 <= c < CHANNELS ensures ChannelHandles(mt, c) != {} {
      MirrorAt(map[], hs, ms, c);
      assert hs[c] in ChannelHandles(mt, c);
    }
    forall h | h in mt && !IsRegion(mt[h]) ensures CHILD_RIGHTS <= mt[h].rights {
      MirrorKeys(map[], hs, ms, h);
      var i :| 0 <= i < |hs| && hs[i] == h;
      MirrorAt(map[], hs, ms, i);
    }
  }

  // ---- the spawn ----

  /** The grants a spawn makes: the channels first. */
  /** The least handle of channel `c` derives it, whatever the kernel has done to regions. */
  lemma ChannelDerives(w: World, log: Log, p: nat, c: nat, h: Handle)
    requires Matches(w, log) && p < |w.shadow.procs| && c < CHANNELS
    requires h in ChannelHandles(w.shadow.procs[p].table, c)
    ensures Exists(w, p) && DerivesChannel(w.sys.kernel, ProcOf(w, p).table, T.Derive(h, CHILD_RIGHTS), c)
  {
    var proc, mt := w.sys.sched.procs[p], w.shadow.procs[p].table;
    assert ProcMatches(w.shadow, proc, w.shadow.procs[p]);
    assert CapMatches(w.shadow, proc.table[h], mt[h]);
  }

  lemma RegionBeyond(w: World, log: Log, p: nat, h: Handle)
    requires Matches(w, log) && p < |w.shadow.procs|
    requires h in w.shadow.procs[p].table && IsRegion(w.shadow.procs[p].table[h])
    ensures Exists(w, p) && h in ProcOf(w, p).table && ProcOf(w, p).table[h].obj >= CHANNELS
  {
    var proc := w.sys.sched.procs[p];
    assert ProcMatches(w.shadow, proc, w.shadow.procs[p]);
    assert CapMatches(w.shadow, proc.table[h], w.shadow.procs[p].table[h]);
  }

  lemma HasChannels(w: World, log: Log, p: nat)
    requires Matches(w, log) && p < |w.shadow.procs|
    ensures Exists(w, p) && forall c :: 0 <= c < CHANNELS ==> ChannelHandles(w.shadow.procs[p].table, c) != {}
  {
    assert ProcMatches(w.shadow, w.sys.sched.procs[p], w.shadow.procs[p]);
  }

  lemma SpawnGrants(w: World, log: Log, p: nat, gs: seq<Choice>)
    requires Matches(w, log) && p < |w.shadow.procs|
    requires forall i :: 0 <= i < |gs| ==> gs[i].0 in w.shadow.procs[p].table && IsRegion(w.shadow.procs[p].table[gs[i].0])
    ensures Exists(w, p) && forall c :: 0 <= c < CHANNELS ==> ChannelHandles(w.shadow.procs[p].table, c) != {}
    ensures ChannelsFirst(w.sys.kernel, ProcOf(w, p).table, ChannelGrants(w.shadow.procs[p].table), ToGrants(gs))
  {
    HasChannels(w, log, p);
    var t, mt := ProcOf(w, p).table, w.shadow.procs[p].table;
    forall c | 0 <= c < CHANNELS ensures DerivesChannel(w.sys.kernel, t, ChannelGrants(mt)[c], c) {
      ChannelDerives(w, log, p, c, Least(ChannelHandles(mt, c)));
    }
    forall i | 0 <= i < |gs| ensures gs[i].0 in t && t[gs[i].0].obj >= CHANNELS {
      RegionBeyond(w, log, p, gs[i].0);
    }
  }

  lemma ProcKept(sh: Shadow, sh': Shadow, proc: ProcState, pm: ProcModel)
    requires ProcMatches(sh, proc, pm) && Extends(sh, sh')
    ensures ProcMatches(sh', proc, pm)
  {
    TableMatchesKept(sh, sh', proc.table, pm.table);
  }

  /** A process other than the parent and the child. */
  lemma BystanderMatches(sh: Shadow, sh': Shadow, sched: S.SchedState, q: nat, pm: ProcModel)
    requires ProcsMatch(sh, sched) && q < |sh.procs| && Extends(sh, sh') && pm == sh.procs[q]
    ensures pm.pid == q && q in sched.procs && ProcMatches(sh', sched.procs[q], pm)
  {
    ProcKept(sh, sh', sched.procs[q], pm);
  }

  /** One process's entry replaced and a new process added. */
  lemma ProcsAfterBirth(sh: Shadow, sh': Shadow, sched: S.SchedState, sched': S.SchedState, p: nat, proc: ProcState, born: ProcState)
    requires ProcsMatch(sh, sched) && p < |sh.procs| && Extends(sh, sh') && |sh'.procs| == |sh.procs| + 1
    requires sh'.procs[..|sh.procs|] == sh.procs[p := ProcModel(p, sh'.procs[p].table)] && ProcMatches(sh', proc, sh'.procs[p])
    requires sh'.procs[|sh.procs|].pid == |sh.procs| && ProcMatches(sh', born, sh'.procs[|sh.procs|])
    requires sched'.procs == sched.procs[p := proc][|sh.procs| := born] && sched'.nextPid == |sh.procs| + 1
    ensures ProcsMatch(sh', sched')
  {
    forall q | 0 <= q < |sh'.procs| ensures sh'.procs[q].pid == q && ProcMatches(sh', sched'.procs[q], sh'.procs[q]) {
      if q < |sh.procs| && q != p {
        assert sh'.procs[..|sh.procs|][q] == sh.procs[q];
        BystanderMatches(sh, sh', sched, q, sh'.procs[q]);
      } else if q == p {
        assert sh'.procs[..|sh.procs|][p].pid == p;
      }
    }
  }

  /** The child's state, and the scheduler after the spawn. */
  function Child(next: ProcessId, stamp: Stamp, caps: seq<Capability>): ProcState {
    NewProcess(next).(clock := ReceiveEvent(NewProcess(next).clock, stamp)).GrantAll(caps)
  }

  function AfterSpawn(sched: S.SchedState, p: ProcessId, proc: ProcState, stamp: Stamp, caps: seq<Capability>): S.SchedState {
    S.SchedState(sched.procs[p := proc][sched.nextPid := Child(sched.nextPid, stamp, caps)], sched.nextPid + 1,
                 sched.ready + [sched.nextPid])
  }

  lemma BornEvents(w: World, log: Log, p: nat, proc: ProcState, caps: seq<Capability>)
    requires EventsMatch(w.events, w.sys.sched.procs, w.sys.sched.nextPid, log) && p in w.sys.sched.procs && p < w.sys.sched.nextPid
    requires proc.clock == LocalEvent(w.sys.sched.procs[p].clock)
    ensures var next, stamp := w.sys.sched.nextPid, proc.clock;
            var sched' := AfterSpawn(w.sys.sched, p, proc, stamp, caps);
            var ev := Chaos.Record(w.events, p, stamp, []);
            var ev' := Chaos.Record(ev.(last := ev.last + [None]), next, sched'.procs[next].clock, [|w.events.stamps|]);
            var log1 := log + [MC.NextEvent(log, p, None)];
            EventsMatch(ev', sched'.procs, sched'.nextPid, log1 + [MC.NextEvent(log1, next, Some(|log|))])
  {
    var next, stamp := w.sys.sched.nextPid, proc.clock;
    EventMatches(w.events, w.sys.sched.procs, next, log, p, None, proc);
    var born := NewProcess(next).(clock := ReceiveEvent(NewProcess(next).clock, stamp));
    GrantAllCounter(born, caps);
    var log1 := log + [MC.NextEvent(log, p, None)];
    BirthMatches(Chaos.Record(w.events, p, stamp, []), w.sys.sched.procs[p := proc], next, log1, |log|, born.GrantAll(caps));
  }

  /** The model with the child in it. */
  function WithChild(sh: Shadow, next: ProcessId, caps: seq<Capability>, ms: seq<CapModel>): Shadow
    requires |caps| == |ms|
  {
    sh.(procs := sh.procs + [ProcModel(next, Mirror(map[], HandlesFrom(0, |caps|), ms))],
        stash := sh.stash + seq(|caps|, i requires 0 <= i < |caps| => (caps[i], ms[i])))
  }

  /** The events of the spawn and the birth. */
  function BornRecord(ev: Events, p: nat, next: ProcessId, sent: Stamp, born: Stamp): Events {
    var ev1 := Chaos.Record(ev, p, sent, []);
    Chaos.Record(ev1.(last := ev1.last + [None]), next, born, [|ev.stamps|])
  }

  /** Mirroring the child by its sorted handles is mirroring it in the order of the grants. */
  lemma StashedIs(t: Table, hs: seq<Handle>, caps: seq<Capability>, ms: seq<CapModel>)
    requires |hs| == |caps| == |ms| && (forall i :: 0 <= i < |caps| ==> hs[i] == i) && ListsOut(t, caps)
    ensures Stashed(t, hs, ms) == seq(|caps|, i requires 0 <= i < |caps| => (caps[i], ms[i]))
  {
  }

  lemma {:induction false} BornIs(w: World, p: nat, k: KernelState, sched': S.SchedState, sh: Shadow, proc: ProcState,
                                caps: seq<Capability>, ms: seq<CapModel>)
    requires Exists(w, p) && w.shadow.procs[p].pid == p < w.sys.sched.nextPid == |sh.procs|
    requires |caps| == |ms| < HANDLE_LIMIT && sched' == AfterSpawn(w.sys.sched, p, proc, proc.clock, caps)
    ensures Born(w, p, k, sched', sh, ms) ==
            Ok(World(w.sys.(kernel := k, sched := sched'), WithChild(sh, w.sys.sched.nextPid, caps, ms),
                     BornRecord(w.events, p, w.sys.sched.nextPid, proc.clock, sched'.procs[w.sys.sched.nextPid].clock)))
  {
    var next := w.sys.sched.nextPid;
    var newborn := NewProcess(next).(clock := ReceiveEvent(NewProcess(next).clock, proc.clock));
    BornHandles(newborn, caps);
    GrantToNew(newborn, caps);
    HandlesWithoutWrap(0, |caps|);
    var hs, t := HandlesFrom(0, |caps|), newborn.GrantAll(caps).table;
    StashedIs(t, hs, caps, ms);
  }

  lemma BornStash(sh0: Shadow, sh: Shadow, next: ProcessId, caps: seq<Capability>, ms: seq<CapModel>)
    requires Extends(sh0, sh) && sh.stash == sh0.stash && StashMatches(sh0) && CapsMatch(sh, caps, ms)
    ensures StashMatches(WithChild(sh, next, caps, ms))
  {
    var sh' := WithChild(sh, next, caps, ms);
    forall i | 0 <= i < |caps| ensures CapMatches(sh', caps[i], ms[i]) {
      CapMatchesKept(sh, sh', caps[i], ms[i]);
    }
    StashKept(sh0, sh');
  }

  /** Parent and child match. */
  lemma BornProcs(w: World, log: Log, p: nat, a: T.Applied, sh: Shadow, models: seq<CapModel>, proc: ProcState)
    requires Matches(w, log) && p < |w.shadow.procs| && CHANNELS + |a.delivered| < HANDLE_LIMIT
    requires GrantedAlike(w.shadow, p, a, sh, models) && Extends(w.shadow, sh) && IdsMatch(sh, a.kernel)
    requires HoldsChannels(sh.procs[p].table)
    requires forall h :: h in a.table ==> h in w.sys.sched.procs[p].table
    requires proc == w.sys.sched.procs[p].(table := a.table, clock := LocalEvent(w.sys.sched.procs[p].clock))
    ensures |a.delivered| == |models|
    ensures var next, caps, ms := w.sys.sched.nextPid, ChannelCaps() + a.delivered, ChannelModels() + models;
            ProcsMatch(WithChild(sh, next, caps, ms), AfterSpawn(w.sys.sched, p, proc, proc.clock, caps))
  {
    var next, caps, ms := w.sys.sched.nextPid, ChannelCaps() + a.delivered, ChannelModels() + models;
    assert ProcMatches(w.shadow, w.sys.sched.procs[p], w.shadow.procs[p]);
    var newborn := NewProcess(next).(clock := ReceiveEvent(NewProcess(next).clock, proc.clock));
    BornMatches(sh, newborn, a.delivered, models, next);
    BornShadow(sh, WithChild(sh, next, caps, ms), w, p, proc, newborn.GrantAll(caps), AfterSpawn(w.sys.sched, p, proc, proc.clock, caps));
  }

  /** Everything but processes and events still matches. */
  lemma BornRest(w: World, log: Log, p: nat, a: T.Applied, sh: Shadow, models: seq<CapModel>, more: seq<Stamp>)
    requires Matches(w, log) && p < |w.shadow.procs| && GrantedAlike(w.shadow, p, a, sh, models) && Extends(w.shadow, sh)
    requires IdsMatch(sh, a.kernel) && StoreMatches(sh.regions, w.sys.store)
    ensures |a.delivered| == |models|
    ensures var sh' := WithChild(sh, w.sys.sched.nextPid, ChannelCaps() + a.delivered, ChannelModels() + models);
            && IdsMatch(sh', a.kernel) && StoreMatches(sh'.regions, w.sys.store) && StashMatches(sh')
            && FlightsMatch(sh', w.events.stamps + more, w.sys.queues)
  {
    var next, caps, ms := w.sys.sched.nextPid, ChannelCaps() + a.delivered, ChannelModels() + models;
    FlightsKept(w.shadow, WithChild(sh, next, caps, ms), w.events.stamps, more, w.sys.queues);
    BornStash(w.shadow, sh, next, caps, ms);
  }

  /** The world a spawn leaves matches, with the child mirrored. */
  lemma BornWorld(w: World, log: Log, p: nat, a: T.Applied, sh: Shadow, models: seq<CapModel>)
    requires Matches(w, log) && p < |w.shadow.procs| && CHANNELS + |a.delivered| < HANDLE_LIMIT
    requires GrantedAlike(w.shadow, p, a, sh, models) && Extends(w.shadow, sh) && IdsMatch(sh, a.kernel)
    requires StoreMatches(sh.regions, w.sys.store) && HoldsChannels(sh.procs[p].table)
    requires forall h :: h in a.table ==> h in w.sys.sched.procs[p].table
    ensures Exists(w, p) && |a.delivered| == |models|
    ensures var proc := w.sys.sched.procs[p].(table := a.table, clock := LocalEvent(w.sys.sched.procs[p].clock));
            var next, caps, ms := w.sys.sched.nextPid, ChannelCaps() + a.delivered, ChannelModels() + models;
            var sched' := AfterSpawn(w.sys.sched, p, proc, proc.clock, caps);
            var log1 := log + [MC.NextEvent(log, p, None)];
            Matches(World(w.sys.(kernel := a.kernel, sched := sched'), WithChild(sh, next, caps, ms),
                          BornRecord(w.events, p, next, proc.clock, sched'.procs[next].clock)),
                    log1 + [MC.NextEvent(log1, next, Some(|log|))])
  {
    var next, before := w.sys.sched.nextPid, w.sys.sched.procs[p];
    var proc, caps := before.(table := a.table, clock := LocalEvent(before.clock)), ChannelCaps() + a.delivered;
    var born := AfterSpawn(w.sys.sched, p, proc, proc.clock, caps).procs[next].clock;
    BornProcs(w, log, p, a, sh, models, proc);
    BornRest(w, log, p, a, sh, models, [proc.clock, born]);
    BornEvents(w, log, p, proc, caps);
    RecordStamps(w.events, p, next, proc.clock, born, |w.events.stamps|);
  }

  lemma RecordStamps(ev: Events, p: nat, next: nat, sent: Stamp, born: Stamp, cause: nat)
    requires |ev.last| == next && p < next
    ensures var ev1 := Chaos.Record(ev, p, sent, []);
            Chaos.Record(ev1.(last := ev1.last + [None]), next, born, [cause]).stamps == ev.stamps + [sent, born]
  {
  }

  lemma BornShadow(sh: Shadow, sh': Shadow, w: World, p: nat, proc: ProcState, born: ProcState, sched': S.SchedState)
    requires ProcsMatch(w.shadow, w.sys.sched) && p < |w.shadow.procs| == |sh.procs| && Extends(w.shadow, sh) && Extends(sh, sh')
    requires sh.procs == w.shadow.procs[p := ProcModel(p, sh.procs[p].table)]
    requires |sh'.procs| == |sh.procs| + 1 && sh'.procs[..|sh.procs|] == sh.procs
    requires ProcMatches(sh, proc, sh.procs[p]) && ProcMatches(sh, born, sh'.procs[|sh.procs|]) && sh'.procs[|sh.procs|].pid == |sh.procs|
    requires sched'.procs == w.sys.sched.procs[p := proc][|sh.procs| := born] && sched'.nextPid == |sh.procs| + 1
    ensures ProcsMatch(sh', sched')
  {
    TableMatchesKept(sh, sh', proc.table, sh.procs[p].table);
    TableMatchesKept(sh, sh', born.table, sh'.procs[|sh.procs|].table);
    assert sh'.procs[p] == sh'.procs[..|sh.procs|][p];
    ProcsAfterBirth(w.shadow, sh', w.sys.sched, sched', p, proc, born);
  }

  /** An accepted spawn records both events and mirrors the child's table, and leaves everything matching. */
  lemma BornMatching(w: World, log: Log, p: nat, a: T.Applied, sh: Shadow, models: seq<CapModel>, k: KernelState, sched': S.SchedState)
    returns (log': Log)
    requires Matches(w, log) && p < |w.shadow.procs| && CHANNELS + |a.delivered| < HANDLE_LIMIT
    requires GrantedAlike(w.shadow, p, a, sh, models) && Extends(w.shadow, sh) && IdsMatch(sh, a.kernel)
    requires StoreMatches(sh.regions, w.sys.store) && HoldsChannels(sh.procs[p].table)
    requires forall h :: h in a.table ==> h in w.sys.sched.procs[p].table
    requires k == a.kernel && Exists(w, p)
    requires var proc := ProcOf(w, p).(table := a.table, clock := LocalEvent(ProcOf(w, p).clock));
             sched' == AfterSpawn(w.sys.sched, p, proc, proc.clock, ChannelCaps() + a.delivered)
    ensures var r := Born(w, p, k, sched', sh, ChannelModels() + models); r.Ok? && Matches(r.value, log')
  {
    var proc := ProcOf(w, p).(table := a.table, clock := LocalEvent(ProcOf(w, p).clock));
    BornWorld(w, log, p, a, sh, models);
    BornIs(w, p, k, sched', sh, proc, ChannelCaps() + a.delivered, ChannelModels() + models);
    var log1 := log + [MC.NextEvent(log, p, None)];
    log' := log1 + [MC.NextEvent(log1, w.sys.sched.nextPid, Some(|log|))];
  }

  /** Every spawn succeeds or is rejected exactly as predicted, and the child's table is mirrored. */
  lemma {:induction false} SpawnMatches(w: World, log: Log, p: nat, picks: seq<(nat, GrantKind)>) returns (log': Log)
    requires Matches(w, log) && p < |w.shadow.procs| && CHANNELS + |picks| < HANDLE_LIMIT
    ensures ExecuteSpawn(w, p, picks).Ok? && Matches(ExecuteSpawn(w, p, picks).value, log')
  {
    log' := log;
    if |w.shadow.procs| != MAX_PROCESSES {
      var mt := w.shadow.procs[p].table;
      var gs := ConcreteGrants(mt, picks);
      BatchMatches(w, log, p, gs);
      SpawnGrants(w, log, p, gs);
      var k, t, cs, rs := w.sys.kernel, ProcOf(w, p).table, ChannelGrants(mt), ToGrants(gs);
      ChannelsChangeNothing(k, t, cs, rs);
      T.BatchEffect(k, t, cs + rs);
      var r := ApplyGrantsModel(w.shadow, p, gs);
      if r.Some? {
        ChannelsDelivered(k, t, cs, rs);
        var spawned := w.sys.sched.SpawnChild(k, w.shadow.procs[p].pid, cs + rs).value;
        log' := BornMatching(w, log, p, T.Effect(k, t, rs, |rs|), r.value.0, r.value.1, spawned.0, spawned.1);
      }
    }
  }
}
