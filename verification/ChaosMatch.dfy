/** The relation between the kernel and the shadow model, and the proof that a grant batch treats both
    alike. */
module ChaosMatch {
  import opened Wrappers
  import opened Rights
  import opened Capabilities
  import opened Clocks
  import opened Processes
  import opened Channels
  import opened Chaos
  import T = Transfers
  import Regions

  /** The harness creates its channels first and nothing but regions after, so ids are in order; in
      particular the model's ids name different kernel objects. */
  ghost predicate IdsInOrder(sh: Shadow) {
    && |sh.channels| == CHANNELS
    && (forall c :: 0 <= c < |sh.channels| ==> sh.channels[c] == c)
    && (forall r :: 0 <= r < |sh.regions| ==> sh.regions[r].object_ == CHANNELS + r)
  }

  ghost predicate RegionMatches(r: RegionModel, k: KernelState) {
    r.object_ < k.nextId && (r.alive <==> r.object_ in k.epochs) && (r.alive ==> k.epochs[r.object_] == r.epoch)
  }

  ghost predicate RegionsMatch(regions: seq<RegionModel>, k: KernelState) {
    forall r :: 0 <= r < |regions| ==> RegionMatches(regions[r], k)
  }

  /** Channels are never revoked or destroyed. */
  ghost predicate ChannelsMatch(channels: seq<ObjectId>, k: KernelState) {
    forall c :: 0 <= c < |channels| ==> channels[c] < k.nextId && channels[c] in k.epochs && k.epochs[channels[c]] == 0
  }

  ghost predicate KernelMatches(sh: Shadow, k: KernelState) {
    k.Ordered() && IdsInOrder(sh) && RegionsMatch(sh.regions, k) && ChannelsMatch(sh.channels, k)
  }

  /** A capability and the model of it. */
  ghost predicate CapMatches(sh: Shadow, cap: Capability, m: CapModel) {
    && ValidObj(sh, m.obj) && cap == Capability(ObjectIdOf(sh, m.obj), m.rights, m.epoch)
    && (m.obj.Channel? ==> m.epoch == 0)
  }

  ghost predicate CapsMatch(sh: Shadow, caps: seq<Capability>, ms: seq<CapModel>) {
    |caps| == |ms| && forall i :: 0 <= i < |caps| ==> CapMatches(sh, caps[i], ms[i])
  }

  ghost predicate TableMatches(sh: Shadow, t: Table, mt: TableModel) {
    t.Keys == mt.Keys && forall h :: h in t ==> CapMatches(sh, t[h], mt[h])
  }

  /** The model predicts every check exactly, the error included. */
  lemma ChecksAreExact(sh: Shadow, k: KernelState, cap: Capability, m: CapModel, required: set<Right>)
    requires KernelMatches(sh, k) && CapMatches(sh, cap, m)
    ensures PredictCheck(sh, m, required) == k.Check(cap, required)
  {
    match m.obj
    case Region(r) => assert RegionMatches(sh.regions[r], k);
    case Channel(c) => assert k.epochs[sh.channels[c]] == 0;
  }

  // ---- phase one ----

  lemma OneResolvesAlike(sh: Shadow, k: KernelState, t: Table, mt: TableModel, g: Choice)
    requires KernelMatches(sh, k) && TableMatches(sh, t, mt) && g.0 in mt
    ensures ValidObj(sh, mt[g.0].obj)
    ensures ModelResolveOne(sh, mt, g).Some? <==> T.Authorised(k, t, ToGrant(g))
    ensures ModelResolveOne(sh, mt, g).Some? ==> CapMatches(sh, T.Named(t, ToGrant(g)), ModelResolveOne(sh, mt, g).value)
  {
    assert CapMatches(sh, t[g.0], mt[g.0]);
    ChecksAreExact(sh, k, t[g.0], mt[g.0], {GRANT});
    ChecksAreExact(sh, k, t[g.0], mt[g.0], {DESTROY});
  }

  lemma ChosenValid(sh: Shadow, t: Table, mt: TableModel, gs: seq<Choice>)
    requires TableMatches(sh, t, mt) && forall i :: 0 <= i < |gs| ==> gs[i].0 in mt
    ensures Chosen(sh, mt, gs)
  {
    forall i | 0 <= i < |gs| ensures ValidObj(sh, mt[gs[i].0].obj) {
      assert CapMatches(sh, t[gs[i].0], mt[gs[i].0]);
    }
  }

  lemma LeavesOnceAlike(gs: seq<Choice>, n: nat)
    requires 0 < n <= |gs|
    ensures T.LeavesOnce(ToGrants(gs), n) <==> T.LeavesOnce(ToGrants(gs), n - 1) && !SeenBefore(gs, n - 1)
  {
    var grants := ToGrants(gs);
    assert forall i :: 0 <= i < |gs| ==> (T.Leaves(grants[i]) <==> TakesHandle(gs[i].1)) && grants[i].h == gs[i].0;
  }

  lemma {:induction false} ResolvesAlike(sh: Shadow, k: KernelState, t: Table, mt: TableModel, gs: seq<Choice>, n: nat)
    requires KernelMatches(sh, k) && TableMatches(sh, t, mt) && Chosen(sh, mt, gs) && n <= |gs|
    ensures ModelResolve(sh, mt, gs, n).Some? <==>
            (forall i :: 0 <= i < n ==> T.Authorised(k, t, ToGrants(gs)[i])) && T.LeavesOnce(ToGrants(gs), n)
    ensures var r := ModelResolve(sh, mt, gs, n);
            r.Some? ==> forall i :: 0 <= i < n ==> gs[i].0 in t && CapMatches(sh, T.Named(t, ToGrants(gs)[i]), r.value[i])
  {
    if n > 0 {
      var grants := ToGrants(gs);
      ResolvesAlike(sh, k, t, mt, gs, n - 1);
      OneResolvesAlike(sh, k, t, mt, gs[n - 1]);
      assert grants[n - 1] == ToGrant(gs[n - 1]);
      LeavesOnceAlike(gs, n);
    }
  }

  /** Objects of capabilities agree exactly when the models' do. */
  lemma SameObject(sh: Shadow, a: Capability, m: CapModel, b: Capability, n: CapModel)
    requires IdsInOrder(sh) && CapMatches(sh, a, m) && CapMatches(sh, b, n)
    ensures a.obj == b.obj <==> m.obj == n.obj
  {
  }

  /** What the models of a batch's capabilities are. */
  ghost predicate NamedMatch(sh: Shadow, t: Table, gs: seq<Choice>, caps: seq<CapModel>) {
    |caps| == |gs| && forall i :: 0 <= i < |gs| ==> gs[i].0 in t && CapMatches(sh, T.Named(t, ToGrant(gs[i])), caps[i])
  }

  lemma ConflictsAlike(sh: Shadow, t: Table, gs: seq<Choice>, caps: seq<CapModel>)
    requires IdsInOrder(sh) && NamedMatch(sh, t, gs, caps)
    ensures ModelConflict(gs, caps) <==> !T.MovesAlone(t, ToGrants(gs))
  {
    var grants := ToGrants(gs);
    forall i, j | 0 <= i < |gs| && 0 <= j < |gs|
      ensures caps[j].obj == caps[i].obj <==> t[grants[j].h].obj == t[grants[i].h].obj
    {
      SameObject(sh, T.Named(t, ToGrant(gs[i])), caps[i], T.Named(t, ToGrant(gs[j])), caps[j]);
    }
    assert forall i :: 0 <= i < |gs| ==> (gs[i].1.Move? <==> grants[i].Move?);
  }

  /** The model accepts exactly the batches the kernel accepts. */
  lemma BatchesAcceptedAlike(sh: Shadow, k: KernelState, t: Table, mt: TableModel, gs: seq<Choice>)
    requires KernelMatches(sh, k) && TableMatches(sh, t, mt) && Chosen(sh, mt, gs)
    ensures var r := ModelResolve(sh, mt, gs, |gs|);
            && ((r.Some? && !ModelConflict(gs, r.value)) <==> T.Admissible(k, t, ToGrants(gs)))
            && (r.Some? ==> NamedMatch(sh, t, gs, r.value))
  {
    var r := ModelResolve(sh, mt, gs, |gs|);
    ResolvesAlike(sh, k, t, mt, gs, |gs|);
    if r.Some? {
      assert forall i :: 0 <= i < |gs| ==> ToGrants(gs)[i] == ToGrant(gs[i]);
      ConflictsAlike(sh, t, gs, r.value);
    }
  }

  // ---- phase two ----

  /** The model still knows the same objects by the same ids, and perhaps more. */
  ghost predicate Extends(sh: Shadow, sh': Shadow) {
    && sh'.channels == sh.channels && |sh.regions| <= |sh'.regions|
    && forall r :: 0 <= r < |sh.regions| ==> sh'.regions[r].object_ == sh.regions[r].object_
  }

  lemma CapMatchesKept(sh: Shadow, sh': Shadow, cap: Capability, m: CapModel)
    requires Extends(sh, sh') && CapMatches(sh, cap, m)
    ensures CapMatches(sh', cap, m)
  {
  }

  lemma TableMatchesKept(sh: Shadow, sh': Shadow, t: Table, mt: TableModel)
    requires Extends(sh, sh') && TableMatches(sh, t, mt)
    ensures TableMatches(sh', t, mt)
  {
    forall h | h in t ensures CapMatches(sh', t[h], mt[h]) {
      CapMatchesKept(sh, sh', t[h], mt[h]);
    }
  }

  lemma CapsMatchKept(sh: Shadow, sh': Shadow, caps: seq<Capability>, ms: seq<CapModel>)
    requires Extends(sh, sh') && CapsMatch(sh, caps, ms)
    ensures CapsMatch(sh', caps, ms)
  {
    forall i | 0 <= i < |caps| ensures CapMatches(sh', caps[i], ms[i]) {
      CapMatchesKept(sh, sh', caps[i], ms[i]);
    }
  }

  function WithRegions(sh: Shadow, regions: seq<RegionModel>): Shadow {
    sh.(regions := regions)
  }

  /** One region's epoch goes up in both. */
  lemma BumpsAlike(sh: Shadow, k: KernelState, r: nat)
    requires KernelMatches(sh, k) && r < |sh.regions| && sh.regions[r].alive
    ensures var sh' := WithRegions(sh, sh.regions[r := sh.regions[r].(epoch := sh.regions[r].epoch + 1)]);
            var o := sh.regions[r].object_;
            && o in k.epochs && Extends(sh, sh') && KernelMatches(sh', k.(epochs := k.epochs[o := k.epochs[o] + 1]))
  {
    var o := sh.regions[r].object_;
    var sh' := WithRegions(sh, sh.regions[r := sh.regions[r].(epoch := sh.regions[r].epoch + 1)]);
    var k' := k.(epochs := k.epochs[o := k.epochs[o] + 1]);
    assert RegionMatches(sh.regions[r], k);
    forall q | 0 <= q < |sh'.regions| ensures RegionMatches(sh'.regions[q], k') {
      assert RegionMatches(sh.regions[q], k);
    }
  }

  /** The batch is valid and touches regions only. */
  ghost predicate Movable(sh: Shadow, k: KernelState, t: Table, gs: seq<Choice>, caps: seq<CapModel>) {
    && T.Admissible(k, t, ToGrants(gs)) && NamedMatch(sh, t, gs, caps)
    && forall i :: 0 <= i < |gs| ==> IsRegion(caps[i])
  }

  /** After `n` grants: regions, table and deliveries still match. */
  ghost predicate AppliedAlike(sh: Shadow, caps: seq<CapModel>, n: nat, a: T.Applied, after: Applying)
    requires n <= |caps|
  {
    var sh' := WithRegions(sh, after.regions);
    && |after.regions| == |sh.regions| && |after.caps| == |caps| && |a.delivered| == n
    && Extends(sh, sh') && KernelMatches(sh', a.kernel) && TableMatches(sh', a.table, after.table)
    && (forall i :: 0 <= i < n ==> CapMatches(sh', a.delivered[i], after.caps[i]) && IsRegion(after.caps[i]))
    && (forall i :: n <= i < |caps| ==> after.caps[i] == caps[i])
  }

  /** Grant `n` is of a region, and the model knows its capability. */
  ghost predicate KnownGrant(sh: Shadow, t: Table, g: Choice, cap: CapModel) {
    g.0 in t && IsRegion(cap) && CapMatches(sh, T.Named(t, ToGrant(g)), cap)
  }

  lemma MoveAlike(sh: Shadow, t: Table, g: Choice, caps: seq<CapModel>, n: nat, a: T.Applied, before: Applying, b: T.Applied, after: Applying)
    requires n < |caps| && AppliedAlike(sh, caps, n, a, before) && KnownGrant(sh, t, g, caps[n]) && g.1.Move?
    requires T.AddsGrant(t, ToGrant(g), a, b) && after == ApplyOne(before, g, n)
    ensures AppliedAlike(sh, caps, n + 1, b, after)
  {
    var sh1, sh2, r := WithRegions(sh, before.regions), WithRegions(sh, after.regions), caps[n].obj.r;
    CapMatchesKept(sh, sh1, T.Named(t, ToGrant(g)), caps[n]);
    assert RegionMatches(sh1.regions[r], a.kernel);
    BumpsAlike(sh1, a.kernel, r);
    TableMatchesKept(sh1, sh2, a.table, before.table);
    DeliveriesKept(sh1, sh2, a.delivered, before.caps, n);
  }

  lemma DeliveriesKept(sh: Shadow, sh': Shadow, delivered: seq<Capability>, caps: seq<CapModel>, n: nat)
    requires Extends(sh, sh') && n <= |delivered| && n <= |caps|
    requires forall i :: 0 <= i < n ==> CapMatches(sh, delivered[i], caps[i]) && IsRegion(caps[i])
    ensures forall i :: 0 <= i < n ==> CapMatches(sh', delivered[i], caps[i]) && IsRegion(caps[i])
  {
    forall i | 0 <= i < n ensures CapMatches(sh', delivered[i], caps[i]) {
      CapMatchesKept(sh, sh', delivered[i], caps[i]);
    }
  }

  lemma PlainAlike(sh: Shadow, t: Table, g: Choice, caps: seq<CapModel>, n: nat, a: T.Applied, before: Applying, b: T.Applied, after: Applying)
    requires n < |caps| && AppliedAlike(sh, caps, n, a, before) && KnownGrant(sh, t, g, caps[n]) && !g.1.Move?
    requires T.AddsGrant(t, ToGrant(g), a, b) && after == ApplyOne(before, g, n)
    ensures AppliedAlike(sh, caps, n + 1, b, after)
  {
    CapMatchesKept(sh, WithRegions(sh, before.regions), T.Named(t, ToGrant(g)), caps[n]);
  }

  lemma NoneAlike(sh: Shadow, k: KernelState, t: Table, mt: TableModel, caps: seq<CapModel>)
    requires KernelMatches(sh, k) && TableMatches(sh, t, mt)
    ensures AppliedAlike(sh, caps, 0, T.Applied(k, t, []), Applying(sh.regions, mt, caps))
  {
    assert WithRegions(sh, sh.regions) == sh;
  }

  lemma OneAlike(sh: Shadow, t: Table, g: Choice, caps: seq<CapModel>, n: nat, a: T.Applied, before: Applying, b: T.Applied, after: Applying)
    requires n < |caps| && AppliedAlike(sh, caps, n, a, before) && KnownGrant(sh, t, g, caps[n])
    requires T.AddsGrant(t, ToGrant(g), a, b) && after == ApplyOne(before, g, n)
    ensures AppliedAlike(sh, caps, n + 1, b, after)
  {
    if g.1.Move? {
      MoveAlike(sh, t, g, caps, n, a, before, b, after);
    } else {
      PlainAlike(sh, t, g, caps, n, a, before, b, after);
    }
  }

  lemma NextAlike(sh: Shadow, k: KernelState, t: Table, gs: seq<Choice>, caps: seq<CapModel>, n: nat, before: Applying, b: T.Applied, after: Applying)
    requires Movable(sh, k, t, gs, caps) && 0 < n <= |gs| && AppliedAlike(sh, caps, n - 1, T.Effect(k, t, ToGrants(gs), n - 1), before)
    requires b == T.Effect(k, t, ToGrants(gs), n) && after == ApplyOne(before, gs[n - 1], n - 1)
    ensures AppliedAlike(sh, caps, n, b, after)
  {
    T.EffectNext(k, t, ToGrants(gs), n - 1);
    OneAlike(sh, t, gs[n - 1], caps, n - 1, T.Effect(k, t, ToGrants(gs), n - 1), before, b, after);
  }

  lemma {:induction false} AppliesUpTo(sh: Shadow, k: KernelState, t: Table, start: Applying, gs: seq<Choice>, caps: seq<CapModel>, n: nat,
                                       a: T.Applied, after: Applying)
    requires Movable(sh, k, t, gs, caps) && |start.caps| == |gs| && AppliedAlike(sh, caps, 0, T.Applied(k, t, []), start)
    requires n <= |gs| && a == T.Effect(k, t, ToGrants(gs), n) && after == ModelApply(start, gs, n)
    ensures AppliedAlike(sh, caps, n, a, after)
  {
    if n == 0 {
      T.EffectOfNone(k, t, ToGrants(gs));
    } else {
      var before := ModelApply(start, gs, n - 1);
      AppliesUpTo(sh, k, t, start, gs, caps, n - 1, T.Effect(k, t, ToGrants(gs), n - 1), before);
      NextAlike(sh, k, t, gs, caps, n, before, a, after);
    }
  }

  /** Applying a valid batch leaves the model and the kernel matching, grant by grant. */
  lemma AppliesAlike(sh: Shadow, k: KernelState, t: Table, mt: TableModel, gs: seq<Choice>, caps: seq<CapModel>)
    requires KernelMatches(sh, k) && TableMatches(sh, t, mt) && Movable(sh, k, t, gs, caps)
    ensures AppliedAlike(sh, caps, |gs|, T.Effect(k, t, ToGrants(gs), |gs|), ModelApply(Applying(sh.regions, mt, caps), gs, |gs|))
  {
    NoneAlike(sh, k, t, mt, caps);
    var start := Applying(sh.regions, mt, caps);
    AppliesUpTo(sh, k, t, start, gs, caps, |gs|, T.Effect(k, t, ToGrants(gs), |gs|), ModelApply(start, gs, |gs|));
  }

  /** Applying a batch to the model changes region epochs, and nothing else about a region. */
  lemma {:induction false} ApplyKeepsBytes(a: Applying, gs: seq<Choice>, n: nat, r: nat)
    requires |a.caps| == |gs| && n <= |gs| && r < |a.regions|
    ensures var b := ModelApply(a, gs, n); b.regions[r] == a.regions[r].(epoch := b.regions[r].epoch)
  {
    if n > 0 {
      ApplyKeepsBytes(a, gs, n - 1, r);
    }
  }

  /** What the model of a batch leaves, next to what the kernel leaves. */
  ghost predicate GrantedAlike(sh: Shadow, p: nat, a: T.Applied, sh': Shadow, delivered: seq<CapModel>)
    requires p < |sh.procs|
  {
    && |sh'.procs| == |sh.procs| && sh' == sh.(regions := sh'.regions, procs := sh.procs[p := sh.procs[p].(table := sh'.procs[p].table)])
    && |sh'.regions| == |sh.regions| && (forall r :: 0 <= r < |sh.regions| ==> sh'.regions[r] == sh.regions[r].(epoch := sh'.regions[r].epoch))
    && KernelMatches(sh', a.kernel) && TableMatches(sh', a.table, sh'.procs[p].table)
    && CapsMatch(sh', a.delivered, delivered) && forall i :: 0 <= i < |delivered| ==> IsRegion(delivered[i])
  }

  /** The model of a grant batch is exact: it accepts what the kernel accepts, and then delivers the same
      capabilities and leaves the same table and the same epochs. */
  lemma GrantsAlike(sh: Shadow, k: KernelState, t: Table, p: nat, gs: seq<Choice>)
    requires p < |sh.procs| && KernelMatches(sh, k) && TableMatches(sh, t, sh.procs[p].table)
    requires forall i :: 0 <= i < |gs| ==> gs[i].0 in sh.procs[p].table && IsRegion(sh.procs[p].table[gs[i].0])
    ensures Chosen(sh, sh.procs[p].table, gs)
    ensures ApplyGrantsModel(sh, p, gs).Some? <==> T.Admissible(k, t, ToGrants(gs))
    ensures ApplyGrantsModel(sh, p, gs).Some? ==>
              GrantedAlike(sh, p, T.Effect(k, t, ToGrants(gs), |gs|), ApplyGrantsModel(sh, p, gs).value.0, ApplyGrantsModel(sh, p, gs).value.1)
  {
    var mt := sh.procs[p].table;
    ChosenValid(sh, t, mt, gs);
    BatchesAcceptedAlike(sh, k, t, mt, gs);
    if ApplyGrantsModel(sh, p, gs).Some? {
      var caps := ModelResolve(sh, mt, gs, |gs|).value;
      ResolvedRegions(sh, mt, gs, |gs|);
      AppliesAlike(sh, k, t, mt, gs, caps);
      var start := Applying(sh.regions, mt, caps);
      forall r | 0 <= r < |sh.regions|
        ensures var b := ModelApply(start, gs, |gs|); b.regions[r] == sh.regions[r].(epoch := b.regions[r].epoch)
      {
        ApplyKeepsBytes(start, gs, |gs|, r);
      }
      GrantedAlikeFrom(sh, k, t, p, gs, caps, ModelApply(start, gs, |gs|));
    }
  }

  lemma {:induction false} ResolvedRegions(sh: Shadow, mt: TableModel, gs: seq<Choice>, n: nat)
    requires Chosen(sh, mt, gs) && n <= |gs| && forall i :: 0 <= i < |gs| ==> IsRegion(mt[gs[i].0])
    ensures var r := ModelResolve(sh, mt, gs, n); r.Some? ==> forall i :: 0 <= i < n ==> IsRegion(r.value[i])
  {
    if n > 0 {
      ResolvedRegions(sh, mt, gs, n - 1);
    }
  }

  lemma GrantedAlikeFrom(sh: Shadow, k: KernelState, t: Table, p: nat, gs: seq<Choice>, caps: seq<CapModel>, b: Applying)
    requires p < |sh.procs| && |caps| == |gs| && (forall i :: 0 <= i < |gs| ==> gs[i].0 in t)
    requires AppliedAlike(sh, caps, |gs|, T.Effect(k, t, ToGrants(gs), |gs|), b)
    requires forall r :: 0 <= r < |sh.regions| ==> b.regions[r] == sh.regions[r].(epoch := b.regions[r].epoch)
    ensures GrantedAlike(sh, p, T.Effect(k, t, ToGrants(gs), |gs|),
              sh.(regions := b.regions, procs := sh.procs[p := sh.procs[p].(table := b.table)]), b.caps)
  {
    var sh1 := WithRegions(sh, b.regions);
    var sh2 := sh.(regions := b.regions, procs := sh.procs[p := sh.procs[p].(table := b.table)]);
    var a := T.Effect(k, t, ToGrants(gs), |gs|);
    TableMatchesKept(sh1, sh2, a.table, b.table);
    CapsMatchKept(sh1, sh2, a.delivered, b.caps);
  }
}
