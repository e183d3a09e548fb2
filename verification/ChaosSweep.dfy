/** What the audit notices: from a matching world, exactly which changes of the model it reports. */
module ChaosSweep {
  import opened Wrappers
  import opened Rights
  import opened Capabilities
  import opened Clocks
  import opened Processes
  import opened Causality
  import opened Data
  import opened Machine
  import opened Chaos
  import opened ChaosMatch
  import opened ChaosWorld
  import Regions

  /** The same kernel with another model. */
  function Modelled(w: World, sh: Shadow): World {
    w.(shadow := sh)
  }

  function WithTable(sh: Shadow, p: nat, mt: TableModel): Shadow
    requires p < |sh.procs|
  {
    sh.(procs := sh.procs[p := sh.procs[p].(table := mt)])
  }

  function WithRegion(sh: Shadow, r: nat, model: RegionModel): Shadow
    requires r < |sh.regions|
  {
    sh.(regions := sh.regions[r := model])
  }

  // ---- what a change leaves as it was ----

  /** The models name the same kernel objects. */
  ghost predicate SameNames(sh: Shadow, sh': Shadow) {
    && sh'.channels == sh.channels && |sh'.regions| == |sh.regions|
    && forall r :: 0 <= r < |sh.regions| ==> sh'.regions[r].object_ == sh.regions[r].object_
  }

  lemma TableStillSwept(w: World, sh': Shadow, p: nat)
    requires SameNames(w.shadow, sh') && p < |w.shadow.procs| && p < |sh'.procs| && sh'.procs[p] == w.shadow.procs[p]
    requires TableSwept(w, p)
    ensures TableSwept(Modelled(w, sh'), p)
  {
    var w' := Modelled(w, sh');
    forall h | h in w.shadow.procs[p].table
      ensures var m, cap := w.shadow.procs[p].table[h], ProcOf(w, p).table[h];
              ValidObj(sh', m.obj) && cap.obj == ObjectIdOf(sh', m.obj) && cap.rights == m.rights
    {
      SameIds(w.shadow, sh', w.shadow.procs[p].table[h].obj);
    }
  }

  lemma SameIds(sh: Shadow, sh': Shadow, o: Obj)
    requires SameNames(sh, sh') && ValidObj(sh, o)
    ensures ValidObj(sh', o) && ObjectIdOf(sh', o) == ObjectIdOf(sh, o)
  {
  }

  /** The models agree on who may do what. */
  ghost predicate SameVerdicts(sh: Shadow, sh': Shadow) {
    && SameNames(sh, sh') && sh'.stash == sh.stash
    && forall i :: 0 <= i < |sh.stash| && ValidObj(sh, sh.stash[i].1.obj) ==>
         PredictCheck(sh', sh.stash[i].1, NONE) == PredictCheck(sh, sh.stash[i].1, NONE)
  }

  lemma SameChecks(sh: Shadow, sh': Shadow, m: CapModel, required: set<Right>)
    requires ValidObj(sh, m.obj) && ValidObj(sh', m.obj) && PredictCheck(sh', m, NONE) == PredictCheck(sh, m, NONE)
    requires ObjectIdOf(sh, m.obj) == ObjectIdOf(sh', m.obj)
    ensures PredictCheck(sh', m, required) == PredictCheck(sh, m, required)
  {
  }

  lemma {:induction false} SameAuditor(sh: Shadow, sh': Shadow, r: nat, n: nat)
    requires SameVerdicts(sh, sh') && n <= |sh.stash|
    ensures Auditor(sh', r, n) == Auditor(sh, r, n)
  {
    if n > 0 {
      SameAuditor(sh, sh', r, n - 1);
      var m := sh.stash[n - 1].1;
      if ValidObj(sh, m.obj) {
        SameIds(sh, sh', m.obj);
        SameChecks(sh, sh', m, {READ});
      }
    }
  }

  /** A model that gives the same names, tables and verdicts is told apart by its live regions and their
      bytes alone. */
  lemma OnlyRegionsMatter(w: World, log: Log, sh': Shadow)
    requires Matches(w, log) && SameVerdicts(w.shadow, sh') && sh'.procs == w.shadow.procs
    ensures Swept(Modelled(w, sh')) <==>
            && CountAlive(sh'.regions) == CountAlive(w.shadow.regions)
            && forall r :: 0 <= r < |sh'.regions| ==> RegionSwept(Modelled(w, sh'), r)
  {
    MatchingIsSwept(w, log);
    forall p | 0 <= p < |sh'.procs| ensures TableSwept(Modelled(w, sh'), p) {
      TableStillSwept(w, sh', p);
    }
    forall i | 0 <= i < |sh'.stash| ensures StashSwept(Modelled(w, sh'), i) {
      assert StashSwept(w, i);
      SameIds(w.shadow, sh', w.shadow.stash[i].1.obj);
    }
  }

  // ---- bytes ----

  /** Wrong bytes are reported exactly if some capability ever seen can still read the region. */
  lemma BytesAreWatched(w: World, log: Log, r: nat, bytes: seq<byte>)
    requires Matches(w, log) && r < |w.shadow.regions|
    ensures Swept(Modelled(w, WithRegion(w.shadow, r, w.shadow.regions[r].(bytes := bytes)))) <==>
            bytes == w.shadow.regions[r].bytes || Auditor(w.shadow, r, |w.shadow.stash|).None?
  {
    var sh, sh' := w.shadow, WithRegion(w.shadow, r, w.shadow.regions[r].(bytes := bytes));
    SameLiveness(sh, sh');
    OnlyRegionsMatter(w, log, sh');
    CountAliveSame(sh.regions, sh'.regions);
    MatchingIsSwept(w, log);
    forall q | 0 <= q < |sh'.regions|
      ensures RegionSwept(Modelled(w, sh'), q) <==> q != r || bytes == sh.regions[r].bytes || Auditor(sh, r, |sh.stash|).None?
    {
      assert RegionSwept(w, q);
      SameAuditor(sh, sh', q, |sh.stash|);
    }
    assert RegionSwept(Modelled(w, sh'), r) <==> bytes == sh.regions[r].bytes || Auditor(sh, r, |sh.stash|).None?;
  }

  lemma SameLiveness(sh: Shadow, sh': Shadow)
    requires SameNames(sh, sh') && sh'.stash == sh.stash
    requires forall q :: 0 <= q < |sh.regions| ==> sh'.regions[q].alive == sh.regions[q].alive && sh'.regions[q].epoch == sh.regions[q].epoch
    ensures SameVerdicts(sh, sh')
  {
  }

  lemma {:induction false} CountAliveSame(regions: seq<RegionModel>, regions': seq<RegionModel>)
    requires |regions'| == |regions| && forall q :: 0 <= q < |regions| ==> regions'[q].alive == regions[q].alive
    ensures CountAlive(regions') == CountAlive(regions)
    decreases |regions|
  {
    if regions != [] {
      CountAliveSame(regions[..|regions| - 1], regions'[..|regions| - 1]);
    }
  }

  // ---- life and death ----

  lemma {:induction false} CountAliveFlipped(regions: seq<RegionModel>, r: nat, model: RegionModel)
    requires r < |regions| && model.alive != regions[r].alive
    ensures CountAlive(regions[r := model]) != CountAlive(regions)
    decreases |regions|
  {
    var n := |regions| - 1;
    if r < n {
      CountAliveFlipped(regions[..n], r, model);
      assert regions[r := model][..n] == regions[..n][r := model];
    } else {
      assert regions[r := model][..n] == regions[..n];
    }
  }

  /** A region wrongly thought dead, or alive, is always reported. */
  lemma LifeIsWatched(w: World, log: Log, r: nat, model: RegionModel)
    requires Matches(w, log) && r < |w.shadow.regions| && model.alive != w.shadow.regions[r].alive
    ensures !Swept(Modelled(w, WithRegion(w.shadow, r, model)))
  {
    MatchingIsSwept(w, log);
    CountAliveFlipped(w.shadow.regions, r, model);
  }

  // ---- epochs ----

  /** The capabilities for region `r` seen so far are live under epoch `e` exactly if they are now. */
  ghost predicate SameLive(sh: Shadow, r: nat, e: nat)
    requires r < |sh.regions|
  {
    forall i :: 0 <= i < |sh.stash| && sh.stash[i].1.obj == Region(r) ==>
      (sh.stash[i].1.epoch == e <==> sh.stash[i].1.epoch == sh.regions[r].epoch)
  }

  /** A wrong epoch is reported exactly if the region is alive and some capability ever seen for it is live
      on one side only. */
  lemma EpochsAreWatched(w: World, log: Log, r: nat, e: nat)
    requires Matches(w, log) && r < |w.shadow.regions|
    ensures Swept(Modelled(w, WithRegion(w.shadow, r, w.shadow.regions[r].(epoch := e)))) <==>
            w.shadow.regions[r].alive ==> SameLive(w.shadow, r, e)
  {
    var sh, sh' := w.shadow, WithRegion(w.shadow, r, w.shadow.regions[r].(epoch := e));
    if sh.regions[r].alive ==> SameLive(sh, r, e) {
      EpochUnnoticed(w, log, r, e);
    } else {
      var i :| 0 <= i < |sh.stash| && sh.stash[i].1.obj == Region(r) && (sh.stash[i].1.epoch == e) != (sh.stash[i].1.epoch == sh.regions[r].epoch);
      MatchingIsSwept(w, log);
      assert StashSwept(w, i);
      assert !StashSwept(Modelled(w, sh'), i);
    }
  }

  lemma EpochUnnoticed(w: World, log: Log, r: nat, e: nat)
    requires Matches(w, log) && r < |w.shadow.regions| && (w.shadow.regions[r].alive ==> SameLive(w.shadow, r, e))
    ensures Swept(Modelled(w, WithRegion(w.shadow, r, w.shadow.regions[r].(epoch := e))))
  {
    var sh, sh' := w.shadow, WithRegion(w.shadow, r, w.shadow.regions[r].(epoch := e));
    assert SameVerdicts(sh, sh');
    OnlyRegionsMatter(w, log, sh');
    CountAliveSame(sh.regions, sh'.regions);
    MatchingIsSwept(w, log);
    forall q | 0 <= q < |sh.regions| ensures RegionSwept(Modelled(w, sh'), q) {
      SameAuditor(sh, sh', q, |sh.stash|);
      assert RegionSwept(w, q);
    }
  }

  // ---- tables ----

  /** The tables name the same objects with the same rights under the same handles. */
  ghost predicate SameEntries(mt: TableModel, mt': TableModel) {
    mt'.Keys == mt.Keys && forall h :: h in mt ==> mt'[h].obj == mt[h].obj && mt'[h].rights == mt[h].rights
  }

  lemma NamesDiffer(sh: Shadow, k: KernelState, o: Obj, o': Obj)
    requires KernelMatches(sh, k) && ValidObj(sh, o) && ValidObj(sh, o') && ObjectIdOf(sh, o) == ObjectIdOf(sh, o')
    ensures o == o'
  {
  }

  /** A wrong table is reported exactly if it misses a handle, has one too many, or gives one another object
      or other rights. */
  lemma TablesAreWatched(w: World, log: Log, p: nat, mt: TableModel)
    requires Matches(w, log) && p < |w.shadow.procs|
    ensures Swept(Modelled(w, WithTable(w.shadow, p, mt))) <==> SameEntries(w.shadow.procs[p].table, mt)
  {
    var sh, sh' := w.shadow, WithTable(w.shadow, p, mt);
    MatchingIsSwept(w, log);
    assert TableSwept(w, p);
    TableAgrees(w, log, p, mt);
    if TableSwept(Modelled(w, sh'), p) {
      RestStillSwept(w, p, mt);
    }
  }

  lemma TableAgrees(w: World, log: Log, p: nat, mt: TableModel)
    requires Matches(w, log) && p < |w.shadow.procs| && TableSwept(w, p)
    ensures TableSwept(Modelled(w, WithTable(w.shadow, p, mt)), p) <==> SameEntries(w.shadow.procs[p].table, mt)
  {
    var sh, w' := w.shadow, Modelled(w, WithTable(w.shadow, p, mt));
    if TableSwept(w', p) {
      forall h | h in mt ensures h in sh.procs[p].table && mt[h].obj == sh.procs[p].table[h].obj {
        NamesDiffer(sh, w.sys.kernel, mt[h].obj, sh.procs[p].table[h].obj);
      }
    }
  }

  lemma RestStillSwept(w: World, p: nat, mt: TableModel)
    requires Swept(w) && p < |w.shadow.procs| && TableSwept(Modelled(w, WithTable(w.shadow, p, mt)), p)
    ensures Swept(Modelled(w, WithTable(w.shadow, p, mt)))
  {
    var sh, sh' := w.shadow, WithTable(w.shadow, p, mt);
    forall q | 0 <= q < |sh'.procs| ensures TableSwept(Modelled(w, sh'), q) {
      if q != p {
        TableStillSwept(w, sh', q);
      }
    }
    forall i | 0 <= i < |sh.stash| ensures StashSwept(Modelled(w, sh'), i) {
      assert StashSwept(w, i);
    }
    forall r | 0 <= r < |sh.regions| ensures RegionSwept(Modelled(w, sh'), r) {
      assert RegionSwept(w, r);
      SameAuditor(sh, sh', r, |sh.stash|);
    }
  }
}
