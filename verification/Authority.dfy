/** Authority over whole runs: every capability ever minted, kept copies included, and what the kernel
    lets any sequence of operations do with them. Capabilities cannot be forged, so an operation may
    use any minted capability and no other. */
module Authority {
  import opened Wrappers
  import opened Rights
  import opened Capabilities
  import opened Processes
  import opened Transfers

  /** The kernel together with its history: all capabilities it has returned, the rights of the
      capability that opened each epoch of each object, and the rights each object was created with. */
  datatype Ledger = Ledger(kernel: KernelState, minted: set<Capability>,
                           openers: map<(ObjectId, nat), set<Right>>, created: map<ObjectId, set<Right>>)

  const NOTHING: Ledger := Ledger(EMPTY_KERNEL, {}, map[], map[])

  /** A call into the kernel. */
  datatype Act =
    | Create(rights: set<Right>)
    | Revoke(cap: Capability)
    | Reissue(cap: Capability)
    | Attenuate(cap: Capability, rights: set<Right>)
    | Destroy(cap: Capability)

  /** The call only uses a capability somebody has been given. */
  predicate Legal(l: Ledger, a: Act) {
    a.Create? || a.cap in l.minted
  }

  /** What the call leaves; a refused or illegal one leaves everything as it was. */
  function Perform(l: Ledger, a: Act): Ledger {
    if !Legal(l, a) then l
    else match a
      case Create(rights) =>
        var (k, cap) := l.kernel.NewObject(rights);
        Ledger(k, l.minted + {cap}, l.openers[(cap.obj, 0) := rights], l.created[cap.obj := rights])
      case Revoke(cap) =>
        (match l.kernel.Revoke(cap) case Ok(k) => l.(kernel := k) case Err(_) => l)
      case Reissue(cap) =>
        (match l.kernel.Reissue(cap)
         case Ok(issued) =>
           Ledger(issued.0, l.minted + {issued.1}, l.openers[(cap.obj, issued.1.epoch) := cap.rights], l.created)
         case Err(_) => l)
      case Attenuate(cap, rights) =>
        (match l.kernel.Derive(cap, rights) case Ok(c) => l.(minted := l.minted + {c}) case Err(_) => l)
      case Destroy(cap) =>
        (match l.kernel.Destroy(cap) case Ok(k) => l.(kernel := k) case Err(_) => l)
  }

  function PerformAll(l: Ledger, acts: seq<Act>): Ledger
    decreases |acts|
  {
    if acts == [] then l else PerformAll(Perform(l, acts[0]), acts[1..])
  }

  // ---- the invariant ----

  /** The capability names an object that has existed, on an epoch that has been reached. */
  ghost predicate Reached(k: KernelState, obj: ObjectId, epoch: nat) {
    obj < k.nextId && (obj in k.epochs ==> epoch <= k.epochs[obj])
  }

  /** Global attenuation: a capability never has more rights than the one that opened its epoch, and
      that one never more than the object was created with. */
  ghost predicate Attenuated(l: Ledger, c: Capability) {
    && (c.obj, c.epoch) in l.openers && c.rights <= l.openers[(c.obj, c.epoch)]
    && c.obj in l.created && c.rights <= l.created[c.obj]
  }

  ghost predicate Sound(l: Ledger) {
    && l.kernel.Ordered()
    && (forall c :: c in l.minted ==> Reached(l.kernel, c.obj, c.epoch) && Attenuated(l, c))
    && (forall o, e :: (o, e) in l.openers ==> Reached(l.kernel, o, e) && o in l.created && l.openers[(o, e)] <= l.created[o])
  }

  lemma PerformKeepsSound(l: Ledger, a: Act)
    requires Sound(l)
    ensures Sound(Perform(l, a)) && l.minted <= Perform(l, a).minted && l.kernel.nextId <= Perform(l, a).kernel.nextId
  {
    var l' := Perform(l, a);
    forall c | c in l'.minted ensures Reached(l'.kernel, c.obj, c.epoch) && Attenuated(l', c) {
      if c in l.minted {
        assert Reached(l.kernel, c.obj, c.epoch) && Attenuated(l, c);
      } else if !a.Create? {
        assert Attenuated(l, a.cap);
      }
    }
    forall o, e | (o, e) in l'.openers
      ensures Reached(l'.kernel, o, e) && o in l'.created && l'.openers[(o, e)] <= l'.created[o]
    {
      if (o, e) in l.openers {
        assert Reached(l.kernel, o, e);
      }
      if a.Reissue? && a.cap in l.minted {
        assert Attenuated(l, a.cap);
      }
    }
  }

  /** Every reachable ledger is sound. */
  lemma {:induction false} RunsAreSound(l: Ledger, acts: seq<Act>)
    requires Sound(l)
    ensures Sound(PerformAll(l, acts)) && l.minted <= PerformAll(l, acts).minted
    decreases |acts|
  {
    if acts != [] {
      PerformKeepsSound(l, acts[0]);
      RunsAreSound(Perform(l, acts[0]), acts[1..]);
    }
  }

  // ---- death is permanent ----

  /** The capability's object is gone, or on a later epoch. */
  ghost predicate Dead(k: KernelState, c: Capability) {
    c.obj < k.nextId && (c.obj in k.epochs ==> c.epoch < k.epochs[c.obj])
  }

  /** A minted capability that fails as revoked or unknown is dead, and no other is. */
  lemma FailedMeansDead(l: Ledger, c: Capability)
    requires Sound(l) && c in l.minted
    ensures Dead(l.kernel, c) <==> !l.kernel.Live(c)
    ensures Dead(l.kernel, c) <==> l.kernel.Check(c, NONE).Err?
  {
    assert Reached(l.kernel, c.obj, c.epoch);
  }

  lemma DeadStaysDead(l: Ledger, a: Act, c: Capability)
    requires Sound(l) && Dead(l.kernel, c)
    ensures Dead(Perform(l, a).kernel, c)
  {
  }

  /** A capability that has once failed as revoked or unknown fails in every later state of every run. */
  lemma {:induction false} DeadForever(l: Ledger, acts: seq<Act>, c: Capability)
    requires Sound(l) && c in l.minted && !l.kernel.Live(c)
    ensures !PerformAll(l, acts).kernel.Live(c)
    decreases |acts|
  {
    if acts != [] {
      PerformKeepsSound(l, acts[0]);
      FailedMeansDead(l, c);
      DeadStaysDead(l, acts[0], c);
      FailedMeansDead(Perform(l, acts[0]), c);
      DeadForever(Perform(l, acts[0]), acts[1..], c);
    }
  }

  // ---- exclusive ownership ----

  /** Of all capabilities ever minted, `c` is the only one for its object that passes a check. */
  ghost predicate Sole(l: Ledger, c: Capability) {
    && c in l.minted && l.kernel.Live(c)
    && forall d :: d in l.minted && d.obj == c.obj && l.kernel.Live(d) ==> d == c
  }

  lemma ReissueIsSole(l: Ledger, cap: Capability)
    requires Sound(l) && cap in l.minted && l.kernel.Permits(cap, {DESTROY})
    ensures Sole(Perform(l, Reissue(cap)), cap.(epoch := cap.epoch + 1))
  {
    forall d | d in l.minted && d.obj == cap.obj ensures d.epoch <= cap.epoch {
      assert Reached(l.kernel, d.obj, d.epoch);
    }
  }

  /** A call that does not name the object leaves the one owner the only one. */
  lemma SoleKept(l: Ledger, a: Act, c: Capability)
    requires Sound(l) && Sole(l, c) && (a.Create? || a.cap.obj != c.obj)
    ensures Sole(Perform(l, a), c)
  {
    forall d | d in Perform(l, a).minted && d.obj == c.obj && Perform(l, a).kernel.Live(d) ensures d == c {
      assert c.obj < l.kernel.nextId;
      assert d in l.minted && l.kernel.Live(d);
    }
  }

  /** The calls create objects or name others. */
  ghost predicate Spare(acts: seq<Act>, o: ObjectId) {
    forall a :: a in acts ==> a.Create? || a.cap.obj != o
  }

  lemma {:induction false} SoleKeptByAll(l: Ledger, acts: seq<Act>, c: Capability)
    requires Sound(l) && Sole(l, c) && Spare(acts, c.obj)
    ensures Sole(PerformAll(l, acts), c)
    decreases |acts|
  {
    if acts != [] {
      assert acts[0] in acts;
      PerformKeepsSound(l, acts[0]);
      SoleKept(l, acts[0], c);
      SoleKeptByAll(Perform(l, acts[0]), acts[1..], c);
    }
  }

  // ---- a bare revoke is the end of an object ----

  /** No capability for the object passes a check. */
  ghost predicate Barren(l: Ledger, o: ObjectId) {
    o < l.kernel.nextId && forall c :: c in l.minted && c.obj == o ==> !l.kernel.Live(c)
  }

  lemma RevokeLeavesBarren(l: Ledger, cap: Capability)
    requires Sound(l) && cap in l.minted && l.kernel.Permits(cap, {DESTROY})
    ensures Barren(Perform(l, Revoke(cap)), cap.obj)
  {
    forall c | c in l.minted && c.obj == cap.obj ensures c.epoch <= cap.epoch {
      assert Reached(l.kernel, c.obj, c.epoch);
    }
    assert Reached(l.kernel, cap.obj, cap.epoch);
  }

  lemma BarrenStays(l: Ledger, a: Act, o: ObjectId)
    requires Sound(l) && Barren(l, o)
    ensures Barren(Perform(l, a), o)
  {
    var l' := Perform(l, a);
    forall c | c in l'.minted && c.obj == o ensures !l'.kernel.Live(c) {
      if c in l.minted {
        FailedMeansDead(l, c);
        DeadStaysDead(l, a, c);
      }
    }
  }

  /** After a bare revoke no live capability for the object can ever exist again. */
  lemma {:induction false} BarrenForever(l: Ledger, acts: seq<Act>, o: ObjectId)
    requires Sound(l) && Barren(l, o)
    ensures Barren(PerformAll(l, acts), o)
    decreases |acts|
  {
    if acts != [] {
      PerformKeepsSound(l, acts[0]);
      BarrenStays(l, acts[0], o);
      BarrenForever(Perform(l, acts[0]), acts[1..], o);
    }
  }

  // ---- a grant batch is a run of kernel calls ----

  function ActOf(t: Table, g: Grant): seq<Act>
    requires g.h in t
  {
    match g
    case Transfer(_) => []
    case Derive(h, rights) => [Attenuate(t[h], rights)]
    case Move(h) => [Reissue(t[h])]
  }

  function BatchActs(t: Table, grants: seq<Grant>, n: nat): seq<Act>
    requires n <= |grants| && forall i :: 0 <= i < |grants| ==> grants[i].h in t
  {
    if n == 0 then [] else BatchActs(t, grants, n - 1) + ActOf(t, grants[n - 1])
  }

  lemma {:induction false} PerformAppend(l: Ledger, a: seq<Act>, b: seq<Act>)
    ensures PerformAll(l, a + b) == PerformAll(PerformAll(l, a), b)
    decreases |a|
  {
    if a == [] {
      assert a + b == b;
    } else {
      assert (a + b)[1..] == a[1..] + b;
      PerformAppend(Perform(l, a[0]), a[1..], b);
    }
  }

  lemma PerformOne(l: Ledger, a: Act)
    ensures PerformAll(l, [a]) == Perform(l, a)
  {
    assert [a][1..] == [];
  }

  /** The history after the first `n` grants: the kernel is the batch's, and what was minted is what
      derives and moves deliver. */
  ghost predicate Granted(l: Ledger, t: Table, grants: seq<Grant>, n: nat, l': Ledger)
    requires n <= |grants| && forall i :: 0 <= i < |grants| ==> grants[i].h in t
  {
    && l'.kernel == BumpAll(l.kernel, MovedObjects(t, grants, n)) && l.minted <= l'.minted
    && (forall i :: 0 <= i < n ==> Delivers(t, grants[i]) in l'.minted)
    && (forall c :: c in l'.minted && c !in l.minted ==> exists i :: 0 <= i < n && c == Delivers(t, grants[i]))
  }

  lemma {:induction false} GrantedNext(l: Ledger, t: Table, grants: seq<Grant>, n: nat, l': Ledger)
    requires Sound(l) && Admissible(l.kernel, t, grants) && (forall h :: h in t ==> t[h] in l.minted)
    requires n < |grants| && Granted(l, t, grants, n, l')
    ensures Granted(l, t, grants, n + 1, PerformAll(l', ActOf(t, grants[n])))
  {
    var g := grants[n];
    var held := t[g.h];
    var acts := ActOf(t, g);
    assert Authorised(l.kernel, t, g);
    if g.Move? {
      assert MovedObjects(t, grants, n + 1) == MovedObjects(t, grants, n) + {held.obj};
      assert held.obj !in MovedObjects(t, grants, n);
      var k := BumpAll(l.kernel, MovedObjects(t, grants, n));
      assert BumpAll(l.kernel, MovedObjects(t, grants, n + 1)).epochs == k.epochs[held.obj := k.epochs[held.obj] + 1];
    } else {
      assert MovedObjects(t, grants, n + 1) == MovedObjects(t, grants, n);
      if g.Derive? {
        assert held.obj !in MovedObjects(t, grants, n);
      }
    }
    var after := PerformAll(l', acts);
    if acts != [] {
      PerformOne(l', acts[0]);
    }
    forall c | c in after.minted && c !in l.minted ensures exists i :: 0 <= i < n + 1 && c == Delivers(t, grants[i]) {
      if c in l'.minted {
        var i :| 0 <= i < n && c == Delivers(t, grants[i]);
      } else {
        assert c == Delivers(t, grants[n]);
      }
    }
  }

  /** A batch is nothing but derivations and reissues of capabilities its source holds. */
  lemma {:induction false} BatchIsActs(l: Ledger, t: Table, grants: seq<Grant>, n: nat)
    requires Sound(l) && Admissible(l.kernel, t, grants) && (forall h :: h in t ==> t[h] in l.minted) && n <= |grants|
    ensures Granted(l, t, grants, n, PerformAll(l, BatchActs(t, grants, n)))
  {
    if n == 0 {
      assert MovedObjects(t, grants, 0) == {};
      assert BumpAll(l.kernel, {}).epochs == l.kernel.epochs;
    } else {
      BatchIsActs(l, t, grants, n - 1);
      PerformAppend(l, BatchActs(t, grants, n - 1), ActOf(t, grants[n - 1]));
      GrantedNext(l, t, grants, n - 1, PerformAll(l, BatchActs(t, grants, n - 1)));
    }
  }

  /** When a move completes, what it delivers is the only member of all capabilities ever minted (kept
      copies, derived views, ones still queued) that passes a check for the object. */
  lemma {:induction false} MoveLeavesSole(l: Ledger, t: Table, grants: seq<Grant>, i: nat)
    requires Sound(l) && Admissible(l.kernel, t, grants) && (forall h :: h in t ==> t[h] in l.minted)
    requires i < |grants| && grants[i].Move?
    ensures Sole(PerformAll(l, BatchActs(t, grants, |grants|)), Delivers(t, grants[i]))
  {
    var n, cap := |grants|, Delivers(t, grants[i]);
    BatchIsActs(l, t, grants, n);
    BatchDelivers(l.kernel, t, grants, i);
    var l' := PerformAll(l, BatchActs(t, grants, n));
    forall d | d in l.minted && d.obj == cap.obj ensures !l'.kernel.Live(d) {
      assert Reached(l.kernel, d.obj, d.epoch);
      MoveIsExclusive(l.kernel, t, grants, i, d);
    }
    forall d | d in l'.minted && d !in l.minted && d.obj == cap.obj ensures d == cap {
      var j :| 0 <= j < n && d == Delivers(t, grants[j]);
      assert t[grants[j].h].obj == t[grants[i].h].obj;
      assert j == i;
    }
  }
}
