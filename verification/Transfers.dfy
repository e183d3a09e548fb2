/** Grant batches: the one way capabilities leave a table. A batch is first resolved, which
    changes nothing, and then applied, which never validates again. */
module Transfers {
  import opened Wrappers
  import opened Rights
  import opened Capabilities
  import opened Processes

  datatype Grant =
    | Transfer(h: Handle)
    | Derive(h: Handle, rights: set<Right>)
    | Move(h: Handle)

  datatype GrantError =
    | UnknownHandle
    | DuplicateTransfer(h: Handle)
    | MoveConflict(obj: ObjectId)
    | BadCapability(error: CapError)

  /** The grant takes its handle out of the source's table. */
  predicate Leaves(g: Grant) {
    !g.Derive?
  }

  // ---- the two phases, step by step ----

  function ResolveOne(k: KernelState, t: Table, g: Grant): Result<Capability, GrantError> {
    if g.h !in t then Err(UnknownHandle)
    else match g
      case Transfer(h) => Ok(t[h])
      case Derive(h, rights) => k.Derive(t[h], rights).MapErr(e => BadCapability(e))
      case Move(h) =>
        var _ :- k.Check(t[h], {DESTROY}).MapErr(e => BadCapability(e));
        Ok(t[h])
  }

  /** An earlier grant already takes grant `n`'s handle. */
  predicate Retaken(grants: seq<Grant>, n: nat)
    requires n < |grants|
  {
    Leaves(grants[n]) && exists j | 0 <= j < n :: Leaves(grants[j]) && grants[j].h == grants[n].h
  }

  /** The outcome of validating the first `n` grants. */
  function ResolveUpTo(k: KernelState, t: Table, grants: seq<Grant>, n: nat): Result<seq<Capability>, GrantError>
    requires n <= |grants|
  {
    if n == 0 then Ok([])
    else
      var caps :- ResolveUpTo(k, t, grants, n - 1);
      if Retaken(grants, n - 1) then Err(DuplicateTransfer(grants[n - 1].h))
      else
        var cap :- ResolveOne(k, t, grants[n - 1]);
        Ok(caps + [cap])
  }

  /** Grant `i` moves an object that another grant of the batch also names. */
  predicate Conflicts(grants: seq<Grant>, caps: seq<Capability>, i: nat)
    requires |caps| == |grants| && i < |grants|
  {
    grants[i].Move? && exists j | 0 <= j < |caps| :: j != i && caps[j].obj == caps[i].obj
  }

  /** The object of the first conflicting move at or after `i`, if there is one. */
  function FirstConflict(grants: seq<Grant>, caps: seq<Capability>, i: nat): Option<ObjectId>
    requires |caps| == |grants| && i <= |grants|
    decreases |grants| - i
  {
    if i == |grants| then None
    else if Conflicts(grants, caps, i) then Some(caps[i].obj)
    else FirstConflict(grants, caps, i + 1)
  }

  lemma ResolveUpToLength(k: KernelState, t: Table, grants: seq<Grant>, n: nat)
    requires n <= |grants|
    ensures ResolveUpTo(k, t, grants, n).Ok? ==> |ResolveUpTo(k, t, grants, n).value| == n
  {
  }

  function Resolve(k: KernelState, t: Table, grants: seq<Grant>): (r: Result<seq<Capability>, GrantError>)
    ensures r.Ok? ==> |r.value| == |grants|
  {
    ResolveUpToLength(k, t, grants, |grants|);
    var caps :- ResolveUpTo(k, t, grants, |grants|);
    match FirstConflict(grants, caps, 0)
    case Some(o) => Err(MoveConflict(o))
    case None => Ok(caps)
  }

  datatype Applied = Applied(kernel: KernelState, table: Table, delivered: seq<Capability>)

  /** The effect of the first `n` grants; `None` is the panic of a reissue that is refused. */
  function ApplyUpTo(k: KernelState, t: Table, grants: seq<Grant>, caps: seq<Capability>, n: nat): Option<Applied>
    requires |caps| == |grants| && n <= |grants|
  {
    if n == 0 then Some(Applied(k, t, []))
    else match ApplyUpTo(k, t, grants, caps, n - 1)
      case None => None
      case Some(a) =>
        match grants[n - 1]
        case Transfer(h) => Some(Applied(a.kernel, a.table - {h}, a.delivered + [caps[n - 1]]))
        case Derive(h, _) => Some(Applied(a.kernel, a.table, a.delivered + [caps[n - 1]]))
        case Move(h) =>
          match a.kernel.Reissue(caps[n - 1])
          case Err(_) => None
          case Ok(issued) => Some(Applied(issued.0, a.table - {h}, a.delivered + [issued.1]))
  }

  // ---- what a batch means ----

  /** The source may make this one grant. */
  ghost predicate Authorised(k: KernelState, t: Table, g: Grant) {
    g.h in t &&
    match g
    case Transfer(h) => true
    case Derive(h, rights) => k.Permits(t[h], {GRANT}) && rights <= t[h].rights
    case Move(h) => k.Permits(t[h], {DESTROY})
  }

  /** No two grants take the same handle. */
  ghost predicate LeavesOnce(grants: seq<Grant>, n: nat)
    requires n <= |grants|
  {
    forall i, j :: 0 <= i < j < n && Leaves(grants[i]) && Leaves(grants[j]) ==> grants[i].h != grants[j].h
  }

  /** No moved object is named by any other grant. */
  ghost predicate MovesAlone(t: Table, grants: seq<Grant>)
    requires forall i :: 0 <= i < |grants| ==> grants[i].h in t
  {
    forall i, j :: 0 <= i < |grants| && 0 <= j < |grants| && i != j && grants[i].Move? ==>
      t[grants[j].h].obj != t[grants[i].h].obj
  }

  /** The whole condition a batch must meet. */
  ghost predicate Admissible(k: KernelState, t: Table, grants: seq<Grant>) {
    && (forall i :: 0 <= i < |grants| ==> Authorised(k, t, grants[i]))
    && LeavesOnce(grants, |grants|)
    && MovesAlone(t, grants)
  }

  /** The capability a grant names, before anything is reissued. */
  function Named(t: Table, g: Grant): Capability
    requires g.h in t
  {
    if g.Derive? then t[g.h].(rights := g.rights) else t[g.h]
  }

  /** The capability a grant delivers. */
  function Delivers(t: Table, g: Grant): Capability
    requires g.h in t
  {
    if g.Move? then t[g.h].(epoch := t[g.h].epoch + 1) else Named(t, g)
  }

  function MovedObjects(t: Table, grants: seq<Grant>, n: nat): set<ObjectId>
    requires n <= |grants| && forall i :: 0 <= i < |grants| ==> grants[i].h in t
  {
    set i | 0 <= i < n && grants[i].Move? :: t[grants[i].h].obj
  }

  function TakenHandles(grants: seq<Grant>, n: nat): set<Handle>
    requires n <= |grants|
  {
    set i | 0 <= i < n && Leaves(grants[i]) :: grants[i].h
  }

  /** Every object of `moved` one epoch later. */
  function BumpAll(k: KernelState, moved: set<ObjectId>): KernelState {
    k.(epochs := map o | o in k.epochs :: if o in moved then k.epochs[o] + 1 else k.epochs[o])
  }

  /** The effect of the first `n` grants of an admissible batch, all at once. */
  function Effect(k: KernelState, t: Table, grants: seq<Grant>, n: nat): Applied
    requires n <= |grants| && forall i :: 0 <= i < |grants| ==> grants[i].h in t
  {
    Applied(BumpAll(k, MovedObjects(t, grants, n)), t - TakenHandles(grants, n),
            seq(n, i requires 0 <= i < n => Delivers(t, grants[i])))
  }

  // ---- phase one accepts exactly the admissible batches ----

  lemma {:induction false} ResolveUpToOk(k: KernelState, t: Table, grants: seq<Grant>, n: nat)
    requires n <= |grants|
    ensures ResolveUpTo(k, t, grants, n).Ok? <==>
            (forall i :: 0 <= i < n ==> Authorised(k, t, grants[i])) && LeavesOnce(grants, n)
    ensures var r := ResolveUpTo(k, t, grants, n); r.Ok? ==>
            |r.value| == n && forall i :: 0 <= i < n ==> grants[i].h in t && r.value[i] == Named(t, grants[i])
  {
    if n > 0 {
      ResolveUpToOk(k, t, grants, n - 1);
      assert ResolveOne(k, t, grants[n - 1]).Ok? <==> Authorised(k, t, grants[n - 1]);
      assert LeavesOnce(grants, n) <==> LeavesOnce(grants, n - 1) && !Retaken(grants, n - 1);
    }
  }

  lemma {:induction false} FirstConflictNone(grants: seq<Grant>, caps: seq<Capability>, i: nat)
    requires |caps| == |grants| && i <= |grants|
    ensures FirstConflict(grants, caps, i).None? <==> forall j :: i <= j < |grants| ==> !Conflicts(grants, caps, j)
    decreases |grants| - i
  {
    if i < |grants| {
      FirstConflictNone(grants, caps, i + 1);
    }
  }

  /** A batch resolves exactly when it is admissible, and then to the capabilities it names. */
  lemma ResolveIffAdmissible(k: KernelState, t: Table, grants: seq<Grant>)
    ensures Resolve(k, t, grants).Ok? <==> Admissible(k, t, grants)
    ensures Admissible(k, t, grants) ==>
            forall i :: 0 <= i < |grants| ==> Resolve(k, t, grants).value[i] == Named(t, grants[i])
  {
    ResolveUpToOk(k, t, grants, |grants|);
    var r := ResolveUpTo(k, t, grants, |grants|);
    if r.Ok? {
      var caps := r.value;
      FirstConflictNone(grants, caps, 0);
      if MovesAlone(t, grants) {
        forall j | 0 <= j < |grants| ensures !Conflicts(grants, caps, j) {
        }
      } else {
        var i, j :| 0 <= i < |grants| && 0 <= j < |grants| && i != j && grants[i].Move? &&
                    t[grants[j].h].obj == t[grants[i].h].obj;
        assert caps[j].obj == caps[i].obj;
        assert Conflicts(grants, caps, i);
      }
    }
  }

  /** Grant `i` is why the batch is refused, and `e` says so: its handle has left already, or is unknown, or
      what it asks for is not allowed. */
  ghost predicate Blames(k: KernelState, t: Table, grants: seq<Grant>, i: nat, e: GrantError)
    requires i < |grants|
  {
    var g := grants[i];
    if Leaves(g) && exists j :: 0 <= j < i && Leaves(grants[j]) && grants[j].h == g.h then e == DuplicateTransfer(g.h)
    else if g.h !in t then e == UnknownHandle
    else if g.Move? then !k.Permits(t[g.h], {DESTROY}) && e.BadCapability? && Err(e.error) == k.Check(t[g.h], {DESTROY})
    else
      && g.Derive? && e.BadCapability?
      && (if !k.Permits(t[g.h], {GRANT}) then Err(e.error) == k.Check(t[g.h], {GRANT})
          else !(g.rights <= t[g.h].rights) && e.error == CannotAmplify(t[g.h].obj, t[g.h].rights, g.rights))
  }

  lemma {:induction false} ResolveUpToRefused(k: KernelState, t: Table, grants: seq<Grant>, n: nat) returns (i: nat)
    requires n <= |grants| && ResolveUpTo(k, t, grants, n).Err?
    ensures i < n && (forall j :: 0 <= j < i ==> Authorised(k, t, grants[j])) && LeavesOnce(grants, i)
    ensures Blames(k, t, grants, i, ResolveUpTo(k, t, grants, n).error)
  {
    if ResolveUpTo(k, t, grants, n - 1).Err? {
      i := ResolveUpToRefused(k, t, grants, n - 1);
    } else {
      ResolveUpToOk(k, t, grants, n - 1);
      i := n - 1;
    }
  }

  lemma {:induction false} FirstConflictIs(grants: seq<Grant>, caps: seq<Capability>, from: nat) returns (i: nat)
    requires |caps| == |grants| && from <= |grants| && FirstConflict(grants, caps, from).Some?
    ensures from <= i < |grants| && Conflicts(grants, caps, i) && FirstConflict(grants, caps, from) == Some(caps[i].obj)
    ensures forall j :: from <= j < i ==> !Conflicts(grants, caps, j)
    decreases |grants| - from
  {
    if Conflicts(grants, caps, from) {
      i := from;
    } else {
      i := FirstConflictIs(grants, caps, from + 1);
    }
  }

  /** Grant `i` moves an object another grant names. */
  ghost predicate MovesShared(t: Table, grants: seq<Grant>, i: nat)
    requires i < |grants| && forall j :: 0 <= j < |grants| ==> grants[j].h in t
  {
    grants[i].Move? && exists j :: 0 <= j < |grants| && j != i && t[grants[j].h].obj == t[grants[i].h].obj
  }

  /** Why a batch is refused: its first grant that cannot be made on its own; and if there is none, its first
      move of an object that another grant names. */
  lemma ResolveRefused(k: KernelState, t: Table, grants: seq<Grant>) returns (i: nat)
    requires Resolve(k, t, grants).Err?
    ensures i < |grants|
    ensures (forall j :: 0 <= j < i ==> Authorised(k, t, grants[j])) && LeavesOnce(grants, i)
    ensures var e := Resolve(k, t, grants).error;
            if (forall j :: 0 <= j < |grants| ==> Authorised(k, t, grants[j])) && LeavesOnce(grants, |grants|) then
              e == MoveConflict(t[grants[i].h].obj) && MovesShared(t, grants, i) && forall j :: 0 <= j < i ==> !MovesShared(t, grants, j)
            else Blames(k, t, grants, i, e)
  {
    ResolveUpToOk(k, t, grants, |grants|);
    var r := ResolveUpTo(k, t, grants, |grants|);
    if r.Err? {
      i := ResolveUpToRefused(k, t, grants, |grants|);
    } else {
      i := FirstConflictIs(grants, r.value, 0);
      forall j | 0 <= j < |grants| ensures Conflicts(grants, r.value, j) <==> MovesShared(t, grants, j) {
      }
    }
  }

  // ---- phase two never panics and has the stated effect ----

  /** What one more grant adds to the effect of a batch: its delivery, a handle that leaves, a reissue. */
  ghost predicate AddsGrant(t: Table, g: Grant, a: Applied, b: Applied)
    requires g.h in t
  {
    && b.delivered == a.delivered + [Delivers(t, g)]
    && b.table == (if Leaves(g) then a.table - {g.h} else a.table)
    && (if g.Move? then
          && t[g.h].obj in a.kernel.epochs && a.kernel.epochs[t[g.h].obj] == t[g.h].epoch
          && b.kernel == a.kernel.(epochs := a.kernel.epochs[t[g.h].obj := t[g.h].epoch + 1])
        else b.kernel == a.kernel)
  }

  lemma EffectNext(k: KernelState, t: Table, grants: seq<Grant>, n: nat)
    requires Admissible(k, t, grants) && n < |grants|
    ensures AddsGrant(t, grants[n], Effect(k, t, grants, n), Effect(k, t, grants, n + 1))
  {
    var a, b, g := Effect(k, t, grants, n), Effect(k, t, grants, n + 1), grants[n];
    assert b.delivered == a.delivered + [Delivers(t, g)];
    if Leaves(g) {
      assert TakenHandles(grants, n + 1) == TakenHandles(grants, n) + {g.h};
    } else {
      assert TakenHandles(grants, n + 1) == TakenHandles(grants, n);
    }
    if g.Move? {
      var o := t[g.h].obj;
      assert Authorised(k, t, g);
      assert o !in MovedObjects(t, grants, n);
      assert MovedObjects(t, grants, n + 1) == MovedObjects(t, grants, n) + {o};
      assert b.kernel.epochs == a.kernel.epochs[o := a.kernel.epochs[o] + 1];
    } else {
      assert MovedObjects(t, grants, n + 1) == MovedObjects(t, grants, n);
    }
  }

  lemma {:induction false} ApplyUpToEffect(k: KernelState, t: Table, grants: seq<Grant>, caps: seq<Capability>, n: nat)
    requires Admissible(k, t, grants) && |caps| == |grants| && n <= |grants|
    requires forall i :: 0 <= i < |grants| ==> caps[i] == Named(t, grants[i])
    ensures ApplyUpTo(k, t, grants, caps, n) == Some(Effect(k, t, grants, n))
  {
    if n == 0 {
      EffectOfNone(k, t, grants);
    } else {
      ApplyUpToEffect(k, t, grants, caps, n - 1);
      EffectNext(k, t, grants, n - 1);
      assert Authorised(k, t, grants[n - 1]);
    }
  }

  lemma EffectOfNone(k: KernelState, t: Table, grants: seq<Grant>)
    requires Admissible(k, t, grants)
    ensures Effect(k, t, grants, 0) == Applied(k, t, [])
  {
    assert MovedObjects(t, grants, 0) == {} && TakenHandles(grants, 0) == {};
    assert BumpAll(k, {}).epochs == k.epochs;
    assert t - {} == t;
  }

  lemma ApplyUpToOk(k: KernelState, t: Table, grants: seq<Grant>, caps: seq<Capability>, n: nat)
    requires Admissible(k, t, grants) && |caps| == |grants| && n <= |grants|
    requires forall i :: 0 <= i < |grants| ==> caps[i] == Named(t, grants[i])
    ensures ApplyUpTo(k, t, grants, caps, n).Some?
  {
    ApplyUpToEffect(k, t, grants, caps, n);
  }

  /** Both phases of a batch. */
  function RunBatch(k: KernelState, t: Table, grants: seq<Grant>): Result<Applied, GrantError> {
    var caps :- Resolve(k, t, grants);
    ResolveIffAdmissible(k, t, grants);
    ApplyUpToEffect(k, t, grants, caps, |grants|);
    Ok(ApplyUpTo(k, t, grants, caps, |grants|).value)
  }

  /** A batch runs exactly when it is admissible, without panicking, and has its stated effect. */
  lemma BatchEffect(k: KernelState, t: Table, grants: seq<Grant>)
    ensures RunBatch(k, t, grants).Ok? <==> Admissible(k, t, grants)
    ensures Admissible(k, t, grants) ==> RunBatch(k, t, grants) == Ok(Effect(k, t, grants, |grants|))
  {
    ResolveIffAdmissible(k, t, grants);
    if Admissible(k, t, grants) {
      ApplyUpToEffect(k, t, grants, Resolve(k, t, grants).value, |grants|);
    }
  }

  /** What arrives: moves and derives are live with their rights, and a transferred capability
      is exactly as live as it was. */
  lemma BatchDelivers(k: KernelState, t: Table, grants: seq<Grant>, i: nat)
    requires Admissible(k, t, grants) && i < |grants|
    ensures var a := Effect(k, t, grants, |grants|); var cap := a.delivered[i]; var held := t[grants[i].h];
            && cap.obj == held.obj
            && (grants[i].Move? ==> a.kernel.Permits(cap, held.rights) && cap.rights == held.rights && !a.kernel.Live(held))
            && (grants[i].Derive? ==> a.kernel.Permits(cap, grants[i].rights) && cap.rights == grants[i].rights)
            && (grants[i].Transfer? ==> cap == held && (a.kernel.Live(cap) <==> k.Live(held)))
            && (Leaves(grants[i]) ==> grants[i].h !in a.table)
  {
    var o := t[grants[i].h].obj;
    assert o in MovedObjects(t, grants, |grants|) <==> grants[i].Move?;
    if Leaves(grants[i]) {
      assert grants[i].h in TakenHandles(grants, |grants|);
    }
  }

  /** After a move, no capability minted up to then is live for the object: only the delivered one is. */
  lemma MoveIsExclusive(k: KernelState, t: Table, grants: seq<Grant>, i: nat, other: Capability)
    requires Admissible(k, t, grants) && i < |grants| && grants[i].Move?
    requires other.obj == t[grants[i].h].obj && other.epoch <= k.epochs[other.obj]
    ensures !Effect(k, t, grants, |grants|).kernel.Live(other)
    ensures Effect(k, t, grants, |grants|).kernel.Live(Effect(k, t, grants, |grants|).delivered[i])
  {
    BatchDelivers(k, t, grants, i);
  }

  // ---- the order of a batch does not matter ----

  /** `pi` lists every index below `n` once. */
  ghost predicate Permutation(pi: seq<nat>, n: nat) {
    && |pi| == n
    && (forall i :: 0 <= i < n ==> pi[i] < n)
    && (forall i, j :: 0 <= i < j < n ==> pi[i] != pi[j])
    && (forall k :: 0 <= k < n ==> k in pi)
  }

  function Permuted(grants: seq<Grant>, pi: seq<nat>): seq<Grant>
    requires forall i :: 0 <= i < |pi| ==> pi[i] < |grants|
  {
    seq(|pi|, i requires 0 <= i < |pi| => grants[pi[i]])
  }

  lemma PermutedSets(t: Table, grants: seq<Grant>, pi: seq<nat>)
    requires Permutation(pi, |grants|) && forall i :: 0 <= i < |grants| ==> grants[i].h in t
    ensures MovedObjects(t, Permuted(grants, pi), |grants|) == MovedObjects(t, grants, |grants|)
    ensures TakenHandles(Permuted(grants, pi), |grants|) == TakenHandles(grants, |grants|)
  {
    var permuted := Permuted(grants, pi);
    forall i | 0 <= i < |grants| ensures exists j :: 0 <= j < |grants| && permuted[j] == grants[i] {
      assert i in pi;
      var j :| 0 <= j < |pi| && pi[j] == i;
      assert permuted[j] == grants[i];
    }
  }

  lemma PermutedAdmissible(k: KernelState, t: Table, grants: seq<Grant>, pi: seq<nat>)
    requires Permutation(pi, |grants|) && Admissible(k, t, grants)
    ensures Admissible(k, t, Permuted(grants, pi))
  {
    var permuted := Permuted(grants, pi);
    forall i, j | 0 <= i < j < |grants| && Leaves(permuted[i]) && Leaves(permuted[j])
      ensures permuted[i].h != permuted[j].h
    {
      assert pi[i] != pi[j];
    }
    forall i, j | 0 <= i < |grants| && 0 <= j < |grants| && i != j && permuted[i].Move?
      ensures t[permuted[j].h].obj != t[permuted[i].h].obj
    {
      assert pi[i] != pi[j];
    }
  }

  /** Permuting a batch permutes what it delivers and leaves the same kernel and the same table. */
  lemma BatchOrderIrrelevant(k: KernelState, t: Table, grants: seq<Grant>, pi: seq<nat>)
    requires Permutation(pi, |grants|) && RunBatch(k, t, grants).Ok?
    ensures var a, b := RunBatch(k, t, grants), RunBatch(k, t, Permuted(grants, pi));
            && b.Ok? && b.value.kernel == a.value.kernel && b.value.table == a.value.table
            && |b.value.delivered| == |a.value.delivered| == |pi|
            && forall i :: 0 <= i < |pi| ==> b.value.delivered[i] == a.value.delivered[pi[i]]
  {
    BatchEffect(k, t, grants);
    PermutedAdmissible(k, t, grants, pi);
    PermutedSets(t, grants, pi);
    BatchEffect(k, t, Permuted(grants, pi));
  }

  // ---- the two loops ----

  lemma {:induction false} ErrorSticks(k: KernelState, t: Table, grants: seq<Grant>, n: nat, m: nat)
    requires n <= m <= |grants| && ResolveUpTo(k, t, grants, n).Err?
    ensures ResolveUpTo(k, t, grants, m) == ResolveUpTo(k, t, grants, n)
    decreases m
  {
    if n < m {
      ErrorSticks(k, t, grants, n, m - 1);
    }
  }

  /** Validates a batch against a process's table and changes nothing. */
  method ResolveGrants(kernel: Kernel, source: Process, grants: seq<Grant>)
    returns (r: Result<seq<Capability>, GrantError>)
    ensures r == Resolve(kernel.View(), source.table, grants)
    ensures r.Ok? <==> Admissible(kernel.View(), source.table, grants)
  {
    ghost var k, t := kernel.View(), source.table;
    ResolveIffAdmissible(k, t, grants);
    var resolved: seq<Capability> := [];
    var transferred: set<Handle> := {};
    for n := 0 to |grants|
      invariant ResolveUpTo(k, t, grants, n) == Ok(resolved)
      invariant transferred == TakenHandles(grants, n)
    {
      var g := grants[n];
      assert Retaken(grants, n) <==> Leaves(g) && g.h in TakenHandles(grants, n);
      if Leaves(g) {
        if g.h in transferred {
          ErrorSticks(k, t, grants, n + 1, |grants|);
          return Err(DuplicateTransfer(g.h));
        }
        transferred := transferred + {g.h};
      }
      var held := source.Lookup(g.h);
      if held.None? {
        ErrorSticks(k, t, grants, n + 1, |grants|);
        return Err(UnknownHandle);
      }
      var cap := held.value;
      match g {
        case Transfer(_) =>
        case Derive(_, rights) =>
          var derived := kernel.Derive(cap, rights);
          if derived.Err? {
            ErrorSticks(k, t, grants, n + 1, |grants|);
            return Err(BadCapability(derived.error));
          }
          cap := derived.value;
        case Move(_) =>
          var checked := kernel.Check(cap, {DESTROY});
          if checked.Err? {
            ErrorSticks(k, t, grants, n + 1, |grants|);
            return Err(BadCapability(checked.error));
          }
      }
      resolved := resolved + [cap];
    }
    ResolveUpToLength(k, t, grants, |grants|);
    var i := 0;
    while i < |grants|
      invariant 0 <= i <= |grants| == |resolved|
      invariant FirstConflict(grants, resolved, 0) == FirstConflict(grants, resolved, i)
    {
      if Conflicts(grants, resolved, i) {
        return Err(MoveConflict(resolved[i].obj));
      }
      i := i + 1;
    }
    r := Ok(resolved);
  }

  /** Applies a batch that has just been resolved; its reissues cannot be refused. */
  method ApplyGrants(kernel: Kernel, source: Process, grants: seq<Grant>, caps: seq<Capability>)
    returns (delivered: seq<Capability>)
    requires Resolve(kernel.View(), source.table, grants) == Ok(caps)
    modifies kernel`epochs, source`table
    ensures Admissible(old(kernel.View()), old(source.table), grants)
    ensures var a := Effect(old(kernel.View()), old(source.table), grants, |grants|);
            kernel.View() == a.kernel && source.table == a.table && delivered == a.delivered
  {
    ghost var k, t := kernel.View(), source.table;
    ResolveIffAdmissible(k, t, grants);
    delivered := caps;
    for n := 0 to |grants|
      invariant |delivered| == |grants| && delivered[n..] == caps[n..]
      invariant ApplyUpTo(k, t, grants, caps, n) == Some(Applied(kernel.View(), source.table, delivered[..n]))
    {
      ApplyUpToOk(k, t, grants, caps, n + 1);
      match grants[n] {
        case Transfer(h) =>
          var _ := source.Take(h);
        case Derive(_, _) =>
        case Move(h) =>
          var _ := source.Take(h);
          var issued := kernel.Reissue(delivered[n]);
          delivered := delivered[n := issued.value];
      }
      assert delivered[..n + 1] == delivered[..n] + [delivered[n]];
    }
    ApplyUpToEffect(k, t, grants, caps, |grants|);
    assert delivered[..|grants|] == delivered;
  }
}
