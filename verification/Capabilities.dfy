/** The capability table: objects, the epoch each is on, and the checks every use of a
    capability goes through. Object ids and epochs are unbounded naturals. */
module Capabilities {
  import opened Wrappers
  import opened Rights

  type ObjectId = nat

  datatype Capability = Capability(obj: ObjectId, rights: set<Right>, epoch: nat)

  datatype CapError =
    | UnknownObject(obj: ObjectId)
    | Revoked(obj: ObjectId)
    | InsufficientRights(obj: ObjectId, held: set<Right>, required: set<Right>)
    | CannotAmplify(obj: ObjectId, held: set<Right>, requested: set<Right>)

  datatype KernelState = KernelState(nextId: nat, epochs: map<ObjectId, nat>) {
    /** The capability's object exists and is still on the capability's epoch. */
    predicate Live(cap: Capability) {
      cap.obj in epochs && epochs[cap.obj] == cap.epoch
    }

    /** Live, with at least the required rights. */
    predicate Permits(cap: Capability, required: set<Right>) {
      Live(cap) && required <= cap.rights
    }

    /** Ids are handed out in order, so every object in the table is below `nextId`. */
    ghost predicate Ordered() {
      forall o :: o in epochs ==> o < nextId
    }

    /** Allocates an object and mints its first capability. */
    function NewObject(rights: set<Right>): (KernelState, Capability) {
      (KernelState(nextId + 1, epochs[nextId := 0]), Capability(nextId, rights, 0))
    }

    /** Existence first, then the epoch, then the rights. */
    function Check(cap: Capability, required: set<Right>): Result<Unit, CapError> {
      if cap.obj !in epochs then Err(UnknownObject(cap.obj))
      else if epochs[cap.obj] != cap.epoch then Err(Revoked(cap.obj))
      else if !Contains(cap.rights, required) then Err(InsufficientRights(cap.obj, cap.rights, required))
      else Ok(Unit.Unit)
    }

    function Revoke(cap: Capability): Result<KernelState, CapError> {
      var _ :- Check(cap, {DESTROY});
      Ok(this.(epochs := epochs[cap.obj := epochs[cap.obj] + 1]))
    }

    function Reissue(cap: Capability): Result<(KernelState, Capability), CapError> {
      var k :- Revoke(cap);
      Ok((k, cap.(epoch := k.epochs[cap.obj])))
    }

    function Derive(cap: Capability, requested: set<Right>): Result<Capability, CapError> {
      var _ :- Check(cap, {GRANT});
      if !Contains(cap.rights, requested) then Err(CannotAmplify(cap.obj, cap.rights, requested))
      else Ok(cap.(rights := requested))
    }

    function Destroy(cap: Capability): Result<KernelState, CapError> {
      var _ :- Check(cap, {DESTROY});
      Ok(this.(epochs := epochs - {cap.obj}))
    }
  }

  /** A check's outcome: success exactly with live authority; otherwise an unknown object before a revoked
      capability, and a revoked one before missing rights. */
  lemma CheckMeans(k: KernelState, cap: Capability, required: set<Right>)
    ensures var r := k.Check(cap, required);
            && (r.Ok? <==> k.Permits(cap, required))
            && (r.Err? && r.error.UnknownObject? <==> cap.obj !in k.epochs)
            && (r.Err? && r.error.Revoked? <==> cap.obj in k.epochs && !k.Live(cap))
            && (r.Err? && r.error.InsufficientRights? <==> k.Live(cap) && !(required <= cap.rights))
            && (r.Err? ==> r.error.obj == cap.obj)
            && (r.Err? && r.error.InsufficientRights? ==> r.error.held == cap.rights && r.error.required == required)
  {
  }

  /** A derivation keeps the object and the epoch and has exactly the rights asked for; it needs the grant
      right, and never amplifies. */
  lemma DeriveMeans(k: KernelState, cap: Capability, requested: set<Right>)
    ensures var r := k.Derive(cap, requested);
            && (r.Ok? <==> k.Permits(cap, {GRANT}) && requested <= cap.rights)
            && (r.Ok? ==> r.value.obj == cap.obj && r.value.epoch == cap.epoch && r.value.rights == requested)
            && (!k.Permits(cap, {GRANT}) ==> r.Err? && Err(r.error) == k.Check(cap, {GRANT}))
            && (r.Err? && k.Permits(cap, {GRANT}) ==>
                  r.error.CannotAmplify? && r.error.obj == cap.obj && r.error.held == cap.rights && r.error.requested == requested)
  {
  }

  const EMPTY_KERNEL: KernelState := KernelState(0, map[])

  /** The kernel object. Each method is one of the operations above on its two fields. */
  class Kernel {
    var nextId: nat
    var epochs: map<ObjectId, nat>

    function View(): KernelState
      reads this
    {
      KernelState(nextId, epochs)
    }

    constructor ()
      ensures View() == EMPTY_KERNEL
    {
      nextId, epochs := 0, map[];
    }

    /** Mints the first capability of an object no capability has ever named. */
    method New(rights: set<Right>) returns (cap: Capability)
      requires View().Ordered()
      modifies this
      ensures (View(), cap) == old(View()).NewObject(rights)
      ensures cap.obj !in old(epochs) && View().Ordered()
      ensures View().Permits(cap, rights)
      ensures forall c: Capability :: old(View()).Live(c) ==> View().Live(c)
    {
      cap := Capability(nextId, rights, 0);
      nextId, epochs := nextId + 1, epochs[nextId := 0];
    }

    method Check(cap: Capability, required: set<Right>) returns (r: Result<Unit, CapError>)
      ensures r == View().Check(cap, required)
      ensures r.Ok? <==> View().Permits(cap, required)
    {
      if cap.obj !in epochs {
        return Err(UnknownObject(cap.obj));
      }
      if epochs[cap.obj] != cap.epoch {
        return Err(Revoked(cap.obj));
      }
      if !Contains(cap.rights, required) {
        return Err(InsufficientRights(cap.obj, cap.rights, required));
      }
      r := Ok(Unit.Unit);
    }

    /** A successful revoke kills every live capability of the object and no other. */
    method Revoke(cap: Capability) returns (r: Result<Unit, CapError>)
      modifies this`epochs
      ensures r == old(View()).Check(cap, {DESTROY})
      ensures r.Err? ==> View() == old(View())
      ensures r.Ok? ==> Ok(View()) == old(View()).Revoke(cap)
      ensures r.Ok? ==> forall c: Capability ::
        old(View()).Live(c) ==> (View().Live(c) <==> c.obj != cap.obj)
    {
      r := Check(cap, {DESTROY});
      if r.Ok? {
        epochs := epochs[cap.obj := epochs[cap.obj] + 1];
      }
    }

    /** A revoke that leaves exactly one live capability, with the rights of the old one. */
    method Reissue(cap: Capability) returns (r: Result<Capability, CapError>)
      modifies this`epochs
      ensures r.Err? ==> View() == old(View())
      ensures r.Ok? ==> Ok((View(), r.value)) == old(View()).Reissue(cap)
      ensures r.Err? ==> Err(r.error) == old(View()).Check(cap, {DESTROY})
      ensures r.Ok? ==> r.value.obj == cap.obj && View().Permits(r.value, cap.rights)
      ensures r.Ok? ==> forall c: Capability :: c.obj == cap.obj && old(View()).Live(c) ==> !View().Live(c)
    {
      var revoked := Revoke(cap);
      if revoked.Err? {
        return Err(revoked.error);
      }
      r := Ok(Capability(cap.obj, cap.rights, epochs[cap.obj]));
    }

    method Derive(cap: Capability, requested: set<Right>) returns (r: Result<Capability, CapError>)
      ensures r == View().Derive(cap, requested)
      ensures r.Ok? <==> View().Permits(cap, {GRANT}) && requested <= cap.rights
      ensures r.Ok? ==> r.value.obj == cap.obj && View().Permits(r.value, requested) && r.value.rights <= cap.rights
    {
      var checked := Check(cap, {GRANT});
      if checked.Err? {
        return Err(checked.error);
      }
      if !Contains(cap.rights, requested) {
        return Err(CannotAmplify(cap.obj, cap.rights, requested));
      }
      r := Ok(Capability(cap.obj, requested, cap.epoch));
    }

    /** Destroying an object makes every capability for it unknown rather than revoked. */
    method Destroy(cap: Capability) returns (r: Result<Unit, CapError>)
      modifies this`epochs
      ensures r == old(View()).Check(cap, {DESTROY})
      ensures r.Err? ==> View() == old(View())
      ensures r.Ok? ==> Ok(View()) == old(View()).Destroy(cap)
      ensures r.Ok? ==> forall c: Capability, needed ::
        c.obj == cap.obj ==> View().Check(c, needed) == Err(UnknownObject(c.obj))
    {
      r := Check(cap, {DESTROY});
      if r.Ok? {
        epochs := epochs - {cap.obj};
      }
    }
  }
}
