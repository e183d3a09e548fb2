/** Memory regions: bytes behind region objects. The kernel tracks authority; this registry holds data. */
module Regions {
  import opened Wrappers
  import opened Rights
  import opened Capabilities
  import opened Data

  type Store = map<ObjectId, seq<byte>>

  datatype MemoryError =
    | UnknownRegion(obj: ObjectId)
    | OutOfBounds(obj: ObjectId, offset: nat, len: nat, size: nat)
    | RegionCapability(cap: CapError)

  /** Offsets and lengths are machine words; their sum is computed with an overflow check. */
  const USIZE_MAX: nat := 0xFFFF_FFFF_FFFF_FFFF

  function CheckedAdd(a: nat, b: nat): Option<nat> {
    if a + b <= USIZE_MAX then Some(a + b) else None
  }

  function Zeros(n: nat): (s: seq<byte>)
    ensures |s| == n
  {
    seq(n, _ => 0)
  }

  /** Authority first, then existence, then bounds. */
  function CheckedRange(k: KernelState, m: Store, cap: Capability, required: set<Right>, offset: nat, len: nat)
    : Result<nat, MemoryError>
  {
    var _ :- k.Check(cap, required).MapErr(e => RegionCapability(e));
    if cap.obj !in m then Err(UnknownRegion(cap.obj))
    else match CheckedAdd(offset, len)
      case Some(end) =>
        if end <= |m[cap.obj]| then Ok(end) else Err(OutOfBounds(cap.obj, offset, len, |m[cap.obj]|))
      case None => Err(OutOfBounds(cap.obj, offset, len, |m[cap.obj]|))
  }

  function NewRegion(k: KernelState, m: Store, size: nat): (KernelState, Store, Capability) {
    var (k', cap) := k.NewObject(OWNER);
    (k', m[cap.obj := Zeros(size)], cap)
  }

  function ReadBytes(k: KernelState, m: Store, cap: Capability, offset: nat, len: nat): Result<seq<byte>, MemoryError> {
    var end :- CheckedRange(k, m, cap, {READ}, offset, len);
    Ok(m[cap.obj][offset..end])
  }

  /** `s` with `bytes` written over it from `offset` on. */
  function Overwrite(s: seq<byte>, offset: nat, bytes: seq<byte>): (t: seq<byte>)
    requires offset + |bytes| <= |s|
    ensures |t| == |s|
    ensures forall i :: 0 <= i < |s| ==> t[i] == if offset <= i < offset + |bytes| then bytes[i - offset] else s[i]
  {
    s[..offset] + bytes + s[offset + |bytes|..]
  }

  function WriteBytes(k: KernelState, m: Store, cap: Capability, offset: nat, bytes: seq<byte>): Result<Store, MemoryError> {
    var end :- CheckedRange(k, m, cap, {WRITE}, offset, |bytes|);
    Ok(m[cap.obj := Overwrite(m[cap.obj], offset, bytes)])
  }

  /** What `inspect` lets its closure see. */
  function InspectBytes(k: KernelState, m: Store, cap: Capability): Result<seq<byte>, MemoryError> {
    var _ :- k.Check(cap, {READ}).MapErr(e => RegionCapability(e));
    if cap.obj !in m then Err(UnknownRegion(cap.obj)) else Ok(m[cap.obj])
  }

  /** A closure over a byte slice can change the bytes but not how many there are. */
  ghost predicate InPlace(f: seq<byte> -> seq<byte>) {
    forall s :: |f(s)| == |s|
  }

  function UpdateBytes(k: KernelState, m: Store, cap: Capability, f: seq<byte> -> seq<byte>): Result<Store, MemoryError> {
    var _ :- k.Check(cap, {READ, WRITE}).MapErr(e => RegionCapability(e));
    if cap.obj !in m then Err(UnknownRegion(cap.obj)) else Ok(m[cap.obj := f(m[cap.obj])])
  }

  function DestroyRegion(k: KernelState, m: Store, cap: Capability): Result<(KernelState, Store), MemoryError> {
    var _ :- k.Check(cap, {DESTROY}).MapErr(e => RegionCapability(e));
    if cap.obj !in m then Err(UnknownRegion(cap.obj))
    else
      var k' :- k.Destroy(cap).MapErr(e => RegionCapability(e));
      Ok((k', m - {cap.obj}))
  }

  function Reclaim(k: KernelState, m: Store): Store {
    map o | o in m && o in k.epochs :: m[o]
  }

  /** Reading succeeds exactly with authority and a range inside the region, the range overflowing
      a machine word included; and it returns exactly the bytes of the range. */
  lemma ReadMeans(k: KernelState, m: Store, cap: Capability, offset: nat, len: nat)
    requires cap.obj in m ==> |m[cap.obj]| <= USIZE_MAX
    ensures var r := ReadBytes(k, m, cap, offset, len);
            && (r.Ok? <==> k.Permits(cap, {READ}) && cap.obj in m && offset + len <= |m[cap.obj]|)
            && (r.Ok? ==> |r.value| == len && forall i :: 0 <= i < len ==> r.value[i] == m[cap.obj][offset + i])
            && (!k.Permits(cap, {READ}) ==> r.Err? && r.error.RegionCapability?)
  {
  }

  /** A write reads back, changes no byte outside its range, and is refused whole or done whole. */
  lemma WriteMeans(k: KernelState, m: Store, cap: Capability, offset: nat, bytes: seq<byte>)
    requires cap.obj in m ==> |m[cap.obj]| <= USIZE_MAX
    ensures var r := WriteBytes(k, m, cap, offset, bytes);
            && (r.Ok? <==> k.Permits(cap, {WRITE}) && cap.obj in m && offset + |bytes| <= |m[cap.obj]|)
            && (r.Ok? ==> r.value.Keys == m.Keys && forall o :: o in m ==> |r.value[o]| == |m[o]|)
            && (r.Ok? ==> forall o, i :: o in m && 0 <= i < |m[o]| ==>
                  r.value[o][i] == if o == cap.obj && offset <= i < offset + |bytes| then bytes[i - offset] else m[o][i])
            && (r.Ok? && k.Permits(cap, {READ}) ==> ReadBytes(k, r.value, cap, offset, |bytes|) == Ok(bytes))
  {
    var r := WriteBytes(k, m, cap, offset, bytes);
    if r.Ok? {
      assert r.value[cap.obj][offset..offset + |bytes|] == bytes;
    }
  }

  /** Why an access to a range is refused: authority first, then existence, then bounds, with the request
      and the region's size. */
  lemma RangeRefused(k: KernelState, m: Store, cap: Capability, required: set<Right>, offset: nat, len: nat)
    requires cap.obj in m ==> |m[cap.obj]| <= USIZE_MAX
    ensures var r := CheckedRange(k, m, cap, required, offset, len);
            && (r.Ok? <==> k.Permits(cap, required) && cap.obj in m && offset + len <= |m[cap.obj]|)
            && (!k.Permits(cap, required) ==> r.Err? && r.error.RegionCapability? && Err(r.error.cap) == k.Check(cap, required))
            && (k.Permits(cap, required) && cap.obj !in m ==> r == Err(UnknownRegion(cap.obj)))
            && (k.Permits(cap, required) && cap.obj in m && offset + len > |m[cap.obj]| ==>
                  r.Err? && r.error.OutOfBounds? && r.error.obj == cap.obj && r.error.offset == offset && r.error.len == len &&
                  r.error.size == |m[cap.obj]|)
  {
  }

  /** Looking at a region needs authority to read it and shows all its bytes. */
  lemma InspectMeans(k: KernelState, m: Store, cap: Capability)
    ensures var r := InspectBytes(k, m, cap);
            && (r.Ok? <==> k.Permits(cap, {READ}) && cap.obj in m)
            && (r.Ok? ==> r.value == m[cap.obj])
            && (!k.Permits(cap, {READ}) ==> r.Err? && r.error.RegionCapability? && Err(r.error.cap) == k.Check(cap, {READ}))
            && (k.Permits(cap, {READ}) && cap.obj !in m ==> r == Err(UnknownRegion(cap.obj)))
  {
  }

  /** An update needs authority to read and to write, since its closure sees the old bytes; the region then
      holds what the closure made of them, and no other region changes. */
  lemma UpdateMeans(k: KernelState, m: Store, cap: Capability, f: seq<byte> -> seq<byte>)
    ensures var r := UpdateBytes(k, m, cap, f);
            && (r.Ok? <==> k.Permits(cap, {READ, WRITE}) && cap.obj in m)
            && (r.Ok? ==> r.value.Keys == m.Keys && forall o :: o in m ==> r.value[o] == if o == cap.obj then f(m[o]) else m[o])
            && (!k.Permits(cap, {READ, WRITE}) ==>
                  r.Err? && r.error.RegionCapability? && Err(r.error.cap) == k.Check(cap, {READ, WRITE}))
            && (k.Permits(cap, {READ, WRITE}) && cap.obj !in m ==> r == Err(UnknownRegion(cap.obj)))
  {
  }

  /** Only a region can be destroyed through the registry: with authority its bytes and its object go, and
      nothing else; a capability for any other object is refused and that object stays. */
  lemma DestroyMeans(k: KernelState, m: Store, cap: Capability)
    ensures var r := DestroyRegion(k, m, cap);
            && (r.Ok? <==> k.Permits(cap, {DESTROY}) && cap.obj in m)
            && (r.Ok? ==>
                  && r.value.1.Keys == m.Keys - {cap.obj} && r.value.0.epochs.Keys == k.epochs.Keys - {cap.obj}
                  && r.value.0.nextId == k.nextId && (forall o :: o in r.value.1 ==> r.value.1[o] == m[o])
                  && forall o :: o in r.value.0.epochs ==> r.value.0.epochs[o] == k.epochs[o])
            && (!k.Permits(cap, {DESTROY}) ==>
                  r.Err? && r.error.RegionCapability? && Err(r.error.cap) == k.Check(cap, {DESTROY}))
            && (k.Permits(cap, {DESTROY}) && cap.obj !in m ==> r == Err(UnknownRegion(cap.obj)))
  {
  }

  /** A new region is all zeros, of the size asked for, under an id no object has had, with a capability to
      read, write, hand on and destroy it; every other region stays. */
  lemma NewRegionMeans(k: KernelState, m: Store, size: nat)
    requires k.Ordered() && forall o :: o in m ==> o < k.nextId
    ensures var (k', m', cap) := NewRegion(k, m, size);
            && cap.obj !in k.epochs && cap.obj !in m && cap.rights == {READ, WRITE, GRANT, DESTROY}
            && k'.Permits(cap, {READ, WRITE, GRANT, DESTROY}) && k'.Ordered()
            && m'.Keys == m.Keys + {cap.obj} && |m'[cap.obj]| == size && (forall i :: 0 <= i < size ==> m'[cap.obj][i] == 0)
            && forall o :: o in m ==> m'[o] == m[o]
  {
  }

  class RegionRegistry {
    var regions: Store

    constructor ()
      ensures regions == map[]
    {
      regions := map[];
    }

    method New(kernel: Kernel, size: nat) returns (cap: Capability)
      requires kernel.View().Ordered()
      modifies this, kernel
      ensures (kernel.View(), regions, cap) == NewRegion(old(kernel.View()), old(regions), size)
      ensures kernel.View().Ordered() && kernel.View().Permits(cap, OWNER)
    {
      cap := kernel.New(OWNER);
      regions := regions[cap.obj := Zeros(size)];
    }

    method Range(kernel: Kernel, cap: Capability, required: set<Right>, offset: nat, len: nat) returns (r: Result<nat, MemoryError>)
      ensures r == CheckedRange(kernel.View(), regions, cap, required, offset, len)
      ensures r.Ok? ==> kernel.View().Permits(cap, required) && cap.obj in regions && r.value == offset + len <= |regions[cap.obj]|
    {
      var checked := kernel.Check(cap, required);
      if checked.Err? {
        return Err(RegionCapability(checked.error));
      }
      if cap.obj !in regions {
        return Err(UnknownRegion(cap.obj));
      }
      var end := CheckedAdd(offset, len);
      if end.None? || end.value > |regions[cap.obj]| {
        return Err(OutOfBounds(cap.obj, offset, len, |regions[cap.obj]|));
      }
      r := Ok(end.value);
    }

    method Read(kernel: Kernel, cap: Capability, offset: nat, len: nat) returns (r: Result<seq<byte>, MemoryError>)
      ensures r == ReadBytes(kernel.View(), regions, cap, offset, len)
    {
      var end := Range(kernel, cap, {READ}, offset, len);
      if end.Err? {
        return Err(end.error);
      }
      r := Ok(regions[cap.obj][offset..end.value]);
    }

    method Write(kernel: Kernel, cap: Capability, offset: nat, bytes: seq<byte>) returns (r: Result<Unit, MemoryError>)
      modifies this
      ensures var w := WriteBytes(kernel.View(), old(regions), cap, offset, bytes);
              if w.Ok? then r == Ok(Unit.Unit) && regions == w.value else r == Err(w.error) && regions == old(regions)
    {
      var end := Range(kernel, cap, {WRITE}, offset, |bytes|);
      if end.Err? {
        return Err(end.error);
      }
      regions := regions[cap.obj := Overwrite(regions[cap.obj], offset, bytes)];
      r := Ok(Unit.Unit);
    }

    method Inspect<R>(kernel: Kernel, cap: Capability, f: seq<byte> -> R) returns (r: Result<R, MemoryError>)
      ensures var seen := InspectBytes(kernel.View(), regions, cap);
              r == if seen.Ok? then Ok(f(seen.value)) else Err(seen.error)
    {
      var checked := kernel.Check(cap, {READ});
      if checked.Err? {
        return Err(RegionCapability(checked.error));
      }
      if cap.obj !in regions {
        return Err(UnknownRegion(cap.obj));
      }
      r := Ok(f(regions[cap.obj]));
    }

    method Update(kernel: Kernel, cap: Capability, f: seq<byte> -> seq<byte>) returns (r: Result<Unit, MemoryError>)
      requires InPlace(f)
      modifies this
      ensures var w := UpdateBytes(kernel.View(), old(regions), cap, f);
              if w.Ok? then r == Ok(Unit.Unit) && regions == w.value else r == Err(w.error) && regions == old(regions)
    {
      var checked := kernel.Check(cap, {READ, WRITE});
      if checked.Err? {
        return Err(RegionCapability(checked.error));
      }
      if cap.obj !in regions {
        return Err(UnknownRegion(cap.obj));
      }
      regions := regions[cap.obj := f(regions[cap.obj])];
      r := Ok(Unit.Unit);
    }

    /** Frees the bytes together with the kernel object. */
    method Destroy(kernel: Kernel, cap: Capability) returns (r: Result<Unit, MemoryError>)
      modifies this, kernel`epochs
      ensures var d := old(DestroyRegion(kernel.View(), regions, cap));
              if d.Ok? then r == Ok(Unit.Unit) && kernel.View() == d.value.0 && regions == d.value.1
              else r == Err(d.error) && kernel.View() == old(kernel.View()) && regions == old(regions)
    {
      var checked := kernel.Check(cap, {DESTROY});
      if checked.Err? {
        return Err(RegionCapability(checked.error));
      }
      if cap.obj !in regions {
        return Err(UnknownRegion(cap.obj));
      }
      var _ := kernel.Destroy(cap);
      regions := regions - {cap.obj};
      r := Ok(Unit.Unit);
    }

    /** Drops exactly the regions whose object is gone, and counts them. */
    method ReclaimAll(kernel: Kernel) returns (dropped: nat)
      modifies this
      ensures regions == Reclaim(kernel.View(), old(regions))
      ensures regions.Keys == old(regions).Keys * kernel.epochs.Keys
      ensures dropped == |old(regions).Keys - kernel.epochs.Keys|
    {
      var before := |regions|;
      regions := map o | o in regions && o in kernel.epochs :: regions[o];
      assert old(regions).Keys == regions.Keys + (old(regions).Keys - kernel.epochs.Keys);
      assert |regions| == |regions.Keys| && before == |old(regions).Keys|;
      dropped := before - |regions|;
    }
  }
}
