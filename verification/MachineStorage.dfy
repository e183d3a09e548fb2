/** What the step system does to memory: regions hold exactly what authorised writes put there. */
module MachineStorage {
  import opened Wrappers
  import opened Rights
  import opened Capabilities
  import opened Processes
  import opened Transfers
  import opened Channels
  import opened Scheduling
  import opened Data
  import opened Regions
  import opened Machine

  /** A successful write or update: the capability used, and the bytes it left from `offset` on. */
  datatype Patch = Patch(cap: Capability, offset: nat, bytes: seq<byte>)

  type Patches = map<ObjectId, seq<Patch>>

  /** What the most recent patch covering byte `i` put there, else zero. */
  function LastWritten(patches: seq<Patch>, i: nat): byte
    decreases |patches|
  {
    if patches == [] then 0
    else
      var p := patches[|patches| - 1];
      if p.offset <= i < p.offset + |p.bytes| then p.bytes[i - p.offset] else LastWritten(patches[..|patches| - 1], i)
  }

  ghost predicate StoredAs(bytes: seq<byte>, patches: seq<Patch>) {
    forall i: nat :: i < |bytes| ==> bytes[i] == LastWritten(patches, i)
  }

  ghost predicate ContentsRecorded(store: Store, patches: Patches) {
    forall o :: o in store ==> o in patches && StoredAs(store[o], patches[o])
  }

  /** Region ids and channel ids are disjoint, and all come from the one kernel counter. */
  ghost predicate IdsDisjoint(s: Sys) {
    && (forall o :: o in s.store ==> o < s.kernel.nextId && o !in s.queues)
    && (forall o :: o in s.queues ==> o < s.kernel.nextId)
  }

  ghost predicate Kept(s: Sys, patches: Patches) {
    ContentsRecorded(s.store, patches) && IdsDisjoint(s)
  }

  /** Closures passed to `update` work in place. */
  ghost predicate WellBehaved(op: Op) {
    op.UpdateIn? ==> InPlace(op.f)
  }

  /** The patch an operation makes, if it makes one. */
  function PatchOf(s: Sys, op: Op): Option<Patch> {
    match op
    case WriteTo(cap, offset, bytes) =>
      if WriteBytes(s.kernel, s.store, cap, offset, bytes).Ok? then Some(Patch(cap, offset, bytes)) else None
    case UpdateIn(cap, f) =>
      (match UpdateBytes(s.kernel, s.store, cap, f) case Ok(store) => Some(Patch(cap, 0, store[cap.obj])) case Err(_) => None)
    case _ => None
  }

  function Patched(s: Sys, patches: Patches, op: Op): Patches {
    match PatchOf(s, op)
    case Some(p) =>
      if p.cap.obj in patches then patches[p.cap.obj := patches[p.cap.obj] + [p]] else patches
    case None => if op.MakeRegion? then patches[s.kernel.nextId := []] else patches
  }

  /** Only a live capability with write authority, and read authority for an update, ever makes a patch, and
      only inside the region. */
  lemma {:induction false} PatchesAreAuthorised(s: Sys, op: Op)
    requires PatchOf(s, op).Some? && WellBehaved(op)
    ensures var p := PatchOf(s, op).value;
            && s.kernel.Permits(p.cap, {WRITE}) && (op.UpdateIn? ==> s.kernel.Permits(p.cap, {READ, WRITE})) && p.cap.obj in s.store
            && p.offset + |p.bytes| <= |s.store[p.cap.obj]|
            && |Step(s, op).store[p.cap.obj]| == |s.store[p.cap.obj]|
  {
    match op
    case UpdateIn(cap, f) => assert |f(s.store[cap.obj])| == |s.store[cap.obj]|;
    case WriteTo(_, _, _) =>
  }

  lemma PatchStored(before: seq<byte>, after: seq<byte>, patches: seq<Patch>, p: Patch)
    requires StoredAs(before, patches) && |after| == |before| && p.offset + |p.bytes| <= |before|
    requires forall i: nat :: i < |before| ==>
      after[i] == if p.offset <= i < p.offset + |p.bytes| then p.bytes[i - p.offset] else before[i]
    ensures StoredAs(after, patches + [p])
  {
    assert (patches + [p])[..|patches + [p]| - 1] == patches;
  }

  /** The bytes after a write or update, byte by byte. */
  lemma PatchWrites(s: Sys, op: Op)
    requires PatchOf(s, op).Some? && WellBehaved(op)
    ensures var p := PatchOf(s, op).value; var o := p.cap.obj; var s' := Step(s, op);
            && o in s.store && s' == s.(store := s'.store) && s'.store == s.store[o := s'.store[o]]
            && |s'.store[o]| == |s.store[o]|
            && forall i: nat :: i < |s.store[o]| ==>
                 s'.store[o][i] == if p.offset <= i < p.offset + |p.bytes| then p.bytes[i - p.offset] else s.store[o][i]
  {
    PatchesAreAuthorised(s, op);
  }

  lemma {:induction false} PatchKept(s: Sys, patches: Patches, op: Op)
    requires Kept(s, patches) && PatchOf(s, op).Some? && WellBehaved(op)
    ensures Kept(Step(s, op), Patched(s, patches, op))
  {
    var p := PatchOf(s, op).value;
    PatchesAreAuthorised(s, op);
    PatchWrites(s, op);
    PatchStored(s.store[p.cap.obj], Step(s, op).store[p.cap.obj], patches[p.cap.obj], p);
  }

  lemma MadeKept(s: Sys, patches: Patches, op: Op)
    requires Kept(s, patches) && (op.MakeRegion? || op.MakeObject? || op.MakeChannel?)
    ensures Kept(Step(s, op), Patched(s, patches, op))
  {
    if op.MakeRegion? {
      assert StoredAs(Zeros(op.size), []);
    }
  }

  /** Regions can go, with their bytes. */
  lemma GoneKept(s: Sys, patches: Patches, op: Op)
    requires Kept(s, patches) && (op.DestroyIn? || op.Reclaim?)
    ensures Kept(Step(s, op), Patched(s, patches, op))
  {
  }

  /** A refused write changes nothing. */
  lemma UnwrittenKept(s: Sys, patches: Patches, op: Op)
    requires Kept(s, patches) && (op.WriteTo? || op.UpdateIn?) && PatchOf(s, op).None?
    ensures Kept(Step(s, op), Patched(s, patches, op))
  {
  }

  /** Processes, messages and authority change no byte. */
  lemma ElsewhereKept(s: Sys, patches: Patches, op: Op)
    requires Kept(s, patches)
    requires !(op.MakeRegion? || op.MakeObject? || op.MakeChannel? || op.DestroyIn? || op.Reclaim? || op.WriteTo? || op.UpdateIn?)
    ensures Kept(Step(s, op), Patched(s, patches, op))
  {
    IdsGrow(s, op);
  }

  /** Every byte of every region is always what the most recent authorised write or update left there,
      else zero; nothing else ever changes a byte. */
  lemma StepKept(s: Sys, patches: Patches, op: Op)
    requires Kept(s, patches) && WellBehaved(op)
    ensures Kept(Step(s, op), Patched(s, patches, op))
  {
    if PatchOf(s, op).Some? {
      PatchKept(s, patches, op);
    } else if op.MakeRegion? || op.MakeObject? || op.MakeChannel? {
      MadeKept(s, patches, op);
    } else if op.DestroyIn? || op.Reclaim? {
      GoneKept(s, patches, op);
    } else if op.WriteTo? || op.UpdateIn? {
      UnwrittenKept(s, patches, op);
    } else {
      ElsewhereKept(s, patches, op);
    }
  }

  /** Reclaiming drops exactly the regions whose kernel object is gone, which no capability can reach. */
  lemma ReclaimIsExact(s: Sys, o: ObjectId, c: Capability, needed: set<Right>)
    requires c.obj == o
    ensures o in Step(s, Reclaim).store <==> o in s.store && o in s.kernel.epochs
    ensures o in Step(s, Reclaim).store ==> Step(s, Reclaim).store[o] == s.store[o]
    ensures o in s.store && o !in Step(s, Reclaim).store ==> s.kernel.Check(c, needed) == Err(UnknownObject(o))
  {
  }
}
