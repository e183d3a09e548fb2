/** The chaos harness: the kernel next to a shadow model of it, written independently. Every operation
    is run on both, its outcome is predicted, and afterwards the whole state is swept for differences. */
module Chaos {
  import opened Wrappers
  import opened Rights
  import opened Capabilities
  import opened Clocks
  import opened Processes
  import opened Channels
  import opened Data
  import opened Machine
  import Scheduling
  import Transfers
  import Regions

  const MAX_PROCESSES: nat := 8
  const CHANNELS: nat := 3

  datatype Obj = Region(r: nat) | Channel(c: nat)

  /** The model's view of one capability. */
  datatype CapModel = CapModel(obj: Obj, rights: set<Right>, epoch: nat)

  datatype RegionModel = RegionModel(object_: ObjectId, alive: bool, epoch: nat, bytes: seq<byte>)

  type TableModel = map<Handle, CapModel>

  datatype ProcModel = ProcModel(pid: ProcessId, table: TableModel)

  datatype MessageModel = MessageModel(sendEvent: nat, caps: seq<CapModel>)

  datatype GrantKind = Transfer | Derive(rights: set<Right>) | Move

  /** A capability from the process's own table, or any ever seen: a potentially stale replay. */
  datatype Pick = FromTable(n: nat) | FromStash(n: nat)

  datatype ChaosOp =
    | NewRegion(p: nat, size: nat)
    | Spawn(p: nat, grants: seq<(nat, GrantKind)>)
    | Send(p: nat, channel: nat, grants: seq<(nat, GrantKind)>)
    | Receive(p: nat, channel: nat)
    | Read(p: nat, pick: Pick, regionsOnly: bool, offset: nat, len: nat)
    | Write(p: nat, pick: Pick, regionsOnly: bool, offset: nat, len: nat, fill: byte)
    | Revoke(p: nat, pick: Pick)
    | Destroy(p: nat, pick: Pick)
    | Local(p: nat)

  /** The model: every region, every table, every message in flight, every capability ever held. */
  datatype Shadow = Shadow(channels: seq<ObjectId>, regions: seq<RegionModel>, procs: seq<ProcModel>,
                           inFlight: seq<seq<MessageModel>>, stash: seq<(Capability, CapModel)>)

  /** The event graph recorded for the causality check. */
  datatype Events = Events(stamps: seq<Stamp>, preds: seq<seq<nat>>, last: seq<Option<nat>>)

  datatype World = World(sys: Sys, shadow: Shadow, events: Events)

  // ---- the model's own rules ----

  predicate ValidObj(sh: Shadow, o: Obj) {
    match o
    case Region(r) => r < |sh.regions|
    case Channel(c) => c < |sh.channels|
  }

  function ObjectIdOf(sh: Shadow, o: Obj): ObjectId
    requires ValidObj(sh, o)
  {
    match o
    case Region(r) => sh.regions[r].object_
    case Channel(c) => sh.channels[c]
  }

  /** The model's prediction of a check. */
  function PredictCheck(sh: Shadow, m: CapModel, required: set<Right>): Result<Unit, CapError>
    requires ValidObj(sh, m.obj)
  {
    var id := ObjectIdOf(sh, m.obj);
    if m.obj.Region? && !sh.regions[m.obj.r].alive then Err(UnknownObject(id))
    else if m.obj.Region? && sh.regions[m.obj.r].epoch != m.epoch then Err(Revoked(id))
    else if !Contains(m.rights, required) then Err(InsufficientRights(id, m.rights, required))
    else Ok(Unit.Unit)
  }

  /** The model of a region access: the capability, then the kind of object, then the bounds. */
  function PredictAccess(sh: Shadow, m: CapModel, required: set<Right>, offset: nat, len: nat): Result<Unit, Regions.MemoryError>
    requires ValidObj(sh, m.obj)
  {
    var _ :- PredictCheck(sh, m, required).MapErr(e => Regions.RegionCapability(e));
    var id := ObjectIdOf(sh, m.obj);
    match m.obj
    case Channel(_) => Err(Regions.UnknownRegion(id))
    case Region(r) =>
      var size := |sh.regions[r].bytes|;
      match Regions.CheckedAdd(offset, len)
      case Some(end) => if end <= size then Ok(Unit.Unit) else Err(Regions.OutOfBounds(id, offset, len, size))
      case None => Err(Regions.OutOfBounds(id, offset, len, size))
  }

  // ---- the model of a grant batch ----

  /** A grant the harness makes: a handle of the process, and what to do with it. */
  type Choice = (Handle, GrantKind)

  predicate TakesHandle(kind: GrantKind) {
    !kind.Derive?
  }

  function ModelResolveOne(sh: Shadow, mt: TableModel, g: Choice): Option<CapModel>
    requires g.0 in mt && ValidObj(sh, mt[g.0].obj)
  {
    var held := mt[g.0];
    match g.1
    case Transfer => Some(held)
    case Derive(rights) =>
      if PredictCheck(sh, held, {GRANT}).Ok? && Contains(held.rights, rights) then Some(held.(rights := rights)) else None
    case Move => if PredictCheck(sh, held, {DESTROY}).Ok? then Some(held) else None
  }

  /** Every choice is a handle of the table. */
  predicate Chosen(sh: Shadow, mt: TableModel, gs: seq<Choice>) {
    forall i | 0 <= i < |gs| :: gs[i].0 in mt && ValidObj(sh, mt[gs[i].0].obj)
  }

  predicate SeenBefore(gs: seq<Choice>, n: nat)
    requires n < |gs|
  {
    TakesHandle(gs[n].1) && exists j | 0 <= j < n :: TakesHandle(gs[j].1) && gs[j].0 == gs[n].0
  }

  function ModelResolve(sh: Shadow, mt: TableModel, gs: seq<Choice>, n: nat): (r: Option<seq<CapModel>>)
    requires Chosen(sh, mt, gs) && n <= |gs|
    ensures r.Some? ==> |r.value| == n
  {
    if n == 0 then Some([])
    else
      match ModelResolve(sh, mt, gs, n - 1)
      case None => None
      case Some(caps) =>
        if SeenBefore(gs, n - 1) then None
        else
          match ModelResolveOne(sh, mt, gs[n - 1])
          case None => None
          case Some(m) => Some(caps + [m])
  }

  predicate ModelConflict(gs: seq<Choice>, caps: seq<CapModel>)
    requires |caps| == |gs|
  {
    exists i, j | 0 <= i < |gs| && 0 <= j < |gs| :: i != j && gs[i].1.Move? && caps[j].obj == caps[i].obj
  }

  /** The regions, the table and the deliveries of a batch being applied. */
  datatype Applying = Applying(regions: seq<RegionModel>, table: TableModel, caps: seq<CapModel>)

  /** The effect of choice `i`. */
  function ApplyOne(a: Applying, g: Choice, i: nat): (b: Applying)
    requires i < |a.caps|
    ensures |b.regions| == |a.regions| && |b.caps| == |a.caps|
  {
    match g.1
    case Derive(_) => a
    case Transfer => a.(table := a.table - {g.0})
    case Move =>
      if a.caps[i].obj.Region? && a.caps[i].obj.r < |a.regions| then
        var r := a.caps[i].obj.r;
        var epoch := a.regions[r].epoch + 1;
        Applying(a.regions[r := a.regions[r].(epoch := epoch)], a.table - {g.0}, a.caps[i := a.caps[i].(epoch := epoch)])
      else a.(table := a.table - {g.0})
  }

  /** The effect of the first `n` choices. */
  function ModelApply(a: Applying, gs: seq<Choice>, n: nat): (b: Applying)
    requires |a.caps| == |gs| && n <= |gs|
    ensures |b.regions| == |a.regions| && |b.caps| == |gs|
  {
    if n == 0 then a else ApplyOne(ModelApply(a, gs, n - 1), gs[n - 1], n - 1)
  }

  /** `None` if the batch must be rejected; otherwise what it delivers, and the model with it applied. */
  function ApplyGrantsModel(sh: Shadow, p: nat, gs: seq<Choice>): Option<(Shadow, seq<CapModel>)>
    requires p < |sh.procs| && Chosen(sh, sh.procs[p].table, gs)
  {
    match ModelResolve(sh, sh.procs[p].table, gs, |gs|)
    case None => None
    case Some(caps) =>
      if ModelConflict(gs, caps) then None
      else
        var a := ModelApply(Applying(sh.regions, sh.procs[p].table, caps), gs, |gs|);
        Some((sh.(regions := a.regions, procs := sh.procs[p := sh.procs[p].(table := a.table)]), a.caps))
  }

  // ---- choosing handles ----

  function Least(s: set<Handle>): (h: Handle)
    requires s != {}
    ensures h in s && forall k :: k in s ==> h <= k
  {
    LeastExists(s);
    var h :| h in s && forall k :: k in s ==> h <= k;
    h
  }

  lemma LeastExists(s: set<Handle>)
    requires s != {}
    ensures exists h :: h in s && forall k :: k in s ==> h <= k
  {
    var h := SmallestExists(s);
  }

  /** A set of handles in ascending order. */
  function Ascending(s: set<Handle>): (hs: seq<Handle>)
    ensures (forall h :: h in hs <==> h in s) && (hs == [] <==> s == {})
  {
    if s == {} then []
    else
      var h := Least(s);
      [h] + Ascending(s - {h})
  }

  predicate IsRegion(m: CapModel) {
    m.obj.Region?
  }

  function RegionHandles(mt: TableModel): set<Handle> {
    set h | h in mt && IsRegion(mt[h])
  }

  function ChannelHandles(mt: TableModel, c: nat): set<Handle> {
    set h | h in mt && mt[h].obj == Channel(c)
  }

  function ChoiceOf(hs: seq<Handle>, pick: (nat, GrantKind)): (g: Choice)
    requires hs != []
    ensures g.0 in hs && g.1 == pick.1
  {
    (hs[pick.0 % |hs|], pick.1)
  }

  /** Raw picks against the process's region handles, in ascending order. */
  function ConcreteGrants(mt: TableModel, picks: seq<(nat, GrantKind)>): (gs: seq<Choice>)
    ensures |gs| <= |picks| && forall i :: 0 <= i < |gs| ==> gs[i].0 in mt && IsRegion(mt[gs[i].0])
  {
    var hs := Ascending(RegionHandles(mt));
    if hs == [] then []
    else seq(|picks|, i requires 0 <= i < |picks| => ChoiceOf(hs, picks[i]))
  }

  function ToGrant(g: Choice): Transfers.Grant {
    match g.1
    case Transfer => Transfers.Transfer(g.0)
    case Derive(rights) => Transfers.Derive(g.0, rights)
    case Move => Transfers.Move(g.0)
  }

  function ToGrants(gs: seq<Choice>): (grants: seq<Transfers.Grant>)
    ensures |grants| == |gs| && forall i :: 0 <= i < |gs| ==> grants[i] == ToGrant(gs[i])
  {
    seq(|gs|, i requires 0 <= i < |gs| => ToGrant(gs[i]))
  }

  function Candidates(stash: seq<(Capability, CapModel)>, wantRegion: bool): (cs: seq<(Capability, CapModel)>)
    ensures forall c :: c in cs ==> c in stash && (wantRegion ==> IsRegion(c.1))
  {
    if stash == [] then []
    else
      Candidates(stash[..|stash| - 1], wantRegion) +
      if !wantRegion || IsRegion(stash[|stash| - 1].1) then [stash[|stash| - 1]] else []
  }

  // ---- one operation, on both ----

  /** Why a run fails: the harness panicked, or the kernel and the model disagree. */
  datatype Violation = Panicked | Mismatch

  predicate Exists(w: World, p: nat) {
    p < |w.shadow.procs| && w.shadow.procs[p].pid in w.sys.sched.procs
  }

  function ProcOf(w: World, p: nat): ProcState
    requires Exists(w, p)
  {
    w.sys.sched.procs[w.shadow.procs[p].pid]
  }

  function SetProc(w: World, p: nat, proc: ProcState): World
    requires Exists(w, p)
  {
    w.(sys := WithProc(w.sys, w.shadow.procs[p].pid, proc))
  }

  /** An event at process `p`: the given predecessors, and the process's previous event. */
  function Record(ev: Events, p: nat, stamp: Stamp, preds: seq<nat>): Events {
    if p < |ev.last| then
      Events(ev.stamps + [stamp],
             ev.preds + [preds + match ev.last[p] case Some(prev) => [prev] case None => []],
             ev.last[p := Some(|ev.stamps|)])
    else ev
  }

  /** Grants a capability straight into a table, and mirrors it. */
  function Install(w: World, p: nat, cap: Capability, m: CapModel): World
    requires Exists(w, p)
  {
    var proc, sh := ProcOf(w, p), w.shadow;
    var pm := sh.procs[p];
    SetProc(w, p, proc.Grant(cap)).(shadow := sh.(procs := sh.procs[p := pm.(table := pm.table[proc.nextHandle := m])],
                                                  stash := sh.stash + [(cap, m)]))
  }

  function ExecuteNewRegion(w: World, p: nat, size: nat): Result<World, Violation> {
    if !Exists(w, p) then Err(Panicked)
    else
      var (k, store, cap) := Regions.NewRegion(w.sys.kernel, w.sys.store, size);
      var r := RegionModel(cap.obj, true, 0, Regions.Zeros(size));
      var w' := w.(sys := w.sys.(kernel := k, store := store), shadow := w.shadow.(regions := w.shadow.regions + [r]));
      Ok(Install(w', p, cap, CapModel(Region(|w.shadow.regions|), cap.rights, 0)))
  }

  function ExecuteLocal(w: World, p: nat): Result<World, Violation> {
    if !Exists(w, p) then Err(Panicked)
    else
      var stamp := LocalEvent(ProcOf(w, p).clock);
      Ok(SetProc(w, p, ProcOf(w, p).(clock := stamp)).(events := Record(w.events, p, stamp, [])))
  }

  /** The channel capability the harness uses for process `p`: its first for that channel. */
  function ChannelCap(w: World, p: nat, channel: nat): Option<Capability>
    requires Exists(w, p)
  {
    var hs := ChannelHandles(w.shadow.procs[p].table, channel);
    if hs == {} || Least(hs) !in ProcOf(w, p).table then None else Some(ProcOf(w, p).table[Least(hs)])
  }

  function ExecuteSend(w: World, p: nat, channel: nat, picks: seq<(nat, GrantKind)>): Result<World, Violation> {
    if !Exists(w, p) || channel >= |w.shadow.inFlight| then Err(Panicked)
    else
      var mt := w.shadow.procs[p].table;
      var gs := ConcreteGrants(mt, picks);
      if !Chosen(w.shadow, mt, gs) || ChannelCap(w, p, channel).None? then Err(Panicked)
      else
        var result := SendOutcome(w.sys.kernel, w.sys.queues, ChannelCap(w, p, channel).value, ProcOf(w, p), ToGrants(gs), 0);
        match (result, ApplyGrantsModel(w.shadow, p, gs))
        case (Err(_), None) => Ok(w)
        case (Ok(sent), Some((sh, caps))) =>
          var w' := SetProc(w.(sys := w.sys.(kernel := sent.kernel, queues := sent.queues)), p, sent.sender);
          var m := MessageModel(|w.events.stamps|, caps);
          Ok(w'.(shadow := sh.(inFlight := sh.inFlight[channel := sh.inFlight[channel] + [m]]),
                 events := Record(w.events, p, sent.stamp, [])))
        case _ => Err(Mismatch)
  }

  /** Mirrors the handles of a delivery. */
  function Mirror(mt: TableModel, hs: seq<Handle>, caps: seq<CapModel>): TableModel
    requires |hs| == |caps|
    decreases |hs|
  {
    if hs == [] then mt else Mirror(mt, hs[..|hs| - 1], caps[..|hs| - 1])[hs[|hs| - 1] := caps[|hs| - 1]]
  }

  function Stashed(t: Table, hs: seq<Handle>, caps: seq<CapModel>): (s: seq<(Capability, CapModel)>)
    requires |hs| == |caps| && forall h :: h in hs ==> h in t
    ensures |s| == |hs| && forall i :: 0 <= i < |s| ==> s[i] == (t[hs[i]], caps[i])
  {
    seq(|hs|, i requires 0 <= i < |hs| => (t[hs[i]], caps[i]))
  }

  function ExecuteReceive(w: World, p: nat, channel: nat): Result<World, Violation> {
    if !Exists(w, p) || channel >= |w.shadow.inFlight| || ChannelCap(w, p, channel).None? then Err(Panicked)
    else
      var expected := w.shadow.inFlight[channel];
      match ReceiveOutcome(w.sys.kernel, w.sys.queues, ChannelCap(w, p, channel).value, ProcOf(w, p))
      case Err(_) => Err(Mismatch)
      case Ok(None) => if expected == [] then Ok(w) else Err(Mismatch)
      case Ok(Some(r)) =>
        if expected == [] || expected[0].sendEvent >= |w.events.stamps| then Err(Mismatch)
        else
          var m, d := expected[0], r.delivery;
          if d.sentAt != w.events.stamps[m.sendEvent] || |d.handles| != |m.caps| then Err(Mismatch)
          else if !forall h | h in d.handles :: h in r.receiver.table then Err(Panicked)
          else
            var pm := w.shadow.procs[p];
            Ok(SetProc(w.(sys := w.sys.(queues := r.queues)), p, r.receiver).(
               shadow := w.shadow.(procs := w.shadow.procs[p := pm.(table := Mirror(pm.table, d.handles, m.caps))],
                                   inFlight := w.shadow.inFlight[channel := expected[1..]],
                                   stash := w.shadow.stash + Stashed(r.receiver.table, d.handles, m.caps)),
               events := Record(w.events, p, d.receivedAt, [m.sendEvent])))
  }

  /** What every child gets: both ends of every channel, and the right to pass them on. */
  const CHILD_RIGHTS: set<Right> := {READ, WRITE, GRANT}

  function ChannelGrants(mt: TableModel): (grants: seq<Transfers.Grant>)
    requires forall c :: 0 <= c < CHANNELS ==> ChannelHandles(mt, c) != {}
    ensures |grants| == CHANNELS
    ensures forall c :: 0 <= c < CHANNELS ==> grants[c] == Transfers.Derive(Least(ChannelHandles(mt, c)), CHILD_RIGHTS)
  {
    seq(CHANNELS, c requires 0 <= c < CHANNELS => Transfers.Derive(Least(ChannelHandles(mt, c)), CHILD_RIGHTS))
  }

  function ChannelModels(): (ms: seq<CapModel>)
    ensures |ms| == CHANNELS && forall c :: 0 <= c < CHANNELS ==> ms[c] == CapModel(Channel(c), CHILD_RIGHTS, 0)
  {
    seq(CHANNELS, c requires 0 <= c < CHANNELS => CapModel(Channel(c), CHILD_RIGHTS, 0))
  }

  function ExecuteSpawn(w: World, p: nat, picks: seq<(nat, GrantKind)>): Result<World, Violation> {
    if |w.shadow.procs| == MAX_PROCESSES then Ok(w)
    else if !Exists(w, p) then Err(Panicked)
    else
      var mt := w.shadow.procs[p].table;
      var gs := ConcreteGrants(mt, picks);
      if !Chosen(w.shadow, mt, gs) || exists c | 0 <= c < CHANNELS :: ChannelHandles(mt, c) == {} then Err(Panicked)
      else
        var result := w.sys.sched.SpawnChild(w.sys.kernel, w.shadow.procs[p].pid, ChannelGrants(mt) + ToGrants(gs));
        match (result, ApplyGrantsModel(w.shadow, p, gs))
        case (Err(_), None) => Ok(w)
        case (Ok(spawned), Some((sh, delivered))) => Born(w, p, spawned.0, spawned.1, sh, ChannelModels() + delivered)
        case _ => Err(Mismatch)
  }

  /** Two events, the spawn and the birth; and the child's table mirrored in handle order. */
  function Born(w: World, p: nat, k: KernelState, sched: Scheduling.SchedState, sh: Shadow, models: seq<CapModel>)
    : Result<World, Violation>
    requires Exists(w, p)
  {
    var parent, child := w.shadow.procs[p].pid, w.sys.sched.nextPid;
    if parent !in sched.procs || child !in sched.procs then Err(Panicked)
    else
      var t := sched.procs[child].table;
      var hs := Ascending(t.Keys);
      if |hs| != |models| then Err(Mismatch)
      else
        var ev := Record(w.events, p, sched.procs[parent].clock, []);
        var ev' := Record(ev.(last := ev.last + [None]), |sh.procs|, sched.procs[child].clock, [|w.events.stamps|]);
        Ok(World(w.sys.(kernel := k, sched := sched),
                 sh.(procs := sh.procs + [ProcModel(child, Mirror(map[], hs, models))], stash := sh.stash + Stashed(t, hs, models)),
                 ev'))
  }

  /** The capability an access uses and the model of it, if there is one to use. */
  function PickCap(w: World, p: nat, pick: Pick, wantRegion: bool): Result<Option<(Capability, CapModel)>, Violation> {
    match pick
    case FromTable(n) =>
      if !Exists(w, p) then Err(Panicked)
      else
        var mt := w.shadow.procs[p].table;
        var hs := Ascending(if wantRegion then RegionHandles(mt) else mt.Keys);
        if hs == [] then Ok(None) else PickHandle(w, p, hs[n % |hs|])
    case FromStash(n) =>
      var candidates := Candidates(w.shadow.stash, wantRegion);
      if candidates == [] then Ok(None) else Ok(Some(candidates[n % |candidates|]))
  }

  function PickHandle(w: World, p: nat, h: Handle): Result<Option<(Capability, CapModel)>, Violation>
    requires Exists(w, p)
  {
    if h in ProcOf(w, p).table && h in w.shadow.procs[p].table then
      Ok(Some((ProcOf(w, p).table[h], w.shadow.procs[p].table[h])))
    else Err(Panicked)
  }

  function ReadWith(w: World, cap: Capability, m: CapModel, offset: nat, len: nat): Result<World, Violation> {
    if !ValidObj(w.shadow, m.obj) then Err(Panicked)
    else
      var result := Regions.ReadBytes(w.sys.kernel, w.sys.store, cap, offset, len);
      match PredictAccess(w.shadow, m, {READ}, offset, len)
      case Err(e) => if result == Err(e) then Ok(w) else Err(Mismatch)
      case Ok(_) =>
        if m.obj.Region? && offset + len <= |w.shadow.regions[m.obj.r].bytes| then
          if result == Ok(w.shadow.regions[m.obj.r].bytes[offset..offset + len]) then Ok(w) else Err(Mismatch)
        else Err(Panicked)
  }

  function WriteWith(w: World, cap: Capability, m: CapModel, offset: nat, data: seq<byte>): Result<World, Violation> {
    if !ValidObj(w.shadow, m.obj) then Err(Panicked)
    else
      match (Regions.WriteBytes(w.sys.kernel, w.sys.store, cap, offset, data), PredictAccess(w.shadow, m, {WRITE}, offset, |data|))
      case (Err(e), Err(f)) => if e == f then Ok(w) else Err(Mismatch)
      case (Ok(store), Ok(_)) =>
        if m.obj.Region? && offset + |data| <= |w.shadow.regions[m.obj.r].bytes| then
          var model := w.shadow.regions[m.obj.r];
          Ok(Changed(w, m.obj.r, model.(bytes := Regions.Overwrite(model.bytes, offset, data)), w.sys.kernel, store))
        else Err(Panicked)
      case _ => Err(Mismatch)
  }

  /** One region's model replaced, next to what the kernel and the registry have become. */
  function Changed(w: World, r: nat, model: RegionModel, k: KernelState, store: Regions.Store): World
    requires r < |w.shadow.regions|
  {
    w.(sys := w.sys.(kernel := k, store := store), shadow := w.shadow.(regions := w.shadow.regions[r := model]))
  }

  function RevokeWith(w: World, cap: Capability, m: CapModel): Result<World, Violation> {
    if !ValidObj(w.shadow, m.obj) then Err(Panicked)
    else
      match (w.sys.kernel.Revoke(cap), PredictCheck(w.shadow, m, {DESTROY}))
      case (Err(e), Err(f)) => if e == f then Ok(w) else Err(Mismatch)
      case (Ok(k), Ok(_)) =>
        if m.obj.Region? then
          var model := w.shadow.regions[m.obj.r];
          Ok(Changed(w, m.obj.r, model.(epoch := model.epoch + 1), k, w.sys.store))
        else Err(Panicked)
      case _ => Err(Mismatch)
  }

  function DestroyWith(w: World, cap: Capability, m: CapModel): Result<World, Violation> {
    if !ValidObj(w.shadow, m.obj) then Err(Panicked)
    else
      match (Regions.DestroyRegion(w.sys.kernel, w.sys.store, cap), PredictCheck(w.shadow, m, {DESTROY}))
      case (Err(e), Err(f)) => if e == Regions.RegionCapability(f) then Ok(w) else Err(Mismatch)
      case (Ok((k, store)), Ok(_)) =>
        if m.obj.Region? then Ok(Changed(w, m.obj.r, w.shadow.regions[m.obj.r].(alive := false), k, store))
        else Err(Panicked)
      case _ => Err(Mismatch)
  }

  /** An access with the picked capability; with none to pick there is nothing to do. */
  function ExecuteAccess(w: World, op: ChaosOp): Result<World, Violation>
    requires op.Read? || op.Write? || op.Revoke? || op.Destroy?
  {
    var picked :- PickCap(w, op.p, op.pick, if op.Read? || op.Write? then op.regionsOnly else true);
    match picked
    case None => Ok(w)
    case Some((cap, m)) => AccessWith(w, op, cap, m)
  }

  function AccessWith(w: World, op: ChaosOp, cap: Capability, m: CapModel): Result<World, Violation>
    requires op.Read? || op.Write? || op.Revoke? || op.Destroy?
  {
    match op
    case Read(_, _, _, offset, len) => ReadWith(w, cap, m, offset, len)
    case Write(_, _, _, offset, len, fill) => WriteWith(w, cap, m, offset, seq(len, _ => fill))
    case Revoke(_, _) => RevokeWith(w, cap, m)
    case Destroy(_, _) => DestroyWith(w, cap, m)
  }

  /** Runs one operation on the kernel and on the model, and compares the outcomes. */
  function Execute(w: World, op: ChaosOp): Result<World, Violation> {
    match op
    case NewRegion(p, size) => ExecuteNewRegion(w, p, size)
    case Spawn(p, grants) => ExecuteSpawn(w, p, grants)
    case Send(p, channel, grants) => ExecuteSend(w, p, channel, grants)
    case Receive(p, channel) => ExecuteReceive(w, p, channel)
    case Read(_, _, _, _, _) => ExecuteAccess(w, op)
    case Write(_, _, _, _, _, _) => ExecuteAccess(w, op)
    case Revoke(_, _) => ExecuteAccess(w, op)
    case Destroy(_, _) => ExecuteAccess(w, op)
    case Local(p) => ExecuteLocal(w, p)
  }

  // ---- the sweep ----

  /** The first capability ever seen that the model says can read region `r`. */
  function Auditor(sh: Shadow, r: nat, n: nat): (a: Option<Capability>)
    requires n <= |sh.stash|
  {
    if n == 0 then None
    else
      match Auditor(sh, r, n - 1)
      case Some(cap) => Some(cap)
      case None => if Audits(sh, r, n - 1) then Some(sh.stash[n - 1].0) else None
  }

  predicate Audits(sh: Shadow, r: nat, i: nat)
    requires i < |sh.stash|
  {
    var m := sh.stash[i].1;
    m.obj == Region(r) && ValidObj(sh, m.obj) && PredictCheck(sh, m, {READ}).Ok?
  }

  predicate TableSwept(w: World, p: nat)
    requires p < |w.shadow.procs|
  {
    && Exists(w, p) && ProcOf(w, p).table.Keys == w.shadow.procs[p].table.Keys
    && forall h | h in w.shadow.procs[p].table ::
         var m, cap := w.shadow.procs[p].table[h], ProcOf(w, p).table[h];
         ValidObj(w.shadow, m.obj) && cap.obj == ObjectIdOf(w.shadow, m.obj) && cap.rights == m.rights
  }

  predicate StashSwept(w: World, i: nat)
    requires i < |w.shadow.stash|
  {
    var (cap, m) := w.shadow.stash[i];
    ValidObj(w.shadow, m.obj) && w.sys.kernel.Check(cap, NONE) == PredictCheck(w.shadow, m, NONE)
  }

  function CountAlive(regions: seq<RegionModel>): nat {
    if regions == [] then 0
    else CountAlive(regions[..|regions| - 1]) + if regions[|regions| - 1].alive then 1 else 0
  }

  predicate RegionSwept(w: World, r: nat)
    requires r < |w.shadow.regions|
  {
    match Auditor(w.shadow, r, |w.shadow.stash|)
    case None => true
    case Some(cap) => Regions.InspectBytes(w.sys.kernel, w.sys.store, cap) == Ok(w.shadow.regions[r].bytes)
  }

  /** The full-state audit: tables, liveness of everything ever held, the region count, region bytes. */
  predicate Swept(w: World) {
    && (forall p | 0 <= p < |w.shadow.procs| :: TableSwept(w, p))
    && (forall i | 0 <= i < |w.shadow.stash| :: StashSwept(w, i))
    && |w.sys.store| == CountAlive(w.shadow.regions)
    && (forall r | 0 <= r < |w.shadow.regions| :: RegionSwept(w, r))
  }
}
