/** What an operation of the harness really does: the kernel calls it stands for, how their arguments are
    chosen, and when exactly its comparison lets it pass. */
module ChaosSteps {
  import opened Wrappers
  import opened Rights
  import opened Capabilities
  import opened Clocks
  import opened Processes
  import opened Channels
  import opened Data
  import opened Machine
  import opened Chaos
  import opened ChaosMatch
  import opened ChaosWorld
  import opened ChaosOps
  import Causality
  import Regions
  import T = Transfers

  // ---- the kernel calls ----

  /** The state after a series of kernel operations. */
  function Performed(s: Sys, calls: seq<Op>): Sys
    decreases |calls|
  {
    if calls == [] then s else Performed(Step(s, calls[0]), calls[1..])
  }

  lemma {:induction false} PerformedOne(s: Sys, call: Op)
    ensures Performed(s, [call]) == Step(s, call)
  {
    assert [call][1..] == [];
  }

  lemma {:induction false} PerformedTwo(s: Sys, first: Op, second: Op)
    ensures Performed(s, [first, second]) == Step(Step(s, first), second)
  {
    assert [first, second][1..] == [second];
    PerformedOne(Step(s, first), second);
  }

  predicate IsAccess(op: ChaosOp) {
    op.Read? || op.Write? || op.Revoke? || op.Destroy?
  }

  /** The call an access makes with the capability it picked; reading changes nothing. */
  function AccessCalls(op: ChaosOp, cap: Capability): seq<Op>
    requires IsAccess(op)
  {
    match op
    case Read(_, _, _, _, _) => []
    case Write(_, _, _, offset, len, fill) => [WriteTo(cap, offset, seq(len, _ => fill))]
    case Revoke(_, _) => [RevokeObject(cap)]
    case Destroy(_, _) => [DestroyIn(cap)]
  }

  predicate RegionsOnly(op: ChaosOp)
    requires IsAccess(op)
  {
    if op.Read? || op.Write? then op.regionsOnly else true
  }

  /** The kernel calls operation `op` stands for. */
  function CallsOf(w: World, op: ChaosOp): seq<Op>
    requires Exists(w, op.p)
  {
    var pid, mt := w.shadow.procs[op.p].pid, w.shadow.procs[op.p].table;
    match op
    case NewRegion(_, size) => [MakeRegion(size), Give(pid, Capability(w.sys.kernel.nextId, OWNER, 0))]
    case Spawn(_, picks) =>
      if |w.shadow.procs| == MAX_PROCESSES || exists c | 0 <= c < CHANNELS :: ChannelHandles(mt, c) == {} then []
      else [SpawnFrom(pid, ChannelGrants(mt) + ToGrants(ConcreteGrants(mt, picks)))]
    case Send(p, channel, picks) =>
      (match ChannelCap(w, p, channel) case None => [] case Some(cap) => [SendOn(cap, pid, ToGrants(ConcreteGrants(mt, picks)), 0)])
    case Receive(p, channel) => (match ChannelCap(w, p, channel) case None => [] case Some(cap) => [ReceiveOn(cap, pid)])
    case Local(_) => [Op.Local(pid)]
    case _ =>
      match PickCap(w, op.p, op.pick, RegionsOnly(op))
      case Ok(Some(picked)) => AccessCalls(op, picked.0)
      case _ => []
  }

  lemma NewRegionCalls(w: World, p: nat, size: nat)
    requires Exists(w, p)
    ensures ExecuteNewRegion(w, p, size).Ok? &&
            ExecuteNewRegion(w, p, size).value.sys == Performed(w.sys, CallsOf(w, NewRegion(p, size)))
  {
    var calls := CallsOf(w, NewRegion(p, size));
    PerformedTwo(w.sys, calls[0], calls[1]);
  }

  lemma SpawnCalls(w: World, p: nat, picks: seq<(nat, GrantKind)>)
    requires Exists(w, p) && ExecuteSpawn(w, p, picks).Ok?
    ensures ExecuteSpawn(w, p, picks).value.sys == Performed(w.sys, CallsOf(w, Spawn(p, picks)))
  {
    var calls := CallsOf(w, Spawn(p, picks));
    if calls != [] {
      PerformedOne(w.sys, calls[0]);
    }
  }

  lemma SendCalls(w: World, p: nat, channel: nat, picks: seq<(nat, GrantKind)>)
    requires Exists(w, p) && ExecuteSend(w, p, channel, picks).Ok?
    ensures ExecuteSend(w, p, channel, picks).value.sys == Performed(w.sys, CallsOf(w, Send(p, channel, picks)))
  {
    PerformedOne(w.sys, CallsOf(w, Send(p, channel, picks))[0]);
  }

  lemma ReceiveCalls(w: World, p: nat, channel: nat)
    requires Exists(w, p) && ExecuteReceive(w, p, channel).Ok?
    ensures ExecuteReceive(w, p, channel).value.sys == Performed(w.sys, CallsOf(w, Receive(p, channel)))
  {
    PerformedOne(w.sys, CallsOf(w, Receive(p, channel))[0]);
  }

  lemma LocalCalls(w: World, p: nat)
    requires Exists(w, p)
    ensures ExecuteLocal(w, p).Ok? && ExecuteLocal(w, p).value.sys == Performed(w.sys, CallsOf(w, ChaosOp.Local(p)))
  {
    PerformedOne(w.sys, Op.Local(w.shadow.procs[p].pid));
  }

  lemma AccessWithCalls(w: World, op: ChaosOp, cap: Capability, m: CapModel)
    requires IsAccess(op) && AccessWith(w, op, cap, m).Ok?
    ensures AccessWith(w, op, cap, m).value.sys == Performed(w.sys, AccessCalls(op, cap))
  {
    var calls := AccessCalls(op, cap);
    if calls != [] {
      PerformedOne(w.sys, calls[0]);
    }
  }

  lemma AccessIsCalls(w: World, op: ChaosOp)
    requires Exists(w, op.p) && IsAccess(op) && ExecuteAccess(w, op).Ok?
    ensures ExecuteAccess(w, op).value.sys == Performed(w.sys, CallsOf(w, op))
  {
    var picked := PickCap(w, op.p, op.pick, RegionsOnly(op)).value;
    if picked.Some? {
      AccessWithCalls(w, op, picked.value.0, picked.value.1);
    }
  }

  /** On the kernel's side an operation of the harness is exactly the calls it stands for. */
  lemma ExecuteIsCalls(w: World, op: ChaosOp)
    requires Exists(w, op.p) && Execute(w, op).Ok?
    ensures Execute(w, op).value.sys == Performed(w.sys, CallsOf(w, op))
  {
    match op
    case NewRegion(p, size) => NewRegionCalls(w, p, size);
    case Spawn(p, picks) => SpawnCalls(w, p, picks);
    case Send(p, channel, picks) => SendCalls(w, p, channel, picks);
    case Receive(p, channel) => ReceiveCalls(w, p, channel);
    case Local(p) => LocalCalls(w, p);
    case _ => AccessIsCalls(w, op);
  }

  // ---- what is compared ----

  /** The kernel's answer to an access; what it read, or nothing. */
  function KernelAnswer(s: Sys, op: ChaosOp, cap: Capability): Result<seq<byte>, Regions.MemoryError>
    requires IsAccess(op)
  {
    match op
    case Read(_, _, _, offset, len) => Regions.ReadBytes(s.kernel, s.store, cap, offset, len)
    case Write(_, _, _, offset, len, fill) =>
      (match Regions.WriteBytes(s.kernel, s.store, cap, offset, seq(len, _ => fill)) case Ok(_) => Ok([]) case Err(e) => Err(e))
    case Revoke(_, _) => (match s.kernel.Revoke(cap) case Ok(_) => Ok([]) case Err(e) => Err(Regions.RegionCapability(e)))
    case Destroy(_, _) => (match Regions.DestroyRegion(s.kernel, s.store, cap) case Ok(_) => Ok([]) case Err(e) => Err(e))
  }

  function Answered<E>(r: Result<Unit, E>, bytes: seq<byte>): Result<seq<byte>, E> {
    match r case Ok(_) => Ok(bytes) case Err(e) => Err(e)
  }

  /** What the model says the answer must be. */
  function ModelAnswer(sh: Shadow, op: ChaosOp, m: CapModel): Result<seq<byte>, Regions.MemoryError>
    requires IsAccess(op) && ValidObj(sh, m.obj)
  {
    match op
    case Read(_, _, _, offset, len) =>
      var r := PredictAccess(sh, m, {READ}, offset, len);
      if r.Ok? then Ok(sh.regions[m.obj.r].bytes[offset..offset + len]) else Err(r.error)
    case Write(_, _, _, offset, len, _) => Answered(PredictAccess(sh, m, {WRITE}, offset, len), [])
    case _ => Answered(PredictCheck(sh, m, {DESTROY}).MapErr(e => Regions.RegionCapability(e)), [])
  }

  /** What an accepted access makes of the region's model. */
  function RegionAfter(r: RegionModel, op: ChaosOp): RegionModel {
    match op
    case Write(_, _, _, offset, len, fill) =>
      if offset + len <= |r.bytes| then r.(bytes := Regions.Overwrite(r.bytes, offset, seq(len, _ => fill))) else r
    case Revoke(_, _) => r.(epoch := r.epoch + 1)
    case Destroy(_, _) => r.(alive := false)
    case _ => r
  }

  function ShadowAfter(sh: Shadow, op: ChaosOp, m: CapModel): Shadow
    requires IsAccess(op) && ValidObj(sh, m.obj)
  {
    if m.obj.Region? && ModelAnswer(sh, op, m).Ok? then
      sh.(regions := sh.regions[m.obj.r := RegionAfter(sh.regions[m.obj.r], op)])
    else sh
  }

  /** An access passes exactly if the kernel answers what the model says, and then both have changed as
      the answer says. */
  lemma AccessCompares(w: World, op: ChaosOp, cap: Capability, m: CapModel)
    requires IsAccess(op) && ValidObj(w.shadow, m.obj) && (op.Revoke? || op.Destroy? ==> IsRegion(m))
    ensures AccessWith(w, op, cap, m) ==
            if KernelAnswer(w.sys, op, cap) == ModelAnswer(w.shadow, op, m)
            then Ok(World(Performed(w.sys, AccessCalls(op, cap)), ShadowAfter(w.shadow, op, m), w.events))
            else Err(Mismatch)
  {
    match op
    case Read(_, _, _, offset, len) => ReadCompares(w, op, cap, m);
    case Write(_, _, _, _, _, _) => WriteCompares(w, op, cap, m);
    case Revoke(_, _) => RevokeCompares(w, op, cap, m);
    case Destroy(_, _) => DestroyCompares(w, op, cap, m);
  }

  lemma ReadCompares(w: World, op: ChaosOp, cap: Capability, m: CapModel)
    requires op.Read? && ValidObj(w.shadow, m.obj)
    ensures ReadWith(w, cap, m, op.offset, op.len) ==
            if KernelAnswer(w.sys, op, cap) == ModelAnswer(w.shadow, op, m) then Ok(w) else Err(Mismatch)
    ensures ShadowAfter(w.shadow, op, m) == w.shadow
  {
  }

  lemma WriteCompares(w: World, op: ChaosOp, cap: Capability, m: CapModel)
    requires op.Write? && ValidObj(w.shadow, m.obj)
    ensures AccessWith(w, op, cap, m) ==
            if KernelAnswer(w.sys, op, cap) == ModelAnswer(w.shadow, op, m)
            then Ok(World(Performed(w.sys, AccessCalls(op, cap)), ShadowAfter(w.shadow, op, m), w.events))
            else Err(Mismatch)
  {
    PerformedOne(w.sys, AccessCalls(op, cap)[0]);
  }

  lemma RevokeCompares(w: World, op: ChaosOp, cap: Capability, m: CapModel)
    requires op.Revoke? && ValidObj(w.shadow, m.obj) && IsRegion(m)
    ensures AccessWith(w, op, cap, m) ==
            if KernelAnswer(w.sys, op, cap) == ModelAnswer(w.shadow, op, m)
            then Ok(World(Performed(w.sys, AccessCalls(op, cap)), ShadowAfter(w.shadow, op, m), w.events))
            else Err(Mismatch)
  {
    PerformedOne(w.sys, RevokeObject(cap));
  }

  lemma DestroyCompares(w: World, op: ChaosOp, cap: Capability, m: CapModel)
    requires op.Destroy? && ValidObj(w.shadow, m.obj) && IsRegion(m)
    ensures AccessWith(w, op, cap, m) ==
            if KernelAnswer(w.sys, op, cap) == ModelAnswer(w.shadow, op, m)
            then Ok(World(Performed(w.sys, AccessCalls(op, cap)), ShadowAfter(w.shadow, op, m), w.events))
            else Err(Mismatch)
  {
    PerformedOne(w.sys, DestroyIn(cap));
  }

  /** In a matching world the kernel answers every access exactly as the model says, the bytes read and the
      error's fields included. */
  lemma AnswersAgree(w: World, op: ChaosOp, cap: Capability, m: CapModel)
    requires IdsMatch(w.shadow, w.sys.kernel) && StoreMatches(w.shadow.regions, w.sys.store) && CapMatches(w.shadow, cap, m)
    requires IsAccess(op) && (op.Revoke? || op.Destroy? ==> IsRegion(m))
    ensures KernelAnswer(w.sys, op, cap) == ModelAnswer(w.shadow, op, m)
  {
    AccessAgrees(w, op, cap, m);
    AccessCompares(w, op, cap, m);
  }

  /** A send passes exactly if kernel and model agree on whether the batch is accepted. */
  lemma SendCompares(w: World, p: nat, channel: nat, picks: seq<(nat, GrantKind)>)
    requires Exists(w, p) && channel < |w.shadow.inFlight| && ChannelCap(w, p, channel).Some?
    requires Chosen(w.shadow, w.shadow.procs[p].table, ConcreteGrants(w.shadow.procs[p].table, picks))
    ensures var gs := ConcreteGrants(w.shadow.procs[p].table, picks);
            var accepted := SendOutcome(w.sys.kernel, w.sys.queues, ChannelCap(w, p, channel).value, ProcOf(w, p), ToGrants(gs), 0).Ok?;
            if accepted == ApplyGrantsModel(w.shadow, p, gs).Some? then ExecuteSend(w, p, channel, picks).Ok?
            else ExecuteSend(w, p, channel, picks) == Err(Mismatch)
  {
  }

  /** A spawn that only one of the two accepts is a mismatch. */
  lemma SpawnCompares(w: World, p: nat, picks: seq<(nat, GrantKind)>)
    requires Exists(w, p) && |w.shadow.procs| != MAX_PROCESSES
    requires Chosen(w.shadow, w.shadow.procs[p].table, ConcreteGrants(w.shadow.procs[p].table, picks))
    requires forall c :: 0 <= c < CHANNELS ==> ChannelHandles(w.shadow.procs[p].table, c) != {}
    ensures var mt := w.shadow.procs[p].table;
            var gs := ConcreteGrants(mt, picks);
            var accepted := w.sys.sched.SpawnChild(w.sys.kernel, w.shadow.procs[p].pid, ChannelGrants(mt) + ToGrants(gs)).Ok?;
            accepted != ApplyGrantsModel(w.shadow, p, gs).Some? ==> ExecuteSpawn(w, p, picks) == Err(Mismatch)
  {
  }

  /** What a receive must agree on: whether there is a message, its stamp and how much it carries. */
  predicate SameDelivery(w: World, r: Option<Received>, expected: seq<MessageModel>) {
    if r.None? then expected == []
    else
      && expected != [] && expected[0].sendEvent < |w.events.stamps|
      && r.value.delivery.sentAt == w.events.stamps[expected[0].sendEvent] && |r.value.delivery.handles| == |expected[0].caps|
  }

  /** A receive that is refused, or delivers what the model does not hold in flight, is a mismatch. */
  lemma ReceiveCompares(w: World, p: nat, channel: nat)
    requires Exists(w, p) && channel < |w.shadow.inFlight| && ChannelCap(w, p, channel).Some?
    ensures var r := ReceiveOutcome(w.sys.kernel, w.sys.queues, ChannelCap(w, p, channel).value, ProcOf(w, p));
            r.Err? || !SameDelivery(w, r.value, w.shadow.inFlight[channel]) ==> ExecuteReceive(w, p, channel) == Err(Mismatch)
  {
  }

  // ---- how the arguments are chosen ----

  function Smaller(s: set<Handle>, h: Handle): set<Handle> {
    set k | k in s && k < h
  }

  lemma SmallerNext(s: set<Handle>, h: Handle)
    requires s != {} && h in s && h != Least(s)
    ensures |Smaller(s, h)| == |Smaller(s - {Least(s)}, h)| + 1
  {
    var rest := Smaller(s - {Least(s)}, h);
    assert Smaller(s, h) == rest + {Least(s)};
    assert Least(s) !in rest;
  }

  lemma SmallerNone(s: set<Handle>)
    requires s != {}
    ensures |Smaller(s, Least(s))| == 0
  {
    assert Smaller(s, Least(s)) == {};
  }

  /** Position `i` of the ascending listing holds the member with exactly `i` smaller ones. */
  lemma {:induction false} AscendingAt(s: set<Handle>, i: nat)
    requires i < |s|
    ensures |Ascending(s)| == |s| && Ascending(s)[i] in s && |Smaller(s, Ascending(s)[i])| == i
  {
    AscendingSize(s);
    if i == 0 {
      SmallerNone(s);
    } else {
      var rest := s - {Least(s)};
      AscendingAt(rest, i - 1);
      assert Ascending(s)[i] == Ascending(rest)[i - 1];
      SmallerNext(s, Ascending(s)[i]);
    }
  }

  lemma {:induction false} AscendingSize(s: set<Handle>)
    ensures |Ascending(s)| == |s|
  {
    if s != {} {
      AscendingSize(s - {Least(s)});
    }
  }

  /** Handle `h` is choice number `n` among `s`, counting round in ascending order. */
  ghost predicate Nth(s: set<Handle>, n: nat, h: Handle) {
    s != {} && h in s && |Smaller(s, h)| == n % |s|
  }

  lemma NthIs(s: set<Handle>, n: nat)
    requires s != {}
    ensures |Ascending(s)| == |s| && Nth(s, n, Ascending(s)[n % |s|])
  {
    AscendingAt(s, n % |s|);
  }

  /** The handles an access may pick from. */
  function Choices(mt: TableModel, wantRegion: bool): set<Handle> {
    set h | h in mt && (wantRegion ==> IsRegion(mt[h]))
  }

  /** A pick from a table takes the handle counted off in ascending order among those of the wanted kind,
      and with it the kernel's capability and the model of it; with none of the kind it picks nothing. */
  lemma TablePickMeans(w: World, p: nat, n: nat, wantRegion: bool) returns (h: Handle)
    requires Exists(w, p) && w.shadow.procs[p].table.Keys == ProcOf(w, p).table.Keys
    ensures var mt, r := w.shadow.procs[p].table, PickCap(w, p, FromTable(n), wantRegion);
            var s := Choices(mt, wantRegion);
            if s == {} then r == Ok(None) else Nth(s, n, h) && r == Ok(Some((ProcOf(w, p).table[h], mt[h])))
  {
    var mt := w.shadow.procs[p].table;
    var s := Choices(mt, wantRegion);
    assert s == if wantRegion then RegionHandles(mt) else mt.Keys;
    h := 0;
    if s != {} {
      NthIs(s, n);
      h := Ascending(s)[n % |s|];
    }
  }

  predicate Wanted(m: CapModel, wantRegion: bool) {
    wantRegion ==> IsRegion(m)
  }

  /** The places of the wanted entries among the first `n`. */
  function WantedBefore(stash: seq<(Capability, CapModel)>, wantRegion: bool, n: nat): set<nat>
    requires n <= |stash|
  {
    set k: nat | k < n && Wanted(stash[k].1, wantRegion)
  }

  lemma WantedNext(stash: seq<(Capability, CapModel)>, wantRegion: bool)
    requires stash != []
    ensures var n := |stash| - 1;
            WantedBefore(stash, wantRegion, n + 1) ==
            WantedBefore(stash[..n], wantRegion, n) + if Wanted(stash[n].1, wantRegion) then {n} else {}
  {
  }

  lemma {:induction false} WantedCount(stash: seq<(Capability, CapModel)>, wantRegion: bool)
    ensures |Candidates(stash, wantRegion)| == |WantedBefore(stash, wantRegion, |stash|)|
  {
    if stash == [] {
      assert WantedBefore(stash, wantRegion, 0) == {};
    } else {
      WantedNext(stash, wantRegion);
      WantedCount(stash[..|stash| - 1], wantRegion);
    }
  }

  /** Entry `i` is choice number `n` among the wanted ones, counting round in the order they were seen. */
  ghost predicate NthSeen(stash: seq<(Capability, CapModel)>, wantRegion: bool, n: nat, i: nat) {
    i < |stash| && Wanted(stash[i].1, wantRegion) && |WantedBefore(stash, wantRegion, i)| == n
  }

  lemma {:induction false} CandidateAt(stash: seq<(Capability, CapModel)>, wantRegion: bool, j: nat) returns (i: nat)
    requires j < |Candidates(stash, wantRegion)|
    ensures NthSeen(stash, wantRegion, j, i) && Candidates(stash, wantRegion)[j] == stash[i]
    decreases |stash|
  {
    var n := |stash| - 1;
    if j < |Candidates(stash[..n], wantRegion)| {
      i := CandidateAt(stash[..n], wantRegion, j);
      assert WantedBefore(stash, wantRegion, i) == WantedBefore(stash[..n], wantRegion, i);
    } else {
      i := n;
      WantedCount(stash[..n], wantRegion);
      assert WantedBefore(stash, wantRegion, n) == WantedBefore(stash[..n], wantRegion, n);
    }
  }

  /** A pick from everything ever held takes the entry counted off among those of the wanted kind, oldest
      first; with none of the kind it picks nothing. */
  lemma StashPickMeans(w: World, p: nat, n: nat, wantRegion: bool) returns (i: nat)
    ensures var stash, r := w.shadow.stash, PickCap(w, p, FromStash(n), wantRegion);
            var count := |WantedBefore(stash, wantRegion, |stash|)|;
            if count == 0 then r == Ok(None)
            else NthSeen(stash, wantRegion, n % count, i) && r == Ok(Some(stash[i]))
  {
    WantedCount(w.shadow.stash, wantRegion);
    var cs := Candidates(w.shadow.stash, wantRegion);
    i := 0;
    if cs != [] {
      i := CandidateAt(w.shadow.stash, wantRegion, n % |cs|);
    }
  }

  /** The choices made for the picks: each names a region of the process, by number in ascending order of
      handle, for what it was picked for. */
  ghost predicate Counted(s: set<Handle>, picks: seq<(nat, GrantKind)>, gs: seq<Choice>) {
    |gs| == |picks| && forall i :: 0 <= i < |gs| ==> Nth(s, picks[i].0, gs[i].0) && gs[i].1 == picks[i].1
  }

  /** The harness's grants are counted off among the process's regions; a process without any grants nothing. */
  lemma GrantPicksMean(mt: TableModel, picks: seq<(nat, GrantKind)>)
    ensures if RegionHandles(mt) == {} then ConcreteGrants(mt, picks) == []
            else Counted(RegionHandles(mt), picks, ConcreteGrants(mt, picks))
  {
    var s, gs := RegionHandles(mt), ConcreteGrants(mt, picks);
    if s != {} {
      assert |gs| == |picks|;
      forall i | 0 <= i < |gs| ensures Nth(s, picks[i].0, gs[i].0) && gs[i].1 == picks[i].1 {
        NthIs(s, picks[i].0);
        assert gs[i] == ChoiceOf(Ascending(s), picks[i]);
      }
    }
  }

  /** The channel capability is the one under the process's least handle for that channel. */
  lemma ChannelCapMeans(w: World, p: nat, channel: nat) returns (h: Handle)
    requires Exists(w, p) && ChannelCap(w, p, channel).Some?
    ensures var mt := w.shadow.procs[p].table;
            && h in mt && mt[h].obj == Channel(channel) && (forall k :: k in mt && mt[k].obj == Channel(channel) ==> h <= k)
            && h in ProcOf(w, p).table && ChannelCap(w, p, channel) == Some(ProcOf(w, p).table[h])
  {
    var mt := w.shadow.procs[p].table;
    h := Least(ChannelHandles(mt, channel));
    forall k | k in mt && mt[k].obj == Channel(channel) ensures h <= k {
      assert k in ChannelHandles(mt, channel);
    }
  }
}
