/** IPC: queues of capability-carrying messages behind channel objects. WRITE sends, READ receives. */
module Channels {
  import opened Wrappers
  import opened Rights
  import opened Capabilities
  import opened Clocks
  import opened Processes
  import opened Transfers

  datatype Message = Message(data: int, caps: seq<Capability>, sentAt: Stamp)

  type Queues = map<ObjectId, seq<Message>>

  datatype Delivery = Delivery(data: int, handles: seq<Handle>, sentAt: Stamp, receivedAt: Stamp)

  datatype IpcError =
    | UnknownChannel(obj: ObjectId)
    | ChannelCapability(cap: CapError)
    | BadGrant(grant: GrantError)

  datatype Sent = Sent(kernel: KernelState, queues: Queues, sender: ProcState, stamp: Stamp)

  datatype Received = Received(queues: Queues, receiver: ProcState, delivery: Delivery)

  function NewChannel(k: KernelState, q: Queues): (KernelState, Queues, Capability) {
    var (k', cap) := k.NewObject(OWNER);
    (k', q[cap.obj := []], cap)
  }

  /** Authority, then the queue, then the batch; one send event if all of that succeeds. */
  function SendOutcome(k: KernelState, q: Queues, channel: Capability, p: ProcState, grants: seq<Grant>, data: int)
    : Result<Sent, IpcError>
  {
    var _ :- k.Check(channel, {WRITE}).MapErr(e => ChannelCapability(e));
    if channel.obj !in q then Err(UnknownChannel(channel.obj))
    else
      var a :- RunBatch(k, p.table, grants).MapErr(e => BadGrant(e));
      var stamp := LocalEvent(p.clock);
      Ok(Sent(a.kernel, q[channel.obj := q[channel.obj] + [Message(data, a.delivered, stamp)]],
              p.(table := a.table, clock := stamp), stamp))
  }

  /** Takes the oldest message; an empty queue is no event. */
  function ReceiveOutcome(k: KernelState, q: Queues, channel: Capability, p: ProcState): Result<Option<Received>, IpcError> {
    var _ :- k.Check(channel, {READ}).MapErr(e => ChannelCapability(e));
    if channel.obj !in q then Err(UnknownChannel(channel.obj))
    else if q[channel.obj] == [] then Ok(None)
    else
      var m := q[channel.obj][0];
      var stamp := ReceiveEvent(p.clock, m.sentAt);
      Ok(Some(Received(q[channel.obj := q[channel.obj][1..]], p.GrantAll(m.caps).(clock := stamp),
                       Delivery(m.data, HandlesFrom(p.nextHandle, |m.caps|), m.sentAt, stamp))))
  }

  /** A send succeeds exactly with authority, a queue and an admissible batch. It leaves what the
      batch took, and queues what the batch delivers behind everything already there. */
  lemma SendMeans(k: KernelState, q: Queues, channel: Capability, p: ProcState, grants: seq<Grant>, data: int)
    ensures SendOutcome(k, q, channel, p, grants, data).Ok? <==>
            k.Permits(channel, {WRITE}) && channel.obj in q && Admissible(k, p.table, grants)
    ensures SendOutcome(k, q, channel, p, grants, data).Ok? ==>
            var s := SendOutcome(k, q, channel, p, grants, data).value;
            var a := Effect(k, p.table, grants, |grants|);
            && s.kernel == a.kernel && s.sender == p.(table := a.table, clock := s.stamp)
            && s.stamp == LocalEvent(p.clock)
            && s.queues == q[channel.obj := q[channel.obj] + [Message(data, a.delivered, s.stamp)]]
  {
    BatchEffect(k, p.table, grants);
  }

  /** Why a send is refused: authority first, then the queue, then the batch. */
  lemma SendRefused(k: KernelState, q: Queues, channel: Capability, p: ProcState, grants: seq<Grant>, data: int)
    ensures var r := SendOutcome(k, q, channel, p, grants, data);
            && (!k.Permits(channel, {WRITE}) ==>
                  r.Err? && r.error.ChannelCapability? && Err(r.error.cap) == k.Check(channel, {WRITE}))
            && (k.Permits(channel, {WRITE}) && channel.obj !in q ==> r == Err(UnknownChannel(channel.obj)))
            && (k.Permits(channel, {WRITE}) && channel.obj in q && !Admissible(k, p.table, grants) ==>
                  r.Err? && r.error.BadGrant? && Err(r.error.grant) == Resolve(k, p.table, grants))
  {
    BatchEffect(k, p.table, grants);
    ResolveIffAdmissible(k, p.table, grants);
  }

  /** A receive is allowed exactly with authority to read and a queue, and finds nothing exactly when the
      queue is empty; a refusal says which of the two was missing. It needs no other right. */
  lemma ReceiveMeans(k: KernelState, q: Queues, channel: Capability, p: ProcState)
    ensures var r := ReceiveOutcome(k, q, channel, p);
            && (r.Ok? <==> k.Permits(channel, {READ}) && channel.obj in q)
            && (r == Ok(None) <==> k.Permits(channel, {READ}) && channel.obj in q && q[channel.obj] == [])
            && (!k.Permits(channel, {READ}) ==>
                  r.Err? && r.error.ChannelCapability? && Err(r.error.cap) == k.Check(channel, {READ}))
            && (k.Permits(channel, {READ}) && channel.obj !in q ==> r == Err(UnknownChannel(channel.obj)))
  {
  }

  /** A new channel starts empty, under an id no object has had, with a capability to send, receive, hand
      on and destroy; every other queue stays. */
  lemma NewChannelMeans(k: KernelState, q: Queues)
    requires k.Ordered() && forall o :: o in q ==> o < k.nextId
    ensures var (k', q', cap) := NewChannel(k, q);
            && cap.obj !in k.epochs && cap.obj !in q && cap.rights == {READ, WRITE, GRANT, DESTROY}
            && k'.Permits(cap, {READ, WRITE, GRANT, DESTROY}) && k'.Ordered()
            && q'.Keys == q.Keys + {cap.obj} && q'[cap.obj] == [] && forall o :: o in q ==> q'[o] == q[o]
  {
  }

  /** The receiver's new handles are unused ones, and resolve to what the message carried, in the
      order the sender's grants named it; nothing the receiver held changes. */
  ghost predicate DeliveredInOrder(before: ProcState, caps: seq<Capability>, handles: seq<Handle>, after: Table) {
    && |handles| == |caps|
    && (forall i :: 0 <= i < |caps| ==>
          handles[i] !in before.table && handles[i] in after && after[handles[i]] == caps[i])
    && (forall h :: h in before.table ==> h in after && after[h] == before.table[h])
    && (forall h :: h in after ==> h in before.table || h in handles)
  }

  lemma {:induction false} HandlesAreNew(p: ProcState, caps: seq<Capability>)
    requires p.HasRoom(|caps|)
    ensures var hs, t := HandlesFrom(p.nextHandle, |caps|), p.GrantAll(caps).table;
            forall i :: 0 <= i < |caps| ==> hs[i] !in p.table && hs[i] in t && t[hs[i]] == caps[i]
  {
    var hs, t := HandlesFrom(p.nextHandle, |caps|), p.GrantAll(caps).table;
    GrantAllEffect(p, caps);
    forall i | 0 <= i < |caps| ensures hs[i] !in p.table && hs[i] in t && t[hs[i]] == caps[i] {
      HandlesWithoutWrap(p.nextHandle, |caps|);
      assert hs[i] == p.nextHandle + i;
    }
  }

  lemma {:induction false} OnlyHandlesAreNew(p: ProcState, caps: seq<Capability>, h: Handle)
    requires p.HasRoom(|caps|) && h in p.GrantAll(caps).table && h !in p.table
    ensures h in HandlesFrom(p.nextHandle, |caps|)
  {
    GrantAllEffect(p, caps);
    HandlesWithoutWrap(p.nextHandle, |caps|);
    assert HandlesFrom(p.nextHandle, |caps|)[h - p.nextHandle] == h;
  }

  /** With room in the table, every carried capability arrives under a handle of its own. */
  lemma {:induction false} GrantAllDelivers(p: ProcState, caps: seq<Capability>)
    requires p.HasRoom(|caps|)
    ensures DeliveredInOrder(p, caps, HandlesFrom(p.nextHandle, |caps|), p.GrantAll(caps).table)
  {
    HandlesAreNew(p, caps);
    forall h | h in p.GrantAll(caps).table && h !in p.table ensures h in HandlesFrom(p.nextHandle, |caps|) {
      OnlyHandlesAreNew(p, caps, h);
    }
    forall h | h in p.table ensures h in p.GrantAll(caps).table && p.GrantAll(caps).table[h] == p.table[h] {
      GrantAllEffect(p, caps);
    }
  }

  /** A receive takes exactly the oldest message, and delivers all it carried. */
  lemma ReceiveDelivers(k: KernelState, q: Queues, channel: Capability, p: ProcState)
    requires var r := ReceiveOutcome(k, q, channel, p); r.Ok? && r.value.Some?
    requires p.HasRoom(|q[channel.obj][0].caps|)
    ensures var m := q[channel.obj][0]; var r := ReceiveOutcome(k, q, channel, p).value.value;
            && r.delivery.data == m.data && r.delivery.sentAt == m.sentAt
            && r.receiver.clock == r.delivery.receivedAt == ReceiveEvent(p.clock, m.sentAt)
            && DeliveredInOrder(p, m.caps, r.delivery.handles, r.receiver.table)
            && q[channel.obj] == [m] + r.queues[channel.obj]
  {
    GrantAllDelivers(p, q[channel.obj][0].caps);
  }

  class ChannelRegistry {
    var queues: Queues

    constructor ()
      ensures queues == map[]
    {
      queues := map[];
    }

    method New(kernel: Kernel) returns (cap: Capability)
      requires kernel.View().Ordered()
      modifies this, kernel
      ensures (kernel.View(), queues, cap) == NewChannel(old(kernel.View()), old(queues))
      ensures kernel.View().Ordered() && kernel.View().Permits(cap, OWNER)
    {
      cap := kernel.New(OWNER);
      queues := queues[cap.obj := []];
    }

    /** A rejected send changes nothing at all. */
    method Send(kernel: Kernel, channel: Capability, sender: Process, grants: seq<Grant>, data: int)
      returns (r: Result<Stamp, IpcError>)
      modifies this, kernel`epochs, sender`table, sender`clock
      ensures var s := old(SendOutcome(kernel.View(), queues, channel, sender.View(), grants, data));
              if s.Err? then
                r == Err(s.error) && kernel.View() == old(kernel.View()) && queues == old(queues) &&
                sender.View() == old(sender.View())
              else
                r == Ok(s.value.stamp) && kernel.View() == s.value.kernel && queues == s.value.queues &&
                sender.View() == s.value.sender
    {
      BatchEffect(kernel.View(), sender.table, grants);
      var checked := kernel.Check(channel, {WRITE});
      if checked.Err? {
        return Err(ChannelCapability(checked.error));
      }
      if channel.obj !in queues {
        return Err(UnknownChannel(channel.obj));
      }
      var resolved := ResolveGrants(kernel, sender, grants);
      if resolved.Err? {
        return Err(BadGrant(resolved.error));
      }
      var delivered := ApplyGrants(kernel, sender, grants, resolved.value);
      var stamp := sender.RecordSend();
      queues := queues[channel.obj := queues[channel.obj] + [Message(data, delivered, stamp)]];
      r := Ok(stamp);
    }

    /** Everything the oldest message carried goes straight into the receiver's table. */
    method Receive(kernel: Kernel, channel: Capability, receiver: Process)
      returns (r: Result<Option<Delivery>, IpcError>)
      modifies this, receiver`table, receiver`nextHandle, receiver`clock
      ensures var d := old(ReceiveOutcome(kernel.View(), queues, channel, receiver.View()));
              if d.Err? then r == Err(d.error) && queues == old(queues) && receiver.View() == old(receiver.View())
              else if d.value.None? then r == Ok(None) && queues == old(queues) && receiver.View() == old(receiver.View())
              else r == Ok(Some(d.value.value.delivery)) && queues == d.value.value.queues &&
                   receiver.View() == d.value.value.receiver
    {
      var checked := kernel.Check(channel, {READ});
      if checked.Err? {
        return Err(ChannelCapability(checked.error));
      }
      if channel.obj !in queues {
        return Err(UnknownChannel(channel.obj));
      }
      if queues[channel.obj] == [] {
        return Ok(None);
      }
      var m := queues[channel.obj][0];
      queues := queues[channel.obj := queues[channel.obj][1..]];
      GrantAllCounter(receiver.View(), m.caps);
      var handles := receiver.GrantEach(m.caps);
      var stamp := receiver.RecordReceive(m.sentAt);
      r := Ok(Some(Delivery(m.data, handles, m.sentAt, stamp)));
    }
  }
}
