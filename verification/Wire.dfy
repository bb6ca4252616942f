// What goes over the wire within an epoch: the bytes written are the payloads in staging
// order, and responses are delivered first in, first out.

module Wire {
  import opened Resp3
  import opened Parsing
  import opened Queue
  import opened Connection
  import opened Stream
  import opened Multiplexer
  import opened Phases
  import opened Conservation

  /** The response slots that have been filled, in order. */
  function Delivered(rs: seq<Routed>): seq<Slot> {
    if rs == [] then [] else (if rs[0].sink.ToSlot? then [rs[0].sink.slot] else []) + Delivered(rs[1..])
  }

  lemma {:induction false} DeliveredSnoc(rs: seq<Routed>, r: Routed)
    ensures Delivered(rs + [r]) == Delivered(rs) + if r.sink.ToSlot? then [r.sink.slot] else []
  {
    if rs == [] {
      assert [] + [r] == [r];
    } else {
      assert (rs + [r])[1..] == rs[1..] + [r];
      DeliveredSnoc(rs[1..], r);
      Regroup(if rs[0].sink.ToSlot? then [rs[0].sink.slot] else [], Delivered(rs[1..]),
              if r.sink.ToSlot? then [r.sink.slot] else []);
    }
  }

  /** In an epoch: filled slots followed by owed slots are the slots of everything staged, in
      staging order; the bytes handed to the socket are the staged payloads; and the counters
      have grown accordingly. */
  ghost predicate WireInv(s: System) {
    var l, u := s.log, s.conn.usage;
    Active(s) ==>
      && Delivered(l.routed) + Owed(s.conn.reqs) == AllSlots(l.staged)
      && l.sent == Payloads(l.staged) && AllCounted(l.staged)
      && u.bytesSent == l.base.bytesSent + |l.sent|
      && u.commandsSent == l.base.commandsSent + |AllSlots(l.staged)|
      && u.responsesReceived == l.base.responsesReceived + |Delivered(l.routed)|
      && u.pushesReceived + |Delivered(l.routed)| == l.base.pushesReceived + |l.routed|
  }

  ghost predicate SameWireLog(l: Log, m: Log) {
    l.staged == m.staged && l.sent == m.sent && l.base == m.base && l.routed == m.routed
  }

  lemma WireFrame(s: System, t: System)
    requires WireInv(s) && (Active(t) ==> Active(s))
    requires Owed(t.conn.reqs) == Owed(s.conn.reqs) && t.conn.usage == s.conn.usage && SameWireLog(s.log, t.log)
    ensures WireInv(t)
  {
  }

  lemma InsertOwes(q: seq<Info>, i: Info)
    requires Sorted(q) && AllCounted(q) && IsWaiting(i) && Counted(i)
    ensures Owed(Insert(q, i)) == Owed(q)
  {
    InsertKeeps(q, i, 0);
    AppendKeeps(q, i);
  }

  lemma {:induction false} RemaindersAreSlots(q: seq<Info>)
    requires AllCounted(q)
    ensures Remainders(q) == |AllSlots(q)|
  {
    if q != [] {
      assert Counted(q[0]);
      RemaindersAreSlots(q[1..]);
    }
  }

  lemma StagedWire(s: System, t: System, w: seq<Info>)
    requires WireInv(s) && Active(s) && AllCounted(w)
    requires Owed(t.conn.reqs) == Owed(s.conn.reqs) + AllSlots(w)
    requires t.log.staged == s.log.staged + w && t.log.sent == s.log.sent + Payloads(w)
    requires t.log.base == s.log.base && t.log.routed == s.log.routed
    requires t.conn.usage == s.conn.usage.(commandsSent := s.conn.usage.commandsSent + Remainders(w),
                                           bytesSent := s.conn.usage.bytesSent + |Payloads(w)|)
    ensures WireInv(t)
  {
    RemaindersAreSlots(w);
    Regroup(Delivered(s.log.routed), Owed(s.conn.reqs), AllSlots(w));
    AllSlotsConcat(s.log.staged, w);
    PayloadsConcat(s.log.staged, w);
  }

  lemma StagesNothing(s: System)
    requires Sane(s) && WireInv(s) && Active(s) && s.writer.Running? && Filter(IsWaiting, s.conn.reqs) == []
    ensures WireInv(DoCoalesce(s))
  {
    StageKeeps(s.conn.reqs);
    AppendNothing(Owed(s.conn.reqs));
    WireFrame(s, DoCoalesce(s));
  }

  lemma StagesSome(s: System, w: seq<Info>)
    requires Sane(s) && WireInv(s) && Active(s) && s.writer.Running? && w == Filter(IsWaiting, s.conn.reqs) != []
    ensures WireInv(DoCoalesce(s))
  {
    StageKeeps(s.conn.reqs);
    FilterKeeps(IsWaiting, s.conn.reqs, 0);
    AppendNothing(Payloads(w));
    StagedWire(s, DoCoalesce(s), w);
  }

  lemma CoalesceWire(s: System)
    requires Sane(s) && WireInv(s) && s.writer.Running?
    ensures WireInv(DoCoalesce(s))
  {
    if s.conn.isOpen {
      if Filter(IsWaiting, s.conn.reqs) == [] {
        StagesNothing(s);
      } else {
        StagesSome(s, Filter(IsWaiting, s.conn.reqs));
      }
    }
  }

  lemma StartWire(s: System)
    requires Sane(s) && Enabled(s, Start)
    ensures WireInv(DoStart(s))
  {
    FilterNone(NotWaiting, s.conn.reqs);
  }

  /** A message that goes to a slot goes to the first one owed. */
  lemma SinkIsFirstOwed(c: Conn)
    requires c.readBuffer != "" && AllCounted(c.reqs) && !(c.onPush || IsNextPush(c))
    ensures Owed(c.reqs) != [] && CurrentSink(c) == ToSlot(Owed(c.reqs)[0])
  {
    assert Counted(c.reqs[0]);
    AnswerOwes(c.reqs, 0);
  }

  lemma ResponseWire(s: System, t: System, sink: Sink, m: Message)
    requires WireInv(s) && Active(s) && AllCounted(s.conn.reqs)
    requires s.conn.readBuffer != "" && !(s.conn.onPush || IsNextPush(s.conn)) && sink == CurrentSink(s.conn)
    requires t.conn.reqs == Answer(s.conn.reqs, m.size)
    requires t.conn.usage == s.conn.usage.(responsesReceived := s.conn.usage.responsesReceived + 1,
                                           responseBytes := t.conn.usage.responseBytes)
    requires t.log.staged == s.log.staged && t.log.sent == s.log.sent && t.log.base == s.log.base
    requires t.log.routed == s.log.routed + [Routed(sink, m)]
    ensures WireInv(t)
  {
    SinkIsFirstOwed(s.conn);
    AnswerOwes(s.conn.reqs, m.size);
    DeliveredSnoc(s.log.routed, Routed(sink, m));
    Regroup(Delivered(s.log.routed), [sink.slot], Owed(t.conn.reqs));
  }

  lemma PushWire(s: System, t: System, m: Message)
    requires WireInv(s) && Active(s) && t.conn.reqs == s.conn.reqs
    requires t.conn.usage == s.conn.usage.(pushesReceived := s.conn.usage.pushesReceived + 1,
                                           pushBytes := t.conn.usage.pushBytes)
    requires t.log.staged == s.log.staged && t.log.sent == s.log.sent && t.log.base == s.log.base
    requires t.log.routed == s.log.routed + [Routed(ToPush, m)]
    ensures WireInv(t)
  {
    DeliveredSnoc(s.log.routed, Routed(ToPush, m));
    assert Delivered(s.log.routed) + [] == Delivered(s.log.routed);
  }

  lemma ResumeWire(s: System, r: Reading)
    requires Sane(s) && WireInv(s) && !s.reader.ReaderOff? && s.conn.isOpen
    requires s.conn.readBuffer != "" && Fair(s.conn, r)
    ensures WireInv(Resume(s, r))
  {
    var t := Resume(s, r);
    match r.result {
      case ResponseRead => ResponseWire(s, t, CurrentSink(s.conn), Message(r.nodes, r.size));
      case PushRead => PushWire(s, t, Message(r.nodes, r.size));
      case MoreNeeded => WireFrame(s, t);
      case ReadError => assert !Active(t);
      case ReadFault =>
    }
  }

  lemma DispatchWire(s: System, rejects: Adapter)
    requires Sane(s) && WireInv(s) && Enabled(s, Dispatch(rejects))
    ensures WireInv(DoDispatch(s, rejects))
  {
    if s.conn.isOpen {
      ResumeWire(s, OnRead(s.conn, s.log.nodes, rejects));
    }
  }

  lemma CancelOneWire(s: System, id: nat)
    requires Sane(s) && IdInv(s) && WireInv(s) && QueuedWaiting(s.conn.reqs, id)
    ensures WireInv(DoCancelOne(s, id))
  {
    CancelledIsWaiting(s, id);
    RemoveKeeps(s.conn.reqs, id);
    WireFrame(s, DoCancelOne(s, id));
  }

  lemma WireStep(s: System, a: Action)
    requires Sane(s) && IdInv(s) && WireInv(s) && Enabled(s, a)
    ensures WireInv(Next(s, a))
  {
    var q, t := s.conn.reqs, Next(s, a);
    match a {
      case Exec(req) =>
        InsertOwes(q, Info(s.log.nextId, req, req.expected, Waiting, 0));
        WireFrame(s, t);
      case CancelExec =>
        CancelKeeps(q);
        WireFrame(s, t);
      case CancelOne(id) => CancelOneWire(s, id);
      case WriteDone =>
        WriteKeeps(q);
        WireFrame(s, t);
      case Start => StartWire(s);
      case Coalesce => CoalesceWire(s);
      case Dispatch(rejects) => DispatchWire(s, rejects);
      case _ =>
    }
  }

  // ---- Each request is staged once

  /** What has been staged in this epoch and what is still to be staged. */
  ghost function Stageable(q: seq<Info>, staged: seq<Info>): multiset<nat> {
    multiset(Ids(staged)) + multiset(Ids(Filter(IsWaiting, q)))
  }

  ghost predicate OnceInv(s: System) {
    Active(s) ==> forall id: nat :: Stageable(s.conn.reqs, s.log.staged)[id] <= if id < s.log.nextId then 1 else 0
  }

  lemma OnceFrame(s: System, t: System)
    requires OnceInv(s) && (Active(t) ==> Active(s)) && t.log.staged == s.log.staged && t.log.nextId == s.log.nextId
    requires multiset(Ids(Filter(IsWaiting, t.conn.reqs))) <= multiset(Ids(Filter(IsWaiting, s.conn.reqs)))
    ensures OnceInv(t)
  {
    if Active(t) {
      forall id: nat
        ensures Stageable(t.conn.reqs, t.log.staged)[id] <= if id < t.log.nextId then 1 else 0
      {
        assert Stageable(s.conn.reqs, s.log.staged)[id] <= if id < s.log.nextId then 1 else 0;
      }
    }
  }

  lemma Cancels(a: multiset<nat>, b: multiset<nat>, c: multiset<nat>)
    requires a + b <= a + c
    ensures b <= c
  {
    forall x
      ensures b[x] <= c[x]
    {
      assert (a + b)[x] <= (a + c)[x];
    }
  }

  /** Queues that differ only in what is waiting. */
  lemma WaitingPart(q: seq<Info>, p: seq<Info>, more: multiset<nat>)
    requires Filter(NotWaiting, p) == Filter(NotWaiting, q) && multiset(Ids(p)) <= multiset(Ids(q)) + more
    ensures multiset(Ids(Filter(IsWaiting, p))) <= multiset(Ids(Filter(IsWaiting, q))) + more
  {
    var n, w := multiset(Ids(Filter(NotWaiting, q))), multiset(Ids(Filter(IsWaiting, q)));
    FilterSplitsIds(NotWaiting, IsWaiting, q);
    FilterSplitsIds(NotWaiting, IsWaiting, p);
    assert n + w + more == n + (w + more);
    Cancels(n, multiset(Ids(Filter(IsWaiting, p))), w + more);
  }

  lemma AddsOnce(s: System, t: System)
    requires OnceInv(s) && Active(t) == Active(s) && t.log.staged == s.log.staged && t.log.nextId == s.log.nextId + 1
    requires multiset(Ids(Filter(IsWaiting, t.conn.reqs))) <=
             multiset(Ids(Filter(IsWaiting, s.conn.reqs))) + multiset{s.log.nextId}
    ensures OnceInv(t)
  {
    if Active(s) {
      forall id: nat
        ensures Stageable(t.conn.reqs, t.log.staged)[id] <= if id < t.log.nextId then 1 else 0
      {
        assert Stageable(s.conn.reqs, s.log.staged)[id] <= if id < s.log.nextId then 1 else 0;
      }
    }
  }

  lemma ExecOnce(s: System, req: Req)
    requires Sane(s) && OnceInv(s)
    ensures OnceInv(DoExec(s, req))
  {
    var q, i := s.conn.reqs, Info(s.log.nextId, req, req.expected, Waiting, 0);
    if !(req.cancelIfNotConnected && !s.conn.isOpen) {
      InsertKeeps(q, i, 0);
      AppendKeeps(q, i);
      InsertIds(q, i);
      WaitingPart(q, Insert(q, i), multiset{i.id});
      AddsOnce(s, DoExec(s, req));
    }
  }

  lemma NoneWaitingStaged(q: seq<Info>)
    ensures Filter(IsWaiting, Stage(q)) == []
  {
    FilterNone(IsWaiting, Stage(q));
  }

  lemma StagedOnce(s: System, t: System, w: seq<Info>)
    requires OnceInv(s) && Active(s) && t.log.nextId == s.log.nextId && t.log.staged == s.log.staged + w
    requires w == Filter(IsWaiting, s.conn.reqs) && Filter(IsWaiting, t.conn.reqs) == []
    ensures OnceInv(t)
  {
    IdsConcat(s.log.staged, w);
    assert Stageable(t.conn.reqs, t.log.staged) == Stageable(s.conn.reqs, s.log.staged);
  }

  lemma CoalesceOnce(s: System)
    requires Sane(s) && OnceInv(s) && s.writer.Running?
    ensures OnceInv(DoCoalesce(s))
  {
    if s.conn.isOpen {
      var w := Filter(IsWaiting, s.conn.reqs);
      NoneWaitingStaged(s.conn.reqs);
      AppendNothing(s.log.staged);
      StagedOnce(s, DoCoalesce(s), w);
    }
  }

  lemma StartOnce(s: System)
    requires IdInv(s) && Sane(s) && Enabled(s, Start)
    ensures OnceInv(DoStart(s))
  {
    FilterAll(IsWaiting, s.conn.reqs);
    forall id: nat
      ensures Stageable(s.conn.reqs, [])[id] <= if id < s.log.nextId then 1 else 0
    {
      assert Known(s.conn.reqs, s.log.left)[id] == if id < s.log.nextId then 1 else 0;
    }
  }

  lemma AnswerWaiting(q: seq<Info>, size: nat)
    requires q != [] && NotWaiting(q[0]) && q[0].remaining > 0
    ensures Filter(IsWaiting, Answer(q, size)) == Filter(IsWaiting, q)
  {
    HeadTail(q);
    OwedCons(q[0], q[1..]);
    OwedCons(q[0].(remaining := q[0].remaining - 1, readSize := q[0].readSize + size), q[1..]);
  }

  lemma SameOnce(s: System, t: System)
    requires OnceInv(s) && (Active(t) ==> Active(s)) && t.log.staged == s.log.staged && t.log.nextId == s.log.nextId
    requires t.conn.reqs == s.conn.reqs
    ensures OnceInv(t)
  {
  }

  lemma AnswerOnce(s: System, t: System, size: nat)
    requires OnceInv(s) && (Active(t) ==> Active(s)) && t.log.staged == s.log.staged && t.log.nextId == s.log.nextId
    requires s.conn.reqs != [] && NotWaiting(s.conn.reqs[0]) && s.conn.reqs[0].remaining > 0
    requires t.conn.reqs == Answer(s.conn.reqs, size)
    ensures OnceInv(t)
  {
    AnswerWaiting(s.conn.reqs, size);
    OnceFrame(s, t);
  }

  lemma ResumeOnce(s: System, r: Reading)
    requires Sane(s) && OnceInv(s) && !s.reader.ReaderOff? && s.conn.isOpen
    requires s.conn.readBuffer != "" && Fair(s.conn, r)
    ensures OnceInv(Resume(s, r))
  {
    var t := Resume(s, r);
    match r.result {
      case ResponseRead => AnswerOnce(s, t, r.size);
      case ReadError => assert !Active(t);
      case _ => SameOnce(s, t);
    }
  }

  lemma DispatchOnce(s: System, rejects: Adapter)
    requires Sane(s) && OnceInv(s) && Enabled(s, Dispatch(rejects))
    ensures OnceInv(DoDispatch(s, rejects))
  {
    if s.conn.isOpen {
      ResumeOnce(s, OnRead(s.conn, s.log.nodes, rejects));
    }
  }

  lemma OnceStep(s: System, a: Action)
    requires Sane(s) && IdInv(s) && OnceInv(s) && Enabled(s, a)
    ensures OnceInv(Next(s, a))
  {
    var q, t := s.conn.reqs, Next(s, a);
    match a {
      case Exec(req) => ExecOnce(s, req);
      case CancelExec =>
        FilterAllAre(NotWaiting, NotWaiting, q);
        FilterNone(IsWaiting, Filter(NotWaiting, q));
        OnceFrame(s, t);
      case CancelOne(id) =>
        CancelledIsWaiting(s, id);
        RemoveKeeps(q, id);
        RemoveIds(q, id);
        WaitingPart(q, Remove(q, id), multiset{});
        assert multiset(Ids(Filter(IsWaiting, q))) + multiset{} == multiset(Ids(Filter(IsWaiting, q)));
        OnceFrame(s, t);
      case WriteDone =>
        WriteKeeps(q);
        OnceFrame(s, t);
      case Coalesce => CoalesceOnce(s);
      case Start => StartOnce(s);
      case Dispatch(rejects) => DispatchOnce(s, rejects);
      case _ =>
        if Active(t) {
          OnceFrame(s, t);
        }
    }
  }
}
