// What holds over every run of the connection.

module Runs {
  import opened Resp3
  import opened Parsing
  import opened Trees
  import opened Stream
  import opened Queue
  import opened Connection
  import opened Multiplexer
  import opened Phases
  import opened Conservation
  import opened Wire
  import opened Reception
  import opened Routing
  import opened Pushes
  import opened Accounts
  import opened Order
  import opened Completion
  import opened CallOrder

  ghost predicate Inv(s: System) {
    && Sane(s) && IdInv(s) && WireInv(s) && OnceInv(s)
    && StreamInv(s) && SinkInv(s) && PushInv(s) && ByteInv(s) && SizeInv(s) && DoneInv(s) && OrderInv(s)
  }

  lemma InvStep(s: System, a: Action)
    requires Inv(s) && Enabled(s, a)
    ensures Inv(Next(s, a))
  {
    PhaseStep(s, a);
    QueueStep(s, a);
    IdStep(s, a);
    WireStep(s, a);
    OnceStep(s, a);
    StreamStep(s, a);
    SinkStep(s, a);
    PushStep(s, a);
    ByteStep(s, a);
    SizeStep(s, a);
    DoneStep(s, a);
    CallOrderStep(s, a);
  }

  lemma {:induction false} InvRun(s: System, actions: seq<Action>, s': System)
    requires Inv(s) && Leads(s, actions, s')
    ensures Inv(s')
    decreases |actions|
  {
    if actions != [] {
      InvStep(s, actions[0]);
      InvRun(Next(s, actions[0]), actions[1..], s');
    }
  }

  lemma InvReached(actions: seq<Action>, s: System)
    requires Leads(Boot, actions, s)
    ensures Inv(s)
  {
    InvRun(Boot, actions, s);
  }

  lemma SizeReached(actions: seq<Action>, s: System)
    requires Leads(Boot, actions, s)
    ensures SizeInv(s)
  {
    InvReached(actions, s);
  }

  lemma IdReached(actions: seq<Action>, s: System)
    requires Leads(Boot, actions, s)
    ensures IdInv(s)
  {
    InvReached(actions, s);
  }

  // ---- Requests

  /** Every request added so far is either in the queue, once, or has left it, once, by
      exactly one of proceeding, being stopped and being removed. */
  lemma RequestConservation(actions: seq<Action>, s: System, id: nat)
    requires Leads(Boot, actions, s)
    ensures id < s.log.nextId ==>
            || (multiset(Ids(s.conn.reqs))[id] == 1 && multiset(LeftIds(s.log.left))[id] == 0)
            || (multiset(Ids(s.conn.reqs))[id] == 0 && multiset(LeftIds(s.log.left))[id] == 1)
    ensures id >= s.log.nextId ==> id !in multiset(Ids(s.conn.reqs)) && id !in multiset(LeftIds(s.log.left))
  {
    InvReached(actions, s);
    assert Known(s.conn.reqs, s.log.left)[id] == if id < s.log.nextId then 1 else 0;
  }

  /** No interleaving changes the relative order of requests that stay in the queue. */
  lemma OrderIsKept(actions: seq<Action>, s: System, more: seq<Action>, s': System)
    requires Leads(Boot, actions, s) && Leads(s, more, s')
    ensures Subseq(OldIds(s'.conn.reqs, s.log.nextId), Ids(s.conn.reqs))
  {
    InvReached(actions, s);
    OrderRun(s, more, s', s.log.nextId);
    AllOld(s.conn.reqs, s.log.left, s.log.nextId);
  }

  /** Within an epoch, requests without priority are sent in the order they were given in. */
  lemma SentInCallOrder(actions: seq<Action>, s: System, j: nat, k: nat)
    requires Leads(Boot, actions, s) && Active(s) && j < k < |s.log.staged|
    ensures !s.log.staged[j].req.helloPriority && !s.log.staged[k].req.helloPriority ==>
            s.log.staged[j].id < s.log.staged[k].id
  {
    InvReached(actions, s);
    AscendsPrefix(s.log.staged, Filter(IsWaiting, s.conn.reqs), 0);
    if !s.log.staged[j].req.helloPriority && !s.log.staged[k].req.helloPriority {
      AscendsPair(s.log.staged, 0, j, k);
    }
  }

  /** No request proceeds that was never handed to the socket. */
  lemma ProceedsOnlyIfSent(actions: seq<Action>, s: System, k: nat)
    requires Leads(Boot, actions, s) && k < |s.log.left| && s.log.left[k].exit.Proceeded?
    ensures s.log.left[k].id in Ids(s.log.before) || s.log.left[k].id in Ids(s.log.staged)
  {
    InvReached(actions, s);
  }

  /** A written request still has an open slot; so, with no write in flight, has every request
      that is on the wire. */
  lemma NothingLingers(actions: seq<Action>, s: System, k: nat)
    requires Leads(Boot, actions, s) && k < |s.conn.reqs|
    ensures s.conn.reqs[k].phase.Written? ==> s.conn.reqs[k].remaining > 0
    ensures Active(s) && !s.writer.Writing? && !IsWaiting(s.conn.reqs[k]) ==> s.conn.reqs[k].remaining > 0
  {
    InvReached(actions, s);
    assert Settled(Ids(s.log.staged), s.conn.reqs[k]) && Counted(s.conn.reqs[k]);
    assert Active(s) && !s.writer.Writing? ==> NotStaged(s.conn.reqs[k]);
  }

  lemma {:induction false} AllOld(q: seq<Info>, left: seq<Departure>, n: nat)
    requires forall id: nat :: Known(q, left)[id] <= if id < n then 1 else 0
    ensures OldIds(q, n) == Ids(q)
  {
    if q != [] {
      forall id: nat
        ensures Known(q[1..], left)[id] <= if id < n then 1 else 0
      {
        HeadTail(q);
        IdsCons(q[0], q[1..]);
        assert Known(q, left)[id] <= if id < n then 1 else 0;
      }
      QueuedOnce(q, 0);
      assert Known(q, left)[q[0].id] <= if q[0].id < n then 1 else 0;
      AllOld(q[1..], left, n);
    }
  }

  // ---- The wire

  /** First in, first out: the slots filled so far, followed by the slots still owed in queue
      order, are the slots of everything put on the wire, in wire order; so the next response
      fills the oldest slot that is still open. */
  lemma FifoDelivery(actions: seq<Action>, s: System)
    requires Leads(Boot, actions, s) && Active(s)
    ensures Delivered(s.log.routed) + Owed(s.conn.reqs) == AllSlots(s.log.staged)
    ensures Delivered(s.log.routed) <= AllSlots(s.log.staged)
  {
    InvReached(actions, s);
  }

  /** The bytes handed to the socket are the payloads of the staged requests, each request
      once and in one piece, and the bytes of a write in flight stay where they are. */
  lemma WireFaithfulness(actions: seq<Action>, s: System)
    requires Leads(Boot, actions, s) && Active(s)
    ensures s.log.sent == Payloads(s.log.staged)
    ensures forall j, k :: 0 <= j < k < |s.log.staged| ==> s.log.staged[j].id != s.log.staged[k].id
    ensures s.conn.usage.bytesSent == s.log.base.bytesSent + |s.log.sent|
    ensures s.writer.Writing? ==> s.conn.writeBuffer == s.writer.chunk
  {
    InvReached(actions, s);
    forall j, k | 0 <= j < k < |s.log.staged|
      ensures s.log.staged[j].id != s.log.staged[k].id
    {
      assert Stageable(s.conn.reqs, s.log.staged)[s.log.staged[j].id] <= 1;
      if s.log.staged[j].id == s.log.staged[k].id {
        QueuedTwice(s.log.staged, j, k);
      }
    }
  }

  lemma {:induction false} DistinctSlots(q: seq<Info>, k: nat)
    requires k < |q|
    requires forall i, j :: 0 <= i < j < |q| ==> q[i].id != q[j].id
    ensures Filter((x: Slot) => x.id == q[k].id, AllSlots(q)) == OwnSlots(q[k])
  {
    var f := (x: Slot) => x.id == q[k].id;
    FilterConcat(f, OwnSlots(q[0]), AllSlots(q[1..]));
    if k == 0 {
      FilterAll(f, OwnSlots(q[0]));
      OtherSlots(q[1..], q[0].id);
    } else {
      FilterNone(f, OwnSlots(q[0]));
      DistinctSlots(q[1..], k - 1);
    }
  }

  lemma {:induction false} OtherSlots(q: seq<Info>, id: nat)
    requires forall i :: 0 <= i < |q| ==> q[i].id != id
    ensures Filter((x: Slot) => x.id == id, AllSlots(q)) == []
  {
    if q != [] {
      var f := (x: Slot) => x.id == id;
      FilterConcat(f, OwnSlots(q[0]), AllSlots(q[1..]));
      FilterNone(f, OwnSlots(q[0]));
      OtherSlots(q[1..], id);
    }
  }

  /** The slots of one request, delivered ones and owed ones together, run without gap or
      repetition up to the last one. */
  lemma SlotsOfOneRequest(actions: seq<Action>, s: System, k: nat)
    requires Leads(Boot, actions, s) && Active(s) && k < |s.log.staged|
    ensures var i := s.log.staged[k];
            Filter((x: Slot) => x.id == i.id, Delivered(s.log.routed) + Owed(s.conn.reqs)) == OwnSlots(i)
  {
    FifoDelivery(actions, s);
    WireFaithfulness(actions, s);
    DistinctSlots(s.log.staged, k);
  }

  /** The commands sent and not yet answered are those the queue still waits for. */
  lemma ResponseConservation(actions: seq<Action>, s: System)
    requires Leads(Boot, actions, s) && Active(s)
    ensures (s.conn.usage.commandsSent - s.log.base.commandsSent) -
            (s.conn.usage.responsesReceived - s.log.base.responsesReceived) ==
            Remainders(Filter(NotWaiting, s.conn.reqs))
  {
    InvReached(actions, s);
    FilterKeeps(NotWaiting, s.conn.reqs, 0);
    RemaindersAreSlots(Filter(NotWaiting, s.conn.reqs));
  }

  // ---- Reading

  /** The bytes received are in the buffer or accounted for, the parser never stands beyond
      the buffer, and every request knows how much was read for it. */
  lemma ByteConservation(actions: seq<Action>, s: System)
    requires Leads(Boot, actions, s)
    ensures Active(s) ==>
            && |s.log.received| == |s.conn.readBuffer| +
               (s.conn.usage.responseBytes - s.log.base.responseBytes) + (s.conn.usage.pushBytes - s.log.base.pushBytes)
            && s.conn.parser.consumed <= |s.conn.readBuffer|
    ensures forall k :: 0 <= k < |s.conn.reqs| ==> s.conn.reqs[k].readSize == BytesTo(s.conn.reqs[k].id, History(s))
    ensures forall k :: 0 <= k < |s.log.left| ==>
              s.log.left[k].size == if s.log.left[k].exit.Proceeded? then BytesTo(s.log.left[k].id, History(s)) else 0
  {
    InvReached(actions, s);
    assert forall k | 0 <= k < |s.conn.reqs| :: RightSize(History(s), s.conn.reqs[k]);
    assert forall k | 0 <= k < |s.log.left| :: RightReport(History(s), s.log.left[k]);
  }

  /** A request proceeds when, and only when, every response it was to get has been delivered to
      it; one that is stopped or removed lacks at least one, unless it was to get none. */
  lemma ProceedsWhenComplete(actions: seq<Action>, s: System, k: nat)
    requires Leads(Boot, actions, s) && k < |s.log.left|
    ensures var d := s.log.left[k];
            && (d.exit.Proceeded? ==> CountTo(d.id, History(s)) == d.expected)
            && (!d.exit.Proceeded? && d.expected > 0 ==> CountTo(d.id, History(s)) < d.expected)
  {
    SizeReached(actions, s);
    assert RightReport(History(s), s.log.left[k]);
  }

  /** The reader is never called without bytes, nor with the parser off the buffer. */
  lemma ReaderIsReady(actions: seq<Action>, s: System)
    requires Leads(Boot, actions, s)
    ensures s.reader.Ready? && s.conn.isOpen ==> s.conn.Readable() && s.conn.readBuffer != ""
  {
    InvReached(actions, s);
  }

  /** Whatever the interleaving and however the stream was split into reads, the messages
      dispatched in an epoch are those of one pass over the bytes received. */
  lemma MessagesAreTheStream(actions: seq<Action>, s: System)
    requires Leads(Boot, actions, s) && Active(s)
    ensures Messages(s.log.routed) <= Drain(Initial, s.log.received, []).messages
    ensures s.reader.InFlight? ==> Messages(s.log.routed) == Drain(Initial, s.log.received, []).messages
  {
    InvReached(actions, s);
  }

  /** Pushes may come in between responses at any time: none of them ever fills a slot. */
  lemma PushesFillNoSlot(actions: seq<Action>, s: System, k: nat)
    requires Leads(Boot, actions, s) && Active(s) && k < |s.log.routed|
    ensures StartsWithPush(s.log.routed[k].message.nodes) ==> s.log.routed[k].sink.ToPush?
  {
    InvReached(actions, s);
  }

  lemma CaughtUp(s: System, vs: seq<Value>)
    requires Inv(s) && Active(s) && s.reader.InFlight? && AllFit(vs, 0) && s.log.received == PrintAll(vs)
    ensures Messages(s.log.routed) == MessagesOf(vs) && s.conn.readBuffer == "" && s.log.sink.None?
  {
    DrainOfPrinted(vs, "");
    assert PrintAll(vs) + "" == PrintAll(vs);
    NothingYet();
    assert MessagesOf(vs) + [] == MessagesOf(vs);
    assert Messages(s.log.routed) + [] == Messages(s.log.routed);
  }

  /** When the server's bytes are the encodings of `vs` and the reader has caught up, each value
      has been dispatched, in order, as its own pre-order nodes, and nothing is left over. */
  lemma ValuesAreDispatched(actions: seq<Action>, s: System, vs: seq<Value>)
    requires Leads(Boot, actions, s) && Active(s) && s.reader.InFlight?
    requires AllFit(vs, 0) && s.log.received == PrintAll(vs)
    ensures |s.log.routed| == |vs| && s.conn.readBuffer == ""
    ensures forall k :: 0 <= k < |vs| ==> s.log.routed[k].message == Message(Preorder(vs[k], 0), |Print(vs[k])|)
  {
    InvReached(actions, s);
    CaughtUp(s, vs);
    forall k | 0 <= k < |vs|
      ensures s.log.routed[k].message == MessageOf(vs[k])
    {
      assert Messages(s.log.routed)[k] == MessagesOf(vs)[k];
    }
  }

  // ---- One message, one destination

  predicate LeavesReaderAlone(a: Action) {
    !a.Dispatch? && !a.Start?
  }

  lemma SinkUntouched(s: System, a: Action)
    requires Enabled(s, a) && LeavesReaderAlone(a)
    ensures Next(s, a).log.sink == s.log.sink && Next(s, a).log.nodes == s.log.nodes
  {
  }

  lemma {:induction false} SinkRun(s: System, actions: seq<Action>, s': System)
    requires Inv(s) && Leads(s, actions, s')
    requires forall k :: 0 <= k < |actions| ==> LeavesReaderAlone(actions[k])
    ensures Inv(s') && s'.log.sink == s.log.sink && s'.log.nodes == s.log.nodes
    decreases |actions|
  {
    if actions != [] {
      assert LeavesReaderAlone(actions[0]);
      SinkUntouched(s, actions[0]);
      InvStep(s, actions[0]);
      SinkRun(Next(s, actions[0]), actions[1..], s');
    }
  }

  /** Between two dispatches of one message, whatever is added (in front of the waiting
      requests or behind them), staged, written, cancelled or removed, and however many bytes
      arrive: the message goes on to the adapter that has its first nodes. */
  lemma ClassificationIsStable(actions: seq<Action>, s: System, rejects: Adapter, more: seq<Action>, s': System)
    requires Leads(Boot, actions, s) && Active(s) && s.conn.isOpen && Enabled(s, Dispatch(rejects))
    requires OnRead(s.conn, s.log.nodes, rejects).result.MoreNeeded?
    requires Leads(Next(s, Dispatch(rejects)), more, s') && Active(s')
    requires forall k :: 0 <= k < |more| ==> LeavesReaderAlone(more[k])
    ensures s'.conn.readBuffer != "" && CurrentSink(s'.conn) == CurrentSink(s.conn)
    ensures s'.log.nodes == OnRead(s.conn, s.log.nodes, rejects).nodes
  {
    var t := Next(s, Dispatch(rejects));
    InvReached(actions, s);
    InvStep(s, Dispatch(rejects));
    SinkRun(t, more, s');
    SinkStands(s');
  }
}
