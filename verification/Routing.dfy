// Where a message goes is decided by its first dispatch, and nothing that happens before its
// last one changes that.

module Routing {
  import opened Resp3
  import opened Parsing
  import opened Queue
  import opened Connection
  import opened Multiplexer
  import opened Phases
  import opened Conservation

  /** The front request is on the wire and `slot` is the next one it fills. */
  ghost predicate Holds(q: seq<Info>, slot: Slot) {
    && q != [] && NotWaiting(q[0]) && 0 < q[0].remaining <= q[0].req.expected
    && slot == Slot(q[0].id, q[0].req.expected - q[0].remaining)
  }

  lemma InsertHolds(q: seq<Info>, i: Info, slot: Slot)
    requires Holds(q, slot)
    ensures Holds(Insert(q, i), slot)
  {
  }

  lemma StageHolds(q: seq<Info>, slot: Slot)
    requires Holds(q, slot)
    ensures Holds(Stage(q), slot)
  {
  }

  lemma WriteHolds(q: seq<Info>, slot: Slot)
    requires Holds(q, slot)
    ensures Holds(Write(q), slot)
  {
  }

  lemma FilterHolds(f: Info -> bool, q: seq<Info>, slot: Slot)
    requires Holds(q, slot) && f(q[0])
    ensures Holds(Filter(f, q), slot)
  {
  }

  /** While a message is in progress the decision about it stands. */
  ghost predicate SinkInv(s: System) {
    var c, l := s.conn, s.log;
    Active(s) ==>
      match l.sink
      case None => l.nodes == [] && c.parser == Initial && !c.onPush
      case Some(ToPush) => c.onPush && c.readBuffer != ""
      case Some(ToSlot(slot)) =>
        !c.onPush && c.readBuffer != "" && ToType(c.readBuffer[0]) != Push && Holds(c.reqs, slot)
  }

  lemma SinkStands(s: System)
    requires SinkInv(s) && Active(s) && s.log.sink.Some?
    ensures s.conn.readBuffer != "" && CurrentSink(s.conn) == s.log.sink.value
  {
  }

  /** Steps that leave the reader alone. */
  ghost predicate SameReading(s: System, t: System) {
    && t.conn.onPush == s.conn.onPush && t.conn.parser == s.conn.parser
    && t.conn.readBuffer == s.conn.readBuffer && t.log.sink == s.log.sink && t.log.nodes == s.log.nodes
  }

  ghost predicate KeepsFront(q: seq<Info>, p: seq<Info>) {
    forall slot :: Holds(q, slot) ==> Holds(p, slot)
  }

  lemma SinkFrame(s: System, t: System)
    requires SinkInv(s) && (Active(t) ==> Active(s)) && SameReading(s, t) && KeepsFront(s.conn.reqs, t.conn.reqs)
    ensures SinkInv(t)
  {
  }

  lemma ResumeSink(s: System, r: Reading)
    requires Sane(s) && SinkInv(s) && s.conn.readBuffer != "" && Fair(s.conn, r)
    ensures SinkInv(Resume(s, r))
  {
    if r.result.MoreNeeded? && CurrentSink(s.conn).ToSlot? {
      assert Counted(s.conn.reqs[0]);
    }
  }

  lemma DispatchSink(s: System, rejects: Adapter)
    requires Sane(s) && SinkInv(s) && Enabled(s, Dispatch(rejects))
    ensures SinkInv(DoDispatch(s, rejects))
  {
    if s.conn.isOpen {
      ResumeSink(s, OnRead(s.conn, s.log.nodes, rejects));
    }
  }

  lemma FrontKept(s: System, a: Action)
    requires Sane(s) && IdInv(s) && Enabled(s, a)
    requires a.Exec? || a.CancelExec? || a.CancelOne? || a.Coalesce? || a.WriteDone?
    ensures KeepsFront(s.conn.reqs, Next(s, a).conn.reqs)
  {
    var q, p := s.conn.reqs, Next(s, a).conn.reqs;
    forall slot | Holds(q, slot)
      ensures Holds(p, slot)
    {
      match a {
        case Exec(req) => InsertHolds(q, Info(s.log.nextId, req, req.expected, Waiting, 0), slot);
        case CancelExec => FilterHolds(NotWaiting, q, slot);
        case CancelOne(id) =>
          CancelledIsWaiting(s, id);
          FilterHolds((i: Info) => !HasId(id, i), q, slot);
        case Coalesce => StageHolds(q, slot);
        case WriteDone => WriteHolds(q, slot);
      }
    }
  }

  lemma SinkStep(s: System, a: Action)
    requires Sane(s) && IdInv(s) && SinkInv(s) && Enabled(s, a)
    ensures SinkInv(Next(s, a))
  {
    var t := Next(s, a);
    match a {
      case Dispatch(rejects) => DispatchSink(s, rejects);
      case Exec(_) | CancelExec | CancelOne(_) | Coalesce | WriteDone =>
        FrontKept(s, a);
        SinkFrame(s, t);
      case _ =>
    }
  }
}
