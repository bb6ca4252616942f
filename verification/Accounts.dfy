// Accounts: every byte received is in the buffer or in exactly one message, and each request
// is told the sum of the sizes of its own responses and waits for the right number of them.

module Accounts {
  import opened Resp3
  import opened Parsing
  import opened Stream
  import opened Queue
  import opened Connection
  import opened Multiplexer
  import opened Phases
  import opened Conservation

  function SlotBytes(rs: seq<Routed>): nat {
    if rs == [] then 0 else (if rs[0].sink.ToSlot? then rs[0].message.size else 0) + SlotBytes(rs[1..])
  }

  function PushBytes(rs: seq<Routed>): nat {
    if rs == [] then 0 else (if rs[0].sink.ToPush? then rs[0].message.size else 0) + PushBytes(rs[1..])
  }

  /** The bytes of the responses that went to request `id`. */
  function BytesTo(id: nat, rs: seq<Routed>): nat {
    if rs == [] then 0
    else (if rs[0].sink.ToSlot? && rs[0].sink.slot.id == id then rs[0].message.size else 0) + BytesTo(id, rs[1..])
  }

  /** The number of responses that went to request `id`. */
  function CountTo(id: nat, rs: seq<Routed>): nat {
    if rs == [] then 0
    else (if rs[0].sink.ToSlot? && rs[0].sink.slot.id == id then 1 else 0) + CountTo(id, rs[1..])
  }

  lemma {:induction false} BytesSnoc(rs: seq<Routed>, r: Routed)
    ensures SlotBytes(rs + [r]) == SlotBytes(rs) + if r.sink.ToSlot? then r.message.size else 0
    ensures PushBytes(rs + [r]) == PushBytes(rs) + if r.sink.ToPush? then r.message.size else 0
  {
    if rs == [] {
      assert [] + [r] == [r];
    } else {
      assert (rs + [r])[1..] == rs[1..] + [r];
      BytesSnoc(rs[1..], r);
    }
  }

  lemma {:induction false} BytesToSnoc(id: nat, rs: seq<Routed>, r: Routed)
    ensures BytesTo(id, rs + [r]) == BytesTo(id, rs) + if r.sink.ToSlot? && r.sink.slot.id == id then r.message.size else 0
    ensures CountTo(id, rs + [r]) == CountTo(id, rs) + if r.sink.ToSlot? && r.sink.slot.id == id then 1 else 0
  {
    if rs == [] {
      assert [] + [r] == [r];
    } else {
      assert (rs + [r])[1..] == rs[1..] + [r];
      BytesToSnoc(id, rs[1..], r);
    }
  }

  // ---- The connection's accounts

  ghost predicate ByteInv(s: System) {
    var c, l := s.conn, s.log;
    Active(s) ==>
      && |l.received| == |c.readBuffer| + SlotBytes(l.routed) + PushBytes(l.routed)
      && c.usage.responseBytes == l.base.responseBytes + SlotBytes(l.routed)
      && c.usage.pushBytes == l.base.pushBytes + PushBytes(l.routed)
  }

  lemma FinishBytes(s: System, t: System, r: Routed)
    requires ByteInv(s) && Active(s)
    requires t.log.routed == s.log.routed + [r] && t.log.received == s.log.received && t.log.base == s.log.base
    requires |t.conn.readBuffer| + r.message.size == |s.conn.readBuffer|
    requires t.conn.usage.responseBytes == s.conn.usage.responseBytes + if r.sink.ToSlot? then r.message.size else 0
    requires t.conn.usage.pushBytes == s.conn.usage.pushBytes + if r.sink.ToPush? then r.message.size else 0
    ensures ByteInv(t)
  {
    BytesSnoc(s.log.routed, r);
  }

  lemma ResumeBytes(s: System, r: Reading)
    requires Sane(s) && ByteInv(s) && !s.reader.ReaderOff? && s.conn.isOpen
    requires s.conn.readBuffer != "" && Fair(s.conn, r)
    ensures ByteInv(Resume(s, r))
  {
    if r.result.PushRead? || r.result.ResponseRead? {
      FinishBytes(s, Resume(s, r), Routed(CurrentSink(s.conn), Message(r.nodes, r.size)));
    }
  }

  lemma DispatchBytes(s: System, rejects: Adapter)
    requires Sane(s) && ByteInv(s) && Enabled(s, Dispatch(rejects))
    ensures ByteInv(DoDispatch(s, rejects))
  {
    if s.conn.isOpen {
      ResumeBytes(s, OnRead(s.conn, s.log.nodes, rejects));
    }
  }

  lemma ByteStep(s: System, a: Action)
    requires Sane(s) && ByteInv(s) && Enabled(s, a)
    ensures ByteInv(Next(s, a))
  {
    if a.Dispatch? {
      DispatchBytes(s, a.rejects);
    }
  }

  // ---- Each request's account

  ghost predicate KnownIds(rs: seq<Routed>, bound: nat) {
    forall k :: 0 <= k < |rs| && rs[k].sink.ToSlot? ==> rs[k].sink.slot.id < bound
  }

  ghost predicate RightSize(h: seq<Routed>, i: Info) {
    i.readSize == BytesTo(i.id, h) && i.remaining + CountTo(i.id, h) == i.req.expected
  }

  ghost predicate RightSizes(q: seq<Info>, h: seq<Routed>) {
    forall k :: 0 <= k < |q| ==> RightSize(h, q[k])
  }

  /** A request that proceeded got every response it was to get, and is told their size; one
      that left otherwise lacks some, unless it was to get none. */
  ghost predicate RightReport(h: seq<Routed>, d: Departure) {
    if d.exit.Proceeded? then d.size == BytesTo(d.id, h) && CountTo(d.id, h) == d.expected
    else d.size == 0 && (d.expected > 0 ==> CountTo(d.id, h) < d.expected)
  }

  ghost predicate RightReports(left: seq<Departure>, h: seq<Routed>) {
    forall k :: 0 <= k < |left| ==> RightReport(h, left[k])
  }

  ghost function History(s: System): seq<Routed> {
    s.log.past + s.log.routed
  }

  ghost predicate SizeInv(s: System) {
    && KnownIds(History(s), s.log.nextId)
    && RightSizes(s.conn.reqs, History(s))
    && RightReports(s.log.left, History(s))
  }

  lemma {:induction false} UnknownGotNothing(id: nat, rs: seq<Routed>)
    requires KnownIds(rs, id)
    ensures BytesTo(id, rs) == 0 && CountTo(id, rs) == 0
  {
    if rs != [] {
      UnknownGotNothing(id, rs[1..]);
    }
  }

  lemma {:induction false} InsertSizes(q: seq<Info>, i: Info, h: seq<Routed>)
    requires RightSizes(q, h) && RightSize(h, i)
    ensures RightSizes(Insert(q, i), h)
  {
    if i.req.helloPriority && q != [] && !IsWaiting(q[0]) {
      InsertSizes(q[1..], i, h);
    }
  }

  lemma {:induction false} FilterSizes(f: Info -> bool, q: seq<Info>, h: seq<Routed>)
    requires RightSizes(q, h)
    ensures RightSizes(Filter(f, q), h)
  {
    if q != [] {
      FilterSizes(f, q[1..], h);
    }
  }

  lemma {:induction false} DepartureReports(q: seq<Info>, e: Exit, h: seq<Routed>)
    requires RightSizes(q, h) && AllCounted(q)
    requires e.Proceeded? ==> AllAre(Answerless, q)
    ensures RightReports(Departures(q, e), h)
  {
    if q != [] {
      DepartureReports(q[1..], e, h);
      assert RightSize(h, q[0]) && Counted(q[0]) && (e.Proceeded? ==> Answerless(q[0]));
    }
  }

  lemma FilterReports(f: Info -> bool, q: seq<Info>, e: Exit, h: seq<Routed>)
    requires RightSizes(q, h) && AllCounted(q)
    requires e.Proceeded? ==> forall i :: f(i) ==> Answerless(i)
    ensures RightReports(Departures(Filter(f, q), e), h)
  {
    FilterSizes(f, q, h);
    FilterCounted(f, q);
    FilterAllAre(f, Answerless, q);
    DepartureReports(Filter(f, q), e, h);
  }

  lemma {:induction false} FilterCounted(f: Info -> bool, q: seq<Info>)
    requires AllCounted(q)
    ensures AllCounted(Filter(f, q))
  {
    if q != [] {
      FilterCounted(f, q[1..]);
    }
  }

  lemma {:induction false} LeftKnown(left: seq<Departure>, k: nat)
    requires k < |left|
    ensures left[k].id in multiset(LeftIds(left))
  {
    HeadTail(left);
    assert LeftIds(left) == [left[0].id] + LeftIds(left[1..]);
    if k > 0 {
      LeftKnown(left[1..], k - 1);
    }
  }

  /** A response to the front request is in nobody else's account. */
  lemma OthersUntouched(s: System, r: Routed)
    requires IdInv(s) && SizeInv(s) && s.conn.reqs != [] && r.sink.ToSlot? && r.sink.slot.id == s.conn.reqs[0].id
    ensures RightSizes(s.conn.reqs[1..], History(s) + [r]) && RightReports(s.log.left, History(s) + [r])
    ensures s.conn.reqs[0].id < s.log.nextId
    ensures BytesTo(s.conn.reqs[0].id, History(s) + [r]) == s.conn.reqs[0].readSize + r.message.size
    ensures CountTo(s.conn.reqs[0].id, History(s) + [r]) == CountTo(s.conn.reqs[0].id, History(s)) + 1
  {
    var q, left, h := s.conn.reqs, s.log.left, History(s);
    QueuedOnce(q, 0);
    assert Known(q, left)[q[0].id] == 1;
    assert RightSize(h, q[0]);
    BytesToSnoc(q[0].id, h, r);
    forall k | 0 <= k < |q| - 1
      ensures RightSize(h + [r], q[1..][k])
    {
      assert RightSize(h, q[k + 1]);
      BytesToSnoc(q[k + 1].id, h, r);
      if q[k + 1].id == q[0].id {
        QueuedTwice(q, 0, k + 1);
      }
    }
    forall k | 0 <= k < |left|
      ensures RightReport(h + [r], left[k])
    {
      assert RightReport(h, left[k]);
      LeftKnown(left, k);
      BytesToSnoc(left[k].id, h, r);
    }
  }

  lemma ResponseSizes(s: System, t: System, r: Routed)
    requires IdInv(s) && SizeInv(s) && s.conn.reqs != [] && s.conn.reqs[0].remaining > 0
    requires r.sink.ToSlot? && r.sink.slot.id == s.conn.reqs[0].id
    requires t.conn.reqs == Answer(s.conn.reqs, r.message.size)
    requires t.log.left == s.log.left + Completed(s.conn.reqs[0], r.message.size)
    requires t.log.nextId == s.log.nextId && History(t) == History(s) + [r]
    ensures SizeInv(t)
  {
    OthersUntouched(s, r);
  }

  lemma {:induction false} PushSizes(q: seq<Info>, left: seq<Departure>, h: seq<Routed>, m: Message)
    requires RightSizes(q, h) && RightReports(left, h)
    ensures RightSizes(q, h + [Routed(ToPush, m)]) && RightReports(left, h + [Routed(ToPush, m)])
  {
    var r := Routed(ToPush, m);
    forall k | 0 <= k < |q|
      ensures RightSize(h + [r], q[k])
    {
      assert RightSize(h, q[k]);
      BytesToSnoc(q[k].id, h, r);
    }
    forall k | 0 <= k < |left|
      ensures RightReport(h + [r], left[k])
    {
      assert RightReport(h, left[k]);
      BytesToSnoc(left[k].id, h, r);
    }
  }

  lemma LoseSizes(s: System, t: System)
    requires Sane(s) && SizeInv(s) && t.log.nextId == s.log.nextId && History(t) == History(s)
    requires t.conn.reqs == Lose(s.conn.reqs)
    requires t.log.left == s.log.left + Departures(Filter(Perishes, s.conn.reqs), Stopped)
    ensures SizeInv(t)
  {
    FilterSizes(Survives, s.conn.reqs, History(s));
    FilterReports(Perishes, s.conn.reqs, Stopped, History(s));
    var f := Filter(Survives, s.conn.reqs);
    forall k | 0 <= k < |t.conn.reqs|
      ensures RightSize(History(t), t.conn.reqs[k])
    {
      assert RightSize(History(s), f[k]);
    }
  }

  lemma SizeFrame(s: System, t: System)
    requires SizeInv(s) && t.log.nextId == s.log.nextId && History(t) == History(s)
    requires t.log.left == s.log.left && t.conn.reqs == s.conn.reqs
    ensures SizeInv(t)
  {
  }

  lemma MapSizes(f: Info -> Info, q: seq<Info>, h: seq<Routed>)
    requires RightSizes(q, h) && forall i :: f(i) == i.(phase := f(i).phase)
    ensures RightSizes(Queue.Map(f, q), h)
  {
    forall k | 0 <= k < |q|
      ensures RightSize(h, Queue.Map(f, q)[k])
    {
      assert RightSize(h, q[k]);
    }
  }

  lemma ResumeSizes(s: System, r: Reading)
    requires Sane(s) && IdInv(s) && SizeInv(s) && !s.reader.ReaderOff? && s.conn.isOpen
    requires s.conn.readBuffer != "" && Fair(s.conn, r)
    ensures SizeInv(Resume(s, r))
  {
    var t, m := Resume(s, r), Message(r.nodes, r.size);
    match r.result {
      case ResponseRead =>
        Regroup(s.log.past, s.log.routed, [Routed(CurrentSink(s.conn), m)]);
        ResponseSizes(s, t, Routed(CurrentSink(s.conn), m));
      case PushRead =>
        Regroup(s.log.past, s.log.routed, [Routed(ToPush, m)]);
        PushSizes(s.conn.reqs, s.log.left, History(s), m);
      case ReadError => LoseSizes(s, t);
      case _ => SizeFrame(s, t);
    }
  }

  lemma DispatchSizes(s: System, rejects: Adapter)
    requires Sane(s) && IdInv(s) && SizeInv(s) && Enabled(s, Dispatch(rejects))
    ensures SizeInv(DoDispatch(s, rejects))
  {
    if s.conn.isOpen {
      ResumeSizes(s, OnRead(s.conn, s.log.nodes, rejects));
    }
  }

  lemma CancelRunSizes(s: System)
    requires Sane(s) && SizeInv(s)
    ensures SizeInv(DoCancelRun(s))
  {
    if !s.conn.cancelRunCalled {
      LoseSizes(s, DoCancelRun(s));
    }
  }

  lemma ExecSizes(s: System, req: Req)
    requires SizeInv(s)
    ensures SizeInv(DoExec(s, req))
  {
    UnknownGotNothing(s.log.nextId, History(s));
    InsertSizes(s.conn.reqs, Info(s.log.nextId, req, req.expected, Waiting, 0), History(s));
  }

  lemma CancelExecSizes(s: System)
    requires Sane(s) && SizeInv(s)
    ensures SizeInv(DoCancelExec(s))
  {
    FilterSizes(NotWaiting, s.conn.reqs, History(s));
    FilterReports(IsWaiting, s.conn.reqs, Stopped, History(s));
  }

  lemma WriteSizes(s: System)
    requires Sane(s) && SizeInv(s)
    ensures SizeInv(DoWriteDone(s))
  {
    FilterSizes(NotAnswerless, s.conn.reqs, History(s));
    MapSizes(ToWritten, Filter(NotAnswerless, s.conn.reqs), History(s));
    FilterReports(Answerless, s.conn.reqs, Proceeded, History(s));
  }

  lemma CancelOneSizes(s: System, id: nat)
    requires Sane(s) && SizeInv(s)
    ensures SizeInv(DoCancelOne(s, id))
  {
    FilterSizes((i: Info) => !HasId(id, i), s.conn.reqs, History(s));
    FilterReports((i: Info) => HasId(id, i), s.conn.reqs, Removed, History(s));
  }

  lemma CoalesceSizes(s: System)
    requires SizeInv(s)
    ensures SizeInv(DoCoalesce(s))
  {
    MapSizes(ToStaged, s.conn.reqs, History(s));
  }

  lemma StartSizes(s: System)
    requires SizeInv(s)
    ensures SizeInv(DoStart(s))
  {
    assert History(s) + [] == History(s);
  }

  lemma SizeStep(s: System, a: Action)
    requires Sane(s) && IdInv(s) && SizeInv(s) && Enabled(s, a)
    ensures SizeInv(Next(s, a))
  {
    var t := Next(s, a);
    match a {
      case Exec(req) => ExecSizes(s, req);
      case CancelExec => CancelExecSizes(s);
      case CancelOne(id) => CancelOneSizes(s, id);
      case Coalesce => CoalesceSizes(s);
      case WriteDone => WriteSizes(s);
      case Start => StartSizes(s);
      case Dispatch(rejects) => DispatchSizes(s, rejects);
      case CancelRunning => CancelRunSizes(s);
      case WriteFailed => CancelRunSizes(s);
      case ReadFailed => CancelRunSizes(s);
      case _ => SizeFrame(s, t);
    }
  }
}
