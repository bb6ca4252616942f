// Where the promises end: the exact conditions, and runs that show they are needed.

module Limits {
  import opened Resp3
  import opened Parsing
  import opened Trees
  import opened RoundTrip
  import opened Stream
  import opened Queue
  import opened Connection
  import opened Multiplexer
  import opened Phases
  import opened Conservation
  import opened Runs
  import opened Loss
  import opened Notices
  import opened Refusals

  lemma {:induction false} LeadsSnoc(s: System, actions: seq<Action>, t: System, a: Action)
    requires Leads(s, actions, t) && Enabled(t, a)
    ensures Leads(s, actions + [a], Next(t, a))
    decreases |actions|
  {
    if actions == [] {
      assert [] + [a] == [a];
    } else {
      assert (actions + [a])[1..] == actions[1..] + [a];
      LeadsSnoc(Next(s, actions[0]), actions[1..], t, a);
    }
  }

  // ---- Which messages are taken for responses

  /** A message that begins now is taken for the response in the first open slot, unless it is
      of push type, or no response is owed, or the request in front expects none. */
  lemma ClassificationExact(actions: seq<Action>, s: System)
    requires Leads(Boot, actions, s) && Active(s) && s.conn.readBuffer != "" && !s.conn.onPush
    ensures CurrentSink(s.conn) ==
            if ToType(s.conn.readBuffer[0]) == Push || Owed(s.conn.reqs) == [] || s.conn.reqs[0].remaining == 0 then ToPush
            else ToSlot(Owed(s.conn.reqs)[0])
  {
    InvReached(actions, s);
    var q := s.conn.reqs;
    if q != [] && IsWaiting(q[0]) {
      AllWaiting(q);
    } else if q != [] && q[0].remaining > 0 {
      AnswerOwes(q, 0);
    }
  }

  const OK: Bytes := "+OK\r\n"

  lemma OkParses()
    ensures Parse(Initial, OK, [], AcceptAll) == Result(Finished, State([1], NoBulk, 5), [Node(SimpleString, 1, 0, "OK")])
  {
    var v := Simple(SimpleString, "OK");
    assert Print(v) == OK && OK + "" == OK;
    ParserUndoesPrinter(v, "");
  }

  ghost predicate Reachable(s: System) {
    exists actions :: Leads(Boot, actions, s)
  }

  lemma ReachableNext(s: System, a: Action)
    requires Reachable(s) && Enabled(s, a)
    ensures Reachable(Next(s, a))
  {
    var actions :| Leads(Boot, actions, s);
    LeadsSnoc(Boot, actions, s, a);
  }

  /** Nothing of a message has arrived, and nothing has been dispatched. */
  ghost predicate Quiet(s: System) {
    && Reachable(s) && Active(s) && s.conn.isOpen && s.reader.InFlight? && s.log.routed == [] && s.log.nodes == []
    && s.log.failed == [] && s.conn.readBuffer == "" && s.conn.parser == Initial && !s.conn.onPush
  }

  lemma Opened() returns (s: System)
    ensures Quiet(s) && s.conn.reqs == [] && s.writer.Running? && s.log.nextId == 0
  {
    assert Leads(Boot, [], Boot);
    ReachableNext(Boot, Connect);
    ReachableNext(Next(Boot, Connect), Start);
    s := Next(Next(Boot, Connect), Start);
  }

  lemma Queued(s: System, req: Req) returns (t: System)
    requires Quiet(s) && s.writer.Running? && !req.helloPriority
    ensures Quiet(t) && t.writer.Running? && t.log.nextId == s.log.nextId + 1
    ensures t.conn.reqs == s.conn.reqs + [Info(s.log.nextId, req, req.expected, Waiting, 0)]
  {
    ReachableNext(s, Exec(req));
    t := Next(s, Exec(req));
  }

  lemma AllStaged(s: System) returns (t: System)
    requires Quiet(s) && s.writer.Running? && s.conn.reqs != [] && AllAre(IsWaiting, s.conn.reqs)
    ensures Quiet(t) && t.writer.Writing? && t.conn.reqs == Stage(s.conn.reqs)
  {
    FilterAll(IsWaiting, s.conn.reqs);
    ReachableNext(s, Coalesce);
    t := Next(s, Coalesce);
  }

  /** Bytes have arrived and are about to be read. */
  ghost predicate Pending(s: System, q: seq<Info>, w: Writer, data: Bytes) {
    && Reachable(s) && Active(s) && s.conn.isOpen && s.reader.Ready? && s.log.routed == [] && s.log.nodes == []
    && s.log.failed == [] && s.conn.readBuffer == data && s.conn.parser == Initial && !s.conn.onPush
    && s.conn.reqs == q && s.writer == w
  }

  lemma Arrived(s: System, data: Bytes) returns (t: System)
    requires Quiet(s) && data != ""
    ensures Pending(t, s.conn.reqs, s.writer, data)
  {
    ReachableNext(s, ReadDone(data));
    t := Next(s, ReadDone(data));
    assert "" + data == data;
  }

  /** Where a message that is not of push type goes. */
  function SinkFor(q: seq<Info>): Sink {
    if q == [] || q[0].remaining == 0 || IsWaiting(q[0]) then ToPush
    else ToSlot(Slot(q[0].id, if q[0].remaining <= q[0].req.expected then q[0].req.expected - q[0].remaining else 0))
  }

  lemma OkIsRead(c: Conn)
    requires c.readBuffer == OK && c.parser == Initial && !c.onPush
    ensures CurrentSink(c) == SinkFor(c.reqs)
    ensures var r := OnRead(c, [], AcceptAll);
            && r.nodes == [Node(SimpleString, 1, 0, "OK")] && r.size == 5 && r.conn.cancelRunCalled == c.cancelRunCalled
            && r.result == (if SinkFor(c.reqs).ToPush? then PushRead else ResponseRead)
            && r.conn.reqs == if SinkFor(c.reqs).ToPush? then c.reqs else Answer(c.reqs, 5)
  {
    OkParses();
  }

  /** A reply arrives and is dispatched. */
  lemma Replied(s: System) returns (t: System)
    requires Quiet(s)
    ensures var q := s.conn.reqs;
            && Reachable(t) && Active(t) && t.writer == s.writer
            && t.log.routed == [Routed(SinkFor(q), Message([Node(SimpleString, 1, 0, "OK")], 5))]
            && t.conn.reqs == if SinkFor(q).ToPush? then q else Answer(q, 5)
  {
    var u := Arrived(s, OK);
    OkIsRead(u.conn);
    ReachableNext(u, Dispatch(AcceptAll));
    t := Next(u, Dispatch(AcceptAll));
  }

  /** The condition on the front request is needed: a reply that arrives while a request
      without responses is still staged in front goes to the push adapter, although a
      response is owed. */
  lemma ReplyTakenForPush() returns (s: System)
    ensures Reachable(s) && Active(s)
    ensures s.log.routed == [Routed(ToPush, Message([Node(SimpleString, 1, 0, "OK")], 5))]
    ensures Owed(s.conn.reqs) == [Slot(1, 0)]
  {
    s := Opened();
    s := Queued(s, Req("S", 0, false, false, false, false));
    s := Queued(s, Req("G", 1, false, false, false, false));
    s := AllStaged(s);
    s := Replied(s);
    var i := s.conn.reqs[1];
    FilterAll(NotWaiting, s.conn.reqs);
    assert s.conn.reqs[1..] == [i] && OwnSlots(i) == [Slot(1, 0)];
    assert AllSlots([i]) == [Slot(1, 0)];
  }

  // ---- Sending again what was answered in part

  lemma LoseOne(i: Info)
    requires Survives(i)
    ensures Lose([i]) == [ToWaiting(i)]
  {
    FilterAll(Survives, [i]);
  }

  lemma Disconnected(s: System) returns (t: System)
    requires Reachable(s) && Active(s) && s.writer.Writing?
    ensures Reachable(t) && t.conn.reqs == Lose(s.conn.reqs) && t.writer.WriterOff? && t.reader.ReaderOff?
  {
    ReachableNext(s, ReadFailed);
    ReachableNext(Next(s, ReadFailed), WriterCancelled);
    t := Next(Next(s, ReadFailed), WriterCancelled);
  }

  lemma Resent(s: System) returns (t: System)
    requires Reachable(s) && s.writer.WriterOff? && s.reader.ReaderOff?
    ensures Reachable(t) && Active(t) && t.log.staged == s.conn.reqs && t.log.sent == Payloads(s.conn.reqs)
  {
    ReachableNext(s, Connect);
    var u := Next(s, Connect);
    var actions :| Leads(Boot, actions, u);
    NextEpochSendsSurvivors(actions, u);
    InvReached(actions, u);
    ReachableNext(u, Start);
    ReachableNext(Next(u, Start), Coalesce);
    t := Next(Next(u, Start), Coalesce);
  }

  /** A request of two commands got one response before the connection was lost. Both commands
      are sent again, but only one response is waited for, for the second one. */
  lemma PartlyAnsweredIsSentInFull() returns (s: System)
    ensures Reachable(s) && Active(s)
    ensures s.log.sent == "GS" && AllSlots(s.log.staged) == [Slot(0, 1)] && s.log.staged[0].req.expected == 2
  {
    s := Opened();
    s := Queued(s, Req("GS", 2, false, false, false, false));
    s := AllStaged(s);
    s := Replied(s);
    assert s.conn.reqs == [s.conn.reqs[0]];
    LoseOne(s.conn.reqs[0]);
    s := Disconnected(s);
    s := Resent(s);
    var i := s.log.staged[0];
    assert s.log.staged == [i] && OwnSlots(i) == [Slot(0, 1)];
    assert "GS" + "" == "GS";
  }

  // ---- Replies that do not parse

  ghost predicate ReplyError(s: System, a: Action) {
    && a.Dispatch? && s.conn.isOpen && s.conn.Readable() && s.conn.readBuffer != ""
    && OnRead(s.conn, s.log.nodes, a.rejects).result.ReadError? && CurrentSink(s.conn).ToSlot?
  }

  ghost predicate Clean(s: System, actions: seq<Action>)
    decreases |actions|
  {
    actions == [] || (!ReplyError(s, actions[0]) && (Enabled(s, actions[0]) ==> Clean(Next(s, actions[0]), actions[1..])))
  }

  lemma {:induction false} CleanRunsFailNobody(s: System, actions: seq<Action>, s': System)
    requires Leads(s, actions, s') && Clean(s, actions)
    ensures s'.log.failed == s.log.failed
    decreases |actions|
  {
    if actions != [] {
      assert s.log.failed + [] == s.log.failed;
      CleanRunsFailNobody(Next(s, actions[0]), actions[1..], s');
    }
  }

  lemma QueuedNotNotified(s: System, k: nat)
    requires IdInv(s) && NoticeInv(s) && s.log.failed == [] && k < |s.conn.reqs|
    ensures multiset(s.log.notices)[s.conn.reqs[k].id] == 0
  {
    var id := s.conn.reqs[k].id;
    assert Known(s.conn.reqs, s.log.left)[id] <= 1;
    QueuedOnce(s.conn.reqs, k);
    ReleasedAmongLeft(s.log.left, id);
  }

  lemma LeftNotifiedOnce(s: System, k: nat)
    requires IdInv(s) && NoticeInv(s) && s.log.failed == [] && k < |s.log.left|
    ensures multiset(s.log.notices)[s.log.left[k].id] == if s.log.left[k].exit.Removed? then 0 else 1
  {
    var id := s.log.left[k].id;
    assert Known(s.conn.reqs, s.log.left)[id] <= 1;
    ReleasedAmongLeft(s.log.left, id);
    ExitCounts(s.log.left, k);
  }

  /** In a run in which every reply parses and no adapter refuses one, a request in the queue has
      not been notified, and one that has left was notified exactly once, or not at all if its
      own caller took it out. */
  lemma NotifiedOnce(actions: seq<Action>, s: System)
    requires Leads(Boot, actions, s) && Clean(Boot, actions)
    ensures forall k :: 0 <= k < |s.conn.reqs| ==> multiset(s.log.notices)[s.conn.reqs[k].id] == 0
    ensures forall k :: 0 <= k < |s.log.left| ==>
              multiset(s.log.notices)[s.log.left[k].id] == if s.log.left[k].exit.Removed? then 0 else 1
  {
    IdReached(actions, s);
    NoticeRun(Boot, actions, s);
    CleanRunsFailNobody(Boot, actions, s);
    forall k | 0 <= k < |s.conn.reqs|
      ensures multiset(s.log.notices)[s.conn.reqs[k].id] == 0
    {
      QueuedNotNotified(s, k);
    }
    forall k | 0 <= k < |s.log.left|
      ensures multiset(s.log.notices)[s.log.left[k].id] == if s.log.left[k].exit.Removed? then 0 else 1
    {
      LeftNotifiedOnce(s, k);
    }
  }

  lemma ErrorStep(s: System, a: Action)
    requires Active(s) && Enabled(s, a) && ReplyError(s, a)
    ensures s.conn.reqs != []
    ensures var t := Next(s, a);
            && !Active(t) && t.conn.reqs == Lose(s.conn.reqs) && t.log.failed == s.log.failed + [s.conn.reqs[0].id]
            && t.log.routed == s.log.routed && t.conn.usage == s.conn.usage && NotWaiting(s.conn.reqs[0])
  {
    assert Ids([s.conn.reqs[0]]) == [s.conn.reqs[0].id];
  }

  /** Such a reply ends the epoch, and the request it was for is told. It stays in the queue
      all the same, to be sent again, if and only if it may outlive the connection. */
  lemma NotifiedButQueued(actions: seq<Action>, s: System, a: Action)
    requires Leads(Boot, actions, s) && Active(s) && Enabled(s, a) && ReplyError(s, a)
    ensures s.conn.reqs != [] && !Active(Next(s, a))
    ensures s.conn.reqs[0].id in Next(s, a).log.failed
    ensures s.conn.reqs[0].id in Ids(Next(s, a).conn.reqs) <==> !s.conn.reqs[0].req.cancelIfUnresponded
  {
    ErrorStep(s, a);
    QueuedAtMostOnce(actions, s, 0);
    LoseMembers(s.conn.reqs, 0);
  }

  /** A reply ends the epoch with an error if and only if its bytes do not parse, or the adapter
      of its slot refuses any node of what is there. */
  lemma ReplyErrorExactly(s: System, rejects: Adapter)
    requires Enabled(s, Dispatch(rejects)) && s.conn.isOpen && CurrentSink(s.conn).ToSlot?
    ensures var all := Parse(s.conn.parser, s.conn.readBuffer, s.log.nodes, AcceptAll);
            ReplyError(s, Dispatch(rejects)) <==> RefusesAny(rejects, all.nodes, |s.log.nodes|) || all.status.Failed?
  {
    var c := s.conn;
    RejectedExactly(c.parser, c.readBuffer, s.log.nodes, rejects);
    if !Parse(c.parser, c.readBuffer, s.log.nodes, rejects).status.Rejected? {
      ParseUnrejected(c.parser, c.readBuffer, s.log.nodes, rejects);
    }
  }

  const RefuseAll: Adapter := ns => ns != []

  lemma OkIsRefused(c: Conn)
    requires c.readBuffer == OK && c.parser == Initial && !c.onPush
    requires c.reqs != [] && NotWaiting(c.reqs[0]) && c.reqs[0].remaining > 0
    ensures OnRead(c, [], RefuseAll).result.ReadError? && CurrentSink(c).ToSlot?
  {
    OkParses();
    var all := Parse(Initial, OK, [], AcceptAll).nodes;
    assert all[..1] == all;
    RejectedExactly(Initial, OK, [], RefuseAll);
  }

  lemma Told(s: System, rejects: Adapter) returns (t: System)
    requires Reachable(s) && Active(s) && Enabled(s, Dispatch(rejects)) && ReplyError(s, Dispatch(rejects))
    requires s.log.failed == [] && s.log.routed == []
    ensures s.conn.reqs != [] && Reachable(t) && t.log.failed == [s.conn.reqs[0].id] && t.log.routed == []
    ensures t.conn.reqs == Lose(s.conn.reqs) && t.conn.usage == s.conn.usage
  {
    ErrorStep(s, Dispatch(rejects));
    ReachableNext(s, Dispatch(rejects));
    t := Next(s, Dispatch(rejects));
  }

  /** One request, on the wire, that may outlive the connection. */
  lemma OneOnTheWire() returns (s: System)
    ensures Quiet(s) && s.conn.reqs == [Info(0, Req("G", 1, false, false, false, false), 1, Staged, 0)]
  {
    s := Opened();
    s := Queued(s, Req("G", 1, false, false, false, false));
    s := AllStaged(s);
  }

  /** A run in which a reply is well formed and its adapter refuses it: the request is told, no
      response is counted, and it is queued. */
  lemma RefusedReplyIsAnError() returns (s: System)
    ensures Reachable(s) && s.log.failed == [0] && s.log.routed == [] && Ids(s.conn.reqs) == [0]
  {
    s := OneOnTheWire();
    LoseOne(s.conn.reqs[0]);
    s := Arrived(s, OK);
    OkIsRefused(s.conn);
    s := Told(s, RefuseAll);
  }

  lemma SeparatorIsRefused(c: Conn)
    requires c.readBuffer == SEP && c.parser == Initial && !c.onPush
    requires c.reqs != [] && NotWaiting(c.reqs[0]) && c.reqs[0].remaining > 0
    ensures OnRead(c, [], AcceptAll).result.ReadError? && CurrentSink(c).ToSlot?
  {
    assert Consume(Initial, SEP) == Fail(InvalidDataType);
  }

  /** The same with a reply that does not parse. */
  lemma ErrorLeavesRequestQueued() returns (s: System)
    ensures Reachable(s) && s.log.failed == [0] && s.log.routed == [] && Ids(s.conn.reqs) == [0]
  {
    s := OneOnTheWire();
    LoseOne(s.conn.reqs[0]);
    s := Arrived(s, SEP);
    SeparatorIsRefused(s.conn);
    s := Told(s, AcceptAll);
  }
}
