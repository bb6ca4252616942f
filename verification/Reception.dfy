// The reading side within an epoch: the messages dispatched so far are those of one pass over
// all the bytes received, and a message that is only partly there keeps its destination.

module Reception {
  import opened Resp3
  import opened Parsing
  import opened Stream
  import opened Connection
  import opened Multiplexer
  import opened Phases

  function Messages(rs: seq<Routed>): (ms: seq<Message>)
    ensures |ms| == |rs| && forall i :: 0 <= i < |rs| ==> ms[i] == rs[i].message
  {
    if rs == [] then [] else [rs[0].message] + Messages(rs[1..])
  }

  lemma MessagesSnoc(rs: seq<Routed>, r: Routed)
    ensures Messages(rs + [r]) == Messages(rs) + [r.message]
  {
  }

  /** Draining what is buffered completes the messages of the whole stream. */
  ghost predicate StreamInv(s: System) {
    var c, l := s.conn, s.log;
    Active(s) ==>
      && c.Readable()
      && Drain(Initial, l.received, []) == Drain(c.parser, c.readBuffer, l.nodes).After(Messages(l.routed))
      && (s.reader.InFlight? ==> Parse(c.parser, c.readBuffer, l.nodes, AcceptAll) == Result(NeedsMore, c.parser, l.nodes))
      && (s.reader.Ready? ==> c.readBuffer != "")
  }

  ghost predicate SameStream(s: System, t: System) {
    && t.conn.parser == s.conn.parser && t.conn.readBuffer == s.conn.readBuffer && t.reader == s.reader
    && t.log.received == s.log.received && t.log.nodes == s.log.nodes && t.log.routed == s.log.routed
  }

  lemma StreamFrame(s: System, t: System)
    requires StreamInv(s) && SameStream(s, t) && (Active(t) ==> Active(s))
    ensures StreamInv(t)
  {
  }

  lemma NothingYet()
    ensures Parse(Initial, "", [], AcceptAll) == Result(NeedsMore, Initial, [])
  {
  }

  lemma StartStream(s: System)
    ensures StreamInv(DoStart(s))
  {
    NothingYet();
    var d := Drain(Initial, "", []);
    assert [] + d.messages == d.messages;
  }

  lemma ReadStream(s: System, t: System, chunk: Bytes)
    requires StreamInv(s) && Active(s) && s.reader.InFlight? && t.reader.Ready? && chunk != ""
    requires t.conn.parser == s.conn.parser && t.conn.readBuffer == s.conn.readBuffer + chunk
    requires t.log.received == s.log.received + chunk && t.log.nodes == s.log.nodes && t.log.routed == s.log.routed
    ensures StreamInv(t)
  {
    DrainResumes(Initial, s.log.received, chunk, []);
    assert Messages(s.log.routed) + [] == Messages(s.log.routed);
  }

  /** Parsing that stopped for lack of data would stop again at the same place. */
  lemma ParseStays(st: State, view: Bytes, acc: seq<Node>)
    requires st.Good() && st.consumed <= |view|
    ensures var r := Parse(st, view, acc, AcceptAll); r.status.NeedsMore? ==> Parse(r.st, view, r.nodes, AcceptAll) == r
  {
    ParseResumes(st, view, "", acc, AcceptAll);
    assert view + "" == view;
  }

  lemma PauseStream(s: System, t: System, r: Result)
    requires StreamInv(s) && Active(s) && r == Parse(s.conn.parser, s.conn.readBuffer, s.log.nodes, AcceptAll)
    requires r.status.NeedsMore? && t.conn.parser == r.st && t.log.nodes == r.nodes && t.reader.InFlight?
    requires t.conn.readBuffer == s.conn.readBuffer && t.log.received == s.log.received && t.log.routed == s.log.routed
    ensures StreamInv(t)
  {
    ParseStays(s.conn.parser, s.conn.readBuffer, s.log.nodes);
  }

  lemma FinishStream(s: System, t: System, r: Result, sink: Sink)
    requires StreamInv(s) && Active(s) && r == Parse(s.conn.parser, s.conn.readBuffer, s.log.nodes, AcceptAll)
    requires r.status.Finished? && t.conn.parser == Initial && t.log.nodes == []
    requires t.conn.readBuffer == s.conn.readBuffer[r.st.consumed..] && t.log.received == s.log.received
    requires t.log.routed == s.log.routed + [Routed(sink, Message(r.nodes, r.st.consumed))]
    requires t.reader == if t.conn.readBuffer == "" then InFlight else Ready
    ensures StreamInv(t)
  {
    var m := Message(r.nodes, r.st.consumed);
    NothingYet();
    MessagesSnoc(s.log.routed, Routed(sink, m));
    Regroup(Messages(s.log.routed), [m], Drain(Initial, t.conn.readBuffer, []).messages);
  }

  lemma DispatchStream(s: System, rejects: Adapter)
    requires Sane(s) && StreamInv(s) && Enabled(s, Dispatch(rejects))
    ensures StreamInv(DoDispatch(s, rejects))
  {
    var c, t := s.conn, DoDispatch(s, rejects);
    if c.isOpen {
      var p := Parse(c.parser, c.readBuffer, s.log.nodes, rejects);
      if p.status != Rejected {
        ParseUnrejected(c.parser, c.readBuffer, s.log.nodes, rejects);
      }
      match OnRead(c, s.log.nodes, rejects).result {
        case MoreNeeded => PauseStream(s, t, p);
        case PushRead => FinishStream(s, t, p, CurrentSink(c));
        case ResponseRead => FinishStream(s, t, p, CurrentSink(c));
        case ReadError => assert !Active(t);
        case ReadFault =>
      }
    }
  }

  lemma StreamStep(s: System, a: Action)
    requires Sane(s) && StreamInv(s) && Enabled(s, a)
    ensures StreamInv(Next(s, a))
  {
    var t := Next(s, a);
    match a {
      case Start => StartStream(s);
      case ReadDone(chunk) =>
        if Active(s) {
          ReadStream(s, t, chunk);
        }
      case Dispatch(rejects) => DispatchStream(s, rejects);
      case _ =>
        if Active(t) {
          StreamFrame(s, t);
        }
    }
  }
}
