// The type of a message shows in its first byte and in its first node alike, and one of push
// type never fills a response slot.

module Pushes {
  import opened Resp3
  import opened Parsing
  import opened Stream
  import opened Connection
  import opened Multiplexer
  import opened Phases
  import opened Reception
  import opened Routing

  predicate StartsWithPush(ns: seq<Node>) {
    ns != [] && ns[0].dataType == Push
  }

  lemma PushHeader(s: seq<int>, elem: Bytes)
    requires Levels(s)
    ensures var h := ConsumeHeader(s, Push, elem); !h.Announces? && (h.Emits? ==> h.node.dataType == Push)
  {
  }

  lemma OtherHeader(s: seq<int>, t: Type, elem: Bytes)
    requires Levels(s) && t != Push
    ensures var h := ConsumeHeader(s, t, elem);
            (h.Emits? ==> h.node.dataType != Push) && (h.Announces? ==> h.bulk.t != Push)
  {
  }

  /** No node of the message has been handed over yet: its first line is still to be read, or
      has announced a bulk, which no push does. */
  ghost predicate AtFirstNode(st: State, push: bool) {
    if st.pending.NoBulk? then st.consumed == 0 else !push && st.pending.t != Push
  }

  /** The first node of a message is of push type if and only if its first byte says so. */
  lemma FirstNodeType(st: State, view: Bytes, push: bool)
    requires st.Live() && st.consumed <= |view| && view != "" && push == (ToType(view[0]) == Push)
    requires AtFirstNode(st, push)
    ensures var o := Consume(st, view);
            && (o.Emit? ==> (o.node.dataType == Push <==> push))
            && (o.NeedMore? ==> AtFirstNode(o.st, push))
  {
    if st.pending.NoBulk? {
      var pos := FindSep(view, 0);
      if 0 < pos < |view| {
        if push {
          PushHeader(st.stack, view[1..pos]);
        } else {
          OtherHeader(st.stack, ToType(view[0]), view[1..pos]);
        }
      }
    }
  }

  /** What has been handed over agrees with the first byte. */
  ghost predicate Agrees(st: State, view: Bytes, nodes: seq<Node>)
    requires view != ""
  {
    var push := ToType(view[0]) == Push;
    if nodes == [] then AtFirstNode(st, push) else StartsWithPush(nodes) == push
  }

  lemma ParseAgrees(st: State, view: Bytes, acc: seq<Node>, rejects: Adapter)
    requires st.Live() && st.consumed <= |view| && view != "" && Agrees(st, view, acc)
    ensures var r := Parse(st, view, acc, rejects);
            && (r.nodes != [] || r.status.NeedsMore? ==> Agrees(r.st, view, r.nodes))
            && (r.status.Finished? ==> r.nodes != [])
  {
    if acc == [] {
      FirstNodeType(st, view, ToType(view[0]) == Push);
      var o := Consume(st, view);
      assert o.Emit? ==> [] + [o.node] == [o.node];
    }
  }

  ghost predicate PushInv(s: System) {
    var c, l := s.conn, s.log;
    Active(s) ==>
      && (forall k :: 0 <= k < |l.routed| && l.routed[k].sink.ToSlot? ==> !StartsWithPush(l.routed[k].message.nodes))
      && (l.sink.Some? ==> c.readBuffer != "" && Agrees(c.parser, c.readBuffer, l.nodes))
  }

  lemma FinishedPush(s: System, t: System, r: Routed)
    requires PushInv(s) && Active(s) && t.log.routed == s.log.routed + [r] && t.log.sink.None?
    requires r.sink.ToSlot? ==> !StartsWithPush(r.message.nodes)
    ensures PushInv(t)
  {
  }

  lemma PausedPush(s: System, t: System)
    requires PushInv(s) && Active(s) && t.log.routed == s.log.routed && t.conn.readBuffer != ""
    requires Agrees(t.conn.parser, t.conn.readBuffer, t.log.nodes)
    ensures PushInv(t)
  {
  }

  lemma SinkAgrees(s: System)
    requires SinkInv(s) && PushInv(s) && Active(s) && s.conn.readBuffer != ""
    ensures Agrees(s.conn.parser, s.conn.readBuffer, s.log.nodes)
  {
  }

  lemma ReadAgrees(c: Conn, nodes: seq<Node>, rejects: Adapter)
    requires c.Readable() && c.readBuffer != "" && Agrees(c.parser, c.readBuffer, nodes)
    ensures var r := OnRead(c, nodes, rejects);
            && (r.result.MoreNeeded? ==> Agrees(r.conn.parser, c.readBuffer, r.nodes) && r.conn.readBuffer == c.readBuffer)
            && (r.result.PushRead? || r.result.ResponseRead? ==>
                (StartsWithPush(r.nodes) <==> ToType(c.readBuffer[0]) == Push))
  {
    ParseAgrees(c.parser, c.readBuffer, nodes, rejects);
  }

  lemma DispatchPush(s: System, rejects: Adapter)
    requires Sane(s) && StreamInv(s) && SinkInv(s) && PushInv(s) && Enabled(s, Dispatch(rejects))
    ensures PushInv(DoDispatch(s, rejects))
  {
    var c, t := s.conn, DoDispatch(s, rejects);
    if c.isOpen {
      var r := OnRead(c, s.log.nodes, rejects);
      SinkAgrees(s);
      ReadAgrees(c, s.log.nodes, rejects);
      match r.result {
        case MoreNeeded => PausedPush(s, t);
        case PushRead => FinishedPush(s, t, Routed(CurrentSink(c), Message(r.nodes, r.size)));
        case ResponseRead => FinishedPush(s, t, Routed(CurrentSink(c), Message(r.nodes, r.size)));
        case ReadError => assert !Active(t);
        case ReadFault =>
      }
    }
  }

  lemma ArrivedPush(s: System, t: System, chunk: Bytes)
    requires PushInv(s) && Active(s) && t.log.routed == s.log.routed && t.log.sink == s.log.sink
    requires t.conn.parser == s.conn.parser && t.log.nodes == s.log.nodes && t.conn.readBuffer == s.conn.readBuffer + chunk
    ensures PushInv(t)
  {
  }

  lemma PushStep(s: System, a: Action)
    requires Sane(s) && StreamInv(s) && SinkInv(s) && PushInv(s) && Enabled(s, a)
    ensures PushInv(Next(s, a))
  {
    if a.Dispatch? {
      DispatchPush(s, a.rejects);
    } else if a.ReadDone? && Active(s) {
      ArrivedPush(s, Next(s, a), a.chunk);
    }
  }
}
