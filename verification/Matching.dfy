// Which reply reaches which command: exactly when every reply of an epoch fills the slot it is
// the response for.

module Matching {
  import opened Resp3
  import opened Decimal
  import opened Parsing
  import opened Trees
  import opened Stream
  import opened Queue
  import opened Connection
  import opened Multiplexer
  import opened Phases
  import opened Wire
  import opened Reception
  import opened Routing
  import opened Pushes
  import opened Origins
  import opened Runs

  // ---- Replies that come in turn

  /** A message that is no push begins, and the front request has no open slot on the wire. */
  ghost predicate Astray(s: System, a: Action) {
    var c := s.conn;
    && a.Dispatch? && s.log.sink.None? && c.readBuffer != "" && ToType(c.readBuffer[0]) != Push
    && (c.reqs == [] || IsWaiting(c.reqs[0]) || c.reqs[0].remaining == 0)
  }

  /** Whenever a message that is no push begins, the front request has a slot open for it. */
  ghost predicate InTurn(s: System, actions: seq<Action>)
    decreases |actions|
  {
    actions == [] || (!Astray(s, actions[0]) && (Enabled(s, actions[0]) ==> InTurn(Next(s, actions[0]), actions[1..])))
  }

  ghost predicate OnlyPushes(rs: seq<Routed>) {
    forall k :: 0 <= k < |rs| && rs[k].sink.ToPush? ==> StartsWithPush(rs[k].message.nodes)
  }

  ghost predicate BeginsPush(c: Conn) {
    c.readBuffer != "" && ToType(c.readBuffer[0]) == Push
  }

  /** The push adapter has been given pushes only, the message in progress included. */
  ghost predicate Right(s: System) {
    OnlyPushes(s.log.routed) && (s.log.sink == Some(ToPush) ==> BeginsPush(s.conn))
  }

  /** The decision taken by a dispatch is wrong exactly when the message begins astray. */
  lemma DecisionRight(s: System, rejects: Adapter)
    requires SinkInv(s) && Active(s) && s.conn.readBuffer != "" && OnlyPushes(s.log.routed)
    ensures (CurrentSink(s.conn).ToPush? ==> BeginsPush(s.conn)) <==> Right(s) && !Astray(s, Dispatch(rejects))
  {
    if s.log.sink.Some? {
      SinkStands(s);
    }
  }

  lemma PausedRight(s: System, t: System, sink: Sink)
    requires t.log.routed == s.log.routed && t.log.sink == Some(sink) && t.conn.readBuffer == s.conn.readBuffer
    ensures Right(t) <==> OnlyPushes(s.log.routed) && (sink.ToPush? ==> BeginsPush(s.conn))
  {
  }

  lemma FinishedRight(s: System, t: System, r: Routed)
    requires t.log.routed == s.log.routed + [r] && t.log.sink.None?
    requires StartsWithPush(r.message.nodes) <==> BeginsPush(s.conn)
    ensures Right(t) <==> OnlyPushes(s.log.routed) && (r.sink.ToPush? ==> BeginsPush(s.conn))
  {
    var rs, rs' := s.log.routed, t.log.routed;
    assert rs'[|rs|] == r;
    assert forall k | 0 <= k < |rs| :: rs'[k] == rs[k];
  }

  lemma DispatchRight(s: System, rejects: Adapter)
    requires Inv(s) && Enabled(s, Dispatch(rejects)) && Active(s) && Active(Next(s, Dispatch(rejects)))
    ensures Right(Next(s, Dispatch(rejects))) <==> Right(s) && !Astray(s, Dispatch(rejects))
  {
    var c, t := s.conn, DoDispatch(s, rejects);
    var r := OnRead(c, s.log.nodes, rejects);
    SinkAgrees(s);
    ReadAgrees(c, s.log.nodes, rejects);
    if OnlyPushes(s.log.routed) {
      DecisionRight(s, rejects);
    }
    if r.result.MoreNeeded? {
      PausedRight(s, t, CurrentSink(c));
    } else {
      FinishedRight(s, t, Routed(CurrentSink(c), Message(r.nodes, r.size)));
    }
  }

  lemma OtherRight(s: System, a: Action)
    requires SinkInv(s) && Enabled(s, a) && !a.Start? && !a.Dispatch? && Active(Next(s, a))
    ensures Active(s) && (Right(Next(s, a)) <==> Right(s))
  {
  }

  lemma RightStep(s: System, a: Action)
    requires Inv(s) && Enabled(s, a) && !a.Start? && Active(Next(s, a))
    ensures Active(s) && (Right(Next(s, a)) <==> Right(s) && !Astray(s, a))
  {
    if a.Dispatch? {
      DispatchRight(s, a.rejects);
    } else {
      OtherRight(s, a);
    }
  }

  predicate NoStart(actions: seq<Action>) {
    forall k :: 0 <= k < |actions| ==> !actions[k].Start?
  }

  lemma {:induction false} RightRun(s: System, actions: seq<Action>, s': System)
    requires Inv(s) && Leads(s, actions, s') && NoStart(actions) && Active(s')
    ensures Active(s) && (Right(s') <==> Right(s) && InTurn(s, actions))
    decreases |actions|
  {
    if actions != [] {
      InvStep(s, actions[0]);
      RightRun(Next(s, actions[0]), actions[1..], s');
      RightStep(s, actions[0]);
    }
  }

  predicate ExpectsSome(r: Req) { r.expected > 0 }

  /** When every request expects a response, a reply is astray only if nothing at all is owed:
      the server has spoken unasked. */
  lemma AstrayIsUnasked(actions: seq<Action>, s: System, a: Action)
    requires Leads(Boot, actions, s) && Active(s) && ExecsAre(ExpectsSome, actions)
    requires a.Dispatch? && s.log.sink.None? && s.conn.readBuffer != "" && ToType(s.conn.readBuffer[0]) != Push
    ensures Astray(s, a) <==> Owed(s.conn.reqs) == []
  {
    InvReached(actions, s);
    OriginRun(ExpectsSome, Boot, actions, s);
    var q := s.conn.reqs;
    if q != [] {
      assert ExpectsSome(q[0].req) && Counted(q[0]);
      if IsWaiting(q[0]) {
        AllWaiting(q);
      } else {
        AnswerOwes(q, 0);
      }
    }
  }

  /** The same holds whatever the requests expect, as long as no write is in flight. */
  lemma AstrayBetweenWrites(actions: seq<Action>, s: System, a: Action)
    requires Leads(Boot, actions, s) && Active(s) && !s.writer.Writing?
    requires a.Dispatch? && s.log.sink.None? && s.conn.readBuffer != "" && ToType(s.conn.readBuffer[0]) != Push
    ensures Astray(s, a) <==> Owed(s.conn.reqs) == []
  {
    InvReached(actions, s);
    var q := s.conn.reqs;
    if q != [] {
      NothingLingers(actions, s, 0);
      if IsWaiting(q[0]) {
        AllWaiting(q);
      } else {
        AnswerOwes(q, 0);
      }
    }
  }

  // ---- Replies and slots, in order

  predicate IsPush(v: Value) {
    v.Aggregate? && v.t == Push
  }

  /** The number of values that are not pushes. */
  function Replies(vs: seq<Value>): nat {
    if vs == [] then 0 else (if IsPush(vs[0]) then 0 else 1) + Replies(vs[1..])
  }

  lemma {:induction false} NthDelivered(rs: seq<Routed>, k: nat)
    requires k < |rs| && rs[k].sink.ToSlot?
    ensures |Delivered(rs[..k])| < |Delivered(rs)| && Delivered(rs)[|Delivered(rs[..k])|] == rs[k].sink.slot
  {
    if k > 0 {
      NthDelivered(rs[1..], k - 1);
      assert rs[..k][1..] == rs[1..][..k - 1];
    }
  }

  ghost predicate SameKinds(rs: seq<Routed>, vs: seq<Value>) {
    |rs| == |vs| && forall k :: 0 <= k < |vs| ==> (rs[k].sink.ToPush? <==> IsPush(vs[k]))
  }

  lemma {:induction false} DeliveredAreReplies(rs: seq<Routed>, vs: seq<Value>)
    requires SameKinds(rs, vs)
    ensures |Delivered(rs)| == Replies(vs)
  {
    if rs != [] {
      DeliveredAreReplies(rs[1..], vs[1..]);
    }
  }

  /** Pushes went to the push adapter, and the j-th of the other values into the j-th slot. */
  ghost predicate Matched(rs: seq<Routed>, vs: seq<Value>, slots: seq<Slot>) {
    && |rs| == |vs| && Replies(vs) <= |slots|
    && forall k :: 0 <= k < |vs| ==>
         if IsPush(vs[k]) then rs[k].sink == ToPush
         else Replies(vs[..k]) < |slots| && rs[k].sink == ToSlot(slots[Replies(vs[..k])])
  }

  lemma KindsMatch(rs: seq<Routed>, vs: seq<Value>, slots: seq<Slot>)
    requires SameKinds(rs, vs) && Delivered(rs) <= slots
    ensures Matched(rs, vs, slots)
  {
    DeliveredAreReplies(rs, vs);
    forall k | 0 <= k < |vs| && !IsPush(vs[k])
      ensures Replies(vs[..k]) < |slots| && rs[k].sink == ToSlot(slots[Replies(vs[..k])])
    {
      NthDelivered(rs, k);
      DeliveredAreReplies(rs[..k], vs[..k]);
    }
  }

  lemma PushValue(v: Value)
    requires Fits(v, 0)
    ensures StartsWithPush(Preorder(v, 0)) <==> IsPush(v)
  {
  }

  ghost predicate NoPushInSlot(rs: seq<Routed>) {
    forall k :: 0 <= k < |rs| && rs[k].sink.ToSlot? ==> !StartsWithPush(rs[k].message.nodes)
  }

  lemma KindsExact(rs: seq<Routed>, vs: seq<Value>)
    requires Messages(rs) == MessagesOf(vs) && AllFit(vs, 0) && NoPushInSlot(rs)
    ensures |rs| == |vs| && (OnlyPushes(rs) <==> SameKinds(rs, vs))
  {
    forall k | 0 <= k < |vs|
      ensures StartsWithPush(rs[k].message.nodes) <==> IsPush(vs[k])
    {
      assert Messages(rs)[k] == MessagesOf(vs)[k];
      PushValue(vs[k]);
    }
  }

  lemma MatchedIsRight(s: System, vs: seq<Value>)
    requires Inv(s) && Active(s) && s.reader.InFlight? && AllFit(vs, 0) && s.log.received == PrintAll(vs)
    ensures Matched(s.log.routed, vs, AllSlots(s.log.staged)) <==> Right(s)
  {
    CaughtUp(s, vs);
    assert NoPushInSlot(s.log.routed);
    KindsExact(s.log.routed, vs);
    if Right(s) {
      KindsMatch(s.log.routed, vs, AllSlots(s.log.staged));
    }
  }

  lemma EpochBegins(before: seq<Action>, s: System)
    requires Leads(Boot, before, s) && Enabled(s, Start)
    ensures Inv(Next(s, Start)) && Right(Next(s, Start))
  {
    InvReached(before, s);
    InvStep(s, Start);
  }

  /** In an epoch in which the server's bytes are the encodings of `vs` and the reader has caught
      up: every push went to the push adapter and the j-th reply filled the j-th slot put on the
      wire, if and only if no reply began while the front request had no slot open for it. */
  lemma EveryReplyReachesItsCommand(
    before: seq<Action>, s0: System, actions: seq<Action>, s: System, vs: seq<Value>)
    requires Leads(Boot, before, s0) && Enabled(s0, Start)
    requires Leads(Next(s0, Start), actions, s) && NoStart(actions) && Active(s) && s.reader.InFlight?
    requires AllFit(vs, 0) && s.log.received == PrintAll(vs)
    ensures Matched(s.log.routed, vs, AllSlots(s.log.staged)) <==> InTurn(Next(s0, Start), actions)
  {
    EpochBegins(before, s0);
    InvRun(Next(s0, Start), actions, s);
    RightRun(Next(s0, Start), actions, s);
    MatchedIsRight(s, vs);
  }
}
