// Nothing in an epoch gets stuck: a few steps of the writer send all that waits, and no step of
// the reader is taken in vain.

module Progress {
  import opened Resp3
  import opened Parsing
  import opened Queue
  import opened Connection
  import opened Multiplexer
  import opened Phases
  import opened Completion

  predicate ByWriter(a: Action) {
    a.WakeWriter? || a.WriteDone? || a.Coalesce?
  }

  lemma TwoSteps(s: System, a: Action, b: Action)
    requires Enabled(s, a) && Enabled(Next(s, a), b)
    ensures Leads(s, [a, b], Next(Next(s, a), b))
  {
    assert [a, b][1..] == [b] && [b][1..] == [];
  }

  /** All that was waiting in `q` is staged in `t`, and nothing is waiting any more. */
  ghost predicate AllSent(q: seq<Info>, t: System) {
    && AllAre(NotWaiting, t.conn.reqs)
    && forall k :: 0 <= k < |q| && IsWaiting(q[k]) ==> q[k].id in Ids(t.log.staged)
  }

  lemma StagedIds(staged: seq<Info>, q: seq<Info>, k: nat)
    requires k < |q| && IsWaiting(q[k])
    ensures q[k].id in Ids(staged + Filter(IsWaiting, q))
  {
    WaitingIds(q, k);
    IdsConcat(staged, Filter(IsWaiting, q));
  }

  lemma AllOnTheWire(q: seq<Info>)
    ensures AllAre(NotWaiting, Stage(q))
  {
  }

  lemma SendsAll(s: System, t: System, q: seq<Info>)
    requires t.conn.reqs == Stage(s.conn.reqs) && t.log.staged == s.log.staged + Filter(IsWaiting, q)
    ensures AllSent(q, t)
  {
    AllOnTheWire(s.conn.reqs);
    forall k | 0 <= k < |q| && IsWaiting(q[k])
      ensures q[k].id in Ids(t.log.staged)
    {
      StagedIds(s.log.staged, q, k);
    }
  }

  lemma CoalesceSends(s: System, q: seq<Info>)
    requires s.writer.Running? && s.conn.isOpen && Filter(IsWaiting, s.conn.reqs) == Filter(IsWaiting, q)
    ensures AllSent(q, DoCoalesce(s)) && Active(DoCoalesce(s)) == Active(s)
  {
    AppendNothing(s.log.staged);
    SendsAll(s, DoCoalesce(s), q);
  }

  lemma WriteThenSend(s: System)
    requires Sane(s) && Active(s) && s.writer.Writing?
    ensures Enabled(s, WriteDone) && Enabled(Next(s, WriteDone), Coalesce)
    ensures var t := Next(Next(s, WriteDone), Coalesce); Active(t) && AllSent(s.conn.reqs, t)
  {
    WriteKeeps(s.conn.reqs);
    CoalesceSends(DoWriteDone(s), s.conn.reqs);
  }

  lemma WakeThenSend(s: System)
    requires Sane(s) && Active(s) && s.writer == Asleep(true)
    ensures Enabled(s, WakeWriter) && Enabled(Next(s, WakeWriter), Coalesce)
    ensures var t := Next(Next(s, WakeWriter), Coalesce); Active(t) && AllSent(s.conn.reqs, t)
  {
    CoalesceSends(s.(writer := Running), s.conn.reqs);
  }

  /** These steps of the writer lead to `t`, where all that waits in `s` is on the wire. */
  ghost predicate Sends(s: System, steps: seq<Action>, t: System) {
    && |steps| <= 2 && (forall k :: 0 <= k < |steps| ==> ByWriter(steps[k])) && Leads(s, steps, t)
    && Active(t) && AllSent(s.conn.reqs, t)
  }

  lemma SendsAtOnce(s: System)
    requires Sane(s) && Active(s) && s.writer.Running?
    ensures Sends(s, [Coalesce], Next(s, Coalesce))
  {
    CoalesceSends(s, s.conn.reqs);
    assert [Coalesce][1..] == [];
  }

  lemma SendsAfter(s: System, a: Action)
    requires Sane(s) && Active(s) && a == (if s.writer.Writing? then WriteDone else WakeWriter)
    requires s.writer.Writing? || s.writer == Asleep(true)
    ensures Enabled(s, a) && Enabled(Next(s, a), Coalesce)
    ensures Sends(s, [a, Coalesce], Next(Next(s, a), Coalesce))
  {
    if s.writer.Writing? {
      WriteThenSend(s);
    } else {
      WakeThenSend(s);
    }
    TwoSteps(s, a, Coalesce);
  }

  /** From every state of an epoch at most two steps of the writer, waking up or finishing its
      write first, put everything that waits on the wire. */
  lemma WriterCatchesUp(actions: seq<Action>, s: System) returns (steps: seq<Action>, t: System)
    requires Leads(Boot, actions, s) && Active(s)
    ensures Sends(s, steps, t)
  {
    SaneRun(Boot, actions, s);
    if s.writer.Running? {
      SendsAtOnce(s);
      steps, t := [Coalesce], Next(s, Coalesce);
    } else if s.writer == Asleep(false) {
      steps, t := [], s;
    } else {
      var a := if s.writer.Writing? then WriteDone else WakeWriter;
      SendsAfter(s, a);
      steps, t := [a, Coalesce], Next(Next(s, a), Coalesce);
    }
  }

  /** With nothing to write the writer goes to sleep, and only a new request or the end of the
      epoch wakes it. */
  lemma WriterSleeps(s: System, a: Action)
    requires Enabled(s, a) && s.conn.isOpen
    ensures a.Coalesce? && Filter(IsWaiting, s.conn.reqs) == [] ==> Next(s, a).writer == Asleep(false)
    ensures s.writer == Asleep(false) && Next(s, a).writer != Asleep(false) ==> a.Exec? || Next(s, a).conn.cancelRunCalled
  {
  }

  /** In an epoch a new request cancels the writer's timer unless bytes are being written. */
  lemma WakesUnlessWriting(actions: seq<Action>, s: System)
    requires Leads(Boot, actions, s) && Active(s)
    ensures WakesWriter(s.conn) <==> !(s.writer.Writing? && s.writer.chunk != "")
  {
    SaneRun(Boot, actions, s);
  }

  lemma ResumeMovesOn(s: System, r: Reading)
    requires s.conn.readBuffer != "" && Fair(s.conn, r) && !r.result.ReadFault?
    ensures var t := Resume(s, r);
            !Active(t) || |t.log.routed| == |s.log.routed| + 1 || (t.reader.InFlight? && r.result.MoreNeeded?)
  {
  }

  /** A dispatch completes a message, or ends the epoch, or waits for more bytes; and it waits
      for more only if those that are there do not complete the message. */
  lemma DispatchMovesOn(actions: seq<Action>, s: System, rejects: Adapter)
    requires Leads(Boot, actions, s) && Active(s) && Enabled(s, Dispatch(rejects))
    ensures var t := Next(s, Dispatch(rejects));
            || !Active(t)
            || |t.log.routed| == |s.log.routed| + 1
            || (t.reader.InFlight? && s.conn.Readable() &&
                Parse(s.conn.parser, s.conn.readBuffer, s.log.nodes, AcceptAll).status.NeedsMore?)
  {
    SaneRun(Boot, actions, s);
    var r := OnRead(s.conn, s.log.nodes, rejects);
    ResumeMovesOn(s, r);
    if r.result.MoreNeeded? {
      ParseUnrejected(s.conn.parser, s.conn.readBuffer, s.log.nodes, rejects);
    }
  }
}
