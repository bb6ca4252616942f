// What every interleaving keeps: the coroutines' phases, the order of the queue, and the
// wake-up of the writer.

module Phases {
  import opened Parsing
  import opened Queue
  import opened Connection
  import opened Multiplexer

  /** The epoch has begun and has not been ended by cancel(run). */
  ghost predicate Active(s: System) {
    !s.reader.ReaderOff? && !s.conn.cancelRunCalled
  }

  ghost predicate PhaseInv(s: System) {
    var c := s.conn;
    && (Active(s) ==> !s.writer.WriterOff? && c.isOpen)
    && (c.cancelRunCalled && !(s.writer.WriterOff? && s.reader.ReaderOff?) ==> !c.isOpen)
    && (!s.writer.WriterOff? && !c.cancelRunCalled ==> !s.reader.ReaderOff?)
    && (s.writer == Asleep(false) ==> !c.cancelRunCalled)
    && (s.writer.Writing? ==> c.writeBuffer == s.writer.chunk)
    && (Active(s) && !s.writer.Writing? ==> c.writeBuffer == "")
  }

  /** Written, then staged, then waiting; nothing on the wire outside an epoch; staged only
      while a write is in flight; and nothing waiting while the writer sleeps unwoken. */
  ghost predicate QueueInv(s: System) {
    var q := s.conn.reqs;
    && Sorted(q) && AllCounted(q)
    && (!Active(s) ==> AllAre(IsWaiting, q))
    && (Active(s) && !s.writer.Writing? ==> AllAre(NotStaged, q))
    && (s.writer == Asleep(false) ==> AllAre(NotWaiting, q))
  }

  lemma PhaseStep(s: System, a: Action)
    requires PhaseInv(s) && Enabled(s, a)
    ensures PhaseInv(Next(s, a))
  {
    if a.Coalesce? && s.conn.isOpen && !AnyWaiting(s.conn) {
      assert CoalesceRequests(s.conn).writeBuffer == s.conn.writeBuffer;
    }
  }

  lemma ExecQueue(s: System, req: Req)
    requires PhaseInv(s) && QueueInv(s)
    ensures QueueInv(DoExec(s, req))
  {
    var q, i := s.conn.reqs, Info(s.log.nextId, req, req.expected, Waiting, 0);
    InsertKeeps(q, i, 0);
    AppendKeeps(q, i);
    if AllAre(IsWaiting, q) {
      InsertAllAre(IsWaiting, q, i);
    }
    if AllAre(NotStaged, q) {
      InsertAllAre(NotStaged, q, i);
    }
  }

  lemma CancelRunQueue(s: System)
    requires QueueInv(s)
    ensures var t := DoCancelRun(s);
            && Sorted(t.conn.reqs) && AllCounted(t.conn.reqs) && AllAre(IsWaiting, t.conn.reqs)
            && t.writer != Asleep(false)
    requires PhaseInv(s)
  {
    LoseKeeps(s.conn.reqs);
  }

  lemma FilterQueue(s: System, f: Info -> bool)
    requires QueueInv(s)
    ensures QueueInv(s.(conn := s.conn.(reqs := Filter(f, s.conn.reqs))))
  {
    FilterKeeps(f, s.conn.reqs, 0);
    FilterAllAre(f, IsWaiting, s.conn.reqs);
    FilterAllAre(f, NotWaiting, s.conn.reqs);
    FilterAllAre(f, NotStaged, s.conn.reqs);
  }

  lemma CoalesceQueue(s: System)
    requires PhaseInv(s) && QueueInv(s) && s.writer.Running?
    ensures QueueInv(DoCoalesce(s))
  {
    if s.conn.isOpen {
      StageKeeps(s.conn.reqs);
      if !AnyWaiting(s.conn) {
        Splits(s.conn.reqs);
        FilterAllAre(NotWaiting, NotWaiting, s.conn.reqs);
      }
    }
  }

  lemma WriteQueue(s: System)
    requires PhaseInv(s) && QueueInv(s) && s.writer.Writing?
    ensures QueueInv(DoWriteDone(s))
  {
    WriteSorts(s.conn.reqs);
    FilterAllAre(NotAnswerless, IsWaiting, s.conn.reqs);
  }

  lemma SameQueue(s: System, t: System)
    requires QueueInv(s) && t.conn.reqs == s.conn.reqs && t.writer == s.writer && Active(t) == Active(s)
    ensures QueueInv(t)
  {
  }

  lemma AnsweredQueue(s: System, t: System, size: nat)
    requires QueueInv(s) && s.conn.reqs != [] && s.conn.reqs[0].remaining > 0
    requires t.conn.reqs == Answer(s.conn.reqs, size) && t.writer == s.writer && Active(t) == Active(s)
    ensures QueueInv(t)
  {
    AnswerSorts(s.conn.reqs, size);
    AnswerPhases(s.conn.reqs, size);
  }

  lemma LostQueue(s: System, t: System)
    requires QueueInv(s) && t.conn.reqs == Lose(s.conn.reqs) && t.writer == Wake(s.writer) && !Active(t)
    ensures QueueInv(t)
  {
    LoseKeeps(s.conn.reqs);
  }

  lemma ResumeQueue(s: System, r: Reading)
    requires PhaseInv(s) && QueueInv(s) && !s.reader.ReaderOff? && s.conn.isOpen
    requires s.conn.readBuffer != "" && Fair(s.conn, r)
    ensures QueueInv(Resume(s, r))
  {
    var t := Resume(s, r);
    match r.result {
      case ResponseRead => AnsweredQueue(s, t, r.size);
      case ReadError => LostQueue(s, t);
      case _ => SameQueue(s, t);
    }
  }

  lemma DispatchQueue(s: System, rejects: Adapter)
    requires PhaseInv(s) && QueueInv(s) && Enabled(s, Dispatch(rejects))
    ensures QueueInv(DoDispatch(s, rejects))
  {
    if s.conn.isOpen {
      ResumeQueue(s, OnRead(s.conn, s.log.nodes, rejects));
    }
  }

  lemma QueueStep(s: System, a: Action)
    requires PhaseInv(s) && QueueInv(s) && Enabled(s, a)
    ensures QueueInv(Next(s, a))
  {
    match a {
      case Exec(req) => ExecQueue(s, req);
      case CancelExec => FilterQueue(s, NotWaiting);
      case CancelRunning => CancelRunQueue(s);
      case CancelOne(id) => FilterQueue(s, (i: Info) => !HasId(id, i));
      case Coalesce => CoalesceQueue(s);
      case WriteDone => WriteQueue(s);
      case WriteFailed => CancelRunQueue(s);
      case ReadFailed => CancelRunQueue(s);
      case Dispatch(rejects) => DispatchQueue(s, rejects);
      case _ =>
    }
  }

  // ---- Over whole runs

  ghost predicate Sane(s: System) {
    PhaseInv(s) && QueueInv(s)
  }

  lemma {:induction false} SaneRun(s: System, actions: seq<Action>, s': System)
    requires Sane(s) && Leads(s, actions, s')
    ensures Sane(s')
    decreases |actions|
  {
    if actions != [] {
      PhaseStep(s, actions[0]);
      QueueStep(s, actions[0]);
      SaneRun(Next(s, actions[0]), actions[1..], s');
    }
  }

  /** In every state the connection can get into, the queue is written requests, then staged
      ones, then waiting ones; and with the stream open, a writer that sleeps with no wake-up
      pending has nothing left to write. */
  lemma QueueOrderAndNoLostWakeUp(actions: seq<Action>, s: System)
    requires Leads(Boot, actions, s)
    ensures Sorted(s.conn.reqs)
    ensures s.writer == Asleep(false) ==> forall i :: 0 <= i < |s.conn.reqs| ==> !IsWaiting(s.conn.reqs[i])
    ensures s.writer.Writing? ==> s.conn.writeBuffer == s.writer.chunk
  {
    SaneRun(Boot, actions, s);
  }
}
