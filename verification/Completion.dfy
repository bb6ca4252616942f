// When a request is done: nothing that is on the wire without a response to come stays in the
// queue, and nothing proceeds that was not sent.

module Completion {
  import opened Queue
  import opened Connection
  import opened Multiplexer
  import opened Phases

  /** A written request still gets a response, and one on the wire is among those staged. */
  ghost predicate Settled(sent: seq<nat>, i: Info) {
    (i.phase.Written? ==> i.req.expected > 0) && (NotWaiting(i) ==> i.id in sent)
  }

  ghost predicate AllSettled(sent: seq<nat>, q: seq<Info>) {
    forall k :: 0 <= k < |q| ==> Settled(sent, q[k])
  }

  lemma {:induction false} FilterSettled(f: Info -> bool, sent: seq<nat>, q: seq<Info>)
    requires AllSettled(sent, q)
    ensures AllSettled(sent, Filter(f, q))
  {
    if q != [] {
      FilterSettled(f, sent, q[1..]);
    }
  }

  lemma {:induction false} InsertSettled(sent: seq<nat>, q: seq<Info>, i: Info)
    requires AllSettled(sent, q) && IsWaiting(i)
    ensures AllSettled(sent, Insert(q, i))
  {
    if i.req.helloPriority && q != [] && !IsWaiting(q[0]) {
      InsertSettled(sent, q[1..], i);
    }
  }

  lemma {:induction false} WaitingIds(q: seq<Info>, k: nat)
    requires k < |q| && IsWaiting(q[k])
    ensures q[k].id in Ids(Filter(IsWaiting, q))
  {
    ConsParts(q[0], Filter(IsWaiting, q[1..]));
    if k > 0 {
      WaitingIds(q[1..], k - 1);
    }
  }

  lemma StageSettled(sent: seq<nat>, q: seq<Info>)
    requires AllSettled(sent, q)
    ensures AllSettled(sent + Ids(Filter(IsWaiting, q)), Stage(q))
  {
    forall k | 0 <= k < |q|
      ensures Settled(sent + Ids(Filter(IsWaiting, q)), Stage(q)[k])
    {
      assert Settled(sent, q[k]);
      if IsWaiting(q[k]) {
        WaitingIds(q, k);
      }
    }
  }

  /** What is left after a write and was staged expects a response. */
  lemma WriteSettled(sent: seq<nat>, q: seq<Info>)
    requires AllSettled(sent, q)
    ensures AllSettled(sent, Write(q))
  {
    var f := Filter(NotAnswerless, q);
    FilterSettled(NotAnswerless, sent, q);
    FilterAllAre(NotAnswerless, NotAnswerless, q);
    forall k | 0 <= k < |f|
      ensures Settled(sent, Write(q)[k])
    {
      assert Settled(sent, f[k]) && NotAnswerless(f[k]);
    }
  }

  ghost predicate ProceededSent(left: seq<Departure>, sent: seq<nat>) {
    forall k :: 0 <= k < |left| && left[k].exit.Proceeded? ==> left[k].id in sent
  }

  lemma {:induction false} DeparturesSent(q: seq<Info>, e: Exit, sent: seq<nat>)
    requires e.Proceeded? ==> AllSettled(sent, q) && AllAre(NotWaiting, q)
    ensures ProceededSent(Departures(q, e), sent)
  {
    if q != [] {
      DeparturesSent(q[1..], e, sent);
      assert e.Proceeded? ==> Settled(sent, q[0]) && NotWaiting(q[0]);
    }
  }

  ghost predicate DoneInv(s: System) {
    var sent := Ids(s.log.staged);
    AllSettled(sent, s.conn.reqs) && ProceededSent(s.log.left, Ids(s.log.before) + sent)
  }

  lemma DoneFrame(s: System, t: System, gone: seq<Info>, e: Exit)
    requires DoneInv(s) && !e.Proceeded? && t.log.before == s.log.before && t.log.staged == s.log.staged
    requires t.log.left == s.log.left + Departures(gone, e) && AllSettled(Ids(s.log.staged), t.conn.reqs)
    ensures DoneInv(t)
  {
    DeparturesSent(gone, e, Ids(s.log.before) + Ids(s.log.staged));
  }

  lemma CoalesceDone(s: System)
    requires DoneInv(s)
    ensures DoneInv(DoCoalesce(s))
  {
    var w := Filter(IsWaiting, s.conn.reqs);
    StageSettled(Ids(s.log.staged), s.conn.reqs);
    IdsConcat(s.log.staged, w);
    assert w == [] ==> Ids(s.log.staged) + Ids(w) == Ids(s.log.staged);
  }

  lemma WriteDoneDone(s: System)
    requires DoneInv(s)
    ensures DoneInv(DoWriteDone(s))
  {
    var q, sent := s.conn.reqs, Ids(s.log.staged);
    WriteSettled(sent, q);
    FilterSettled(Answerless, sent, q);
    FilterAllAre(Answerless, Answerless, q);
    assert forall k | 0 <= k < |Filter(Answerless, q)| :: Answerless(Filter(Answerless, q)[k]);
    DeparturesSent(Filter(Answerless, q), Proceeded, sent);
  }

  lemma StartDone(s: System)
    requires DoneInv(s) && Sane(s) && Enabled(s, Start)
    ensures DoneInv(DoStart(s))
  {
    IdsConcat(s.log.before, s.log.staged);
    assert forall k | 0 <= k < |s.conn.reqs| :: Settled(Ids(s.log.staged), s.conn.reqs[k]) && IsWaiting(s.conn.reqs[k]);
  }

  lemma CancelRunDone(s: System)
    requires DoneInv(s)
    ensures DoneInv(DoCancelRun(s))
  {
    if !s.conn.cancelRunCalled {
      assert AllSettled(Ids(s.log.staged), Lose(s.conn.reqs));
      DoneFrame(s, DoCancelRun(s), Filter(Perishes, s.conn.reqs), Stopped);
    }
  }

  lemma AnsweredDone(s: System, t: System, size: nat)
    requires DoneInv(s) && t.log.before == s.log.before && t.log.staged == s.log.staged
    requires s.conn.reqs != [] && NotWaiting(s.conn.reqs[0]) && s.conn.reqs[0].remaining > 0
    requires t.conn.reqs == Answer(s.conn.reqs, size) && t.log.left == s.log.left + Completed(s.conn.reqs[0], size)
    ensures DoneInv(t)
  {
    assert Settled(Ids(s.log.staged), s.conn.reqs[0]);
  }

  lemma ResumeDone(s: System, r: Reading)
    requires DoneInv(s) && s.conn.readBuffer != "" && Fair(s.conn, r)
    ensures DoneInv(Resume(s, r))
  {
    match r.result {
      case ResponseRead => AnsweredDone(s, Resume(s, r), r.size);
      case ReadError =>
        var told := Ids(Notified(s.conn, r));
        CancelRunDone(s.(conn := r.conn,
                         log := s.log.(nodes := r.nodes, failed := s.log.failed + told, notices := s.log.notices + told)));
      case _ =>
    }
  }

  lemma DoneStep(s: System, a: Action)
    requires Sane(s) && DoneInv(s) && Enabled(s, a)
    ensures DoneInv(Next(s, a))
  {
    var q, sent, t := s.conn.reqs, Ids(s.log.staged), Next(s, a);
    match a {
      case Exec(req) => InsertSettled(sent, q, Info(s.log.nextId, req, req.expected, Waiting, 0));
      case CancelExec =>
        FilterSettled(NotWaiting, sent, q);
        DoneFrame(s, t, Filter(IsWaiting, q), Stopped);
      case CancelOne(id) =>
        FilterSettled((i: Info) => !HasId(id, i), sent, q);
        DoneFrame(s, t, Filter((i: Info) => HasId(id, i), q), Removed);
      case Start => StartDone(s);
      case Coalesce => CoalesceDone(s);
      case WriteDone => WriteDoneDone(s);
      case CancelRunning => CancelRunDone(s);
      case WriteFailed => CancelRunDone(s);
      case ReadFailed => CancelRunDone(s);
      case Dispatch(rejects) =>
        if s.conn.isOpen {
          ResumeDone(s, OnRead(s.conn, s.log.nodes, rejects));
        }
      case _ =>
    }
  }
}
