// Every request that was added is in the queue once, or has left it once.

module Conservation {
  import opened Resp3
  import opened Parsing
  import opened Queue
  import opened Connection
  import opened Multiplexer
  import opened Phases

  function LeftIds(ds: seq<Departure>): seq<nat> {
    if ds == [] then [] else [ds[0].id] + LeftIds(ds[1..])
  }

  lemma {:induction false} LeftIdsConcat(ds: seq<Departure>, es: seq<Departure>)
    ensures LeftIds(ds + es) == LeftIds(ds) + LeftIds(es)
  {
    if ds == [] {
      assert ds + es == es;
    } else {
      assert (ds + es)[1..] == ds[1..] + es;
      LeftIdsConcat(ds[1..], es);
    }
  }

  lemma {:induction false} DeparturesIds(q: seq<Info>, e: Exit)
    ensures LeftIds(Departures(q, e)) == Ids(q)
  {
    if q != [] {
      DeparturesIds(q[1..], e);
      ConsParts(Leave(q[0], e), Departures(q[1..], e));
    }
  }

  /** The requests in the queue, and those that have left it. */
  ghost function Known(q: seq<Info>, left: seq<Departure>): multiset<nat> {
    multiset(Ids(q)) + multiset(LeftIds(left))
  }

  /** Each request added so far is queued or has left, and only one of these, and once. */
  ghost predicate IdInv(s: System) {
    forall id: nat :: Known(s.conn.reqs, s.log.left)[id] == if id < s.log.nextId then 1 else 0
  }

  /** What is taken from the queue is put down as departed. */
  lemma Moves(q: seq<Info>, p: seq<Info>, left: seq<Departure>, more: seq<Departure>)
    requires multiset(Ids(q)) == multiset(Ids(p)) + multiset(LeftIds(more))
    ensures Known(p, left + more) == Known(q, left)
  {
    LeftIdsConcat(left, more);
  }

  lemma IdFrame(s: System, t: System)
    requires IdInv(s) && t.log.nextId == s.log.nextId
    requires Known(t.conn.reqs, t.log.left) == Known(s.conn.reqs, s.log.left)
    ensures IdInv(t)
  {
  }

  lemma KeepsIds(s: System, t: System)
    requires IdInv(s) && t.log.nextId == s.log.nextId && t.log.left == s.log.left
    requires Ids(t.conn.reqs) == Ids(s.conn.reqs)
    ensures IdInv(t)
  {
    assert Known(t.conn.reqs, t.log.left) == Known(s.conn.reqs, s.log.left);
    IdFrame(s, t);
  }

  lemma LeavesIds(s: System, t: System, gone: seq<Info>, e: Exit)
    requires IdInv(s) && t.log.nextId == s.log.nextId && t.log.left == s.log.left + Departures(gone, e)
    requires multiset(Ids(t.conn.reqs)) + multiset(Ids(gone)) == multiset(Ids(s.conn.reqs))
    ensures IdInv(t)
  {
    DeparturesIds(gone, e);
    Moves(s.conn.reqs, t.conn.reqs, s.log.left, Departures(gone, e));
    IdFrame(s, t);
  }

  lemma CompletesIds(s: System, t: System, d: Departure)
    requires IdInv(s) && t.log.nextId == s.log.nextId && t.log.left == s.log.left + [d]
    requires multiset(Ids(s.conn.reqs)) == multiset{d.id} + multiset(Ids(t.conn.reqs))
    ensures IdInv(t)
  {
    assert LeftIds([d]) == [d.id];
    Moves(s.conn.reqs, t.conn.reqs, s.log.left, [d]);
    IdFrame(s, t);
  }

  lemma SameIds(s: System, t: System)
    requires IdInv(s) && t.log.nextId == s.log.nextId && t.conn.reqs == s.conn.reqs && t.log.left == s.log.left
    ensures IdInv(t)
  {
  }

  lemma AddsId(s: System, t: System)
    requires IdInv(s) && t.log.nextId == s.log.nextId + 1 && t.log.left == s.log.left
    requires multiset(Ids(t.conn.reqs)) == multiset(Ids(s.conn.reqs)) + multiset{s.log.nextId}
    ensures IdInv(t)
  {
    forall id: nat
      ensures Known(t.conn.reqs, t.log.left)[id] == if id < t.log.nextId then 1 else 0
    {
      assert Known(s.conn.reqs, s.log.left)[id] == if id < s.log.nextId then 1 else 0;
    }
  }

  lemma ExecIds(s: System, req: Req)
    requires IdInv(s)
    ensures IdInv(DoExec(s, req))
  {
    if !(req.cancelIfNotConnected && !s.conn.isOpen) {
      InsertIds(s.conn.reqs, Info(s.log.nextId, req, req.expected, Waiting, 0));
      AddsId(s, DoExec(s, req));
    }
  }

  lemma {:induction false} QueuedOnce(q: seq<Info>, k: nat)
    requires k < |q|
    ensures q[k].id in multiset(Ids(q))
  {
    HeadTail(q);
    IdsCons(q[0], q[1..]);
    if k > 0 {
      QueuedOnce(q[1..], k - 1);
    }
  }

  lemma {:induction false} QueuedTwice(q: seq<Info>, j: nat, k: nat)
    requires j < k < |q| && q[j].id == q[k].id
    ensures multiset(Ids(q))[q[j].id] >= 2
  {
    HeadTail(q);
    IdsCons(q[0], q[1..]);
    if j > 0 {
      QueuedTwice(q[1..], j - 1, k - 1);
    } else {
      QueuedOnce(q[1..], k - 1);
    }
  }

  lemma CancelledIsWaiting(s: System, id: nat)
    requires IdInv(s) && QueuedWaiting(s.conn.reqs, id)
    ensures OnlyWaiting(s.conn.reqs, id)
  {
    var q := s.conn.reqs;
    var k :| 0 <= k < |q| && q[k].id == id && IsWaiting(q[k]);
    forall j | 0 <= j < |q| && q[j].id == id
      ensures IsWaiting(q[j])
    {
      assert Known(q, s.log.left)[id] <= 1;
      if j < k {
        QueuedTwice(q, j, k);
      } else if k < j {
        QueuedTwice(q, k, j);
      }
    }
  }

  lemma CancelOneIds(s: System, id: nat)
    requires IdInv(s)
    ensures IdInv(DoCancelOne(s, id))
  {
    var q := s.conn.reqs;
    FilterSplitsIds((i: Info) => !HasId(id, i), (i: Info) => HasId(id, i), q);
    LeavesIds(s, DoCancelOne(s, id), Filter((i: Info) => HasId(id, i), q), Removed);
  }

  lemma LoseIds(s: System, t: System)
    requires Sane(s) && IdInv(s) && t.log.nextId == s.log.nextId
    requires t.conn.reqs == Lose(s.conn.reqs)
    requires t.log.left == s.log.left + Departures(Filter(Perishes, s.conn.reqs), Stopped)
    ensures IdInv(t)
  {
    LoseKeeps(s.conn.reqs);
    LeavesIds(s, t, Filter(Perishes, s.conn.reqs), Stopped);
  }

  lemma CancelRunIds(s: System)
    requires Sane(s) && IdInv(s)
    ensures IdInv(DoCancelRun(s))
  {
    if !s.conn.cancelRunCalled {
      LoseIds(s, DoCancelRun(s));
    }
  }

  lemma ResponseIds(s: System, t: System, size: nat)
    requires IdInv(s) && t.log.nextId == s.log.nextId
    requires s.conn.reqs != [] && s.conn.reqs[0].remaining > 0 && t.conn.reqs == Answer(s.conn.reqs, size)
    requires t.log.left == s.log.left + Completed(s.conn.reqs[0], size)
    ensures IdInv(t)
  {
    var i := s.conn.reqs[0];
    AnswerIds(s.conn.reqs, size);
    if i.remaining == 1 {
      CompletesIds(s, t, Departure(i.id, Proceeded, i.readSize + size, i.req.expected));
    } else {
      assert s.log.left + [] == s.log.left;
      KeepsIds(s, t);
    }
  }

  lemma ResumeIds(s: System, r: Reading)
    requires Sane(s) && IdInv(s) && !s.reader.ReaderOff? && s.conn.isOpen
    requires s.conn.readBuffer != "" && Fair(s.conn, r)
    ensures IdInv(Resume(s, r))
  {
    var t := Resume(s, r);
    match r.result {
      case ResponseRead => ResponseIds(s, t, r.size);
      case ReadError => LoseIds(s, t);
      case _ => SameIds(s, t);
    }
  }

  lemma DispatchIds(s: System, rejects: Adapter)
    requires Sane(s) && IdInv(s) && Enabled(s, Dispatch(rejects))
    ensures IdInv(DoDispatch(s, rejects))
  {
    if s.conn.isOpen {
      ResumeIds(s, OnRead(s.conn, s.log.nodes, rejects));
    }
  }

  lemma CancelExecIds(s: System)
    requires Sane(s) && IdInv(s)
    ensures IdInv(DoCancelExec(s))
  {
    CancelKeeps(s.conn.reqs);
    LeavesIds(s, DoCancelExec(s), Filter(IsWaiting, s.conn.reqs), Stopped);
  }

  lemma WriteDoneIds(s: System)
    requires IdInv(s)
    ensures IdInv(DoWriteDone(s))
  {
    WriteIds(s.conn.reqs);
    LeavesIds(s, DoWriteDone(s), Filter(Answerless, s.conn.reqs), Proceeded);
  }

  lemma CoalesceIds(s: System)
    requires Sane(s) && IdInv(s)
    ensures IdInv(DoCoalesce(s))
  {
    StageKeeps(s.conn.reqs);
    KeepsIds(s, DoCoalesce(s));
  }

  lemma IdStep(s: System, a: Action)
    requires Sane(s) && IdInv(s) && Enabled(s, a)
    ensures IdInv(Next(s, a))
  {
    var t := Next(s, a);
    match a {
      case Exec(req) => ExecIds(s, req);
      case CancelExec => CancelExecIds(s);
      case CancelOne(id) => CancelOneIds(s, id);
      case WriteDone => WriteDoneIds(s);
      case Coalesce => CoalesceIds(s);
      case Dispatch(rejects) => DispatchIds(s, rejects);
      case CancelRunning => CancelRunIds(s);
      case WriteFailed => CancelRunIds(s);
      case ReadFailed => CancelRunIds(s);
      case _ => SameIds(s, t);
    }
  }
}
