// What each way of entering and leaving the queue does, to every request in it.

module Exits {
  import opened Resp3
  import opened Queue
  import opened Multiplexer
  import opened Phases
  import opened Completion
  import opened Runs
  import opened Loss

  lemma FilterExact(f: Info -> bool, q: seq<Info>, k: nat)
    requires k < |q| && multiset(Ids(q))[q[k].id] <= 1
    ensures q[k].id in Ids(Filter(f, q)) <==> f(q[k])
  {
    FilterMembers(f, q, q[k].id);
    forall j | 0 <= j < |q| && q[j].id == q[k].id
      ensures j == k
    {
      OnlyOneHasIt(q, j, k);
    }
  }

  lemma {:induction false} FilterHas(f: Info -> bool, q: seq<Info>, k: nat)
    requires k < |q| && f(q[k])
    ensures q[k] in Filter(f, q)
  {
    if k > 0 {
      FilterHas(f, q[1..], k - 1);
    }
  }

  lemma {:induction false} DeparturesHave(q: seq<Info>, e: Exit, i: Info)
    requires i in q
    ensures Leave(i, e) in Departures(q, e) && i.id in Ids(q)
  {
    if q[0] != i {
      DeparturesHave(q[1..], e, i);
    }
  }

  /** A request of the queue is gone, recorded with this exit, and told if `told`. */
  ghost predicate Gone(s: System, t: System, i: Info, e: Exit, told: bool) {
    && i.id !in Ids(t.conn.reqs) && s.log.left <= t.log.left && s.log.notices <= t.log.notices
    && Leave(i, e) in t.log.left[|s.log.left|..]
    && if told then i.id in t.log.notices[|s.log.notices|..] else t.log.notices == s.log.notices
  }

  lemma GoneByFilter(s: System, t: System, f: Info -> bool, g: Info -> bool, e: Exit, k: nat, told: bool)
    requires k < |s.conn.reqs| && multiset(Ids(s.conn.reqs))[s.conn.reqs[k].id] <= 1 && forall i :: f(i) != g(i)
    requires Ids(t.conn.reqs) == Ids(Filter(f, s.conn.reqs))
    requires t.log.left == s.log.left + Departures(Filter(g, s.conn.reqs), e)
    requires t.log.notices == if told then s.log.notices + Ids(Filter(g, s.conn.reqs)) else s.log.notices
    ensures if f(s.conn.reqs[k]) then s.conn.reqs[k].id in Ids(t.conn.reqs) else Gone(s, t, s.conn.reqs[k], e, told)
  {
    FilterExact(f, s.conn.reqs, k);
    if g(s.conn.reqs[k]) {
      FilterHas(g, s.conn.reqs, k);
      DeparturesHave(Filter(g, s.conn.reqs), e, s.conn.reqs[k]);
    }
  }

  /** cancel(exec) stops every waiting request and no other. */
  lemma CancelExecExactly(actions: seq<Action>, s: System, k: nat)
    requires Leads(Boot, actions, s) && k < |s.conn.reqs|
    ensures var i, t := s.conn.reqs[k], Next(s, CancelExec);
            if IsWaiting(i) then Gone(s, t, i, Stopped, true) else i.id in Ids(t.conn.reqs)
  {
    QueuedAtMostOnce(actions, s, k);
    GoneByFilter(s, Next(s, CancelExec), NotWaiting, IsWaiting, Stopped, k, true);
  }

  /** Cancelling one async_exec that was not sent takes out its request and no other. */
  lemma CancelOneExactly(actions: seq<Action>, s: System, id: nat, k: nat)
    requires Leads(Boot, actions, s) && QueuedWaiting(s.conn.reqs, id) && k < |s.conn.reqs|
    ensures var i, t := s.conn.reqs[k], Next(s, CancelOne(id));
            if i.id == id then Gone(s, t, i, Removed, false) else i.id in Ids(t.conn.reqs)
  {
    QueuedAtMostOnce(actions, s, k);
    GoneByFilter(s, Next(s, CancelOne(id)), (i: Info) => !HasId(id, i), (i: Info) => HasId(id, i), Removed, k, false);
  }

  /** When a write completes, every request on the wire that gets no response proceeds, and no
      other request leaves. */
  lemma WrittenExactly(actions: seq<Action>, s: System, k: nat)
    requires Leads(Boot, actions, s) && s.writer.Writing? && k < |s.conn.reqs|
    ensures var i, t := s.conn.reqs[k], Next(s, WriteDone);
            if !IsWaiting(i) && i.req.expected == 0 then Gone(s, t, i, Proceeded, true) else i.id in Ids(t.conn.reqs)
  {
    InvReached(actions, s);
    assert Settled(Ids(s.log.staged), s.conn.reqs[k]);
    QueuedAtMostOnce(actions, s, k);
    MapIds(ToWritten, Filter(NotAnswerless, s.conn.reqs));
    GoneByFilter(s, Next(s, WriteDone), NotAnswerless, Answerless, Proceeded, k, true);
  }

  /** The first cancel(run) of an epoch stops every request that may not outlive the connection,
      and no other leaves. */
  lemma CancelRunExactly(actions: seq<Action>, s: System, k: nat)
    requires Leads(Boot, actions, s) && !s.conn.cancelRunCalled && k < |s.conn.reqs|
    ensures var i, t := s.conn.reqs[k], Next(s, CancelRunning);
            if (if IsWaiting(i) then i.req.cancelOnConnectionLost else i.req.cancelIfUnresponded)
            then Gone(s, t, i, Stopped, true)
            else i.id in Ids(t.conn.reqs)
  {
    QueuedAtMostOnce(actions, s, k);
    MapIds(ToWaiting, Filter(Survives, s.conn.reqs));
    GoneByFilter(s, Next(s, CancelRunning), Survives, Perishes, Stopped, k, true);
  }

  /** A failed read, a failed write and cancel(run) end the epoch, all with the same loss. */
  lemma ErrorsEndTheEpoch(s: System)
    requires Active(s)
    ensures var t, u := Next(s, CancelRunning), Next(s, ReadFailed);
            !Active(t) && !Active(u) && t.conn.reqs == u.conn.reqs == Lose(s.conn.reqs) && t.log.left == u.log.left
    ensures s.writer.Writing? ==>
            var t, u := Next(s, CancelRunning), Next(s, WriteFailed);
            !Active(u) && u.conn.reqs == t.conn.reqs && u.log.left == t.log.left
  {
  }

  lemma {:induction false} InsertHas(q: seq<Info>, i: Info)
    ensures multiset(Insert(q, i)) == multiset(q) + multiset{i}
  {
    if i.req.helloPriority && q != [] && !IsWaiting(q[0]) {
      InsertHas(q[1..], i);
      HeadTail(q);
    }
  }

  /** async_exec queues its request, waiting and with all its responses to come, and touches no
      other, unless the request refuses to wait for a connection and there is none. */
  lemma ExecExactly(s: System, req: Req)
    ensures var t := Next(s, Exec(req));
            if req.cancelIfNotConnected && !s.conn.isOpen then t == s
            else multiset(t.conn.reqs) == multiset(s.conn.reqs) + multiset{Info(s.log.nextId, req, req.expected, Waiting, 0)}
  {
    InsertHas(s.conn.reqs, Info(s.log.nextId, req, req.expected, Waiting, 0));
  }
}
