// Requests without priority are sent in the order in which async_exec was called.

module CallOrder {
  import opened Resp3
  import opened Queue
  import opened Connection
  import opened Multiplexer
  import opened Phases
  import opened Conservation
  import opened Wire

  /** Leaving out priority requests, the identities go up, from `n` on. */
  ghost predicate Ascends(q: seq<Info>, n: nat) {
    || q == []
    || (if q[0].req.helloPriority then Ascends(q[1..], n) else n <= q[0].id && Ascends(q[1..], q[0].id + 1))
  }

  ghost predicate Below(q: seq<Info>, n: nat) {
    forall k :: 0 <= k < |q| ==> q[k].id < n
  }

  lemma {:induction false} AscendsFrom(q: seq<Info>, n: nat, m: nat)
    requires Ascends(q, n) && m <= n
    ensures Ascends(q, m)
  {
    if q != [] && q[0].req.helloPriority {
      AscendsFrom(q[1..], n, m);
    }
  }

  lemma {:induction false} AscendsFilter(f: Info -> bool, q: seq<Info>, n: nat)
    requires Ascends(q, n)
    ensures Ascends(Filter(f, q), n)
  {
    if q != [] {
      var x, m := q[0], if q[0].req.helloPriority then n else q[0].id + 1;
      AscendsFilter(f, q[1..], m);
      ConsParts(x, Filter(f, q[1..]));
      AscendsFrom(Filter(f, q[1..]), m, n);
    }
  }

  lemma {:induction false} AscendsMap(f: Info -> Info, q: seq<Info>, n: nat)
    requires Ascends(q, n) && forall i :: f(i).id == i.id && f(i).req == i.req
    ensures Ascends(Queue.Map(f, q), n)
  {
    if q != [] {
      AscendsMap(f, q[1..], if q[0].req.helloPriority then n else q[0].id + 1);
      ConsParts(f(q[0]), Queue.Map(f, q[1..]));
    }
  }

  lemma {:induction false} AscendsAppend(q: seq<Info>, i: Info, n: nat)
    requires Ascends(q, n) && Below(q, i.id) && n <= i.id
    ensures Ascends(q + [i], n)
  {
    if q == [] {
      assert [] + [i] == [i];
    } else {
      assert (q + [i])[1..] == q[1..] + [i];
      assert q[0].id < i.id;
      AscendsAppend(q[1..], i, if q[0].req.helloPriority then n else q[0].id + 1);
    }
  }

  /** A priority request does not disturb the others, wherever it goes. */
  lemma {:induction false} AscendsInsert(a: seq<Info>, i: Info, b: seq<Info>, n: nat)
    requires Ascends(a + b, n) && i.req.helloPriority
    ensures Ascends(a + ([i] + b), n)
  {
    if a == [] {
      ConsParts(i, b);
      AppendNothing(b);
      AppendNothing([i] + b);
    } else {
      assert (a + b)[1..] == a[1..] + b && (a + ([i] + b))[1..] == a[1..] + ([i] + b);
      AscendsInsert(a[1..], i, b, if a[0].req.helloPriority then n else a[0].id + 1);
    }
  }

  lemma {:induction false} AscendsKeeping(a: seq<Info>, f: Info -> bool, b: seq<Info>, n: nat)
    requires Ascends(a + b, n)
    ensures Ascends(a + Filter(f, b), n)
  {
    if a == [] {
      AppendNothing(b);
      AppendNothing(Filter(f, b));
      AscendsFilter(f, b, n);
    } else {
      assert (a + b)[1..] == a[1..] + b && (a + Filter(f, b))[1..] == a[1..] + Filter(f, b);
      AscendsKeeping(a[1..], f, b, if a[0].req.helloPriority then n else a[0].id + 1);
    }
  }

  lemma AscendsInQueue(q: seq<Info>, i: Info)
    requires Ascends(q, 0) && Below(q, i.id)
    ensures Ascends(Insert(q, i), 0)
  {
    if i.req.helloPriority {
      var k := FirstWaiting(q);
      HelloLandsBeforeWaiting(q, i);
      assert q == q[..k] + q[k..];
      AscendsInsert(q[..k], i, q[k..], 0);
      Regroup(q[..k], [i], q[k..]);
    } else {
      AscendsAppend(q, i, 0);
    }
  }

  ghost predicate OrderInv(s: System) {
    && Ascends(s.conn.reqs, 0) && Below(s.log.staged, s.log.nextId)
    && (Active(s) ==> Ascends(s.log.staged + Filter(IsWaiting, s.conn.reqs), 0))
  }

  lemma QueueBelow(s: System)
    requires IdInv(s)
    ensures Below(s.conn.reqs, s.log.nextId)
  {
    forall k | 0 <= k < |s.conn.reqs|
      ensures s.conn.reqs[k].id < s.log.nextId
    {
      QueuedOnce(s.conn.reqs, k);
      assert Known(s.conn.reqs, s.log.left)[s.conn.reqs[k].id] <= if s.conn.reqs[k].id < s.log.nextId then 1 else 0;
    }
  }

  lemma {:induction false} WaitingAfterInsert(q: seq<Info>, i: Info)
    requires Sorted(q) && IsWaiting(i)
    ensures Filter(IsWaiting, Insert(q, i)) ==
            if i.req.helloPriority then [i] + Filter(IsWaiting, q) else Filter(IsWaiting, q) + [i]
  {
    if !i.req.helloPriority {
      FilterConcat(IsWaiting, q, [i]);
      FilterAll(IsWaiting, [i]);
    } else if q == [] || IsWaiting(q[0]) {
      FilterCons(IsWaiting, i, q);
    } else {
      SortedTail(q);
      WaitingAfterInsert(q[1..], i);
      HeadTail(q);
      FilterCons(IsWaiting, q[0], q[1..]);
      FilterCons(IsWaiting, q[0], InsertBeforeWaiting(q[1..], i));
    }
  }

  lemma {:induction false} FilterBelow(f: Info -> bool, q: seq<Info>, n: nat)
    requires Below(q, n)
    ensures Below(Filter(f, q), n)
  {
    if q != [] {
      FilterBelow(f, q[1..], n);
    }
  }

  lemma ExecOrder(s: System, req: Req)
    requires Sane(s) && IdInv(s) && OrderInv(s)
    ensures OrderInv(DoExec(s, req))
  {
    var q, w, i := s.conn.reqs, Filter(IsWaiting, s.conn.reqs), Info(s.log.nextId, req, req.expected, Waiting, 0);
    QueueBelow(s);
    AscendsInQueue(q, i);
    WaitingAfterInsert(q, i);
    if Active(s) {
      if req.helloPriority {
        AscendsInsert(s.log.staged, i, w, 0);
      } else {
        FilterBelow(IsWaiting, q, s.log.nextId);
        AscendsAppend(s.log.staged + w, i, 0);
        Regroup(s.log.staged, w, [i]);
      }
    }
  }

  lemma OrderFrame(s: System, t: System)
    requires OrderInv(s) && Ascends(t.conn.reqs, 0) && (Active(t) ==> Active(s))
    requires t.log.staged == s.log.staged && t.log.nextId == s.log.nextId
    requires Active(t) ==> Filter(IsWaiting, t.conn.reqs) == Filter(IsWaiting, s.conn.reqs)
    ensures OrderInv(t)
  {
  }

  lemma StagedOrder(s: System, t: System, w: seq<Info>)
    requires OrderInv(s) && Active(s) && w == Filter(IsWaiting, s.conn.reqs) && Below(w, s.log.nextId)
    requires t.log.staged == s.log.staged + w && t.log.nextId == s.log.nextId
    requires Ascends(t.conn.reqs, 0) && Filter(IsWaiting, t.conn.reqs) == []
    ensures OrderInv(t)
  {
    AppendNothing(s.log.staged + w);
  }

  lemma CoalesceOrder(s: System)
    requires Sane(s) && IdInv(s) && OrderInv(s) && s.writer.Running?
    ensures OrderInv(DoCoalesce(s))
  {
    if s.conn.isOpen {
      AscendsMap(ToStaged, s.conn.reqs, 0);
      NoneWaitingStaged(s.conn.reqs);
      QueueBelow(s);
      FilterBelow(IsWaiting, s.conn.reqs, s.log.nextId);
      AppendNothing(s.log.staged);
      StagedOrder(s, DoCoalesce(s), Filter(IsWaiting, s.conn.reqs));
    }
  }

  lemma LoseOrderly(q: seq<Info>)
    requires Ascends(q, 0)
    ensures Ascends(Lose(q), 0)
  {
    AscendsFilter(Survives, q, 0);
    AscendsMap(ToWaiting, Filter(Survives, q), 0);
  }

  lemma AnswerOrderly(q: seq<Info>, size: nat)
    requires q != [] && q[0].remaining > 0 && Ascends(q, 0)
    ensures Ascends(Answer(q, size), 0)
  {
    var y := q[0].(remaining := q[0].remaining - 1, readSize := q[0].readSize + size);
    ConsParts(y, q[1..]);
    AscendsFrom(q[1..], if q[0].req.helloPriority then 0 else q[0].id + 1, 0);
  }

  lemma ResumeOrderly(s: System, r: Reading)
    requires OrderInv(s) && !s.reader.ReaderOff? && s.conn.readBuffer != "" && Fair(s.conn, r)
    ensures OrderInv(Resume(s, r))
  {
    var t := Resume(s, r);
    match r.result {
      case ResponseRead =>
        AnswerOrderly(s.conn.reqs, r.size);
        AnswerWaiting(s.conn.reqs, r.size);
        OrderFrame(s, t);
      case ReadError =>
        LoseOrderly(s.conn.reqs);
        OrderFrame(s, t);
      case _ => OrderFrame(s, t);
    }
  }

  lemma CancelRunOrderly(s: System)
    requires OrderInv(s)
    ensures OrderInv(DoCancelRun(s))
  {
    LoseOrderly(s.conn.reqs);
  }

  lemma CancelExecOrderly(s: System)
    requires OrderInv(s)
    ensures OrderInv(DoCancelExec(s))
  {
    var q := s.conn.reqs;
    AscendsFilter(NotWaiting, q, 0);
    WaitingOf(NotWaiting, q);
    if Active(s) {
      AscendsKeeping(s.log.staged, NotWaiting, Filter(IsWaiting, q), 0);
    }
  }

  lemma CancelOneOrderly(s: System, id: nat)
    requires OrderInv(s)
    ensures OrderInv(DoCancelOne(s, id))
  {
    var q, f := s.conn.reqs, (i: Info) => !HasId(id, i);
    AscendsFilter(f, q, 0);
    WaitingOf(f, q);
    if Active(s) {
      AscendsKeeping(s.log.staged, f, Filter(IsWaiting, q), 0);
    }
    assert Filter(f, q) == Remove(q, id) by {
      SameFilter(f, q, id);
    }
  }

  lemma {:induction false} SameFilter(f: Info -> bool, q: seq<Info>, id: nat)
    requires forall i :: f(i) == !HasId(id, i)
    ensures Filter(f, q) == Remove(q, id)
  {
    if q != [] {
      SameFilter(f, q[1..], id);
    }
  }

  lemma {:induction false} WaitingOf(f: Info -> bool, q: seq<Info>)
    ensures Filter(IsWaiting, Filter(f, q)) == Filter(f, Filter(IsWaiting, q))
  {
    if q != [] {
      var x, t := q[0], q[1..];
      WaitingOf(f, t);
      HeadTail(q);
      FilterCons(f, x, t);
      FilterCons(IsWaiting, x, t);
      FilterCons(IsWaiting, x, Filter(f, t));
      FilterCons(f, x, Filter(IsWaiting, t));
    }
  }

  lemma CallOrderStep(s: System, a: Action)
    requires Sane(s) && IdInv(s) && OrderInv(s) && Enabled(s, a)
    ensures OrderInv(Next(s, a))
  {
    var q, t := s.conn.reqs, Next(s, a);
    match a {
      case Exec(req) => ExecOrder(s, req);
      case CancelExec => CancelExecOrderly(s);
      case CancelOne(id) => CancelOneOrderly(s, id);
      case Start =>
        FilterAll(IsWaiting, q);
        AppendNothing(q);
      case Coalesce => CoalesceOrder(s);
      case WriteDone =>
        AscendsFilter(NotAnswerless, q, 0);
        AscendsMap(ToWritten, Filter(NotAnswerless, q), 0);
        WriteKeeps(q);
        OrderFrame(s, t);
      case CancelRunning => CancelRunOrderly(s);
      case WriteFailed => CancelRunOrderly(s);
      case ReadFailed => CancelRunOrderly(s);
      case Dispatch(rejects) =>
        if s.conn.isOpen {
          ResumeOrderly(s, OnRead(s.conn, s.log.nodes, rejects));
        }
      case _ => OrderFrame(s, t);
    }
  }

  /** Of two requests without priority the one with the smaller identity comes first. */
  lemma {:induction false} AscendsPair(q: seq<Info>, n: nat, j: nat, k: nat)
    requires Ascends(q, n) && j < k < |q| && !q[j].req.helloPriority && !q[k].req.helloPriority
    ensures n <= q[j].id < q[k].id
  {
    if j == 0 {
      AscendsAtLeast(q[1..], q[0].id + 1, k - 1);
    } else {
      AscendsPair(q[1..], if q[0].req.helloPriority then n else q[0].id + 1, j - 1, k - 1);
    }
  }

  lemma {:induction false} AscendsAtLeast(q: seq<Info>, n: nat, k: nat)
    requires Ascends(q, n) && k < |q| && !q[k].req.helloPriority
    ensures n <= q[k].id
  {
    if k > 0 {
      AscendsAtLeast(q[1..], if q[0].req.helloPriority then n else q[0].id + 1, k - 1);
    }
  }

  lemma {:induction false} AscendsPrefix(a: seq<Info>, b: seq<Info>, n: nat)
    requires Ascends(a + b, n)
    ensures Ascends(a, n)
  {
    if a != [] {
      assert (a + b)[1..] == a[1..] + b;
      AscendsPrefix(a[1..], b, if a[0].req.helloPriority then n else a[0].id + 1);
    }
  }
}
