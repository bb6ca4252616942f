// The order of the queue: no step swaps two requests that were already in it.

module Order {
  import opened Resp3
  import opened Parsing
  import opened Queue
  import opened Connection
  import opened Multiplexer

  /** `a` can be had from `b` by leaving out elements. */
  predicate Subseq(a: seq<nat>, b: seq<nat>)
    decreases |b|
  {
    a == [] || (b != [] && if a[0] == b[0] then Subseq(a[1..], b[1..]) else Subseq(a, b[1..]))
  }

  lemma {:induction false} SubseqRefl(a: seq<nat>)
    ensures Subseq(a, a)
  {
    if a != [] {
      SubseqRefl(a[1..]);
    }
  }

  lemma {:induction false} SubseqTail(a: seq<nat>, b: seq<nat>)
    requires a != [] && Subseq(a, b)
    ensures Subseq(a[1..], b)
    decreases |b|
  {
    if a[0] != b[0] {
      SubseqTail(a, b[1..]);
    }
    if |a| > 1 && a[1] == b[0] {
      SubseqTail(a[1..], b[1..]);
    }
  }

  lemma {:induction false} SubseqTrans(a: seq<nat>, b: seq<nat>, c: seq<nat>)
    requires Subseq(a, b) && Subseq(b, c)
    ensures Subseq(a, c)
    decreases |c|
  {
    if a != [] {
      if b[0] == c[0] {
        SubseqTrans(if a[0] == b[0] then a[1..] else a, b[1..], c[1..]);
      } else {
        SubseqTrans(a, b, c[1..]);
        SubseqTail(a, c[1..]);
      }
    }
  }

  /** The requests of the queue that are older than `n`, in queue order. */
  function OldIds(q: seq<Info>, n: nat): seq<nat> {
    if q == [] then [] else (if q[0].id < n then [q[0].id] else []) + OldIds(q[1..], n)
  }

  lemma OldIdsCons(i: Info, q: seq<Info>, n: nat)
    ensures OldIds([i] + q, n) == if i.id < n then [i.id] + OldIds(q, n) else OldIds(q, n)
  {
    ConsParts(i, q);
  }

  lemma SubseqCons(x: nat, a: seq<nat>, b: seq<nat>)
    requires Subseq(a, b)
    ensures Subseq([x] + a, [x] + b) && Subseq(a, [x] + b)
  {
    ConsParts(x, a);
    ConsParts(x, b);
    if a != [] {
      SubseqTail(a, b);
    }
  }

  lemma {:induction false} FilterOrder(f: Info -> bool, q: seq<Info>, n: nat)
    ensures Subseq(OldIds(Filter(f, q), n), OldIds(q, n))
  {
    if q != [] {
      FilterOrder(f, q[1..], n);
      HeadTail(q);
      OldIdsCons(q[0], q[1..], n);
      ConsParts(q[0], Filter(f, q[1..]));
      OldIdsCons(q[0], Filter(f, q[1..]), n);
      SubseqCons(q[0].id, OldIds(Filter(f, q[1..]), n), OldIds(q[1..], n));
    }
  }

  lemma {:induction false} MapOrder(f: Info -> Info, q: seq<Info>, n: nat)
    requires forall i :: f(i).id == i.id
    ensures OldIds(Queue.Map(f, q), n) == OldIds(q, n)
  {
    if q != [] {
      MapOrder(f, q[1..], n);
      OldIdsCons(f(q[0]), Queue.Map(f, q[1..]), n);
    }
  }

  lemma {:induction false} AppendOrder(q: seq<Info>, i: Info, n: nat)
    requires n <= i.id
    ensures OldIds(q + [i], n) == OldIds(q, n)
  {
    if q != [] {
      assert (q + [i])[1..] == q[1..] + [i];
      AppendOrder(q[1..], i, n);
    }
  }

  lemma {:induction false} InsertOrder(q: seq<Info>, i: Info, n: nat)
    requires n <= i.id
    ensures OldIds(InsertBeforeWaiting(q, i), n) == OldIds(q, n)
  {
    if q == [] || IsWaiting(q[0]) {
      OldIdsCons(i, q, n);
    } else {
      InsertOrder(q[1..], i, n);
      OldIdsCons(q[0], InsertBeforeWaiting(q[1..], i), n);
    }
  }

  lemma AnswerOrder(q: seq<Info>, size: nat, n: nat)
    requires q != [] && q[0].remaining > 0
    ensures Subseq(OldIds(Answer(q, size), n), OldIds(q, n))
  {
    HeadTail(q);
    OldIdsCons(q[0], q[1..], n);
    OldIdsCons(q[0].(remaining := q[0].remaining - 1, readSize := q[0].readSize + size), q[1..], n);
    SubseqRefl(OldIds(q[1..], n));
    SubseqCons(q[0].id, OldIds(q[1..], n), OldIds(q[1..], n));
  }

  lemma LoseOrder(q: seq<Info>, n: nat)
    ensures Subseq(OldIds(Lose(q), n), OldIds(q, n))
  {
    FilterOrder(Survives, q, n);
    MapOrder(ToWaiting, Filter(Survives, q), n);
  }

  lemma ResumeOrder(s: System, r: Reading, n: nat)
    requires s.conn.readBuffer != "" && Fair(s.conn, r)
    ensures Subseq(OldIds(Resume(s, r).conn.reqs, n), OldIds(s.conn.reqs, n))
  {
    var q := s.conn.reqs;
    SubseqRefl(OldIds(q, n));
    match r.result {
      case ResponseRead => AnswerOrder(q, r.size, n);
      case ReadError => LoseOrder(q, n);
      case _ =>
    }
  }

  lemma DispatchOrder(s: System, rejects: Adapter, n: nat)
    requires Enabled(s, Dispatch(rejects))
    ensures Subseq(OldIds(DoDispatch(s, rejects).conn.reqs, n), OldIds(s.conn.reqs, n))
  {
    SubseqRefl(OldIds(s.conn.reqs, n));
    if s.conn.isOpen {
      ResumeOrder(s, OnRead(s.conn, s.log.nodes, rejects), n);
    }
  }

  /** A step may drop requests and add one; it does not move any. */
  lemma OrderStep(s: System, a: Action, n: nat)
    requires Enabled(s, a) && n <= s.log.nextId
    ensures n <= Next(s, a).log.nextId
    ensures Subseq(OldIds(Next(s, a).conn.reqs, n), OldIds(s.conn.reqs, n))
  {
    var q := s.conn.reqs;
    SubseqRefl(OldIds(q, n));
    match a {
      case Exec(req) =>
        var i := Info(s.log.nextId, req, req.expected, Waiting, 0);
        AppendOrder(q, i, n);
        InsertOrder(q, i, n);
      case CancelExec => FilterOrder(NotWaiting, q, n);
      case CancelOne(id) => FilterOrder((i: Info) => !HasId(id, i), q, n);
      case Coalesce => MapOrder(ToStaged, q, n);
      case WriteDone =>
        FilterOrder(NotAnswerless, q, n);
        MapOrder(ToWritten, Filter(NotAnswerless, q), n);
      case CancelRunning => LoseOrder(q, n);
      case WriteFailed => LoseOrder(q, n);
      case ReadFailed => LoseOrder(q, n);
      case Dispatch(rejects) => DispatchOrder(s, rejects, n);
      case _ =>
    }
  }

  lemma {:induction false} OrderRun(s: System, actions: seq<Action>, s': System, n: nat)
    requires Leads(s, actions, s') && n <= s.log.nextId
    ensures Subseq(OldIds(s'.conn.reqs, n), OldIds(s.conn.reqs, n))
    decreases |actions|
  {
    if actions == [] {
      SubseqRefl(OldIds(s.conn.reqs, n));
    } else {
      var t := Next(s, actions[0]);
      OrderStep(s, actions[0], n);
      OrderRun(t, actions[1..], s', n);
      SubseqTrans(OldIds(s'.conn.reqs, n), OldIds(t.conn.reqs, n), OldIds(s.conn.reqs, n));
    }
  }
}
