// Whatever holds of every request given to async_exec holds of every request in the queue and
// of every request that was staged.

module Origins {
  import opened Parsing
  import opened Queue
  import opened Connection
  import opened Multiplexer

  ghost predicate AllFrom(f: Req -> bool, q: seq<Info>) {
    forall k :: 0 <= k < |q| ==> f(q[k].req)
  }

  ghost predicate ExecsAre(f: Req -> bool, actions: seq<Action>) {
    forall k :: 0 <= k < |actions| && actions[k].Exec? ==> f(actions[k].req)
  }

  lemma {:induction false} FilterFrom(f: Req -> bool, g: Info -> bool, q: seq<Info>)
    requires AllFrom(f, q)
    ensures AllFrom(f, Filter(g, q))
  {
    if q != [] {
      FilterFrom(f, g, q[1..]);
    }
  }

  lemma MapFrom(f: Req -> bool, g: Info -> Info, q: seq<Info>)
    requires AllFrom(f, q) && forall i :: g(i).req == i.req
    ensures AllFrom(f, Queue.Map(g, q))
  {
  }

  lemma {:induction false} InsertFrom(f: Req -> bool, q: seq<Info>, i: Info)
    requires AllFrom(f, q) && f(i.req)
    ensures AllFrom(f, Insert(q, i))
  {
    if i.req.helloPriority && q != [] && !IsWaiting(q[0]) {
      InsertFrom(f, q[1..], i);
    }
  }

  lemma LoseFrom(f: Req -> bool, q: seq<Info>)
    requires AllFrom(f, q)
    ensures AllFrom(f, Lose(q))
  {
    FilterFrom(f, Survives, q);
    MapFrom(f, ToWaiting, Filter(Survives, q));
  }

  ghost predicate OriginInv(f: Req -> bool, s: System) {
    AllFrom(f, s.conn.reqs) && AllFrom(f, s.log.staged)
  }

  lemma ResumeOrigin(f: Req -> bool, s: System, r: Reading)
    requires OriginInv(f, s) && s.conn.readBuffer != "" && Fair(s.conn, r)
    ensures OriginInv(f, Resume(s, r))
  {
    LoseFrom(f, s.conn.reqs);
    assert r.result.ResponseRead? ==> AllFrom(f, Answer(s.conn.reqs, r.size));
  }

  lemma DispatchOrigin(f: Req -> bool, s: System, rejects: Adapter)
    requires OriginInv(f, s) && Enabled(s, Dispatch(rejects))
    ensures OriginInv(f, DoDispatch(s, rejects))
  {
    if s.conn.isOpen {
      ResumeOrigin(f, s, OnRead(s.conn, s.log.nodes, rejects));
    }
  }

  lemma OriginStep(f: Req -> bool, s: System, a: Action)
    requires OriginInv(f, s) && Enabled(s, a) && (a.Exec? ==> f(a.req))
    ensures OriginInv(f, Next(s, a))
  {
    var q := s.conn.reqs;
    match a {
      case Exec(req) => InsertFrom(f, q, Info(s.log.nextId, req, req.expected, Waiting, 0));
      case CancelExec => FilterFrom(f, NotWaiting, q);
      case CancelOne(id) => FilterFrom(f, (i: Info) => !HasId(id, i), q);
      case Coalesce =>
        MapFrom(f, ToStaged, q);
        FilterFrom(f, IsWaiting, q);
      case WriteDone =>
        FilterFrom(f, NotAnswerless, q);
        MapFrom(f, ToWritten, Filter(NotAnswerless, q));
      case CancelRunning => LoseFrom(f, q);
      case WriteFailed => LoseFrom(f, q);
      case ReadFailed => LoseFrom(f, q);
      case Dispatch(rejects) => DispatchOrigin(f, s, rejects);
      case _ =>
    }
  }

  lemma {:induction false} OriginRun(f: Req -> bool, s: System, actions: seq<Action>, s': System)
    requires OriginInv(f, s) && Leads(s, actions, s') && ExecsAre(f, actions)
    ensures OriginInv(f, s')
    decreases |actions|
  {
    if actions != [] {
      OriginStep(f, s, actions[0]);
      OriginRun(f, Next(s, actions[0]), actions[1..], s');
    }
  }
}
