// Every request that is told something is told once: when it leaves, unless it is taken out by
// its own caller; only a reply that does not parse adds to that.

module Notices {
  import opened Resp3
  import opened Queue
  import opened Connection
  import opened Multiplexer
  import opened Conservation

  /** The requests that left otherwise than by removal. */
  function Released(ds: seq<Departure>): seq<nat> {
    if ds == [] then [] else (if ds[0].exit.Removed? then [] else [ds[0].id]) + Released(ds[1..])
  }

  lemma {:induction false} ReleasedConcat(ds: seq<Departure>, es: seq<Departure>)
    ensures Released(ds + es) == Released(ds) + Released(es)
  {
    if ds == [] {
      assert ds + es == es;
    } else {
      assert (ds + es)[1..] == ds[1..] + es;
      ReleasedConcat(ds[1..], es);
      Regroup(if ds[0].exit.Removed? then [] else [ds[0].id], Released(ds[1..]), Released(es));
    }
  }

  lemma {:induction false} DeparturesReleased(q: seq<Info>, e: Exit)
    requires !e.Removed?
    ensures Released(Departures(q, e)) == Ids(q)
  {
    if q != [] {
      DeparturesReleased(q[1..], e);
      ConsParts(Leave(q[0], e), Departures(q[1..], e));
    }
  }

  lemma {:induction false} RemovedNotReleased(q: seq<Info>)
    ensures Released(Departures(q, Removed)) == []
  {
    if q != [] {
      RemovedNotReleased(q[1..]);
    }
  }

  ghost predicate NoticeInv(s: System) {
    multiset(s.log.notices) == multiset(Released(s.log.left)) + multiset(s.log.failed)
  }

  lemma LeavesNotices(s: System, t: System, gone: seq<Info>, e: Exit)
    requires NoticeInv(s) && !e.Removed? && t.log.failed == s.log.failed
    requires t.log.left == s.log.left + Departures(gone, e) && t.log.notices == s.log.notices + Ids(gone)
    ensures NoticeInv(t)
  {
    DeparturesReleased(gone, e);
    ReleasedConcat(s.log.left, Departures(gone, e));
  }

  lemma CancelRunNotices(s: System)
    requires NoticeInv(s)
    ensures NoticeInv(DoCancelRun(s))
  {
    if !s.conn.cancelRunCalled {
      LeavesNotices(s, DoCancelRun(s), Filter(Perishes, s.conn.reqs), Stopped);
    }
  }

  lemma OneNotice(s: System, t: System, d: Departure)
    requires NoticeInv(s) && !d.exit.Removed? && t.log.failed == s.log.failed
    requires t.log.left == s.log.left + [d] && t.log.notices == s.log.notices + [d.id]
    ensures NoticeInv(t)
  {
    ReleasedConcat(s.log.left, [d]);
    assert Released([d]) == [d.id];
  }

  lemma CompletedNotices(s: System, t: System, i: Info, size: nat)
    requires NoticeInv(s) && t.log.failed == s.log.failed && t.log.left == s.log.left + Completed(i, size)
    requires t.log.notices == s.log.notices + Ids(if i.remaining == 1 then [i] else [])
    ensures NoticeInv(t)
  {
    if i.remaining == 1 {
      assert Ids([i]) == [i.id];
      OneNotice(s, t, Departure(i.id, Proceeded, i.readSize + size, i.req.expected));
    } else {
      assert t.log.left == s.log.left && t.log.notices == s.log.notices;
    }
  }

  lemma ErrorNotices(s: System, t: System, told: seq<nat>)
    requires NoticeInv(s) && t.log.left == s.log.left
    requires t.log.failed == s.log.failed + told && t.log.notices == s.log.notices + told
    ensures NoticeInv(t)
  {
  }

  lemma ResumeNotices(s: System, r: Reading)
    requires NoticeInv(s) && s.conn.readBuffer != "" && Fair(s.conn, r)
    ensures NoticeInv(Resume(s, r))
  {
    match r.result {
      case ResponseRead => CompletedNotices(s, Resume(s, r), s.conn.reqs[0], r.size);
      case ReadError =>
        var told := Ids(Notified(s.conn, r));
        var u := s.(conn := r.conn,
                    log := s.log.(nodes := r.nodes, failed := s.log.failed + told, notices := s.log.notices + told));
        ErrorNotices(s, u, told);
        CancelRunNotices(u);
      case _ =>
    }
  }

  lemma NoticeStep(s: System, a: Action)
    requires NoticeInv(s) && Enabled(s, a)
    ensures NoticeInv(Next(s, a))
  {
    var q, t := s.conn.reqs, Next(s, a);
    match a {
      case CancelExec => LeavesNotices(s, t, Filter(IsWaiting, q), Stopped);
      case WriteDone => LeavesNotices(s, t, Filter(Answerless, q), Proceeded);
      case CancelOne(id) =>
        var gone := Departures(Filter((i: Info) => HasId(id, i), q), Removed);
        ReleasedConcat(s.log.left, gone);
        RemovedNotReleased(Filter((i: Info) => HasId(id, i), q));
        assert Released(s.log.left) + [] == Released(s.log.left);
      case CancelRunning => CancelRunNotices(s);
      case WriteFailed => CancelRunNotices(s);
      case ReadFailed => CancelRunNotices(s);
      case Dispatch(rejects) =>
        if s.conn.isOpen {
          ResumeNotices(s, OnRead(s.conn, s.log.nodes, rejects));
        }
      case _ =>
    }
  }

  lemma {:induction false} NoticeRun(s: System, actions: seq<Action>, s': System)
    requires NoticeInv(s) && Leads(s, actions, s')
    ensures NoticeInv(s')
    decreases |actions|
  {
    if actions != [] {
      NoticeStep(s, actions[0]);
      NoticeRun(Next(s, actions[0]), actions[1..], s');
    }
  }

  lemma CountsCons(d: Departure, ds: seq<Departure>)
    ensures multiset(LeftIds([d] + ds)) == multiset{d.id} + multiset(LeftIds(ds))
    ensures multiset(Released([d] + ds)) ==
            if d.exit.Removed? then multiset(Released(ds)) else multiset{d.id} + multiset(Released(ds))
  {
    ConsParts(d, ds);
    assert [] + Released(ds) == Released(ds);
  }

  lemma {:induction false} ReleasedAmongLeft(ds: seq<Departure>, id: nat)
    ensures multiset(Released(ds))[id] <= multiset(LeftIds(ds))[id]
  {
    if ds != [] {
      HeadTail(ds);
      CountsCons(ds[0], ds[1..]);
      ReleasedAmongLeft(ds[1..], id);
    }
  }

  /** The way a request left shows in the two counts. */
  lemma {:induction false} ExitCounts(ds: seq<Departure>, k: nat)
    requires k < |ds|
    ensures var id := ds[k].id;
            && (ds[k].exit.Removed? ==> multiset(Released(ds))[id] < multiset(LeftIds(ds))[id])
            && (!ds[k].exit.Removed? ==> multiset(Released(ds))[id] > 0)
  {
    HeadTail(ds);
    CountsCons(ds[0], ds[1..]);
    if k > 0 {
      ExitCounts(ds[1..], k - 1);
    } else {
      ReleasedAmongLeft(ds[1..], ds[0].id);
    }
  }
}
