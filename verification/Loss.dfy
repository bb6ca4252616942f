// Losing the connection and going on with the next one.

module Loss {
  import opened Resp3
  import opened Decimal
  import opened Queue
  import opened Multiplexer
  import opened Phases
  import opened Conservation
  import opened Accounts
  import opened Order
  import opened Runs

  lemma {:induction false} FilterMembers(f: Info -> bool, q: seq<Info>, id: nat)
    ensures id in Ids(Filter(f, q)) <==> exists k :: 0 <= k < |q| && q[k].id == id && f(q[k])
  {
    if q != [] {
      FilterMembers(f, q[1..], id);
      ConsParts(q[0], Filter(f, q[1..]));
      assert forall k | 0 < k < |q| :: q[k] == q[1..][k - 1];
    }
  }

  lemma {:induction false} FilterSubseq(f: Info -> bool, q: seq<Info>)
    ensures Subseq(Ids(Filter(f, q)), Ids(q))
  {
    if q != [] {
      FilterSubseq(f, q[1..]);
      ConsParts(q[0], Filter(f, q[1..]));
      SubseqCons(q[0].id, Ids(Filter(f, q[1..])), Ids(q[1..]));
    }
  }

  lemma OnlyOneHasIt(q: seq<Info>, j: nat, k: nat)
    requires j < |q| && k < |q| && q[j].id == q[k].id && multiset(Ids(q))[q[k].id] <= 1
    ensures j == k
  {
    if j < k {
      QueuedTwice(q, j, k);
    } else if k < j {
      QueuedTwice(q, k, j);
    }
  }

  lemma LoseMembers(q: seq<Info>, k: nat)
    requires k < |q| && multiset(Ids(q))[q[k].id] <= 1
    ensures q[k].id in Ids(Lose(q)) <==> Survives(q[k])
  {
    MapIds(ToWaiting, Filter(Survives, q));
    FilterMembers(Survives, q, q[k].id);
    forall j | 0 <= j < |q| && q[j].id == q[k].id
      ensures j == k
    {
      OnlyOneHasIt(q, j, k);
    }
  }

  lemma QueuedAtMostOnce(actions: seq<Action>, s: System, k: nat)
    requires Leads(Boot, actions, s) && k < |s.conn.reqs|
    ensures multiset(Ids(s.conn.reqs))[s.conn.reqs[k].id] <= 1
  {
    IdReached(actions, s);
    assert Known(s.conn.reqs, s.log.left)[s.conn.reqs[k].id] <= 1;
  }

  /** cancel(run) keeps exactly the requests their flags allow, waiting again and in the same
      order; calling it once more before the next reset does nothing. */
  lemma LossKeepsSurvivors(actions: seq<Action>, s: System, k: nat)
    requires Leads(Boot, actions, s) && !s.conn.cancelRunCalled && k < |s.conn.reqs|
    ensures var i, t := s.conn.reqs[k], Next(s, CancelRunning);
            && (i.id in Ids(t.conn.reqs) <==>
                if IsWaiting(i) then !i.req.cancelOnConnectionLost else !i.req.cancelIfUnresponded)
            && Subseq(Ids(t.conn.reqs), Ids(s.conn.reqs))
            && AllAre(IsWaiting, t.conn.reqs)
            && !t.conn.isOpen && Next(t, CancelRunning) == t
  {
    SaneRun(Boot, actions, s);
    CancelRunQueue(s);
    QueuedAtMostOnce(actions, s, k);
    LoseMembers(s.conn.reqs, k);
    MapIds(ToWaiting, Filter(Survives, s.conn.reqs));
    FilterSubseq(Survives, s.conn.reqs);
  }

  /** A write that completes after cancel(run) touches no request. */
  lemma LateWriteIsHarmless(actions: seq<Action>, s: System)
    requires Leads(Boot, actions, s) && s.writer.Writing? && s.conn.cancelRunCalled
    ensures Next(s, WriteDone).conn.reqs == s.conn.reqs
    ensures Next(s, WriteDone).log.left == s.log.left
  {
    InvReached(actions, s);
    var q := s.conn.reqs;
    assert forall k | 0 <= k < |q| :: IsWaiting(q[k]);
    FilterAll(NotAnswerless, q);
    FilterNone(Answerless, q);
    assert Write(q) == q;
  }

  /** The next epoch begins by sending everything that is left, in queue order. */
  lemma NextEpochSendsSurvivors(actions: seq<Action>, s: System)
    requires Leads(Boot, actions, s) && Enabled(s, Start)
    ensures var u := Next(Next(s, Start), Coalesce);
            && u.log.staged == s.conn.reqs
            && u.log.sent == Payloads(s.conn.reqs)
            && Owed(u.conn.reqs) == AllSlots(s.conn.reqs)
  {
    SaneRun(Boot, actions, s);
    var q := s.conn.reqs;
    FilterAll(IsWaiting, q);
    FilterNone(NotWaiting, q);
    StageKeeps(q);
    assert "" + Payloads(q) == Payloads(q);
  }

  /** Its slots begin where earlier epochs left off: a request that was answered in part is
      sent in full, but only its missing slots are waited for. So it waits for as many responses
      as its commands get if and only if none had been delivered to it before. */
  lemma RetriedSlots(actions: seq<Action>, s: System, k: nat)
    requires Leads(Boot, actions, s) && k < |s.conn.reqs| && IsWaiting(s.conn.reqs[k])
    ensures var i := s.conn.reqs[k];
            && OwnSlots(i) == Slots(i.id, CountTo(i.id, History(s)), i.req.expected)
            && (|OwnSlots(i)| == i.req.expected <==> CountTo(i.id, History(s)) == 0)
  {
    SizeReached(actions, s);
    assert RightSize(History(s), s.conn.reqs[k]);
  }

  /** A reply that is only partly read when the connection is lost counts as not delivered: if its
      request may be sent again, the slot that already has the first nodes is filled once more. */
  lemma PartlyReadSlotIsFilledAgain(actions: seq<Action>, s: System, slot: Slot)
    requires Leads(Boot, actions, s) && Active(s) && s.log.sink == Some(ToSlot(slot))
    ensures s.conn.reqs != []
    ensures !s.conn.reqs[0].req.cancelIfUnresponded ==>
            var q := Next(s, CancelRunning).conn.reqs;
            q != [] && q[0].remaining <= q[0].req.expected && NextSlot(q[0]) == slot
  {
    InvReached(actions, s);
    var q := s.conn.reqs;
    HeadTail(q);
    FilterCons(Survives, q[0], q[1..]);
  }
}
