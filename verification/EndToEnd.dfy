// From the commands callers push to the commands the server reads, in one line.

module EndToEnd {
  import opened Resp3
  import opened Stream
  import opened RequestImpl
  import opened Queue
  import opened Multiplexer
  import opened Origins
  import opened Phases
  import opened Runs

  function Flatten(css: seq<seq<Command>>): seq<Command> {
    if css == [] then [] else css[0] + Flatten(css[1..])
  }

  lemma {:induction false} ValuesConcat(cs: seq<Command>, ds: seq<Command>)
    ensures CommandValues(cs + ds) == CommandValues(cs) + CommandValues(ds)
  {
    if cs == [] {
      AppendNothing(ds);
      AppendNothing(CommandValues(ds));
    } else {
      ConcatTail(cs, ds);
      ValuesConcat(cs[1..], ds);
      Regroup([CommandValue(cs[0])], CommandValues(cs[1..]), CommandValues(ds));
    }
  }

  lemma PayloadConcat(cs: seq<Command>, ds: seq<Command>)
    ensures Payload(cs + ds) == Payload(cs) + Payload(ds)
  {
    ValuesConcat(cs, ds);
    PrintAllConcat(CommandValues(cs), CommandValues(ds));
  }

  lemma {:induction false} ResponseCountConcat(cs: seq<Command>, ds: seq<Command>)
    ensures ResponseCount(cs + ds) == ResponseCount(cs) + ResponseCount(ds)
    decreases |ds|
  {
    if ds == [] {
      assert cs + ds == cs;
    } else {
      var last := |ds| - 1;
      ResponseCountConcat(cs, ds[..last]);
      assert (cs + ds)[..|cs + ds| - 1] == cs + ds[..last];
    }
  }

  ghost predicate AllSendable(cs: seq<Command>) {
    forall k :: 0 <= k < |cs| ==> Sendable(cs[k])
  }

  /** A request is what pushing `cs` makes of it. */
  ghost predicate BuiltFrom(r: Req, cs: seq<Command>) {
    r.payload == Payload(cs) && r.expected == ResponseCount(cs) && AllSendable(cs)
  }

  ghost predicate Built(r: Req) {
    exists cs :: BuiltFrom(r, cs)
  }

  /** Each entry carries the request built from the commands at its position. */
  ghost predicate Carries(q: seq<Info>, css: seq<seq<Command>>) {
    |q| == |css| && forall k :: 0 <= k < |q| ==> BuiltFrom(q[k].req, css[k])
  }

  lemma {:induction false} Unpack(q: seq<Info>) returns (css: seq<seq<Command>>)
    requires AllFrom(Built, q)
    ensures Carries(q, css)
  {
    if q == [] {
      css := [];
    } else {
      assert Built(q[0].req);
      var cs :| BuiltFrom(q[0].req, cs);
      var more := Unpack(q[1..]);
      css := [cs] + more;
    }
  }

  lemma {:induction false} CarriedPayload(q: seq<Info>, css: seq<seq<Command>>)
    requires Carries(q, css)
    ensures Payloads(q) == Payload(Flatten(css)) && AllSendable(Flatten(css))
  {
    if q != [] {
      CarriedPayload(q[1..], css[1..]);
      PayloadConcat(css[0], Flatten(css[1..]));
      assert BuiltFrom(q[0].req, css[0]);
    }
  }

  /** None of the responses had come in before the requests were staged. */
  ghost predicate Unanswered(q: seq<Info>) {
    forall k :: 0 <= k < |q| ==> q[k].remaining == q[k].req.expected
  }

  lemma CarriedTail(q: seq<Info>, css: seq<seq<Command>>)
    requires Carries(q, css) && q != []
    ensures BuiltFrom(q[0].req, css[0]) && Carries(q[1..], css[1..])
    ensures Unanswered(q) <==> q[0].remaining == q[0].req.expected && Unanswered(q[1..])
  {
    assert forall k | 0 < k < |q| :: q[k] == q[1..][k - 1];
  }

  lemma {:induction false} CarriedSlots(q: seq<Info>, css: seq<seq<Command>>)
    requires Carries(q, css) && AllCounted(q)
    ensures |AllSlots(q)| <= ResponseCount(Flatten(css))
    ensures |AllSlots(q)| == ResponseCount(Flatten(css)) <==> Unanswered(q)
  {
    if q != [] {
      assert Counted(q[0]);
      CarriedTail(q, css);
      CarriedSlots(q[1..], css[1..]);
      ResponseCountConcat(css[0], Flatten(css[1..]));
    }
  }

  /** However its reads split them, the bytes of an epoch are to the server exactly the
      commands of the staged requests, in order. The slots waited for are as many as the
      commands among them that get a response, if and only if no request sent again had
      been answered in part. */
  lemma ServerReadsTheCommands(actions: seq<Action>, s: System, chunks: seq<Bytes>)
    returns (css: seq<seq<Command>>)
    requires Leads(Boot, actions, s) && Active(s) && ExecsAre(Built, actions) && Concat(chunks) == s.log.sent
    ensures Carries(s.log.staged, css)
    ensures var cs, d := Flatten(css), FeedAll(Opening, chunks);
            && d.status.NeedsMore? && d.buffer == ""
            && |d.messages| == |cs| && forall k :: 0 <= k < |cs| ==> d.messages[k].nodes == CommandNodes(cs[k])
    ensures |AllSlots(s.log.staged)| == ResponseCount(Flatten(css)) <==> Unanswered(s.log.staged)
  {
    InvReached(actions, s);
    OriginRun(Built, Boot, actions, s);
    css := Unpack(s.log.staged);
    CarriedPayload(s.log.staged, css);
    CarriedSlots(s.log.staged, css);
    PayloadRoundTrip(Flatten(css), chunks);
  }

  // ---- Slots and commands

  predicate GetsResponse(c: Command) {
    c == [] || c[0] !in {"SUBSCRIBE", "PSUBSCRIBE", "UNSUBSCRIBE"}
  }

  /** The commands that get a response. */
  function Answerable(cs: seq<Command>): seq<Command> {
    Filter(GetsResponse, cs)
  }

  lemma {:induction false} AnswerableCount(cs: seq<Command>)
    ensures |Answerable(cs)| == ResponseCount(cs)
  {
    if cs != [] {
      var last := |cs| - 1;
      AnswerableCount(cs[..last]);
      assert cs == cs[..last] + [cs[last]];
      FilterConcat(GetsResponse, cs[..last], [cs[last]]);
    }
  }

  /** Where the commands of the k-th request begin among all commands that get a response. */
  function Position(css: seq<seq<Command>>, k: nat): nat
    requires k <= |css|
  {
    if k == 0 then 0 else |Answerable(css[0])| + Position(css[1..], k - 1)
  }

  lemma Indexed<T>(a: seq<T>, b: seq<T>, j: nat)
    requires j < |a| + |b|
    ensures (a + b)[j] == if j < |a| then a[j] else b[j - |a|]
  {
  }

  lemma {:induction false} CommandPosition(css: seq<seq<Command>>, k: nat, i: nat)
    requires k < |css| && i < |Answerable(css[k])|
    ensures var j, all := Position(css, k) + i, Answerable(Flatten(css)); j < |all| && all[j] == Answerable(css[k])[i]
  {
    FilterConcat(GetsResponse, css[0], Flatten(css[1..]));
    var here, more := Answerable(css[0]), Answerable(Flatten(css[1..]));
    if k == 0 {
      Indexed(here, more, i);
    } else {
      CommandPosition(css[1..], k - 1, i);
      Indexed(here, more, |here| + Position(css[1..], k - 1) + i);
    }
  }

  /** Where the slots of the k-th entry begin among all slots. */
  function FirstSlot(q: seq<Info>, k: nat): nat
    requires k <= |q|
  {
    if k == 0 then 0 else q[0].req.expected + FirstSlot(q[1..], k - 1)
  }

  lemma {:induction false} SlotPosition(q: seq<Info>, k: nat, i: nat)
    requires Unanswered(q) && k < |q| && i < q[k].req.expected
    ensures FirstSlot(q, k) + i < |AllSlots(q)| && AllSlots(q)[FirstSlot(q, k) + i] == Slot(q[k].id, i)
  {
    var here, more := OwnSlots(q[0]), AllSlots(q[1..]);
    if k == 0 {
      Indexed(here, more, i);
    } else {
      SlotPosition(q[1..], k - 1, i);
      Indexed(here, more, |here| + (FirstSlot(q[1..], k - 1) + i));
    }
  }

  lemma {:induction false} SamePosition(q: seq<Info>, css: seq<seq<Command>>, k: nat)
    requires Carries(q, css) && k <= |q|
    ensures Position(css, k) == FirstSlot(q, k)
  {
    if k > 0 {
      CarriedTail(q, css);
      AnswerableCount(css[0]);
      SamePosition(q[1..], css[1..], k - 1);
    }
  }

  /** The slot with index `i` of the k-th request stands, among all slots on the wire, where the
      i-th of its commands that get a response stands among all such commands on the wire. */
  lemma SlotOfCommand(q: seq<Info>, css: seq<seq<Command>>, k: nat, i: nat)
    requires Carries(q, css) && Unanswered(q) && k < |q| && i < |Answerable(css[k])|
    ensures var j, slots, commands := Position(css, k) + i, AllSlots(q), Answerable(Flatten(css));
            && j < |slots| == |commands|
            && slots[j] == Slot(q[k].id, i) && commands[j] == Answerable(css[k])[i]
  {
    assert BuiltFrom(q[k].req, css[k]);
    AnswerableCount(css[k]);
    SamePosition(q, css, k);
    SlotPosition(q, k, i);
    CommandPosition(css, k, i);
    AnswerableCount(Flatten(css));
    CarriedSlots(q, css);
  }
}
