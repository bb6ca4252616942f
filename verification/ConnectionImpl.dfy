// connection_base itself: the queue, the buffers, the parser and the counters, changed in
// place. Each operation is proved to do what Connection.dfy says about values.

module ConnectionImpl {
  import opened Resp3
  import opened Parsing
  import opened Queue
  import C = Connection
  import ParserImpl

  /** `std::partition_point`: a binary search, right only for a partitioned queue. */
  method PartitionPoint(q: seq<Info>, f: Info -> bool) returns (k: nat)
    requires forall i, j :: 0 <= i < j < |q| && f(q[j]) ==> f(q[i])
    ensures k <= |q| && (forall i :: 0 <= i < k ==> f(q[i])) && forall i :: k <= i < |q| ==> !f(q[i])
  {
    var lo, hi := 0, |q|;
    while lo < hi
      invariant 0 <= lo <= hi <= |q|
      invariant forall i :: 0 <= i < lo ==> f(q[i])
      invariant forall i :: hi <= i < |q| ==> !f(q[i])
    {
      var mid := (lo + hi) / 2;
      if f(q[mid]) {
        lo := mid + 1;
      } else {
        hi := mid;
      }
    }
    k := lo;
  }

  lemma FilterSnoc(f: Info -> bool, q: seq<Info>, k: nat)
    requires k < |q|
    ensures Filter(f, q[..k + 1]) == Filter(f, q[..k]) + if f(q[k]) then [q[k]] else []
  {
    assert q[..k + 1] == q[..k] + [q[k]];
    FilterConcat(f, q[..k], [q[k]]);
  }

  /** `std::stable_partition`, with the two parts apart. `g` names the negation of `f`. */
  method StablePartition(q: seq<Info>, f: Info -> bool, ghost g: Info -> bool) returns (kept: seq<Info>, gone: seq<Info>)
    requires forall i :: f(i) != g(i)
    ensures kept == Filter(f, q) && gone == Filter(g, q)
  {
    kept, gone := [], [];
    for k := 0 to |q|
      invariant kept == Filter(f, q[..k]) && gone == Filter(g, q[..k])
    {
      FilterSnoc(f, q, k);
      FilterSnoc(g, q, k);
      if f(q[k]) {
        kept := kept + [q[k]];
      } else {
        gone := gone + [q[k]];
      }
    }
    assert q[..|q|] == q;
  }

  /** `std::for_each` over the queue, changing each entry. */
  method ForEach(q: seq<Info>, f: Info -> Info) returns (r: seq<Info>)
    ensures r == Queue.Map(f, q)
  {
    r := q;
    for k := 0 to |q|
      invariant |r| == |q|
      invariant forall i :: 0 <= i < k ==> r[i] == f(q[i])
      invariant forall i :: k <= i < |q| ==> r[i] == q[i]
    {
      r := r[k := f(r[k])];
    }
  }

  /** The waiting part of a sorted queue, as the binary search finds it. */
  lemma {:induction false} WaitingSuffix(q: seq<Info>, k: nat)
    requires k <= |q| && (forall i :: 0 <= i < k ==> NotWaiting(q[i])) && forall i :: k <= i < |q| ==> IsWaiting(q[i])
    ensures Filter(IsWaiting, q) == q[k..] && FirstWaiting(q) == k
  {
    assert q == q[..k] + q[k..];
    FilterConcat(IsWaiting, q[..k], q[k..]);
    FilterNone(IsWaiting, q[..k]);
    FilterAll(IsWaiting, q[k..]);
  }

  lemma StagedPointwise(q: seq<Info>, r: seq<Info>, point: nat)
    requires |r| == |q| && point <= |q|
    requires forall i :: 0 <= i < point ==> NotWaiting(q[i]) && r[i] == q[i]
    requires forall i :: point <= i < |q| ==> r[i] == ToStaged(q[i])
    ensures r == Stage(q)
  {
  }

  lemma StagedSnoc(q: seq<Info>, k: nat, j: nat)
    requires k <= j < |q|
    ensures Payloads(q[k..j + 1]) == Payloads(q[k..j]) + q[j].req.payload
    ensures C.Remainders(q[k..j + 1]) == C.Remainders(q[k..j]) + q[j].remaining
  {
    assert q[k..j + 1] == q[k..j] + [q[j]];
    PayloadsConcat(q[k..j], [q[j]]);
    RemaindersSnoc(q[k..j], q[j]);
    assert q[j].req.payload + "" == q[j].req.payload;
  }

  lemma {:induction false} RemaindersSnoc(q: seq<Info>, i: Info)
    ensures C.Remainders(q + [i]) == C.Remainders(q) + i.remaining
  {
    if q == [] {
      assert [] + [i] == [i];
    } else {
      assert (q + [i])[1..] == q[1..] + [i];
      RemaindersSnoc(q[1..], i);
    }
  }

  function Reversed(q: seq<Info>): (r: seq<Info>)
    ensures |r| == |q| && forall i :: 0 <= i < |q| ==> r[i] == q[|q| - 1 - i]
  {
    seq(|q|, i requires 0 <= i < |q| => q[|q| - 1 - i])
  }

  /** Rotating the last entry over the `k` waiting ones at the rear, itself included. */
  lemma HelloRotated(q: seq<Info>, i: Info, k: nat)
    requires IsWaiting(i) && i.req.helloPriority && k <= |q| + 1
    requires forall j :: 0 <= j < k ==> IsWaiting(Reversed(q + [i])[j])
    requires forall j :: k <= j <= |q| ==> !IsWaiting(Reversed(q + [i])[j])
    ensures var p := q + [i]; 0 < k && p[..|p| - k] + [p[|q|]] + p[|p| - k..|q|] == Insert(q, i)
  {
    var r := Reversed(q + [i]);
    assert r[0] == i;
    var m := |q| + 1 - k;
    forall j | 0 <= j < |q|
      ensures IsWaiting(q[j]) <==> m <= j
    {
      assert r[|q| - j] == q[j];
    }
    WaitingSuffix(q, m);
    HelloLandsBeforeWaiting(q, i);
    assert (q + [i])[..m] == q[..m] && (q + [i])[m..|q|] == q[m..];
  }

  class ConnectionBase {
    var reqs: seq<Info>
    var writeBuffer: Bytes
    var readBuffer: Bytes
    const parser: ParserImpl.Parser
    var onPush: bool
    var cancelRunCalled: bool
    var isOpen: bool
    var usage: C.Usage

    ghost predicate Valid()
      reads this, parser, parser.sizes
    {
      parser.Valid()
    }

    ghost function Model(): C.Conn
      requires parser.InBounds()
      reads this, parser, parser.sizes
    {
      C.Conn(reqs, writeBuffer, readBuffer, parser.Abs(), onPush, cancelRunCalled, isOpen, usage)
    }

    constructor ()
      ensures Valid() && fresh(parser) && fresh(parser.sizes)
      ensures Model() == C.Conn([], "", "", Initial, false, false, false, C.Usage(0, 0, 0, 0, 0, 0))
    {
      reqs, writeBuffer, readBuffer := [], "", "";
      onPush, cancelRunCalled, isOpen := false, false, false;
      usage := C.Usage(0, 0, 0, 0, 0, 0);
      parser := new ParserImpl.Parser();
    }

    /** A priority request is taken back over the waiting ones, which the search counts from
        the rear. */
    method PushInfo(i: Info)
      requires Sorted(reqs) && IsWaiting(i)
      modifies this`reqs
      ensures reqs == Insert(old(reqs), i)
    {
      ghost var q := reqs;
      reqs := reqs + [i];
      if i.req.helloPriority {
        var last := |reqs| - 1;
        var k := PartitionPoint(Reversed(reqs), IsWaiting);
        HelloRotated(q, i, k);
        reqs := reqs[..|reqs| - k] + [reqs[last]] + reqs[|reqs| - k..last];
      }
    }

    /** `wake` says that the writer's timer is cancelled. */
    method AddRequestInfo(i: Info) returns (wake: bool)
      requires Valid() && Sorted(reqs) && IsWaiting(i)
      modifies this`reqs
      ensures Valid() && Model() == C.AddRequestInfo(old(Model()), i)
      ensures wake == C.WakesWriter(old(Model()))
    {
      PushInfo(i);
      wake := isOpen && writeBuffer == "";
    }

    /** The body of the loop over the waiting part. */
    method StageFrom(point: nat)
      requires point <= |reqs| && forall i :: point <= i < |reqs| ==> IsWaiting(reqs[i])
      modifies this`reqs, this`writeBuffer, this`usage
      ensures |reqs| == |old(reqs)| && forall i :: 0 <= i < point ==> reqs[i] == old(reqs)[i]
      ensures forall i :: point <= i < |reqs| ==> reqs[i] == ToStaged(old(reqs)[i])
      ensures writeBuffer == old(writeBuffer) + Payloads(old(reqs)[point..])
      ensures usage == old(usage).(commandsSent := old(usage).commandsSent + C.Remainders(old(reqs)[point..]))
    {
      ghost var q, b, u := reqs, writeBuffer, usage;
      assert writeBuffer == b + Payloads(q[point..point]);
      for k := point to |reqs|
        invariant |reqs| == |q|
        invariant forall i :: 0 <= i < |q| ==> reqs[i] == if point <= i < k then ToStaged(q[i]) else q[i]
        invariant writeBuffer == b + Payloads(q[point..k])
        invariant usage == u.(commandsSent := u.commandsSent + C.Remainders(q[point..k]))
      {
        StagedSnoc(q, point, k);
        Regroup(b, Payloads(q[point..k]), q[k].req.payload);
        writeBuffer := writeBuffer + reqs[k].req.payload;
        usage := usage.(commandsSent := usage.commandsSent + reqs[k].remaining);
        reqs := reqs[k := reqs[k].(phase := Staged)];
      }
      assert q[point..|q|] == q[point..];
    }

    method StageWaiting() returns (any: bool)
      requires Sorted(reqs)
      modifies this`reqs, this`writeBuffer, this`usage
      ensures reqs == Stage(old(reqs))
      ensures writeBuffer == old(writeBuffer) + Payloads(Filter(IsWaiting, old(reqs)))
      ensures usage == old(usage).(commandsSent := old(usage).commandsSent + C.Remainders(Filter(IsWaiting, old(reqs))))
      ensures any <==> Filter(IsWaiting, old(reqs)) != []
    {
      ghost var q := reqs;
      var point := PartitionPoint(reqs, NotWaiting);
      WaitingSuffix(q, point);
      StageFrom(point);
      StagedPointwise(q, reqs, point);
      any := point != |reqs|;
    }

    method CoalesceRequests() returns (any: bool)
      requires Valid() && Sorted(reqs)
      modifies this`reqs, this`writeBuffer, this`usage
      ensures Valid() && Model() == C.CoalesceRequests(old(Model())) && any == C.AnyWaiting(old(Model()))
    {
      any := StageWaiting();
      usage := usage.(bytesSent := usage.bytesSent + |writeBuffer|);
    }

    /** `proceeded` are the requests that are notified and leave. */
    method CancelPushRequests() returns (proceeded: seq<Info>)
      modifies this`reqs
      ensures reqs == Filter(NotAnswerless, old(reqs)) && proceeded == Filter(Answerless, old(reqs))
    {
      reqs, proceeded := StablePartition(reqs, NotAnswerless, Answerless);
    }

    method OnWrite() returns (proceeded: seq<Info>)
      requires Valid()
      modifies this`reqs, this`writeBuffer
      ensures Valid() && Model() == C.OnWrite(old(Model())) && proceeded == Filter(Answerless, old(reqs))
    {
      writeBuffer := "";
      proceeded := CancelPushRequests();
      reqs := ForEach(reqs, ToWritten);
    }

    method CancelUnwrittenRequests() returns (stopped: seq<Info>)
      requires Valid()
      modifies this`reqs
      ensures Valid() && Model() == C.CancelUnwritten(old(Model())) && stopped == Filter(IsWaiting, old(reqs))
    {
      reqs, stopped := StablePartition(reqs, NotWaiting, IsWaiting);
    }

    method CancelOnConnLost() returns (stopped: seq<Info>)
      modifies this`reqs
      ensures reqs == Lose(old(reqs)) && stopped == Filter(Perishes, old(reqs))
    {
      reqs, stopped := StablePartition(reqs, Survives, Perishes);
      reqs := ForEach(reqs, ToWaiting);
    }

    method CancelRun() returns (stopped: seq<Info>, wake: bool)
      requires Valid()
      modifies this`reqs, this`cancelRunCalled, this`isOpen
      ensures Valid() && Model() == C.CancelRun(old(Model()))
      ensures stopped == if old(cancelRunCalled) then [] else Filter(Perishes, old(reqs))
      ensures wake == !old(cancelRunCalled)
    {
      if cancelRunCalled {
        return [], false;
      }
      cancelRunCalled, isOpen, wake := true, false, true;
      stopped := CancelOnConnLost();
    }

    method RemoveRequest(id: nat)
      requires Valid()
      modifies this`reqs
      ensures Valid() && Model() == C.RemoveRequest(old(Model()), id)
    {
      ghost var gone;
      reqs, gone := StablePartition(reqs, (i: Info) => !HasId(id, i), (i: Info) => HasId(id, i));
    }

    predicate IsNextPush()
      requires readBuffer != "" && parser.InBounds()
      reads this, parser, parser.sizes
      ensures IsNextPush() == C.IsNextPush(Model())
    {
      if ToType(readBuffer[0]) == Push then true
      else if reqs == [] then true
      else if reqs[0].remaining == 0 then true
      else IsWaiting(reqs[0])
    }

    method OnFinishParsing(push: bool) returns (size: nat)
      requires Valid() && parser.consumed <= |readBuffer|
      modifies this`usage, this`onPush, this`readBuffer, parser, parser.sizes
      ensures Valid() && Model() == C.FinishParsing(old(Model()), push) && size == old(parser.consumed)
    {
      size := parser.consumed;
      if push {
        usage := usage.(pushesReceived := usage.pushesReceived + 1, pushBytes := usage.pushBytes + size);
      } else {
        usage := usage.(responsesReceived := usage.responsesReceived + 1, responseBytes := usage.responseBytes + size);
      }
      onPush := false;
      readBuffer := readBuffer[size..];
      parser.Reset();
    }

    /** A request that has its last response is told to proceed and leaves. */
    method AnswerFront(size: nat) returns (proceeded: seq<Info>)
      requires reqs != [] && reqs[0].remaining > 0
      modifies this`reqs
      ensures reqs == Answer(old(reqs), size)
      ensures proceeded == if old(reqs)[0].remaining == 1 then [old(reqs)[0]] else []
    {
      var front := reqs[0].(readSize := reqs[0].readSize + size, remaining := reqs[0].remaining - 1);
      proceeded := [];
      if front.remaining == 0 {
        proceeded, reqs := [reqs[0]], reqs[1..];
      } else {
        reqs := [front] + reqs[1..];
      }
    }

    /** Decides where a new message goes, and parses into the adapter in charge. */
    method ParseNext(acc: seq<Node>, rejects: Adapter) returns (status: Status, nodes: seq<Node>)
      requires Valid() && Model().Readable() && readBuffer != ""
      modifies this`onPush, parser, parser.sizes
      ensures Valid() && parser.consumed <= |readBuffer|
      ensures onPush == (old(onPush) || C.IsNextPush(old(Model())))
      ensures Result(status, parser.Abs(), nodes) == Parse(old(Model()).parser, readBuffer, acc, rejects)
    {
      if !onPush {
        onPush := IsNextPush();
      }
      status, nodes := ParserImpl.Parse(parser, readBuffer, acc, rejects);
    }

    /** `acc` is what the adapter in charge has been given of this message so far; `notified` is
        the front request when it is told to proceed: with an error, or as complete. */
    method OnRead(acc: seq<Node>, rejects: Adapter)
      returns (result: C.ReadResult, size: nat, nodes: seq<Node>, notified: seq<Info>)
      requires Valid() && Model().Readable() && readBuffer != ""
      modifies this, parser, parser.sizes
      ensures Valid()
      ensures C.Reading(result, size, Model(), nodes) == C.OnRead(old(Model()), acc, rejects)
      ensures notified == C.Notified(old(Model()), C.Reading(result, size, Model(), nodes))
    {
      var status;
      status, nodes := ParseNext(acc, rejects);
      if status.NeedsMore? {
        return C.MoreNeeded, 0, nodes, [];
      } else if status.Crashed? {
        return C.ReadFault, 0, nodes, [];
      } else if !status.Finished? {
        return C.ReadError, 0, nodes, if onPush then [] else [reqs[0]];
      }
      if onPush {
        size := OnFinishParsing(true);
        return C.PushRead, size, nodes, [];
      }
      notified := AnswerFront(parser.consumed);
      size := OnFinishParsing(false);
      result := C.ResponseRead;
    }

    method Reset()
      requires Valid()
      modifies this, parser, parser.sizes
      ensures Valid() && Model() == C.Reset(old(Model()))
    {
      writeBuffer, readBuffer := "", "";
      parser.Reset();
      onPush, cancelRunCalled := false, false;
    }
  }
}
