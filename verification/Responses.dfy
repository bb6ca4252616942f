// A generic response: the vector of nodes that general_aggregate builds, and consume_one,
// which takes the messages out of it again.

module Responses {
  import opened Resp3
  import opened Decimal
  import opened Trees

  /** `redis::result` of a node vector. */
  datatype Response = Nodes(nodes: seq<Node>) | RedisError(t: Type, text: Bytes)

  predicate IsErrorNode(nd: Node) {
    nd.dataType == BlobError || nd.dataType == SimpleError
  }

  /** None stands for the exception that value() throws once there is an error. */
  function Accept(r: Response, nd: Node): Option<Response> {
    if IsErrorNode(nd) then Some(RedisError(nd.dataType, nd.value))
    else if r.RedisError? then None
    else Some(Nodes(r.nodes + [nd]))
  }

  function Collect(r: Response, ns: seq<Node>): Option<Response>
    decreases |ns|
  {
    if ns == [] then Some(r)
    else
      match Accept(r, ns[0])
      case None => None
      case Some(r') => Collect(r', ns[1..])
  }

  predicate NoErrors(ns: seq<Node>) {
    forall k :: 0 <= k < |ns| ==> !IsErrorNode(ns[k])
  }

  predicate OnlyErrors(ns: seq<Node>) {
    forall k :: 0 <= k < |ns| ==> IsErrorNode(ns[k])
  }

  /** Once there is an error, further errors replace it and anything else throws. */
  lemma {:induction false} AfterAnError(r: Response, ns: seq<Node>)
    requires r.RedisError?
    ensures Collect(r, ns) ==
            if !OnlyErrors(ns) then None
            else if ns == [] then Some(r)
            else Some(RedisError(ns[|ns| - 1].dataType, ns[|ns| - 1].value))
    decreases |ns|
  {
    if ns != [] {
      assert forall k | 0 < k < |ns| :: ns[k] == ns[1..][k - 1];
      if IsErrorNode(ns[0]) {
        AfterAnError(RedisError(ns[0].dataType, ns[0].value), ns[1..]);
      }
    }
  }

  lemma FirstError(before: seq<Node>, bad: seq<Node>)
    requires bad != [] && IsErrorNode(bad[0])
    ensures Collect(Nodes(before), bad) ==
            if OnlyErrors(bad) then Some(RedisError(bad[|bad| - 1].dataType, bad[|bad| - 1].value)) else None
  {
    assert forall k | 0 < k < |bad| :: bad[k] == bad[1..][k - 1];
    AfterAnError(RedisError(bad[0].dataType, bad[0].value), bad[1..]);
  }

  /** `good` nodes, none of them an error, are kept as they came; the first error replaces them
      all, and then only errors may follow, the last of which is the result. */
  lemma {:induction false} CollectExact(before: seq<Node>, good: seq<Node>, bad: seq<Node>)
    requires NoErrors(good) && (bad != [] ==> IsErrorNode(bad[0]))
    ensures Collect(Nodes(before), good + bad) ==
            if bad == [] then Some(Nodes(before + good))
            else if OnlyErrors(bad) then Some(RedisError(bad[|bad| - 1].dataType, bad[|bad| - 1].value))
            else None
    decreases |good|
  {
    if good != [] {
      ConcatTail(good, bad);
      assert !IsErrorNode(good[0]);
      CollectExact(before + [good[0]], good[1..], bad);
      HeadTail(good);
      Regroup(before, [good[0]], good[1..]);
    } else if bad != [] {
      FirstError(before, bad);
      AppendNothing(bad);
    } else {
      AppendNothing(before);
    }
  }

  /** The first root at or after `from`. */
  function NextRoot(ns: seq<Node>, from: nat): (k: nat)
    requires from <= |ns|
    ensures from <= k <= |ns| && (k < |ns| ==> ns[k].depth == 0)
    ensures forall i :: from <= i < k ==> ns[i].depth != 0
    decreases |ns| - from
  {
    if from == |ns| || ns[from].depth == 0 then from else NextRoot(ns, from + 1)
  }

  /** A vector that does not begin with a root is refused. */
  function DropOne(ns: seq<Node>): seq<Node> {
    if ns == [] || ns[0].depth != 0 then ns else ns[NextRoot(ns, 1)..]
  }

  class GenericResponse {
    var result: Response

    constructor ()
      ensures result == Nodes([])
    {
      result := Nodes([]);
    }

    method OnNode(nd: Node) returns (thrown: bool)
      modifies this
      ensures thrown <==> Accept(old(result), nd).None?
      ensures result == if thrown then old(result) else Accept(old(result), nd).value
    {
      if nd.dataType == BlobError || nd.dataType == SimpleError {
        result := RedisError(nd.dataType, nd.value);
        return false;
      }
      if result.RedisError? {
        return true;
      }
      result := Nodes(result.nodes + [nd]);
      return false;
    }

    /** `refused` is the error incompatible_node_depth. */
    method ConsumeOne() returns (refused: bool)
      modifies this
      ensures refused <==> old(result).Nodes? && old(result).nodes != [] && old(result).nodes[0].depth != 0
      ensures result == if old(result).Nodes? then Nodes(DropOne(old(result).nodes)) else old(result)
    {
      if result.RedisError? || result.nodes == [] {
        return false;
      }
      if result.nodes[0].depth != 0 {
        return true;
      }
      var k := 1;
      while k < |result.nodes| && result.nodes[k].depth != 0
        invariant 1 <= k <= |result.nodes|
        invariant NextRoot(result.nodes, 1) == NextRoot(result.nodes, k)
      {
        k := k + 1;
      }
      result := Nodes(result.nodes[k..]);
      return false;
    }
  }

  // ---- Dropping messages one by one

  function Drop(ns: seq<Node>, times: nat): seq<Node> {
    if times == 0 then ns else Drop(DropOne(ns), times - 1)
  }

  ghost predicate Deeper(ns: seq<Node>, d: nat) {
    forall k :: 0 <= k < |ns| ==> ns[k].depth >= d
  }

  lemma {:induction false} PartsDepth(parts: seq<Bytes>, d: nat)
    ensures Deeper(PartNodes(parts, d), d)
  {
    if parts != [] {
      PartsDepth(parts[1..], d);
    }
  }

  lemma {:induction false} PreorderDepth(v: Value, d: nat)
    ensures Deeper(Preorder(v, d), d) && Deeper(Preorder(v, d)[1..], d + 1)
    ensures v.Streamed? ==> Deeper(Preorder(v, d), d + 1)
    ensures !v.Streamed? ==> Preorder(v, d)[0].depth == d
    decreases v, 1
  {
    match v {
      case Aggregate(t, elems) => PreorderAllDepth(elems, d + 1);
      case Streamed(parts) => PartsDepth(parts, d + 1);
      case _ =>
    }
  }

  lemma {:induction false} PreorderAllDepth(vs: seq<Value>, d: nat)
    ensures Deeper(PreorderAll(vs, d), d)
    decreases vs, 0
  {
    if vs != [] {
      PreorderDepth(vs[0], d);
      PreorderAllDepth(vs[1..], d);
    }
  }

  /** A search that finds nothing in `a` goes on in `b`. */
  lemma NextRootSkips(a: seq<Node>, b: seq<Node>)
    requires a != [] && Deeper(a[1..], 1)
    ensures NextRoot(a + b, 1) == |a| + NextRoot(b, 0)
  {
    assert forall i | 1 <= i < |a| :: (a + b)[i] == a[1..][i - 1];
    assert forall i | 0 <= i < |b| :: (a + b)[|a| + i] == b[i];
  }

  /** One call drops the first message, along with any streamed strings that follow it. */
  lemma DropsFirst(vs: seq<Value>)
    requires vs != [] && !vs[0].Streamed?
    ensures var rest := PreorderAll(vs[1..], 0); DropOne(PreorderAll(vs, 0)) == rest[NextRoot(rest, 0)..]
  {
    var a, b := Preorder(vs[0], 0), PreorderAll(vs[1..], 0);
    PreorderDepth(vs[0], 0);
    NextRootSkips(a, b);
    assert (a + b)[0] == a[0];
    assert (a + b)[|a| + NextRoot(b, 0)..] == b[NextRoot(b, 0)..];
  }

  predicate NoStreamed(vs: seq<Value>) {
    forall k :: 0 <= k < |vs| ==> !vs[k].Streamed?
  }

  lemma RootIsNext(vs: seq<Value>)
    ensures NextRoot(PreorderAll(vs, 0), 0) == 0 <==> vs == [] || !vs[0].Streamed?
  {
    if vs != [] {
      PreorderDepth(vs[0], 0);
    }
  }

  lemma {:induction false} DropsEach(vs: seq<Value>, k: nat)
    requires NoStreamed(vs) && k <= |vs|
    ensures Drop(PreorderAll(vs, 0), k) == PreorderAll(vs[k..], 0)
    decreases k
  {
    if k > 0 {
      DropsFirst(vs);
      RootIsNext(vs[1..]);
      DropsEach(vs[1..], k - 1);
      assert vs[1..][k - 1..] == vs[k..];
    } else {
      assert vs[0..] == vs;
    }
  }

  lemma StreamedIsRefused(vs: seq<Value>)
    requires vs != [] && vs[0].Streamed?
    ensures DropOne(PreorderAll(vs, 0)) != PreorderAll(vs[1..], 0)
  {
    var a, b := Preorder(vs[0], 0), PreorderAll(vs[1..], 0);
    PreorderDepth(vs[0], 0);
    assert (a + b)[0] == a[0];
    assert |a + b| > |b|;
  }

  ghost predicate DropsInOrder(vs: seq<Value>) {
    forall k :: 0 <= k <= |vs| ==> Drop(PreorderAll(vs, 0), k) == PreorderAll(vs[k..], 0)
  }

  lemma DropsInOrderTail(vs: seq<Value>)
    requires vs != [] && DropsInOrder(vs)
    ensures DropOne(PreorderAll(vs, 0)) == PreorderAll(vs[1..], 0) && DropsInOrder(vs[1..])
  {
    var ns, rest := PreorderAll(vs, 0), PreorderAll(vs[1..], 0);
    assert Drop(ns, 1) == PreorderAll(vs[1..], 0);
    assert Drop(ns, 1) == Drop(DropOne(ns), 0);
    forall k | 0 <= k <= |vs[1..]|
      ensures Drop(rest, k) == PreorderAll(vs[1..][k..], 0)
    {
      assert Drop(ns, k + 1) == PreorderAll(vs[k + 1..], 0);
      assert vs[1..][k..] == vs[k + 1..];
    }
  }

  lemma {:induction false} StreamedAreInTheWay(vs: seq<Value>)
    requires DropsInOrder(vs)
    ensures NoStreamed(vs)
  {
    if vs != [] {
      DropsInOrderTail(vs);
      if vs[0].Streamed? {
        StreamedIsRefused(vs);
      }
      StreamedAreInTheWay(vs[1..]);
    }
  }

  /** k calls of consume_one leave the messages after the k-th, for every k, if and only if no
      message is a streamed string at top level. */
  lemma ConsumeOneDropsOneMessage(vs: seq<Value>)
    ensures DropsInOrder(vs) <==> NoStreamed(vs)
  {
    if NoStreamed(vs) {
      forall k | 0 <= k <= |vs|
        ensures Drop(PreorderAll(vs, 0), k) == PreorderAll(vs[k..], 0)
      {
        DropsEach(vs, k);
      }
    } else if DropsInOrder(vs) {
      StreamedAreInTheWay(vs);
    }
  }

  /** Two messages in the vector, the second one a streamed string: one call drops both. */
  lemma StreamedGoesToo()
    ensures Drop(PreorderAll([Simple(SimpleString, "OK"), Streamed([])], 0), 1) == []
  {
    var vs := [Simple(SimpleString, "OK"), Streamed([])];
    DropsFirst(vs);
    var rest := PreorderAll(vs[1..], 0);
    assert vs[1..] == [Streamed([])] && [Streamed([])][1..] == [];
    PreorderAllDepth([], 0);
    PreorderDepth(Streamed([]), 0);
    assert rest == Preorder(Streamed([]), 0) + [];
    assert Drop(PreorderAll(vs, 0), 1) == DropOne(PreorderAll(vs, 0));
  }
}
