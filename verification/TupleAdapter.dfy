// The adapter that spreads a flattened reply, such as that of EXEC, over the elements of a
// tuple.

module TupleAdapter {
  import opened Resp3
  import opened Trees
  import opened Responses

  /** `std::size_t` decrement. */
  function Decrement(n: nat): nat {
    if n == 0 then SIZE_MAX else n - 1
  }

  /** The index of the current element, and the nodes still to come for it. */
  datatype Place = Place(index: nat, left: nat)

  function CountNode(p: Place, nd: Node): Place {
    if nd.depth == 1 then
      if IsAggregate(nd.dataType) then p.(left := ElementMultiplicity(nd.dataType) * nd.aggregateSize)
      else p.(index := p.index + 1)
    else
      var left := Decrement(p.left);
      Place(if left == 0 then p.index + 1 else p.index, left)
  }

  /** What becomes of a node: the root is checked against the tuple size, any other node goes
      to the adapter of an element, if there is one with that index. */
  datatype Routing = SizeAccepted | SizeRefused | To(element: nat) | OutOfRange(index: nat)

  function Route(p: Place, size: nat, nd: Node): Routing {
    if nd.depth == 0 then
      if nd.aggregateSize * ElementMultiplicity(nd.dataType) == size then SizeAccepted else SizeRefused
    else if p.index < size then To(p.index) else OutOfRange(p.index)
  }

  class StaticAggregateAdapter {
    var i: nat
    var aggregateSize: nat
    const tupleSize: nat

    function Abs(): Place
      reads this
    {
      Place(i, aggregateSize)
    }

    constructor (n: nat)
      ensures Abs() == Place(0, 0) && tupleSize == n
    {
      i, aggregateSize, tupleSize := 0, 0, n;
    }

    method Count(nd: Node)
      modifies this
      ensures Abs() == CountNode(old(Abs()), nd)
    {
      if nd.depth == 1 {
        if IsAggregate(nd.dataType) {
          aggregateSize := ElementMultiplicity(nd.dataType) * nd.aggregateSize;
        } else {
          i := i + 1;
        }
        return;
      }
      aggregateSize := Decrement(aggregateSize);
      if aggregateSize == 0 {
        i := i + 1;
      }
    }

    method OnNode(nd: Node) returns (r: Routing)
      modifies this
      ensures r == Route(old(Abs()), tupleSize, nd)
      ensures Abs() == if r.To? then CountNode(old(Abs()), nd) else old(Abs())
    {
      if nd.depth == 0 {
        return if nd.aggregateSize * ElementMultiplicity(nd.dataType) != tupleSize then SizeRefused else SizeAccepted;
      }
      if i >= tupleSize {
        return OutOfRange(i);
      }
      r := To(i);
      Count(nd);
    }
  }

  // ---- A whole reply

  /** The element each node goes to. */
  function Targets(p: Place, ns: seq<Node>): (ts: seq<nat>)
    ensures |ts| == |ns|
    decreases |ns|
  {
    if ns == [] then [] else [p.index] + Targets(CountNode(p, ns[0]), ns[1..])
  }

  function After(p: Place, ns: seq<Node>): Place
    decreases |ns|
  {
    if ns == [] then p else After(CountNode(p, ns[0]), ns[1..])
  }

  lemma {:induction false} Continues(p: Place, a: seq<Node>, b: seq<Node>)
    ensures Targets(p, a + b) == Targets(p, a) + Targets(After(p, a), b)
    ensures After(p, a + b) == After(After(p, a), b)
    decreases |a|
  {
    if a == [] {
      assert a + b == b;
    } else {
      assert (a + b)[1..] == a[1..] + b;
      Continues(CountNode(p, a[0]), a[1..], b);
    }
  }

  ghost predicate AllGoTo(ts: seq<nat>, k: nat) {
    forall j :: 0 <= j < |ts| ==> ts[j] == k
  }

  /** Nodes below depth 1 are counted, one by one, until the count runs out. */
  lemma {:induction false} CountsDown(k: nat, left: nat, ns: seq<Node>)
    requires Deeper(ns, 2) && |ns| < left
    ensures AllGoTo(Targets(Place(k, left), ns), k) && After(Place(k, left), ns) == Place(k, left - |ns|)
    decreases |ns|
  {
    if ns != [] {
      CountsDown(k, left - 1, ns[1..]);
    }
  }

  predicate IsOneNode(v: Value) {
    v.Simple? || v.Blob? || (v.Aggregate? && v.elems == [])
  }

  /** An element the adapter gets right: a simple value or a blob, or an aggregate that is not
      empty and whose own elements are one node each. */
  predicate Flat(v: Value) {
    v.Simple? || v.Blob? || (v.Aggregate? && v.elems != [] && forall k :: 0 <= k < |v.elems| ==> IsOneNode(v.elems[k]))
  }

  lemma OneNodeExact(v: Value, d: nat)
    ensures |Preorder(v, d)| == 1 <==> IsOneNode(v)
  {
    if v.Aggregate? && v.elems != [] {
      assert |Preorder(v.elems[0], d + 1)| > 0;
    }
  }

  lemma {:induction false} AtLeastOneNodeEach(vs: seq<Value>, d: nat)
    ensures |PreorderAll(vs, d)| >= |vs|
    ensures |PreorderAll(vs, d)| == |vs| <==> forall k :: 0 <= k < |vs| ==> IsOneNode(vs[k])
    decreases |vs|
  {
    if vs != [] {
      OneNodeExact(vs[0], d);
      AtLeastOneNodeEach(vs[1..], d);
      assert forall k | 0 < k < |vs| :: vs[k] == vs[1..][k - 1];
    }
  }

  /** From a fresh count, the nodes of one element all go to its index and end at the next one
      if and only if the element is flat. */
  lemma ElementRouted(v: Value, k: nat)
    requires Fits(v, 1)
    ensures var p, ns := Place(k, 0), Preorder(v, 1);
            && (Flat(v) ==> AllGoTo(Targets(p, ns), k) && After(p, ns) == Place(k + 1, 0))
            && (AllGoTo(Targets(p, ns), k) && After(p, ns).index == k + 1 ==> Flat(v))
  {
    match v {
      case Simple(t, text) =>
      case Blob(t, data) =>
      case Aggregate(t, elems) => AggregateRouted(t, elems, k);
      case Streamed(parts) => StreamedNotRouted(parts, k);
    }
  }

  lemma StreamedNotRouted(parts: seq<Bytes>, k: nat)
    requires |parts| + 2 <= SIZE_MAX
    ensures After(Place(k, 0), Preorder(Streamed(parts), 1)).index == k
  {
    var ns := Preorder(Streamed(parts), 1);
    PreorderDepth(Streamed(parts), 1);
    var q := CountNode(Place(k, 0), ns[0]);
    assert q == Place(k, SIZE_MAX);
    CountsDown(k, SIZE_MAX, ns[1..]);
  }

  /** As many nodes as were counted complete the element; one more goes to the next. */
  lemma {:induction false} CountsOut(k: nat, left: nat, ns: seq<Node>)
    requires Deeper(ns, 2) && 0 < left <= |ns|
    ensures |ns| == left ==> AllGoTo(Targets(Place(k, left), ns), k) && After(Place(k, left), ns) == Place(k + 1, 0)
    ensures |ns| > left ==> Targets(Place(k, left), ns)[left] == k + 1
    decreases |ns|
  {
    if left > 1 {
      CountsOut(k, left - 1, ns[1..]);
    }
  }

  lemma AggregateRouted(t: Type, elems: seq<Value>, k: nat)
    requires IsAggregate(t) && |elems| % ElementMultiplicity(t) == 0
    ensures var v, p := Aggregate(t, elems), Place(k, 0);
            var ns := Preorder(v, 1);
            && (Flat(v) ==> AllGoTo(Targets(p, ns), k) && After(p, ns) == Place(k + 1, 0))
            && (AllGoTo(Targets(p, ns), k) && After(p, ns).index == k + 1 ==> Flat(v))
  {
    var n, inner := |elems|, PreorderAll(elems, 2);
    var root := Node(t, Count(t, elems), 1, "");
    AtLeastOneNodeEach(elems, 2);
    PreorderAllDepth(elems, 2);
    RootRouted(root, k, n, inner);
    if n > 0 {
      CountsOut(k, n, inner);
      if |inner| > n {
        assert Targets(Place(k, 0), [root] + inner)[n + 1] == k + 1;
      }
    }
  }

  lemma RootRouted(root: Node, k: nat, n: nat, inner: seq<Node>)
    requires root.depth == 1 && IsAggregate(root.dataType) && ElementMultiplicity(root.dataType) * root.aggregateSize == n
    ensures Targets(Place(k, 0), [root] + inner) == [k] + Targets(Place(k, n), inner)
    ensures After(Place(k, 0), [root] + inner) == After(Place(k, n), inner)
  {
    assert ([root] + inner)[1..] == inner;
  }

  // ---- Every element of the reply

  /** Each node goes to the index of the element it belongs to, counting from `k`. */
  ghost function Owners(vs: seq<Value>, k: nat): seq<nat> {
    if vs == [] then [] else seq(|Preorder(vs[0], 1)|, _ => k) + Owners(vs[1..], k + 1)
  }

  ghost predicate RoutedRight(vs: seq<Value>, k: nat) {
    && Targets(Place(k, 0), PreorderAll(vs, 1)) == Owners(vs, k)
    && After(Place(k, 0), PreorderAll(vs, 1)).index == k + |vs|
  }

  lemma {:induction false} FlatRouted(vs: seq<Value>, k: nat)
    requires AllFit(vs, 1) && forall j :: 0 <= j < |vs| ==> Flat(vs[j])
    ensures RoutedRight(vs, k)
    decreases |vs|
  {
    if vs != [] {
      var ns := Preorder(vs[0], 1);
      ElementRouted(vs[0], k);
      Continues(Place(k, 0), ns, PreorderAll(vs[1..], 1));
      FlatRouted(vs[1..], k + 1);
      assert Targets(Place(k, 0), ns) == seq(|ns|, _ => k);
    }
  }

  lemma {:induction false} RoutedIsFlat(vs: seq<Value>, k: nat)
    requires AllFit(vs, 1) && RoutedRight(vs, k)
    ensures forall j :: 0 <= j < |vs| ==> Flat(vs[j])
    decreases |vs|
  {
    if vs != [] {
      var ns, rest := Preorder(vs[0], 1), PreorderAll(vs[1..], 1);
      var p := After(Place(k, 0), ns);
      Continues(Place(k, 0), ns, rest);
      var here := seq(|ns|, _ => k);
      SplitsAt(Targets(Place(k, 0), ns), Targets(p, rest), here, Owners(vs[1..], k + 1));
      if vs[1..] != [] {
        assert Targets(p, rest)[0] == p.index;
        assert Owners(vs[1..], k + 1)[0] == k + 1;
      }
      ElementRouted(vs[0], k);
      RoutedIsFlat(vs[1..], k + 1);
    }
  }

  lemma SplitsAt<T>(a: seq<T>, b: seq<T>, c: seq<T>, d: seq<T>)
    requires |a| == |c| && a + b == c + d
    ensures a == c && b == d
  {
    assert a == (a + b)[..|a|] && c == (c + d)[..|c|];
    assert b == (a + b)[|a|..] && d == (c + d)[|c|..];
  }

  lemma {:induction false} OwnersInRange(vs: seq<Value>, k: nat)
    ensures forall j :: 0 <= j < |Owners(vs, k)| ==> k <= Owners(vs, k)[j] < k + |vs|
    decreases |vs|
  {
    if vs != [] {
      OwnersInRange(vs[1..], k + 1);
    }
  }

  // ---- What the adapter answers

  /** The answers of a tuple adapter of this size, node by node. */
  function Answers(p: Place, size: nat, ns: seq<Node>): (rs: seq<Routing>)
    ensures |rs| == |ns|
    decreases |ns|
  {
    if ns == [] then []
    else
      var r := Route(p, size, ns[0]);
      [r] + Answers(if r.To? then CountNode(p, ns[0]) else p, size, ns[1..])
  }

  function Finally(p: Place, size: nat, ns: seq<Node>): Place
    decreases |ns|
  {
    if ns == [] then p
    else Finally(if Route(p, size, ns[0]).To? then CountNode(p, ns[0]) else p, size, ns[1..])
  }

  function ToAll(ts: seq<nat>): (rs: seq<Routing>)
    ensures |rs| == |ts|
  {
    if ts == [] then [] else [To(ts[0])] + ToAll(ts[1..])
  }

  ghost predicate InRange(ts: seq<nat>, size: nat) {
    forall j :: 0 <= j < |ts| ==> ts[j] < size
  }

  lemma InRangeCons(t: nat, ts: seq<nat>, size: nat)
    ensures InRange([t] + ts, size) <==> t < size && InRange(ts, size)
  {
    var all := [t] + ts;
    assert all[0] == t && forall j | 0 <= j < |ts| :: all[j + 1] == ts[j];
    if InRange(all, size) {
      forall j | 0 <= j < |ts|
        ensures ts[j] < size
      {
        assert all[j + 1] < size;
      }
    }
  }

  lemma ConsEqual<T>(a: T, x: seq<T>, b: T, y: seq<T>)
    ensures [a] + x == [b] + y <==> a == b && x == y
  {
    if [a] + x == [b] + y {
      assert ([a] + x)[0] == a && ([b] + y)[0] == b && ([a] + x)[1..] == x && ([b] + y)[1..] == y;
    }
  }

  /** Below the root every node goes to the element the count says, as long as there is one. */
  lemma {:induction false} AnswersFollowCount(p: Place, size: nat, ns: seq<Node>, ts: seq<nat>)
    requires Deeper(ns, 1)
    ensures Answers(p, size, ns) == ToAll(ts) <==> ts == Targets(p, ns) && InRange(ts, size)
    decreases |ns|
  {
    if ns != [] && ts != [] && p.index < size {
      var q := CountNode(p, ns[0]);
      AnswersFollowCount(q, size, ns[1..], ts[1..]);
      HeadTail(ts);
      InRangeCons(ts[0], ts[1..], size);
      ConsEqual(To(p.index), Answers(q, size, ns[1..]), To(ts[0]), ToAll(ts[1..]));
      ConsEqual(ts[0], ts[1..], p.index, Targets(q, ns[1..]));
    } else if ns != [] && ts != [] {
      assert Answers(p, size, ns)[0] == OutOfRange(p.index) && Targets(p, ns)[0] == p.index;
      assert ToAll(ts)[0] == To(ts[0]);
    }
  }

  lemma {:induction false} FinallyFollowsCount(p: Place, size: nat, ns: seq<Node>)
    requires Deeper(ns, 1) && InRange(Targets(p, ns), size)
    ensures Finally(p, size, ns) == After(p, ns)
    decreases |ns|
  {
    if ns != [] {
      var q := CountNode(p, ns[0]);
      InRangeCons(p.index, Targets(q, ns[1..]), size);
      FinallyFollowsCount(q, size, ns[1..]);
    }
  }

  lemma RootChecksSize(t: Type, elems: seq<Value>, size: nat)
    requires IsAggregate(t) && |elems| % ElementMultiplicity(t) == 0
    ensures Route(Place(0, 0), size, Preorder(Aggregate(t, elems), 0)[0]) == if size == |elems| then SizeAccepted else SizeRefused
  {
    assert Count(t, elems) * ElementMultiplicity(t) == |elems|;
  }

  /** The answers to the whole reply: its size is accepted, and every node of the k-th element
      goes to the k-th adapter; and then the index is at the tuple size. */
  ghost predicate Spread(t: Type, elems: seq<Value>) {
    var ns := Preorder(Aggregate(t, elems), 0);
    var rs := Answers(Place(0, 0), |elems|, ns);
    rs == [SizeAccepted] + ToAll(Owners(elems, 0)) && Finally(Place(0, 0), |elems|, ns).index == |elems|
  }

  lemma SpreadIsRouted(t: Type, elems: seq<Value>)
    requires IsAggregate(t) && |elems| % ElementMultiplicity(t) == 0
    ensures Spread(t, elems) <==> RoutedRight(elems, 0)
  {
    var inner, n, p := PreorderAll(elems, 1), |elems|, Place(0, 0);
    var root := Node(t, Count(t, elems), 0, "");
    assert Preorder(Aggregate(t, elems), 0) == [root] + inner && ([root] + inner)[1..] == inner;
    RootChecksSize(t, elems, n);
    PreorderAllDepth(elems, 1);
    OwnersInRange(elems, 0);
    AnswersFollowCount(p, n, inner, Owners(elems, 0));
    ConsEqual(SizeAccepted, Answers(p, n, inner), SizeAccepted, ToAll(Owners(elems, 0)));
    if InRange(Targets(p, inner), n) {
      FinallyFollowsCount(p, n, inner);
    }
  }

  /** A tuple of as many elements as the reply has, and no other, is accepted; and the adapter
      spreads the reply over it, every node of the k-th element to the k-th adapter, if and only
      if every element is flat. */
  lemma TupleRouting(t: Type, elems: seq<Value>, size: nat)
    requires Fits(Aggregate(t, elems), 0)
    ensures Answers(Place(0, 0), size, Preorder(Aggregate(t, elems), 0))[0] == if size == |elems| then SizeAccepted else SizeRefused
    ensures Spread(t, elems) <==> forall j :: 0 <= j < |elems| ==> Flat(elems[j])
  {
    RootChecksSize(t, elems, size);
    SpreadIsRouted(t, elems);
    if RoutedRight(elems, 0) {
      RoutedIsFlat(elems, 0);
    } else if forall j :: 0 <= j < |elems| ==> Flat(elems[j]) {
      FlatRouted(elems, 0);
    }
  }

  /** A reply of two elements, the first an array within an array: its last node is taken for
      the second element. */
  lemma NestedGoesAstray()
    ensures var a, b := Simple(SimpleString, "a"), Simple(SimpleString, "b");
            var elems := [Aggregate(Array, [Aggregate(Array, [a])]), b];
            Fits(Aggregate(Array, elems), 0) && !Spread(Array, elems)
  {
    var a, b := Simple(SimpleString, "a"), Simple(SimpleString, "b");
    var inner := Aggregate(Array, [a]);
    var elems := [Aggregate(Array, [inner]), b];
    assert Fits(a, 3) && Fits(b, 1);
    assert Fits(inner, 2);
    assert Fits(elems[0], 1);
    assert !IsOneNode(inner) && elems[0].elems[0] == inner;
    assert !Flat(elems[0]);
    TupleRouting(Array, elems, 2);
  }
}
