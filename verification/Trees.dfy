// RESP3 values as trees, their wire encoding, and their pre-order node list.

module Trees {
  import opened Resp3
  import opened Decimal

  /** An attribute is a map-like value. A map's `elems` alternate keys and values. */
  datatype Value =
    | Simple(t: Type, text: Bytes)
    | Blob(t: Type, data: Bytes)
    | Aggregate(t: Type, elems: seq<Value>)
    | Streamed(parts: seq<Bytes>)

  predicate SepFree(text: Bytes) {
    forall k :: 0 <= k < |text| ==> !SepAt(text, k)
  }

  predicate FieldOk(t: Type, text: Bytes) {
    && (t in {Number, Doublean, BigNumber} ==> text != "")
    && (t == Boolean ==> text != "" && text[0] in {'f', 't'})
  }

  predicate PartOk(p: Bytes) {
    0 < |p| && |p| + 2 <= SIZE_MAX
  }

  /** `v` may stand at nesting depth `d`: lengths fit a `size_t`, and non-empty aggregates
      and streamed strings stay within `limit` embedded levels. */
  ghost predicate FitsWithin(v: Value, d: nat, limit: nat)
    decreases v
  {
    match v
    case Simple(t, text) => IsSimple(t) && SepFree(text) && FieldOk(t, text)
    case Blob(t, data) => IsBlob(t) && |data| + 2 <= SIZE_MAX
    case Aggregate(t, elems) =>
      && IsAggregate(t) && |elems| % ElementMultiplicity(t) == 0 && |elems| <= SIZE_MAX
      && (elems != [] ==> d < limit)
      && forall i :: 0 <= i < |elems| ==> FitsWithin(elems[i], d + 1, limit)
    case Streamed(parts) =>
      && d < limit && |parts| + 2 <= SIZE_MAX
      && forall i :: 0 <= i < |parts| ==> PartOk(parts[i])
  }

  /** Within the five embedded levels the parser has room for. */
  ghost predicate Fits(v: Value, d: nat) {
    FitsWithin(v, d, MAX_EMBEDDED_DEPTH)
  }

  ghost predicate AllFit(vs: seq<Value>, d: nat) {
    forall i :: 0 <= i < |vs| ==> Fits(vs[i], d)
  }

  function Line(t: Type, text: Bytes): Bytes
    requires t != StreamedString && t != Invalid
  {
    [ToCode(t)] + text + SEP
  }

  function PrintBulk(t: Type, data: Bytes): Bytes
    requires t != StreamedString && t != Invalid
  {
    Line(t, ToString(|data|)) + (data + SEP)
  }

  function PrintParts(parts: seq<Bytes>): Bytes {
    if parts == [] then Line(StreamedStringPart, "0")
    else PrintBulk(StreamedStringPart, parts[0]) + PrintParts(parts[1..])
  }

  function Count(t: Type, elems: seq<Value>): nat {
    |elems| / ElementMultiplicity(t)
  }

  ghost function Print(v: Value): (b: Bytes)
    ensures |b| > 0
    decreases v, 1
  {
    match v
    case Simple(t, text) => if t in {StreamedString, Invalid} then SEP else Line(t, text)
    case Blob(t, data) => if t in {StreamedString, Invalid} then SEP else PrintBulk(t, data)
    case Aggregate(t, elems) =>
      if t in {StreamedString, Invalid} then SEP else Line(t, ToString(Count(t, elems))) + PrintAll(elems)
    case Streamed(parts) => Line(BlobString, "?") + PrintParts(parts)
  }

  ghost function PrintAll(vs: seq<Value>): (b: Bytes)
    decreases vs, 0
  {
    if vs == [] then [] else Print(vs[0]) + PrintAll(vs[1..])
  }

  function PartNode(p: Bytes, d: nat): Node {
    Node(StreamedStringPart, 1, d, p)
  }

  function PartNodes(parts: seq<Bytes>, d: nat): (ns: seq<Node>)
    ensures |ns| == |parts| + 1
  {
    if parts == [] then [PartNode("", d)] else [PartNode(parts[0], d)] + PartNodes(parts[1..], d)
  }

  /** A value as the flat list of nodes a parser makes of it, parents before children. The nodes
      of a streamed string carry the depth of its parts, one more than that of the value. */
  ghost function Preorder(v: Value, d: nat): (ns: seq<Node>)
    ensures ns != []
    decreases v, 1
  {
    match v
    case Simple(t, text) => [Node(t, 1, d, text)]
    case Blob(t, data) => [Node(t, 1, d, data)]
    case Aggregate(t, elems) => [Node(t, Count(t, elems), d, "")] + PreorderAll(elems, d + 1)
    case Streamed(parts) => [Node(StreamedString, 0, d + 1, "")] + PartNodes(parts, d + 1)
  }

  ghost function PreorderAll(vs: seq<Value>, d: nat): seq<Node>
    decreases vs, 0
  {
    if vs == [] then [] else Preorder(vs[0], d) + PreorderAll(vs[1..], d)
  }

  // ---- The pre-order list determines the tree

  lemma HeadsAgree(a: seq<Node>, b: seq<Node>, r: seq<Node>, s: seq<Node>)
    requires a != [] && b != [] && a + r == b + s
    ensures a[0] == b[0] && a[1..] + r == b[1..] + s
  {
    assert a[0] == (a + r)[0] && b[0] == (b + s)[0];
    assert a[1..] + r == (a + r)[1..] && b[1..] + s == (b + s)[1..];
  }

  lemma {:induction false} PartNodesInjective(p: seq<Bytes>, q: seq<Bytes>, d: nat, r: seq<Node>, s: seq<Node>)
    requires forall i :: 0 <= i < |p| ==> PartOk(p[i])
    requires forall i :: 0 <= i < |q| ==> PartOk(q[i])
    requires PartNodes(p, d) + r == PartNodes(q, d) + s
    ensures p == q && r == s
  {
    HeadsAgree(PartNodes(p, d), PartNodes(q, d), r, s);
    if p == [] || q == [] {
      assert p == q;
      assert [] + r == r && [] + s == s;
    } else {
      PartNodesInjective(p[1..], q[1..], d, r, s);
      assert p == [p[0]] + p[1..] && q == [q[0]] + q[1..];
    }
  }

  lemma {:induction false} PreorderInjective(v: Value, w: Value, d: nat, r: seq<Node>, s: seq<Node>)
    requires Fits(v, d) && Fits(w, d)
    requires Preorder(v, d) + r == Preorder(w, d) + s
    ensures v == w && r == s
    decreases v, 2
  {
    HeadsAgree(Preorder(v, d), Preorder(w, d), r, s);
    match v {
      case Simple(_, _) => assert [] + r == r && [] + s == s;
      case Blob(_, _) => assert [] + r == r && [] + s == s;
      case Aggregate(_, _) => AggregateInjective(v, w, d, r, s);
      case Streamed(_) => StreamedInjective(v, w, d, r, s);
    }
  }

  lemma CountInjective(t: Type, m: nat, n: nat)
    requires m % ElementMultiplicity(t) == 0 && n % ElementMultiplicity(t) == 0
    requires m / ElementMultiplicity(t) == n / ElementMultiplicity(t)
    ensures m == n
  {
  }

  lemma {:induction false} AggregateInjective(v: Value, w: Value, d: nat, r: seq<Node>, s: seq<Node>)
    requires v.Aggregate? && Fits(v, d) && Fits(w, d) && Preorder(v, d)[0] == Preorder(w, d)[0]
    requires Preorder(v, d)[1..] + r == Preorder(w, d)[1..] + s
    ensures v == w && r == s
    decreases v, 1
  {
    assert w.Aggregate? && w.t == v.t;
    CountInjective(v.t, |v.elems|, |w.elems|);
    assert Preorder(v, d)[1..] == PreorderAll(v.elems, d + 1);
    assert Preorder(w, d)[1..] == PreorderAll(w.elems, d + 1);
    PreorderAllInjective(v.elems, w.elems, d + 1, r, s);
  }

  lemma StreamedInjective(v: Value, w: Value, d: nat, r: seq<Node>, s: seq<Node>)
    requires v.Streamed? && Fits(v, d) && Fits(w, d) && Preorder(v, d)[0] == Preorder(w, d)[0]
    requires Preorder(v, d)[1..] + r == Preorder(w, d)[1..] + s
    ensures v == w && r == s
  {
    assert w.Streamed?;
    PartNodesInjective(v.parts, w.parts, d + 1, r, s);
  }

  lemma {:induction false} PreorderAllInjective(vs: seq<Value>, ws: seq<Value>, d: nat, r: seq<Node>, s: seq<Node>)
    requires AllFit(vs, d) && AllFit(ws, d) && |vs| == |ws|
    requires PreorderAll(vs, d) + r == PreorderAll(ws, d) + s
    ensures vs == ws && r == s
    decreases vs, 0
  {
    if vs == [] {
      assert [] + r == r && [] + s == s;
    } else {
      var r', s' := PreorderAll(vs[1..], d) + r, PreorderAll(ws[1..], d) + s;
      Regroup(Preorder(vs[0], d), PreorderAll(vs[1..], d), r);
      Regroup(Preorder(ws[0], d), PreorderAll(ws[1..], d), s);
      PreorderInjective(vs[0], ws[0], d, r', s');
      PreorderAllInjective(vs[1..], ws[1..], d, r, s);
      HeadTail(vs);
      HeadTail(ws);
    }
  }
}
