// The nesting limit of the parser is exactly the one it announces.

module Nesting {
  import opened Resp3
  import opened Parsing
  import opened Trees
  import opened RoundTrip

  predicate Shallow(n: Node) {
    n.depth <= MAX_EMBEDDED_DEPTH && (IsAggregate(n.dataType) && n.aggregateSize > 0 ==> n.depth < MAX_EMBEDDED_DEPTH)
  }

  ghost predicate AllShallow(ns: seq<Node>) {
    forall k :: 0 <= k < |ns| ==> Shallow(ns[k])
  }

  lemma HeaderShallow(s: seq<int>, t: Type, elem: Bytes)
    requires Levels(s)
    ensures var h := ConsumeHeader(s, t, elem);
            (h.Emits? ==> Shallow(h.node)) && (h.Announces? ==> !IsAggregate(h.bulk.t))
  {
  }

  ghost predicate BulkIsNoAggregate(st: State) {
    st.pending.Bulk? ==> !IsAggregate(st.pending.t)
  }

  lemma ActShallow(h: Header, stack: seq<int>, view: Bytes, next: nat)
    requires Levels(stack) && Sound(h) && 0 < next <= |view|
    requires (h.Emits? ==> Shallow(h.node)) && (h.Announces? ==> !IsAggregate(h.bulk.t))
    ensures var o := Act(h, stack, view, next); o.Emit? ==> Shallow(o.node)
  {
  }

  lemma LineShallow(st: State, view: Bytes, pos: nat)
    requires st.Live() && st.pending.NoBulk? && st.consumed <= pos && SepAt(view, pos)
    ensures var o := ConsumeLine(st, view, pos); o.Emit? ==> Shallow(o.node)
  {
    if st.consumed < pos {
      var t, elem := ToType(view[st.consumed]), view[st.consumed + 1..pos];
      HeaderShallow(st.stack, t, elem);
      assert ConsumeLine(st, view, pos) == Act(ConsumeHeader(st.stack, t, elem), st.stack, view, pos + 2);
      ActShallow(ConsumeHeader(st.stack, t, elem), st.stack, view, pos + 2);
    }
  }

  lemma ConsumeShallow(st: State, view: Bytes)
    requires st.Live() && st.consumed <= |view| && BulkIsNoAggregate(st)
    ensures var o := Consume(st, view); o.Emit? ==> Shallow(o.node)
  {
    if st.pending.NoBulk? && FindSep(view, st.consumed) < |view| {
      var pos := FindSep(view, st.consumed);
      ConsumeFound(st, view, pos);
      LineShallow(st, view, pos);
    }
  }

  /** No parse ever hands over a node beyond the limit. */
  lemma {:induction false} ParseShallow(st: State, view: Bytes, acc: seq<Node>)
    requires st.Good() && st.consumed <= |view| && BulkIsNoAggregate(st) && AllShallow(acc)
    ensures AllShallow(Parse(st, view, acc, AcceptAll).nodes)
    decreases |view| - st.consumed
  {
    if !st.Done() {
      ConsumeShallow(st, view);
      var o := Consume(st, view);
      if o.Emit? {
        ParseShallow(o.st, view, acc + [o.node]);
      }
    }
  }

  lemma {:induction false} ShallowFits(v: Value, d: nat, limit: nat)
    requires FitsWithin(v, d, limit) && AllShallow(Preorder(v, d))
    ensures Fits(v, d)
    decreases v, 1
  {
    var ns := Preorder(v, d);
    assert Shallow(ns[0]);
    if v.Aggregate? {
      assert forall k | 0 < k < |ns| :: ns[k] == ns[1..][k - 1];
      ShallowAllFit(v.elems, d + 1, limit);
    }
  }

  lemma {:induction false} ShallowAllFit(vs: seq<Value>, d: nat, limit: nat)
    requires (forall i :: 0 <= i < |vs| ==> FitsWithin(vs[i], d, limit)) && AllShallow(PreorderAll(vs, d))
    ensures AllFit(vs, d)
    decreases vs, 0
  {
    if vs != [] {
      var a, b := Preorder(vs[0], d), PreorderAll(vs[1..], d);
      assert forall k | 0 <= k < |a| :: a[k] == (a + b)[k];
      assert forall k | 0 <= k < |b| :: b[k] == (a + b)[|a| + k];
      ShallowFits(vs[0], d, limit);
      ShallowAllFit(vs[1..], d, limit);
    }
  }

  /** A value, well formed but for its nesting, is read back if and only if it respects the
      parser's limit. */
  lemma NestingLimitIsExact(v: Value, limit: nat, rest: Bytes)
    requires FitsWithin(v, 0, limit)
    ensures var r := Result(Finished, State([1], NoBulk, |Print(v)|), Preorder(v, 0));
            Parse(Initial, Print(v) + rest, [], AcceptAll) == r <==> FitsWithin(v, 0, 5)
  {
    ParseShallow(Initial, Print(v) + rest, []);
    if Fits(v, 0) {
      ParserUndoesPrinter(v, rest);
    } else if AllShallow(Preorder(v, 0)) {
      ShallowFits(v, 0, limit);
    }
  }
}
