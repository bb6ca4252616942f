// The parser undoes the printer.

module RoundTrip {
  import opened Resp3
  import opened Decimal
  import opened Parsing
  import opened Trees

  // ---- One step, seen from the bytes that remain

  ghost function AtLine(stack: seq<int>): State {
    State(stack, NoBulk, 0)
  }

  ghost predicate IsSuffix(input: Bytes, view: Bytes) {
    |input| <= |view| && view[|view| - |input|..] == input
  }

  /** With these levels open and `input` still to be read, the parser hands over `n`; then
      the levels are `stack'` and `rest` remains. */
  ghost predicate Step(stack: seq<int>, input: Bytes, n: Node, stack': seq<int>, rest: Bytes) {
    && Levels(stack) && IsSuffix(rest, input)
    && Consume(AtLine(stack), input) == Emit(n, State(stack', NoBulk, |input| - |rest|))
  }

  lemma {:induction false} LineFound(t: Type, text: Bytes, rest: Bytes)
    requires t != StreamedString && t != Invalid && SepFree(text)
    ensures FindSep(Line(t, text) + rest, 0) == 1 + |text|
  {
    var input := Line(t, text) + rest;
    assert SepAt(input, 1 + |text|);
    forall i | 0 <= i < 1 + |text|
      ensures !SepAt(input, i)
    {
      if 0 < i < |text| {
        assert input[i] == text[i - 1] && input[i + 1] == text[i];
        assert !SepAt(text, i - 1);
      } else if i == |text| {
        assert input[i + 1] == '\r';
      } else {
        assert input[0] == ToCode(t);
      }
    }
  }

  /** A header line is handed to the header interpreter. */
  lemma LineConsumed(t: Type, text: Bytes, rest: Bytes, stack: seq<int>)
    requires t != StreamedString && t != Invalid && SepFree(text) && Levels(stack)
    ensures var h, st, input := ConsumeHeader(stack, t, text), AtLine(stack), Line(t, text) + rest;
            && (h.Emits? ==> Consume(st, input) == Emit(h.node, State(h.stack, NoBulk, |Line(t, text)|)))
            && (h.Announces? ==> Consume(st, input) == ConsumeBulk(State(stack, h.bulk, |Line(t, text)|), input))
  {
    var input := Line(t, text) + rest;
    LineFound(t, text, rest);
    assert input[0] == ToCode(t) && ToType(input[0]) == t;
    assert input[1..1 + |text|] == text;
    assert Consume(AtLine(stack), input) == Act(ConsumeHeader(stack, t, text), stack, input, |Line(t, text)|);
  }

  // ---- Paths made of steps

  /** A relation between open levels and input, nodes handed over from there on, and the
      levels and input that then remain. */
  type Path = (seq<int>, Bytes, seq<Node>, seq<int>, Bytes) -> bool

  ghost predicate Joined(p: Path, a: seq<int>, i: Bytes, m: seq<Node>, b: seq<int>, j: Bytes, n: seq<Node>, c: seq<int>, k: Bytes) {
    Levels(b) && |b| >= 2 && p(a, i, m, b, j) && p(b, j, n, c, k)
  }

  ghost predicate ContainsSteps(p: Path) {
    forall a, i, n, b, j {:trigger Step(a, i, n, b, j)} :: Step(a, i, n, b, j) ==> p(a, i, [n], b, j)
  }

  ghost predicate Composes(p: Path) {
    forall a, i, m, b, j, n, c, k {:trigger Joined(p, a, i, m, b, j, n, c, k)} ::
      Joined(p, a, i, m, b, j, n, c, k) ==> p(a, i, m + n, c, k)
  }

  /** A relation that contains the parser's steps and is closed under composition. */
  type Tracker = p: Path | ContainsSteps(p) && Composes(p) ghost witness (a, i, ns, b, j) => true

  lemma Join(p: Tracker, a: seq<int>, i: Bytes, m: seq<Node>, b: seq<int>, j: Bytes, n: seq<Node>, c: seq<int>, k: Bytes)
    requires Levels(b) && |b| >= 2 && p(a, i, m, b, j) && p(b, j, n, c, k)
    ensures p(a, i, m + n, c, k)
  {
    assert Joined(p, a, i, m, b, j, n, c, k);
  }

  lemma OpenLevel(below: seq<int>, n: int)
    requires Levels(below) && |below| <= MAX_EMBEDDED_DEPTH && 1 <= n <= SIZE_MAX
    ensures Levels(below + [n]) && |below + [n]| >= 2
  {
  }

  lemma ReadsLine(p: Tracker, t: Type, text: Bytes, rest: Bytes, stack: seq<int>, node: Node, stack': seq<int>)
    requires t != StreamedString && t != Invalid && SepFree(text) && Levels(stack)
    requires ConsumeHeader(stack, t, text) == Emits(node, stack')
    ensures p(stack, Line(t, text) + rest, [node], stack', rest)
  {
    LineConsumed(t, text, rest, stack);
    assert Step(stack, Line(t, text) + rest, node, stack', rest);
  }

  lemma LengthHeader(t: Type, stack: seq<int>, len: nat)
    requires IsBlob(t) || (t == StreamedStringPart && len > 0)
    requires Levels(stack) && len + 2 <= SIZE_MAX
    ensures SepFree(ToString(len))
    ensures ConsumeHeader(stack, t, ToString(len)) == Announces(Bulk(t, len))
  {
    var n := ToString(len);
    ToIntOfToString(len);
    ToStringHasNoSep(len);
    assert n[0] in n;
  }

  lemma BulkStep(t: Type, data: Bytes, rest: Bytes, line: Bytes, stack: seq<int>)
    requires t != Invalid && Levels(stack) && 0 < |line| && |data| + 2 <= SIZE_MAX
    ensures var st, input := State(stack, Bulk(t, |data|), |line|), line + (data + SEP + rest);
            ConsumeBulk(st, input) == Emit(Node(t, 1, |stack| - 1, data), State(Commit(stack), NoBulk, |input| - |rest|))
  {
    var input := line + (data + SEP + rest);
    assert input[|line|..|line| + |data|] == data;
  }

  lemma ReadsBulk(p: Tracker, t: Type, data: Bytes, rest: Bytes, stack: seq<int>)
    requires IsBlob(t) || (t == StreamedStringPart && data != "")
    requires Levels(stack) && |data| + 2 <= SIZE_MAX
    ensures p(stack, PrintBulk(t, data) + rest, [Node(t, 1, |stack| - 1, data)], Commit(stack), rest)
  {
    var line := Line(t, ToString(|data|));
    Regroup(line, data + SEP, rest);
    LengthHeader(t, stack, |data|);
    LineConsumed(t, ToString(|data|), data + SEP + rest, stack);
    BulkStep(t, data, rest, line, stack);
    assert Step(stack, PrintBulk(t, data) + rest, Node(t, 1, |stack| - 1, data), Commit(stack), rest);
  }

  // ---- One value

  /** Reading a printed value hands over its pre-order list and then stands where a single
      element would have left the parser, in front of what followed the value. */
  lemma {:induction false} ReadsValue(p: Tracker, v: Value, rest: Bytes, stack: seq<int>)
    requires Levels(stack) && Fits(v, |stack| - 1)
    ensures p(stack, Print(v) + rest, Preorder(v, |stack| - 1), Commit(stack), rest)
    decreases v, 1
  {
    match v {
      case Simple(t, text) =>
        ReadsLine(p, t, text, rest, stack, Node(t, 1, |stack| - 1, text), Commit(stack));
      case Blob(t, data) => ReadsBulk(p, t, data, rest, stack);
      case Aggregate(_, _) => ReadsAggregate(p, v, rest, stack);
      case Streamed(_) => ReadsStreamed(p, v, rest, stack);
    }
  }

  lemma ReadsCount(p: Tracker, t: Type, elems: seq<Value>, rest: Bytes, stack: seq<int>)
    requires Levels(stack) && Fits(Aggregate(t, elems), |stack| - 1)
    ensures p(stack, Line(t, ToString(Count(t, elems))) + rest, [Node(t, Count(t, elems), |stack| - 1, "")],
              if elems == [] then Commit(stack) else stack + [|elems|], rest)
  {
    var n := Count(t, elems);
    assert n * ElementMultiplicity(t) == |elems|;
    ToIntOfToString(n);
    ToStringHasNoSep(n);
    ReadsLine(p, t, ToString(n), rest, stack, Node(t, n, |stack| - 1, ""),
              if elems == [] then Commit(stack) else stack + [|elems|]);
  }

  lemma {:induction false} ReadsAggregate(p: Tracker, v: Value, rest: Bytes, stack: seq<int>)
    requires v.Aggregate? && Levels(stack) && Fits(v, |stack| - 1)
    ensures p(stack, Print(v) + rest, Preorder(v, |stack| - 1), Commit(stack), rest)
    decreases v, 0
  {
    var line := Line(v.t, ToString(Count(v.t, v.elems)));
    var node := Node(v.t, Count(v.t, v.elems), |stack| - 1, "");
    var body, nodes := PrintAll(v.elems), PreorderAll(v.elems, |stack|);
    ReadsCount(p, v.t, v.elems, body + rest, stack);
    Regroup(line, body, rest);
    if v.elems == [] {
      assert body + rest == rest && [node] + nodes == [node];
    } else {
      ReadsAll(p, v.elems, rest, stack);
      OpenLevel(stack, |v.elems|);
      Join(p, stack, line + (body + rest), [node], stack + [|v.elems|], body + rest, nodes, Commit(stack), rest);
    }
  }

  /** One element, charged to a level opened on top of `below` that owes `n` of them. */
  lemma {:induction false} ReadsElement(p: Tracker, v: Value, more: Bytes, below: seq<int>, n: int)
    requires Levels(below) && |below| <= MAX_EMBEDDED_DEPTH && 1 <= n <= SIZE_MAX && Fits(v, |below|)
    ensures p(below + [n], Print(v) + more, Preorder(v, |below|), if n == 1 then Commit(below) else below + [n - 1], more)
    decreases v, 2
  {
    OpenLevel(below, n);
    ReadsValue(p, v, more, below + [n]);
    CommitTop(below, n);
  }

  /** The elements of an aggregate, read into such a level. */
  lemma {:induction false} ReadsAll(p: Tracker, vs: seq<Value>, rest: Bytes, below: seq<int>)
    requires vs != [] && |vs| <= SIZE_MAX && Levels(below) && |below| <= MAX_EMBEDDED_DEPTH && AllFit(vs, |below|)
    ensures p(below + [|vs|], PrintAll(vs) + rest, PreorderAll(vs, |below|), Commit(below), rest)
    decreases vs, 0
  {
    var v, d, more := vs[0], |below|, PrintAll(vs[1..]) + rest;
    ReadsElement(p, v, more, below, |vs|);
    if |vs| == 1 {
      LastOfAll(v, rest, d);
      assert vs == [v];
    } else {
      ReadsAll(p, vs[1..], rest, below);
      OpenLevel(below, |vs| - 1);
      Join(p, below + [|vs|], Print(v) + more, Preorder(v, d),
           below + [|vs| - 1], more, PreorderAll(vs[1..], d), Commit(below), rest);
      Regroup(Print(v), PrintAll(vs[1..]), rest);
    }
  }

  lemma LastOfAll(v: Value, rest: Bytes, d: nat)
    ensures PrintAll([v]) == Print(v) && PreorderAll([v], d) == Preorder(v, d) && PrintAll([v][1..]) + rest == rest
  {
    assert [v][1..] == [];
    assert Print(v) + "" == Print(v) && Preorder(v, d) + [] == Preorder(v, d) && "" + rest == rest;
  }

  lemma ReadsOpening(p: Tracker, rest: Bytes, stack: seq<int>)
    requires Levels(stack) && |stack| <= MAX_EMBEDDED_DEPTH
    ensures p(stack, Line(BlobString, "?") + rest, [Node(StreamedString, 0, |stack|, "")], stack + [SIZE_MAX], rest)
  {
    ReadsLine(p, BlobString, "?", rest, stack, Node(StreamedString, 0, |stack|, ""), stack + [SIZE_MAX]);
  }

  lemma ReadsStreamed(p: Tracker, v: Value, rest: Bytes, stack: seq<int>)
    requires v.Streamed? && Levels(stack) && Fits(v, |stack| - 1)
    ensures p(stack, Print(v) + rest, Preorder(v, |stack| - 1), Commit(stack), rest)
  {
    var line, body, nodes := Line(BlobString, "?"), PrintParts(v.parts), PartNodes(v.parts, |stack|);
    ReadsOpening(p, body + rest, stack);
    ReadsParts(p, v.parts, rest, stack, SIZE_MAX);
    Regroup(line, body, rest);
    OpenLevel(stack, SIZE_MAX);
    Join(p, stack, line + (body + rest), [Node(StreamedString, 0, |stack|, "")],
         stack + [SIZE_MAX], body + rest, nodes, Commit(stack), rest);
  }

  lemma ReadsPart(p: Tracker, data: Bytes, more: Bytes, below: seq<int>, top: int)
    requires PartOk(data) && Levels(below) && |below| <= MAX_EMBEDDED_DEPTH && 1 < top <= SIZE_MAX
    ensures p(below + [top], PrintBulk(StreamedStringPart, data) + more, [PartNode(data, |below|)], below + [top - 1], more)
  {
    OpenLevel(below, top);
    ReadsBulk(p, StreamedStringPart, data, more, below + [top]);
    CommitTop(below, top);
  }

  /** The parts of a streamed string, read into a level whose count does not run out. */
  lemma {:induction false} ReadsParts(p: Tracker, parts: seq<Bytes>, rest: Bytes, below: seq<int>, top: int)
    requires forall i :: 0 <= i < |parts| ==> PartOk(parts[i])
    requires Levels(below) && |below| <= MAX_EMBEDDED_DEPTH && |parts| < top <= SIZE_MAX
    ensures p(below + [top], PrintParts(parts) + rest, PartNodes(parts, |below|), Commit(below), rest)
    decreases parts
  {
    if parts == [] {
      ReadsClosing(p, rest, below, top);
    } else {
      var data, d, more := parts[0], |below|, PrintParts(parts[1..]) + rest;
      var bulk := PrintBulk(StreamedStringPart, data);
      Regroup(bulk, PrintParts(parts[1..]), rest);
      ReadsPart(p, data, more, below, top);
      ReadsParts(p, parts[1..], rest, below, top - 1);
      OpenLevel(below, top);
      OpenLevel(below, top - 1);
      Join(p, below + [top], bulk + more, [PartNode(data, d)],
           below + [top - 1], more, PartNodes(parts[1..], d), Commit(below), rest);
    }
  }

  lemma ZeroReads()
    ensures ToInt("0") == Some(0)
  {
    assert ToString(0) == "0";
    ToIntOfToString(0);
  }

  lemma LastSlotSet(below: seq<int>, top: int)
    ensures (below + [top])[|below| := 1] == below + [1]
  {
  }

  lemma ClosingHeader(below: seq<int>, top: int)
    requires Levels(below) && |below| <= MAX_EMBEDDED_DEPTH && 1 <= top <= SIZE_MAX
    ensures ConsumeHeader(below + [top], StreamedStringPart, "0") == Emits(PartNode("", |below|), Commit(below))
  {
    ZeroReads();
    LastSlotSet(below, top);
    CommitTop(below, 1);
  }

  lemma ReadsClosing(p: Tracker, rest: Bytes, below: seq<int>, top: int)
    requires Levels(below) && |below| <= MAX_EMBEDDED_DEPTH && 1 <= top <= SIZE_MAX
    ensures p(below + [top], PrintParts([]) + rest, PartNodes([], |below|), Commit(below), rest)
  {
    ClosingHeader(below, top);
    ReadsLine(p, StreamedStringPart, "0", rest, below + [top], PartNode("", |below|), Commit(below));
  }

  // ---- The same steps on a view that has been read up to some offset

  lemma FindSepShifts(pre: Bytes, input: Bytes)
    ensures FindSep(pre + input, |pre|) == |pre| + FindSep(input, 0)
  {
    assert forall i | |pre| <= i :: SepAt(pre + input, i) == SepAt(input, i - |pre|);
    assert forall i | 0 <= i :: SepAt(input, i) == SepAt(pre + input, |pre| + i);
  }

  ghost function Shift(o: Outcome, k: nat): Outcome
    requires o.Emit?
  {
    Emit(o.node, o.st.(consumed := k + o.st.consumed))
  }

  lemma BulkShifts(pre: Bytes, input: Bytes, st: State)
    requires st.Live() && st.pending.Bulk? && st.consumed <= |input|
    ensures var o := ConsumeBulk(st, input);
            o.Emit? ==> ConsumeBulk(st.(consumed := |pre| + st.consumed), pre + input) == Shift(o, |pre|)
  {
    var c, len := st.consumed, st.pending.length;
    if c + len + 2 <= |input| {
      SliceShifts(pre, input, c, c + len);
    }
  }

  lemma ActShifts(pre: Bytes, input: Bytes, stack: seq<int>, h: Header, next: nat)
    requires Levels(stack) && Sound(h) && 0 < next <= |input|
    ensures var o := Act(h, stack, input, next);
            o.Emit? ==> Act(h, stack, pre + input, |pre| + next) == Shift(o, |pre|)
  {
    if h.Announces? {
      BulkShifts(pre, input, State(stack, h.bulk, next));
    }
  }

  /** The header of a line is found again when something stands in front of it. */
  lemma HeaderShifts(pre: Bytes, input: Bytes, stack: seq<int>, pos: nat, h: Header)
    requires AtLine(stack).Live() && State(stack, NoBulk, |pre|).Live() && 0 < pos && SepAt(input, pos)
    requires h == ConsumeHeader(stack, ToType(input[0]), input[1..pos])
    ensures ConsumeLine(AtLine(stack), input, pos) == Act(h, stack, input, pos + 2)
    ensures ConsumeLine(State(stack, NoBulk, |pre|), pre + input, |pre| + pos) == Act(h, stack, pre + input, |pre| + (pos + 2))
  {
    var t, elem := ToType(input[0]), input[1..pos];
    LineIsHeader(AtLine(stack), input, pos, t, elem);
    SliceShifts(pre, input, 1, pos);
    assert (pre + input)[|pre|] == input[0];
    LineIsHeader(State(stack, NoBulk, |pre|), pre + input, |pre| + pos, t, elem);
  }

  lemma LineShifts(pre: Bytes, input: Bytes, stack: seq<int>, pos: nat)
    requires AtLine(stack).Live() && State(stack, NoBulk, |pre|).Live() && SepAt(input, pos)
    ensures var o := ConsumeLine(AtLine(stack), input, pos);
            o.Emit? ==> ConsumeLine(State(stack, NoBulk, |pre|), pre + input, |pre| + pos) == Shift(o, |pre|)
  {
    if pos > 0 {
      var h := ConsumeHeader(stack, ToType(input[0]), input[1..pos]);
      HeaderShifts(pre, input, stack, pos, h);
      ActShifts(pre, input, stack, h, pos + 2);
    }
  }

  lemma ConsumeFound(st: State, view: Bytes, pos: nat)
    requires st.Live() && st.pending.NoBulk? && st.consumed <= |view|
    requires pos == FindSep(view, st.consumed) < |view|
    ensures Consume(st, view) == ConsumeLine(st, view, pos)
  {
  }

  lemma ConsumeShifts(pre: Bytes, input: Bytes, stack: seq<int>)
    requires AtLine(stack).Live() && State(stack, NoBulk, |pre|).Live()
    ensures var o := Consume(AtLine(stack), input);
            o.Emit? ==> Consume(State(stack, NoBulk, |pre|), pre + input) == Shift(o, |pre|)
  {
    FindSepShifts(pre, input);
    var pos := FindSep(input, 0);
    if pos < |input| {
      ConsumeFound(AtLine(stack), input, pos);
      ConsumeFound(State(stack, NoBulk, |pre|), pre + input, |pre| + pos);
      LineShifts(pre, input, stack, pos);
    }
  }

  /** Nothing an adapter sees distinguishes starting in `st` from having been given `ns`
      and starting in `st'`. */
  ghost predicate Parses(view: Bytes, st: State, ns: seq<Node>, st': State) {
    && st.Good() && st'.Good() && st.consumed <= st'.consumed <= |view|
    && forall acc :: Parse(st, view, acc, AcceptAll) == Parse(st', view, acc + ns, AcceptAll)
  }

  ghost function Before(stack: seq<int>, input: Bytes, view: Bytes): State
    requires |input| <= |view|
  {
    State(stack, NoBulk, |view| - |input|)
  }

  ghost predicate ParsesSuffix(view: Bytes, a: seq<int>, i: Bytes, ns: seq<Node>, b: seq<int>, j: Bytes) {
    IsSuffix(i, view) && Before(a, i, view).Live() ==>
      IsSuffix(j, view) && Parses(view, Before(a, i, view), ns, Before(b, j, view))
  }

  lemma SuffixTrans(j: Bytes, i: Bytes, view: Bytes)
    requires IsSuffix(j, i) && IsSuffix(i, view)
    ensures IsSuffix(j, view) && view == view[..|view| - |i|] + i
  {
  }

  lemma OneStepParses(view: Bytes, st: State, n: Node, st': State)
    requires st.Live() && st.consumed <= |view| && Consume(st, view) == Emit(n, st')
    ensures Parses(view, st, [n], st')
  {
  }

  lemma StepParses(view: Bytes, a: seq<int>, i: Bytes, n: Node, b: seq<int>, j: Bytes)
    requires Step(a, i, n, b, j)
    ensures ParsesSuffix(view, a, i, [n], b, j)
  {
    if IsSuffix(i, view) && Before(a, i, view).Live() {
      SuffixTrans(j, i, view);
      ConsumeShifts(view[..|view| - |i|], i, a);
      OneStepParses(view, Before(a, i, view), n, Before(b, j, view));
    }
  }

  lemma ParsesThen(view: Bytes, a: State, m: seq<Node>, b: State, n: seq<Node>, c: State)
    requires Parses(view, a, m, b) && Parses(view, b, n, c)
    ensures Parses(view, a, m + n, c)
  {
    forall acc
      ensures Parse(a, view, acc, AcceptAll) == Parse(c, view, acc + (m + n), AcceptAll)
    {
      assert acc + m + n == acc + (m + n);
    }
  }

  lemma PathOf(view: Bytes) returns (p: Tracker)
    ensures forall a, i, ns, b, j :: p(a, i, ns, b, j) <==> ParsesSuffix(view, a, i, ns, b, j)
  {
    var q: Path := (a, i, ns, b, j) => ParsesSuffix(view, a, i, ns, b, j);
    forall a, i, n, b, j | Step(a, i, n, b, j)
      ensures q(a, i, [n], b, j)
    {
      StepParses(view, a, i, n, b, j);
    }
    forall a, i, m, b, j, n, c, k | Joined(q, a, i, m, b, j, n, c, k)
      ensures q(a, i, m + n, c, k)
    {
      if IsSuffix(i, view) && Before(a, i, view).Live() {
        ParsesThen(view, Before(a, i, view), m, Before(b, j, view), n, Before(c, k, view));
      }
    }
    p := q;
  }

  // ---- Main results

  /** A fresh parser given a printed value, with anything after it, emits exactly the
      value's pre-order list, is done, and has consumed exactly the value's bytes. */
  lemma ParserUndoesPrinter(v: Value, rest: Bytes)
    requires Fits(v, 0)
    ensures Parse(Initial, Print(v) + rest, [], AcceptAll) ==
            Result(Finished, State([1], NoBulk, |Print(v)|), Preorder(v, 0))
  {
    var view := Print(v) + rest;
    var p := PathOf(view);
    ReadsValue(p, v, rest, [2]);
    assert ParsesSuffix(view, [2], view, Preorder(v, 0), Commit([2]), rest);
    assert Commit([2]) == [1];
    assert [] + Preorder(v, 0) == Preorder(v, 0);
  }

  /** The encoding is prefix-free and injective: a byte string has at most one reading as a
      printed value followed by a remainder. */
  lemma PrefixFree(v: Value, w: Value, r: Bytes, s: Bytes)
    requires Fits(v, 0) && Fits(w, 0)
    requires Print(v) + r == Print(w) + s
    ensures v == w && r == s
  {
    ParserUndoesPrinter(v, r);
    ParserUndoesPrinter(w, s);
    assert Preorder(v, 0) + [] == Preorder(v, 0) && Preorder(w, 0) + [] == Preorder(w, 0);
    PreorderInjective(v, w, 0, [], []);
    assert (Print(v) + r)[|Print(v)|..] == r;
    assert (Print(w) + s)[|Print(w)|..] == s;
  }
}
