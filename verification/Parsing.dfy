// The incremental parser as a transition function on values, and what every view of the
// input keeps. The mutable parser in Parser.dfy is proved to compute exactly this.

module Parsing {
  import opened Resp3
  import opened Decimal

  datatype Error = InvalidDataType | NotANumber | ExceedsMaxNestedDepth | UnexpectedBoolValue | EmptyField

  /** Headers on which the program has no defined behaviour that a parser could promise. */
  datatype Fault =
    | EmptyBlobHeader      // at(0) on an empty view inside a noexcept function
    | PartOutsideString    // a closing part at depth 0 takes the depth below zero
    | StringTooDeep        // a streamed string at depth 5 writes past the counter array
    | LengthOverflow       // bulk_length_ + 2, or the element count, wraps around

  datatype Pending = NoBulk | Bulk(t: Type, length: nat)

  /** Every open level still owes an element, and the sentinel in slot 0 is intact. */
  ghost predicate Levels(s: seq<int>) {
    && 1 <= |s| <= MAX_EMBEDDED_DEPTH + 1
    && s[0] == 2
    && forall i :: 0 <= i < |s| ==> 1 <= s[i] <= SIZE_MAX
  }

  /** `stack` holds the element counts still owed at depths 0, 1, ..., the sentinel first. */
  datatype State = State(stack: seq<int>, pending: Pending, consumed: nat) {
    function Depth(): int { |stack| - 1 }

    predicate Done() { |stack| == 1 && pending.NoBulk? && consumed != 0 }

    /** A message is being read. */
    ghost predicate Live() {
      && Levels(stack)
      && (pending.Bulk? ==> consumed > 0 && pending.t != Invalid && pending.length + 2 <= SIZE_MAX)
      && (|stack| == 1 && pending.NoBulk? ==> consumed == 0)
    }

    /** The message is complete: it took one unit off the sentinel. */
    ghost predicate Complete() {
      stack == [1] && pending.NoBulk? && consumed > 0
    }

    ghost predicate Good() { Live() || Complete() }
  }

  const Initial: State := State([2], NoBulk, 0)

  /** The innermost level has just been charged one element. */
  ghost predicate Partial(s: seq<int>) {
    || s == [1]
    || (2 <= |s| <= MAX_EMBEDDED_DEPTH + 1 && Levels(s[..|s| - 1]) && 0 <= s[|s| - 1] <= SIZE_MAX)
  }

  /** Drops exhausted levels, charging each one to the level below it. */
  function Settle(s: seq<int>): (r: seq<int>)
    requires Partial(s)
    ensures r == [1] || (Levels(r) && 2 <= |r| <= |s|)
    decreases |s|
  {
    var last := |s| - 1;
    if s[last] == 0 then
      assert |s| > 2 ==> s[..last][last - 1 := s[last - 1] - 1][..last - 1] == s[..last - 1];
      Settle(s[..last][last - 1 := s[last - 1] - 1])
    else s
  }

  /** One round of it: the exhausted level goes, and the one below is charged. */
  lemma SettleOnce(s: seq<int>, r: seq<int>)
    requires Partial(s) && |s| >= 2 && s[|s| - 1] == 0
    requires |r| == |s| - 1 && r[|s| - 2] == s[|s| - 2] - 1 && forall i :: 0 <= i < |s| - 2 ==> r[i] == s[i]
    ensures Partial(r) && Settle(r) == Settle(s)
  {
    assert r == s[..|s| - 1][|s| - 2 := s[|s| - 2] - 1];
    assert |s| > 2 ==> r[..|s| - 2] == s[..|s| - 2];
  }

  /** One element of the innermost open level has been read. */
  function Commit(s: seq<int>): (r: seq<int>)
    requires Levels(s)
    ensures r == [1] || (Levels(r) && 2 <= |r| <= |s|)
  {
    var d := s[|s| - 1 := s[|s| - 1] - 1];
    assert d[..|s| - 1] == s[..|s| - 1];
    Settle(d)
  }

  lemma CommitTop(s: seq<int>, n: nat)
    requires Levels(s) && |s| <= MAX_EMBEDDED_DEPTH && 1 <= n <= SIZE_MAX
    ensures Commit(s + [n]) == if n == 1 then Commit(s) else s + [n - 1]
  {
    var d := (s + [n])[|s| := n - 1];
    assert d == s + [n - 1];
    assert d[..|s|] == s;
  }

  /** What a header line asks for. */
  datatype Header =
    | Emits(node: Node, stack: seq<int>)
    | Announces(bulk: Pending)
    | Refuses(error: Error)
    | Breaks(fault: Fault)

  ghost predicate Sound(h: Header) {
    && (h.Emits? ==> h.stack == [1] || (Levels(h.stack) && |h.stack| >= 2))
    && (h.Announces? ==> h.bulk.Bulk? && h.bulk.t != Invalid && h.bulk.length + 2 <= SIZE_MAX)
  }

  function BulkHeader(t: Type, elem: Bytes): Header {
    match ToInt(elem)
    case None => Refuses(NotANumber)
    case Some(n) => if n + 2 > SIZE_MAX then Breaks(LengthOverflow) else Announces(Bulk(t, n))
  }

  function Leaf(s: seq<int>, t: Type, elem: Bytes): Header
    requires Levels(s)
  {
    Emits(Node(t, 1, |s| - 1, elem), Commit(s))
  }

  function CountHeader(s: seq<int>, t: Type, elem: Bytes): (h: Header)
    requires Levels(s)
    ensures Sound(h)
  {
    match ToInt(elem)
    case None => Refuses(NotANumber)
    case Some(l) =>
      if l == 0 then Emits(Node(t, l, |s| - 1, ""), Commit(s))
      else if |s| - 1 == MAX_EMBEDDED_DEPTH then Refuses(ExceedsMaxNestedDepth)
      else if l * ElementMultiplicity(t) > SIZE_MAX then Breaks(LengthOverflow)
      else Emits(Node(t, l, |s| - 1, ""), s + [l * ElementMultiplicity(t)])
  }

  /** `consume_impl`: interprets one header line, given the open levels. */
  function ConsumeHeader(s: seq<int>, t: Type, elem: Bytes): (h: Header)
    requires Levels(s)
    ensures Sound(h)
  {
    var d := |s| - 1;
    match t
    case StreamedStringPart =>
      if ToInt(elem) == Some(0) then
        if d == 0 then Breaks(PartOutsideString)
        else Emits(Node(t, 1, d, ""), Commit(s[d := 1]))
      else BulkHeader(t, elem)
    case BlobError | VerbatimString | BlobString =>
      if elem == "" then Breaks(EmptyBlobHeader)
      else if elem[0] == '?' then
        if d == MAX_EMBEDDED_DEPTH then Breaks(StringTooDeep)
        else Emits(Node(StreamedString, 0, d + 1, ""), s + [SIZE_MAX])
      else BulkHeader(t, elem)
    case Boolean =>
      if elem == "" then Refuses(EmptyField)
      else if elem[0] != 'f' && elem[0] != 't' then Refuses(UnexpectedBoolValue)
      else Leaf(s, t, elem)
    case Doublean | BigNumber | Number =>
      if elem == "" then Refuses(EmptyField) else Leaf(s, t, elem)
    case SimpleError | SimpleString | Null => Leaf(s, t, elem)
    case Push | Set | Array | Attribute | Map => CountHeader(s, t, elem)
    case StreamedString | Invalid => Refuses(InvalidDataType)
  }

  datatype Outcome =
    | NeedMore(st: State)
    | Emit(node: Node, st: State)
    | Fail(error: Error)
    | Crash(fault: Fault)

  function ConsumeBulk(st: State, view: Bytes): (o: Outcome)
    requires st.Live() && st.pending.Bulk? && st.consumed <= |view|
    ensures o == NeedMore(st) || (o.Emit? && o.st.Good() && st.consumed < o.st.consumed <= |view| && o.st.pending.NoBulk?)
  {
    var len := st.pending.length;
    if |view| - st.consumed < len + 2 then NeedMore(st)
    else
      Emit(Node(st.pending.t, 1, st.Depth(), view[st.consumed..st.consumed + len]),
           State(Commit(st.stack), NoBulk, st.consumed + len + 2))
  }

  /** What follows a header that ends just before `next`. */
  function Act(h: Header, stack: seq<int>, view: Bytes, next: nat): (o: Outcome)
    requires Levels(stack) && Sound(h) && 0 < next <= |view|
    ensures o.NeedMore? ==> o.st.Live() && next <= o.st.consumed <= |view| && o.st.stack == stack
    ensures o.Emit? ==> o.st.Good() && next <= o.st.consumed <= |view| && o.st.pending.NoBulk?
  {
    match h
    case Emits(node, stack') => Emit(node, State(stack', NoBulk, next))
    case Announces(bulk) => ConsumeBulk(State(stack, bulk, next), view)
    case Refuses(e) => Fail(e)
    case Breaks(f) => Crash(f)
  }

  /** The line from `consumed` to the separator at `pos`. An empty line starts with the
      separator, which is the code of no type. */
  function ConsumeLine(st: State, view: Bytes, pos: nat): (o: Outcome)
    requires st.Live() && st.pending.NoBulk? && st.consumed <= pos && pos + 2 <= |view|
    ensures o.NeedMore? ==> o.st.Live() && st.consumed < o.st.consumed <= |view| && o.st.stack == st.stack
    ensures o.Emit? ==> o.st.Good() && st.consumed < o.st.consumed <= |view| && o.st.pending.NoBulk?
  {
    if pos == st.consumed then Fail(InvalidDataType)
    else Act(ConsumeHeader(st.stack, ToType(view[st.consumed]), view[st.consumed + 1..pos]), st.stack, view, pos + 2)
  }

  /** `consume`: one node, or the reason why there is none. Every node advances the offset,
      and the stack invariant survives every view of every input. */
  function Consume(st: State, view: Bytes): (o: Outcome)
    requires st.Live() && st.consumed <= |view|
    ensures o.NeedMore? ==> o.st.Live() && st.consumed <= o.st.consumed <= |view| && o.st.stack == st.stack
    ensures o.Emit? ==> o.st.Good() && st.consumed < o.st.consumed <= |view| && o.st.pending.NoBulk?
  {
    if st.pending.Bulk? then ConsumeBulk(st, view)
    else
      var pos := FindSep(view, st.consumed);
      if pos == |view| then NeedMore(st) else ConsumeLine(st, view, pos)
  }

  datatype Status = Finished | NeedsMore | Failed(error: Error) | Rejected | Crashed(fault: Fault)

  datatype Result = Result(status: Status, st: State, nodes: seq<Node>)

  /** An adapter reports an error after some node; what it has seen of the message decides. */
  type Adapter = seq<Node> -> bool

  const AcceptAll: Adapter := _ => false

  /** `parse`: feeds nodes to the adapter, on top of the `acc` it already has, until the
      message is complete, the view is exhausted, or something goes wrong. */
  function Parse(st: State, view: Bytes, acc: seq<Node>, rejects: Adapter): (r: Result)
    requires st.Good() && st.consumed <= |view|
    ensures r.st.Good() && st.consumed <= r.st.consumed <= |view| && acc <= r.nodes
    ensures r.status.Finished? <==> r.st.Done() && r.status != Rejected
    ensures r.status.NeedsMore? ==> r.st.Live()
    decreases |view| - st.consumed
  {
    if st.Done() then Result(Finished, st, acc)
    else
      match Consume(st, view)
      case NeedMore(st') => Result(NeedsMore, st', acc)
      case Fail(e) => Result(Failed(e), st, acc)
      case Crash(f) => Result(Crashed(f), st, acc)
      case Emit(node, st') =>
        if rejects(acc + [node]) then Result(Rejected, st', acc + [node])
        else Parse(st', view, acc + [node], rejects)
  }

  lemma LineIsHeader(st: State, view: Bytes, pos: nat, t: Type, elem: Bytes)
    requires st.Live() && st.pending.NoBulk? && st.consumed < pos && pos + 2 <= |view|
    requires t == ToType(view[st.consumed]) && elem == view[st.consumed + 1..pos]
    ensures ConsumeLine(st, view, pos) == Act(ConsumeHeader(st.stack, t, elem), st.stack, view, pos + 2)
  {
  }

  // ---- Resuming on a longer view

  lemma FindSepExtends(v: Bytes, more: Bytes, from: nat)
    requires from <= |v|
    ensures FindSep(v, from) < |v| ==> FindSep(v + more, from) == FindSep(v, from)
  {
    var p := FindSep(v, from);
    if p < |v| {
      assert SepAt(v + more, p);
      assert forall k | from <= k < p :: SepAt(v + more, k) ==> SepAt(v, k);
    }
  }

  lemma ActResumes(h: Header, stack: seq<int>, view: Bytes, more: Bytes, next: nat)
    requires Levels(stack) && Sound(h) && 0 < next <= |view|
    ensures var o := Act(h, stack, view, next);
            Act(h, stack, view + more, next) == if o.NeedMore? then ConsumeBulk(o.st, view + more) else o
  {
    if h.Announces? {
      BulkResumes(State(stack, h.bulk, next), view, more);
    }
  }

  lemma LineResumes(st: State, view: Bytes, more: Bytes, pos: nat)
    requires st.Live() && st.pending.NoBulk? && st.consumed <= pos && SepAt(view, pos)
    ensures var o := ConsumeLine(st, view, pos);
            ConsumeLine(st, view + more, pos) == if o.NeedMore? then ConsumeBulk(o.st, view + more) else o
  {
    if pos != st.consumed {
      SliceExtends(view, more, st.consumed + 1, pos);
      var h := ConsumeHeader(st.stack, ToType(view[st.consumed]), view[st.consumed + 1..pos]);
      assert ConsumeLine(st, view, pos) == Act(h, st.stack, view, pos + 2);
      assert ConsumeLine(st, view + more, pos) == Act(h, st.stack, view + more, pos + 2);
      ActResumes(h, st.stack, view, more, pos + 2);
    }
  }

  /** One step that stops for lack of data may be taken again, from the state it left, on
      the longer view; any other step does not look at the additional bytes. */
  lemma ConsumeResumes(st: State, view: Bytes, more: Bytes)
    requires st.Live() && st.consumed <= |view|
    ensures var o := Consume(st, view);
            Consume(st, view + more) == if o.NeedMore? then Consume(o.st, view + more) else o
  {
    if st.pending.Bulk? {
      BulkResumes(st, view, more);
    } else if FindSep(view, st.consumed) < |view| {
      FindSepExtends(view, more, st.consumed);
      LineResumes(st, view, more, FindSep(view, st.consumed));
    }
  }

  lemma BulkResumes(st: State, view: Bytes, more: Bytes)
    requires st.Live() && st.pending.Bulk? && st.consumed <= |view|
    ensures var o := ConsumeBulk(st, view);
            if o.NeedMore? then o.st == st else ConsumeBulk(st, view + more) == o
  {
    var len := st.pending.length;
    if |view| - st.consumed >= len + 2 {
      SliceExtends(view, more, st.consumed, st.consumed + len);
    }
  }

  /** Stopping for more data and resuming on a longer view is the same as having had the
      longer view from the start, whatever the adapter does. */
  lemma {:induction false} ParseResumes(st: State, view: Bytes, more: Bytes, acc: seq<Node>, rejects: Adapter)
    requires st.Good() && st.consumed <= |view|
    ensures var r := Parse(st, view, acc, rejects);
            Parse(st, view + more, acc, rejects) ==
            if r.status.NeedsMore? then Parse(r.st, view + more, r.nodes, rejects) else r
    decreases |view| - st.consumed
  {
    if !st.Done() {
      ConsumeResumes(st, view, more);
      var o := Consume(st, view);
      if o.Emit? && !rejects(acc + [o.node]) {
        ParseResumes(o.st, view, more, acc + [o.node], rejects);
      }
    }
  }

  /** An adapter that raised no error might as well have been one that never does. */
  lemma {:induction false} ParseUnrejected(st: State, view: Bytes, acc: seq<Node>, rejects: Adapter)
    requires st.Good() && st.consumed <= |view|
    requires Parse(st, view, acc, rejects).status != Rejected
    ensures Parse(st, view, acc, rejects) == Parse(st, view, acc, AcceptAll)
    decreases |view| - st.consumed
  {
    if !st.Done() {
      var o := Consume(st, view);
      if o.Emit? {
        ParseUnrejected(o.st, view, acc + [o.node], rejects);
      }
    }
  }
}
