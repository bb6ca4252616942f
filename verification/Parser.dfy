// resp3::parser and its driver loop, with the fields the program mutates: the six-slot
// array of element counters, the depth, the pending bulk and the offset.

module ParserImpl {
  import opened Resp3
  import opened Decimal
  import opened Parsing

  class Parser {
    var depth: nat
    const sizes: array<int>
    var bulkLength: nat
    var bulk: Type
    var consumed: nat

    ghost predicate InBounds()
      reads this
    {
      sizes.Length == MAX_EMBEDDED_DEPTH + 1 && depth < sizes.Length
    }

    /** The slots above `depth`, and the bulk length while no bulk is pending, are leftovers. */
    function Abs(): State
      reads this, sizes
      requires InBounds()
    {
      State(sizes[..depth + 1], if bulk == Invalid then NoBulk else Bulk(bulk, bulkLength), consumed)
    }

    ghost predicate Valid()
      reads this, sizes
    {
      InBounds() && Abs().Good()
    }

    constructor ()
      ensures Valid() && Abs() == Initial && fresh(sizes)
    {
      sizes := new int[MAX_EMBEDDED_DEPTH + 1];
      depth, bulkLength, bulk, consumed := 0, SIZE_MAX, Invalid, 0;
      new;
      Reset();
    }

    method Reset()
      requires sizes.Length == MAX_EMBEDDED_DEPTH + 1
      modifies this, sizes
      ensures Valid() && Abs() == Initial
    {
      depth := 0;
      for i := 0 to sizes.Length
        modifies sizes
      {
        sizes[i] := 0;
      }
      bulkLength := SIZE_MAX;
      bulk := Invalid;
      consumed := 0;
      sizes[0] := 2; // one unit of it is spent by the message itself
      assert sizes[..1] == [2];
    }

    predicate BulkExpected()
      reads this
    {
      bulk != Invalid
    }

    predicate IsDone()
      requires InBounds()
      reads this, sizes
      ensures IsDone() == Abs().Done()
    {
      depth == 0 && bulk == Invalid && consumed != 0
    }

    method CommitElem()
      requires InBounds() && Levels(sizes[..depth + 1])
      modifies this`depth, sizes
      ensures InBounds() && sizes[..depth + 1] == Commit(old(sizes[..depth + 1]))
    {
      ghost var s := sizes[..depth + 1];
      sizes[depth] := sizes[depth] - 1;
      assert sizes[..depth + 1] == s[depth := s[depth] - 1];
      while sizes[depth] == 0
        invariant InBounds() && depth < |s|
        invariant Partial(sizes[..depth + 1])
        invariant Settle(sizes[..depth + 1]) == Commit(s)
        decreases depth
      {
        ghost var t := sizes[..depth + 1];
        depth := depth - 1;
        sizes[depth] := sizes[depth] - 1;
        SettleOnce(t, sizes[..depth + 1]);
      }
    }

    method OpenLevel(count: int)
      requires InBounds() && depth < MAX_EMBEDDED_DEPTH
      modifies this`depth, sizes
      ensures InBounds() && sizes[..depth + 1] == old(sizes[..depth + 1]) + [count]
    {
      depth := depth + 1;
      sizes[depth] := count;
    }

    method EmitElem(t: Type, size: nat, value: Bytes) returns (h: Header)
      requires InBounds() && Levels(sizes[..depth + 1])
      modifies this`depth, sizes
      ensures InBounds() && sizes[..depth + 1] == Commit(old(sizes[..depth + 1]))
      ensures h == Emits(Node(t, size, old(depth), value), sizes[..depth + 1])
    {
      var node := Node(t, size, depth, value);
      CommitElem();
      h := Emits(node, sizes[..depth + 1]);
    }

    method AnnounceBulk(t: Type, elem: Bytes) returns (h: Header)
      requires InBounds() && !BulkExpected() && t != Invalid
      modifies this`bulkLength, this`bulk
      ensures h == BulkHeader(t, elem)
      ensures if h.Announces? then Abs() == old(Abs()).(pending := h.bulk) else Abs() == old(Abs())
    {
      var n := ToInt(elem);
      if n.None? {
        return Refuses(NotANumber);
      } else if n.value + 2 > SIZE_MAX {
        return Breaks(LengthOverflow);
      }
      bulkLength := n.value;
      bulk := t;
      h := Announces(Bulk(t, bulkLength));
    }

    /** The fields carry out `h`; a refused or undefined header changes nothing. */
    ghost predicate Follows(h: Header, st: State)
      reads this, sizes
    {
      && InBounds()
      && match h
         case Emits(_, stack) => Abs() == State(stack, NoBulk, st.consumed)
         case Announces(b) => Abs() == st.(pending := b)
         case Refuses(_) => Abs() == st
         case Breaks(_) => Abs() == st
    }

    method OpenAggregate(t: Type, elem: Bytes) returns (h: Header)
      requires Valid() && Abs().Live() && !BulkExpected()
      modifies this`depth, sizes
      ensures h == CountHeader(old(Abs()).stack, t, elem)
      ensures Follows(h, old(Abs()))
    {
      var n := ToInt(elem);
      if n.None? {
        return Refuses(NotANumber);
      } else if n.value == 0 {
        h := EmitElem(t, 0, "");
        return;
      } else if depth == MAX_EMBEDDED_DEPTH {
        return Refuses(ExceedsMaxNestedDepth);
      } else if n.value * ElementMultiplicity(t) > SIZE_MAX {
        return Breaks(LengthOverflow);
      }
      var node := Node(t, n.value, depth, "");
      OpenLevel(n.value * ElementMultiplicity(t));
      h := Emits(node, sizes[..depth + 1]);
    }

    method CloseString() returns (h: Header)
      requires Valid() && Abs().Live() && !BulkExpected() && depth > 0
      modifies this`depth, this`bulkLength, sizes
      ensures InBounds() && sizes[..depth + 1] == Commit(old(sizes[..depth + 1])[old(depth) := 1])
      ensures h == Emits(Node(StreamedStringPart, 1, old(depth), ""), sizes[..depth + 1])
    {
      ghost var s := sizes[..depth + 1];
      bulkLength := 0;
      sizes[depth] := 1; // the part that closes the string is the last one
      assert sizes[..depth + 1] == s[depth := 1];
      h := EmitElem(StreamedStringPart, 1, "");
    }

    method ConsumePart(elem: Bytes) returns (h: Header)
      requires Valid() && Abs().Live() && !BulkExpected()
      modifies this`depth, this`bulkLength, this`bulk, sizes
      ensures h == ConsumeHeader(old(Abs()).stack, StreamedStringPart, elem)
      ensures Follows(h, old(Abs()))
    {
      if ToInt(elem) == Some(0) {
        if depth == 0 {
          return Breaks(PartOutsideString);
        }
        h := CloseString();
      } else {
        h := AnnounceBulk(StreamedStringPart, elem);
      }
    }

    method ConsumeBlobHeader(t: Type, elem: Bytes) returns (h: Header)
      requires Valid() && Abs().Live() && !BulkExpected() && IsBlob(t)
      modifies this`depth, this`bulkLength, this`bulk, sizes
      ensures h == ConsumeHeader(old(Abs()).stack, t, elem)
      ensures Follows(h, old(Abs()))
    {
      if elem == "" {
        return Breaks(EmptyBlobHeader);
      } else if elem[0] == '?' {
        if depth == MAX_EMBEDDED_DEPTH {
          return Breaks(StringTooDeep);
        }
        OpenLevel(SIZE_MAX);
        h := Emits(Node(StreamedString, 0, depth, ""), sizes[..depth + 1]);
      } else {
        h := AnnounceBulk(t, elem);
      }
    }

    method ConsumeSimple(t: Type, elem: Bytes) returns (h: Header)
      requires Valid() && Abs().Live() && !BulkExpected() && IsSimple(t)
      modifies this`depth, sizes
      ensures h == ConsumeHeader(old(Abs()).stack, t, elem)
      ensures Follows(h, old(Abs()))
    {
      if t == Boolean {
        if elem == "" {
          return Refuses(EmptyField);
        } else if elem[0] != 'f' && elem[0] != 't' {
          return Refuses(UnexpectedBoolValue);
        }
      } else if t == Doublean || t == BigNumber || t == Number {
        if elem == "" {
          return Refuses(EmptyField);
        }
      }
      h := EmitElem(t, 1, elem);
    }

    method ConsumeImpl(t: Type, elem: Bytes) returns (h: Header)
      requires Valid() && Abs().Live() && !BulkExpected()
      modifies this`depth, this`bulkLength, this`bulk, sizes
      ensures h == ConsumeHeader(old(Abs()).stack, t, elem)
      ensures Follows(h, old(Abs()))
    {
      match t {
        case StreamedStringPart => h := ConsumePart(elem);
        case BlobError | VerbatimString | BlobString => h := ConsumeBlobHeader(t, elem);
        case Boolean | Doublean | BigNumber | Number | SimpleError | SimpleString | Null => h := ConsumeSimple(t, elem);
        case Push | Set | Array | Attribute | Map => h := OpenAggregate(t, elem);
        case StreamedString | Invalid => h := Refuses(InvalidDataType);
      }
    }

    method ConsumePendingBulk(view: Bytes) returns (o: Outcome)
      requires Valid() && BulkExpected() && consumed <= |view|
      modifies this, sizes
      ensures o == ConsumeBulk(old(Abs()), view)
      ensures Valid() && consumed <= |view|
      ensures Abs() == o.st
    {
      var span := bulkLength + 2;
      if |view| - consumed < span {
        return NeedMore(Abs());
      }
      var node := Node(bulk, 1, depth, view[consumed..consumed + bulkLength]);
      bulk := Invalid;
      CommitElem();
      consumed := consumed + span;
      return Emit(node, Abs());
    }

    method ConsumeHeaderLine(view: Bytes, pos: nat) returns (o: Outcome)
      requires Valid() && !IsDone() && !BulkExpected() && consumed <= pos && SepAt(view, pos)
      modifies this, sizes
      ensures o == ConsumeLine(old(Abs()), view, pos)
      ensures Valid() && consumed <= |view|
      ensures Abs() == if o.Emit? || o.NeedMore? then o.st else old(Abs())
    {
      if pos == consumed {
        return Fail(InvalidDataType); // The separator is the code of no type.
      }
      var h := ConsumeImpl(ToType(view[consumed]), view[consumed + 1..pos]);
      o := FinishLine(h, old(Abs()), view, pos + 2);
    }

    /** What follows a header that has been carried out and ends just before `next`. */
    method FinishLine(h: Header, ghost st: State, view: Bytes, next: nat) returns (o: Outcome)
      requires st.Live() && st.pending.NoBulk? && Sound(h) && Follows(h, st) && st.consumed < next <= |view|
      modifies this, sizes
      ensures o == Act(h, st.stack, view, next)
      ensures Valid() && consumed <= |view|
      ensures Abs() == if o.Emit? || o.NeedMore? then o.st else st
    {
      if h.Refuses? {
        return Fail(h.error);
      } else if h.Breaks? {
        return Crash(h.fault);
      }
      consumed := next;
      if !BulkExpected() {
        return Emit(h.node, Abs());
      }
      o := ConsumePendingBulk(view);
    }

    /** One node from the view, or the reason why there is none. */
    method Consume(view: Bytes) returns (o: Outcome)
      requires Valid() && !IsDone() && consumed <= |view|
      modifies this, sizes
      ensures o == Parsing.Consume(old(Abs()), view)
      ensures Valid() && consumed <= |view|
      ensures Abs() == if o.Emit? || o.NeedMore? then o.st else old(Abs())
    {
      if BulkExpected() {
        o := ConsumePendingBulk(view);
      } else {
        var pos := FindSep(view, consumed);
        if pos == |view| {
          return NeedMore(Abs());
        }
        o := ConsumeHeaderLine(view, pos);
      }
    }
  }

  /** The driver loop. `acc` is what the adapter has been given of this message by earlier
      calls; `nodes` is what it has been given in all. */
  method Parse(p: Parser, view: Bytes, acc: seq<Node>, rejects: Adapter) returns (status: Status, nodes: seq<Node>)
    requires p.Valid() && p.consumed <= |view|
    modifies p, p.sizes
    ensures p.Valid() && p.consumed <= |view|
    ensures Result(status, p.Abs(), nodes) == Parsing.Parse(old(p.Abs()), view, acc, rejects)
  {
    nodes := acc;
    while !p.IsDone()
      invariant p.Valid() && p.consumed <= |view|
      invariant Parsing.Parse(p.Abs(), view, nodes, rejects) == Parsing.Parse(old(p.Abs()), view, acc, rejects)
      decreases |view| - p.consumed
    {
      var o := p.Consume(view);
      match o {
        case NeedMore(_) => return NeedsMore, nodes;
        case Fail(e) => return Failed(e), nodes;
        case Crash(f) => return Crashed(f), nodes;
        case Emit(node, _) =>
          nodes := nodes + [node];
          if rejects(nodes) {
            return Rejected, nodes;
          }
      }
    }
    status := Finished;
  }
}
