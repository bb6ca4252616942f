// Header lines the parser does not accept: each error, and each fault, exactly when it occurs.

module Malformed {
  import opened Resp3
  import opened Decimal
  import opened Parsing
  import opened Trees
  import opened RoundTrip

  /** The types whose header is a count or a length. */
  predicate WantsNumber(t: Type, elem: Bytes) {
    IsAggregate(t) || t == StreamedStringPart || (IsBlob(t) && elem != "" && elem[0] != '?')
  }

  lemma RefusedExactly(s: seq<int>, t: Type, elem: Bytes)
    requires Levels(s)
    ensures var h := ConsumeHeader(s, t, elem);
            && (h == Refuses(InvalidDataType) <==> t in {StreamedString, Invalid})
            && (h == Refuses(EmptyField) <==> elem == "" && t in {Boolean, Doublean, BigNumber, Number})
            && (h == Refuses(UnexpectedBoolValue) <==> t == Boolean && elem != "" && elem[0] !in {'t', 'f'})
            && (h == Refuses(NotANumber) <==> WantsNumber(t, elem) && ToInt(elem).None?)
            && (h == Refuses(ExceedsMaxNestedDepth) <==>
                IsAggregate(t) && ToInt(elem).Some? && ToInt(elem).value > 0 && |s| == 6)
  {
  }

  lemma BreaksExactly(s: seq<int>, t: Type, elem: Bytes)
    requires Levels(s)
    ensures var h := ConsumeHeader(s, t, elem);
            && (h == Breaks(EmptyBlobHeader) <==> IsBlob(t) && elem == "")
            && (h == Breaks(StringTooDeep) <==> IsBlob(t) && elem != "" && elem[0] == '?' && |s| == 6)
            && (h == Breaks(PartOutsideString) <==> t == StreamedStringPart && ToInt(elem) == Some(0) && |s| == 1)
            && (h == Breaks(LengthOverflow) <==>
                && WantsNumber(t, elem) && ToInt(elem).Some?
                && if IsAggregate(t) then |s| < 6 && ToInt(elem).value * ElementMultiplicity(t) > SIZE_MAX
                   else ToInt(elem).value + 2 > SIZE_MAX)
  {
  }

  /** A line that is refused stops the parser with that error, before anything is handed over. */
  lemma RefusedLineFails(t: Type, text: Bytes, rest: Bytes, e: Error)
    requires t != StreamedString && t != Invalid && SepFree(text)
    requires ConsumeHeader([2], t, text) == Refuses(e)
    ensures Parse(Initial, Line(t, text) + rest, [], AcceptAll) == Result(Failed(e), Initial, [])
  {
    var input := Line(t, text) + rest;
    LineFound(t, text, rest);
    assert input[0] == ToCode(t) && ToType(input[0]) == t;
    assert input[1..1 + |text|] == text;
    assert Consume(Initial, input) == Act(ConsumeHeader([2], t, text), [2], input, |Line(t, text)|);
  }
}
