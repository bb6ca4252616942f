// The wire format, spelled out: the code of every type, and a few messages byte by byte.

module Examples {
  import opened Resp3
  import opened Decimal
  import opened Parsing
  import opened Trees
  import opened RoundTrip

  const CODES: Bytes := "*>~%|+-:,#(_!=$;"

  const TYPES: seq<Type> := [
    Array, Push, Set, Map, Attribute, SimpleString, SimpleError, Number, Doublean, Boolean, BigNumber, Null,
    BlobError, VerbatimString, BlobString, StreamedStringPart]

  /** The first byte of every type, and no byte but these begins one. */
  lemma CodeOfType(k: nat, c: char)
    ensures |CODES| == |TYPES| == 16
    ensures k < 16 ==> TYPES[k] != StreamedString && TYPES[k] != Invalid && ToCode(TYPES[k]) == CODES[k]
    ensures k < 16 ==> ToType(CODES[k]) == TYPES[k]
    ensures ToType(c) == Invalid <==> c !in CODES
    ensures k < 16 ==> (IsAggregate(TYPES[k]) <==> k < 5) && (IsSimple(TYPES[k]) <==> 5 <= k < 12)
    ensures k < 16 ==> (IsBlob(TYPES[k]) <==> 12 <= k < 15)
  {
  }

  lemma TenInDecimal()
    ensures ToString(10) == "10" && ToString(1) == "1"
  {
  }

  lemma TwoElements(t: Type, a: Value, b: Value)
    requires IsAggregate(t)
    ensures Print(Aggregate(t, [a, b])) == Line(t, ToString(2 / ElementMultiplicity(t))) + (Print(a) + Print(b))
    ensures Preorder(Aggregate(t, [a, b]), 0) ==
            [Node(t, 2 / ElementMultiplicity(t), 0, "")] + (Preorder(a, 1) + Preorder(b, 1))
  {
    var vs := [a, b];
    assert vs[0] == a && vs[1..] == [b];
    LastOfAll(b, "", 1);
  }

  /** A string of ten bytes: the length is in decimal. */
  lemma ReadsString(rest: Bytes)
    ensures Parse(Initial, "$10\r\nabcdefghij\r\n" + rest, [], AcceptAll) ==
            Result(Finished, State([1], NoBulk, 17), [Node(BlobString, 1, 0, "abcdefghij")])
  {
    TenInDecimal();
    assert Print(Blob(BlobString, "abcdefghij")) == "$10\r\nabcdefghij\r\n";
    ParserUndoesPrinter(Blob(BlobString, "abcdefghij"), rest);
  }

  function OneEntry(t: Type): Value {
    Aggregate(t, [Simple(SimpleString, "a"), Simple(Boolean, "t")])
  }

  lemma MapBytes(t: Type)
    requires t == Map || t == Attribute
    ensures Print(OneEntry(t)) == [if t == Map then '%' else '|'] + "1\r\n+a\r\n#t\r\n"
  {
    var a, b := Simple(SimpleString, "a"), Simple(Boolean, "t");
    TwoElements(t, a, b);
    TenInDecimal();
    assert Line(t, "1") == [if t == Map then '%' else '|'] + "1\r\n";
    assert Print(a) == "+a\r\n" && Print(b) == "#t\r\n";
  }

  lemma MapNodes(t: Type)
    requires t == Map || t == Attribute
    ensures Preorder(OneEntry(t), 0) == [Node(t, 1, 0, ""), Node(SimpleString, 1, 1, "a"), Node(Boolean, 1, 1, "t")]
    ensures Fits(OneEntry(t), 0)
  {
    var a, b := Simple(SimpleString, "a"), Simple(Boolean, "t");
    TwoElements(t, a, b);
    assert Fits(a, 1) && Fits(b, 1);
  }

  /** A map, and likewise an attribute, of one entry has two elements. */
  lemma ReadsMap(t: Type, rest: Bytes)
    requires t == Map || t == Attribute
    ensures Parse(Initial, [if t == Map then '%' else '|'] + "1\r\n+a\r\n#t\r\n" + rest, [], AcceptAll) ==
            Result(Finished, State([1], NoBulk, 12),
                   [Node(t, 1, 0, ""), Node(SimpleString, 1, 1, "a"), Node(Boolean, 1, 1, "t")])
  {
    MapBytes(t);
    MapNodes(t);
    ParserUndoesPrinter(OneEntry(t), rest);
  }

  lemma StreamedBytes()
    ensures Print(Streamed(["Hell"])) == "$?\r\n;4\r\nHell\r\n;0\r\n"
  {
    assert ["Hell"][1..] == [] && ToString(4) == "4";
    assert PrintBulk(StreamedStringPart, "Hell") == ";4\r\nHell\r\n" && PrintParts([]) == ";0\r\n";
    assert Line(BlobString, "?") == "$?\r\n";
  }

  /** A string streamed in one part; all its nodes are one level down. */
  lemma ReadsStreamedString(rest: Bytes)
    ensures Parse(Initial, "$?\r\n;4\r\nHell\r\n;0\r\n" + rest, [], AcceptAll) ==
            Result(Finished, State([1], NoBulk, 18),
                   [Node(StreamedString, 0, 1, ""), Node(StreamedStringPart, 1, 1, "Hell"), Node(StreamedStringPart, 1, 1, "")])
  {
    StreamedBytes();
    assert ["Hell"][1..] == [];
    ParserUndoesPrinter(Streamed(["Hell"]), rest);
  }
}
