// RESP3 vocabulary: wire types, their one-byte codes, and the nodes a parser emits.

module Resp3 {

  /** A byte string. One `char` stands for one octet. */
  type Bytes = string

  /** The largest value of the 64-bit `std::size_t` the lengths and counts are stored in. */
  const SIZE_MAX: nat := 0xFFFF_FFFF_FFFF_FFFF

  const SEP: Bytes := "\r\n"

  const MAX_EMBEDDED_DEPTH: nat := 5

  datatype Type =
    | Array | Push | Set | Map | Attribute
    | SimpleString | SimpleError | Number | Doublean | Boolean | BigNumber | Null
    | BlobError | VerbatimString | BlobString
    | StreamedString | StreamedStringPart
    | Invalid

  datatype Node = Node(dataType: Type, aggregateSize: nat, depth: nat, value: Bytes)

  predicate IsAggregate(t: Type) {
    t in {Array, Push, Set, Map, Attribute}
  }

  predicate IsBlob(t: Type) {
    t in {BlobError, VerbatimString, BlobString}
  }

  predicate IsSimple(t: Type) {
    t in {SimpleString, SimpleError, Number, Doublean, Boolean, BigNumber, Null}
  }

  /** Maps and attributes carry two elements per counted entry. */
  function ElementMultiplicity(t: Type): nat {
    if t == Map || t == Attribute then 2 else 1
  }

  function ToCode(t: Type): char
    requires t != StreamedString && t != Invalid
  {
    match t
    case BlobError => '!'
    case VerbatimString => '='
    case BlobString => '$'
    case StreamedStringPart => ';'
    case SimpleError => '-'
    case Number => ':'
    case Doublean => ','
    case Boolean => '#'
    case BigNumber => '('
    case SimpleString => '+'
    case Null => '_'
    case Push => '>'
    case Set => '~'
    case Array => '*'
    case Attribute => '|'
    case Map => '%'
  }

  function ToType(c: char): Type {
    match c
    case '!' => BlobError
    case '=' => VerbatimString
    case '$' => BlobString
    case ';' => StreamedStringPart
    case '-' => SimpleError
    case ':' => Number
    case ',' => Doublean
    case '#' => Boolean
    case '(' => BigNumber
    case '+' => SimpleString
    case '_' => Null
    case '>' => Push
    case '~' => Set
    case '*' => Array
    case '|' => Attribute
    case '%' => Map
    case _ => Invalid
  }

  predicate SepAt(v: Bytes, k: int) {
    0 <= k && k + 1 < |v| && v[k] == '\r' && v[k + 1] == '\n'
  }

  /** The first separator at or after `from`; `|v|` plays the part of `npos`. */
  function FindSep(v: Bytes, from: nat): (pos: nat)
    requires from <= |v|
    ensures from <= pos <= |v|
    ensures pos < |v| ==> SepAt(v, pos)
    ensures forall k :: from <= k < pos ==> !SepAt(v, k)
    decreases |v| - from
  {
    if from == |v| || SepAt(v, from) then from else FindSep(v, from + 1)
  }

  // ---- Sequence algebra, kept out of the proofs that use it

  lemma Regroup<T>(a: seq<T>, b: seq<T>, c: seq<T>)
    ensures a + b + c == a + (b + c)
  {
  }

  lemma AppendNothing<T>(s: seq<T>)
    ensures s + [] == s && [] + s == s
  {
  }

  lemma HeadTail<T>(s: seq<T>)
    requires s != []
    ensures s == [s[0]] + s[1..]
  {
  }

  lemma ConcatTail<T>(a: seq<T>, b: seq<T>)
    requires a != []
    ensures (a + b)[0] == a[0] && (a + b)[1..] == a[1..] + b
  {
  }

  lemma SliceExtends(v: Bytes, more: Bytes, a: nat, b: nat)
    requires a <= b <= |v|
    ensures (v + more)[a..b] == v[a..b]
  {
  }

  lemma DropExtends(v: Bytes, more: Bytes, k: nat)
    requires k <= |v|
    ensures (v + more)[k..] == v[k..] + more
  {
  }

  lemma SliceShifts(pre: Bytes, input: Bytes, a: nat, b: nat)
    requires a <= b <= |input|
    ensures (pre + input)[|pre| + a..|pre| + b] == input[a..b]
  {
  }
}
