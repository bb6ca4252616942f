// request: the pipeline of commands a caller builds, and the payload it is sent as.

module RequestImpl {
  import opened Resp3
  import opened Decimal
  import opened Parsing
  import opened Trees
  import opened Stream

  /** A command is its name followed by its arguments. */
  type Command = seq<Bytes>

  /** `detail::has_response`, which holds of the commands that get no response of their own. */
  predicate HasNoResponse(cmd: Bytes) {
    cmd == "SUBSCRIBE" || cmd == "PSUBSCRIBE" || cmd == "UNSUBSCRIBE"
  }

  /** The elements of a range: plain values, or pairs that count as two bulks each. */
  datatype Range = Items(items: seq<Bytes>) | Pairs(pairs: seq<(Bytes, Bytes)>) {
    function Size(): nat {
      match this case Items(s) => |s| case Pairs(s) => |s|
    }

    function BulkCount(): nat { if Items? then 1 else 2 }

    /** The bulks of the first `n` elements, in order. */
    function Bulks(n: nat): (bs: seq<Bytes>)
      requires n <= Size()
      ensures |bs| == BulkCount() * n
    {
      if n == 0 then []
      else Bulks(n - 1) + (match this case Items(s) => [s[n - 1]] case Pairs(s) => [s[n - 1].0, s[n - 1].1])
    }

    /** `words` are the elements in order, each pair as its first word followed by its second. */
    ghost predicate Spells(words: seq<Bytes>) {
      match this
      case Items(s) => words == s
      case Pairs(s) =>
        && |words| == 2 * |s|
        && forall j :: 0 <= j < |s| ==> words[2 * j] == s[j].0 && words[2 * j + 1] == s[j].1
    }

    lemma {:induction false} BulksAt(n: nat, j: nat)
      requires j < n <= Size()
      ensures Items? ==> Bulks(n)[j] == items[j]
      ensures Pairs? ==> Bulks(n)[2 * j] == pairs[j].0 && Bulks(n)[2 * j + 1] == pairs[j].1
    {
      if j < n - 1 {
        BulksAt(n - 1, j);
      }
    }

    lemma BulksSpell()
      ensures Spells(Bulks(Size()))
    {
      match this {
        case Items(s) =>
          forall j | 0 <= j < |s|
            ensures Bulks(|s|)[j] == s[j]
          {
            BulksAt(|s|, j);
          }
        case Pairs(s) =>
          forall j | 0 <= j < |s|
            ensures Bulks(|s|)[2 * j] == s[j].0 && Bulks(|s|)[2 * j + 1] == s[j].1
          {
            BulksAt(|s|, j);
          }
      }
    }
  }

  // ---- What the payload means

  function Blobs(args: seq<Bytes>): (vs: seq<Value>)
    ensures |vs| == |args| && forall i :: 0 <= i < |args| ==> vs[i] == Blob(BlobString, args[i])
  {
    if args == [] then [] else [Blob(BlobString, args[0])] + Blobs(args[1..])
  }

  function CommandValue(c: Command): Value {
    Aggregate(Array, Blobs(c))
  }

  function CommandValues(cs: seq<Command>): (vs: seq<Value>)
    ensures |vs| == |cs| && forall i :: 0 <= i < |cs| ==> vs[i] == CommandValue(cs[i])
  {
    if cs == [] then [] else [CommandValue(cs[0])] + CommandValues(cs[1..])
  }

  /** The wire form of a sequence of commands. */
  ghost function Payload(cs: seq<Command>): Bytes {
    PrintAll(CommandValues(cs))
  }

  function ResponseCount(cs: seq<Command>): nat {
    if cs == [] then 0
    else
      var last := cs[|cs| - 1];
      ResponseCount(cs[..|cs| - 1]) + if last != [] && HasNoResponse(last[0]) then 0 else 1
  }

  lemma {:induction false} PrintAllConcat(vs: seq<Value>, ws: seq<Value>)
    ensures PrintAll(vs + ws) == PrintAll(vs) + PrintAll(ws)
  {
    if vs == [] {
      assert vs + ws == ws && "" + PrintAll(ws) == PrintAll(ws);
    } else {
      assert (vs + ws)[1..] == vs[1..] + ws;
      PrintAllConcat(vs[1..], ws);
      Regroup(Print(vs[0]), PrintAll(vs[1..]), PrintAll(ws));
    }
  }

  lemma PrintAllSnoc(vs: seq<Value>, v: Value)
    ensures PrintAll(vs + [v]) == PrintAll(vs) + Print(v)
  {
    PrintAllConcat(vs, [v]);
    assert [v][1..] == [] && Print(v) + "" == Print(v);
  }

  lemma PayloadSnoc(cs: seq<Command>, c: Command)
    ensures Payload(cs + [c]) == Payload(cs) + Print(CommandValue(c))
  {
    PrintAllSnoc(CommandValues(cs), CommandValue(c));
    assert CommandValues(cs + [c]) == CommandValues(cs) + [CommandValue(c)];
  }

  lemma PrintCommand(c: Command)
    ensures Print(CommandValue(c)) == Line(Array, ToString(|c|)) + PrintAll(Blobs(c))
  {
    PrintArray(Blobs(c));
  }

  lemma PrintArray(vs: seq<Value>)
    ensures Print(Aggregate(Array, vs)) == Line(Array, ToString(|vs|)) + PrintAll(vs)
  {
    assert Count(Array, vs) == |vs|;
  }

  /** One more command, header and bulks, behind the payload of `cs`. */
  lemma CommandAdded(cs: seq<Command>, c: Command)
    requires c != []
    ensures Payload(cs) + Line(Array, ToString(|c|)) + PrintAll(Blobs(c)) == Payload(cs + [c])
    ensures ResponseCount(cs + [c]) == ResponseCount(cs) + if HasNoResponse(c[0]) then 0 else 1
  {
    PayloadSnoc(cs, c);
    PrintCommand(c);
    Regroup(Payload(cs), Line(Array, ToString(|c|)), PrintAll(Blobs(c)));
    assert (cs + [c])[..|cs|] == cs;
  }

  lemma BlobsSnoc(args: seq<Bytes>, a: Bytes)
    ensures PrintAll(Blobs(args + [a])) == PrintAll(Blobs(args)) + PrintBulk(BlobString, a)
  {
    PrintAllSnoc(Blobs(args), Blob(BlobString, a));
    assert Blobs(args + [a]) == Blobs(args) + [Blob(BlobString, a)];
  }

  /** One command more: these words, and then what the range spells. */
  ghost predicate Appended(before: seq<Command>, words: seq<Bytes>, range: Range, after: seq<Command>) {
    && |after| == |before| + 1 && before <= after
    && words <= after[|before|] && range.Spells(after[|before|][|words|..])
  }

  lemma CommandOf(before: seq<Command>, words: seq<Bytes>, range: Range, bulks: seq<Bytes>)
    requires range.Spells(bulks)
    ensures Appended(before, words, range, before + [words + bulks])
  {
    assert (words + bulks)[|words|..] == bulks;
  }

  lemma TwoMore<T>(a: seq<T>, b: seq<T>, x: T, y: T)
    ensures a + b + [x] + [y] == a + (b + [x, y])
  {
  }

  // ---- The request object

  class Request {
    var helloWithPriority: bool
    var payload: Bytes
    var commands: nat
    var expectedResponses: nat
    var hasHelloPriority: bool
    ghost var pushed: seq<Command>

    ghost predicate Valid()
      reads this
    {
      && payload == Payload(pushed)
      && commands == |pushed|
      && expectedResponses == ResponseCount(pushed)
    }

    constructor (helloWithPriority: bool)
      ensures Valid() && pushed == [] && !hasHelloPriority && this.helloWithPriority == helloWithPriority
    {
      this.helloWithPriority := helloWithPriority;
      payload, commands, expectedResponses, hasHelloPriority := "", 0, 0, false;
      pushed := [];
    }

    method Clear()
      modifies this
      ensures Valid() && pushed == [] && !hasHelloPriority && helloWithPriority == old(helloWithPriority)
    {
      payload, commands, expectedResponses, hasHelloPriority := "", 0, 0, false;
      pushed := [];
    }

    method AddHeader(t: Type, size: nat)
      requires t != StreamedString && t != Invalid
      modifies this`payload
      ensures payload == old(payload) + Line(t, ToString(size))
    {
      var str := ToString(size);
      payload := payload + [ToCode(t)];
      payload := payload + str;
      payload := payload + SEP;
    }

    method AddBulk(data: Bytes)
      modifies this`payload
      ensures payload == old(payload) + PrintBulk(BlobString, data)
    {
      var str := ToString(|data|);
      payload := payload + [ToCode(BlobString)];
      payload := payload + str;
      payload := payload + SEP;
      payload := payload + data;
      payload := payload + SEP;
    }

    method CheckCmd(cmd: Bytes)
      modifies this`commands, this`expectedResponses, this`hasHelloPriority
      ensures commands == old(commands) + 1
      ensures expectedResponses == old(expectedResponses) + if HasNoResponse(cmd) then 0 else 1
      ensures hasHelloPriority == if cmd == "HELLO" then helloWithPriority else old(hasHelloPriority)
    {
      commands := commands + 1;
      if !HasNoResponse(cmd) {
        expectedResponses := expectedResponses + 1;
      }
      if cmd == "HELLO" {
        hasHelloPriority := helloWithPriority;
      }
    }

    /** Appends one more bulk to a command whose header and first bulks are in the payload. */
    method AddArgument(data: Bytes, ghost start: Bytes, ghost args: seq<Bytes>)
      requires payload == start + PrintAll(Blobs(args))
      modifies this`payload
      ensures payload == start + PrintAll(Blobs(args + [data]))
    {
      AddBulk(data);
      BlobsSnoc(args, data);
      Regroup(start, PrintAll(Blobs(args)), PrintBulk(BlobString, data));
    }

    method Push(cmd: Bytes, args: seq<Bytes>)
      requires Valid()
      modifies this`payload, this`commands, this`expectedResponses, this`hasHelloPriority, this`pushed
      ensures Valid() && pushed == old(pushed) + [[cmd] + args]
      ensures hasHelloPriority == if cmd == "HELLO" then helloWithPriority else old(hasHelloPriority)
    {
      AddHeader(Array, 1 + |args|);
      ghost var start := payload;
      AddFirst(cmd, start);
      AddAll(args, start, [cmd]);
      Finish(cmd, [cmd] + args, old(payload));
    }

    method AddFirst(cmd: Bytes, ghost start: Bytes)
      requires payload == start
      modifies this`payload
      ensures payload == start + PrintAll(Blobs([cmd]))
    {
      assert start + "" == start;
      AddArgument(cmd, start, []);
      assert [] + [cmd] == [cmd];
    }

    method AddAll(args: seq<Bytes>, ghost start: Bytes, ghost done: seq<Bytes>)
      requires payload == start + PrintAll(Blobs(done))
      modifies this`payload
      ensures payload == start + PrintAll(Blobs(done + args))
    {
      assert done + args[..0] == done;
      for i := 0 to |args|
        invariant payload == start + PrintAll(Blobs(done + args[..i]))
      {
        AddArgument(args[i], start, done + args[..i]);
        assert done + args[..i] + [args[i]] == done + args[..i + 1];
      }
      assert args[..|args|] == args;
    }

    /** The bookkeeping that ends every push. */
    method Finish(cmd: Bytes, ghost c: Command, ghost before: Bytes)
      requires c != [] && c[0] == cmd
      requires before == Payload(pushed) && commands == |pushed| && expectedResponses == ResponseCount(pushed)
      requires payload == before + Line(Array, ToString(|c|)) + PrintAll(Blobs(c))
      modifies this`commands, this`expectedResponses, this`hasHelloPriority, this`pushed
      ensures Valid() && pushed == old(pushed) + [c]
      ensures hasHelloPriority == if cmd == "HELLO" then helloWithPriority else old(hasHelloPriority)
    {
      CheckCmd(cmd);
      CommandAdded(pushed, c);
      pushed := pushed + [c];
    }

    method AddWords(words: seq<Bytes>, range: Range)
      modifies this`payload
      ensures var c := words + range.Bulks(range.Size());
              payload == old(payload) + Line(Array, ToString(|c|)) + PrintAll(Blobs(c))
    {
      AddHeader(Array, |words| + range.BulkCount() * range.Size());
      ghost var start := payload;
      assert start + "" == start && [] + words == words;
      AddAll(words, start, []);
      AddRange(range, start, words);
    }

    /** What the two overloads of push_range have in common: the command name, with or without
        a key, and then the bulks of the range. */
    method PushWords(words: seq<Bytes>, range: Range)
      requires Valid() && words != []
      modifies this`payload, this`commands, this`expectedResponses, this`hasHelloPriority, this`pushed
      ensures Valid()
      ensures Appended(old(pushed), words, range, pushed)
      ensures hasHelloPriority == if words[0] == "HELLO" then helloWithPriority else old(hasHelloPriority)
    {
      AddWords(words, range);
      range.BulksSpell();
      CommandOf(pushed, words, range, range.Bulks(range.Size()));
      Finish(words[0], words + range.Bulks(range.Size()), old(payload));
    }

    /** The overload with a key. An empty range adds nothing, not even the command. */
    method PushRangeWithKey(cmd: Bytes, key: Bytes, range: Range)
      requires Valid()
      modifies this`payload, this`commands, this`expectedResponses, this`hasHelloPriority, this`pushed
      ensures Valid()
      ensures range.Size() == 0 ==> unchanged(this)
      ensures range.Size() > 0 ==> Appended(old(pushed), [cmd, key], range, pushed)
      ensures range.Size() > 0 ==> hasHelloPriority == if cmd == "HELLO" then helloWithPriority else old(hasHelloPriority)
    {
      if range.Size() == 0 {
        return;
      }
      PushWords([cmd, key], range);
    }

    /** The overload without a key. */
    method PushRange(cmd: Bytes, range: Range)
      requires Valid()
      modifies this`payload, this`commands, this`expectedResponses, this`hasHelloPriority, this`pushed
      ensures Valid()
      ensures range.Size() == 0 ==> unchanged(this)
      ensures range.Size() > 0 ==> Appended(old(pushed), [cmd], range, pushed)
      ensures range.Size() > 0 ==> hasHelloPriority == if cmd == "HELLO" then helloWithPriority else old(hasHelloPriority)
    {
      if range.Size() == 0 {
        return;
      }
      PushWords([cmd], range);
    }

    method AddRange(range: Range, ghost start: Bytes, ghost args: seq<Bytes>)
      requires payload == start + PrintAll(Blobs(args))
      modifies this`payload
      ensures payload == start + PrintAll(Blobs(args + range.Bulks(range.Size())))
    {
      assert args + [] == args;
      for i := 0 to range.Size()
        invariant payload == start + PrintAll(Blobs(args + range.Bulks(i)))
      {
        AddElement(range, i, start, args);
      }
    }

    method AddElement(range: Range, i: nat, ghost start: Bytes, ghost args: seq<Bytes>)
      requires i < range.Size() && payload == start + PrintAll(Blobs(args + range.Bulks(i)))
      modifies this`payload
      ensures payload == start + PrintAll(Blobs(args + range.Bulks(i + 1)))
    {
      ghost var done := args + range.Bulks(i);
      match range {
        case Items(s) =>
          AddArgument(s[i], start, done);
          Regroup(args, range.Bulks(i), [s[i]]);
        case Pairs(s) =>
          AddArgument(s[i].0, start, done);
          AddArgument(s[i].1, start, done + [s[i].0]);
          TwoMore(args, range.Bulks(i), s[i].0, s[i].1);
      }
    }
  }

  // ---- Round trip

  /** The command and its arguments have lengths that fit a `size_t`. */
  ghost predicate Sendable(c: Command) {
    |c| <= SIZE_MAX && forall i :: 0 <= i < |c| ==> |c[i]| + 2 <= SIZE_MAX
  }

  lemma CommandFits(c: Command)
    requires Sendable(c)
    ensures Fits(CommandValue(c), 0)
  {
    forall i | 0 <= i < |c|
      ensures Fits(Blobs(c)[i], 1)
    {
    }
  }

  lemma SendableFits(cs: seq<Command>)
    requires forall i :: 0 <= i < |cs| ==> Sendable(cs[i])
    ensures AllFit(CommandValues(cs), 0)
  {
    forall i | 0 <= i < |cs|
      ensures Fits(CommandValues(cs)[i], 0)
    {
      CommandFits(cs[i]);
    }
  }

  /** The nodes a parser hands over for one command: the array, then one blob per word. */
  function CommandNodes(c: Command): seq<Node> {
    [Node(Array, |c|, 0, "")] + WordNodes(c)
  }

  function WordNodes(c: Command): (ns: seq<Node>)
    ensures |ns| == |c| && forall i :: 0 <= i < |c| ==> ns[i] == Node(BlobString, 1, 1, c[i])
  {
    if c == [] then [] else [Node(BlobString, 1, 1, c[0])] + WordNodes(c[1..])
  }

  lemma {:induction false} PreorderOfBlobs(c: Command)
    ensures PreorderAll(Blobs(c), 1) == WordNodes(c)
  {
    if c != [] {
      PreorderOfBlobs(c[1..]);
      assert Blobs(c)[1..] == Blobs(c[1..]);
    }
  }

  lemma CommandPreorder(c: Command)
    ensures Preorder(CommandValue(c), 0) == CommandNodes(c)
  {
    PreorderOfBlobs(c);
  }

  /** Reading a payload back, split across reads in any way, gives one array per command,
      holding exactly its words, and consumes everything. */
  lemma PayloadRoundTrip(cs: seq<Command>, chunks: seq<Bytes>)
    requires forall i :: 0 <= i < |cs| ==> Sendable(cs[i])
    requires Concat(chunks) == Payload(cs)
    ensures var d := FeedAll(Opening, chunks);
            && d.status.NeedsMore? && d.buffer == "" && d.st == Initial && d.nodes == []
            && |d.messages| == |cs|
            && forall i :: 0 <= i < |cs| ==> d.messages[i].nodes == CommandNodes(cs[i])
  {
    var vs := CommandValues(cs);
    SendableFits(cs);
    PrintedValuesArrive(vs, chunks);
    forall i | 0 <= i < |cs|
      ensures MessagesOf(vs)[i].nodes == CommandNodes(cs[i])
    {
      assert MessagesOf(vs)[i] == MessageOf(vs[i]);
      CommandPreorder(cs[i]);
    }
  }

  /** Different pipelines have different payloads. */
  lemma PayloadInjective(cs: seq<Command>, ds: seq<Command>)
    requires forall i :: 0 <= i < |cs| ==> Sendable(cs[i])
    requires forall i :: 0 <= i < |ds| ==> Sendable(ds[i])
    requires Payload(cs) == Payload(ds)
    ensures cs == ds
  {
    var chunks := [Payload(cs)];
    assert chunks[1..] == [] && Concat(chunks) == Payload(cs) by {
      assert Payload(cs) + "" == Payload(cs);
    }
    PayloadRoundTrip(cs, chunks);
    PayloadRoundTrip(ds, chunks);
    forall i | 0 <= i < |cs|
      ensures cs[i] == ds[i]
    {
      assert CommandNodes(cs[i]) == CommandNodes(ds[i]);
      assert CommandNodes(cs[i])[0] == CommandNodes(ds[i])[0];
      forall k | 0 <= k < |cs[i]|
        ensures cs[i][k] == ds[i][k]
      {
        assert CommandNodes(cs[i])[k + 1] == CommandNodes(ds[i])[k + 1];
      }
    }
  }
}
