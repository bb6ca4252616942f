// The read loop: parse, drop the consumed bytes from the buffer, reset the parser, go on.

module Stream {
  import opened Resp3
  import opened Parsing
  import opened Trees
  import opened RoundTrip

  datatype Message = Message(nodes: seq<Node>, size: nat)

  /** Complete messages in order of arrival, and what is left: the reason for stopping, the
      unconsumed buffer, the parser, and the nodes of the message in progress. */
  datatype Drained = Drained(messages: seq<Message>, status: Status, buffer: Bytes, st: State, nodes: seq<Node>) {
    function After(earlier: seq<Message>): Drained {
      this.(messages := earlier + messages)
    }
  }

  function Drain(st: State, buffer: Bytes, nodes: seq<Node>): (d: Drained)
    requires st.Live() && st.consumed <= |buffer|
    ensures d.status != Finished && d.st.consumed <= |d.buffer|
    ensures d.status.NeedsMore? ==> d.st.Live()
    decreases |buffer|
  {
    var r := Parse(st, buffer, nodes, AcceptAll);
    if r.status.Finished? then
      Drain(Initial, buffer[r.st.consumed..], []).After([Message(r.nodes, r.st.consumed)])
    else Drained([], r.status, buffer, r.st, r.nodes)
  }

  /** One more read: the chunk is appended to the buffer and the loop goes on. After an
      error nothing is read any more. */
  function Feed(d: Drained, chunk: Bytes): (e: Drained)
    requires d.status.NeedsMore? ==> d.st.Live() && d.st.consumed <= |d.buffer|
    ensures e.status.NeedsMore? ==> e.st.Live() && e.st.consumed <= |e.buffer|
  {
    if d.status.NeedsMore? then Drain(d.st, d.buffer + chunk, d.nodes).After(d.messages) else d
  }

  function FeedAll(d: Drained, chunks: seq<Bytes>): Drained
    requires d.status.NeedsMore? ==> d.st.Live() && d.st.consumed <= |d.buffer|
    decreases |chunks|
  {
    if chunks == [] then d else FeedAll(Feed(d, chunks[0]), chunks[1..])
  }

  const Opening: Drained := Drained([], NeedsMore, "", Initial, [])

  function Concat(chunks: seq<Bytes>): Bytes {
    if chunks == [] then "" else chunks[0] + Concat(chunks[1..])
  }

  /** What has arrived before does not change what arrives next. */
  lemma FeedAfter(d: Drained, m: Message, more: Bytes)
    requires d.status.NeedsMore? && d.st.Live() && d.st.consumed <= |d.buffer|
    ensures Feed(d.After([m]), more) == Feed(d, more).After([m])
  {
    Regroup([m], d.messages, Drain(d.st, d.buffer + more, d.nodes).messages);
  }

  /** `d` is what the loop made of a buffer; `e` is what it makes of the buffer and `more`. */
  ghost predicate Resumes(d: Drained, more: Bytes, e: Drained)
    requires d.status.NeedsMore? ==> d.st.Live() && d.st.consumed <= |d.buffer|
  {
    e == if d.status.NeedsMore? then Feed(d, more) else d.(buffer := d.buffer + more)
  }

  lemma ResumesAfter(d: Drained, more: Bytes, e: Drained, m: Message)
    requires d.status.NeedsMore? ==> d.st.Live() && d.st.consumed <= |d.buffer|
    requires Resumes(d, more, e)
    ensures Resumes(d.After([m]), more, e.After([m]))
  {
    if d.status.NeedsMore? {
      FeedAfter(d, m, more);
    }
  }

  lemma ResumesPaused(st: State, buffer: Bytes, more: Bytes, nodes: seq<Node>)
    requires st.Live() && st.consumed <= |buffer|
    ensures Resumes(Drained([], NeedsMore, buffer, st, nodes), more, Drain(st, buffer + more, nodes))
  {
    var e := Drain(st, buffer + more, nodes);
    assert [] + e.messages == e.messages;
  }

  /** The loop may stop for lack of data anywhere and go on when more has arrived. */
  lemma {:induction false} DrainResumes(st: State, buffer: Bytes, more: Bytes, nodes: seq<Node>)
    requires st.Live() && st.consumed <= |buffer|
    ensures Resumes(Drain(st, buffer, nodes), more, Drain(st, buffer + more, nodes))
    decreases |buffer|
  {
    var r := Parse(st, buffer, nodes, AcceptAll);
    ParseResumes(st, buffer, more, nodes, AcceptAll);
    if r.status.Finished? {
      var k := r.st.consumed;
      DropExtends(buffer, more, k);
      DrainResumes(Initial, buffer[k..], more, []);
      ResumesAfter(Drain(Initial, buffer[k..], []), more, Drain(Initial, buffer[k..] + more, []), Message(r.nodes, k));
    } else if r.status.NeedsMore? {
      ResumesPaused(r.st, buffer, more, r.nodes);
      assert Drain(st, buffer + more, nodes) == Drain(r.st, buffer + more, r.nodes);
    }
  }

  lemma FeedTwice(d: Drained, a: Bytes, b: Bytes)
    requires d.status.NeedsMore? ==> d.st.Live() && d.st.consumed <= |d.buffer|
    ensures var e, f := Feed(Feed(d, a), b), Feed(d, a + b);
            e == f || (!e.status.NeedsMore? && f == e.(buffer := e.buffer + b))
  {
    if d.status.NeedsMore? {
      DrainResumes(d.st, d.buffer + a, b, d.nodes);
      Regroup(d.buffer, a, b);
      var c := Drain(d.st, d.buffer + a, d.nodes);
      if c.status.NeedsMore? {
        Regroup(d.messages, c.messages, Drain(c.st, c.buffer + b, c.nodes).messages);
      }
    }
  }

  /** The same messages, and the same state of the parser and of the message in progress;
      after an error the unread remainder of the stream does not matter. */
  ghost predicate Same(d: Drained, e: Drained) {
    d.(buffer := "") == e.(buffer := "") && (d.status.NeedsMore? ==> d.buffer == e.buffer)
  }

  lemma {:induction false} ChunksFeedAsOne(d: Drained, chunks: seq<Bytes>)
    requires d.status.NeedsMore? ==> d.st.Live() && d.st.consumed <= |d.buffer|
    requires chunks != []
    ensures Same(FeedAll(d, chunks), Feed(d, Concat(chunks)))
    decreases |chunks|
  {
    if |chunks| == 1 {
      assert chunks[1..] == [] && chunks[0] + "" == chunks[0];
    } else {
      ChunksFeedAsOne(Feed(d, chunks[0]), chunks[1..]);
      FeedTwice(d, chunks[0], Concat(chunks[1..]));
    }
  }

  /** Chunking independence: however the bytes are split across reads, the loop yields the
      messages, node lists and sizes of one pass over the whole stream. */
  lemma ChunkingIndependence(chunks: seq<Bytes>)
    ensures Same(FeedAll(Opening, chunks), Drain(Initial, Concat(chunks), []))
  {
    var d := Drain(Initial, Concat(chunks), []);
    assert [] + d.messages == d.messages;
    if chunks != [] {
      ChunksFeedAsOne(Opening, chunks);
      assert "" + Concat(chunks) == Concat(chunks);
    }
  }

  // ---- Streams of printed values

  ghost function MessageOf(v: Value): Message {
    Message(Preorder(v, 0), |Print(v)|)
  }

  ghost function MessagesOf(vs: seq<Value>): (ms: seq<Message>)
    ensures |ms| == |vs| && forall i :: 0 <= i < |vs| ==> ms[i] == MessageOf(vs[i])
  {
    if vs == [] then [] else [MessageOf(vs[0])] + MessagesOf(vs[1..])
  }

  /** A stream that starts with printed values starts with their messages. */
  lemma {:induction false} DrainOfPrinted(vs: seq<Value>, rest: Bytes)
    requires AllFit(vs, 0)
    ensures Drain(Initial, PrintAll(vs) + rest, []) == Drain(Initial, rest, []).After(MessagesOf(vs))
    decreases vs
  {
    if vs == [] {
      var d := Drain(Initial, rest, []);
      assert "" + rest == rest && [] + d.messages == d.messages;
    } else {
      var v, more := vs[0], PrintAll(vs[1..]) + rest;
      ParserUndoesPrinter(v, more);
      Regroup(Print(v), PrintAll(vs[1..]), rest);
      assert (Print(v) + more)[|Print(v)|..] == more;
      DrainOfPrinted(vs[1..], rest);
      Regroup([MessageOf(v)], MessagesOf(vs[1..]), Drain(Initial, rest, []).messages);
    }
  }

  /** However they are split across reads, printed values arrive as themselves. */
  lemma PrintedValuesArrive(vs: seq<Value>, chunks: seq<Bytes>)
    requires AllFit(vs, 0) && Concat(chunks) == PrintAll(vs)
    ensures FeedAll(Opening, chunks) == Opening.(messages := MessagesOf(vs))
  {
    ChunkingIndependence(chunks);
    DrainOfPrinted(vs, "");
    assert PrintAll(vs) + "" == PrintAll(vs);
    assert Drain(Initial, "", []) == Opening;
    assert MessagesOf(vs) + [] == MessagesOf(vs);
  }
}
