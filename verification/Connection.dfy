// connection_base as a value: its state, and what each of its operations does to it. The
// class in ConnectionImpl.dfy is proved to perform exactly these operations in place.

module Connection {
  import opened Resp3
  import opened Parsing
  import opened Queue

  datatype Usage = Usage(
    commandsSent: nat,
    bytesSent: nat,
    responsesReceived: nat,
    pushesReceived: nat,
    responseBytes: nat,
    pushBytes: nat)

  datatype Conn = Conn(
    reqs: seq<Info>,
    writeBuffer: Bytes,
    readBuffer: Bytes,
    parser: State,
    onPush: bool,
    cancelRunCalled: bool,
    isOpen: bool,
    usage: Usage)
  {
    /** The parser stands somewhere in the buffered bytes of an unfinished message. */
    ghost predicate Readable() {
      parser.Live() && parser.consumed <= |readBuffer|
    }
  }

  function AddRequestInfo(c: Conn, i: Info): Conn {
    c.(reqs := Insert(c.reqs, i))
  }

  /** Whether adding a request cancels the timer the writer may be sleeping on. */
  predicate WakesWriter(c: Conn) {
    c.isOpen && c.writeBuffer == ""
  }

  function Remainders(q: seq<Info>): nat {
    if q == [] then 0 else q[0].remaining + Remainders(q[1..])
  }

  /** Stages every waiting request; the write buffer then goes to the socket if anything
      was staged. */
  function CoalesceRequests(c: Conn): Conn {
    var w := Filter(IsWaiting, c.reqs);
    var buffer := c.writeBuffer + Payloads(w);
    c.(reqs := Stage(c.reqs),
       writeBuffer := buffer,
       usage := c.usage.(commandsSent := c.usage.commandsSent + Remainders(w),
                         bytesSent := c.usage.bytesSent + |buffer|))
  }

  predicate AnyWaiting(c: Conn) {
    Filter(IsWaiting, c.reqs) != []
  }

  function OnWrite(c: Conn): Conn {
    c.(reqs := Write(c.reqs), writeBuffer := "")
  }

  function CancelUnwritten(c: Conn): Conn {
    c.(reqs := Filter(NotWaiting, c.reqs))
  }

  function RemoveRequest(c: Conn, id: nat): Conn {
    c.(reqs := Remove(c.reqs, id))
  }

  /** Guarded against being called more than once between two resets. */
  function CancelRun(c: Conn): Conn {
    if c.cancelRunCalled then c
    else c.(cancelRunCalled := true, isOpen := false, reqs := Lose(c.reqs))
  }

  function Reset(c: Conn): Conn {
    c.(writeBuffer := "", readBuffer := "", parser := Initial, onPush := false, cancelRunCalled := false)
  }

  // ---- Reading

  /** Whether the message that starts the read buffer is not a response to the front request. */
  predicate IsNextPush(c: Conn)
    requires c.readBuffer != ""
  {
    || ToType(c.readBuffer[0]) == Push
    || c.reqs == []
    || c.reqs[0].remaining == 0
    || IsWaiting(c.reqs[0])
  }

  datatype ReadResult = MoreNeeded | PushRead | ResponseRead | ReadError | ReadFault

  datatype Reading = Reading(result: ReadResult, size: nat, conn: Conn, nodes: seq<Node>)

  /** `on_finish_parsing`: counts the message, drops its bytes, and resets the parser. */
  function FinishParsing(c: Conn, push: bool): Conn
    requires c.parser.consumed <= |c.readBuffer|
  {
    var n := c.parser.consumed;
    var u := c.usage;
    c.(usage := if push then u.(pushesReceived := u.pushesReceived + 1, pushBytes := u.pushBytes + n)
                else u.(responsesReceived := u.responsesReceived + 1, responseBytes := u.responseBytes + n),
       onPush := false,
       readBuffer := c.readBuffer[n..],
       parser := Initial)
  }

  /** What every reading does to the connection, whatever was parsed. */
  ghost predicate Fair(c: Conn, r: Reading)
    requires c.readBuffer != ""
  {
    var push := c.onPush || IsNextPush(c);
    var c' := c.(onPush := push, parser := r.conn.parser);
    var u := c.usage;
    match r.result
    case MoreNeeded => r.conn == c'
    case ReadError => r.conn == c'
    case ReadFault => r.conn == c'
    case PushRead =>
      && push && r.size <= |c.readBuffer|
      && r.conn == c.(onPush := false, parser := Initial, readBuffer := c.readBuffer[r.size..],
                      usage := u.(pushesReceived := u.pushesReceived + 1, pushBytes := u.pushBytes + r.size))
    case ResponseRead =>
      && !push && r.size <= |c.readBuffer|
      && r.conn == c.(onPush := false, parser := Initial, readBuffer := c.readBuffer[r.size..],
                      reqs := Answer(c.reqs, r.size),
                      usage := u.(responsesReceived := u.responsesReceived + 1, responseBytes := u.responseBytes + r.size))
  }

  /** `on_read`: parses the buffered bytes into the adapter of the front request, or into
      the push adapter, which has already seen `nodes` of this message. */
  function OnRead(c: Conn, nodes: seq<Node>, rejects: Adapter): (r: Reading)
    requires c.Readable() && c.readBuffer != ""
    ensures Fair(c, r)
  {
    var push := c.onPush || IsNextPush(c);
    var p := Parse(c.parser, c.readBuffer, nodes, rejects);
    var c' := c.(onPush := push, parser := p.st);
    match p.status
    case NeedsMore => Reading(MoreNeeded, 0, c', p.nodes)
    case Failed(_) => Reading(ReadError, 0, c', p.nodes)
    case Rejected => Reading(ReadError, 0, c', p.nodes)
    case Crashed(_) => Reading(ReadFault, 0, c', p.nodes)
    case Finished =>
      var n := p.st.consumed;
      if push then Reading(PushRead, n, FinishParsing(c', true), p.nodes)
      else Reading(ResponseRead, n, FinishParsing(c'.(reqs := Answer(c.reqs, n)), false), p.nodes)
  }

  /** The front request is told to proceed when its reply does not parse or is refused, and when
      its last response is in. */
  function Notified(c: Conn, r: Reading): seq<Info>
    requires c.readBuffer != "" && Fair(c, r)
  {
    match r.result
    case ReadError => if r.conn.onPush then [] else [c.reqs[0]]
    case ResponseRead => if c.reqs[0].remaining == 1 then [c.reqs[0]] else []
    case _ => []
  }
}
