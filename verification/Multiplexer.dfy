// The connection at work: the writer and reader coroutines, the callers of async_exec and
// cancel, and the network, interleaved in any order.

module Multiplexer {
  import opened Resp3
  import opened Decimal
  import opened Parsing
  import opened Queue
  import opened Connection
  import opened Stream

  /** The writer coroutine: not running, about to coalesce, with a write of these bytes in
      flight, or waiting on its timer, possibly with the timer already cancelled. */
  datatype Writer = WriterOff | Running | Writing(chunk: Bytes) | Asleep(woken: bool)

  /** The reader coroutine: not running, with a read in flight, or about to call on_read. */
  datatype Reader = ReaderOff | InFlight | Ready

  /** Where a message goes: to the push adapter, or to a response slot of a request. */
  datatype Sink = ToPush | ToSlot(slot: Slot)

  datatype Routed = Routed(sink: Sink, message: Message)

  /** How a request leaves the queue. */
  datatype Exit = Proceeded | Stopped | Removed

  /** `size` is the number of bytes async_exec reports as read; `expected` is the number of
      responses the request was to get. */
  datatype Departure = Departure(id: nat, exit: Exit, size: nat, expected: nat)

  /** What has happened: the identities given out, the requests that left, those told of an
      error, every notification in order. Then, for the current epoch, which begins with a reset:
      requests as they were staged before it and in it, bytes handed to the socket, bytes read,
      messages dispatched before it and in it, the sink and nodes of the message in progress, and
      the counters at the reset. */
  datatype Log = Log(
    nextId: nat,
    left: seq<Departure>,
    failed: seq<nat>,
    notices: seq<nat>,
    before: seq<Info>,
    staged: seq<Info>,
    sent: Bytes,
    received: Bytes,
    past: seq<Routed>,
    routed: seq<Routed>,
    sink: Option<Sink>,
    nodes: seq<Node>,
    base: Usage)

  datatype System = System(conn: Conn, writer: Writer, reader: Reader, log: Log)

  const NoUsage: Usage := Usage(0, 0, 0, 0, 0, 0)

  const Boot: System := System(
    Conn([], "", "", Initial, false, false, false, NoUsage), WriterOff, ReaderOff,
    Log(0, [], [], [], [], [], "", "", [], [], None, [], NoUsage))

  datatype Action =
    | Exec(req: Req)                 // async_exec
    | CancelExec                     // cancel(operation::exec)
    | CancelRunning                  // cancel(operation::run), or a terminal cancellation of a written request
    | CancelOne(id: nat)             // cancellation of one async_exec that has not been written
    | Connect                        // the stream is opened
    | Start                          // run_op: reset, then reader and writer
    | Coalesce                       // the writer stages and writes, or goes to sleep
    | WriteDone                      // a write completes, in time or late
    | WriteFailed
    | WriterCancelled
    | WakeWriter                     // the cancelled timer resumes the writer
    | ReadDone(chunk: Bytes)         // bytes arrive
    | ReadFailed                     // end of file or error
    | Dispatch(rejects: Adapter)     // the reader calls on_read

  function Leave(i: Info, e: Exit): Departure {
    Departure(i.id, e, if e.Proceeded? then i.readSize else 0, i.req.expected)
  }

  function Departures(q: seq<Info>, e: Exit): seq<Departure> {
    if q == [] then [] else [Leave(q[0], e)] + Departures(q[1..], e)
  }

  function Wake(w: Writer): Writer {
    if w.Asleep? then Asleep(true) else w
  }

  function CurrentSink(c: Conn): Sink
    requires c.readBuffer != ""
  {
    if c.onPush || IsNextPush(c) then ToPush
    else
      var i := c.reqs[0];
      ToSlot(Slot(i.id, if i.remaining <= i.req.expected then i.req.expected - i.remaining else 0))
  }

  // ---- Steps

  function DoExec(s: System, req: Req): System {
    if req.cancelIfNotConnected && !s.conn.isOpen then s
    else
      s.(conn := AddRequestInfo(s.conn, Info(s.log.nextId, req, req.expected, Waiting, 0)),
         writer := if WakesWriter(s.conn) then Wake(s.writer) else s.writer,
         log := s.log.(nextId := s.log.nextId + 1))
  }

  function DoCancelExec(s: System): System {
    s.(conn := CancelUnwritten(s.conn),
       log := s.log.(left := s.log.left + Departures(Filter(IsWaiting, s.conn.reqs), Stopped),
                     notices := s.log.notices + Ids(Filter(IsWaiting, s.conn.reqs))))
  }

  /** cancel(run) closes the stream, wakes the writer, and stops the requests that do not
      outlive the connection. */
  function DoCancelRun(s: System): System {
    if s.conn.cancelRunCalled then s
    else
      s.(conn := CancelRun(s.conn),
         writer := Wake(s.writer),
         log := s.log.(left := s.log.left + Departures(Filter(Perishes, s.conn.reqs), Stopped),
                       notices := s.log.notices + Ids(Filter(Perishes, s.conn.reqs))))
  }

  function DoCancelOne(s: System, id: nat): System {
    s.(conn := RemoveRequest(s.conn, id),
       log := s.log.(left := s.log.left + Departures(Filter((i: Info) => HasId(id, i), s.conn.reqs), Removed)))
  }

  function DoStart(s: System): System {
    s.(conn := Reset(s.conn), writer := Running, reader := InFlight,
       log := s.log.(before := s.log.before + s.log.staged, staged := [],
                     sent := "", received := "", past := s.log.past + s.log.routed,
                     routed := [], sink := None, nodes := [], base := s.conn.usage))
  }

  function DoCoalesce(s: System): System {
    if !s.conn.isOpen then s.(writer := WriterOff)
    else
      var c := CoalesceRequests(s.conn);
      if AnyWaiting(s.conn) then
        s.(conn := c, writer := Writing(c.writeBuffer),
           log := s.log.(staged := s.log.staged + Filter(IsWaiting, s.conn.reqs),
                         sent := s.log.sent + c.writeBuffer))
      else s.(conn := c, writer := Asleep(false))
  }

  function DoWriteDone(s: System): System {
    s.(conn := OnWrite(s.conn), writer := Running,
       log := s.log.(left := s.log.left + Departures(Filter(Answerless, s.conn.reqs), Proceeded),
                     notices := s.log.notices + Ids(Filter(Answerless, s.conn.reqs))))
  }

  function DoReadDone(s: System, chunk: Bytes): System {
    if !s.conn.isOpen then s.(reader := ReaderOff)
    else
      s.(conn := s.conn.(readBuffer := s.conn.readBuffer + chunk), reader := Ready,
         log := s.log.(received := s.log.received + chunk))
  }

  /** What the reader does with the result of on_read. */
  function Resume(s: System, r: Reading): System
    requires s.conn.readBuffer != "" && Fair(s.conn, r)
  {
    var sink := CurrentSink(s.conn);
    var again := if r.conn.readBuffer == "" then InFlight else Ready;
    match r.result
    case MoreNeeded =>
      s.(conn := r.conn, reader := InFlight, log := s.log.(sink := Some(sink), nodes := r.nodes))
    case PushRead =>
      s.(conn := r.conn, reader := again, log := Dispatched(s.log, sink, r))
    case ResponseRead =>
      s.(conn := r.conn, reader := again,
         log := Dispatched(s.log, sink, r).(
           left := s.log.left + Completed(s.conn.reqs[0], r.size),
           notices := s.log.notices + Ids(Notified(s.conn, r))))
    case ReadError =>
      var told := Ids(Notified(s.conn, r));
      DoCancelRun(s.(conn := r.conn,
                     log := s.log.(nodes := r.nodes, failed := s.log.failed + told, notices := s.log.notices + told)))
        .(reader := ReaderOff)
    case ReadFault => s
  }

  function DoDispatch(s: System, rejects: Adapter): System
    requires s.conn.isOpen ==> s.conn.Readable() && s.conn.readBuffer != ""
  {
    if !s.conn.isOpen then s.(reader := ReaderOff) else Resume(s, OnRead(s.conn, s.log.nodes, rejects))
  }

  /** The front request is complete once its last response is in. */
  function Completed(i: Info, size: nat): seq<Departure> {
    if i.remaining == 1 then [Departure(i.id, Proceeded, i.readSize + size, i.req.expected)] else []
  }

  function Dispatched(l: Log, sink: Sink, r: Reading): Log {
    l.(routed := l.routed + [Routed(sink, Message(r.nodes, r.size))], sink := None, nodes := [])
  }

  // ---- Which steps can happen

  predicate QueuedWaiting(q: seq<Info>, id: nat) {
    exists i :: 0 <= i < |q| && q[i].id == id && IsWaiting(q[i])
  }

  ghost predicate Enabled(s: System, a: Action) {
    match a
    case Exec(_) => true
    case CancelExec => true
    case CancelRunning => true
    case CancelOne(id) => QueuedWaiting(s.conn.reqs, id)
    case Connect => s.writer.WriterOff? && s.reader.ReaderOff?
    case Start => s.writer.WriterOff? && s.reader.ReaderOff? && s.conn.isOpen
    case Coalesce => s.writer.Running?
    case WriteDone => s.writer.Writing?
    case WriteFailed => s.writer.Writing?
    case WriterCancelled => s.writer.Writing? && s.conn.cancelRunCalled
    case WakeWriter => s.writer == Asleep(true)
    case ReadDone(chunk) => s.reader.InFlight? && chunk != ""
    case ReadFailed => !s.reader.ReaderOff?
    case Dispatch(rejects) =>
      s.reader.Ready? && (s.conn.isOpen ==>
        s.conn.Readable() && s.conn.readBuffer != "" && OnRead(s.conn, s.log.nodes, rejects).result != ReadFault)
  }

  function Next(s: System, a: Action): System
    requires Enabled(s, a)
  {
    match a
    case Exec(req) => DoExec(s, req)
    case CancelExec => DoCancelExec(s)
    case CancelRunning => DoCancelRun(s)
    case CancelOne(id) => DoCancelOne(s, id)
    case Connect => s.(conn := s.conn.(isOpen := true))
    case Start => DoStart(s)
    case Coalesce => DoCoalesce(s)
    case WriteDone => DoWriteDone(s)
    case WriteFailed => DoCancelRun(s).(writer := WriterOff)
    case WriterCancelled => s.(writer := WriterOff)
    case WakeWriter => s.(writer := Running)
    case ReadDone(chunk) => DoReadDone(s, chunk)
    case ReadFailed => DoCancelRun(s).(reader := ReaderOff)
    case Dispatch(rejects) => DoDispatch(s, rejects)
  }

  /** `s'` is reached from `s` by these actions. */
  ghost predicate Leads(s: System, actions: seq<Action>, s': System)
    decreases |actions|
  {
    if actions == [] then s == s'
    else Enabled(s, actions[0]) && Leads(Next(s, actions[0]), actions[1..], s')
  }
}
