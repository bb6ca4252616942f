# A verified model of Boost.Redis

Boost.Redis multiplexes any number of concurrent `async_exec` calls over one pipelined RESP3
connection. This project models its hard core in Dafny and proves what it is supposed to
guarantee: the incremental RESP3 parser and the request serializer, the connection that queues,
writes, reads and loses requests in any interleaving, and three small companions (`consume_one`,
the tuple adapter, the health checker).

## How it is laid out

**Parsing and printing.** `Resp3`, `Decimal` and `Trees` hold the wire vocabulary, decimal
numbers, and RESP3 values with their encoding and pre-order nodes; `Examples` spells some of it
out. `Parsing` is the parser as a transition function on values; `Parser` is the parser with its
six-slot counter array, proved to compute that function. `RoundTrip` proves that parsing undoes
printing, `Nesting` that it does so exactly within the nesting limit, `Refusals` and `Malformed`
what is reported when an adapter or the parser itself does not accept something, `Stream` that the
way bytes are split across reads does not matter, `Request` that a payload reads back as the
commands pushed.

**The connection.** `Queue` and `Connection` describe the operations of `connection_base` on
values; `ConnectionImpl` is the class that performs them in place, with its binary searches,
stable partitions and loops. `Multiplexer` puts the connection between a writer coroutine, a
reader coroutine, callers and a network, as a step system in which everything may interleave. Its
steps are finer than the handlers of the program: what a handler does without suspending is one or
more steps, and others may come in between. `Phases`, `Conservation`, `Wire`, `Reception`,
`Routing`, `Pushes`, `Accounts`, `Completion`, `Order`, `CallOrder`, `Origins` and `Notices` each
prove that one invariant survives every step; `Runs`, `Exits`, `Progress`, `Matching`, `Loss`,
`EndToEnd` and `Limits` state what follows for whole runs from the initial state.

An *epoch* lasts from a reset to the first `cancel(run)`. A *slot* is a place in the response of a
request: request `id`, index `k`. The log of the step system records, for the current epoch, the
requests as they were staged, the bytes handed to the socket, the bytes received, and each message
with where it went.

**Companions.** `Responses`, `TupleAdapter`, `HealthCheck`.

## What is taken for granted, and what is decided

- A byte is a `char`; `std::size_t` is 64 bits wide. Where the program's behaviour is undefined on
  a header (an empty blob header, a closing part outside a streamed string, a streamed string at
  depth 5, a length or count that wraps around) the parser model yields a `Crash` outcome that
  names the fault, and the step system does not go on from there.
- The health check is modelled for intervals above zero; zero switches it off.
- An adapter is any predicate on the nodes it has been given of a message so far: whether it
  reports an error. Sockets, timers and executors appear only as "open", "a write is in flight",
  "asleep", "woken".
- Matching of responses is a claim about one epoch. A request that is sent again keeps its
  decremented count; `Loss.RetriedSlots` says exactly when that matters and
  `Limits.PartlyAnsweredIsSentInFull` is a run in which it does.
- A reply that arrives while a request without responses is still staged in front, or while
  nothing is owed, is taken for a push. `Limits.ClassificationExact` is the exact rule for one
  message and `Limits.ReplyTakenForPush` such a run; `Matching.EveryReplyReachesItsCommand` says
  for whole epochs that every reply fills the slot of its command if and only if no reply begins
  in that situation.
- A reply that does not parse notifies its request without taking it from the queue and ends the
  epoch: `Limits.NotifiedButQueued` and `Limits.ErrorLeavesRequestQueued`.
- `detail::has_response` is true of the commands that get no response of their own; it is called
  `HasNoResponse` here.
- The documentation says that a server which does not answer a health check within two intervals
  is considered unresponsive (include/boost/redis/connection.hpp:120-126). The code counts from
  the checks, not from the PING, and the model follows the code: `HealthCheck.AgeOfPing` says for
  every run how old a PING is when it is given up, and exactly when that is two intervals or
  more; `GivenUpEarly` and `GivenUpLate` are runs on either side.

## Model

| member | source | states |
|---|---|---|
| `Decimal.ToIntOfToString` | include/boost/redis/resp3/impl/parser.ipp:16-21 | reading a printed number gives it back if and only if it fits a `size_t`, otherwise an error |
| `Decimal.ToIntIgnoresTail` | include/boost/redis/resp3/impl/parser.ipp:16-21 | digits are read up to the first other byte, and the rest is ignored |
| `Examples.CodeOfType` | include/boost/redis/resp3/type.hpp:100-146 | the first byte of every type, in both directions, and its kind; no other byte begins a message |
| `Examples.ReadsString` | include/boost/redis/resp3/impl/parser.ipp:94-107 | a blob with a two-digit length, byte by byte |
| `Examples.ReadsMap` | include/boost/redis/resp3/impl/parser.ipp:186-210 | a map or an attribute of one entry has two elements, byte by byte |
| `Examples.ReadsStreamedString` | include/boost/redis/resp3/impl/parser.ipp:121-154 | the nodes of a streamed string and their depth, byte by byte |
| `Parsing.Commit` | include/boost/redis/resp3/impl/parser.ipp:62-70 | charging one element stops at the sentinel, leaves every open level owing at least one element, or completes the message |
| `Parsing.CommitTop` | include/boost/redis/resp3/impl/parser.ipp:62-70 | the innermost level loses one unit, and when it is exhausted the level below is charged instead |
| `Parsing.ConsumeHeader` | include/boost/redis/resp3/impl/parser.ipp:111-219 | every header, well-formed or not, keeps the stack within its six slots with positive counts |
| `Parsing.Consume` | include/boost/redis/resp3/impl/parser.ipp:72-109 | on any view of any input a node strictly advances the offset, the offset stays within the view, and the stack invariant survives |
| `Parsing.Parse` | include/boost/redis/resp3/parser.hpp:80-100 | the driver loop terminates, ends finished exactly when the parser is done, and never takes back a node |
| `Parsing.ConsumeResumes` | include/boost/redis/resp3/impl/parser.ipp:72-109 | a step that stopped for lack of data may be repeated on the longer view from the state it left; any other step ignores additional bytes |
| `Parsing.ParseResumes` | include/boost/redis/resp3/parser.hpp:80-100 | stopping for more data and resuming equals one call on the longer view, for every adapter |
| `Refusals.RefusalIsReported` | include/boost/redis/resp3/parser.hpp:94-96 | the first node an adapter refuses is the last one it is given, and the parse reports it; it refuses no node of a parse that reports none |
| `Refusals.RejectedExactly` | include/boost/redis/resp3/parser.hpp:80-100 | a parse is rejected if and only if the adapter refuses any node it would be given |
| `Malformed.RefusedExactly` | include/boost/redis/resp3/impl/parser.ipp:111-219 | each of the five errors, if and only if the type, the field and the depth are such |
| `Malformed.BreaksExactly` | include/boost/redis/resp3/impl/parser.ipp:127-145 | each undefined header, if and only if it is one |
| `Malformed.RefusedLineFails` | include/boost/redis/resp3/impl/parser.ipp:82-86 | a refused line stops the parse with its error, with nothing handed over |
| `ParserImpl.Parser.constructor` | include/boost/redis/resp3/impl/parser.ipp:23-26 | a new parser is in the initial state |
| `ParserImpl.Parser.Reset` | include/boost/redis/resp3/impl/parser.ipp:28-36 | reset restores the initial state with the sentinel in slot 0 |
| `ParserImpl.Parser.CommitElem` | include/boost/redis/resp3/impl/parser.ipp:62-70 | the loop over the counter array computes `Commit`, and stops |
| `ParserImpl.Parser.OpenAggregate` | include/boost/redis/resp3/impl/parser.ipp:186-210 | an aggregate header opens a level, closes at once when empty, or is refused for its number or its depth |
| `ParserImpl.Parser.ConsumePart` | include/boost/redis/resp3/impl/parser.ipp:121-135 | a part of length zero ends the streamed string, any other announces a bulk |
| `ParserImpl.Parser.ConsumeBlobHeader` | include/boost/redis/resp3/impl/parser.ipp:136-154 | a blob header opens a streamed string or announces a bulk |
| `ParserImpl.Parser.ConsumeSimple` | include/boost/redis/resp3/impl/parser.ipp:155-185 | a simple value is emitted and charged, or refused when its field is empty or not a boolean |
| `ParserImpl.Parser.ConsumeImpl` | include/boost/redis/resp3/impl/parser.ipp:111-219 | the fields carry out exactly what `ConsumeHeader` says; a refused header changes nothing |
| `ParserImpl.Parser.ConsumePendingBulk` | include/boost/redis/resp3/impl/parser.ipp:94-107 | the announced bytes become a node once they and their separator are there, and not before |
| `ParserImpl.Parser.Consume` | include/boost/redis/resp3/impl/parser.ipp:72-109 | the mutable parser takes the same step as the transition function |
| `ParserImpl.Parse` | include/boost/redis/resp3/parser.hpp:80-100 | the loop over the mutable parser yields the same status, state and nodes as `Parsing.Parse` |
| `RoundTrip.ParserUndoesPrinter` | include/boost/redis/resp3/impl/parser.ipp:57-219 | for every value within the nesting limit, streamed strings included, followed by any bytes: the pre-order nodes with type, depth and size, then done, with exactly the value's bytes consumed |
| `Nesting.NestingLimitIsExact` | include/boost/redis/resp3/impl/parser.ipp:186-210 | a well-formed value is read back as its pre-order nodes if and only if it respects the limit of five embedded levels |
| `RoundTrip.PrefixFree` | include/boost/redis/resp3/impl/parser.ipp:57-219 | a byte string has at most one reading as an encoded value and a remainder |
| `Trees.PreorderInjective` | include/boost/redis/resp3/impl/parser.ipp:111-219 | the pre-order nodes determine the value |
| `Stream.DrainResumes` | include/boost/redis/detail/connection_base.hpp:279-371 | the read loop may stop for lack of data anywhere and go on when more has arrived |
| `Stream.ChunkingIndependence` | include/boost/redis/detail/connection_base.hpp:279-371 | every way of splitting a byte stream into reads yields the messages, node lists, sizes and final state of one pass |
| `Stream.PrintedValuesArrive` | include/boost/redis/detail/connection_base.hpp:279-371 | encoded values, split in any way, arrive as their own pre-order nodes and sizes, with nothing left over |
| `RequestImpl.Request.Clear` | include/boost/redis/request.hpp:101-108 | an empty pipeline without priority |
| `RequestImpl.Request.AddHeader` | include/boost/redis/resp3/impl/serialization.ipp:23-30 | type code, decimal count and separator are appended |
| `RequestImpl.Request.AddBulk` | include/boost/redis/resp3/impl/serialization.ipp:12-21 | the blob encoding of the data is appended |
| `RequestImpl.Request.CheckCmd` | include/boost/redis/request.hpp:309-318 | one more command, one more response unless it gets none, and HELLO takes its priority from the configuration |
| `RequestImpl.Request.Push` | include/boost/redis/request.hpp:145-154 | the payload stays the encoding of the commands pushed, the counters stay their numbers |
| `RequestImpl.Request.PushRangeWithKey` | include/boost/redis/request.hpp:187-211 | one command more: the name, the key, and the elements in order, each pair as its first word and then its second; an empty range changes nothing |
| `RequestImpl.Request.PushRange` | include/boost/redis/request.hpp:240-262 | the same without a key |
| `RequestImpl.Request.AddElement` | include/boost/redis/resp3/serialization.hpp:74-103 | one element of a range is one bulk, a pair two |
| `RequestImpl.PayloadRoundTrip` | include/boost/redis/request.hpp:145-262 | a payload, read in any splitting, is one array of blobs per command, holding exactly its words, and nothing else |
| `RequestImpl.PayloadInjective` | include/boost/redis/request.hpp:145-262 | different pipelines have different payloads |
| `ConnectionImpl.PartitionPoint` | include/boost/redis/detail/connection_base.hpp:777-779 | on a partitioned queue the binary search finds the boundary |
| `ConnectionImpl.StablePartition` | include/boost/redis/detail/connection_base.hpp:536-544 | both parts keep their order |
| `ConnectionImpl.ConnectionBase.AddRequestInfo` | include/boost/redis/detail/connection_base.hpp:728-742 | push back, search from the rear and rotate, together, insert at the back or before the waiting part; the writer's timer is cancelled when the stream is open and no write is going on |
| `ConnectionImpl.ConnectionBase.CoalesceRequests` | include/boost/redis/detail/connection_base.hpp:773-791 | search and loop stage exactly the waiting requests, in order, and account for them |
| `ConnectionImpl.ConnectionBase.CancelPushRequests` | include/boost/redis/detail/connection_base.hpp:710-721 | exactly the staged requests without responses are told to proceed and leave |
| `ConnectionImpl.ConnectionBase.OnWrite` | include/boost/redis/detail/connection_base.hpp:601-618 | requests without responses leave, the other staged ones become written, the buffer is cleared |
| `ConnectionImpl.ConnectionBase.CancelUnwrittenRequests` | include/boost/redis/detail/connection_base.hpp:553-571 | exactly the waiting requests are stopped and leave |
| `ConnectionImpl.ConnectionBase.CancelOnConnLost` | include/boost/redis/detail/connection_base.hpp:522-551 | exactly the requests that may not outlive the connection are stopped, the others wait again |
| `ConnectionImpl.ConnectionBase.CancelRun` | include/boost/redis/detail/connection_base.hpp:581-593 | closes the stream, wakes the writer and drops requests the first time, does nothing after that until a reset |
| `ConnectionImpl.ConnectionBase.RemoveRequest` | include/boost/redis/detail/connection_base.hpp:697-700 | the request leaves, the others stay |
| `ConnectionImpl.ConnectionBase.OnFinishParsing` | include/boost/redis/detail/connection_base.hpp:862-877 | the message is counted, its bytes leave the buffer, the parser is reset |
| `ConnectionImpl.ConnectionBase.OnRead` | include/boost/redis/detail/connection_base.hpp:879-927 | classification, parsing into one adapter, the bookkeeping of a response, and the notification of the front request on an error or its last response, on the mutable parser |
| `ConnectionImpl.ConnectionBase.Reset` | include/boost/redis/detail/connection_base.hpp:929-936 | the requests stay, everything about the old connection goes |
| `Queue.HelloLandsBeforeWaiting` | include/boost/redis/detail/connection_base.hpp:728-742 | a priority request goes exactly to the beginning of the waiting part |
| `Phases.PhaseStep` | include/boost/redis/detail/connection_base.hpp:217-274 | every step keeps the phases of the coroutines consistent with the flags, and the bytes of a write in flight in place |
| `Phases.QueueStep` | include/boost/redis/detail/connection_base.hpp:728-791 | every step keeps written, staged and waiting requests in that order |
| `Phases.QueueOrderAndNoLostWakeUp` | include/boost/redis/detail/connection_base.hpp:229-274 | in every reachable state the queue is written, then staged, then waiting, and a writer that sleeps with no wake-up pending has nothing to write |
| `Runs.RequestConservation` | include/boost/redis/detail/connection_base.hpp:553-571 | in every reachable state each request added is in the queue once or has left once, by one of proceeding, being stopped, being removed; no identity appears out of nothing |
| `Runs.ProceedsWhenComplete` | include/boost/redis/detail/connection_base.hpp:918-924 | in every reachable state a request that proceeded got every response it was to get, and one that was stopped or removed lacks at least one, unless it was to get none |
| `Runs.ProceedsOnlyIfSent` | include/boost/redis/detail/connection_base.hpp:607-617 | no request proceeds that was never handed to the socket |
| `Runs.NothingLingers` | include/boost/redis/detail/connection_base.hpp:710-721 | a written request still has an open slot; with no write in flight, so has every request on the wire |
| `Exits.ExecExactly` | include/boost/redis/detail/connection_base.hpp:122-131 | a request is queued, waiting and with all its responses to come, and no other is touched, unless it refuses to wait for a connection and there is none |
| `Exits.CancelExecExactly` | include/boost/redis/detail/connection_base.hpp:553-571 | every waiting request leaves, stopped and notified, and no other |
| `Exits.CancelOneExactly` | include/boost/redis/detail/connection_base.hpp:697-700 | exactly the cancelled request leaves, without a notification |
| `Exits.CancelRunExactly` | include/boost/redis/detail/connection_base.hpp:522-551 | the first `cancel(run)` stops and notifies every request its flag does not let outlive the connection, and no other leaves |
| `Exits.ErrorsEndTheEpoch` | include/boost/redis/detail/connection_base.hpp:238-243 | a failed read, a failed write and `cancel(run)` end the epoch with the same loss |
| `Exits.WrittenExactly` | include/boost/redis/detail/connection_base.hpp:601-618 | a completed write lets every request on the wire without responses proceed, and no other leave |
| `Runs.SentInCallOrder` | include/boost/redis/detail/connection_base.hpp:728-742 | within an epoch, requests without priority are sent in the order they were given in |
| `Progress.WriterCatchesUp` | include/boost/redis/detail/connection_base.hpp:229-274 | from every state of an epoch at most two steps of the writer put everything that waits on the wire |
| `Progress.WriterSleeps` | include/boost/redis/detail/connection_base.hpp:263-271 | with nothing to write the writer sleeps, and only a new request or the end of the epoch wakes it |
| `Progress.WakesUnlessWriting` | include/boost/redis/detail/connection_base.hpp:740-741 | in an epoch a new request cancels the writer's timer unless bytes are being written |
| `Progress.DispatchMovesOn` | include/boost/redis/detail/connection_base.hpp:294-345 | a dispatch completes a message, ends the epoch, or waits for bytes, and waits only if those there are not a whole message |
| `Runs.OrderIsKept` | include/boost/redis/detail/connection_base.hpp:728-742 | no run swaps two requests that stay in the queue |
| `Runs.FifoDelivery` | include/boost/redis/detail/connection_base.hpp:879-927 | the slots filled, followed by those still owed in queue order, are the slots of everything put on the wire in wire order |
| `Runs.SlotsOfOneRequest` | include/boost/redis/detail/connection_base.hpp:634-638 | the slots of one request, filled and owed, run up to the last without gap or repetition |
| `Runs.WireFaithfulness` | include/boost/redis/detail/connection_base.hpp:773-791 | the bytes sent in an epoch are the payloads in staging order, each request once and contiguous; `bytes_sent` grows by their length; a write in flight is not touched |
| `Runs.ResponseConservation` | include/boost/redis/detail/connection_base.hpp:862-877 | commands sent minus responses received is what the requests on the wire still wait for |
| `Runs.ByteConservation` | include/boost/redis/detail/connection_base.hpp:862-877 | bytes received are response bytes, push bytes and the buffer; the parser stands within the buffer; every request's read size is the sum of the sizes of its own responses, also when it is reported |
| `Runs.ReaderIsReady` | include/boost/redis/detail/connection_base.hpp:294-342 | `on_read` is never called on an empty buffer or with the parser outside it |
| `Runs.MessagesAreTheStream` | include/boost/redis/detail/connection_base.hpp:279-371 | under every interleaving the messages dispatched are those of one pass over the bytes received |
| `Runs.PushesFillNoSlot` | include/boost/redis/detail/connection_base.hpp:816-851 | a message of push type never fills a response slot |
| `Runs.ValuesAreDispatched` | include/boost/redis/detail/connection_base.hpp:279-371 | when the bytes received encode values and the reader has caught up, each value was dispatched in order as its pre-order nodes, and nothing is left over |
| `Matching.EveryReplyReachesItsCommand` | include/boost/redis/detail/connection_base.hpp:816-927 | in such an epoch every push went to the push adapter and the j-th reply into the j-th slot on the wire, if and only if no reply began while the front request had no slot open for it |
| `Matching.AstrayIsUnasked` | include/boost/redis/detail/connection_base.hpp:816-851 | if every request expects a response, a reply is misplaced only when nothing at all is owed |
| `Matching.AstrayBetweenWrites` | include/boost/redis/detail/connection_base.hpp:816-851 | whatever the requests expect, with no write in flight a reply is misplaced only when nothing is owed |
| `Runs.ClassificationIsStable` | include/boost/redis/detail/connection_base.hpp:816-927 | between two reads of one message no addition, staging, write, cancellation, removal or arrival changes the front request or the decision |
| `EndToEnd.ServerReadsTheCommands` | include/boost/redis/detail/connection_base.hpp:773-791 | if the requests executed were built by pushing commands, what the server parses from the bytes of an epoch, split in any way, is exactly the commands of the staged requests in order; as many slots are waited for as commands get a response, if and only if none of the requests had been answered in part |
| `EndToEnd.SlotOfCommand` | include/boost/redis/detail/connection_base.hpp:634-638 | the i-th slot of a request stands among all slots on the wire where the i-th of its commands with a response stands among all such commands |
| `Loss.LossKeepsSurvivors` | include/boost/redis/detail/connection_base.hpp:522-551 | a request outlives the connection if and only if its flag allows it; survivors wait, in their old order; a second `cancel(run)` changes nothing |
| `Loss.LateWriteIsHarmless` | include/boost/redis/detail/connection_base.hpp:601-618 | a write that completes after `cancel(run)` changes no request |
| `Loss.NextEpochSendsSurvivors` | include/boost/redis/detail/connection_base.hpp:773-791 | the next epoch begins by sending everything left, in queue order |
| `Loss.RetriedSlots` | include/boost/redis/detail/connection_base.hpp:546-548 | the slots of a request that is sent again begin after the responses it already got; it waits for all of them if and only if it got none |
| `Loss.PartlyReadSlotIsFilledAgain` | include/boost/redis/detail/connection_base.hpp:929-936 | a reply only partly read when the connection is lost is forgotten, and its slot, which has the first nodes, is the next one its request waits for |
| `Limits.PartlyAnsweredIsSentInFull` | include/boost/redis/detail/connection_base.hpp:546-548 | a run in which two commands are sent again and one response is waited for |
| `Limits.ClassificationExact` | include/boost/redis/detail/connection_base.hpp:816-851 | a new message goes to the first open slot, unless it is a push, or nothing is owed, or the front request expects nothing |
| `Limits.ReplyTakenForPush` | include/boost/redis/detail/connection_base.hpp:842-843 | a run in which a reply goes to the push adapter although a response is owed |
| `Limits.NotifiedOnce` | include/boost/redis/detail/connection_base.hpp:641-649 | in a run without replies that fail to parse, a queued request has not been notified, one that has left was notified exactly once, or never if its caller removed it |
| `Limits.NotifiedButQueued` | include/boost/redis/detail/connection_base.hpp:912-916 | such a reply ends the epoch, and its request stays queued if and only if it may outlive the connection |
| `Limits.ErrorLeavesRequestQueued` | include/boost/redis/detail/connection_base.hpp:912-916 | a run in which a request was told of an error and is queued |
| `Limits.ReplyErrorExactly` | include/boost/redis/detail/connection_base.hpp:909-916 | a reply ends the epoch with an error if and only if it does not parse or its adapter refuses a node of it |
| `Limits.RefusedReplyIsAnError` | include/boost/redis/detail/connection_base.hpp:912-916 | a run in which a well-formed reply is refused: the request is told, no response is counted |
| `Responses.GenericResponse.OnNode` | include/boost/redis/adapter/detail/adapters.hpp:95-107 | a node is appended, an error node replaces everything, a node after an error throws |
| `Responses.CollectExact` | include/boost/redis/adapter/detail/adapters.hpp:95-107 | nodes without errors are kept as they came; the first error replaces them, further errors replace it, and any other node after it throws |
| `Responses.GenericResponse.ConsumeOne` | include/boost/redis/impl/response.ipp:14-38 | the nodes up to the next root leave; a vector that does not begin with a root is refused |
| `Responses.ConsumeOneDropsOneMessage` | include/boost/redis/impl/response.ipp:14-38 | k calls leave the messages after the k-th, for every k, if and only if no message is a top-level streamed string |
| `Responses.StreamedGoesToo` | include/boost/redis/impl/response.ipp:33-37 | one call drops a message and the streamed string behind it |
| `TupleAdapter.StaticAggregateAdapter.Count` | include/boost/redis/adapter/detail/result_traits.hpp:119-133 | the index and the count of remaining nodes after a node, with the wrap-around of the count |
| `TupleAdapter.StaticAggregateAdapter.OnNode` | include/boost/redis/adapter/detail/result_traits.hpp:135-150 | the root is checked against the tuple size, any other node goes to the current element |
| `TupleAdapter.TupleRouting` | include/boost/redis/adapter/detail/result_traits.hpp:119-150 | the answers to the whole reply: only a tuple of the right size is accepted, and every node of the k-th element goes to the k-th adapter, with the index at the tuple size in the end, if and only if each element is one node or a non-empty aggregate of one-node elements |
| `TupleAdapter.NestedGoesAstray` | include/boost/redis/adapter/detail/result_traits.hpp:119-133 | a nested array whose last node is taken for the next element |
| `HealthCheck.HealthChecker.OnPong` | include/boost/redis/detail/health_checker.hpp:46-56 | a reply is kept and the next PING is due one interval later |
| `HealthCheck.HealthChecker.OnExecFailed` | include/boost/redis/detail/health_checker.hpp:48-53 | a failed PING ends both coroutines |
| `HealthCheck.HealthChecker.OnPingTimer` | include/boost/redis/detail/health_checker.hpp:38-47 | the next PING goes out unless the check has given up |
| `HealthCheck.HealthChecker.OnCheckTimer` | include/boost/redis/detail/health_checker.hpp:79-112 | an error ends the check and with it the pinging, no reply cancels the connection, a reply is cleared and two more intervals are waited |
| `HealthCheck.NoFalseAlarm` | include/boost/redis/detail/health_checker.hpp:38-108 | over runs of any length, with gaps between replies below two intervals, or replies within one interval, the check never gives up |
| `HealthCheck.SilenceIsDetected` | include/boost/redis/detail/health_checker.hpp:79-108 | in every run without failed PINGs and error replies, once the last reply is more than four intervals ago the connection has been cancelled, at least two and at most four intervals after it |
| `HealthCheck.SilenceCanLast` | include/boost/redis/detail/health_checker.hpp:38-108 | from every state of a check that goes on, the timers alone lead to that point |
| `HealthCheck.CheckEndsQuietly` | include/boost/redis/detail/health_checker.hpp:90-94 | the check ends without cancelling only after an error reply, possibly a leftover one, or a failed PING |
| `HealthCheck.ErrorEndsCheck` | include/boost/redis/detail/health_checker.hpp:90-94 | a run in which an error reply ends the check and nothing is cancelled |
| `HealthCheck.AgeOfPing` | include/boost/redis/detail/health_checker.hpp:79-108 | the PING given up is the first one, exactly two intervals old or four after a leftover reply, or one between one and three intervals old, and at least two if and only if the last reply came an interval or more before the preceding check |
| `HealthCheck.PingIsNotWaitedForLonger` | include/boost/redis/detail/health_checker.hpp:38-108 | while the check goes on, no PING but the first is more than three intervals old |
| `HealthCheck.GivenUpEarly` | include/boost/redis/detail/health_checker.hpp:79-108 | a run that gives up on a PING little more than one interval old |
| `HealthCheck.GivenUpLate` | include/boost/redis/detail/health_checker.hpp:79-108 | a run that waits three intervals for a PING |

## Left out

- Sockets, TLS, name resolution, connecting, handshakes, executors and timers as objects: foreign code.
- `reconnection_op`, `runner_op`, `run_all_op`, `hello_op`: they only sequence other operations, and appear as connecting, starting and a priority request.
- The receive channel: its capacity and back-pressure belong to foreign code; a push is done once it is dispatched.
- Per-operation cancellation beyond removing a waiting request and ending the epoch: the completion of a request whose terminal cancellation ends the epoch is not told apart from its place in the queue, and a cancelled `async_run` that ends reader and writer without `cancel(run)` (connection_base.hpp:246-250, 334-338) is not a run of the step system.
- What the end of a health check does to a PING still in progress, beyond that no further one is sent.
- `get_suggested_buffer_growth`, `append_some_op`, `deserialize`: a read is any non-empty chunk; they would only add easy members.
- Conversion of arguments other than strings and pairs of strings to bulks, and the remaining container adapters.
- Counters of usage and lengths of payloads are unbounded; only the parser's lengths and counts and the tuple adapter's count are `size_t` values.
- Logger, error category, configuration defaults.
