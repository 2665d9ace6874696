# Verified models of xnet

This project models the HTTP/2 engine, the BPF assembler and virtual machine and
the HTML comment printer and tokenizer of `xnet` in Dafny, and proves what they
promise over all inputs and all runs.

- Write schedulers. `Frames` is the splitting of DATA frames, `WriteQueues` the
  two-stage queues, their pool and the rings. `RoundRobin` and `Rfc9218` are the
  linked schedulers, proved to take the steps of `RoundRobinSpec` and
  `Rfc9218Spec`, about which order, fairness and, through `SchedSpec`, frame
  fidelity are proved. The RFC 7540 scheduler is a linked tree of nodes
  (`PriorityNode`, `PriorityTree`, `PriorityPop`) whose meaning is a map of
  parents (`DependencyTree`); `PriorityRuns` is about any sequence of calls.
- Server connection. `ServerConn` is the serve loop, one method per case of its
  select, with handlers and the frame writer as calls in any order. `ServerState`,
  `Sums` and `Flow` hold the facts that need no heap. Every call of the scheduler
  may have any outcome that its interface allows.
- Response-header markers. `MarkerRing` and `BufferedWriter` are the buffered
  writer with its byte counters, ring of offsets and events; `ResponseHeaders`
  sends a whole header block through the Framer and this writer.
- Client header lock. `ClientConn` is the client connection, one method per step
  that a goroutine takes without letting go of a lock, in any interleaving;
  `ClientState` holds its invariants.
- Framing. `Framing` has the writers' bytes, the parsers and the order of frames,
  `FramerIO` the Framer and header blocks split over frames.
- Body buffer. `DataBuffer` is the chunked buffer as a byte queue.
- BPF. `Bpf` is the assembler and disassembler, `BpfVM` the machine, `BpfMeaning`
  what a program means after it went through machine code.
- HTML. `HtmlEscape` is escaping and unescaping in place, `HtmlComment` the
  comment states of the standard, `HtmlTokenizer` the tokenizer's comment path.

Preconditions that stand for panics are named at each member. A member whose
contract relates the new state to the old one by a specification function is
followed by lemmas about that function.

## Findings

- A closed stream of the RFC 7540 scheduler can be on both lists of kept nodes.
  If it is discarded through one list and its id is opened again, discarding it
  through the other takes the new, open stream out of the map
  (`CloseLosesNode`, `AdjustLosesNode`). The map and the tree agree exactly until
  such a discard (`ExactRun`), which cannot happen if no closed stream is reopened
  (`RunTidy`).
- A handler that reads from the body of a closed stream credits bytes a second
  time. The receive ledger is exact with these late reads, which never exceed what
  was refunded; only after one can the connection's window overflow, and
  `CreditedTwice` is a run in which it does. `BodyRead` and `ProcessReset` panic if
  and only if the bytes do not fit; `ProcessData` never does.
- A PUSH_PROMISE whose block does not fit into one fragment is refused by this
  package's own reader (`PromiseInOrder`), and above 16380 bytes its frame is
  longer than a peer with the least frame size accepts (`PromiseFits`).
- An armed marker whose frame is empty, with nothing buffered, is the one case in
  which a successful Flush leaves a marker and counts an accounting error. It cannot
  happen on a connection: `Framer.EndWrite` hands over at least nine bytes, and
  `WriteResponse` never leaves such a marker.
- A client request that fails to get a slot gives its reservation back twice
  (`ReservationTakenTwice`); `Unreserve` says exactly when that takes another
  caller's.
- After assembling and disassembling, an accepted BPF instruction means the same
  exactly unless it is an absolute load above 0xffffefff, which becomes an extension,
  a raw form of a known instruction, which becomes that instruction, or an operator
  outside the package's constants, which the machine ignores and whose machine code
  has an effect (`ExactlyKeepsMeaning`). Some such operators keep their meaning:
  their machine code is a jump that goes nowhere, or a known operator with an operand
  that changes nothing.
- Printed HTML comments come back unchanged exactly without carriage returns and
  NUL bytes (`ReadsBackUnchanged`, and through the tokenizer `ReadPrinted`).
- The parser accepts a PUSH_PROMISE that promises stream 0, which no writer sends
  (`ParsedIsLegal`, `PromiseOfZero`). An empty header block is written as no frame at all.

## Model

| member | source | states |
|---|---|---|
| `Frames.Consume` | xnet/http2/writesched.go:108-160 | a DATA frame is taken exactly if the limit, the frame size and both windows allow a byte; what is taken fits all of them and is charged to both windows; a split frame's two payloads concatenate to the original, and END_STREAM and the done channel stay on the rest; other frames pass whole and free of charge |
| `Frames.SplitKeepsTokens` | xnet/http2/writesched.go:108-160 | as a sequence of payload bytes, end marks and whole frames, the two halves of a split frame are the frame |
| `Frames.ConsumeKeepsTokens` | xnet/http2/writesched.go:245-259 | what writeQueue.consume dequeues, followed by what stays queued, is what was queued |
| `Frames.ConsumeQueueDebit` | xnet/http2/writesched.go:108-160 | the windows lose exactly the payload of the dequeued frame, which fits every limit; other streams' windows do not change |
| `WriteQueues.WriteQueue.Push` | xnet/http2/writesched.go:214-216 | the two-stage queue is a plain queue: the frame joins its end |
| `WriteQueues.WriteQueue.Shift` | xnet/http2/writesched.go:218-229 | the first frame leaves, also when the second stage has to take over; the panic on an empty queue is the precondition |
| `WriteQueues.WriteQueue.Peek` | xnet/http2/writesched.go:231-239 | the first frame of the whole queue, if there is one |
| `WriteQueues.WriteQueue.ConsumeUpTo` | xnet/http2/writesched.go:245-259 | the queue, the frame and the windows are those of ConsumeQueue on the queue's contents |
| `WriteQueues.PoolPut` | xnet/http2/writesched.go:264-275 | the pool keeps distinct, empty queues |
| `WriteQueues.PoolGet` | xnet/http2/writesched.go:278-288 | an empty queue that is in no other place of the pool, taken from it or new |
| `WriteQueues.Insert` | xnet/http2/writesched_roundrobin.go:39-57 | a queue put before the head of a circular doubly linked list is the last of the ring, and the ring stays complete |
| `WriteQueues.Remove` | xnet/http2/writesched_roundrobin.go:59-76 | unlinking any queue of a ring leaves the complete ring of the others in order, starting at the next one if the head went |
| `SchedSpec.Fidelity` | xnet/http2/writesched.go:9-38 | over any run of a scheduler during which the stream stays open, the bytes, END_STREAM flags, done channels and whole frames sent on it, followed by those still queued, are those queued at first followed by those pushed, in order |
| `SchedSpec.NextFidelity` | xnet/http2/writesched.go:9-38 | one call moves tokens of a stream from the caller to the queues or from the queues to the wire, and never past each other |
| `SchedSpec.WindowsPayForData` | xnet/http2/writesched.go:108-160 | over any run without outside changes of the windows, the connection window loses exactly the DATA payload sent and does not become negative |
| `RoundRobin.Scheduler.constructor` | xnet/http2/writesched_roundrobin.go:32-37 | the scheduler starts as the empty ring and the empty queues |
| `RoundRobin.Scheduler.OpenStream` | xnet/http2/writesched_roundrobin.go:39-57 | for all windows the linked ring, pool and map do what the step of the specification does: the stream comes last |
| `RoundRobin.Scheduler.CloseStream` | xnet/http2/writesched_roundrobin.go:59-76 | the linked structure takes the specification's step: the stream and its queue are gone, the order of the others is kept, unknown streams are ignored |
| `RoundRobin.Scheduler.Push` | xnet/http2/writesched_roundrobin.go:80-97 | the linked structure takes the specification's step: the frame joins its stream's queue, or the control queue |
| `RoundRobin.Scheduler.Pop` | xnet/http2/writesched_roundrobin.go:99-119 | the loop over the ring returns the specification's frame and leaves its state: control frames first, else the first ready stream from the head, and the ring turned past it |
| `RoundRobinSpec.StepRefines` | xnet/http2/writesched_roundrobin.go:39-119 | every call is one that the scheduler interface allows, with the outcome it allows, and a failing Pop means that no stream is ready |
| `RoundRobinSpec.StepValid` | xnet/http2/writesched_roundrobin.go:39-119 | every call keeps the ring free of repetitions and equal to the set of open streams, each queue holding only its stream's frames |
| `RoundRobinSpec.RoundRobinFidelity` | xnet/http2/writesched_roundrobin.go:39-119 | frame fidelity (SchedSpec.Fidelity) of every run of the round-robin scheduler |
| `RoundRobinSpec.PlaceNeverGrows` | xnet/http2/writesched_roundrobin.go:39-119 | no call on other streams moves a stream back in the ring, and a Pop that finds it ready serves it or moves it forward |
| `RoundRobinSpec.BoundedWaiting` | xnet/http2/writesched_roundrobin.go:99-119 | a stream that stays ready is served within as many Pops as there are streams in front of it, plus one, whatever other calls are made |
| `Rfc9218.Scheduler.constructor` | xnet/http2/writesched_priority_rfc9218.go:42-47 | the scheduler starts with sixteen empty rings |
| `Rfc9218.Scheduler.OpenStream` | xnet/http2/writesched_priority_rfc9218.go:49-72 | for all windows the linked rings take the specification's step: the stream comes last in the ring of its urgency and incremental flag |
| `Rfc9218.Scheduler.CloseStream` | xnet/http2/writesched_priority_rfc9218.go:74-92 | the linked rings take the specification's step: the stream leaves its ring, the others keep their order, unknown streams are ignored |
| `Rfc9218.Scheduler.AdjustStream` | xnet/http2/writesched_priority_rfc9218.go:94-133 | the linked rings take the specification's step: the stream moves from its ring to the end of the other with its queue intact, unknown streams are ignored |
| `Rfc9218.Scheduler.Push` | xnet/http2/writesched_priority_rfc9218.go:135-152 | the linked rings take the specification's step: the frame joins its stream's queue, or the control queue |
| `Rfc9218.Scheduler.Pop` | xnet/http2/writesched_priority_rfc9218.go:154-209 | the nested loops return the specification's frame and leave its state |
| `Rfc9218Spec.StepValid` | xnet/http2/writesched_priority_rfc9218.go:49-209 | every call keeps each open stream in exactly the ring of its recorded urgency and incremental flag, once |
| `Rfc9218Spec.StepRefines` | xnet/http2/writesched_priority_rfc9218.go:49-209 | every call is one that the scheduler interface allows, with the outcome it allows |
| `Rfc9218Spec.ServesMostUrgent` | xnet/http2/writesched_priority_rfc9218.go:154-209 | sections 4.1 and 4.2 of RFC 9218: with no control frame queued a Pop fails if and only if no stream is ready, and otherwise serves a stream of the most urgent level with a ready one, of the class whose turn it is if that class has one, and of its ring the first |
| `Rfc9218Spec.ClassesAlternate` | xnet/http2/writesched_priority_rfc9218.go:154-209 | while both classes stay ready at the most urgent level, consecutive Pops serve them in turn, whatever other calls come in between |
| `Rfc9218Spec.IncrementalIsServed` | xnet/http2/writesched_priority_rfc9218.go:154-209 | bounded waiting: an incremental stream that stays ready at the most urgent level is served within twice as many Pops as its place in the ring plus one |
| `Rfc9218Spec.NotInterrupted` | xnet/http2/writesched_priority_rfc9218.go:154-209 | while a non-incremental stream at the head of its ring stays ready, no other stream of its priority is served |
| `Rfc9218Spec.ServedStaysFirst` | xnet/http2/writesched_priority_rfc9218.go:154-209 | a non-incremental stream that was served is at the head of its ring afterwards |
| `Rfc9218Spec.Rfc9218Fidelity` | xnet/http2/writesched_priority_rfc9218.go:49-209 | frame fidelity (SchedSpec.Fidelity) of every run of the RFC 9218 scheduler, whatever the changes of priority |
| `PriorityNode.Node.SetParent` | xnet/http2/writesched_priority_rfc7540.go:109-142 | the complete doubly linked sibling lists stay complete: the node leaves its old list, whose neighbours are joined, and comes first in the new one; the panic on itself is the precondition |
| `PriorityTree.AddBytes` | xnet/http2/writesched_priority_rfc7540.go:144-149 | the node and exactly the nodes above it in the tree count b more bytes, each once |
| `PriorityTree.Scheduler.constructor` | xnet/http2/writesched_priority_rfc7540.go:58-82 | the scheduler starts as a valid tree of the root alone, with the throttle limit that the configuration asks for |
| `PriorityTree.Scheduler.OpenStream` | xnet/http2/writesched_priority_rfc7540.go:257-286 | soundness is kept and nothing is lost; a new stream is a leaf under its pusher or the root with the default weight, an idle one only becomes open; a namesake comes into being exactly if the id is that of a listed node outside the map |
| `PriorityTree.Scheduler.CloseStream` | xnet/http2/writesched_priority_rfc7540.go:288-310 | soundness is kept; the node is closed, counts no bytes and keeps a queue of blank frames; exactly the oldest closed node (or this one) is discarded, its children move to its parent, and the lost nodes afterwards are the former ones less the discarded node plus its namesake |
| `PriorityTree.Scheduler.AdjustStream` | xnet/http2/writesched_priority_rfc7540.go:312-381 | soundness is kept; a known stream gets the dependency of section 5.3.3 of RFC 7540, the default one, or none, and with it the weight asked for, the default one, or the one it has; an unknown one above maxID first becomes an idle node of default weight, which discards the oldest idle node and loses exactly that node's namesake; any other id changes nothing, and no other node's weight changes |
| `PriorityTree.Scheduler.Push` | xnet/http2/writesched_priority_rfc7540.go:383-401 | the frame joins the queue of the stream that the map names, or the root's; no other queue changes; the panic on DATA for an unknown stream is the precondition |
| `PriorityTree.Scheduler.AddClosedOrIdleNode` | xnet/http2/writesched_priority_rfc7540.go:430-442 | the list is appended to, a full one without its oldest node, which is discarded from tree and map |
| `PriorityTree.Scheduler.RemoveNode` | xnet/http2/writesched_priority_rfc7540.go:444-450 | what remains is a tree in which the node's children depend on its former parent; the node has no links left, and its id is out of the map |
| `PriorityTree.AfterDiscard` | xnet/http2/writesched_priority_rfc7540.go:444-450 | after a discard the map still names nodes of the tree only, and the nodes it does not name are the former ones less the discarded node plus its namesake |
| `PriorityTree.NothingLost` | xnet/http2/writesched_priority_rfc7540.go:233-234 | no node is lost if and only if the tree's nodes are those in the map |
| `PriorityTree.CloseLosesNode` | xnet/http2/writesched_priority_rfc7540.go:288-310 | a run after which an open stream is in the tree and not in the map, by CloseStream |
| `PriorityTree.AdjustLosesNode` | xnet/http2/writesched_priority_rfc7540.go:312-335 | a run after which a node in state open is in the tree and not in the map, by AdjustStream |
| `DependencyTree.AdjustedMeetsSection533` | xnet/http2/writesched_priority_rfc7540.go:337-380 | section 5.3.3 of RFC 7540 clause by clause, on any tree: the result is a tree, the stream depends on the given one, exclusively takes over its dependents, a dependency below the stream first moves to its old parent, and nobody else moves |
| `PriorityPop.Pop` | xnet/http2/writesched_priority_rfc7540.go:403-428 | any sound scheduler stays sound and a valid one valid; Pop fails exactly if no node of the tree is ready and then changes nothing but the order of siblings; otherwise it serves the first ready node in pre-order, none of whose ancestors is ready, within the throttle, and charges its bytes to it and its ancestors; the throttle limit stays within 1024 to 2^31-1 |
| `PriorityPop.ReorderKids` | xnet/http2/writesched_priority_rfc7540.go:193-201 | taking the children out, sorting and reinserting them keeps every dependency and every other list, and permutes the children |
| `PriorityPop.AdjustThrottle` | xnet/http2/writesched_priority_rfc7540.go:417-424 | the limit stays within 1024 to 2^31-1 despite the 32-bit wrap-around |
| `PriorityRuns.Apply` | xnet/http2/writesched_priority_rfc7540.go:257-450 | every call that does not panic keeps soundness and takes exactly the structural step Step |
| `PriorityRuns.Run` | xnet/http2/writesched_priority_rfc7540.go:257-450 | after every call of any sequence up to a panic the nodes form one tree that holds all nodes the map names; the map names all of the tree all the time if and only if no call discards a node that has a namesake; and it does if no stream is opened again after it was closed |
| `PriorityRuns.StepLost` | xnet/http2/writesched_priority_rfc7540.go:257-450 | the lost nodes after a call are the former ones less the node it discards plus that node's namesake |
| `PriorityRuns.ExactRun` | xnet/http2/writesched_priority_rfc7540.go:257-450 | on any run the map and the tree agree at every point if and only if no call discards a node with a namesake |
| `PriorityRuns.RunTidy` | xnet/http2/writesched_priority_rfc7540.go:257-450 | on a run that reopens no closed stream nothing is lost, and a listed node is in the tree or was closed and its id names nothing |
| `MarkerRing.Ring.Push` | xnet/http2/instrument_server.go:259-266 | the 256-slot ring is a bounded queue: the marker is last, or the ring is full and unchanged |
| `MarkerRing.Ring.Peek` | xnet/http2/instrument_server.go:268-273 | the oldest marker, if there is one |
| `MarkerRing.Ring.Pop` | xnet/http2/instrument_server.go:275-281 | the oldest marker leaves |
| `BufferedWriter.Writer.Write` | xnet/http2/http2.go:314-336 | the invariant of counters, bytes, ring and events is kept; exactly the bytes reported are taken, and an armed marker is queued with the offset of its frame's end or counted as overflow |
| `BufferedWriter.Writer.Flush` | xnet/http2/http2.go:338-360 | after a successful Flush without a socket error all bytes are on the wire and the two counters agree; the ring is empty and no accounting error is counted, except in exactly one case: a marker is queued and nothing was buffered |
| `BufferedWriter.Writer.SettleMarkers` | xnet/http2/http2.go:369-403 | exactly the longest run of oldest markers whose offset was accepted leaves the ring, each event carries the size of its batch and the error |
| `BufferedWriter.Writer.SocketWrite` | xnet/http2/http2.go:407-424 | the bytes that the socket took are counted as accepted, and no marker whose offset was reached stays queued |
| `BufferedWriter.Writer.WriteHeaderBlock` | xnet/http2/write.go:262-291 | only the last fragment of a traced block queues a marker, at the end of its frame, and none stays armed, not even if the Framer rejects the frame |
| `ResponseHeaders.WriteResponse` | xnet/http2/write.go:234-291 | a whole header block goes through splitHeaderBlock, the Framer and the buffered writer: the bytes taken are those of its frames; a traced block queues exactly one marker, at the end of its last frame, or counts one overflow, however many frames it takes, and no marker is idle or left armed |
| `BufferedWriter.Writer.Conservation` | xnet/http2/instrument_server.go:253-281 | every queued or overflown header block is exactly one event, one counted drop or one marker in the ring |
| `BufferedWriter.Writer.Punctual` | xnet/http2/http2.go:369-403 | no event is emitted before the last byte of its block was accepted, and without socket errors and idle markers none later |
| `ServerConn.Serve` | xnet/http2/server.go:945-1089 | for any sequence of frames, handler calls and write completions: the invariants hold whenever the serve loop is at its select, every stream only moves forward through its states, and the receive window overflows only after a handler read from a closed stream |
| `ServerConn.Conn.Start` | xnet/http2/server.go:945-976 | the connection starts without a panic with the configured window, all of it announced or held as credit |
| `ServerConn.CreditedTwice` | xnet/http2/server.go:1733-1778 | a run after which the serve loop has panicked for overflow: the client resets a stream with any number of unread bytes, and its handler then reads them |
| `ServerConn.Conn.ReceiveLedger` | xnet/http2/server.go:1871-1966 | at the select the connection's available and unsent credit, the bodies' bytes and the reads under way make up the window, plus exactly the bytes read late; the advertised window is never zero while there is credit to announce (section 6.9.1 of RFC 7540) |
| `ServerConn.Conn.NoLostWakeup` | xnet/http2/server.go:1254-1482 | at the select with nothing being written, no GOAWAY, SETTINGS acknowledgement or flush is pending, and unless an error GOAWAY was sent the scheduler has nothing to give |
| `ServerConn.Conn.Lifecycle` | xnet/http2/server.go:732-754 | at the select the counters are the numbers of odd and even streams, clients' streams are within the advertised limit, the scheduler knows exactly the streams of the map, and a half-closed (local) stream is being reset |
| `ServerConn.Conn.SendLedger` | xnet/http2/server.go:1843-1869 | until a flow-control error each stream's window is the current initial window plus what was granted less what was sent; the connection's is 65535 plus grants less all DATA, and never negative (section 6.9.2 of RFC 7540) |
| `ServerConn.Conn.ScheduleFrameWrite` | xnet/http2/server.go:1443-1482 | the loop ends with nothing left that could be written, keeps the invariants, moves streams only forward, and touches nothing if it is running already or a frame is in flight; if only connection frames and WINDOW_UPDATEs of open streams can be written, it neither panics nor touches a stream, a body or the receive window |
| `ServerConn.Conn.StartFrameWrite` | xnet/http2/server.go:1318-1366 | only one frame is in flight (the precondition its callers meet); the panics on closed and half-closed streams are outcomes, which connection frames and WINDOW_UPDATEs of streams in the map never have |
| `ServerConn.Conn.WroteFrame` | xnet/http2/server.go:1375-1431 | the end of a frame keeps the invariants, closes or half-closes its stream only forward, and leaves nothing to be written |
| `ServerConn.Conn.WriteFrame` | xnet/http2/server.go:1254-1313 | whatever becomes of the frame, the invariants are kept, streams only move forward, and the write loop has nothing left to do; while a frame is in flight a connection frame is queued last among the control frames, and with nothing else to write it never panics |
| `ServerConn.Conn.GoAway` | xnet/http2/server.go:1518-1530 | the invariants are kept; if the write loop had nothing to do there is no panic and no stream changes, and after an error nothing is left to be written |
| `ServerConn.Conn.ResetStream` | xnet/http2/server.go:1537-1543 | the stream, if it is still there, is marked as being reset, and the write loop has nothing left to do |
| `ServerConn.Conn.FrameRead` | xnet/http2/server.go:1548-1603 | any frame or framing error is answered with the invariants kept at the next select |
| `ServerConn.Conn.ProcessFrame` | xnet/http2/server.go:1605-1656 | every kind of frame is handled with the invariants kept |
| `ServerConn.Conn.ProcessPing` | xnet/http2/server.go:1658-1680 | a PING on a stream fails the connection, an acknowledgement is ignored, and any other is answered: its answer is the last control frame queued if a frame is in flight, and else written as far as the write loop gets; it never panics, and no stream changes |
| `ServerConn.Conn.ProcessWindowUpdate` | xnet/http2/server.go:1682-1712 | the increment is accepted exactly if the true sum fits in 31 bits, and otherwise fails the stream or the connection; unknown streams are ignored if they were opened once; exactly the addressed ledger grows, by the increment; the write loop is woken |
| `ServerConn.Conn.ProcessReset` | xnet/http2/server.go:1714-1731 | the stream is closed, and what its handler can still read is kept; an idle stream is a connection error; it panics if and only if the unread bytes do not fit into the connection's window |
| `ServerConn.Conn.CloseStream` | xnet/http2/server.go:1733-1778 | the stream leaves the map for good, what its body holds goes back to the connection's window, and the invariants hold although frames may be written in between; with an idle write loop it panics if and only if those bytes do not fit |
| `ServerConn.Conn.ProcessSettings` | xnet/http2/server.go:1780-1806 | settings of any kind and number keep the invariants, among them the send ledger, and streams only move forward |
| `ServerConn.Conn.ProcessInitialWindow` | xnet/http2/server.go:1843-1869 | every stream's window moves by the difference; the send ledger is kept unless a window would overflow, which is reported |
| `ServerConn.Conn.ProcessData` | xnet/http2/server.go:1871-1966 | never panics; idle streams are connection errors; a frame longer than the connection's window is a stream error; DATA that the stream and both windows take is all readable afterwards; the receive ledger is kept on every path, also for padding and unwanted DATA |
| `ServerConn.Conn.StoreData` | xnet/http2/server.go:1915-1950 | DATA is refused exactly if it exceeds one of the two windows; otherwise the payload is in the body, unless that is closed, the padding is given back, and the stream is still open; it never panics |
| `ServerConn.Conn.EndStream` | xnet/http2/server.go:1989-2009 | the stream is half closed (remote) and its body ends, and nothing else changes |
| `ServerConn.Conn.ProcessHeaders` | xnet/http2/server.go:2042-2151 | requests, trailers, errors and resets keep the invariants, among them the advertised limit; streams only move forward, so that a new one has a number that no stream had; below the limit a new request is in the map with the state, body and declared length it asks for, and its stream fails exactly if it depends on itself or is malformed |
| `ServerConn.Conn.ProcessTrailers` | xnet/http2/server.go:2191-2219 | a second block of trailers fails the connection; trailers that end the stream and are well formed end the request, any others fail their own stream, and no other stream changes |
| `ServerConn.Conn.NewStream` | xnet/http2/server.go:2240-2274 | the stream enters map, counters, scheduler and both ledgers |
| `ServerConn.Conn.BodyRead` | xnet/http2/server.go:2582-2590 | the bytes read go back to both windows; the connection panics if and only if they do not fit into its window |
| `ServerConn.Conn.SendConnUpdate` | xnet/http2/server.go:2598-2615 | what is owed to the connection's window is credited in full and announced when large enough; with an idle write loop it panics if and only if it does not fit |
| `ServerConn.Conn.ReadBody` | xnet/http2/server.go:2638-2655 | what a handler reads is noted for the serve loop, and the ledger is kept |
| `ServerConn.Conn.LateRead` | xnet/http2/server.go:1733-1778 | reads from the body of a closed stream are at most what was refunded when it was closed, and are counted as late |
| `ServerConn.Conn.StartPush` | xnet/http2/server.go:3259-3342 | a push keeps the invariants, and streams only move forward |
| `ServerConn.Conn.TakeBoth` | xnet/http2/flow.go:68-75 | both windows are charged, exactly if both have room, or neither |
| `Flow.Credited` | xnet/http2/flow.go:33-53 | credit is kept in full, held back only below both thresholds and never from an empty window; it panics exactly if the window would exceed 2^31-1 |
| `Flow.Raised` | xnet/http2/flow.go:113-120 | the comparison of the wrapped sum accepts exactly the sums that fit in 32 bits |
| `DataBuffer.Buffer.Read` | xnet/http2/databuffer.go:80-103 | as many bytes as fit are read from the front of the byte queue, over any number of chunks; reading an empty buffer is an error |
| `DataBuffer.Buffer.Write` | xnet/http2/databuffer.go:118-136 | the bytes join the end of the byte queue, all of them |
| `DataBuffer.Buffer.LastChunkOrAlloc` | xnet/http2/databuffer.go:138-149 | the last chunk has room for at least one byte, so that the loop of Write makes progress; a new one is allocated exactly if there was no room, of the size class for what is wanted |
| `DataBuffer.Buffer.Waste` | xnet/http2/databuffer.go:64-75 | allocated less buffered bytes stay below twice the largest chunk |
| `ClientConn.Run` | xnet/http2/transport.go:1463-1539 | for any interleaving of requests, cancellations, waits, other writers, settings and failures: header blocks come out whole and never interleaved, the first HEADERS of streams have strictly increasing odd numbers below 2^31, open streams never exceed the largest limit the peer set so far, and the reservation count is right exactly if none was taken away |
| `ClientConn.Conn.BlocksAreContiguous` | xnet/http2/transport.go:1823-1846 | in any reachable state a CONTINUATION follows exactly a frame that leaves its block open, on the same stream |
| `ClientConn.Conn.WireReadsBack` | xnet/http2/transport.go:1823-1846 | a server reads exactly the frames that were written, in every reachable state |
| `ClientConn.Conn.Facts` | xnet/http2/transport.go:2123-2133 | streams start in strictly increasing odd numbers below 2^31, whoever opened them |
| `ClientConn.Conn.ReserveNewRequest` | xnet/http2/transport.go:973-981 | a slot is reserved exactly if a new request can be taken; without strict limits the slots in use stay within the peer's limit |
| `ClientConn.Conn.Unreserve` | xnet/http2/transport.go:1291-1295 | the count falls below the reservations that exist exactly if the request has none to give back and there are some |
| `ClientConn.Conn.TrySlot` | xnet/http2/transport.go:1796-1820 | the request fails, waits or gets the next odd number, exactly as the state of the connection says; after an opening, streams, reservations and pending resets together are within the peer's limit |
| `ClientConn.Conn.AddStream` | xnet/http2/transport.go:2123-2133 | the stream gets a number that no stream had, and the map one more entry |
| `ClientConn.Conn.BeginHeaders` | xnet/http2/transport.go:1635-1673 | a cancelled request writes nothing; any other holds wmu with its whole block to be written |
| `ClientConn.Conn.WriteChunk` | xnet/http2/transport.go:1823-1846 | one frame of the block is written, HEADERS first, with END_HEADERS exactly on the last |
| `ClientConn.Conn.EndBlock` | xnet/http2/transport.go:1823-1846 | wmu is released only when the block is complete or the connection is broken |
| `ClientConn.Conn.Release` | xnet/http2/transport.go:1539-1539 | reqHeaderMu is released only after the headers are out or the request has failed |
| `ClientConn.Conn.GiveBack` | xnet/http2/transport.go:1695-1701 | a request without a stream gives a reservation back, another caller's exactly if its own is gone |
| `ClientConn.Conn.Forget` | xnet/http2/transport.go:2135-2161 | the stream was in the map, so that the panic does not happen, and is the only one to leave it |
| `ClientConn.ReservationTakenTwice` | xnet/http2/transport.go:1488-1505 | a run after which a caller's reservation is not counted any more |
| `Framing.PayloadBack` | xnet/http2/frame.go:639-1397 | every parser undoes its writer: flags, padding, priority, settings and all fields of every legal frame come back |
| `Framing.ParsedIsLegal` | xnet/http2/frame.go:639-1397 | what a parser accepts is a legal frame of that type and stream, except exactly a PUSH_PROMISE that promises stream 0 |
| `Framing.PromiseOfZero` | xnet/http2/frame.go:1359-1397 | on every stream, with any fragment, a PUSH_PROMISE that promises stream 0 is parsed, and is no frame that the writers accept |
| `Framing.OrderIsContiguity` | xnet/http2/frame.go:583-616 | the one register of checkFrameOrder accepts a sequence of legal frames if and only if every CONTINUATION directly follows an unfinished block of its stream and nothing else does (sections 4.3 and 6.10 of RFC 7540) |
| `FramerIO.AllReadBack` | xnet/http2/frame.go:503-569 | any sequence of legal frames in order and within the reader's limit, written one after the other, is read back as it is up to the end of the input |
| `FramerIO.ItemsReadBack` | xnet/http2/write.go:171-193 | any mix of header blocks and of other frames within the reader's limit, which is any that a peer may ask for, survives splitting, writing, reading and gathering: no frame is refused and every block comes back whole, in its place, with its stream and END_STREAM |
| `FramerIO.PromiseInOrder` | xnet/http2/write.go:329-340 | the frames of a promise pass this package's own order check if and only if its block fits into one fragment |
| `FramerIO.PromiseFits` | xnet/http2/write.go:329-340 | the frames of a promise keep to 16384 bytes if and only if its block has at most 16380 |
| `FramerIO.Framer.EndWrite` | xnet/http2/frame.go:363-383 | the length is filled in and the whole frame handed over, or it is too large and nothing is |
| `FramerIO.Framer.WriteDataPadded` | xnet/http2/frame.go:706-746 | the frame that PayloadBack reads is written, or the first failing check is reported and nothing is written |
| `FramerIO.Framer.WriteHeaders` | xnet/http2/frame.go:1139-1174 | the legal frame is written, without a priority if it is the zero value, or the first failing check is reported and nothing is written |
| `FramerIO.Framer.WritePriority` | xnet/http2/frame.go:1252-1267 | the legal frame is written, or the first failing check is reported and nothing is written |
| `FramerIO.Framer.WriteRSTStream` | xnet/http2/frame.go:1292-1299 | the legal frame is written, or the first failing check is reported and nothing is written |
| `FramerIO.Framer.WriteSettings` | xnet/http2/frame.go:870-877 | the settings are written unchecked; they are a legal frame exactly with a legal initial window |
| `FramerIO.Framer.WriteSettingsAck` | xnet/http2/frame.go:883-886 | the acknowledgement is written |
| `FramerIO.Framer.WritePing` | xnet/http2/frame.go:913-921 | the frame with its eight bytes is written |
| `FramerIO.Framer.WriteGoAway` | xnet/http2/frame.go:958-964 | the frame with the 31-bit stream number is written, or it is too large |
| `FramerIO.Framer.WriteWindowUpdate` | xnet/http2/frame.go:1024-1032 | an increment outside 1 to 2^31-1 is refused; the stream number is not checked |
| `FramerIO.Framer.WriteContinuation` | xnet/http2/frame.go:1329-1340 | the legal frame is written, or the first failing check is reported and nothing is written |
| `FramerIO.Framer.WritePushPromise` | xnet/http2/frame.go:1428-1450 | the legal frame is written, or the first failing check, of either stream number or the size, is reported and nothing is written |
| `FramerIO.Framer.WriteRawFrame` | xnet/http2/frame.go:1454-1458 | any type, flags and payload up to the frame limit are written unchecked |
| `FramerIO.Framer.WriteHeaderBlock` | xnet/http2/write.go:171-193 | the loop writes one HEADERS and then CONTINUATIONs whose fragments are the block, nothing for an empty block, and nothing for an invalid stream |
| `FramerIO.Framer.CheckFrameOrder` | xnet/http2/frame.go:583-616 | the register moves as the order automaton says, and stays where it was on an error |
| `FramerIO.Framer.ReadFrame` | xnet/http2/frame.go:503-569 | header, size limit, order and payload are checked in this order, with the error of the first that fails |
| `FramerIO.Framer.GatherBlock` | xnet/http2/frame.go:1642-1687 | the loop of readMetaFrame gathers exactly the fragments of one block and leaves the frames behind it; its type assertion never fails |
| `Bpf.DecodeEncode` | xnet/bpf/instructions.go:33-182 | disassembling an assembled instruction gives it back, with jumps in their preferred form |
| `Bpf.NormalEncodes` | xnet/bpf/instructions.go:554-589 | the preferred form of a jump has the same machine code |
| `Bpf.KnownRawIs` | xnet/bpf/instructions.go:33-147 | which raw instructions the disassembler turns into known, implemented ones, by their bits alone |
| `BpfVM.AcceptedIsSafe` | xnet/bpf/vm.go:85-150 | every program that NewVM accepts ends on every packet within as many instructions as it has, with all jumps, scratch slots and divisions in range; it fails only at an instruction the machine does not implement |
| `BpfMeaning.SameRuns` | xnet/bpf/asm.go:14-41 | the program recovered from machine code has the same result on every packet from every state, also where conditions were flipped, if every instruction keeps its meaning |
| `BpfMeaning.RecoveredIsAccepted` | xnet/bpf/vm.go:18-80 | NewVM accepts the recovered program of an accepted one whose instructions keep their meaning |
| `BpfMeaning.ExactlyKeepsMeaning` | xnet/bpf/instructions.go:33-147 | an accepted instruction takes the same step on every packet from every state after assembling and disassembling if and only if its own bits say so: it is no absolute load above 0xffffefff, no raw form of a known instruction, and no operator outside the constants unless that is harmless |
| `BpfMeaning.UnknownKeeps` | xnet/bpf/vm_instructions.go:29-56 | an operator outside the package's constants keeps its meaning if and only if its machine code is a jump that goes nowhere, or a known operator with its neutral operand |
| `BpfVM.NewVM` | xnet/bpf/vm.go:18-80 | the loop accepts exactly the programs that satisfy every check |
| `BpfVM.Run` | xnet/bpf/vm.go:85-150 | the interpreter loop computes the result of the instruction semantics |
| `BpfVM.AssembleProgram` | xnet/bpf/asm.go:14-24 | all instructions are assembled in order, or the first that cannot be is reported |
| `BpfVM.DisassembleProgram` | xnet/bpf/asm.go:31-41 | all are decoded in order, and the flag says whether every one was known |
| `HtmlEscape.EscapeRoundTrip` | xnet/html/escape.go:279-339 | unescaping the escaped string gives it back, for every string, in text and in attribute values |
| `HtmlEscape.CommentRoundTrip` | xnet/html/escape.go:215-265 | the same for the escaping of comments, whatever comes before |
| `HtmlEscape.PieceFits` | xnet/html/escape.go:57-163 | a reference is never longer unescaped than escaped |
| `HtmlEscape.Unescape` | xnet/html/escape.go:167-184 | the in-place loop leaves exactly the unescaped text at the front of the array |
| `HtmlEscape.UnescapeEntity` | xnet/html/escape.go:57-163 | the write cursor stays behind the read cursor, what is written is the reference's text, and the rest of the array does not change |
| `HtmlEscape.Escape` | xnet/html/escape.go:279-312 | the output is the text with the special characters replaced |
| `HtmlEscape.EscapeComment` | xnet/html/escape.go:215-265 | the output is the text with ampersands replaced, and every > that could end the comment |
| `HtmlComment.PrintedCommentReadsBack` | xnet/html/token.go:100-118 | the comment states of the WHATWG HTML standard (13.2.5.43 to 13.2.5.52) read a printed comment as one comment up to its end, whose text is the original with line endings normalised and NUL replaced |
| `HtmlComment.ReadsBackUnchanged` | xnet/html/escape.go:215-265 | a comment comes back unchanged if and only if it holds no carriage return and no NUL |
| `HtmlTokenizer.Tokenizer.ReadComment` | xnet/html/token.go:600-650 | for every input the loop finds the same end and the same data as the states of the standard, also at an abrupt end |
| `HtmlTokenizer.Tokenizer.AbruptEnd` | xnet/html/token.go:652-666 | exactly the unfinished end mark is cut off |
| `HtmlTokenizer.Tokenizer.ReadMarkupDeclaration` | xnet/html/token.go:700-725 | after <!-- the comment states run to the end that the standard says |
| `HtmlTokenizer.Tokenizer.NextComment` | xnet/html/token.go:700-713 | the token begins at the bracket, and its end and data are the standard's |
| `HtmlTokenizer.Tokenizer.Text` | xnet/html/token.go:1180-1196 | the text is the data with newlines converted, NUL replaced and references undone |
| `HtmlTokenizer.ReadPrinted` | xnet/html/token.go:100-118 | the tokenizer reads a printed comment as one comment token up to the end of the input, whose text is the original if and only if that holds no carriage return and no NUL |
| `HtmlTokenizer.ConvertNewlines` | xnet/html/token.go:1143-1171 | the in-place loop leaves every line ending as one line feed and all other bytes in order |

## Left out

- RFC 7540 scheduler: frame fidelity is not claimed, since CloseStream leaves blank
  frames behind and pools a copy of the queue header; the pool and the queues that
  it shares are not modelled, a node's queue is a sequence.
- PriorityPop.SortSiblings: any permutation, because the comparison that the source
  sorts by is not a strict order.
- Server: handler panics, closing all streams when the connection ends, the limit
  on queued control frames, timers, HPACK, request parsing and the I/O of the frame
  reader. Streams are values under their number instead of shared references; numbers
  are never used twice. Windows are values in the connection's state.
- ServerConn.Conn.StartPush: the request of a push is not modelled, only its stream.
- Frame writes of the server end without an error; a write error closes the
  connection, which ends the run.
- BufferedWriter: time stamps, 64-bit wrap-around of the counters, and bufio beyond
  a 4096-byte in-order buffer that passes large writes through.
- Client: request bodies and responses beyond the frames they write, the
  client-side receive ledger, dialing and the pool. Header blocks are any non-empty
  bytes. The peer's maximum frame size is within the range of section 6.5.2 of RFC
  7540, which the client does not check. A frame counts as written when the Framer
  is told to write it.
- Framer: AllowIllegalReads and AllowIllegalWrites are off; HPACK, header lists and
  pseudo-header checks, logging and frame caching are not modelled.
- xnet/http2/pipe.go: only what the serve loop can tell about a pipe (bytes held,
  closed or broken); its locks and wake-ups are not modelled.
- BPF: the size of int is 64 bits.
- HTML: the entity table is a parameter, with the premise that no entity is shorter
  than its text; refilling of the tokenizer's buffer, its limit and all other tokens
  are not modelled.
- The remaining packages of the repository, writesched_random.go and
  client_conn_pool.go would only add easy members or are I/O.
