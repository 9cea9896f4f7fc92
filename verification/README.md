# rillnet: a verified model

rillnet multiplexes requests and responses over one byte stream. Everything runs on one executor, so
a stretch of code between two suspension points is one atomic step. This project models the protocol
core as step systems whose scheduler picks any enabled step, and as classes that update fields in
place and are proved to do what the steps do.

| part | files |
|---|---|
| bytes, frames, header codec | `Bytes.dfy`, `Frames.dfy`, `FrameCodec.dfy` |
| incremental decoder and the parser it refines | `StreamParsing.dfy`, `FrameDecoder.dfy` |
| write queue: steps, ledger, progress, object | `Channels.dfy`, `WriteQueue.dfy`, `WriteQueueLedger.dfy`, `WriteQueueProgress.dfy`, `WriteQueueObject.dfy` |
| queue to peer decoder, end to end | `WirePath.dfy` |
| stream identifiers, operations and lifecycle | `StreamIds.dfy`, `Operations.dfy` |
| client connection: steps, invariant, theorems, object | `Client.dfy`, `ClientInvariant.dfy`, `ClientTheorems.dfy`, `ClientOutcomes.dfy`, `ClientReuse.dfy`, `ClientReading.dfy`, `ClientLoop.dfy`, `ClientLedger.dfy`, `ClientCallers.dfy`, `ClientLifecycle.dfy`, `ClientObject.dfy` |
| server connection: steps, invariant, theorems, object | `Server.dfy`, `ServerInvariant.dfy`, `ServerTheorems.dfy`, `ServerReading.dfy`, `ServerLoop.dfy`, `ServerLedger.dfy`, `ServerSending.dfy`, `ServerOutcomes.dfy`, `ServerLifecycle.dfy`, `ServerObject.dfy` |
| registry, message codec, typed exchange | `Messages.dfy`, `TypedExchange.dfy` |

`dafny verify dfyconfig.toml` checks all of it.

How the pieces are modelled:

- An Asio channel is a bounded buffer, a queue of suspended receivers and a closed flag. `try_send`
  hands a value to a waiting receiver, which resumes in a later step; `close` keeps what is buffered.
- A transport is an open flag and the log of bytes written. A write either completes or fails after
  any number of bytes. Reads deliver any cut of the peer's bytes.
- A deadline is a step that may happen at any time after the handle exists, also long after the
  request has ended. A handle may be destroyed at any time, its suspended caller with it. Encoding
  results, handler results and message bodies are parameters of a step.
- A pending request is named by its index in the order of starting. The index stands for the identity
  of the shared object that table, handle and timer point to; in `ClientObject.dfy` it is that object.
- 64-bit identifiers and counters are bounded types, so every addition and subtraction is shown to
  stay in range. Payload sizes are 32-bit.

Where code and documentation disagree the model follows the code. `docs/identifiers.md:61-65` says
that stream identifiers are never reused; the allocator recycles them (`StreamIds.ReleasedIdIsReused`).
Together with a set of terminal streams that is never cleared, this means that a response completes
the request it names if and only if its stream has not had a terminal frame before
(`ClientTheorems.ResponseCompletesIff`), that a request on such a stream never completes
(`ClientReuse.PoisonedRequestNeverCompletes`), and that on every connection the second of two requests
sent and answered one after the other fails and closes the connection
(`ClientReuse.RecycledStreamWitness`).

Two further laws fail in general and are stated with their exact conditions:

- An error status survives the wire if and only if it is not ok and not a transport status
  (`Frames.ErrorStatusRoundTrip`), so the `connection_closed` answers of a draining server take down a
  client connection (`ClientTheorems.ErrorFrameIsolation`).
- A frame costs only the request it names if and only if it is tolerated, a condition on the frame and
  the table before the call (`ClientTheorems.FrameIsolation`, `ServerTheorems.FrameIsolation`).

Main results, in the order a reader may want them:

- Delivery: `WirePath.Delivery`, `TypedExchange.TypedDelivery`, `TypedExchange.ClientHearsServer`,
  `TypedExchange.ServerHearsClient`.
- The queue never loses a wake-up and always comes to rest: `WriteQueueProgress.QueueSafety`,
  `WriteQueueProgress.InternalRunsAreBounded`, `WriteQueueProgress.EveryScheduleDrains`.
- The decoder is the inverse of the encoder under every cut and lets through exactly the protocol's
  frames: `FrameDecoding.FeedSplit`, `FrameDecoding.DecoderConserves`, `FrameDecoding.DecoderIsExact`,
  `FrameDecoding.FrameDecoder.Push`.
- Client outcomes: `ClientOutcomes.FirstCauseWins` reduces every run of a connection, for one request,
  to a list of causes of which the first decides; `ClientTheorems.OutcomeCoherence` and
  `ClientTheorems.WaitAlwaysHasAResult` say what the caller sees of it, and
  `ClientCallers.CallerIsExact` where every step leaves it.
- Client ownership and isolation: `ClientTheorems.StreamOwnership`,
  `ClientTheorems.StaleHandleIsHarmless`, `ClientTheorems.DrainSafety`,
  `ClientLedger.EverySentFrameIsAccounted`, `ClientCallers.IdentifierIsReturned`,
  `ClientTheorems.FrameIsolation`.
- Server: `ServerTheorems.HandlerAccounting`, `ServerTheorems.IdleCloseNeverRefuses`,
  `ServerOutcomes.FirstCauseWins`, `ServerSending.SendingIsExact`,
  `ServerSending.QueueHoldsWhatWasSent`, `ServerTheorems.AfterShutdown`.
- Allocator: `StreamIds.AllocateIsLeastFree`. Typed layer: `Messages.TypedRoundTrip`.
- The classes `FrameDecoder`, `WriteQueue`, `StreamIdAllocator`, `Operation`, `MessageRegistry`,
  `ClientConnection` and `ServerConnection` update their fields in place, and each method's new state
  is the step system's, the writer's steps included, so the theorems above are about them.

## Model

| member | source | states |
|---|---|---|
| `Bytes.FromToBytes` | include/rillnet/frame_codec.hpp:34-74 | reading the n big-endian bytes written for a value that fits n bytes gives the value back |
| `Bytes.ToFromBytes` | include/rillnet/frame_codec.hpp:34-74 | writing the number read from any byte string gives the string back, so the integer encodings are bijections |
| `Bytes.WriteBe64` | include/rillnet/frame_codec.hpp:48-53 | the shift loop leaves exactly the eight big-endian bytes at the offset and every other byte of the buffer alone |
| `Bytes.WriteBe32` | include/rillnet/frame_codec.hpp:40-46 | the four shifted bytes are the big-endian encoding; the rest of the buffer is unchanged |
| `Bytes.WriteBe16` | include/rillnet/frame_codec.hpp:34-38 | the two shifted bytes are the big-endian encoding; the rest of the buffer is unchanged |
| `Bytes.ReadBe64` | include/rillnet/frame_codec.hpp:67-74 | the accumulation loop never exceeds 64 bits and returns the value the eight bytes encode |
| `Bytes.ReadBe32` | include/rillnet/frame_codec.hpp:61-65 | the shift-and-or expression is the value the four bytes encode |
| `Bytes.ReadBe16` | include/rillnet/frame_codec.hpp:55-59 | the shift-and-or expression is the value the two bytes encode |
| `FrameCodec.HeaderRoundTrip` | include/rillnet/frame_codec.hpp:80-109 | decoding an encoded header returns every field of it |
| `FrameCodec.BytesRoundTrip` | include/rillnet/frame_codec.hpp:80-109 | every 18-byte string is the encoding of the header it decodes to |
| `FrameCodec.HeaderLayout` | include/rillnet/frame_codec.hpp:80-90 | every field sits at its own offset, most significant byte first |
| `FrameCodec.EncodeFrameHeader` | include/rillnet/frame_codec.hpp:80-90 | filling the fixed array field by field produces the layout whose two round trips are proved |
| `FrameCodec.DecodeFrameHeader` | include/rillnet/frame_codec.hpp:94-109 | nothing exactly when fewer than 18 bytes are available; otherwise a header that re-encodes to those bytes |
| `FrameCodec.EncodeFrameBytes` | include/rillnet/frame_codec.hpp:113-122 | header bytes followed by payload bytes, the form every parsing theorem is about |
| `FrameCodec.EncodeAllAppend` | include/rillnet/frame_codec.hpp:113-122 | the encoding of a run of frames is the concatenation of its parts' encodings |
| `Frames.HeaderDecides` | include/rillnet/frame.hpp:60-88 | the decoder's check of a bare header accepts exactly the headers that some payload completes to a valid frame, and otherwise reports the error the whole frame would report |
| `Frames.ValidationIsExact` | include/rillnet/frame.hpp:49-88 | a frame is valid if and only if its fields are version 0.1, kind 1 or 2, flags below 8 and not both cancel and error, a stream, and as much payload as announced and allowed; each error code is reported if and only if it names the first wrong field |
| `Frames.CancelFrame` | include/rillnet/client_connection.hpp:548-557 | a cancel frame is a legal request on its stream, with both cancel and end_of_stream set |
| `Frames.ErrorFrame` | include/rillnet/protocol_violation.hpp:20-31 | an error frame is a legal response on its stream, with error and end_of_stream and without cancel, whose two payload bytes are the status |
| `Frames.ErrorStatusRoundTrip` | include/rillnet/protocol_violation.hpp:20-56 | a status survives an error frame exactly when it is an error outside the transport band; any other decodes to nothing, never to a different status |
| `StreamParsing.ParseAppend` | include/rillnet/frame_decoder.hpp:25-58 | parsing more bytes resumes from the unconsumed remainder alone, and an error is final |
| `StreamParsing.ParseConserves` | include/rillnet/frame_decoder.hpp:25-105 | the input is the re-encoding of the emitted frames followed by the remainder; every frame is valid; an error names the first failing header |
| `StreamParsing.ParseEncodeAll` | include/rillnet/frame_decoder.hpp:25-58 | printing then parsing returns the frames, whatever follows them |
| `StreamParsing.ParseUnique` | include/rillnet/frame_decoder.hpp:25-58 | any reading of the bytes as valid frames and an unfinished remainder is the parser's reading |
| `StreamParsing.ParsePrefix` | include/rillnet/frame_decoder.hpp:25-58 | any prefix of encoded frames parses without error to exactly the frames wholly inside it |
| `FrameDecoding.FeedSplit` | include/rillnet/frame_decoder.hpp:25-105 | chunk independence: pushing a then b gives the frames, error and state of pushing a followed by b, from every decoder state |
| `FrameDecoding.FeedAllIsFeed` | include/rillnet/frame_decoder.hpp:25-58 | every cut of a stream into pushes gives the frames and state of one push |
| `FrameDecoding.DecoderConserves` | include/rillnet/frame_decoder.hpp:29-105 | since reset, without error: input = re-encoded frames + exactly the buffered bytes; with error: the next 18 bytes are the first failing header with that code; every emitted frame passes validation |
| `FrameDecoding.DecoderIsExact` | include/rillnet/frame_decoder.hpp:86-105 | every emitted frame has all its fields right, and an error names the first wrong field of the 18 bytes it stopped at |
| `FrameDecoding.BadHeaderIsRejected` | include/rillnet/frame_decoder.hpp:86-101 | a header with a wrong field is rejected with that field's code and no frame |
| `FrameDecoding.ErrorIsTerminal` | include/rillnet/frame_decoder.hpp:29-58 | after an error no push emits a frame or changes the state |
| `FrameDecoding.StateIsStable` | include/rillnet/frame_decoder.hpp:86-105 | a reachable state holds no complete frame: its buffered bytes parse to no frame, the same error and the same state |
| `FrameDecoding.CopyBytes` | include/rillnet/frame_decoder.hpp:77-84 | copies the smaller of what is offered and what fits at the fill position, and changes no other byte |
| `FrameDecoding.FrameDecoder.constructor` | include/rillnet/frame_decoder.hpp:20-23 | a new decoder is in the initial state with its two buffers its own |
| `FrameDecoding.FrameDecoder.HasIncompleteFrame` | include/rillnet/frame_decoder.hpp:62-65 | true exactly when some byte is buffered, after an error too |
| `FrameDecoding.FrameDecoder.Reset` | include/rillnet/frame_decoder.hpp:67-74 | returns any reachable decoder, failed or not, to the initial state |
| `FrameDecoding.FrameDecoder.StartFrame` | include/rillnet/frame_decoder.hpp:86-105 | with 18 header bytes: stores the header and a payload buffer of its announced size within the limit, or the validation error |
| `FrameDecoding.FrameDecoder.TakePayload` | include/rillnet/frame_decoder.hpp:45-54 | payload bytes accumulate in place and complete exactly one frame when the last arrives |
| `FrameDecoding.FrameDecoder.PushStep` | include/rillnet/frame_decoder.hpp:29-55 | each loop turn consumes at least one byte and does what parsing those bytes does |
| `FrameDecoding.FrameDecoder.Push` | include/rillnet/frame_decoder.hpp:25-58 | the loop terminates, keeps the buffers well formed and equals the stream parser on buffered bytes + input |
| `FrameDecoding.DecodeReads` | include/rillnet/frame_decoder.hpp:25-58 | one decoder, one push a read: the frames and error of the whole stream, however it was cut |
| `WriteQueues.TryEnqueueInv` | include/rillnet/write_queue.hpp:155-179 | an attempt to enqueue keeps the queue invariant, exact byte accounting within the limit included |
| `WriteQueues.RefusalMeetsAFrame` | include/rillnet/write_queue.hpp:155-179 | an open queue refuses a frame that would fit an empty one only when a frame is buffered or in hand-off |
| `WriteQueues.AdmissionIsExact` | include/rillnet/write_queue.hpp:155-179 | a frame is taken if and only if the queue is open, the encoded bytes buffered, in hand-off and of the frame are within the limit, and there is a free slot or a waiting writer |
| `WriteQueues.EnqueueIsExact` | include/rillnet/write_queue.hpp:84-109 | enqueue is accepted at once if and only if there is room, rejected if and only if closed or beyond the limits, suspended otherwise |
| `WriteQueues.ResumeIsExact` | include/rillnet/write_queue.hpp:92-108 | a resumed producer is accepted if and only if there is room and rejected if and only if the queue is closed |
| `WriteQueues.TakeSignals` | include/rillnet/write_queue.hpp:129-129 | a take wakes the producer that has waited longest, or keeps one more signal up to the slots of the queue |
| `WriteQueues.EnqueueInv` | include/rillnet/write_queue.hpp:84-109 | enqueue keeps the invariant, touches no other producer, accepts its own frame or leaves it suspended, and rejects only when closed or beyond the limits |
| `WriteQueues.ResumeInv` | include/rillnet/write_queue.hpp:92-108 | a resumed producer keeps the invariant, no-lost-wakeup included; it is rejected only by a closed queue |
| `WriteQueues.RunTakeInv` | include/rillnet/write_queue.hpp:128-129 | taking a frame keeps the invariant: no underflow, and the space signal is never lost, even with one slot |
| `WriteQueues.WriteFailInv` | include/rillnet/write_queue.hpp:137-140 | a write that fails after any number of bytes keeps the invariant, by which the wire stays a prefix of the accepted frames |
| `WriteQueues.CloseInv` | include/rillnet/write_queue.hpp:147-152 | close keeps the invariant, by which no producer is left waiting and the writer ends |
| `WriteQueues.RunsInv` | include/rillnet/write_queue.hpp:84-168 | every schedule of producers, writer and close keeps the whole invariant |
| `WriteQueueProgress.QueueSafety` | include/rillnet/write_queue.hpp:84-187 | in every reachable queue: exact byte accounting within the limits, FIFO by acceptance with nothing lost or doubled, exact wire contents, no lost wake-up |
| `WriteQueueProgress.InternalStepDecreases` | include/rillnet/write_queue.hpp:92-143 | every step of the queue's own coroutines lowers a measure |
| `WriteQueueProgress.InternalRunsAreBounded` | include/rillnet/write_queue.hpp:92-143 | however they are scheduled, the queue's coroutines take at most that many steps |
| `WriteQueueProgress.AtRestMeansDrained` | include/rillnet/write_queue.hpp:84-143 | when nothing can move no producer is suspended: an open queue is empty with an idle writer, a closed one has a writer that returned |
| `WriteQueueProgress.StepConserves` | include/rillnet/write_queue.hpp:92-143 | what the queue has taken on, accepted frames and suspended producers' frames as a multiset, is conserved, so a producer stops waiting only by having its own frame accepted |
| `WriteQueueProgress.EveryScheduleDrains` | include/rillnet/write_queue.hpp:84-143 | every failure-free schedule that comes to rest leaves no producer suspended, and what was accepted is exactly the earlier frames and the producers' own, all of it on the wire |
| `WriteQueueLedger.EnqueueTaken` | include/rillnet/write_queue.hpp:84-109 | enqueue takes on exactly its own frame, accepted or suspended, unless it is rejected |
| `WriteQueueLedger.ResumeTaken` | include/rillnet/write_queue.hpp:92-108 | a resumed producer's own frame stays in the queue, accepted or suspended, unless it is rejected |
| `WriteQueueLedger.WriterTaken` | include/rillnet/write_queue.hpp:116-143 | no step of run changes what the queue has taken on |
| `WriteQueueProgress.EveryProducerIsAccepted` | include/rillnet/write_queue.hpp:84-143 | from every reachable open queue there is a failure-free schedule that accepts exactly the suspended producers' own frames and writes everything |
| `WriteQueueObjects.WriteQueue.constructor` | include/rillnet/write_queue.hpp:60-66 | a new queue object satisfies the invariant and is the step system's initial queue |
| `WriteQueueObjects.WriteQueue.TryEnqueueFrame` | include/rillnet/write_queue.hpp:155-168 | the object's fields become those of the step system's attempt; the counter stays within 64 bits |
| `WriteQueueObjects.WriteQueue.AttemptFrame` | include/rillnet/write_queue.hpp:92-103 | one turn of the retry loop: accepted, refused because closed, or suspended on the space channel |
| `WriteQueueObjects.WriteQueue.Enqueue` | include/rillnet/write_queue.hpp:84-103 | enqueue up to its first suspension refines the step system and keeps the invariant |
| `WriteQueueObjects.WriteQueue.Resume` | include/rillnet/write_queue.hpp:102-108 | enqueue from the end of a wait to its next suspension refines the step system |
| `WriteQueueObjects.WriteQueue.RunReceive` | include/rillnet/write_queue.hpp:118-126 | run from the top of its loop to its suspension in receive |
| `WriteQueueObjects.WriteQueue.RunTake` | include/rillnet/write_queue.hpp:128-133 | the subtraction is in range, one space signal is sent, and the bytes handed to the transport are the frame's encoding |
| `WriteQueueObjects.WriteQueue.WriteCompleted` | include/rillnet/write_queue.hpp:131-136 | after a whole write the wire has grown by exactly the frame |
| `WriteQueueObjects.WriteQueue.WriteFailed` | include/rillnet/write_queue.hpp:137-140 | after a partial write the wire has grown by that part and the queue is closed |
| `WriteQueueObjects.WriteQueue.RunEnd` | include/rillnet/write_queue.hpp:123-126 | run returns success only from a closed, drained channel |
| `WriteQueueObjects.WriteQueue.CloseQueue` | include/rillnet/write_queue.hpp:147-152 | close refines the step system and keeps the invariant, however often it is called |
| `WirePath.RunsCarry` | include/rillnet/write_queue.hpp:84-168 | a property of every offered frame holds, over every run, of every frame accepted or still offered by a suspended producer |
| `WirePath.WireIsPrefix` | include/rillnet/write_queue.hpp:116-168 | the bytes written are always a prefix of the accepted frames' encodings in acceptance order |
| `WirePath.PeerSeesAPrefix` | include/rillnet/frame_decoder.hpp:25-58 | whatever part of the written bytes has arrived, in whatever cuts, the peer has no error and exactly the accepted frames whose bytes have wholly arrived |
| `WirePath.PeerSeesEverything` | include/rillnet/write_queue.hpp:111-126 | once run returned success, a peer that read everything has every accepted frame and is between frames |
| `WirePath.Delivery` | include/rillnet/write_queue.hpp:116-168 | end to end over every interleaving, every cut and possibly one failed partial write: a prefix of the accepted frames in order with no decode error, and all of them when run returned success |
| `StreamIds.FreshValid` | include/rillnet/stream_id_allocator.hpp:46-51 | the first identifier and the clamped maximum are valid for every 64-bit maximum, 0 and 2^64-1 included |
| `StreamIds.AllocateValid` | include/rillnet/stream_id_allocator.hpp:57-79 | in-use and available identifiers stay a partition of those ever issued |
| `StreamIds.AllocateIsLeastFree` | include/rillnet/stream_id_allocator.hpp:57-79 | returns the least own-parity identifier not in use and fails exactly when all up to the maximum are in use |
| `StreamIds.ReleaseValid` | include/rillnet/stream_id_allocator.hpp:81-90 | release takes exactly that identifier out of use, and nothing when it was not in use, and keeps the partition |
| `StreamIds.ReleasedIdIsReused` | include/rillnet/stream_id_allocator.hpp:59-64 | an identifier released at once is the next one allocated: the code recycles what docs/identifiers.md:61-65 says is never reused |
| `StreamIds.StreamIdAllocator.constructor` | include/rillnet/stream_id_allocator.hpp:46-51 | a new allocator object is the fresh allocator |
| `StreamIds.StreamIdAllocator.AllocateId` | include/rillnet/stream_id_allocator.hpp:57-79 | in-place allocation over the two sets equals least-free allocation; no 64-bit step overflows |
| `StreamIds.StreamIdAllocator.ReleaseId` | include/rillnet/stream_id_allocator.hpp:81-90 | in-place release equals the specified release |
| `Operations.FirstResultIsFinal` | include/rillnet/operation.hpp:84-141 | over any sequence of complete, fail, cancel, timeout and request_cancellation the first terminal event wins and the operation stays coherent |
| `Operations.Operation.constructor` | include/rillnet/operation.hpp:53-73 | a constructed and activated operation is fresh: active, without result |
| `Operations.Operation.FinishWith` | include/rillnet/operation.hpp:130-141 | finishes exactly when the lifecycle table allows it, and then records the result |
| `Operations.Operation.CompleteOp` | include/rillnet/operation.hpp:98-101 | in-place completion refines the value-level one that FirstResultIsFinal is about |
| `Operations.Operation.FailOp` | include/rillnet/operation.hpp:103-109 | in-place failure; ok is refused as a failure status |
| `Operations.Operation.RequestCancel` | include/rillnet/operation.hpp:84-91 | a terminal operation refuses the request and keeps its flags |
| `Operations.Operation.CancelOp` | include/rillnet/operation.hpp:111-118 | in-place cancellation with the cancelled status |
| `Operations.Operation.TimeoutOp` | include/rillnet/operation.hpp:120-127 | in-place timeout; the flag is set only by the timeout that ended the operation |
| `ClientInvariant.CleanupKeeps` | include/rillnet/client_connection.hpp:530-546 | cleanup keeps the table and the ownership of identifiers, whichever of its two flags were already set |
| `ClientInvariant.EndWithCancelFrame` | include/rillnet/client_connection.hpp:496-528 | ending an active request with a cancel frame keeps the whole invariant |
| `ClientInvariant.CancelPendingInv` | include/rillnet/client_connection.hpp:507-518 | cancel_pending keeps the invariant |
| `ClientInvariant.TimeoutPendingInv` | include/rillnet/client_connection.hpp:496-505 | timeout_pending keeps the invariant |
| `ClientInvariant.DiscardPendingInv` | include/rillnet/client_connection.hpp:520-528 | discard_pending keeps the invariant |
| `ClientInvariant.DropHandleInv` | include/rillnet/client_connection.hpp:74-97 | destroying a handle, whatever its caller is doing, keeps the invariant |
| `ClientInvariant.FailPendingRequests` | include/rillnet/client_connection.hpp:486-494 | fail_pending fails exactly the requests still in the table, releases no identifier and empties the table |
| `ClientInvariant.EndReadingInv` | include/rillnet/client_connection.hpp:408-411 | the end of the read loop keeps the invariant |
| `ClientInvariant.EndShutdownInv` | include/rillnet/client_connection.hpp:224-230 | the end of shutdown keeps the invariant |
| `ClientInvariant.DispatchInv` | include/rillnet/client_connection.hpp:414-456 | any incoming frame, from a correct peer or not, keeps the invariant |
| `ClientInvariant.StartRequestInv` | include/rillnet/client_connection.hpp:293-335 | starting a request keeps the invariant on every path, the failed encoding that keeps its identifier included |
| `ClientInvariant.ResumeStartInv` | include/rillnet/client_connection.hpp:325-335 | a start_request resumed from the write queue keeps the invariant |
| `ClientInvariant.ApplyInv` | include/rillnet/client_connection.hpp:208-557 | every step of the client keeps the invariant |
| `ClientTheorems.ReachableInv` | include/rillnet/client_connection.hpp:208-557 | every reachable client satisfies the invariant |
| `ClientTheorems.OutcomeCoherence` | include/rillnet/client_connection.hpp:414-546 | active: open empty channel; completed: exactly one frame, of its own stream; failed or cancelled: closed channel and no frame |
| `ClientTheorems.WaitAlwaysHasAResult` | include/rillnet/client_connection.hpp:118-141 | async_wait returns the response the request completed with or the status it ended with; its no-result fallback is unreachable |
| `ClientTheorems.ClosedLeavesNoWaiter` | include/rillnet/client_connection.hpp:233-245 | a closed connection has no active request and no suspended caller |
| `ClientTheorems.HandleStepIsLocal` | include/rillnet/client_connection.hpp:496-546 | a step of one request's handle, timer or caller changes no other request, entry or identifier |
| `ClientTheorems.StaleHandleIsHarmless` | include/rillnet/client_connection.hpp:74-97 | however late an old handle acts, other requests keep their entry and identifier, and its own identifier is returned at most once |
| `ClientTheorems.ToleratedIsLocal` | include/rillnet/client_connection.hpp:414-456 | a tolerated frame ends the request it names and touches no other |
| `ClientTheorems.IntolerableFailsAll` | include/rillnet/client_connection.hpp:414-451 | any other frame fails the connection: unknown_stream exactly for a response that names nothing pending, malformed_frame otherwise |
| `ClientTheorems.OutcomeIsFinal` | include/rillnet/client_connection.hpp:208-557 | over any run a request that has ended keeps its result and its delivered frame, and a released identifier stays released |
| `ClientTheorems.StreamOwnership` | include/rillnet/client_connection.hpp:300-335 | unreleased requests hold distinct own-parity identifiers; identifiers in use are exactly theirs and the leaked ones; every entry is an active request under its own stream |
| `ClientTheorems.NewRequestNeverCollides` | include/rillnet/client_connection.hpp:300-322 | a new request gets the least identifier nobody holds and adds exactly its own entry, changing no other request |
| `ClientTheorems.DrainSafety` | include/rillnet/client_connection.hpp:208-231 | over any run: once draining the table never grows; once closed it stays closed and empty |
| `ClientTheorems.CancellationFrames` | include/rillnet/client_connection.hpp:496-557 | exactly one request frame per registered request, and one cancel frame exactly for requests ended by cancellation, handle release or deadline |
| `ClientLedger.WireCarriesWhatIsDue` | include/rillnet/client_connection.hpp:325-557 | the client's queue has accepted only offered frames, and no frame more often than there are requests on its stream it is due for: for a cancel frame only those ended by cancellation, handle release or deadline |
| `ClientLedger.SendingIsExact` | include/rillnet/client_connection.hpp:293-557 | every step hands the queue exactly the frame its cause calls for, and exactly what there is no room for, or meets a closed queue, is missed |
| `ClientLedger.EverySentFrameIsAccounted` | include/rillnet/client_connection.hpp:293-557 | over every run, everything sent is in the queue or was missed for one of these reasons, nothing else is in the queue, and the log of offers is exactly what was sent |
| `ClientLedger.CancelReachesTheQueue` | include/rillnet/client_connection.hpp:496-557 | cancel, deadline and handle release of an active request put one more frame into a queue with room: a request without payload on its stream with cancel and end_of_stream |
| `ClientLedger.RequestReachesTheQueue` | include/rillnet/client_connection.hpp:293-335 | a started request puts one more frame into an open queue that can hold it, accepted at once if and only if there is room: the encoded message on the least free identifier |
| `ClientCallers.CallerIsExact` | include/rillnet/client_connection.hpp:118-141 | after every step, where every caller is and whether its identifier was returned, for every cause: a waiting caller is resumed if and only if the step ends its request |
| `ClientCallers.IdentifierIsReturned` | include/rillnet/client_connection.hpp:530-546 | an identifier is in use after a step if and only if the step is no response, peer error, end of a wait, handle release or refused start; cancel, deadline and connection failure keep it |
| `ClientCallers.StartIsExact` | include/rillnet/client_connection.hpp:293-335 | a new caller holds a handle if there is room, waits if there will be, and is refused with its identifier returned if the queue is closed or can never hold the frame; a request that cannot be encoded keeps its identifier |
| `ClientLifecycle.ShutdownBeginsToDrain` | include/rillnet/client_connection.hpp:475-484 | shutdown in any state drains the connection or finds it closed |
| `ClientLifecycle.NothingStartsAfterShutdown` | include/rillnet/client_connection.hpp:295-299 | from then on, over any run, no request is registered, no identifier is taken and the table only shrinks |
| `ClientLifecycle.EndsCloseTheConnection` | include/rillnet/client_connection.hpp:224-245 | the ends of reading and of shutdown close the connection, its queue or its transport, and leave nothing pending |
| `ClientLifecycle.FailedWriteCloses` | include/rillnet/write_queue.hpp:137-140 | a failed write closes queue and transport, and no other step of the writer touches the transport |
| `ClientLifecycle.RememberingIsExact` | include/rillnet/client_connection.hpp:430-463 | a stream is remembered as ended if and only if a tolerated frame on it was marked as its last |
| `ClientTheorems.ServerSeesOnlyRequests` | include/rillnet/client_connection.hpp:548-557 | whatever a reachable client wrote, in any cuts, the server's decoder has no error and emits only legal requests |
| `ClientTheorems.FrameIsolation` | include/rillnet/client_connection.hpp:414-456 | a frame leaves the connection open and all other requests untouched if and only if it is tolerated; any other fails every pending request |
| `ClientTheorems.ErrorFrameIsolation` | include/rillnet/client_connection.hpp:436-447 | an error frame costs only its request if and only if its status is not a transport status; connection_closed takes the connection down |
| `ClientTheorems.ResponseCompletesIff` | include/rillnet/client_connection.hpp:426-456 | a response completes the pending request it names if and only if its stream has had no terminal frame |
| `ClientOutcomes.EndingDecides` | include/rillnet/client_connection.hpp:208-557 | every step gives an active request exactly the status its cause says, for every cause, or leaves it without result |
| `ClientOutcomes.FirstCauseWins` | include/rillnet/client_connection.hpp:208-557 | over any run a request's result is the status of the first cause that met it, and it has none exactly when no cause did |
| `ClientReuse.TerminalStreamsAreNeverForgotten` | include/rillnet/client_connection.hpp:458-463 | a stream that carried a terminal frame is remembered for the life of the connection |
| `ClientReuse.RecycledStreamIsPoisoned` | include/rillnet/client_connection.hpp:426-429 | so any frame on that identifier, for whatever later request, closes the connection and fails everything |
| `ClientReuse.PoisonedRequestNeverCompletes` | include/rillnet/client_connection.hpp:421-463 | over any run, a request active on an identifier that has had a terminal frame never gets result ok |
| `ClientReuse.RecycledStreamWitness` | include/rillnet/client_connection.hpp:421-463 | on every connection that can send a request, with every message and response: sent, written and answered twice, the second request gets the first one's identifier and its own response fails it and closes the connection |
| `ClientReading.CutsDoNotMatter` | include/rillnet/client_connection.hpp:367-411 | when no other step is taken between the reads, however the same bytes are cut the read loop leaves every request, channel, identifier and queued frame as one read of them all would |
| `ClientLoops.ReadsDispatchAccepted` | include/rillnet/client_connection.hpp:367-411 | whatever steps are taken between the reads of any part of what a queue of valid frames wrote, the decoder has no error and dispatch gets the first k accepted frames: those wholly arrived while the loop goes on, all of them in the end |
| `ClientLoops.BadHeaderFailsEverything` | include/rillnet/client_connection.hpp:400-405 | a header with a wrong field closes the transport and ends every active request, with unsupported_version if and only if the version is wrong and malformed_frame otherwise |
| `ClientLoops.LoopIsASchedule` | include/rillnet/client_connection.hpp:367-411 | every interleaving of reads with other steps is a schedule of the step system in which exactly the dispatched frames arrive, so all whole-run results hold of the loop |
| `ClientReading.AllClosedMeansFailed` | include/rillnet/client_connection.hpp:388-399 | when dispatching closes the transport nothing is left pending |
| `ClientObjects.PendingRequest.constructor` | include/rillnet/client_connection.hpp:53-67 | a new request is active, in no table, unreleased, with an open empty channel and an operation of its own |
| `ClientObjects.ClientConnection.constructor` | include/rillnet/client_connection.hpp:173-198 | a new connection object is the step system's initial client and satisfies the invariant |
| `ClientObjects.ClientConnection.CleanupPending` | include/rillnet/client_connection.hpp:530-546 | on heap objects: out of the table at most once and only its own entry, identifier back at most once |
| `ClientObjects.ClientConnection.SendCancellation` | include/rillnet/client_connection.hpp:548-557 | one cancel frame is offered to the queue and nothing else changes |
| `ClientObjects.ClientConnection.CancelPending` | include/rillnet/client_connection.hpp:507-518 | refines the step system and keeps the invariant; says false and changes nothing when the request had ended |
| `ClientObjects.ClientConnection.TimeoutPending` | include/rillnet/client_connection.hpp:496-505 | refines the step system and keeps the invariant |
| `ClientObjects.ClientConnection.DiscardPending` | include/rillnet/client_connection.hpp:520-528 | refines the step system and keeps the invariant |
| `ClientObjects.ClientConnection.DropHandle` | include/rillnet/client_connection.hpp:74-79 | the handle's destructor, whatever its caller is doing, refines the step system and keeps the invariant |
| `ClientObjects.ClientConnection.FailPending` | include/rillnet/client_connection.hpp:486-494 | the loop terminates with the table size as measure and equals failing every entry at once |
| `ClientObjects.ClientConnection.FailEntry` | include/rillnet/client_connection.hpp:488-493 | one turn takes one entry out of the table and does not change what failing the rest does |
| `ClientObjects.ClientConnection.FailConnection` | include/rillnet/client_connection.hpp:465-473 | fails everything pending and closes the transport |
| `ClientObjects.ClientConnection.BeginShutdown` | include/rillnet/client_connection.hpp:475-484 | reaches draining through the lifecycle table's own transitions |
| `ClientObjects.ClientConnection.EndShutdown` | include/rillnet/client_connection.hpp:224-230 | refines the step system and keeps the invariant |
| `ClientObjects.ClientConnection.EndReading` | include/rillnet/client_connection.hpp:408-411 | fails what is pending, closes the queue and the lifecycle |
| `ClientObjects.ClientConnection.BeginWait` | include/rillnet/client_connection.hpp:118-127 | async_wait up to its suspension |
| `ClientObjects.ClientConnection.EndWait` | include/rillnet/client_connection.hpp:125-141 | async_wait after its receive: it returns a response or the recorded status, never the fallback |
| `ClientObjects.ClientConnection.Dispatch` | include/rillnet/client_connection.hpp:414-456 | dispatch on heap objects refines the step system for every frame and keeps the invariant |
| `ClientObjects.ClientConnection.DispatchTo` | include/rillnet/client_connection.hpp:430-456 | cancel, error and response branches for the request found |
| `ClientObjects.ClientConnection.Reject` | include/rillnet/client_connection.hpp:436-447 | a peer error ends exactly the named request with the peer's status |
| `ClientObjects.ClientConnection.Respond` | include/rillnet/client_connection.hpp:448-456 | a response completes the request, delivers one frame and returns its identifier, or is refused without effect |
| `ClientObjects.ClientConnection.HandleRead` | include/rillnet/client_connection.hpp:388-405 | one turn of the read loop, decoder included, equals the specified read that CutsDoNotMatter is about |
| `ClientObjects.ClientConnection.DispatchFrames` | include/rillnet/client_connection.hpp:388-399 | the inner loop dispatches frames in order until one closes the transport |
| `ClientObjects.ClientConnection.StartRequest` | include/rillnet/client_connection.hpp:293-325 | start_request up to its suspension, with its three refusals, refines the step system and keeps the invariant |
| `ClientObjects.ClientConnection.FinishStart` | include/rillnet/client_connection.hpp:325-335 | the end of start_request: a handle, or the request failed and its identifier returned |
| `ClientObjects.ClientConnection.ResumeStart` | include/rillnet/client_connection.hpp:325-335 | start_request resumed from the write queue refines the step system |
| `ClientObjects.ClientConnection.Run` | include/rillnet/client_connection.hpp:236-245 | run reaches active only from created and starts both loops |
| `ClientObjects.ClientConnection.WriterReceives` | include/rillnet/write_queue.hpp:120-126 | the writer's receive on the connection's own queue: refines the step system and keeps the connection's invariant |
| `ClientObjects.ClientConnection.WriterTakes` | include/rillnet/write_queue.hpp:128-133 | the writer's take; the bytes handed to the transport are the frame's encoding: refines the step system and keeps the connection's invariant |
| `ClientObjects.ClientConnection.WriteSucceeds` | include/rillnet/write_queue.hpp:131-136 | a completed write: refines the step system and keeps the connection's invariant |
| `ClientObjects.ClientConnection.WriteFails` | include/rillnet/write_queue.hpp:137-140 | a write that failed after any number of bytes; queue and transport are closed: refines the step system and keeps the connection's invariant |
| `ClientObjects.ClientConnection.WriterEnds` | include/rillnet/write_queue.hpp:123-126 | the writer's return: refines the step system and keeps the connection's invariant |
| `ServerInvariant.DispatchInv` | include/rillnet/server_connection.hpp:241-309 | any valid incoming frame keeps the server invariant |
| `ServerInvariant.FinishHandlerInv` | include/rillnet/server_connection.hpp:323-341 | the end of a handler keeps the count, the table and the queue's idle-close condition |
| `ServerInvariant.HandlerStartsInv` | include/rillnet/server_connection.hpp:140-146 | a handler that starts, or fails to decode its request, keeps the invariant |
| `ServerInvariant.HandlerReturnsInv` | include/rillnet/server_connection.hpp:148-155 | a handler's return keeps the invariant on every path: not encodable, already ended, accepted, blocked, refused |
| `ServerInvariant.HandlerResumesInv` | include/rillnet/server_connection.hpp:154-155 | a response resumed from the write queue keeps the invariant |
| `ServerInvariant.EndReadingInv` | include/rillnet/server_connection.hpp:222-228 | the end of the read loop keeps the invariant |
| `ServerInvariant.EndShutdownInv` | include/rillnet/server_connection.hpp:117-122 | the end of shutdown keeps the invariant, by which every operation still in the table is then terminal |
| `ServerInvariant.ApplyInv` | include/rillnet/server_connection.hpp:101-341 | every step of the server keeps the invariant |
| `ServerTheorems.ReachableInv` | include/rillnet/server_connection.hpp:101-341 | every reachable server satisfies the invariant |
| `ServerTheorems.HandlerAccounting` | include/rillnet/server_connection.hpp:304-334 | the handler count is the table size and the number of unfinished runs, so it never underflows |
| `ServerTheorems.QueueClosesExactlyWhenIdle` | include/rillnet/server_connection.hpp:336-341 | the queue is closed if and only if its writer failed, or reading ended and no handler is left |
| `ServerTheorems.IdleCloseNeverRefuses` | include/rillnet/server_connection.hpp:336-341 | unless the writer failed, a live handler's response is refused if and only if it exceeds the queue's own limits |
| `ServerTheorems.ResponseSafety` | include/rillnet/server_connection.hpp:137-156 | each run sends at most one frame, legal and on its own stream; a success response if and only if its own operation was completed |
| `ServerLedger.WireCarriesWhatWasSent` | include/rillnet/server_connection.hpp:137-156 | the server's queue has accepted no frame other than an error frame more often than there are completed runs on its stream that sent exactly it |
| `ServerSending.SendingIsExact` | include/rillnet/server_connection.hpp:140-155 | every step hands the queue exactly the frame its cause calls for, and exactly what there is no room for, or meets a closed queue, is missed |
| `ServerSending.ResponseReachesTheQueue` | include/rillnet/server_connection.hpp:148-155 | a handler that returns with its operation active has its response in an open queue that can hold it, accepted at once if and only if there is room: the encoded value on its own stream with end_of_stream |
| `ServerSending.FailureReachesTheQueue` | include/rillnet/server_connection.hpp:140-146 | a handler that cannot decode its request puts an error frame with that status into a queue with room |
| `ServerSending.AnswerReachesTheQueue` | include/rillnet/server_connection.hpp:243-283 | a frame that calls for an answer gets one error frame in a queue with room: 1001 while shutting down, 3002 when too short to name its type, 3001 without a handler |
| `ServerSending.QueueHoldsWhatWasSent` | include/rillnet/server_connection.hpp:137-156 | unless the writer failed, a success response that fits is in the queue exactly as often as runs sent it, and those are completed runs on its stream |
| `ServerOutcomes.StepDecides` | include/rillnet/server_connection.hpp:137-341 | every step moves every run on, ends its operation and asks it to stop exactly as its cause says: own failure, own return, cancellation, lost connection, shutdown |
| `ServerOutcomes.FirstCauseWins` | include/rillnet/server_connection.hpp:137-341 | over any run the result of a handler's operation is that of the first cause that met it, and it has none exactly when no cause did |
| `ServerLifecycle.ShutdownBeginsToDrain` | include/rillnet/server_connection.hpp:366-375 | shutdown in any state drains the connection or finds it closed |
| `ServerLifecycle.NothingStartsAfterShutdown` | include/rillnet/server_connection.hpp:241-248 | from then on, over any run, no handler starts |
| `ServerLifecycle.EndsCloseTheConnection` | include/rillnet/server_connection.hpp:117-122 | the ends of reading and of shutdown close the connection, the latter with its transport |
| `ServerLifecycle.FailedWriteCloses` | include/rillnet/write_queue.hpp:137-140 | a failed write closes queue and transport, and no other step of the writer touches the transport |
| `ServerLifecycle.HandlersPersist` | include/rillnet/server_connection.hpp:129-138 | over any run the handled types are exactly the earlier ones and those registered on the way |
| `ServerLifecycle.RememberingIsExact` | include/rillnet/server_connection.hpp:241-321 | a stream is remembered as ended if and only if a frame marked as its last was answered at once or cancelled a live operation; the last frame of a request given to a handler is not remembered |
| `ServerLifecycle.EndedStreamStaysEnded` | include/rillnet/server_connection.hpp:255-258 | after such a frame, over any run, every further frame on the stream closes the transport unless the server is shutting down |
| `ServerTheorems.HandlersOnlyMoveForward` | include/rillnet/server_connection.hpp:231-334 | over any run operations end once, finished runs stay finished, and what was sent stays sent |
| `ServerTheorems.NoHandlerAfterReading` | include/rillnet/server_connection.hpp:222-228 | over any run after reading ended no handler starts and the count never rises |
| `ServerTheorems.AfterShutdown` | include/rillnet/server_connection.hpp:101-124 | over any run after shutdown every operation left is terminal, none is added and none ever becomes completed |
| `ServerTheorems.DrainingOnlyAnswers` | include/rillnet/server_connection.hpp:241-248 | over any run once shutting down: it stays so, no handler starts, and a run changes only by its own handler or the end of the connection, so no frame, a cancellation included, affects an operation; that each is answered is AnswerReachesTheQueue |
| `ServerTheorems.FrameIsolation` | include/rillnet/server_connection.hpp:241-309 | a frame leaves the connection open if and only if it is tolerated, and touches no run on another stream; a cancellation ends the one it names |
| `ServerTheorems.ClientSeesOnlyResponses` | include/rillnet/server_connection.hpp:311-314 | whatever a reachable server wrote, in any cuts, the client's decoder has no error and emits only legal responses |
| `ServerReading.CutsDoNotMatter` | include/rillnet/server_connection.hpp:174-228 | when no other step is taken between the reads, however the same bytes are cut the read loop starts the same handlers, ends the same operations and queues the same answers as one read of them all |
| `ServerLoops.ReadsDispatchAccepted` | include/rillnet/server_connection.hpp:174-228 | whatever handlers, writes and shutdown steps are taken between the reads of any part of what a queue of valid frames wrote, the decoder has no error and dispatch gets the first k accepted frames: those wholly arrived while the loop goes on, all of them in the end |
| `ServerLoops.BadHeaderClosesTheTransport` | include/rillnet/server_connection.hpp:208-220 | a header with a wrong field closes the transport and touches no handler |
| `ServerLoops.LoopIsASchedule` | include/rillnet/server_connection.hpp:174-228 | every interleaving of reads with other steps is a schedule of the step system in which exactly the dispatched frames arrive |
| `ServerObjects.HandlerTask.constructor` | include/rillnet/server_connection.hpp:284-297 | a spawned handler has a fresh active operation of its own and has sent nothing |
| `ServerObjects.ServerConnection.constructor` | include/rillnet/server_connection.hpp:69-89 | a new connection object is the step system's initial server and satisfies the invariant |
| `ServerObjects.ServerConnection.Handle` | include/rillnet/server_connection.hpp:129-138 | registering a handler keeps the invariant; a type unknown to the registry is ignored |
| `ServerObjects.ServerConnection.Dispatch` | include/rillnet/server_connection.hpp:241-309 | dispatch on heap objects refines the step system for every frame and keeps the invariant |
| `ServerObjects.ServerConnection.Accept` | include/rillnet/server_connection.hpp:271-309 | undecodable, unhandled, duplicate and accepted requests each take their own branch |
| `ServerObjects.ServerConnection.HandleRead` | include/rillnet/server_connection.hpp:196-220 | one turn of the read loop, decoder included, equals the specified read that CutsDoNotMatter is about |
| `ServerObjects.ServerConnection.DispatchFrames` | include/rillnet/server_connection.hpp:196-207 | the inner loop dispatches frames in order until one closes the transport, handlers started on the way included |
| `ServerObjects.ServerConnection.FailOperations` | include/rillnet/server_connection.hpp:231-239 | the loop over the table fails every operation once and equals failing them all at once |
| `ServerObjects.ServerConnection.FinishHandler` | include/rillnet/server_connection.hpp:331-334 | erases the run's entry, lowers the count without underflow and closes an idle queue |
| `ServerObjects.ServerConnection.CloseQueueWhenIdle` | include/rillnet/server_connection.hpp:336-341 | closes the queue only after reading ended and the last handler finished |
| `ServerObjects.ServerConnection.HandlerStarts` | include/rillnet/server_connection.hpp:138-148 | refines the step system; a request that cannot be decoded is answered with its status |
| `ServerObjects.ServerConnection.HandlerReturns` | include/rillnet/server_connection.hpp:148-155 | refines the step system; the response is sent only if this run's operation was completed just now |
| `ServerObjects.ServerConnection.HandlerResumes` | include/rillnet/server_connection.hpp:154-155 | refines the step system for a response that had to wait for space |
| `ServerObjects.ServerConnection.HandlerThrew` | include/rillnet/server_connection.hpp:326-334 | an exception ends only its own run and sends nothing |
| `ServerObjects.ServerConnection.EndReading` | include/rillnet/server_connection.hpp:222-228 | refines the step system, with operations failed only when the connection was lost |
| `ServerObjects.ServerConnection.BeginShutdown` | include/rillnet/server_connection.hpp:366-375 | reaches draining through the lifecycle table's own transitions |
| `ServerObjects.ServerConnection.EndShutdown` | include/rillnet/server_connection.hpp:117-122 | refines the step system and keeps the invariant |
| `ServerObjects.ServerConnection.Run` | include/rillnet/server_connection.hpp:159-168 | run reaches active only from created |
| `ServerObjects.ServerConnection.WriterReceives` | include/rillnet/write_queue.hpp:120-126 | the writer's receive on the connection's own queue: refines the step system and keeps the connection's invariant |
| `ServerObjects.ServerConnection.WriterTakes` | include/rillnet/write_queue.hpp:128-133 | the writer's take; the bytes handed to the transport are the frame's encoding: refines the step system and keeps the connection's invariant |
| `ServerObjects.ServerConnection.WriteSucceeds` | include/rillnet/write_queue.hpp:131-136 | a completed write: refines the step system and keeps the connection's invariant |
| `ServerObjects.ServerConnection.WriteFails` | include/rillnet/write_queue.hpp:137-140 | a write that failed after any number of bytes; queue and transport are closed: refines the step system and keeps the connection's invariant |
| `ServerObjects.ServerConnection.WriterEnds` | include/rillnet/write_queue.hpp:123-126 | the writer's return: refines the step system and keeps the connection's invariant |
| `Messages.RegisterEffect` | include/rillnet/message_registry.hpp:99-124 | a registration succeeds if and only if identifier and type are new, the identifier is not 0 and the codec supports the type; it then adds that one pair and changes no other lookup |
| `Messages.RegistrationsStayInverse` | include/rillnet/message_registry.hpp:99-124 | after any sequence of registrations the two per-version maps are mutual inverses |
| `Messages.RegistrationsPersist` | include/rillnet/message_registry.hpp:155-185 | what a type or an identifier means, it goes on meaning |
| `Messages.MessageRegistry.constructor` | include/rillnet/message_registry.hpp:33-34 | an empty registry is inverse |
| `Messages.MessageRegistry.RegisterMessage` | include/rillnet/message_registry.hpp:99-124 | the in-place update of the two maps equals the specified registration and keeps them inverse |
| `Messages.PeekEncoded` | include/rillnet/message_codec.hpp:49-80 | the type prefix of an encoded payload is the registered one, readable before any codec runs |
| `Messages.TypedRoundTrip` | include/rillnet/message_codec.hpp:49-147 | decoding an encoded message as its own type returns the value; as any other type, under any codec, it fails with unknown_message_type |
| `Messages.DecodingIsExact` | include/rillnet/message_codec.hpp:86-106 | decoding any payload: decode_error below four bytes, unknown_message_type unless the first four bytes are the type's identifier, otherwise the codec's answer to the rest |
| `Messages.EncodedIsLegal` | include/rillnet/message_codec.hpp:115-138 | encoding succeeds if and only if the type is known, the codec succeeds and the payload fits, and otherwise fails with exactly the status of the first of these; the frame is then legal for the peer |
| `Messages.EncodeMessagePayload` | include/rillnet/message_codec.hpp:49-70 | filling the buffer produces the type prefix followed by the codec's bytes |
| `TypedExchange.ConnectionFrames` | include/rillnet/message_codec.hpp:115-138 | the request and response frames of the two connections are encode_message's own |
| `TypedExchange.TypedDelivery` | include/rillnet/message_codec.hpp:115-147 | for each accepted frame that is a typed message's, whatever else was accepted: under every interleaving and every cut the frame the peer emits at its place is that frame and means that message, and it is emitted once run returned success and all was read |
| `TypedExchange.TypedRequestIsServed` | include/rillnet/server_connection.hpp:241-309 | a typed request on an unused stream starts exactly one handler, holding a frame that decodes to the client's value and to no other type, or none and an unknown_message_type answer; no other handler is touched |
| `TypedExchange.TypedResponseIsReceived` | include/rillnet/client_connection.hpp:448-456 | a typed response completes the request it names with a frame that decodes to the server's value and to no other type |
| `TypedExchange.ClientHearsServer` | include/rillnet/client_connection.hpp:367-411 | over whole runs of both, with any client steps between the reads: no decode error, and dispatch gets the first k frames the server's queue accepted, all responses, exactly those wholly arrived while the loop goes on |
| `TypedExchange.ServerHearsClient` | include/rillnet/server_connection.hpp:174-228 | over whole runs of both, with any server steps between the reads: no decode error, and dispatch gets the first k frames the client's queue accepted, all requests, exactly those wholly arrived while the loop goes on |

## Left out

- TCP client, server and transport classes, timers and real clocks: foreign I/O, modelled as the open flag, byte log and nondeterministic steps described above.
- Coroutine frame lifetime, executors, threads, coroutine cancellation and reentrant diagnostics callbacks: one executor with atomic steps is assumed.
- Diagnostics events and human-readable messages: they do not influence the protocol.
- Fairness of `enqueue`: a newly arriving producer may overtake a woken one, so order is stated by acceptance and not by call.
- End-to-end correlation of requests and responses across identifier reuse: a late response to a cancelled request can meet a newer request with the same identifier; `ClientReuse` shows what reuse costs.
- Cancellation of server handlers on a protocol violation: the code does not do it on those exits, and the model follows.
- The `drain_period` wait loop of `shutdown`: the end of the wait is a step that may be taken at any time once draining; what it does then is modelled.
- A stream identifier allocated for a request that could not be encoded stays in use in the code; it is tracked as leaked, not repaired.
- `Frames.StatusCode` names and their dispositions, version negotiation and status strings: finite tables.
- `PodCodec`'s byte layout: the codec is a parameter that is assumed to round-trip where a round trip is claimed.
- `MessageRegistry::contains` and the overloads with a default version: one-line lookups over the modelled maps.
- WriteQueueProgress.EveryProducerIsAccepted: assumes no fairness of the executor; what every schedule does is EveryScheduleDrains with InternalRunsAreBounded.
- ClientObjects.ClientConnection.BeginWait: one `async_wait` per handle is assumed, so a second one on the same handle is not modelled; on a completed request the code would suspend it on a channel that nothing sends to or closes.
- ServerObjects.ServerConnection.Dispatch: asks for a non-zero stream, which the decoder guarantees for every frame it emits.
