/** Typed messages over whole connections: what a value encoded on one side becomes on the other. */
module TypedExchange {
  import opened Bytes
  import opened Frames
  import opened Messages
  import opened FrameCodec
  import opened FrameDecoding
  import opened Operations
  import opened WirePath
  import Q = WriteQueues
  import C = Clients
  import CI = ClientInvariant
  import CT = ClientTheorems
  import CL = ClientLoops
  import S = Servers
  import SI = ServerInvariant
  import ST = ServerTheorems
  import SL = ServerLoops

  /** A value of an application type, on its way over a stream. */
  datatype Typed<V> = Typed(t: TypeId, value: V, stream: u64)

  function Encode<V>(regs: Registrations, codec: Codec<V>, m: Typed<V>, kind: u8, flags: u8): FrameResult {
    EncodeMessage(regs, codec, m.t, m.value, m.stream, kind, flags, DEFAULT_MAX_PAYLOAD, CURRENT_VERSION)
  }

  /** frame is the frame of message m. */
  predicate FrameOf<V>(regs: Registrations, codec: Codec<V>, m: Typed<V>, kind: u8, flags: u8, frame: Frame) {
    Encode(regs, codec, m, kind, flags) == Framed(frame)
  }

  /** frame means m to a receiver: its own type gives the value back, and any other type, under any
      codec, is refused as unknown. */
  ghost predicate Means<V(!new)>(regs: Registrations, codec: Codec<V>, m: Typed<V>, frame: Frame) {
    && frame.header.stream == m.stream
    && DecodeMessage(regs, codec, m.t, frame) == Decoded(m.value)
    && (forall other: TypeId, anyCodec: Codec<V> ::
          other != m.t ==> DecodeMessage(regs, anyCodec, other, frame) == DecodeFailed(UnknownMessageType))
  }

  lemma EncodedMeans<V(!new)>(regs: Registrations, codec: Codec<V>, m: Typed<V>, kind: u8, flags: u8, frame: Frame)
    requires Inverse(regs) && RoundTrips(codec, m.t) && FrameOf(regs, codec, m, kind, flags, frame)
    ensures Means(regs, codec, m, frame)
  {
    hide Inverse, RoundTrips, DecodeMessage, EncodePayload;
    forall other: TypeId, anyCodec: Codec<V>
      ensures DecodeMessage(regs, codec, m.t, frame) == Decoded(m.value)
      ensures other != m.t ==> DecodeMessage(regs, anyCodec, other, frame) == DecodeFailed(UnknownMessageType)
    {
      TypedRoundTrip(regs, codec, m.t, m.value, m.stream, kind, flags, DEFAULT_MAX_PAYLOAD, CURRENT_VERSION, other, anyCodec);
    }
    assert DecodeMessage(regs, codec, m.t, frame) == Decoded(m.value) by {
      TypedRoundTrip(regs, codec, m.t, m.value, m.stream, kind, flags, DEFAULT_MAX_PAYLOAD, CURRENT_VERSION, m.t, codec);
    }
  }

  /** The frames the two connections send are encode_message's own. */
  lemma ConnectionFrames<V>(regs: Registrations, codec: Codec<V>, m: Typed<V>)
    ensures Encode(regs, codec, m, REQUEST, NO_FLAGS).Framed? ==>
              var f := Encode(regs, codec, m, REQUEST, NO_FLAGS).frame;
              |f.payload| <= DEFAULT_MAX_PAYLOAD && f == C.RequestFrame(m.stream, f.payload)
    ensures Encode(regs, codec, m, RESPONSE, NO_FLAGS).Framed? ==>
              var f := Encode(regs, codec, m, RESPONSE, NO_FLAGS).frame;
              && |f.payload| <= DEFAULT_MAX_PAYLOAD
              && FrameOf(regs, codec, m, RESPONSE, WithEndOfStream(NO_FLAGS), S.ResponseFrame(m.stream, f.payload))
  {
    hide EncodePayload;
  }

  /** Typed delivery, for each frame on its own: whatever else the queue accepted, if its i-th frame is
      that of a typed message then, under every interleaving that produced the queue and every cut of
      its bytes into reads, the peer's decoder has no error and the i-th frame it emits is that frame
      and means that message; it has been emitted once run() has returned success and everything has
      been read. */
  lemma TypedDelivery<V(!new)>(regs: Registrations, codec: Codec<V>, m: Typed<V>, kind: u8, flags: u8, q: Q.Queue,
                               i: nat, chunks: seq<seq<u8>>)
    requires Inverse(regs) && RoundTrips(codec, m.t)
    requires Q.Inv(q) && AllValid(q.accepted, DEFAULT_MAX_PAYLOAD) && Flatten(chunks) <= q.wire
    requires i < |q.accepted| && FrameOf(regs, codec, m, kind, flags, q.accepted[i])
    ensures var (frames, st) := FeedAll(DEFAULT_MAX_PAYLOAD, INITIAL, chunks);
            && st.error == NoError
            && (i < |frames| ==> frames[i] == q.accepted[i] && Means(regs, codec, m, frames[i]))
            && (q.run.Finished? && Flatten(chunks) == q.wire ==> i < |frames|)
  {
    hide Inverse, RoundTrips, FrameOf, Means, Q.Inv, FeedAll, Flatten, IsValid;
    var k := PeerSeesAPrefix(q, DEFAULT_MAX_PAYLOAD, chunks);
    if q.run.Finished? && Flatten(chunks) == q.wire {
      PeerSeesEverything(q, DEFAULT_MAX_PAYLOAD, chunks);
    }
    EncodedMeans(regs, codec, m, kind, flags, q.accepted[i]);
  }

  /** A typed request on a stream the server is not using starts exactly one handler, holding a frame
      that decodes to the client's value and to no other type, when the type has a handler; otherwise it
      starts none and is answered with unknown_message_type. Either way no other handler is touched and
      the connection stays open. */
  lemma TypedRequestIsServed<V(!new)>(s: S.Server, regs: Registrations, codec: Codec<V>, m: Typed<V>, f: Frame)
    requires SI.Inv(s) && !ShuttingDown(s.state)
    requires Inverse(regs) && RoundTrips(codec, m.t) && FrameOf(regs, codec, m, REQUEST, NO_FLAGS, f)
    requires m.stream !in s.terminal && m.stream !in s.operations
    ensures Means(regs, codec, m, f)
    ensures WireTypeOf(regs, CURRENT_VERSION, m.t).Some?
    ensures var s' := S.Dispatch(s, f);
            && s'.transportOpen == s.transportOpen
            && if WireTypeOf(regs, CURRENT_VERSION, m.t).value in s.handlers
               then s'.runs == s.runs + [S.HandlerRun(f, FRESH_OP, S.Spawned, [])] && s'.queue == s.queue
               else s'.runs == s.runs
                    && s'.queue == Q.TryEnqueue(s.queue, ErrorFrame(m.stream, UnknownMessageType)).0
  {
    hide Inverse, RoundTrips, FrameOf, Means, SI.Inv, S.TableOk, S.Accept, WireTypeOf, HasFlag;
    EncodedMeans(regs, codec, m, REQUEST, NO_FLAGS, f);
    PeekFrame(regs, codec, m, f);
    AcceptsTyped(s, f);
  }

  lemma AcceptsTyped(s: S.Server, f: Frame)
    requires PeekMessageType(f.payload).Some? && f.header.stream !in s.operations
    ensures var s', t := S.Accept(s, f), f.header.stream;
            && s'.transportOpen == s.transportOpen
            && if PeekMessageType(f.payload).value in s.handlers
               then s'.runs == s.runs + [S.HandlerRun(f, FRESH_OP, S.Spawned, [])] && s'.queue == s.queue
               else s'.runs == s.runs && s'.queue == Q.TryEnqueue(s.queue, ErrorFrame(t, UnknownMessageType)).0
  {
    hide Q.TryEnqueue, ErrorFrame, PeekMessageType, HasFlag;
  }

  lemma PeekFrame<V>(regs: Registrations, codec: Codec<V>, m: Typed<V>, f: Frame)
    requires FrameOf(regs, codec, m, REQUEST, NO_FLAGS, f)
    ensures PeekMessageType(f.payload) == WireTypeOf(regs, CURRENT_VERSION, m.t)
    ensures PeekMessageType(f.payload).Some?
    ensures f.header.kind == REQUEST && f.header.stream == m.stream && !HasFlag(f.header.flags, CANCEL)
  {
    PeekEncoded(regs, codec, m.t, m.value, CURRENT_VERSION);
    hide PeekMessageType, EncodePayload;
  }

  /** A typed response completes the request it names, on a stream that has had no terminal frame, and
      what the caller will wait out is the server's value. */
  lemma TypedResponseIsReceived<V(!new)>(c: C.Client, regs: Registrations, codec: Codec<V>, m: Typed<V>, f: Frame)
    requires CI.Inv(c) && c.transportOpen && m.stream in c.pending && m.stream !in c.terminal
    requires Inverse(regs) && RoundTrips(codec, m.t)
    requires FrameOf(regs, codec, m, RESPONSE, WithEndOfStream(NO_FLAGS), f)
    ensures var r, c' := c.pending[m.stream], C.Dispatch(c, f);
            && r < |c'.requests| && c'.requests[r].op.state.OpCompleted?
            && c'.requests[r].delivered == [f] && Means(regs, codec, m, f)
  {
    EncodedMeans(regs, codec, m, RESPONSE, WithEndOfStream(NO_FLAGS), f);
    ResponseHeader(regs, codec, m, f);
    hide Inverse, RoundTrips, FrameOf, Means, CI.Inv, C.Dispatch, HasFlag;
    CT.ResponseCompletesIff(c, f);
  }

  lemma ResponseHeader<V>(regs: Registrations, codec: Codec<V>, m: Typed<V>, f: Frame)
    requires FrameOf(regs, codec, m, RESPONSE, WithEndOfStream(NO_FLAGS), f)
    ensures f.header.kind == RESPONSE && f.header.stream == m.stream
    ensures !HasFlag(f.header.flags, CANCEL) && !HasFlag(f.header.flags, ERROR)
  {
    hide EncodePayload;
  }

  /** From a server to a client over whole runs of both: a client that reads any part of what a
      reachable server has written, in any cuts and with any of its own steps between the reads, has no
      decode error and dispatches the first k frames the server's queue accepted, all of them responses
      and nothing else; while its loop goes on these are exactly the frames that have wholly arrived,
      and all of them once the server's run() has returned success and everything has been read. */
  lemma ClientHearsServer(limits: Q.Limits, maximum: u64, steps: seq<CL.Step>, l: CL.Loop, s: S.Server) returns (k: nat)
    requires CL.LoopRuns(CL.Begin(limits, maximum), steps, l)
    requires ST.Reachable(s) && Flatten(CL.Chunks(steps)) <= s.queue.wire
    ensures CT.Reachable(l.client) && l.decoder.error == NoError
    ensures k <= |s.queue.accepted| && l.dispatched == s.queue.accepted[..k]
    ensures forall i :: 0 <= i < k ==> LegalFor(s.queue.accepted[i], RESPONSE)
    ensures l.looping && k < |s.queue.accepted| ==>
              |Flatten(CL.Chunks(steps))| < |EncodeAll(s.queue.accepted[..k + 1])|
    ensures l.looping && s.queue.run.Finished? && Flatten(CL.Chunks(steps)) == s.queue.wire ==> k == |s.queue.accepted|
  {
    hide CL.LoopRuns, ST.Reachable, Q.Inv, Flatten, LegalFor, IsValid, SI.RunsOk, S.TableOk, SI.QueueOk, EncodeAll,
      CT.Runs, C.Create;
    ST.ReachableInv(s);
    ST.AcceptedAreLegal(s.runs, s.queue);
    k := CL.ReadsDispatchAccepted(CL.Begin(limits, maximum), steps, l, s.queue);
    var es := CL.LoopIsASchedule(CL.Begin(limits, maximum), steps, l);
  }

  /** And from a client to a server, over whole runs of both. */
  lemma ServerHearsClient(limits: Q.Limits, steps: seq<SL.Step>, l: SL.Loop, c: C.Client) returns (k: nat)
    requires SL.LoopRuns(SL.Begin(limits), steps, l)
    requires CT.Reachable(c) && Flatten(SL.Chunks(steps)) <= c.queue.wire
    ensures ST.Reachable(l.server) && l.decoder.error == NoError
    ensures k <= |c.queue.accepted| && l.dispatched == c.queue.accepted[..k]
    ensures forall i :: 0 <= i < k ==> LegalFor(c.queue.accepted[i], REQUEST)
    ensures l.looping && k < |c.queue.accepted| ==>
              |Flatten(SL.Chunks(steps))| < |EncodeAll(c.queue.accepted[..k + 1])|
    ensures l.looping && c.queue.run.Finished? && Flatten(SL.Chunks(steps)) == c.queue.wire ==> k == |c.queue.accepted|
  {
    hide SL.LoopRuns, CT.Reachable, Q.Inv, Flatten, LegalFor, IsValid, CI.RequestsOk, C.TableOk, CI.OwnershipOk,
      CI.QueueOk, CI.OffersOk, EncodeAll, ST.Runs, S.Create;
    CT.ReachableInv(c);
    CT.AcceptedAreLegal(c.requests, c.queue);
    k := SL.ReadsDispatchAccepted(SL.Begin(limits), steps, l, c.queue);
    var es := SL.LoopIsASchedule(SL.Begin(limits), steps, l);
  }
}
