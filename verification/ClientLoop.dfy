/** The client's read loop among everything else: between two reads any other steps may be taken.
    Whatever they are, the loop hands to dispatch exactly what the peer's queue accepted, in order. */
module ClientLoops {
  import opened Bytes
  import opened Frames
  import opened FrameCodec
  import opened FrameDecoding
  import opened StreamIds
  import opened WirePath
  import Q = WriteQueues
  import opened Clients
  import opened ClientInvariant
  import opened ClientTheorems
  import opened ClientReading
  import O = ClientOutcomes

  /** A connection with its decoder. The loop goes on while the transport is open after a read; a read
      already under way when something else closes the transport may still complete. */
  datatype Loop = Loop(
    client: Client, decoder: DecoderState, looping: bool,
    dispatched: seq<Frame>)   // every frame handed to dispatch

  datatype Step = Read(chunk: seq<u8>) | Other(event: Event)

  function Begin(limits: Q.Limits, maximumStreamId: u64): Loop {
    Loop(Create(limits, maximumStreamId), INITIAL, true, [])
  }

  ghost predicate CanTake(l: Loop, step: Step) {
    Inv(l.client) &&
    match step
    case Read(_) => l.looping && l.client.reading
    case Other(e) => Enabled(l.client, e) && !e.FrameArrives? && !e.DecoderFails?
  }

  /** How many of a read's frames are dispatched: all of them, unless one closes the transport. */
  ghost function DispatchCount(c: Client, frames: seq<Frame>): (n: nat)
    requires Inv(c)
    ensures n <= |frames|
    decreases frames
  {
    if frames == [] then 0
    else
      InvTable(c);
      DispatchInv(c, frames[0]);
      var c1 := Dispatch(c, frames[0]);
      if c1.transportOpen then 1 + DispatchCount(c1, frames[1..]) else 1
  }

  ghost function Take(l: Loop, step: Step): Loop
    requires CanTake(l, step)
  {
    match step
    case Read(chunk) =>
      var frames := Feed(DEFAULT_MAX_PAYLOAD, l.decoder, chunk).0;
      var (client, decoder) := HandleRead(l.client, l.decoder, chunk);
      Loop(client, decoder, client.transportOpen, l.dispatched + frames[..DispatchCount(l.client, frames)])
    case Other(e) =>
      InvTable(l.client);
      l.(client := Apply(l.client, e))
  }

  ghost predicate LoopRuns(l: Loop, steps: seq<Step>, l': Loop)
    decreases steps
  {
    if steps == [] then l' == l else CanTake(l, steps[0]) && LoopRuns(Take(l, steps[0]), steps[1..], l')
  }

  /** What the transport delivered. */
  function Chunks(steps: seq<Step>): seq<seq<u8>> {
    if steps == [] then []
    else (if steps[0].Read? then [steps[0].chunk] else []) + Chunks(steps[1..])
  }

  lemma {:induction false} AllDispatched(c: Client, frames: seq<Frame>)
    requires Inv(c)
    ensures DispatchAll(c, frames).transportOpen ==> DispatchCount(c, frames) == |frames|
    decreases frames
  {
    hide Inv, Dispatch;
    if frames != [] {
      InvTable(c);
      DispatchInv(c, frames[0]);
      AllDispatched(Dispatch(c, frames[0]), frames[1..]);
    }
  }

  /** One read: the decoder takes its bytes, and what is dispatched is a prefix of what it emits, all of
      it if the loop goes on. */
  lemma ReadStep(l: Loop, chunk: seq<u8>)
    requires CanTake(l, Read(chunk))
    ensures var l1, (frames, st) := Take(l, Read(chunk)), Feed(DEFAULT_MAX_PAYLOAD, l.decoder, chunk);
            && l1.decoder == st && l1.dispatched <= l.dispatched + frames
            && (l1.looping ==> l1.dispatched == l.dispatched + frames)
  {
    hide Inv, Feed, FailConnection;
    var (frames, st) := Feed(DEFAULT_MAX_PAYLOAD, l.decoder, chunk);
    AllDispatched(l.client, frames);
    if st.error != NoError {
      FailureCloses(DispatchAll(l.client, frames), StatusForValidation(st.error));
    }
  }

  /** The decoder sees the reads and nothing else, and a loop that has ended reads nothing more. */
  lemma {:induction false} LoopDecodes(l: Loop, steps: seq<Step>, l': Loop)
    requires LoopRuns(l, steps, l')
    ensures var (frames, st) := FeedAll(DEFAULT_MAX_PAYLOAD, l.decoder, Chunks(steps));
            && l'.decoder == st && l'.dispatched <= l.dispatched + frames
            && (l'.looping ==> l'.dispatched == l.dispatched + frames)
    ensures l'.looping ==> l.looping
    ensures !l.looping ==> Chunks(steps) == []
    decreases steps
  {
    hide CanTake, Take, Feed;
    if steps != [] {
      var l1 := Take(l, steps[0]);
      LoopDecodes(l1, steps[1..], l');
      var (rest, _) := FeedAll(DEFAULT_MAX_PAYLOAD, l1.decoder, Chunks(steps[1..]));
      match steps[0]
      case Read(chunk) =>
        ReadStep(l, chunk);
        ReadNeedsLoop(l, chunk);
        var (frames, st) := Feed(DEFAULT_MAX_PAYLOAD, l.decoder, chunk);
        assert ([chunk] + Chunks(steps[1..]))[1..] == Chunks(steps[1..]);
        assert (l.dispatched + frames) + rest == l.dispatched + (frames + rest);
      case Other(e) =>
        OtherStep(l, e);
        assert [] + Chunks(steps[1..]) == Chunks(steps[1..]);
    }
  }

  lemma ReadNeedsLoop(l: Loop, chunk: seq<u8>)
    requires CanTake(l, Read(chunk))
    ensures l.looping
  {
    hide Inv;
  }

  lemma OtherStep(l: Loop, e: Event)
    requires CanTake(l, Other(e))
    ensures var l1 := Take(l, Other(e));
            l1.decoder == l.decoder && l1.dispatched == l.dispatched && l1.looping == l.looping
  {
    hide Inv, Enabled, Apply;
  }

  /** From the peer's queue to dispatch, among everything else: as long as the reads deliver a prefix of
      what a queue of valid frames has written, then whatever steps are taken between them the decoder
      has no error and the frames handed to dispatch are the first k the queue accepted; while the loop
      goes on, exactly those whose bytes have wholly arrived, and all of them once run() has returned
      success and everything has been read. */
  lemma ReadsDispatchAccepted(l: Loop, steps: seq<Step>, l': Loop, q: Q.Queue) returns (k: nat)
    requires LoopRuns(l, steps, l') && l.decoder == INITIAL && l.dispatched == []
    requires Q.Inv(q) && AllValid(q.accepted, DEFAULT_MAX_PAYLOAD) && Flatten(Chunks(steps)) <= q.wire
    ensures l'.decoder.error == NoError
    ensures k <= |q.accepted| && l'.dispatched == q.accepted[..k]
    ensures l'.looping ==> EncodeAll(q.accepted[..k]) <= Flatten(Chunks(steps))
    ensures l'.looping && k < |q.accepted| ==> |Flatten(Chunks(steps))| < |EncodeAll(q.accepted[..k + 1])|
    ensures l'.looping && q.run.Finished? && Flatten(Chunks(steps)) == q.wire ==> k == |q.accepted|
  {
    hide LoopRuns, Q.Inv, FeedAll, Flatten, IsValid, EncodeAll;
    LoopDecodes(l, steps, l');
    var j := PeerSeesAPrefix(q, DEFAULT_MAX_PAYLOAD, Chunks(steps));
    if q.run.Finished? && Flatten(Chunks(steps)) == q.wire {
      PeerSeesEverything(q, DEFAULT_MAX_PAYLOAD, Chunks(steps));
    }
    k := |l'.dispatched|;
    assert [] + q.accepted[..j] == q.accepted[..j];
    assert l'.dispatched == q.accepted[..j][..k] == q.accepted[..k];
  }

  /** A header with a wrong field, arriving on its own, fails the whole connection: the transport is
      closed, nothing is left pending and every active request ends with unsupported_version when the
      version is the wrong field and malformed_frame when another is. */
  lemma BadHeaderFailsEverything(c: Client, bytes: seq<u8>, error: FrameValidationError, r: nat)
    requires Inv(c) && |bytes| == HEADER_SIZE && error != NoError
    requires Blames(error, HeaderOf(bytes), DEFAULT_MAX_PAYLOAD)
    requires r < |c.requests| && c.requests[r].op.state.OpActive?
    ensures var h, c' := HeaderOf(bytes), HandleRead(c, INITIAL, bytes).0;
            && !c'.transportOpen && c'.pending == map[] && r < |c'.requests|
            && c'.requests[r].op.result
               == Some(if h.version.major != 0 || h.version.minor != 1 then UnsupportedVersionStatus else MalformedFrame)
  {
    hide Inv, Feed, HeaderOf, FailOne;
    BadHeaderIsRejected(DEFAULT_MAX_PAYLOAD, bytes, error);
    O.FailPendingEnds(c, StatusForValidation(error), r);
  }

  // ----- The loop is a schedule of the step system -----

  /** The frames that arrive in a schedule. */
  function Arrivals(es: seq<Event>): seq<Frame> {
    if es == [] then [] else (if es[0].FrameArrives? then [es[0].frame] else []) + Arrivals(es[1..])
  }

  lemma {:induction false} ArrivalsAppend(es: seq<Event>, fs: seq<Event>)
    ensures Arrivals(es + fs) == Arrivals(es) + Arrivals(fs)
    decreases es
  {
    if es == [] {
      assert es + fs == fs;
    } else {
      assert (es + fs)[0] == es[0] && (es + fs)[1..] == es[1..] + fs;
      ArrivalsAppend(es[1..], fs);
      var first := if es[0].FrameArrives? then [es[0].frame] else [];
      assert Arrivals(es + fs) == first + (Arrivals(es[1..]) + Arrivals(fs)) == (first + Arrivals(es[1..])) + Arrivals(fs);
    }
  }

  lemma {:induction false} RunsAppend(a: Client, es: seq<Event>, b: Client, fs: seq<Event>, c: Client)
    requires Runs(a, es, b) && Runs(b, fs, c)
    ensures Runs(a, es + fs, c) && Arrivals(es + fs) == Arrivals(es) + Arrivals(fs)
    decreases es
  {
    hide TableOk, Enabled, Apply, Arrivals;
    ArrivalsAppend(es, fs);
    if es == [] {
      assert es + fs == fs;
    } else {
      assert (es + fs)[0] == es[0] && (es + fs)[1..] == es[1..] + fs;
      RunsAppend(Apply(a, es[0]), es[1..], b, fs, c);
    }
  }

  lemma OneStep(c: Client, e: Event)
    requires Inv(c) && Enabled(c, e)
    ensures TableOk(c.requests, c.pending) && Runs(c, [e], Apply(c, e))
    ensures Arrivals([e]) == if e.FrameArrives? then [e.frame] else []
  {
    InvTable(c);
    hide Inv, TableOk, Enabled, Apply;
    assert [e][1..] == [];
    assert Runs(Apply(c, e), [], Apply(c, e));
  }

  lemma NoStep(c: Client)
    ensures Runs(c, [], c) && Arrivals([]) == []
  {
  }

  lemma {:induction false} FramesRun(c: Client, frames: seq<Frame>) returns (es: seq<Event>)
    requires Inv(c) && c.reading
    ensures Runs(c, es, DispatchAll(c, frames)) && Arrivals(es) == frames[..DispatchCount(c, frames)]
    ensures DispatchAll(c, frames).reading
    decreases frames
  {
    hide Inv, Dispatch, TableOk, Runs, Arrivals;
    if frames == [] {
      NoStep(c);
      es := [];
    } else {
      var f := frames[0];
      FrameStep(c, f);
      var c1 := Dispatch(c, f);
      es := [FrameArrives(f)];
      if c1.transportOpen {
        var rest := FramesRun(c1, frames[1..]);
        RunsAppend(c, es, c1, rest, DispatchAll(c1, frames[1..]));
        es := es + rest;
        var n := DispatchCount(c1, frames[1..]);
        assert frames[..1 + n] == [f] + frames[1..][..n];
      } else {
        assert frames[..1] == [f];
      }
    }
  }

  lemma FrameStep(c: Client, f: Frame)
    requires Inv(c) && c.reading
    ensures TableOk(c.requests, c.pending) && Inv(Dispatch(c, f)) && Dispatch(c, f).reading
    ensures Runs(c, [FrameArrives(f)], Dispatch(c, f)) && Arrivals([FrameArrives(f)]) == [f]
  {
    DispatchInv(c, f);
    InvTable(c);
    DispatchKeepsReading(c, f);
    hide Inv, TableOk, Dispatch, Runs, Arrivals;
    OneStep(c, FrameArrives(f));
  }

  lemma DispatchKeepsReading(c: Client, f: Frame)
    requires TableOk(c.requests, c.pending)
    ensures Dispatch(c, f).reading == c.reading
  {
    hide TableOk, HasFlag, DecodeErrorStatus, CloseChannel, Deliver, Q.TryEnqueue, CancelFrame, Release, FailOne;
  }

  /** Every interleaving of reads with other steps is a schedule of the step system, in which exactly
      the dispatched frames arrive: so everything proved of schedules holds of the loop. */
  lemma {:induction false} LoopIsASchedule(l: Loop, steps: seq<Step>, l': Loop) returns (es: seq<Event>)
    requires LoopRuns(l, steps, l')
    ensures Runs(l.client, es, l'.client) && l'.dispatched == l.dispatched + Arrivals(es)
    decreases steps
  {
    hide CanTake, Take;
    if steps == [] {
      es := [];
      assert l.dispatched + [] == l.dispatched;
    } else {
      var l1 := Take(l, steps[0]);
      var first := StepIsASchedule(l, steps[0]);
      var rest := LoopIsASchedule(l1, steps[1..], l');
      RunsAppend(l.client, first, l1.client, rest, l'.client);
      es := first + rest;
      assert (l.dispatched + Arrivals(first)) + Arrivals(rest) == l.dispatched + (Arrivals(first) + Arrivals(rest));
    }
  }

  lemma StepIsASchedule(l: Loop, step: Step) returns (es: seq<Event>)
    requires CanTake(l, step)
    ensures Runs(l.client, es, Take(l, step).client)
    ensures Take(l, step).dispatched == l.dispatched + Arrivals(es)
  {
    match step
    case Other(e) =>
      OneStep(l.client, e);
      es := [e];
      hide Inv, Enabled, Apply, Runs, Arrivals;
      assert l.dispatched + [] == l.dispatched;
    case Read(chunk) =>
      hide Inv, Feed, Runs, Arrivals, DispatchAll, FailConnection;
      var (frames, st) := Feed(DEFAULT_MAX_PAYLOAD, l.decoder, chunk);
      es := FramesRun(l.client, frames);
      var c1 := DispatchAll(l.client, frames);
      if st.error != NoError {
        FailsStep(c1, st.error);
        RunsAppend(l.client, es, c1, [DecoderFails(st.error)], FailConnection(c1, StatusForValidation(st.error)));
        assert Arrivals(es) + [] == Arrivals(es);
        es := es + [DecoderFails(st.error)];
      }
  }

  lemma FailsStep(c: Client, error: FrameValidationError)
    requires Inv(c) && c.reading && error != NoError
    ensures Runs(c, [DecoderFails(error)], FailConnection(c, StatusForValidation(error)))
    ensures Arrivals([DecoderFails(error)]) == []
  {
    hide Inv, FailConnection, Runs, Arrivals;
    OneStep(c, DecoderFails(error));
  }
}
