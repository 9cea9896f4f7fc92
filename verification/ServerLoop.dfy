/** The server's read loop among everything else: between two reads handlers run, the writer writes and
    shutdown may begin. Whatever happens, the loop hands to dispatch exactly what the peer's queue
    accepted, in order. */
module ServerLoops {
  import opened Bytes
  import opened Frames
  import opened FrameCodec
  import opened FrameDecoding
  import opened WirePath
  import Q = WriteQueues
  import opened Servers
  import opened ServerInvariant
  import opened ServerTheorems
  import opened ServerReading

  /** A connection with its decoder. The loop goes on while the transport is open after a read; a read
      already under way when something else closes the transport may still complete. */
  datatype Loop = Loop(
    server: Server, decoder: DecoderState, looping: bool,
    dispatched: seq<Frame>)   // every frame handed to dispatch

  datatype Step = Read(chunk: seq<u8>) | Other(event: Event)

  function Begin(limits: Q.Limits): Loop {
    Loop(Create(limits), INITIAL, true, [])
  }

  ghost predicate CanTake(l: Loop, step: Step) {
    Inv(l.server) &&
    match step
    case Read(_) => l.looping && l.server.started && l.server.reading
    case Other(e) => Enabled(l.server, e) && !e.FrameArrives? && !e.DecoderFails?
  }

  /** How many of a read's frames are dispatched: all of them, unless one closes the transport. */
  ghost function DispatchCount(s: Server, frames: seq<Frame>): (n: nat)
    requires Reading(s) && AllValid(frames, DEFAULT_MAX_PAYLOAD)
    ensures n <= |frames|
    decreases frames
  {
    if frames == [] then 0
    else
      DispatchReads(s, frames[0]);
      var s1 := Dispatch(s, frames[0]);
      if s1.transportOpen then 1 + DispatchCount(s1, frames[1..]) else 1
  }

  ghost function Take(l: Loop, step: Step): Loop
    requires CanTake(l, step)
  {
    match step
    case Read(chunk) =>
      FeedValid(l.decoder, chunk);
      var frames := Feed(DEFAULT_MAX_PAYLOAD, l.decoder, chunk).0;
      var (server, decoder) := HandleRead(l.server, l.decoder, chunk);
      Loop(server, decoder, server.transportOpen, l.dispatched + frames[..DispatchCount(l.server, frames)])
    case Other(e) =>
      InvTable(l.server);
      l.(server := Apply(l.server, e))
  }

  lemma InvTable(s: Server)
    requires Inv(s)
    ensures TableOk(s.runs, s.operations)
  {
  }

  ghost predicate LoopRuns(l: Loop, steps: seq<Step>, l': Loop)
    decreases steps
  {
    if steps == [] then l' == l else CanTake(l, steps[0]) && LoopRuns(Take(l, steps[0]), steps[1..], l')
  }

  /** What the transport delivered. */
  function Chunks(steps: seq<Step>): seq<seq<u8>> {
    if steps == [] then []
    else (if steps[0].Read? then [steps[0].chunk] else []) + Chunks(steps[1..])
  }

  lemma {:induction false} AllDispatched(s: Server, frames: seq<Frame>)
    requires Reading(s) && AllValid(frames, DEFAULT_MAX_PAYLOAD)
    ensures DispatchAll(s, frames).transportOpen ==> DispatchCount(s, frames) == |frames|
    decreases frames
  {
    hide Reading, Dispatch, IsValid;
    if frames != [] {
      DispatchReads(s, frames[0]);
      AllDispatched(Dispatch(s, frames[0]), frames[1..]);
    }
  }

  /** One read: the decoder takes its bytes, and what is dispatched is a prefix of what it emits, all of
      it if the loop goes on. */
  lemma ReadStep(l: Loop, chunk: seq<u8>)
    requires CanTake(l, Read(chunk))
    ensures var l1, (frames, st) := Take(l, Read(chunk)), Feed(DEFAULT_MAX_PAYLOAD, l.decoder, chunk);
            && l1.decoder == st && l1.dispatched <= l.dispatched + frames
            && (l1.looping ==> l1.dispatched == l.dispatched + frames)
  {
    hide Inv, Feed, AllValid;
    FeedValid(l.decoder, chunk);
    AllDispatched(l.server, Feed(DEFAULT_MAX_PAYLOAD, l.decoder, chunk).0);
  }

  /** The decoder sees the reads and nothing else, and a loop that has ended reads nothing more. */
  lemma {:induction false} LoopDecodes(l: Loop, steps: seq<Step>, l': Loop)
    requires LoopRuns(l, steps, l')
    ensures var (frames, st) := FeedAll(DEFAULT_MAX_PAYLOAD, l.decoder, Chunks(steps));
            && l'.decoder == st && l'.dispatched <= l.dispatched + frames
            && (l'.looping ==> l'.dispatched == l.dispatched + frames)
    ensures l'.looping ==> l.looping
    ensures !l.looping ==> Chunks(steps) == []
    decreases steps
  {
    hide CanTake, Take, Feed;
    if steps != [] {
      var l1 := Take(l, steps[0]);
      LoopDecodes(l1, steps[1..], l');
      var (rest, _) := FeedAll(DEFAULT_MAX_PAYLOAD, l1.decoder, Chunks(steps[1..]));
      match steps[0]
      case Read(chunk) =>
        ReadStep(l, chunk);
        ReadNeedsLoop(l, chunk);
        var (frames, st) := Feed(DEFAULT_MAX_PAYLOAD, l.decoder, chunk);
        assert ([chunk] + Chunks(steps[1..]))[1..] == Chunks(steps[1..]);
        assert (l.dispatched + frames) + rest == l.dispatched + (frames + rest);
      case Other(e) =>
        OtherStep(l, e);
        assert [] + Chunks(steps[1..]) == Chunks(steps[1..]);
    }
  }

  lemma ReadNeedsLoop(l: Loop, chunk: seq<u8>)
    requires CanTake(l, Read(chunk))
    ensures l.looping
  {
    hide Inv;
  }

  lemma OtherStep(l: Loop, e: Event)
    requires CanTake(l, Other(e))
    ensures var l1 := Take(l, Other(e));
            l1.decoder == l.decoder && l1.dispatched == l.dispatched && l1.looping == l.looping
  {
    hide Inv, Enabled, Apply;
  }

  /** From the peer's queue to dispatch, among everything else: as long as the reads deliver a prefix of
      what a queue of valid frames has written, then whatever steps are taken between them the decoder
      has no error and the frames handed to dispatch are the first k the queue accepted; while the loop
      goes on, exactly those whose bytes have wholly arrived, and all of them once run() has returned
      success and everything has been read. */
  lemma ReadsDispatchAccepted(l: Loop, steps: seq<Step>, l': Loop, q: Q.Queue) returns (k: nat)
    requires LoopRuns(l, steps, l') && l.decoder == INITIAL && l.dispatched == []
    requires Q.Inv(q) && AllValid(q.accepted, DEFAULT_MAX_PAYLOAD) && Flatten(Chunks(steps)) <= q.wire
    ensures l'.decoder.error == NoError
    ensures k <= |q.accepted| && l'.dispatched == q.accepted[..k]
    ensures l'.looping ==> EncodeAll(q.accepted[..k]) <= Flatten(Chunks(steps))
    ensures l'.looping && k < |q.accepted| ==> |Flatten(Chunks(steps))| < |EncodeAll(q.accepted[..k + 1])|
    ensures l'.looping && q.run.Finished? && Flatten(Chunks(steps)) == q.wire ==> k == |q.accepted|
  {
    hide LoopRuns, Q.Inv, FeedAll, Flatten, IsValid, EncodeAll;
    LoopDecodes(l, steps, l');
    var j := PeerSeesAPrefix(q, DEFAULT_MAX_PAYLOAD, Chunks(steps));
    if q.run.Finished? && Flatten(Chunks(steps)) == q.wire {
      PeerSeesEverything(q, DEFAULT_MAX_PAYLOAD, Chunks(steps));
    }
    k := |l'.dispatched|;
    assert [] + q.accepted[..j] == q.accepted[..j];
    assert l'.dispatched == q.accepted[..j][..k] == q.accepted[..k];
  }

  /** A header with a wrong field, arriving on its own, closes the transport and touches no handler. */
  lemma BadHeaderClosesTheTransport(s: Server, bytes: seq<u8>, error: FrameValidationError)
    requires Reading(s) && |bytes| == HEADER_SIZE && error != NoError
    requires Blames(error, HeaderOf(bytes), DEFAULT_MAX_PAYLOAD)
    ensures !HandleRead(s, INITIAL, bytes).0.transportOpen && HandleRead(s, INITIAL, bytes).0.runs == s.runs
  {
    hide Reading, Feed, HeaderOf, Blames;
    BadHeaderIsRejected(DEFAULT_MAX_PAYLOAD, bytes, error);
  }

  // ----- The loop is a schedule of the step system -----

  /** The frames that arrive in a schedule. */
  function Arrivals(es: seq<Event>): seq<Frame> {
    if es == [] then [] else (if es[0].FrameArrives? then [es[0].frame] else []) + Arrivals(es[1..])
  }

  lemma {:induction false} ArrivalsAppend(es: seq<Event>, fs: seq<Event>)
    ensures Arrivals(es + fs) == Arrivals(es) + Arrivals(fs)
    decreases es
  {
    if es == [] {
      assert es + fs == fs;
    } else {
      assert (es + fs)[0] == es[0] && (es + fs)[1..] == es[1..] + fs;
      ArrivalsAppend(es[1..], fs);
      var first := if es[0].FrameArrives? then [es[0].frame] else [];
      assert Arrivals(es + fs) == first + (Arrivals(es[1..]) + Arrivals(fs)) == (first + Arrivals(es[1..])) + Arrivals(fs);
    }
  }

  lemma {:induction false} RunsAppend(a: Server, es: seq<Event>, b: Server, fs: seq<Event>, c: Server)
    requires Runs(a, es, b) && Runs(b, fs, c)
    ensures Runs(a, es + fs, c) && Arrivals(es + fs) == Arrivals(es) + Arrivals(fs)
    decreases es
  {
    hide TableOk, Enabled, Apply, Arrivals;
    ArrivalsAppend(es, fs);
    if es == [] {
      assert es + fs == fs;
    } else {
      assert (es + fs)[0] == es[0] && (es + fs)[1..] == es[1..] + fs;
      RunsAppend(Apply(a, es[0]), es[1..], b, fs, c);
    }
  }

  lemma OneStep(s: Server, e: Event)
    requires Inv(s) && Enabled(s, e)
    ensures TableOk(s.runs, s.operations) && Runs(s, [e], Apply(s, e))
    ensures Arrivals([e]) == if e.FrameArrives? then [e.frame] else []
  {
    InvTable(s);
    hide Inv, TableOk, Enabled, Apply;
    assert [e][1..] == [];
    assert Runs(Apply(s, e), [], Apply(s, e));
  }

  lemma NoStep(s: Server)
    ensures Runs(s, [], s) && Arrivals([]) == []
  {
  }

  lemma {:induction false} FramesRun(s: Server, frames: seq<Frame>) returns (es: seq<Event>)
    requires Reading(s) && s.started && AllValid(frames, DEFAULT_MAX_PAYLOAD)
    ensures Runs(s, es, DispatchAll(s, frames)) && Arrivals(es) == frames[..DispatchCount(s, frames)]
    ensures DispatchAll(s, frames).started
    decreases frames
  {
    hide Reading, Dispatch, TableOk, IsValid, Runs, Arrivals;
    if frames == [] {
      NoStep(s);
      es := [];
    } else {
      var f := frames[0];
      FrameStep(s, f);
      var s1 := Dispatch(s, f);
      es := [FrameArrives(f)];
      if s1.transportOpen {
        var rest := FramesRun(s1, frames[1..]);
        RunsAppend(s, es, s1, rest, DispatchAll(s1, frames[1..]));
        es := es + rest;
        var n := DispatchCount(s1, frames[1..]);
        assert frames[..1 + n] == [f] + frames[1..][..n];
      } else {
        assert frames[..1] == [f];
      }
    }
  }

  lemma FrameStep(s: Server, f: Frame)
    requires Reading(s) && s.started && IsValid(f, DEFAULT_MAX_PAYLOAD)
    ensures TableOk(s.runs, s.operations) && Reading(Dispatch(s, f)) && Dispatch(s, f).started
    ensures Runs(s, [FrameArrives(f)], Dispatch(s, f)) && Arrivals([FrameArrives(f)]) == [f]
  {
    DispatchReads(s, f);
    hide Inv, TableOk, Dispatch, Runs, Arrivals, IsValid;
    DispatchShape(s, f);
    OneStep(s, FrameArrives(f));
  }

  /** Every interleaving of reads with other steps is a schedule of the step system, in which exactly
      the dispatched frames arrive: so everything proved of schedules holds of the loop. */
  lemma {:induction false} LoopIsASchedule(l: Loop, steps: seq<Step>, l': Loop) returns (es: seq<Event>)
    requires LoopRuns(l, steps, l')
    ensures Runs(l.server, es, l'.server) && l'.dispatched == l.dispatched + Arrivals(es)
    decreases steps
  {
    hide CanTake, Take;
    if steps == [] {
      es := [];
      assert l.dispatched + [] == l.dispatched;
    } else {
      var l1 := Take(l, steps[0]);
      var first := StepIsASchedule(l, steps[0]);
      var rest := LoopIsASchedule(l1, steps[1..], l');
      RunsAppend(l.server, first, l1.server, rest, l'.server);
      es := first + rest;
      assert (l.dispatched + Arrivals(first)) + Arrivals(rest) == l.dispatched + (Arrivals(first) + Arrivals(rest));
    }
  }

  lemma StepIsASchedule(l: Loop, step: Step) returns (es: seq<Event>)
    requires CanTake(l, step)
    ensures Runs(l.server, es, Take(l, step).server)
    ensures Take(l, step).dispatched == l.dispatched + Arrivals(es)
  {
    match step
    case Other(e) =>
      OneStep(l.server, e);
      es := [e];
      hide Inv, Enabled, Apply, Runs, Arrivals;
      assert l.dispatched + [] == l.dispatched;
    case Read(chunk) =>
      hide Inv, Feed, Runs, Arrivals, DispatchAll, AllValid;
      FeedValid(l.decoder, chunk);
      var (frames, st) := Feed(DEFAULT_MAX_PAYLOAD, l.decoder, chunk);
      es := FramesRun(l.server, frames);
      var s1 := DispatchAll(l.server, frames);
      if st.error != NoError {
        FailsStep(s1);
        RunsAppend(l.server, es, s1, [DecoderFails], s1.(transportOpen := false));
        assert Arrivals(es) + [] == Arrivals(es);
        es := es + [DecoderFails];
      }
  }

  lemma FailsStep(s: Server)
    requires Reading(s) && s.started
    ensures Runs(s, [DecoderFails], s.(transportOpen := false)) && Arrivals([DecoderFails]) == []
  {
    hide Inv, Runs, Arrivals;
    OneStep(s, DecoderFails);
  }
}
