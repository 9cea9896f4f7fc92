/** What the server sends: every step hands the write queue exactly the frame its cause calls for, and
    only what there is no room for is missed. */
module ServerSending {
  import opened Bytes
  import opened Frames
  import opened FrameCodec
  import opened Operations
  import Q = WriteQueues
  import L = WriteQueueLedger
  import opened Servers
  import opened ServerInvariant
  import opened ServerTheorems
  import opened ServerLedger

  /** The error status an incoming frame is answered with, if it is answered at once: a server shutting
      down answers everything; otherwise a request that is no cancellation is answered when it is too
      short to name its type, or names one that has no handler. */
  function AnswerTo(s: Server, f: Frame): Option<StatusCode> {
    if ShuttingDown(s.state) then Some(ConnectionClosed)
    else if f.header.kind != REQUEST || f.header.stream in s.terminal || HasFlag(f.header.flags, CANCEL) then None
    else if |f.payload| < 4 then Some(DecodeError)
    else if ReadBe32(f.payload, 0) !in s.handlers then Some(UnknownMessageType)
    else None
  }

  /** The frame a step hands to the write queue. */
  ghost function Sends(s: Server, e: Event): multiset<Frame>
    requires Enabled(s, e)
  {
    match e
    case FrameArrives(f) =>
      if AnswerTo(s, f).Some? then multiset{ErrorFrame(f.header.stream, AnswerTo(s, f).value)} else multiset{}
    case HandlerBegins(h, failure) =>
      if failure.Some? then multiset{ErrorFrame(s.runs[h].stream, failure.value)} else multiset{}
    case HandlerReturned(h, body) =>
      if body.Some? && s.runs[h].op.state.OpActive?
      then multiset{ResponseFrame(s.runs[h].stream, body.value)} else multiset{}
    case _ => multiset{}
  }

  /** The frame a step leaves out of the queue for good: an error frame there is no room for, a response
      that meets a closed queue or could never fit, or one that was waiting when it closed. */
  ghost function Misses(s: Server, e: Event): multiset<Frame>
    requires Enabled(s, e)
  {
    match e
    case ResponseResumes(h) => if s.queue.closed then multiset{s.queue.producers[h].frame} else multiset{}
    case HandlerReturned(_, _) => L.LeftOut(Sends(s, e), L.Unwelcome(s.queue))
    case _ => L.LeftOut(Sends(s, e), L.NoRoom(s.queue))
  }

  // ----- Steps -----

  lemma SendErrorMoves(s: Server, stream: u64, status: StatusCode)
    requires Q.Core(s.queue)
    ensures var f := ErrorFrame(stream, status);
            L.Moves(s.queue, SendError(s, stream, status).queue, multiset{f}, L.LeftOut(multiset{f}, L.NoRoom(s.queue)))
  {
    hide Q.Core, Q.TryEnqueue, L.Moves, L.LeftOut, L.NoRoom, ErrorFrame;
    L.TryEnqueueMoves(s.queue, ErrorFrame(stream, status));
  }

  lemma FinishMoves(s: Server, h: nat, x: HandlerRun)
    requires h < |s.runs| && s.activeHandlers > 0
    ensures L.Moves(s.queue, FinishHandler(s, h, x).queue, multiset{}, multiset{})
  {
    hide L.Moves, Q.CloseQueue;
    L.NothingMoves(s.queue);
    L.CloseMoves(s.queue);
  }

  lemma RespondedMoves(s: Server, h: nat, y: HandlerRun, outcome: Q.Outcome)
    requires h < |s.runs| && s.activeHandlers > 0
    ensures L.Moves(s.queue, Responded(s, h, y, outcome).queue, multiset{}, multiset{})
  {
    hide L.Moves, FinishHandler;
    L.NothingMoves(s.queue);
    FinishMoves(s, h, y);
  }

  lemma StartsMoves(s: Server, h: nat, failure: Option<StatusCode>)
    requires Q.Core(s.queue) && Enabled(s, HandlerBegins(h, failure))
    ensures L.Moves(s.queue, HandlerStarts(s, h, failure).queue, Sends(s, HandlerBegins(h, failure)),
                    Misses(s, HandlerBegins(h, failure)))
  {
    hide Q.Core, L.Moves, L.LeftOut, L.NoRoom, L.Unwelcome, ErrorFrame, FinishHandler, SendError;
    match failure
    case None =>
      L.NothingMoves(s.queue);
      NothingLeftOut(L.NoRoom(s.queue));
    case Some(status) =>
      var x, f := s.runs[h], ErrorFrame(s.runs[h].stream, status);
      var s1 := SendError(s, x.stream, status);
      SendErrorMoves(s, x.stream, status);
      SendErrorKeeps(s, x.stream, status);
      FinishMoves(s1, h, x.(op := Fail(x.op, status).0, sent := x.sent + [f]));
      L.MovesTwice(s.queue, s1.queue, HandlerStarts(s, h, failure).queue, multiset{f},
                   L.LeftOut(multiset{f}, L.NoRoom(s.queue)));
  }

  lemma NothingLeftOut(refused: Frame -> bool)
    ensures L.LeftOut(multiset{}, refused) == multiset{}
  {
  }

  lemma ReturnsMoves(s: Server, h: nat, body: Option<seq<u8>>)
    requires Q.Core(s.queue) && h !in s.queue.producers && Enabled(s, HandlerReturned(h, body)) && RunOk(s.runs[h])
    ensures L.Moves(s.queue, HandlerReturns(s, h, body).queue, Sends(s, HandlerReturned(h, body)),
                    Misses(s, HandlerReturned(h, body)))
  {
    var x := s.runs[h];
    assert Complete(x.op).1 == x.op.state.OpActive?;
    hide Q.Core, L.Moves, L.LeftOut, L.NoRoom, L.Unwelcome, FinishHandler, Responded, ResponseFrame, Q.Enqueue, RunOk,
      Complete;
    if body.None? || !x.op.state.OpActive? {
      FinishMoves(s, h, x);
      NothingLeftOut(L.Unwelcome(s.queue));
    } else {
      var f := ResponseFrame(x.stream, body.value);
      var (queue, outcome) := Q.Enqueue(s.queue, h, f);
      L.EnqueueMoves(s.queue, h, f);
      RespondedMoves(s.(queue := queue), h, x.(op := Complete(x.op).0, sent := x.sent + [f]), outcome);
      L.MovesTwice(s.queue, queue, HandlerReturns(s, h, body).queue, multiset{f},
                   L.LeftOut(multiset{f}, L.Unwelcome(s.queue)));
    }
  }

  lemma ResumesMoves(s: Server, h: nat)
    requires Q.Core(s.queue) && Enabled(s, ResponseResumes(h))
    ensures L.Moves(s.queue, HandlerResumes(s, h).queue, multiset{}, Misses(s, ResponseResumes(h)))
  {
    hide Q.Core, L.Moves, Responded, Q.Resume, Q.CanResume;
    L.ResumeMoves(s.queue, h);
    var (queue, outcome) := Q.Resume(s.queue, h);
    RespondedMoves(s.(queue := queue), h, s.runs[h], outcome);
    L.MovesTwice(s.queue, queue, HandlerResumes(s, h).queue, multiset{}, Misses(s, ResponseResumes(h)));
  }

  lemma AnswerMoves(s: Server, f: Frame, status: StatusCode)
    requires Q.Core(s.queue)
    ensures var g := ErrorFrame(f.header.stream, status);
            L.Moves(s.queue, MarkTerminal(SendError(s, f.header.stream, status), f).queue, multiset{g},
                    L.LeftOut(multiset{g}, L.NoRoom(s.queue)))
  {
    hide Q.Core, L.Moves, L.LeftOut, L.NoRoom, ErrorFrame, SendError, MarkTerminal;
    SendErrorMoves(s, f.header.stream, status);
    MarkKeeps(SendError(s, f.header.stream, status), f);
  }

  lemma DispatchMoves(s: Server, f: Frame)
    requires Q.Core(s.queue) && TableOk(s.runs, s.operations) && Enabled(s, FrameArrives(f))
    ensures L.Moves(s.queue, Dispatch(s, f).queue, Sends(s, FrameArrives(f)), Misses(s, FrameArrives(f)))
  {
    hide Q.Core, L.Moves, L.LeftOut, L.NoRoom, L.Unwelcome, ErrorFrame, SendError, MarkTerminal, Accept, HasFlag, Cancel,
      IsValid;
    var t := f.header.stream;
    L.NothingMoves(s.queue);
    NothingLeftOut(L.NoRoom(s.queue));
    if ShuttingDown(s.state) {
      AnswerMoves(s, f, ConnectionClosed);
    } else if f.header.kind != REQUEST || t in s.terminal {
    } else if HasFlag(f.header.flags, CANCEL) {
      if t in s.operations {
        var h := s.operations[t];
        MarkKeeps(s.(runs := s.runs[h := s.runs[h].(op := Cancel(s.runs[h].op).0)]), f);
      }
    } else {
      AcceptMoves(s, f);
    }
  }

  lemma AcceptMoves(s: Server, f: Frame)
    requires Q.Core(s.queue) && !ShuttingDown(s.state) && f.header.kind == REQUEST && f.header.stream !in s.terminal
    requires !HasFlag(f.header.flags, CANCEL)
    ensures var g := if AnswerTo(s, f).Some? then multiset{ErrorFrame(f.header.stream, AnswerTo(s, f).value)} else multiset{};
            L.Moves(s.queue, Accept(s, f).queue, g, L.LeftOut(g, L.NoRoom(s.queue)))
  {
    hide Q.Core, L.Moves, L.LeftOut, L.NoRoom, ErrorFrame, SendError, MarkTerminal, HasFlag;
    L.NothingMoves(s.queue);
    NothingLeftOut(L.NoRoom(s.queue));
    AnswerMoves(s, f, DecodeError);
    AnswerMoves(s, f, UnknownMessageType);
  }

  lemma EndMoves(s: Server, lost: bool)
    ensures L.Moves(s.queue, EndReading(s, lost).queue, multiset{}, multiset{})
    ensures L.Moves(s.queue, EndShutdown(s).queue, multiset{}, multiset{})
  {
    FailOperationsKeeps(s);
    hide FailOperations, L.Moves, Q.CloseQueue;
    L.NothingMoves(s.queue);
    L.CloseMoves(s.queue);
  }

  lemma CoreOf(s: Server)
    requires Inv(s)
    ensures Q.Core(s.queue)
    ensures forall h :: 0 <= h < |s.runs| ==> RunOk(s.runs[h]) && (s.runs[h].phase.Running? ==> h !in s.queue.producers)
  {
    hide TableOk, CloseOk, LifeOk, ShutdownOk, RunOk, Q.Core;
  }

  /** What the sends below use of a run. */
  lemma RunFacts(s: Server, h: nat)
    requires Inv(s) && h < |s.runs|
    ensures var x := s.runs[h];
            && x.stream != 0 && RunOk(x) && Complete(x.op).1 == x.op.state.OpActive?
            && (x.phase.Spawned? || x.phase.Running? ==> x.sent == [])
            && (x.phase.Running? ==> h !in s.queue.producers)
    ensures Q.Core(s.queue)
  {
    assert RunOk(s.runs[h]);
    CoreOf(s);
    hide Inv, Q.Core, LegalFor, HasFlag;
  }

  // Each step on its own.

  lemma FrameStep(s: Server, f: Frame)
    requires Inv(s) && Enabled(s, FrameArrives(f)) && TableOk(s.runs, s.operations)
    ensures L.Moves(s.queue, Apply(s, FrameArrives(f)).queue, Sends(s, FrameArrives(f)), Misses(s, FrameArrives(f)))
  {
    hide Inv, TableOk, Dispatch, L.Moves, Sends, Misses, Q.Core, Enabled, RunOk;
    CoreOf(s);
    DispatchMoves(s, f);
  }

  lemma BeginStep(s: Server, h: nat, failure: Option<StatusCode>)
    requires Inv(s) && Enabled(s, HandlerBegins(h, failure)) && TableOk(s.runs, s.operations)
    ensures L.Moves(s.queue, Apply(s, HandlerBegins(h, failure)).queue, Sends(s, HandlerBegins(h, failure)),
                    Misses(s, HandlerBegins(h, failure)))
  {
    hide Inv, TableOk, HandlerStarts, L.Moves, Sends, Misses, Q.Core, Enabled, RunOk;
    CoreOf(s);
    StartsMoves(s, h, failure);
  }

  lemma ReturnStep(s: Server, h: nat, body: Option<seq<u8>>)
    requires Inv(s) && Enabled(s, HandlerReturned(h, body)) && TableOk(s.runs, s.operations)
    ensures L.Moves(s.queue, Apply(s, HandlerReturned(h, body)).queue, Sends(s, HandlerReturned(h, body)),
                    Misses(s, HandlerReturned(h, body)))
  {
    hide Inv, TableOk, HandlerReturns, L.Moves, Sends, Misses, Q.Core, RunOk;
    CoreOf(s);
    ReturnsMoves(s, h, body);
  }

  lemma ResumeStep(s: Server, h: nat)
    requires Inv(s) && Enabled(s, ResponseResumes(h)) && TableOk(s.runs, s.operations)
    ensures L.Moves(s.queue, Apply(s, ResponseResumes(h)).queue, Sends(s, ResponseResumes(h)), Misses(s, ResponseResumes(h)))
  {
    hide Inv, TableOk, HandlerResumes, L.Moves, Misses, Q.Core, RunOk, Enabled;
    CoreOf(s);
    ResumesMoves(s, h);
  }

  /** The steps that send nothing. */
  predicate Quiet(e: Event) {
    !e.FrameArrives? && !e.HandlerBegins? && !e.HandlerReturned? && !e.ResponseResumes?
  }

  lemma QuietStep(s: Server, e: Event)
    requires Enabled(s, e) && TableOk(s.runs, s.operations) && Quiet(e)
    ensures L.Moves(s.queue, Apply(s, e).queue, multiset{}, multiset{})
  {
    hide TableOk, L.Moves, Dispatch, EndReading, EndShutdown, HandlerStarts, HandlerReturns, FinishHandler, HandlerResumes,
      Q.Enabled, Q.Apply;
    L.NothingMoves(s.queue);
    match e
    case ReadingEnds(lost) => EndMoves(s, lost);
    case ShutdownEnds => EndMoves(s, false);
    case HandlerThrew(h) => FinishMoves(s, h, s.runs[h]);
    case WriterStep(step) => L.WriterMoves(s.queue, step);
    case _ =>
  }

  lemma QuietSends(s: Server, e: Event)
    requires Enabled(s, e) && Quiet(e)
    ensures Sends(s, e) == multiset{} && Misses(s, e) == multiset{}
  {
    hide Enabled;
  }

  /** Every step sends exactly what its cause says, and exactly what there is no room for is missed. */
  lemma SendingIsExact(s: Server, e: Event)
    requires Inv(s) && Enabled(s, e) && TableOk(s.runs, s.operations)
    ensures L.Moves(s.queue, Apply(s, e).queue, Sends(s, e), Misses(s, e))
  {
    hide Inv, TableOk, L.Moves, Apply, Sends, Misses, Enabled;
    match e
    case FrameArrives(f) => FrameStep(s, f);
    case HandlerBegins(h, failure) => BeginStep(s, h, failure);
    case HandlerReturned(h, body) => ReturnStep(s, h, body);
    case ResponseResumes(h) => ResumeStep(s, h);
    case _ =>
      QuietStep(s, e);
      QuietSends(s, e);
  }

  // ----- One frame -----

  /** An error frame, field by field: a response on the stream with the error bit and the end-of-stream
      bit, whose two payload bytes are the status, most significant first. */
  predicate IsError(g: Frame, stream: u64, value: nat) {
    && WellShaped(g, DEFAULT_MAX_PAYLOAD) && g.header.kind == 2 && g.header.flags == 5 && g.header.stream == stream
    && g.payload == [(value / 256) % 256, value % 256]
  }

  lemma ErrorShape(stream: u64, status: StatusCode)
    requires stream != 0
    ensures IsError(ErrorFrame(stream, status), stream, status.Value())
  {
  }

  lemma SendErrorAccepts(s: Server, stream: u64, status: StatusCode)
    requires Q.Core(s.queue) && Q.Room(s.queue, ErrorFrame(stream, status))
    ensures SendError(s, stream, status).queue.accepted == s.queue.accepted + [ErrorFrame(stream, status)]
  {
    hide Q.Core, Q.Room, Q.TryEnqueue, ErrorFrame;
    Q.AdmissionIsExact(s.queue, ErrorFrame(stream, status));
  }

  /** A frame that calls for an answer gets it, when the queue has room: one error frame on its stream
      carrying connection_closed (1001) from a server that is shutting down, decode_error (3002) for a
      request too short to name its type and unknown_message_type (3001) for one without a handler. */
  lemma AnswerReachesTheQueue(s: Server, f: Frame) returns (g: Frame)
    requires Inv(s) && TableOk(s.runs, s.operations) && f.header.stream != 0 && AnswerTo(s, f).Some?
    requires Q.Room(s.queue, ErrorFrame(f.header.stream, AnswerTo(s, f).value))
    ensures Dispatch(s, f).queue.accepted == s.queue.accepted + [g]
    ensures IsError(g, f.header.stream,
                    if ShuttingDown(s.state) then 1001 else if |f.payload| < 4 then 3002 else 3001)
  {
    hide Inv, Q.Core, Q.Room, RunOk, TableOk, ErrorFrame, IsError, SendError, MarkTerminal, HasFlag;
    var status := AnswerTo(s, f).value;
    g := ErrorFrame(f.header.stream, status);
    CoreOf(s);
    ErrorShape(f.header.stream, status);
    SendErrorAccepts(s, f.header.stream, status);
    MarkKeeps(SendError(s, f.header.stream, status), f);
  }

  lemma FinishAccepts(s: Server, h: nat, x: HandlerRun)
    requires h < |s.runs| && s.activeHandlers > 0
    ensures FinishHandler(s, h, x).queue.accepted == s.queue.accepted
  {
  }

  /** A handler that cannot decode its request answers with its status, when the queue has room. */
  lemma FailureReachesTheQueue(s: Server, h: nat, status: StatusCode) returns (g: Frame)
    requires Inv(s) && Enabled(s, HandlerBegins(h, Some(status)))
    requires Q.Room(s.queue, ErrorFrame(s.runs[h].stream, status))
    ensures HandlerStarts(s, h, Some(status)).queue.accepted == s.queue.accepted + [g]
    ensures IsError(g, s.runs[h].stream, status.Value())
  {
    hide Inv, Q.Core, Q.Room, RunOk, ErrorFrame, IsError, SendError, FinishHandler;
    var x := s.runs[h];
    RunFacts(s, h);
    g := ErrorFrame(x.stream, status);
    ErrorShape(x.stream, status);
    SendErrorAccepts(s, x.stream, status);
    SendErrorKeeps(s, x.stream, status);
    FinishAccepts(SendError(s, x.stream, status), h, x.(op := Fail(x.op, status).0, sent := x.sent + [g]));
  }

  /** A handler that returns while its operation is active has its response in the queue, accepted at
      once if there is room and suspended otherwise, on an open queue that can hold it: a response with
      the encoded value as its payload and the end-of-stream bit, on the run's own stream. */
  lemma ResponseReachesTheQueue(s: Server, h: nat, body: seq<u8>) returns (g: Frame)
    requires Inv(s) && Enabled(s, HandlerReturned(h, Some(body))) && s.runs[h].op.state.OpActive?
    requires !s.queue.closed && HEADER_SIZE + |body| <= s.queue.limits.maxBytes && s.queue.limits.maxFrames != 0
    ensures var q := HandlerReturns(s, h, Some(body)).queue;
            && L.Taken(q) == L.Taken(s.queue) + multiset{g}
            && q.accepted == if Q.Room(s.queue, g) then s.queue.accepted + [g] else s.queue.accepted
    ensures WellShaped(g, DEFAULT_MAX_PAYLOAD) && g.header.kind == 2 && g.header.flags == 1
    ensures g.header.stream == s.runs[h].stream && g.payload == body
  {
    hide Inv, Q.Core, Q.Room, RunOk, WellShaped, L.Taken, Q.Enqueue, L.Unwelcome, L.NoRoom, L.LeftOut, FinishHandler,
      ResponseFrame, Complete;
    var x := s.runs[h];
    RunFacts(s, h);
    g := ResponseFrame(x.stream, body);
    ResponseShape(s.queue, x.stream, body);
    ReturnsMoves(s, h, Some(body));
    Q.EnqueueIsExact(s.queue, h, g);
    var (queue, outcome) := Q.Enqueue(s.queue, h, g);
    FinishAccepts(s.(queue := queue), h, x.(op := Complete(x.op).0, sent := x.sent + [g]));
  }

  lemma ResponseShape(q: Q.Queue, stream: u64, body: seq<u8>)
    requires stream != 0 && |body| <= DEFAULT_MAX_PAYLOAD
    requires !q.closed && HEADER_SIZE + |body| <= q.limits.maxBytes && q.limits.maxFrames != 0
    ensures var g := ResponseFrame(stream, body);
            && WellShaped(g, DEFAULT_MAX_PAYLOAD) && g.header.kind == 2 && g.header.flags == 1
            && g.header.stream == stream && g.payload == body
            && L.LeftOut(multiset{g}, L.Unwelcome(q)) == multiset{}
  {
    var g := ResponseFrame(stream, body);
    assert !L.Unwelcome(q)(g) && g in multiset{g};
  }

  // ----- Whole runs -----

  /** A success response that some queue of these limits can hold. */
  predicate Sendable(limits: Q.Limits, f: Frame) {
    !HasFlag(f.header.flags, ERROR) && !Q.NeverFits(limits, f)
  }

  /** While the writer has not failed, every success response a run has sent is in the queue. */
  ghost predicate AllThere(s: Server) {
    !s.queue.run.Failed? ==>
      forall f: Frame :: Sendable(s.queue.limits, f) ==> |SentBy(s.runs, f)| <= L.Taken(s.queue)[f]
  }

  /** A run's log changes only when its handler fails to start or returns. */
  lemma SentKept(s: Server, e: Event, f: Frame)
    requires Inv(s) && Enabled(s, e) && TableOk(s.runs, s.operations)
    requires !e.HandlerReturned? && !HasFlag(f.header.flags, ERROR)
    ensures SentBy(Apply(s, e).runs, f) <= SentBy(s.runs, f)
  {
    hide Inv, TableOk, Apply, Enabled, HasFlag, SentBy;
    match e
    case FrameArrives(g) => DispatchSent(s, g, f);
    case HandlerBegins(h, failure) => BeginSent(s, h, failure, f);
    case HandlerThrew(h) => ThrewSent(s, h, f);
    case ResponseResumes(h) => ResumeSent(s, h, f);
    case ReadingEnds(lost) => EndSent(s, e, f);
    case ShutdownEnds => EndSent(s, e, f);
    case _ => SameSent(s, e);
  }

  lemma SameSent(s: Server, e: Event)
    requires Enabled(s, e) && TableOk(s.runs, s.operations)
    requires e.Handle? || e.Run? || e.DecoderFails? || e.ShutdownBegins? || e.WriterStep?
    ensures Apply(s, e).runs == s.runs
  {
    hide TableOk, Dispatch, EndReading, EndShutdown, HandlerStarts, HandlerReturns, FinishHandler, HandlerResumes,
      Q.Enabled, Q.Apply;
  }

  lemma DispatchSent(s: Server, g: Frame, f: Frame)
    requires Inv(s) && Enabled(s, FrameArrives(g)) && TableOk(s.runs, s.operations)
    ensures SentBy(Apply(s, FrameArrives(g)).runs, f) <= SentBy(s.runs, f)
  {
    hide Inv, Dispatch, Cancel;
    DispatchShape(s, g);
    var runs := Dispatch(s, g).runs;
    forall h | h in SentBy(runs, f)
      ensures h in SentBy(s.runs, f)
    {
    }
  }

  lemma BeginSent(s: Server, h: nat, failure: Option<StatusCode>, f: Frame)
    requires Inv(s) && Enabled(s, HandlerBegins(h, failure)) && TableOk(s.runs, s.operations)
    requires !HasFlag(f.header.flags, ERROR)
    ensures SentBy(Apply(s, HandlerBegins(h, failure)).runs, f) <= SentBy(s.runs, f)
  {
    hide Inv, TableOk, RunOk, Q.Core, FinishHandler, SendError, ErrorFrame, HasFlag;
    var x := s.runs[h];
    RunFacts(s, h);
    if failure.Some? {
      var g := ErrorFrame(x.stream, failure.value);
      SendErrorKeeps(s, x.stream, failure.value);
      FinishRuns(SendError(s, x.stream, failure.value), h, x.(op := Fail(x.op, failure.value).0, sent := x.sent + [g]));
      assert x.sent + [g] == [g] != [f];
    }
  }

  lemma ThrewSent(s: Server, h: nat, f: Frame)
    requires Enabled(s, HandlerThrew(h)) && TableOk(s.runs, s.operations)
    ensures SentBy(Apply(s, HandlerThrew(h)).runs, f) <= SentBy(s.runs, f)
  {
    hide TableOk, FinishHandler;
    FinishRuns(s, h, s.runs[h]);
  }

  lemma ResumeSent(s: Server, h: nat, f: Frame)
    requires Enabled(s, ResponseResumes(h)) && TableOk(s.runs, s.operations)
    ensures SentBy(Apply(s, ResponseResumes(h)).runs, f) <= SentBy(s.runs, f)
  {
    hide TableOk, Responded, Q.Resume, Q.CanResume;
    var (queue, outcome) := Q.Resume(s.queue, h);
    RespondedRuns(s.(queue := queue), h, s.runs[h], outcome);
  }

  lemma EndSent(s: Server, e: Event, f: Frame)
    requires Enabled(s, e) && TableOk(s.runs, s.operations) && (e.ReadingEnds? || e.ShutdownEnds?)
    ensures SentBy(Apply(s, e).runs, f) <= SentBy(s.runs, f)
  {
    EndRuns(s, e);
  }

  lemma EndRuns(s: Server, e: Event)
    requires Enabled(s, e) && TableOk(s.runs, s.operations) && (e.ReadingEnds? || e.ShutdownEnds?)
    ensures |Apply(s, e).runs| == |s.runs|
    ensures forall h :: 0 <= h < |s.runs| ==> Apply(s, e).runs[h].sent == s.runs[h].sent
  {
    FailSent(s);
    hide TableOk, FailOperations, Q.CloseQueue, Dispatch, HandlerStarts, HandlerReturns, HandlerResumes, Q.Apply, Q.Enabled,
      Q.CanResume;
  }

  lemma FailSent(s: Server)
    ensures |FailOperations(s).runs| == |s.runs|
    ensures forall h :: 0 <= h < |s.runs| ==> FailOperations(s).runs[h].sent == s.runs[h].sent
  {
    hide FailOp;
  }

  /** A live handler's queue is open unless the writer has failed. */
  lemma OpenForLive(s: Server, h: nat)
    requires Inv(s) && h < |s.runs| && !s.runs[h].phase.Finished? && !s.queue.run.Failed?
    ensures !s.queue.closed
  {
    LiveCount(s, h);
    hide RunsOk, TableOk, QueueOk, ShutdownOk, LifeOk;
  }

  lemma OnlyErrorsMissed(s: Server, e: Event, f: Frame)
    requires Inv(s) && Enabled(s, e) && !s.queue.run.Failed? && Sendable(s.queue.limits, f)
    ensures Misses(s, e)[f] == 0
  {
    hide Inv, HasFlag, ErrorFrame, Q.Room, Q.NeverFits, AnswerTo, Q.Enabled, Q.CanResume, ResponseFrame, IsValid;
    match e
    case ResponseResumes(h) =>
      RespondingProducer(s, h);
      OpenForLive(s, h);
    case HandlerReturned(h, body) =>
      OpenForLive(s, h);
    case _ =>
  }

  lemma ApplyAllThere(s: Server, e: Event)
    requires Inv(s) && Enabled(s, e) && TableOk(s.runs, s.operations) && AllThere(s)
    ensures AllThere(Apply(s, e))
  {
    var s' := Apply(s, e);
    SendingIsExact(s, e);
    if !s'.queue.run.Failed? {
      forall f: Frame | Sendable(s'.queue.limits, f)
        ensures |SentBy(s'.runs, f)| <= L.Taken(s'.queue)[f]
      {
        OneThere(s, e, f);
      }
    }
    hide Inv, TableOk, Apply, Enabled, Sends, Misses, L.Taken, SentBy, Sendable;
  }

  lemma OneThere(s: Server, e: Event, f: Frame)
    requires Inv(s) && Enabled(s, e) && TableOk(s.runs, s.operations) && AllThere(s)
    requires !s.queue.run.Failed? && Sendable(s.queue.limits, f)
    ensures |SentBy(Apply(s, e).runs, f)| <= L.Taken(Apply(s, e).queue)[f]
  {
    hide Inv, TableOk, Apply, Enabled, Misses, L.Taken, SentBy, Sends, Q.NeverFits, HasFlag;
    SendingIsExact(s, e);
    assert (L.Taken(Apply(s, e).queue) + Misses(s, e))[f] == (L.Taken(s.queue) + Sends(s, e))[f];
    OnlyErrorsMissed(s, e, f);
    if e.HandlerReturned? {
      ReturnThere(s, e.handler, e.body, f);
    } else {
      SentKept(s, e, f);
      L.SmallerSet(SentBy(Apply(s, e).runs, f), SentBy(s.runs, f));
    }
  }

  /** A return logs exactly the frame it sends. */
  lemma ReturnThere(s: Server, h: nat, body: Option<seq<u8>>, f: Frame)
    requires Inv(s) && Enabled(s, HandlerReturned(h, body)) && TableOk(s.runs, s.operations)
    ensures |SentBy(Apply(s, HandlerReturned(h, body)).runs, f)|
            == |SentBy(s.runs, f)| + Sends(s, HandlerReturned(h, body))[f]
  {
    hide Inv, TableOk, RunOk, Q.Core, FinishHandler, Responded, ResponseFrame, Q.Enqueue, Complete, SentBy;
    var x := s.runs[h];
    RunFacts(s, h);
    if body.None? || !x.op.state.OpActive? {
      FinishRuns(s, h, x);
      SameLog(s.runs, h, x.(phase := Finished), f);
    } else {
      var g := ResponseFrame(x.stream, body.value);
      var y := x.(op := Complete(x.op).0, sent := x.sent + [g]);
      var (queue, outcome) := Q.Enqueue(s.queue, h, g);
      RespondedRuns(s.(queue := queue), h, y, outcome);
      SentMore(s.runs, h, y.(phase := if outcome.Blocked? then Responding else Finished), g);
    }
  }

  lemma SameLog(runs: seq<HandlerRun>, h: nat, y: HandlerRun, f: Frame)
    requires h < |runs| && y.sent == runs[h].sent
    ensures SentBy(runs[h := y], f) == SentBy(runs, f)
  {
  }

  lemma {:induction false} RunsAllThere(s: Server, es: seq<Event>, s': Server)
    requires Inv(s) && AllThere(s) && Runs(s, es, s')
    ensures AllThere(s')
    decreases es
  {
    hide Inv, AllThere, TableOk, Enabled, Apply;
    if es != [] {
      ApplyInv(s, es[0]);
      ApplyAllThere(s, es[0]);
      RunsAllThere(Apply(s, es[0]), es[1..], s');
    }
  }

  /** The queue holds exactly what was sent: in every reachable server whose writer has not failed, each
      success response that can fit the queue is in it, accepted or suspended, exactly as often as there
      are runs that sent it; and those are completed runs on its stream. */
  lemma QueueHoldsWhatWasSent(s: Server, f: Frame)
    requires Reachable(s) && !s.queue.run.Failed? && Sendable(s.queue.limits, f)
    ensures L.Taken(s.queue)[f] == |SentBy(s.runs, f)|
    ensures forall h :: h in SentBy(s.runs, f) ==>
              s.runs[h].op.state.OpCompleted? && s.runs[h].stream == f.header.stream
  {
    var limits, es :| Runs(Create(limits), es, s);
    NothingSent(limits);
    hide Inv, Ledger, AllThere, Runs, Create, HasFlag, Q.NeverFits;
    CreateInv(limits);
    RunsLedger(Create(limits), es, s);
    RunsAllThere(Create(limits), es, s);
    BothWays(s, f);
    WireCarriesWhatWasSent(s, f);
  }

  lemma NothingSent(limits: Q.Limits)
    ensures Ledger(Create(limits)) && AllThere(Create(limits))
  {
    hide HasFlag, Q.NeverFits;
    forall f: Frame
      ensures SentBy(Create(limits).runs, f) == {}
    {
    }
  }

  lemma BothWays(s: Server, f: Frame)
    requires Ledger(s) && AllThere(s) && !s.queue.run.Failed? && Sendable(s.queue.limits, f)
    ensures L.Taken(s.queue)[f] == |SentBy(s.runs, f)|
  {
    hide HasFlag, Q.NeverFits, L.Taken, SentBy;
  }
}
