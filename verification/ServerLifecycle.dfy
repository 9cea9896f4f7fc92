/** How a server connection begins and ends, which handlers it has, and which streams it remembers as
    ended. */
module ServerLifecycle {
  import opened Bytes
  import opened Frames
  import opened Operations
  import M = Messages
  import Q = WriteQueues
  import opened Servers
  import opened ServerInvariant
  import opened ServerTheorems
  import opened ServerSending

  // ----- Beginning and end -----

  /** Shutdown of a connection in any state begins to drain it, or finds it closed. */
  lemma ShutdownBeginsToDrain(s: Server)
    requires Inv(s)
    ensures TableOk(s.runs, s.operations) && ShuttingDown(Apply(s, ShutdownBegins).state)
    ensures Apply(s, ShutdownBegins) == BeginShutdown(s)
    ensures BeginShutdown(s) == s.(state := BeginShutdown(s).state)
  {
    hide RunsOk, TableOk, QueueOk, CloseOk, ShutdownOk;
  }

  /** From the moment shutdown begins, over any run, the connection stays in shutdown and no handler
      starts. */
  lemma NothingStartsAfterShutdown(s: Server, es: seq<Event>, s': Server)
    requires Inv(s) && Runs(BeginShutdown(s), es, s')
    ensures ShuttingDown(s'.state) && |s'.runs| == |s.runs|
  {
    hide Inv, Runs, BeginShutdown;
    ShutdownBeginsToDrain(s);
    StartRunningInv(s);
    NoNewRuns(BeginShutdown(s), es, s');
  }

  lemma {:induction false} NoNewRuns(s: Server, es: seq<Event>, s': Server)
    requires Inv(s) && Runs(s, es, s') && ShuttingDown(s.state)
    ensures ShuttingDown(s'.state) && |s'.runs| == |s.runs|
    decreases es
  {
    hide Inv, TableOk, Enabled, Apply, ShuttingDown, Concerns;
    if es != [] {
      ApplyInv(s, es[0]);
      DrainingStep(s, es[0]);
      NoNewRuns(Apply(s, es[0]), es[1..], s');
    }
  }

  /** The end of reading closes a connection that is running, and the end of shutdown closes it together
      with its transport. */
  lemma EndsCloseTheConnection(s: Server, lost: bool)
    requires Inv(s)
    ensures s.started ==> EndReading(s, lost).state.Closed? && !EndReading(s, lost).reading
    ensures s.state.Draining? || s.state.Closed? ==> EndShutdown(s).state.Closed? && !EndShutdown(s).transportOpen
    ensures StartRunning(s).started && (s.state.Created? ==> StartRunning(s).state.Active?)
    ensures !s.state.Created? ==> StartRunning(s).state == s.state
  {
    FailOperationsKeeps(s);
    hide RunsOk, TableOk, QueueOk, CloseOk, ShutdownOk, FailOperations, Q.CloseQueue;
  }

  /** A failed write closes the queue and the transport; no other step of the writer touches the
      transport. */
  lemma FailedWriteCloses(s: Server, step: Q.Event)
    requires Q.Enabled(s.queue, step)
    ensures step.WriteFails? ==> !WriteStep(s, step).transportOpen && WriteStep(s, step).queue.closed
    ensures !step.WriteFails? ==> WriteStep(s, step).transportOpen == s.transportOpen
  {
  }

  // ----- Handlers -----

  /** A handler once registered stays registered, over any run. */
  lemma {:induction false} HandlersPersist(s: Server, es: seq<Event>, s': Server, t: u32)
    requires Inv(s) && Runs(s, es, s')
    ensures t in s.handlers || Handle(t) in es ==> t in s'.handlers
    ensures t in s'.handlers ==> t in s.handlers || Handle(t) in es
    decreases es
  {
    hide Inv, TableOk, Enabled, Apply;
    if es != [] {
      ApplyInv(s, es[0]);
      HandlersStep(s, es[0]);
      HandlersPersist(Apply(s, es[0]), es[1..], s', t);
      assert es == [es[0]] + es[1..];
    }
  }

  lemma HandlersStep(s: Server, e: Event)
    requires TableOk(s.runs, s.operations) && Enabled(s, e)
    ensures Apply(s, e).handlers == s.handlers + (if e.Handle? then {e.messageType} else {})
    ensures !e.FrameArrives? ==> Apply(s, e).terminal == s.terminal
  {
    hide TableOk, Dispatch, FailOperations, Q.CloseQueue, Q.Apply, Q.Enabled, Q.CanResume, HandlerStarts, HandlerReturns,
      HandlerResumes, FinishHandler, EndReading, EndShutdown;
    match e
    case FrameArrives(f) => DispatchShape(s, f);
    case HandlerBegins(h, failure) => HandlerKeeps(s, h);
    case HandlerReturned(h, body) => HandlerKeeps(s, h);
    case HandlerThrew(h) => HandlerKeeps(s, h);
    case ResponseResumes(h) => HandlerKeeps(s, h);
    case ReadingEnds(lost) => EndKeeps(s, lost);
    case ShutdownEnds => EndKeeps(s, false);
    case _ =>
  }

  ghost predicate SameRegistry(s: Server, s': Server) {
    s'.handlers == s.handlers && s'.terminal == s.terminal
  }

  lemma EndKeeps(s: Server, lost: bool)
    ensures SameRegistry(s, EndReading(s, lost)) && SameRegistry(s, EndShutdown(s))
  {
    FailOperationsKeeps(s);
    hide FailOperations, Q.CloseQueue;
  }

  lemma HandlerKeeps(s: Server, h: nat)
    requires h < |s.runs| && s.activeHandlers > 0
    ensures forall failure :: SameRegistry(s, HandlerStarts(s, h, failure))
    ensures forall body: Option<seq<u8>> :: (body.Some? ==> |body.value| <= DEFAULT_MAX_PAYLOAD) ==>
              SameRegistry(s, HandlerReturns(s, h, body))
    ensures SameRegistry(s, FinishHandler(s, h, s.runs[h]))
    ensures Q.CanResume(s.queue, h) ==> SameRegistry(s, HandlerResumes(s, h))
  {
    hide Q.TryEnqueue, Q.Enqueue, Q.Resume, Q.CloseQueue, Q.CanResume, ErrorFrame, ResponseFrame, Complete, Fail;
  }

  // ----- Streams that have ended -----

  /** The frames after which a stream is over: those marked as its last that were answered at once or
      cancelled a live operation. The last frame of a request that is handed to a handler is not one. */
  predicate Remembers(s: Server, f: Frame) {
    && HasFlag(f.header.flags, END_OF_STREAM)
    && (|| AnswerTo(s, f).Some?
        || (&& !ShuttingDown(s.state) && f.header.kind == REQUEST && f.header.stream !in s.terminal
            && HasFlag(f.header.flags, CANCEL) && f.header.stream in s.operations))
  }

  /** Exactly those streams are remembered. */
  lemma RememberingIsExact(s: Server, f: Frame)
    requires TableOk(s.runs, s.operations)
    ensures Dispatch(s, f).terminal == s.terminal + (if Remembers(s, f) then {f.header.stream} else {})
  {
    hide SendError, HasFlag, Cancel, Accept, AnswerTo;
    var t := f.header.stream;
    if ShuttingDown(s.state) {
      SendErrorKeeps(s, t, ConnectionClosed);
      AnswersAll(s, f);
    } else if f.header.kind != REQUEST || t in s.terminal {
      AnswersNone(s, f);
    } else if HasFlag(f.header.flags, CANCEL) {
      AnswersNone(s, f);
    } else {
      AcceptRemembers(s, f);
    }
  }

  lemma AnswersAll(s: Server, f: Frame)
    requires ShuttingDown(s.state)
    ensures AnswerTo(s, f).Some?
  {
  }

  lemma AnswersNone(s: Server, f: Frame)
    requires !ShuttingDown(s.state)
    requires f.header.kind != REQUEST || f.header.stream in s.terminal || HasFlag(f.header.flags, CANCEL)
    ensures AnswerTo(s, f).None?
  {
  }

  lemma AcceptRemembers(s: Server, f: Frame)
    requires !ShuttingDown(s.state) && f.header.kind == REQUEST && f.header.stream !in s.terminal
    requires !HasFlag(f.header.flags, CANCEL)
    ensures Accept(s, f).terminal
            == s.terminal + (if AnswerTo(s, f).Some? && HasFlag(f.header.flags, END_OF_STREAM) then {f.header.stream} else {})
  {
    hide SendError, HasFlag;
    SendErrorKeeps(s, f.header.stream, DecodeError);
    SendErrorKeeps(s, f.header.stream, UnknownMessageType);
  }

  lemma {:induction false} TerminalStreamsAreNeverForgotten(s: Server, es: seq<Event>, s': Server)
    requires Inv(s) && Runs(s, es, s')
    ensures s.terminal <= s'.terminal
    decreases es
  {
    hide Inv, TableOk, Enabled, Apply, Remembers;
    if es != [] {
      ApplyInv(s, es[0]);
      TerminalGrows(s, es[0]);
      TerminalStreamsAreNeverForgotten(Apply(s, es[0]), es[1..], s');
    }
  }

  lemma TerminalGrows(s: Server, e: Event)
    requires TableOk(s.runs, s.operations) && Enabled(s, e)
    ensures s.terminal <= Apply(s, e).terminal
  {
    HandlersStep(s, e);
    if e.FrameArrives? {
      RememberingIsExact(s, e.frame);
    }
    hide TableOk, Dispatch, HandlerStarts, HandlerReturns, HandlerResumes, FinishHandler, EndReading, EndShutdown, WriteStep,
      Remembers;
  }

  /** A stream that is over stays over: after such a frame, over any run, every further frame on the
      stream closes the transport as long as the server is not shutting down. */
  lemma EndedStreamStaysEnded(s: Server, f: Frame, es: seq<Event>, s': Server, g: Frame)
    requires Inv(s) && s.reading && f.header.stream != 0 && TableOk(s.runs, s.operations) && Remembers(s, f)
    requires Runs(Dispatch(s, f), es, s') && s'.transportOpen && !ShuttingDown(s'.state)
    requires g.header.stream == f.header.stream
    ensures Inv(s') && !Dispatch(s', g).transportOpen
  {
    hide Inv, TableOk, Dispatch, Runs, Remembers, HasFlag, M.PeekMessageType;
    DispatchInv(s, f);
    RememberingIsExact(s, f);
    RunsInv(Dispatch(s, f), es, s');
    TerminalStreamsAreNeverForgotten(Dispatch(s, f), es, s');
    FrameIsolation(s', g);
  }
}
