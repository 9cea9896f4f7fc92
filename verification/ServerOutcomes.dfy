/** What one handler run sees of a whole connection: when it moves on, and a list of possible causes of
    which the first to happen decides the result of its operation. */
module ServerOutcomes {
  import opened Bytes
  import opened Frames
  import opened Operations
  import Q = WriteQueues
  import opened Servers
  import opened ServerInvariant
  import opened ServerTheorems

  /** A cancellation that the server acts on. */
  predicate Cancels(s: Server, f: Frame) {
    && !ShuttingDown(s.state) && f.header.kind == REQUEST && f.header.stream !in s.terminal
    && HasFlag(f.header.flags, CANCEL)
  }

  /** Why a step ends the operation of run h while it is active, as the result it is given; None if the
      step leaves it active. */
  function Ending(s: Server, e: Event, h: nat): Option<StatusCode>
    requires h < |s.runs| && Enabled(s, e)
  {
    match e
    case HandlerBegins(t, failure) => if t == h then failure else None
    case HandlerReturned(t, body) => if t == h && body.Some? then Some(Ok) else None
    case FrameArrives(f) =>
      if Cancels(s, f) && f.header.stream == s.runs[h].stream && !s.runs[h].phase.Finished? then Some(Cancelled) else None
    case ReadingEnds(lost) => if lost && !s.runs[h].phase.Finished? then Some(ConnectionClosed) else None
    case ShutdownEnds => if !s.runs[h].phase.Finished? then Some(ConnectionClosed) else None
    case _ => None
  }

  /** The steps that ask a handler to stop when they end its operation. */
  predicate AsksToStop(e: Event) {
    e.FrameArrives? || e.ReadingEnds? || e.ShutdownEnds?
  }

  /** Where run h is after a step. */
  function NextPhase(s: Server, e: Event, h: nat): HandlerPhase
    requires h < |s.runs| && Enabled(s, e)
  {
    match e
    case HandlerBegins(t, failure) =>
      if t != h then s.runs[h].phase else if failure.None? then Running else Finished
    case HandlerReturned(t, body) =>
      if t != h then s.runs[h].phase
      else if body.Some? && s.runs[h].op.state.OpActive? && MustWait(s.queue, ResponseFrame(s.runs[h].stream, body.value))
      then Responding else Finished
    case HandlerThrew(t) => if t == h then Finished else s.runs[h].phase
    case ResponseResumes(t) =>
      if t != h then s.runs[h].phase
      else if !s.queue.closed && !Q.Room(s.queue, s.queue.producers[h].frame) then Responding else Finished
    case _ => s.runs[h].phase
  }

  predicate MustWait(q: Q.Queue, f: Frame) {
    !q.closed && !Q.NeverFits(q.limits, f) && !Q.Room(q, f)
  }

  /** What the step from x to y does to a run's operation and phase, as its cause says. */
  predicate Follows(x: HandlerRun, y: HandlerRun, ending: Option<StatusCode>, asked: bool, phase: HandlerPhase) {
    && y.phase == phase && y.request == x.request
    && (x.op.Terminal() ==> y.op == x.op)
    && (x.op.state.OpActive? ==>
          && y.op.result == ending
          && y.op.cancellationRequested == (x.op.cancellationRequested || (asked && ending.Some?)))
  }

  ghost predicate Decides(s: Server, e: Event, h: nat)
    requires h < |s.runs| && Enabled(s, e) && TableOk(s.runs, s.operations)
  {
    h < |Apply(s, e).runs| && Follows(s.runs[h], Apply(s, e).runs[h], Ending(s, e, h), AsksToStop(e), NextPhase(s, e, h))
  }

  // ----- Steps of the connection -----

  lemma DispatchRuns(s: Server, f: Frame, h: nat)
    requires TableOk(s.runs, s.operations) && h < |s.runs|
    ensures var x := s.runs[h];
            && h < |Dispatch(s, f).runs|
            && Dispatch(s, f).runs[h]
               == if Cancels(s, f) && f.header.stream == x.stream && !x.phase.Finished? then x.(op := Cancel(x.op).0) else x
  {
    hide SendError, MarkTerminal, HasFlag, Accept, Cancel;
    var t := f.header.stream;
    if ShuttingDown(s.state) {
      SendErrorKeeps(s, t, ConnectionClosed);
      MarkKeeps(SendError(s, t, ConnectionClosed), f);
    } else if f.header.kind != REQUEST || t in s.terminal {
    } else if HasFlag(f.header.flags, CANCEL) {
      if t in s.operations {
        var g := s.operations[t];
        MarkKeeps(s.(runs := s.runs[g := s.runs[g].(op := Cancel(s.runs[g].op).0)]), f);
      }
    } else {
      AcceptShape(s, f);
    }
  }

  lemma FrameDecides(s: Server, f: Frame, h: nat)
    requires Inv(s) && Enabled(s, FrameArrives(f)) && h < |s.runs| && TableOk(s.runs, s.operations)
    ensures Decides(s, FrameArrives(f), h)
  {
    var x := s.runs[h];
    assert RunOk(x);
    DispatchRuns(s, f, h);
    CancelFollows(x);
    hide Inv, TableOk, Dispatch, RunOk, Cancels, IsValid, Cancel;
  }

  lemma CancelFollows(x: HandlerRun)
    requires RunOk(x)
    ensures var y := x.(op := Cancel(x.op).0);
            && (x.op.Terminal() ==> y.op == x.op)
            && (x.op.state.OpActive? ==> y.op.result == Some(Cancelled) && y.op.cancellationRequested && x.op.result.None?)
  {
    hide LegalFor, HasFlag;
  }

  lemma LostFollows(x: HandlerRun)
    requires RunOk(x)
    ensures var y := x.(op := FailOp(x.op));
            && (x.op.Terminal() ==> y.op == x.op)
            && (x.op.state.OpActive? ==>
                  y.op.result == Some(ConnectionClosed) && y.op.cancellationRequested && x.op.result.None?)
  {
    hide LegalFor, HasFlag;
  }

  lemma EndRuns(s: Server, lost: bool)
    ensures EndReading(s, lost).runs == if lost then FailOperations(s).runs else s.runs
    ensures EndShutdown(s).runs == if s.activeHandlers != 0 then FailOperations(s).runs else s.runs
  {
    hide FailOperations, Q.CloseQueue;
  }

  lemma ReadingEndsDecides(s: Server, lost: bool, h: nat)
    requires Inv(s) && Enabled(s, ReadingEnds(lost)) && h < |s.runs| && TableOk(s.runs, s.operations)
    ensures Decides(s, ReadingEnds(lost), h)
  {
    hide Inv, TableOk, EndReading, FailOperations, RunOk, RunsOk, FailOp;
    LostRun(s, h);
    EndRuns(s, lost);
  }

  lemma ShutdownEndsDecides(s: Server, h: nat)
    requires Inv(s) && Enabled(s, ShutdownEnds) && h < |s.runs| && TableOk(s.runs, s.operations)
    ensures Decides(s, ShutdownEnds, h)
  {
    hide Inv, TableOk, EndShutdown, FailOperations, RunOk, RunsOk, FailOp;
    LostRun(s, h);
    EndRuns(s, false);
  }

  /** What failing every operation of the table does to run h. */
  lemma LostRun(s: Server, h: nat)
    requires Inv(s) && h < |s.runs|
    ensures var x := s.runs[h];
            && (!x.phase.Finished? ==> s.activeHandlers > 0)
            && |FailOperations(s).runs| == |s.runs|
            && FailOperations(s).runs[h] == (if x.phase.Finished? then x else x.(op := FailOp(x.op)))
            && (x.op.Terminal() ==> FailOp(x.op) == x.op)
            && (x.op.state.OpActive? ==> x.op.result.None?)
            && (x.op.state.OpActive? ==>
                  FailOp(x.op).result == Some(ConnectionClosed) && FailOp(x.op).cancellationRequested)
  {
    assert RunOk(s.runs[h]);
    if !s.runs[h].phase.Finished? {
      LiveCount(s, h);
    }
    FailOperationsRuns(s);
    LostFollows(s.runs[h]);
    hide TableOk, QueueOk, CloseOk, LifeOk, ShutdownOk, FailOperations, RunOk, FailOp;
  }

  // ----- Steps of handlers -----

  /** Run t becomes y and the others stay. */
  lemma OneDecides(s: Server, e: Event, t: nat, y: HandlerRun, h: nat)
    requires Inv(s) && Enabled(s, e) && TableOk(s.runs, s.operations) && t < |s.runs| && h < |s.runs|
    requires Apply(s, e).runs == s.runs[t := y]
    requires t != h ==> Ending(s, e, h).None? && NextPhase(s, e, h) == s.runs[h].phase
    requires t == h ==> Follows(s.runs[h], y, Ending(s, e, h), AsksToStop(e), NextPhase(s, e, h))
    ensures Decides(s, e, h)
  {
    hide Inv, TableOk, Apply, Enabled, Ending, NextPhase, AsksToStop;
    ResultOfState(s, h);
  }

  lemma BeginDecides(s: Server, t: nat, failure: Option<StatusCode>, h: nat)
    requires Inv(s) && Enabled(s, HandlerBegins(t, failure)) && h < |s.runs| && TableOk(s.runs, s.operations)
    ensures Decides(s, HandlerBegins(t, failure), h)
  {
    hide Inv, TableOk, FinishHandler, SendError, ErrorFrame, RunOk, Decides, Fail;
    var x := s.runs[t];
    FailFollows(s, t, failure);
    match failure
    case None => OneDecides(s, HandlerBegins(t, failure), t, x.(phase := Running), h);
    case Some(status) =>
      var y := x.(op := Fail(x.op, status).0, sent := x.sent + [ErrorFrame(x.stream, status)]);
      SendErrorKeeps(s, x.stream, status);
      FinishRuns(SendError(s, x.stream, status), t, y);
      OneDecides(s, HandlerBegins(t, failure), t, y.(phase := Finished), h);
  }

  lemma FailFollows(s: Server, t: nat, failure: Option<StatusCode>)
    requires Inv(s) && t < |s.runs| && (failure.Some? ==> !failure.value.Ok?)
    ensures var x := s.runs[t];
            && (x.op.state.OpActive? ==> x.op.result.None?)
            && (failure.Some? && x.op.Terminal() ==> Fail(x.op, failure.value).0 == x.op)
            && (failure.Some? && x.op.state.OpActive? ==>
                  var op := Fail(x.op, failure.value).0;
                  op.result == failure && op.cancellationRequested == x.op.cancellationRequested)
  {
    assert RunOk(s.runs[t]);
    hide TableOk, QueueOk, CloseOk, LifeOk, ShutdownOk, LegalFor, HasFlag;
  }

  lemma ThrewDecides(s: Server, t: nat, h: nat)
    requires Inv(s) && Enabled(s, HandlerThrew(t)) && h < |s.runs| && TableOk(s.runs, s.operations)
    ensures Decides(s, HandlerThrew(t), h)
  {
    hide Inv, TableOk, FinishHandler, RunOk, Decides;
    FailFollows(s, t, None);
    FinishRuns(s, t, s.runs[t]);
    OneDecides(s, HandlerThrew(t), t, s.runs[t].(phase := Finished), h);
  }

  lemma ReturnFollows(s: Server, t: nat)
    requires Inv(s) && t < |s.runs|
    ensures var x := s.runs[t];
            && (x.op.state.OpActive? ==> x.op.result.None? && Complete(x.op).1)
            && (x.op.state.OpActive? ==>
                  Complete(x.op).0.result == Some(Ok)
                  && Complete(x.op).0.cancellationRequested == x.op.cancellationRequested)
            && (!x.op.state.OpActive? ==> !Complete(x.op).1 && x.op.Terminal())
    ensures Q.Core(s.queue)
  {
    assert RunOk(s.runs[t]);
    hide TableOk, CloseOk, LifeOk, ShutdownOk, LegalFor, HasFlag, Q.Core;
  }

  lemma ReturnDecides(s: Server, t: nat, body: Option<seq<u8>>, h: nat)
    requires Inv(s) && Enabled(s, HandlerReturned(t, body)) && h < |s.runs| && TableOk(s.runs, s.operations)
    ensures Decides(s, HandlerReturned(t, body), h)
  {
    hide Inv, TableOk, FinishHandler, Responded, ResponseFrame, RunOk, Decides, Complete, Q.Enqueue, Q.Core, Q.Room,
      Q.NeverFits;
    var x, e := s.runs[t], HandlerReturned(t, body);
    ReturnFollows(s, t);
    if body.None? || !x.op.state.OpActive? {
      FinishRuns(s, t, x);
      OneDecides(s, e, t, x.(phase := Finished), h);
    } else {
      var f := ResponseFrame(x.stream, body.value);
      var (queue, outcome) := Q.Enqueue(s.queue, t, f);
      Q.EnqueueIsExact(s.queue, t, f);
      var y := x.(op := Complete(x.op).0, sent := x.sent + [f]);
      RespondedRuns(s.(queue := queue), t, y, outcome);
      OneDecides(s, e, t, y.(phase := if outcome.Blocked? then Responding else Finished), h);
    }
  }

  lemma ResumeDecides(s: Server, t: nat, h: nat)
    requires Inv(s) && Enabled(s, ResponseResumes(t)) && h < |s.runs| && TableOk(s.runs, s.operations)
    ensures Decides(s, ResponseResumes(t), h)
  {
    hide Inv, TableOk, Responded, RunOk, Decides, Q.Resume, Q.Core, Q.Room;
    RespondingProducer(s, t);
    RespondingIsOver(s, t);
    ReturnFollows(s, t);
    Q.ResumeIsExact(s.queue, t);
    var (queue, outcome) := Q.Resume(s.queue, t);
    RespondedRuns(s.(queue := queue), t, s.runs[t], outcome);
    OneDecides(s, ResponseResumes(t), t, s.runs[t].(phase := if outcome.Blocked? then Responding else Finished), h);
  }

  lemma RespondingIsOver(s: Server, h: nat)
    requires Inv(s) && h < |s.runs| && s.runs[h].phase.Responding?
    ensures s.runs[h].op.Terminal()
  {
    assert RunOk(s.runs[h]);
    hide TableOk, QueueOk, CloseOk, LifeOk, ShutdownOk, LegalFor, HasFlag;
  }

  /** The steps that concern no run. */
  lemma OtherDecides(s: Server, e: Event, h: nat)
    requires Inv(s) && Enabled(s, e) && h < |s.runs| && TableOk(s.runs, s.operations)
    requires e.Handle? || e.Run? || e.DecoderFails? || e.ShutdownBegins? || e.WriterStep?
    ensures Decides(s, e, h)
  {
    assert RunOk(s.runs[h]);
    hide Inv, TableOk, RunOk, Dispatch, EndReading, EndShutdown, HandlerStarts, HandlerReturns, FinishHandler,
      HandlerResumes, Q.Enabled, Q.Apply, Q.Room, Q.NeverFits, Q.CanResume, Cancels;
    FailFollows(s, h, None);
    OtherRuns(s, e);
    OtherNothing(s, e, h);
    hide Apply, Enabled, Ending, NextPhase;
  }

  lemma OtherRuns(s: Server, e: Event)
    requires Enabled(s, e) && TableOk(s.runs, s.operations)
    requires e.Handle? || e.Run? || e.DecoderFails? || e.ShutdownBegins? || e.WriterStep?
    ensures Apply(s, e).runs == s.runs
  {
    hide TableOk, Dispatch, EndReading, EndShutdown, HandlerStarts, HandlerReturns, FinishHandler, HandlerResumes,
      Q.Enabled, Q.Apply;
  }

  lemma OtherNothing(s: Server, e: Event, h: nat)
    requires Enabled(s, e) && h < |s.runs|
    requires e.Handle? || e.Run? || e.DecoderFails? || e.ShutdownBegins? || e.WriterStep?
    ensures Ending(s, e, h).None? && NextPhase(s, e, h) == s.runs[h].phase
  {
    hide Enabled;
  }

  /** Every step moves every run on, and ends its operation, exactly as its cause says. */
  lemma StepDecides(s: Server, e: Event, h: nat)
    requires Inv(s) && Enabled(s, e) && h < |s.runs| && TableOk(s.runs, s.operations)
    ensures Decides(s, e, h)
  {
    hide Inv, TableOk, Enabled, Decides;
    match e
    case FrameArrives(f) => FrameDecides(s, f, h);
    case ReadingEnds(lost) => ReadingEndsDecides(s, lost, h);
    case ShutdownEnds => ShutdownEndsDecides(s, h);
    case HandlerBegins(t, failure) => BeginDecides(s, t, failure, h);
    case HandlerReturned(t, body) => ReturnDecides(s, t, body, h);
    case HandlerThrew(t) => ThrewDecides(s, t, h);
    case ResponseResumes(t) => ResumeDecides(s, t, h);
    case _ => OtherDecides(s, e, h);
  }

  // ----- Whole runs -----

  ghost function FirstEnding(s: Server, es: seq<Event>, s': Server, h: nat): Option<StatusCode>
    requires Inv(s) && Runs(s, es, s') && h < |s.runs|
    decreases es
  {
    if es == [] then None
    else
      var ending := Ending(s, es[0], h);
      if ending.Some? then ending
      else
        RunsStep(s, es, s', h);
        FirstEnding(Apply(s, es[0]), es[1..], s', h)
  }

  lemma RunsStep(s: Server, es: seq<Event>, s': Server, h: nat)
    requires Inv(s) && Runs(s, es, s') && es != [] && h < |s.runs|
    ensures TableOk(s.runs, s.operations) && Enabled(s, es[0])
    ensures Runs(Apply(s, es[0]), es[1..], s') && Inv(Apply(s, es[0])) && h < |Apply(s, es[0]).runs|
  {
    hide Inv, TableOk, Enabled, Apply, Ending, NextPhase;
    ApplyInv(s, es[0]);
    StepDecides(s, es[0], h);
  }

  lemma ResultOfState(s: Server, h: nat)
    requires Inv(s) && h < |s.runs|
    ensures s.runs[h].op.state.OpActive? <==> s.runs[h].op.result.None?
    ensures s.runs[h].op.state.OpActive? || s.runs[h].op.Terminal()
  {
    assert RunOk(s.runs[h]);
    hide TableOk, QueueOk, CloseOk, LifeOk, ShutdownOk, LegalFor, HasFlag;
  }

  /** The first cause wins: over any run, under every interleaving, the result of a handler's operation
      is that of the first cause that met it, and it has no result exactly when none did. */
  lemma {:induction false} FirstCauseWins(s: Server, es: seq<Event>, s': Server, h: nat)
    requires Inv(s) && Runs(s, es, s') && h < |s.runs| && s.runs[h].op.state.OpActive?
    ensures h < |s'.runs| && s'.runs[h].op.result == FirstEnding(s, es, s', h)
    decreases es
  {
    hide Inv, TableOk, Enabled, Apply, Ending, NextPhase, Forward;
    ResultOfState(s, h);
    if es != [] {
      var s1 := Apply(s, es[0]);
      RunsStep(s, es, s', h);
      StepDecides(s, es[0], h);
      ResultOfState(s1, h);
      if Ending(s, es[0], h).Some? {
        HandlersOnlyMoveForward(s1, es[1..], s', h);
        EndedStays(s1.runs[h], s'.runs[h]);
      } else {
        FirstCauseWins(s1, es[1..], s', h);
      }
    }
  }

  lemma EndedStays(x: HandlerRun, y: HandlerRun)
    requires Forward(x, y) && x.op.Terminal()
    ensures y.op == x.op
  {
  }
}
