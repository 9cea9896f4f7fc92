/** What one request sees of a whole connection: a list of possible causes, of which the first to
    happen decides its result. */
module ClientOutcomes {
  import opened Bytes
  import opened Frames
  import opened StreamIds
  import opened Operations
  import Q = WriteQueues
  import opened Clients
  import opened ClientInvariant
  import opened ClientTheorems

  /** Why a step ends request r while it is active, as the status its caller is given; None if the step
      leaves it active. What the step does to channels, identifiers and other requests plays no part. */
  function Ending(c: Client, e: Event, r: nat): Option<StatusCode>
    requires r < |c.requests| && Enabled(c, e)
  {
    match e
    case CancelCalled(t) => if t == r then Some(Cancelled) else None
    case HandleDestroyed(t) => if t == r then Some(Cancelled) else None
    case DeadlineExpires(t) => if t == r then Some(TimeoutError) else None
    case FrameArrives(f) =>
      if !Tolerated(c, f) then Some(IntolerableStatus(c, f))
      else if f.header.stream == c.requests[r].stream then Some(PeerVerdict(f)) else None
    case DecoderFails(error) => Some(StatusForValidation(error))
    case ReadingEnds => Some(ConnectionClosed)
    case ShutdownEnds => Some(ConnectionClosed)
    case StartResumes(t) => if t == r && Q.Resume(c.queue, t).1.Rejected? then Some(ResourceLimitExceeded) else None
    case _ => None
  }

  /** What a tolerated frame says about the request it names. */
  function PeerVerdict(f: Frame): StatusCode {
    if HasFlag(f.header.flags, CANCEL) then Cancelled
    else if HasFlag(f.header.flags, ERROR) && DecodeErrorStatus(f).Some? then DecodeErrorStatus(f).value
    else Ok
  }

  /** The first cause along a run. */
  ghost function FirstEnding(c: Client, es: seq<Event>, r: nat): Option<StatusCode>
    requires Inv(c) && r < |c.requests| && (exists c' :: Runs(c, es, c'))
    decreases es
  {
    if es == [] then None
    else
      var c' :| Runs(c, es, c');
      RunsStep(c, es, c');
      var ending := Ending(c, es[0], r);
      if ending.Some? then ending
      else
        StillThere(c, es[0], r);
        FirstEnding(Apply(c, es[0]), es[1..], r)
  }

  lemma RunsStep(c: Client, es: seq<Event>, c': Client)
    requires Inv(c) && Runs(c, es, c') && es != []
    ensures TableOk(c.requests, c.pending) && Enabled(c, es[0])
    ensures Runs(Apply(c, es[0]), es[1..], c') && Inv(Apply(c, es[0]))
  {
    hide Inv, TableOk, Enabled, Apply;
    ApplyInv(c, es[0]);
  }

  lemma StillThere(c: Client, e: Event, r: nat)
    requires Inv(c) && Enabled(c, e) && r < |c.requests| && TableOk(c.requests, c.pending)
    ensures r < |Apply(c, e).requests|
  {
    hide Inv, Apply, Enabled, TableOk, Settled;
    ApplySettles(c, e);
  }

  /** The request whose own handle, timer or caller takes the step. */
  function StepOwner(e: Event): Option<nat> {
    match e
    case StartResumes(t) => Some(t)
    case CancelCalled(t) => Some(t)
    case DeadlineExpires(t) => Some(t)
    case HandleDestroyed(t) => Some(t)
    case WaitCalled(t) => Some(t)
    case WaitResumes(t) => Some(t)
    case _ => None
  }

  // ----- One step -----

  lemma FailPendingEnds(c: Client, status: StatusCode, r: nat)
    requires Inv(c) && r < |c.requests| && c.requests[r].op.state.OpActive? && !status.Ok?
    ensures r < |FailPending(c, status).requests| && FailPending(c, status).requests[r].op.result == Some(status)
  {
    assert RequestOk(c.requests[r]);
    FailPendingRequests(c, status);
    hide RequestsOk, TableOk, OwnershipOk, QueueOk, OffersOk, FailPending, LifeOk;
  }

  /** Every way the connection ends treats the requests as fail_pending does. */
  lemma SameFailures(c: Client, status: StatusCode)
    ensures FailConnection(c, status).requests == FailPending(c, status).requests
    ensures EndReading(c).requests == EndShutdown(c).requests == FailPending(c, ConnectionClosed).requests
  {
    hide FailPending, Q.CloseQueue;
  }

  lemma CancelResult(c: Client, r: nat)
    requires r < |c.requests| && c.requests[r].op.state.OpActive?
    ensures |CancelPending(c, r).0.requests| == |c.requests|
    ensures CancelPending(c, r).0.requests[r].op.result == Some(Cancelled)
  {
    hide Q.TryEnqueue, CancelFrame;
  }

  lemma TimeoutResult(c: Client, r: nat)
    requires r < |c.requests| && c.requests[r].op.state.OpActive?
    ensures |TimeoutPending(c, r).requests| == |c.requests|
    ensures TimeoutPending(c, r).requests[r].op.result == Some(TimeoutError)
  {
    hide Q.TryEnqueue, CancelFrame;
  }

  lemma DropResult(c: Client, r: nat)
    requires r < |c.requests| && c.requests[r].op.state.OpActive?
    ensures |DropHandle(c, r).requests| == |c.requests|
    ensures DropHandle(c, r).requests[r].op.result == Some(Cancelled)
  {
    hide Q.TryEnqueue, CancelFrame, Release;
  }

  lemma ResumeResult(c: Client, r: nat)
    requires r < |c.requests| && c.requests[r].op.state.OpActive? && c.requests[r].op.result.None?
    requires Q.CanResume(c.queue, r)
    ensures |ResumeStart(c, r).requests| == |c.requests|
    ensures ResumeStart(c, r).requests[r].op.result
            == if Q.Resume(c.queue, r).1.Rejected? then Some(ResourceLimitExceeded) else None
  {
    hide Q.Resume, Release;
  }

  lemma BeginWaitResult(c: Client, r: nat)
    requires r < |c.requests|
    ensures |BeginWait(c, r).requests| == |c.requests| && BeginWait(c, r).requests[r].op == c.requests[r].op
  {
  }

  lemma CancelStepEnds(c: Client, r: nat)
    requires Inv(c) && Enabled(c, CancelCalled(r)) && c.requests[r].op.state.OpActive?
    ensures r < |Apply(c, CancelCalled(r)).requests|
    ensures Apply(c, CancelCalled(r)).requests[r].op.result == Ending(c, CancelCalled(r), r)
  {
    hide Inv, TableOk, CancelPending;
    CancelResult(c, r);
  }

  lemma DeadlineStepEnds(c: Client, r: nat)
    requires Inv(c) && Enabled(c, DeadlineExpires(r)) && c.requests[r].op.state.OpActive?
    ensures r < |Apply(c, DeadlineExpires(r)).requests|
    ensures Apply(c, DeadlineExpires(r)).requests[r].op.result == Ending(c, DeadlineExpires(r), r)
  {
    hide Inv, TableOk, TimeoutPending;
    TimeoutResult(c, r);
  }

  lemma DropStepEnds(c: Client, r: nat)
    requires Inv(c) && Enabled(c, HandleDestroyed(r)) && c.requests[r].op.state.OpActive?
    ensures r < |Apply(c, HandleDestroyed(r)).requests|
    ensures Apply(c, HandleDestroyed(r)).requests[r].op.result == Ending(c, HandleDestroyed(r), r)
  {
    hide Inv, TableOk, DropHandle;
    DropResult(c, r);
  }

  lemma WaitStepEnds(c: Client, r: nat)
    requires Inv(c) && Enabled(c, WaitCalled(r)) && r < |c.requests| && c.requests[r].op.state.OpActive?
    ensures r < |Apply(c, WaitCalled(r)).requests|
    ensures Apply(c, WaitCalled(r)).requests[r].op.result == Ending(c, WaitCalled(r), r)
  {
    hide Inv, TableOk, BeginWait, Enabled, Q.Resume, Tolerated, PeerVerdict, IntolerableStatus, HandleStep;
    ActiveIsQuiet(c, r);
    BeginWaitResult(c, r);
  }

  lemma StartResumesEnds(c: Client, r: nat)
    requires Inv(c) && Enabled(c, StartResumes(r)) && c.requests[r].op.state.OpActive?
    ensures r < |Apply(c, StartResumes(r)).requests|
    ensures Apply(c, StartResumes(r)).requests[r].op.result == Ending(c, StartResumes(r), r)
  {
    ActiveIsQuiet(c, r);
    hide Inv, TableOk, ResumeStart, Q.Resume, Q.CanResume;
    ResumeResult(c, r);
  }

  /** The own steps of request r. */
  lemma OwnStepEnds(c: Client, e: Event, r: nat)
    requires Inv(c) && Enabled(c, e) && HandleStep(e, r)
    requires r < |c.requests| && c.requests[r].op.state.OpActive?
    ensures r < |Apply(c, e).requests| && Apply(c, e).requests[r].op.result == Ending(c, e, r)
  {
    hide Inv, Apply, Ending, TableOk, Enabled;
    ActiveIsQuiet(c, r);
    WaitResumesIsResuming(c, r);
    match e
    case CancelCalled(_) => CancelStepEnds(c, r);
    case DeadlineExpires(_) => DeadlineStepEnds(c, r);
    case HandleDestroyed(_) => DropStepEnds(c, r);
    case WaitCalled(_) => WaitStepEnds(c, r);
    case WaitResumes(_) => assert false;
    case StartResumes(_) => StartResumesEnds(c, r);
  }

  lemma WaitResumesIsResuming(c: Client, r: nat)
    ensures Enabled(c, WaitResumes(r)) ==> r < |c.requests| && c.requests[r].phase.Resuming?
  {
  }

  lemma ActiveIsQuiet(c: Client, r: nat)
    requires Inv(c) && r < |c.requests| && c.requests[r].op.state.OpActive?
    ensures !c.requests[r].phase.Resuming? && c.requests[r].op.result.None? && !c.requests[r].removed
  {
    assert RequestOk(c.requests[r]);
    hide OwnershipOk, QueueOk, OffersOk, LifeOk, TableOk;
  }

  /** The own steps of another request. */
  lemma OtherStepEnds(c: Client, e: Event, t: nat, r: nat)
    requires Inv(c) && Enabled(c, e) && HandleStep(e, t) && t != r
    requires r < |c.requests| && c.requests[r].op.state.OpActive?
    ensures r < |Apply(c, e).requests| && Apply(c, e).requests[r].op.result == Ending(c, e, r)
  {
    hide Inv, TableOk, Apply, Enabled, Ending, HandleStep;
    ActiveIsQuiet(c, r);
    OtherStepKeeps(c, e, t, r);
    OtherStepIsNoCause(c, e, t, r);
  }

  lemma OtherStepKeeps(c: Client, e: Event, t: nat, r: nat)
    requires Inv(c) && Enabled(c, e) && HandleStep(e, t) && t != r && r < |c.requests|
    ensures r < |Apply(c, e).requests| && Apply(c, e).requests[r] == c.requests[r]
  {
    hide Inv, TableOk, Apply, Enabled, Settled, HandleStep, Release;
    HandleStepIsLocal(c, e, t);
  }

  lemma OtherStepIsNoCause(c: Client, e: Event, t: nat, r: nat)
    requires Enabled(c, e) && HandleStep(e, t) && t != r && r < |c.requests|
    ensures Ending(c, e, r).None?
  {
    hide Enabled, Tolerated, PeerVerdict, IntolerableStatus, Q.Resume, StatusForValidation;
  }

  lemma VerdictReached(c: Client, f: Frame)
    requires Inv(c) && Tolerated(c, f)
    ensures var t := c.pending[f.header.stream];
            && t < |c.requests| && |Dispatch(c, f).requests| == |c.requests|
            && Dispatch(c, f).requests[t].op.result == Some(PeerVerdict(f))
  {
    hide OwnershipOk, QueueOk, OffersOk, LifeOk, RequestOk, HasFlag, DecodeErrorStatus, TableOk, DispatchTo, PeerVerdict;
    ActiveInTable(c, f.header.stream);
    VerdictOnRequest(c, c.pending[f.header.stream], f);
  }

  lemma VerdictOnRequest(c: Client, t: nat, f: Frame)
    requires t < |c.requests| && c.requests[t].op.state.OpActive?
    requires HasFlag(f.header.flags, ERROR) && !HasFlag(f.header.flags, CANCEL) ==> DecodeErrorStatus(f).Some?
    ensures |DispatchTo(c, t, f).requests| == |c.requests|
    ensures DispatchTo(c, t, f).requests[t].op.result == Some(PeerVerdict(f))
  {
    hide HasFlag, DecodeErrorStatus, CloseChannel, Cleanup, CancelPending, Deliver, MarkTerminal, FailConnection;
    var x := c.requests[t];
    if HasFlag(f.header.flags, CANCEL) {
      CancelResult(c, t);
      MarkKeepsRequests(CancelPending(c, t).0, f);
    } else if HasFlag(f.header.flags, ERROR) {
      var status := DecodeErrorStatus(f).value;
      ErrorStatusNeverOk(f);
      ErrorResult(c, t, status);
      MarkKeepsRequests(Cleanup(c, t, CloseChannel(x.(op := Fail(x.op, status).0)), true), f);
    } else {
      ResponseResult(c, t, f);
      MarkKeepsRequests(Cleanup(c, t, Deliver(x.(op := Complete(x.op).0), f), true), f);
    }
  }

  lemma MarkKeepsRequests(c: Client, f: Frame)
    ensures MarkTerminal(c, f).requests == c.requests
  {
    hide HasFlag;
  }

  lemma ErrorResult(c: Client, t: nat, status: StatusCode)
    requires t < |c.requests| && c.requests[t].op.state.OpActive? && !status.Ok?
    ensures var c' := Cleanup(c, t, CloseChannel(c.requests[t].(op := Fail(c.requests[t].op, status).0)), true);
            |c'.requests| == |c.requests| && c'.requests[t].op.result == Some(status)
  {
    hide Release;
  }

  lemma ResponseResult(c: Client, t: nat, f: Frame)
    requires t < |c.requests| && c.requests[t].op.state.OpActive?
    ensures Complete(c.requests[t].op).1
    ensures var c' := Cleanup(c, t, Deliver(c.requests[t].(op := Complete(c.requests[t].op).0), f), true);
            |c'.requests| == |c.requests| && c'.requests[t].op.result == Some(Ok)
  {
    hide Release;
  }

  lemma FrameEnds(c: Client, f: Frame, r: nat)
    requires Inv(c) && Enabled(c, FrameArrives(f)) && r < |c.requests| && c.requests[r].op.state.OpActive?
    ensures r < |Dispatch(c, f).requests|
    ensures Dispatch(c, f).requests[r].op.result == Ending(c, FrameArrives(f), r)
  {
    hide OwnershipOk, QueueOk, OffersOk, LifeOk, Dispatch, FailPending, Tolerated, IntolerableStatus, PeerVerdict;
    ActiveIsQuiet(c, r);
    hide Inv;
    if Tolerated(c, f) {
      ToleratedIsPending(c, f);
      ToleratedIsLocal(c, f);
      VerdictReached(c, f);
      OwnerOf(c, f.header.stream, r);
    } else {
      IntolerableFailsAll(c, f);
      IntolerableNotOk(c, f);
      FailPendingEnds(c, IntolerableStatus(c, f), r);
    }
  }

  lemma OwnerOf(c: Client, s: u64, r: nat)
    requires Inv(c) && s in c.pending && r < |c.requests| && !c.requests[r].removed
    ensures c.pending[s] == r <==> c.requests[r].stream == s
  {
    hide RequestsOk, OwnershipOk, QueueOk, OffersOk, LifeOk;
  }

  lemma IntolerableNotOk(c: Client, f: Frame)
    ensures !IntolerableStatus(c, f).Ok?
  {
  }

  lemma StartEnds(c: Client, body: Option<seq<u8>>, r: nat)
    requires body.Some? ==> |body.value| <= DEFAULT_MAX_PAYLOAD
    requires r < |c.requests|
    ensures r < |StartRequest(c, body).requests| && StartRequest(c, body).requests[r] == c.requests[r]
  {
    hide Allocate, SendRequest;
    if !ShuttingDown(c.state) && Allocate(c.ids).1.Some? && body.Some? {
      SendSettles(c.(ids := Allocate(c.ids).0), Allocate(c.ids).1.value, body.value);
    }
  }

  /** The steps that end the connection. */
  lemma DecoderFailsEnds(c: Client, error: FrameValidationError, r: nat)
    requires Inv(c) && Enabled(c, DecoderFails(error)) && r < |c.requests| && c.requests[r].op.state.OpActive?
    ensures r < |Apply(c, DecoderFails(error)).requests|
    ensures Apply(c, DecoderFails(error)).requests[r].op.result == Ending(c, DecoderFails(error), r)
  {
    hide Inv, TableOk, FailPending, FailConnection;
    SameFailures(c, StatusForValidation(error));
    FailPendingEnds(c, StatusForValidation(error), r);
  }

  lemma ReadingEndsEnds(c: Client, r: nat)
    requires Inv(c) && Enabled(c, ReadingEnds) && r < |c.requests| && c.requests[r].op.state.OpActive?
    ensures r < |Apply(c, ReadingEnds).requests|
    ensures Apply(c, ReadingEnds).requests[r].op.result == Ending(c, ReadingEnds, r)
  {
    hide Inv, TableOk, FailPending, EndReading;
    SameFailures(c, ConnectionClosed);
    FailPendingEnds(c, ConnectionClosed, r);
  }

  lemma ShutdownEndsEnds(c: Client, r: nat)
    requires Inv(c) && Enabled(c, ShutdownEnds) && r < |c.requests| && c.requests[r].op.state.OpActive?
    ensures r < |Apply(c, ShutdownEnds).requests|
    ensures Apply(c, ShutdownEnds).requests[r].op.result == Ending(c, ShutdownEnds, r)
  {
    hide Inv, TableOk, FailPending, EndShutdown;
    SameFailures(c, ConnectionClosed);
    FailPendingEnds(c, ConnectionClosed, r);
  }

  lemma StartStepEnds(c: Client, body: Option<seq<u8>>, r: nat)
    requires Inv(c) && Enabled(c, Start(body)) && r < |c.requests| && c.requests[r].op.state.OpActive?
    ensures r < |Apply(c, Start(body)).requests|
    ensures Apply(c, Start(body)).requests[r].op.result == Ending(c, Start(body), r)
  {
    ActiveIsQuiet(c, r);
    hide Inv, TableOk, StartRequest;
    StartEnds(c, body, r);
  }

  lemma FrameStepEnds(c: Client, f: Frame, r: nat)
    requires Inv(c) && Enabled(c, FrameArrives(f)) && r < |c.requests| && c.requests[r].op.state.OpActive?
    ensures r < |Apply(c, FrameArrives(f)).requests|
    ensures Apply(c, FrameArrives(f)).requests[r].op.result == Ending(c, FrameArrives(f), r)
  {
    hide Inv, TableOk, Dispatch, Ending, Enabled;
    FrameEnds(c, f, r);
  }

  /** The steps of the connection that end nothing. */
  lemma RunStepEnds(c: Client, r: nat)
    requires Inv(c) && Enabled(c, Run) && r < |c.requests| && c.requests[r].op.state.OpActive?
    ensures r < |Apply(c, Run).requests| && Apply(c, Run).requests[r].op.result == Ending(c, Run, r)
  {
    hide Inv, TableOk, Enabled;
    ActiveIsQuiet(c, r);
  }

  lemma ShutdownBeginsStepEnds(c: Client, r: nat)
    requires Inv(c) && Enabled(c, ShutdownBegins) && r < |c.requests| && c.requests[r].op.state.OpActive?
    ensures r < |Apply(c, ShutdownBegins).requests|
    ensures Apply(c, ShutdownBegins).requests[r].op.result == Ending(c, ShutdownBegins, r)
  {
    hide Inv, TableOk, Enabled;
    ActiveIsQuiet(c, r);
  }

  lemma WriterStepEnds(c: Client, step: Q.Event, r: nat)
    requires Inv(c) && Enabled(c, WriterStep(step)) && r < |c.requests| && c.requests[r].op.state.OpActive?
    ensures r < |Apply(c, WriterStep(step)).requests|
    ensures Apply(c, WriterStep(step)).requests[r].op.result == Ending(c, WriterStep(step), r)
  {
    hide Inv, TableOk, Enabled, Q.Apply, Q.Enabled;
    ActiveIsQuiet(c, r);
  }

  /** Every step gives an active request exactly the result its cause says, or none. */
  lemma EndingDecides(c: Client, e: Event, r: nat)
    requires Inv(c) && Enabled(c, e) && r < |c.requests| && c.requests[r].op.state.OpActive?
    ensures r < |Apply(c, e).requests| && Apply(c, e).requests[r].op.result == Ending(c, e, r)
  {
    hide Inv, Apply, Enabled, Ending, TableOk;
    if StepOwner(e).Some? {
      var t := StepOwner(e).value;
      assert HandleStep(e, t);
      if t == r {
        OwnStepEnds(c, e, r);
      } else {
        OtherStepEnds(c, e, t, r);
      }
    } else if e.DecoderFails? {
      DecoderFailsEnds(c, e.error, r);
    } else if e.ReadingEnds? {
      ReadingEndsEnds(c, r);
    } else if e.ShutdownEnds? {
      ShutdownEndsEnds(c, r);
    } else if e.Start? {
      StartStepEnds(c, e.body, r);
    } else if e.FrameArrives? {
      FrameStepEnds(c, e.frame, r);
    } else if e.Run? {
      RunStepEnds(c, r);
    } else if e.ShutdownBegins? {
      ShutdownBeginsStepEnds(c, r);
    } else {
      WriterStepEnds(c, e.step, r);
    }
  }

  // ----- Whole runs -----

  /** The first cause wins: over any run, under every interleaving, the result of a request is the
      status of the first cause that met it, and it has no result exactly when none did. */
  lemma {:induction false} FirstCauseWins(c: Client, es: seq<Event>, c': Client, r: nat)
    requires Inv(c) && Runs(c, es, c') && r < |c.requests| && c.requests[r].op.state.OpActive?
    ensures r < |c'.requests| && c'.requests[r].op.result == FirstEnding(c, es, r)
    decreases es
  {
    hide Inv, TableOk, Enabled, Apply, Ending;
    if es == [] {
      ActiveIsQuiet(c, r);
    } else {
      var c1 := Apply(c, es[0]);
      RunsStep(c, es, c');
      EndingDecides(c, es[0], r);
      ResultMeansEnded(c1, r);
      if Ending(c, es[0], r).Some? {
        OutcomeIsFinal(c1, es[1..], c', r);
      } else {
        FirstCauseWins(c1, es[1..], c', r);
      }
    }
  }

  lemma ResultMeansEnded(c: Client, r: nat)
    requires Inv(c) && r < |c.requests|
    ensures c.requests[r].op.result.Some? ==> c.requests[r].removed
    ensures c.requests[r].op.result.None? ==> c.requests[r].op.state.OpActive?
  {
    assert RequestOk(c.requests[r]);
  }
}
