/** What one caller sees of a whole connection: where it is after each step, when its request leaves the
    table, and when its stream identifier goes back to the allocator. */
module ClientCallers {
  import opened Bytes
  import opened Frames
  import opened Channels
  import opened StreamIds
  import opened Operations
  import Q = WriteQueues
  import opened Clients
  import opened ClientInvariant
  import opened ClientTheorems
  import opened ClientOutcomes

  /** The steps that return request r's identifier: a response or a peer's error, the end of a wait, the
      destruction of the handle, and a refused start. A cancellation, a deadline and a failure of the
      connection keep it. */
  predicate Releases(c: Client, e: Event, r: nat)
    requires r < |c.requests|
  {
    match e
    case HandleDestroyed(t) => t == r
    case WaitResumes(t) => t == r
    case StartResumes(t) => t == r && c.queue.closed
    case FrameArrives(f) =>
      && Tolerated(c, f) && f.header.stream == c.requests[r].stream && !c.requests[r].removed
      && !HasFlag(f.header.flags, CANCEL)
    case _ => false
  }

  /** What a caller is told by a channel it finds ended or filled. */
  function Told(x: Request): ReceiveOutcome<Frame> {
    if |x.delivered| == 1 then Received(x.delivered[0]) else EndOfChannel
  }

  /** What async_wait returns: the response, or the status the request ended with. */
  function Answer(x: Request): WaitResult {
    if |x.delivered| == 1 then Response(x.delivered[0])
    else match x.op.result case Some(status) => Failure(status) case None => NoResult
  }

  /** Where the caller of request r is after a step. Its own steps move it on; any other step resumes it
      exactly when it is suspended in async_wait and the step ends its request. */
  function NextPhase(c: Client, e: Event, r: nat): Phase
    requires r < |c.requests| && Enabled(c, e)
  {
    var x := c.requests[r];
    if StepOwner(e) == Some(r) && !e.CancelCalled? && !e.DeadlineExpires? then
      match e
      case WaitCalled(_) => if x.op.state.OpActive? then Awaiting else Resuming(Told(x))
      case WaitResumes(_) => Returned(Answer(x))
      case StartResumes(_) =>
        if c.queue.closed then NotStarted else if Q.Room(c.queue, c.queue.producers[r].frame) then Held else Sending
      case _ => Dropped
    else if x.phase.Awaiting? && Ending(c, e, r).Some? then
      Resuming(if Ending(c, e, r) == Some(Ok) && e.FrameArrives? then Received(e.frame) else EndOfChannel)
    else x.phase
  }

  predicate Follows(x: Request, y: Request, phase: Phase, releases: bool) {
    y.phase == phase && y.released == (x.released || releases) && y.stream == x.stream
  }

  ghost predicate Decides(c: Client, e: Event, r: nat)
    requires r < |c.requests| && Enabled(c, e) && TableOk(c.requests, c.pending)
  {
    && r < |Apply(c, e).requests|
    && Follows(c.requests[r], Apply(c, e).requests[r], NextPhase(c, e, r), Releases(c, e, r))
  }

  // ----- One request -----

  lemma ClosePhase(x: Request, op: Op)
    requires RequestOk(x)
    ensures var y := CloseChannel(x.(op := op));
            && y.phase == (if x.phase.Awaiting? then Resuming(EndOfChannel) else x.phase)
            && y.released == x.released && y.stream == x.stream && y.removed == x.removed
  {
  }

  lemma DeliverPhase(x: Request, f: Frame)
    requires RequestOk(x) && x.op.state.OpActive?
    ensures var y := Deliver(x.(op := Complete(x.op).0), f);
            && y.phase == (if x.phase.Awaiting? then Resuming(Received(f)) else x.phase)
            && y.released == x.released && y.stream == x.stream
    ensures Complete(x.op).1
  {
  }

  lemma CleanupRequest(c: Client, r: nat, x: Request, release: bool)
    requires r < |c.requests|
    ensures |Cleanup(c, r, x, release).requests| == |c.requests|
    ensures Cleanup(c, r, x, release).requests[r] == x.(removed := true, released := x.released || release)
  {
    hide Release;
  }

  lemma ActiveFacts(x: Request)
    requires RequestOk(x)
    ensures x.op.state.OpActive? || x.op.Terminal()
    ensures x.phase.Awaiting? ==> x.op.state.OpActive?
    ensures Cancel(x.op).1 == Timeout(x.op).1 == x.op.state.OpActive?
    ensures !x.op.state.OpActive? ==> x.op.result.Some?
  {
  }

  lemma CancelOwn(c: Client, r: nat)
    requires r < |c.requests| && RequestOk(c.requests[r])
    ensures var x := c.requests[r];
            && |CancelPending(c, r).0.requests| == |TimeoutPending(c, r).requests| == |c.requests|
            && var phase := if x.phase.Awaiting? then Resuming(EndOfChannel) else x.phase;
               && Follows(x, CancelPending(c, r).0.requests[r], phase, false)
               && Follows(x, TimeoutPending(c, r).requests[r], phase, false)
  {
    var x := c.requests[r];
    hide RequestOk, CloseChannel, Cleanup, SendCancellation, Cancel, Timeout;
    ActiveFacts(x);
    ClosePhase(x, Cancel(x.op).0);
    ClosePhase(x, Timeout(x.op).0);
    SendApart(c, r);
    CleanupRequest(SendCancellation(c, r), r, CloseChannel(x.(op := Cancel(x.op).0)), false);
    CleanupRequest(SendCancellation(c, r), r, CloseChannel(x.(op := Timeout(x.op).0)), false);
  }

  lemma SendApart(c: Client, r: nat)
    requires r < |c.requests|
    ensures SendCancellation(c, r).requests == c.requests
  {
    hide Q.TryEnqueue, CancelFrame;
  }

  lemma DropOwn(c: Client, r: nat)
    requires r < |c.requests| && RequestOk(c.requests[r])
    ensures |DropHandle(c, r).requests| == |c.requests|
    ensures Follows(c.requests[r], DropHandle(c, r).requests[r], Dropped, true)
  {
    var x := c.requests[r];
    hide RequestOk, CloseChannel, Cleanup, SendCancellation, Cancel;
    ClosePhase(x, Cancel(x.op).0);
    SendApart(c, r);
    CleanupRequest(c, r, x, true);
    CleanupRequest(SendCancellation(c, r), r, CloseChannel(x.(op := Cancel(x.op).0)), true);
  }

  lemma BeginWaitOwn(c: Client, r: nat)
    requires r < |c.requests| && RequestOk(c.requests[r]) && c.requests[r].phase.Held?
    ensures var x := c.requests[r];
            && |BeginWait(c, r).requests| == |c.requests|
            && Follows(x, BeginWait(c, r).requests[r], if x.op.state.OpActive? then Awaiting else Resuming(Told(x)), false)
  {
  }

  lemma EndWaitOwn(c: Client, r: nat)
    requires r < |c.requests| && RequestOk(c.requests[r]) && c.requests[r].phase.Resuming?
    ensures |EndWait(c, r).requests| == |c.requests|
    ensures Follows(c.requests[r], EndWait(c, r).requests[r], Returned(Answer(c.requests[r])), true)
  {
    var x := c.requests[r];
    assert WaitReturns(x) == Answer(x);
    hide RequestOk, Cleanup, WaitReturns;
    CleanupRequest(c, r, x.(phase := Returned(WaitReturns(x))), true);
  }

  lemma ResumeOwn(c: Client, r: nat)
    requires Q.Core(c.queue) && r < |c.requests| && Q.CanResume(c.queue, r) && RequestOk(c.requests[r])
    requires c.requests[r].phase.Sending?
    ensures var room := Q.Room(c.queue, c.queue.producers[r].frame);
            && |ResumeStart(c, r).requests| == |c.requests|
            && Follows(c.requests[r], ResumeStart(c, r).requests[r],
                       if c.queue.closed then NotStarted else if room then Held else Sending, c.queue.closed)
  {
    var x := c.requests[r];
    hide Q.Core, Q.Resume, Q.Room, RequestOk, CloseChannel, Cleanup, Fail;
    Q.ResumeIsExact(c.queue, r);
    var (queue, outcome) := Q.Resume(c.queue, r);
    ClosePhase(x, Fail(x.op, ResourceLimitExceeded).0);
    CleanupRequest(c.(queue := queue), r,
                   CloseChannel(x.(op := Fail(x.op, ResourceLimitExceeded).0)).(phase := NotStarted), true);
  }

  lemma RequestFacts(c: Client, r: nat)
    requires Inv(c) && r < |c.requests|
    ensures Q.Core(c.queue) && RequestOk(c.requests[r])
    ensures Q.CanResume(c.queue, r) ==> c.requests[r].phase.Sending?
  {
    hide TableOk, OwnershipOk, OffersOk, LifeOk, RequestOk, Q.Core;
  }

  // ----- Own steps -----

  lemma CancelDecides(c: Client, r: nat)
    requires Inv(c) && Enabled(c, CancelCalled(r)) && TableOk(c.requests, c.pending)
    ensures Decides(c, CancelCalled(r), r)
  {
    hide Inv, TableOk, RequestOk, CancelPending, Q.Core, Follows;
    RequestFacts(c, r);
    ActiveFacts(c.requests[r]);
    CancelOwn(c, r);
  }

  lemma DeadlineDecides(c: Client, r: nat)
    requires Inv(c) && Enabled(c, DeadlineExpires(r)) && TableOk(c.requests, c.pending)
    ensures Decides(c, DeadlineExpires(r), r)
  {
    hide Inv, TableOk, RequestOk, TimeoutPending, Q.Core, Follows;
    RequestFacts(c, r);
    ActiveFacts(c.requests[r]);
    CancelOwn(c, r);
  }

  lemma DropDecides(c: Client, r: nat)
    requires Inv(c) && Enabled(c, HandleDestroyed(r)) && TableOk(c.requests, c.pending)
    ensures Decides(c, HandleDestroyed(r), r)
  {
    hide Inv, TableOk, RequestOk, DropHandle, Q.Core, Follows;
    RequestFacts(c, r);
    DropOwn(c, r);
  }

  lemma WaitDecides(c: Client, r: nat)
    requires Inv(c) && Enabled(c, WaitCalled(r)) && TableOk(c.requests, c.pending)
    ensures Decides(c, WaitCalled(r), r)
  {
    hide Inv, TableOk, RequestOk, BeginWait, Q.Core, Follows;
    RequestFacts(c, r);
    BeginWaitOwn(c, r);
  }

  lemma WaitEndDecides(c: Client, r: nat)
    requires Inv(c) && Enabled(c, WaitResumes(r)) && TableOk(c.requests, c.pending)
    ensures Decides(c, WaitResumes(r), r)
  {
    hide Inv, TableOk, RequestOk, EndWait, Q.Core, Follows, Answer;
    RequestFacts(c, r);
    EndWaitOwn(c, r);
  }

  lemma ResumeDecides(c: Client, r: nat)
    requires Inv(c) && Enabled(c, StartResumes(r)) && TableOk(c.requests, c.pending)
    ensures Decides(c, StartResumes(r), r)
  {
    hide Inv, TableOk, RequestOk, ResumeStart, Q.Core, Follows, Q.Room;
    RequestFacts(c, r);
    ResumeOwn(c, r);
  }

  // ----- Steps of others and of the connection -----

  lemma OtherDecides(c: Client, e: Event, t: nat, r: nat)
    requires Inv(c) && Enabled(c, e) && HandleStep(e, t) && t != r && r < |c.requests| && TableOk(c.requests, c.pending)
    ensures Decides(c, e, r)
  {
    hide Inv, TableOk, Apply, Enabled, NextPhase, Releases, HandleStep;
    OtherStepKeeps(c, e, t, r);
    OtherIsElsewhere(c, e, t, r);
  }

  lemma OtherIsElsewhere(c: Client, e: Event, t: nat, r: nat)
    requires Enabled(c, e) && HandleStep(e, t) && t != r && r < |c.requests|
    ensures NextPhase(c, e, r) == c.requests[r].phase && !Releases(c, e, r)
  {
    hide Enabled, Ending, Tolerated;
    OtherStepIsNoCause(c, e, t, r);
  }

  lemma FailPhase(c: Client, status: StatusCode, r: nat)
    requires Inv(c) && r < |c.requests| && !status.Ok?
    ensures |FailPending(c, status).requests| == |c.requests|
    ensures var x := c.requests[r];
            Follows(x, FailPending(c, status).requests[r],
                    if x.phase.Awaiting? then Resuming(EndOfChannel) else x.phase, false)
  {
    var x := c.requests[r];
    assert RequestOk(x);
    ActiveFacts(x);
    ClosePhase(x, Fail(x.op, status).0);
    FailPendingRequests(c, status);
    hide RequestsOk, TableOk, OwnershipOk, QueueOk, OffersOk, LifeOk, FailPending, CloseChannel, Fail, RequestOk;
  }

  /** The steps that end the connection. */
  lemma FailureDecides(c: Client, e: Event, r: nat)
    requires Inv(c) && Enabled(c, e) && r < |c.requests| && TableOk(c.requests, c.pending)
    requires e.DecoderFails? || e.ReadingEnds? || e.ShutdownEnds?
    ensures Decides(c, e, r)
  {
    hide Inv, TableOk, Apply, Enabled, NextPhase, FailPending, Releases, Follows;
    var status := FailureOf(e);
    FailPhase(c, status, r);
    FailureRequests(c, e);
    FailureIsACause(c, e, r);
  }

  function FailureOf(e: Event): (status: StatusCode)
    ensures !status.Ok?
  {
    if e.DecoderFails? then StatusForValidation(e.error) else ConnectionClosed
  }

  lemma FailureRequests(c: Client, e: Event)
    requires Enabled(c, e) && TableOk(c.requests, c.pending) && (e.DecoderFails? || e.ReadingEnds? || e.ShutdownEnds?)
    ensures Apply(c, e).requests == FailPending(c, FailureOf(e)).requests
  {
    hide TableOk, FailPending, FailConnection, EndReading, EndShutdown;
    SameFailures(c, FailureOf(e));
  }

  lemma FailureIsACause(c: Client, e: Event, r: nat)
    requires Enabled(c, e) && r < |c.requests| && (e.DecoderFails? || e.ReadingEnds? || e.ShutdownEnds?)
    ensures NextPhase(c, e, r)
            == if c.requests[r].phase.Awaiting? then Resuming(EndOfChannel) else c.requests[r].phase
    ensures !Releases(c, e, r)
  {
    hide Enabled, Tolerated, StatusForValidation;
  }

  lemma VerdictOwn(c: Client, r: nat, f: Frame)
    requires r < |c.requests| && RequestOk(c.requests[r]) && c.requests[r].op.state.OpActive?
    requires HasFlag(f.header.flags, ERROR) && !HasFlag(f.header.flags, CANCEL) ==> DecodeErrorStatus(f).Some?
    ensures var x := c.requests[r];
            && |DispatchTo(c, r, f).requests| == |c.requests|
            && Follows(x, DispatchTo(c, r, f).requests[r],
                       if !x.phase.Awaiting? then x.phase
                       else Resuming(if PeerVerdict(f) == Ok then Received(f) else EndOfChannel),
                       !HasFlag(f.header.flags, CANCEL))
  {
    hide HasFlag, DecodeErrorStatus, CloseChannel, Cleanup, CancelPending, Deliver, MarkTerminal, FailConnection, RequestOk,
      Fail, Complete;
    var x := c.requests[r];
    ErrorStatusNeverOk(f);
    if HasFlag(f.header.flags, CANCEL) {
      CancelOwn(c, r);
      MarkKeepsRequests(CancelPending(c, r).0, f);
    } else if HasFlag(f.header.flags, ERROR) {
      var y := CloseChannel(x.(op := Fail(x.op, DecodeErrorStatus(f).value).0));
      ClosePhase(x, Fail(x.op, DecodeErrorStatus(f).value).0);
      CleanupRequest(c, r, y, true);
      MarkKeepsRequests(Cleanup(c, r, y, true), f);
    } else {
      var y := Deliver(x.(op := Complete(x.op).0), f);
      DeliverPhase(x, f);
      CleanupRequest(c, r, y, true);
      MarkKeepsRequests(Cleanup(c, r, y, true), f);
    }
  }

  lemma FrameDecides(c: Client, f: Frame, r: nat)
    requires Inv(c) && Enabled(c, FrameArrives(f)) && r < |c.requests| && TableOk(c.requests, c.pending)
    ensures Decides(c, FrameArrives(f), r)
  {
    hide Inv, TableOk, Dispatch, Tolerated, Follows, PeerVerdict, HasFlag, IntolerableStatus, RequestOk, Q.Core, FailPending;
    RequestFacts(c, r);
    ActiveFacts(c.requests[r]);
    if Tolerated(c, f) {
      ToleratedDecides(c, f, r);
      ToleratedIsPending(c, f);
    } else {
      IntolerableFailsAll(c, f);
      IntolerableNotOk(c, f);
      FailPhase(c, IntolerableStatus(c, f), r);
    }
  }

  lemma ToleratedDecides(c: Client, f: Frame, r: nat)
    requires Inv(c) && r < |c.requests| && TableOk(c.requests, c.pending) && Tolerated(c, f)
    ensures var x := c.requests[r];
            var mine := f.header.stream == x.stream && !x.removed;
            && r < |Dispatch(c, f).requests|
            && (x.phase.Awaiting? ==> !x.removed)
            && Follows(x, Dispatch(c, f).requests[r],
                       if !(mine && x.phase.Awaiting?) then x.phase
                       else Resuming(if PeerVerdict(f) == Ok then Received(f) else EndOfChannel),
                       mine && !HasFlag(f.header.flags, CANCEL))
  {
    var s := f.header.stream;
    ActiveInTable(c, s);
    assert RequestOk(c.requests[r]);
    var t := c.pending[s];
    if !c.requests[r].removed {
      OwnerOf(c, s, r);
    }
    assert t == r <==> f.header.stream == c.requests[r].stream && !c.requests[r].removed;
    ToleratedIsLocal(c, f);
    hide Inv, TableOk, DispatchTo, PeerVerdict, HasFlag, RequestOk, DecodeErrorStatus;
    if t == r {
      VerdictOwn(c, r, f);
    }
  }

  /** The steps that concern no request there is. */
  lemma QuietDecides(c: Client, e: Event, r: nat)
    requires Inv(c) && Enabled(c, e) && r < |c.requests| && TableOk(c.requests, c.pending)
    requires e.Start? || e.Run? || e.ShutdownBegins? || e.WriterStep?
    ensures Decides(c, e, r)
  {
    hide Inv, TableOk, Apply, Enabled, NextPhase, Releases;
    QuietKeeps(c, e, r);
    QuietIsNoCause(c, e, r);
  }

  lemma QuietKeeps(c: Client, e: Event, r: nat)
    requires Enabled(c, e) && r < |c.requests| && TableOk(c.requests, c.pending)
    requires e.Start? || e.Run? || e.ShutdownBegins? || e.WriterStep?
    ensures r < |Apply(c, e).requests| && Apply(c, e).requests[r] == c.requests[r]
  {
    hide TableOk, StartRequest, ResumeStart, Dispatch, FailConnection, EndReading, EndShutdown, CancelPending, TimeoutPending,
      DropHandle, BeginWait, EndWait, Q.Apply, Q.Enabled, Q.CanResume;
    if e.Start? {
      StartEnds(c, e.body, r);
    }
  }

  lemma QuietIsNoCause(c: Client, e: Event, r: nat)
    requires Enabled(c, e) && r < |c.requests| && (e.Start? || e.Run? || e.ShutdownBegins? || e.WriterStep?)
    ensures NextPhase(c, e, r) == c.requests[r].phase && !Releases(c, e, r)
  {
    hide Enabled, Tolerated;
  }

  /** Every step moves every caller on, and returns its identifier, exactly as stated. */
  lemma CallerIsExact(c: Client, e: Event, r: nat)
    requires Inv(c) && Enabled(c, e) && r < |c.requests| && TableOk(c.requests, c.pending)
    ensures Decides(c, e, r)
  {
    hide Inv, TableOk, Enabled, Decides;
    if StepOwner(e).Some? && StepOwner(e).value != r {
      OtherDecides(c, e, StepOwner(e).value, r);
    } else {
      match e
      case CancelCalled(_) => CancelDecides(c, r);
      case DeadlineExpires(_) => DeadlineDecides(c, r);
      case HandleDestroyed(_) => DropDecides(c, r);
      case WaitCalled(_) => WaitDecides(c, r);
      case WaitResumes(_) => WaitEndDecides(c, r);
      case StartResumes(_) => ResumeDecides(c, r);
      case FrameArrives(f) => FrameDecides(c, f, r);
      case DecoderFails(_) => FailureDecides(c, e, r);
      case ReadingEnds => FailureDecides(c, e, r);
      case ShutdownEnds => FailureDecides(c, e, r);
      case _ => QuietDecides(c, e, r);
    }
  }

  /** When an identifier goes back: a request that holds its identifier before a step holds it afterwards
      exactly when the step is none of those that return it, and then the allocator has it in use. */
  lemma IdentifierIsReturned(c: Client, e: Event, r: nat)
    requires Inv(c) && Enabled(c, e) && r < |c.requests| && TableOk(c.requests, c.pending) && !c.requests[r].released
    ensures c.requests[r].stream in c.ids.inUse
    ensures c.requests[r].stream in Apply(c, e).ids.inUse <==> !Releases(c, e, r)
  {
    hide TableOk, Apply, Enabled, NextPhase, Releases, QueueOk, OffersOk, LifeOk, RequestsOk, Valid;
    CallerIsExact(c, e, r);
    ApplyInv(c, e);
    if Releases(c, e, r) {
      ReleasesItsOwn(c, e, r);
    }
  }

  lemma ReleasesItsOwn(c: Client, e: Event, r: nat)
    requires Inv(c) && Enabled(c, e) && r < |c.requests| && TableOk(c.requests, c.pending) && !c.requests[r].released
    requires Releases(c, e, r)
    ensures c.requests[r].stream !in Apply(c, e).ids.inUse
  {
    hide Inv, TableOk, Apply, Enabled, NextPhase, Settled, Release, Ending;
    CallerIsExact(c, e, r);
    ReleaseTakesOut(c, c.requests[r].stream);
    if e.FrameArrives? {
      FrameReleases(c, e.frame, r);
    } else {
      OwnReleases(c, e, r);
    }
  }

  lemma ReleaseTakesOut(c: Client, s: u64)
    requires Inv(c)
    ensures s !in Release(c.ids, s).inUse
  {
    hide RequestsOk, TableOk, QueueOk, OffersOk, LifeOk, Valid;
    ReleaseValid(c.ids, s);
  }

  lemma OwnReleases(c: Client, e: Event, r: nat)
    requires Inv(c) && Enabled(c, e) && r < |c.requests| && TableOk(c.requests, c.pending) && !c.requests[r].released
    requires Releases(c, e, r) && !e.FrameArrives?
    requires r < |Apply(c, e).requests| && Apply(c, e).requests[r].released
    ensures Apply(c, e).ids == Release(c.ids, c.requests[r].stream)
  {
    hide Inv, TableOk, Apply, Enabled, Settled, Release;
    HandleStepIsLocal(c, e, r);
  }

  lemma FrameReleases(c: Client, f: Frame, r: nat)
    requires Inv(c) && Enabled(c, FrameArrives(f)) && r < |c.requests| && TableOk(c.requests, c.pending)
    requires !c.requests[r].released && Releases(c, FrameArrives(f), r)
    requires r < |Apply(c, FrameArrives(f)).requests| && Apply(c, FrameArrives(f)).requests[r].released
    ensures Apply(c, FrameArrives(f)).ids == Release(c.ids, c.requests[r].stream)
  {
    hide Inv, TableOk, Dispatch, Settled, Release, HasFlag, DecodeErrorStatus;
    OwnerOf(c, f.header.stream, r);
    ToleratedIsLocal(c, f);
  }

  // ----- The request that is started -----

  /** Starting a request on a connection that is not shutting down and has an identifier left: the new
      caller holds a handle at once if there is room for its frame, waits if there will be, and is refused
      with its identifier returned if the queue is closed or can never hold the frame. A request that
      could not be encoded is not registered, and keeps its identifier. */
  lemma StartIsExact(c: Client, body: Option<seq<u8>>)
    requires Inv(c) && Enabled(c, Start(body)) && !ShuttingDown(c.state) && Allocate(c.ids).1.Some?
    ensures var s, c', r := Allocate(c.ids).1.value, StartRequest(c, body), |c.requests|;
            && s !in c.ids.inUse
            && (body.None? ==> c'.requests == c.requests && c'.ids.inUse == c.ids.inUse + {s})
            && (body.Some? ==>
                  var f := RequestFrame(s, body.value);
                  var refused := c.queue.closed || Q.NeverFits(c.queue.limits, f);
                  && |c'.requests| == r + 1 && c'.requests[r].stream == s
                  && c'.requests[r].phase == (if refused then NotStarted else if Q.Room(c.queue, f) then Held else Sending)
                  && c'.requests[r].released == refused
                  && c'.requests[r].op.result == (if refused then Some(ResourceLimitExceeded) else None)
                  && c'.ids.inUse == c.ids.inUse + (if refused then {} else {s}))
  {
    var (ids, allocation) := Allocate(c.ids);
    AllocatedOwnership(c, ids, allocation);
    CoreNow(c);
    hide Inv, Allocate, SendRequest, OwnershipOk, Q.Core, Valid, Q.Room, Q.NeverFits, RequestFrame;
    if body.Some? {
      SendIsExact(c.(ids := ids), allocation.value, body.value, c.ids.inUse);
    }
  }

  lemma CoreNow(c: Client)
    requires Inv(c)
    ensures Q.Core(c.queue)
  {
    hide RequestsOk, TableOk, OwnershipOk, OffersOk, LifeOk, Q.Core;
  }

  lemma SendIsExact(c: Client, s: u64, body: seq<u8>, inUse: set<u64>)
    requires |body| <= DEFAULT_MAX_PAYLOAD && Q.Core(c.queue) && Valid(c.ids)
    requires s !in inUse && c.ids.inUse == inUse + {s}
    ensures var c', r, f := SendRequest(c, s, body), |c.requests|, RequestFrame(s, body);
            var refused := c.queue.closed || Q.NeverFits(c.queue.limits, f);
            && |c'.requests| == r + 1 && c'.requests[r].stream == s
            && c'.requests[r].phase == (if refused then NotStarted else if Q.Room(c.queue, f) then Held else Sending)
            && c'.requests[r].released == refused
            && c'.requests[r].op.result == (if refused then Some(ResourceLimitExceeded) else None)
            && c'.ids.inUse == inUse + (if refused then {} else {s})
  {
    hide Q.Core, Valid, Release, Q.Enqueue, Q.Room, Q.NeverFits, RequestFrame, CloseChannel, Fail;
    Q.EnqueueIsExact(c.queue, |c.requests|, RequestFrame(s, body));
    ReleaseValid(c.ids, s);
    RefusedStart(Request(s, FRESH_OP, Open(1), false, false, Sending, []));
    assert inUse + {s} - {s} == inUse;
  }

  lemma RefusedStart(x: Request)
    requires x.op == FRESH_OP
    ensures var y := CloseChannel(x.(op := Fail(x.op, ResourceLimitExceeded).0));
            && y.stream == x.stream && y.released == x.released && y.op.result == Some(ResourceLimitExceeded)
  {
  }
}
