/** What a client connection guarantees over whole runs, under every interleaving of responses, peer
    errors, cancellations, deadlines, handle releases, connection failure and shutdown. */
module ClientTheorems {
  import opened Bytes
  import opened Frames
  import opened FrameDecoding
  import opened Channels
  import opened StreamIds
  import opened Operations
  import Q = WriteQueues
  import opened WirePath
  import opened Clients
  import opened ClientInvariant

  /** es is a schedule that takes c0 to c. */
  ghost predicate Runs(c0: Client, es: seq<Event>, c: Client)
    decreases es
  {
    if es == [] then c == c0
    else
      && TableOk(c0.requests, c0.pending) && Enabled(c0, es[0])
      && Runs(Apply(c0, es[0]), es[1..], c)
  }

  lemma {:induction false} RunsInv(c0: Client, es: seq<Event>, c: Client)
    requires Inv(c0) && Runs(c0, es, c)
    ensures Inv(c)
    decreases es
  {
    hide Inv, TableOk, Enabled, Apply;
    if es != [] {
      ApplyInv(c0, es[0]);
      RunsInv(Apply(c0, es[0]), es[1..], c);
    }
  }

  ghost predicate Reachable(c: Client) {
    exists limits, maximum, es :: Runs(Create(limits, maximum), es, c)
  }

  lemma ReachableInv(c: Client)
    requires Reachable(c)
    ensures Inv(c)
  {
    hide Inv, Runs, Create;
    var limits, maximum, es :| Runs(Create(limits, maximum), es, c);
    CreateInv(limits, maximum);
    RunsInv(Create(limits, maximum), es, c);
  }

  // ----- Outcomes -----

  /** An active request has an open, empty channel; a completed one was sent exactly one frame, which
      carries its own stream; a failed or cancelled one has a closed channel and was sent nothing. */
  lemma OutcomeCoherence(c: Client, r: nat)
    requires Reachable(c) && r < |c.requests|
    ensures var x := c.requests[r];
            && (x.op.Terminal() <==> x.op.result.Some?)
            && (x.op.state.OpActive? ==> !x.channel.closed && x.channel.buffer == [] && x.delivered == [])
            && (x.op.state.OpCompleted? ==> |x.delivered| == 1 && x.delivered[0].header.stream == x.stream)
            && (x.op.state.OpFailed? || x.op.state.OpCancelled? ==> x.channel.closed && x.delivered == [])
  {
    hide Reachable, TableOk, OwnershipOk, QueueOk, OffersOk, LifeOk;
    ReachableInv(c);
    assert RequestOk(c.requests[r]);
  }

  /** async_wait never falls back to an answer without a result: it returns the response the request
      was completed with, or the status it ended with. */
  lemma WaitAlwaysHasAResult(c: Client, r: nat)
    requires Reachable(c) && r < |c.requests|
    ensures var x := c.requests[r];
            && (x.phase.Resuming? ==>
                  match WaitReturns(x)
                  case Response(f) => x.op.state.OpCompleted? && x.delivered == [f]
                  case Failure(status) => x.op.result == Some(status) && !status.Ok?
                  case NoResult => false)
            && (x.phase.Returned? ==> !x.phase.result.NoResult?)
            && (x.phase.Awaiting? ==> x.op.state.OpActive?)
  {
    hide Reachable, TableOk, OwnershipOk, QueueOk, OffersOk, LifeOk;
    ReachableInv(c);
    assert RequestOk(c.requests[r]);
  }

  /** Once closed, a connection has no request still active and no caller still suspended in
      async_wait. */
  lemma ClosedLeavesNoWaiter(c: Client, r: nat)
    requires Reachable(c) && c.state.Closed? && r < |c.requests|
    ensures c.requests[r].op.Terminal() && !c.requests[r].phase.Awaiting?
  {
    ReachableInv(c);
    assert RequestOk(c.requests[r]);
    hide Reachable, OwnershipOk, QueueOk, OffersOk;
  }

  // ----- Each step is local, or ends everything -----

  /** A request whose outcome is decided: nothing about the outcome, the removal or the release is
      ever undone. */
  ghost predicate Settled(x: Request, y: Request) {
    && y.stream == x.stream
    && (x.removed ==> y.removed && y.op == x.op && y.delivered == x.delivered)
    && (x.released ==> y.released)
  }

  ghost predicate AllSettled(a: seq<Request>, b: seq<Request>) {
    |a| <= |b| && forall r :: 0 <= r < |a| ==> Settled(a[r], b[r])
  }

  lemma FailPendingSettles(c: Client, status: StatusCode)
    requires Inv(c) && !status.Ok?
    ensures AllSettled(c.requests, FailPending(c, status).requests)
  {
    FailPendingRequests(c, status);
    hide RequestsOk, TableOk, OwnershipOk, QueueOk, OffersOk, FailPending;
  }

  /** The steps a handle, a timer or a suspended caller takes on its own request. */
  predicate HandleStep(e: Event, r: nat) {
    e == CancelCalled(r) || e == DeadlineExpires(r) || e == HandleDestroyed(r)
    || e == WaitCalled(r) || e == WaitResumes(r) || e == StartResumes(r)
  }

  /** What one request's own step may change elsewhere: nothing. */
  ghost predicate LocalTo(c: Client, c': Client, r: nat)
    requires r < |c.requests|
  {
    && |c'.requests| == |c.requests|
    && (forall t :: 0 <= t < |c.requests| && t != r ==> c'.requests[t] == c.requests[t])
    && Settled(c.requests[r], c'.requests[r])
    && c'.pending == (if c.requests[r].removed || !c'.requests[r].removed then c.pending
                      else c.pending - {c.requests[r].stream})
    && c'.ids == (if c.requests[r].released || !c'.requests[r].released then c.ids
                  else Release(c.ids, c.requests[r].stream))
    && c'.terminal == c.terminal && c'.leaked == c.leaked && c'.state == c.state
    && c'.transportOpen == c.transportOpen && c'.reading == c.reading
  }

  lemma CleanupIsLocal(c: Client, r: nat, x: Request, release: bool)
    requires TableOk(c.requests, c.pending) && r < |c.requests|
    requires x.stream == c.requests[r].stream
    requires x.removed == c.requests[r].removed && x.released == c.requests[r].released
    requires c.requests[r].removed ==> x.op == c.requests[r].op && x.delivered == c.requests[r].delivered
    ensures LocalTo(c, Cleanup(c, r, x, release), r)
  {
    hide Release;
  }

  /** The write queue and the offers are no part of what is local. */
  lemma QueueIsElsewhere(c: Client, q: Client, c': Client, r: nat)
    requires r < |c.requests| && q == c.(queue := q.queue, offers := q.offers)
    requires LocalTo(q, c', r)
    ensures LocalTo(c, c', r)
  {
    hide Release;
  }

  lemma NothingIsLocal(c: Client, r: nat)
    requires r < |c.requests|
    ensures LocalTo(c, c, r)
  {
  }

  /** Moving a caller on is local, also after another local change. */
  lemma PhaseIsLocal(c: Client, c': Client, r: nat, y: Request)
    requires r < |c.requests| && LocalTo(c, c', r)
    requires var x := c'.requests[r];
             && y.stream == x.stream && y.removed == x.removed && y.released == x.released
             && y.op == x.op && y.delivered == x.delivered
    ensures LocalTo(c, c'.(requests := c'.requests[r := y]), r)
  {
    hide Release;
  }

  lemma CancelIsLocal(c: Client, r: nat)
    requires TableOk(c.requests, c.pending) && r < |c.requests| && RequestOk(c.requests[r])
    ensures LocalTo(c, CancelPending(c, r).0, r)
  {
    hide LocalTo, Cleanup, Q.TryEnqueue, CancelFrame, TableOk;
    var x, q := c.requests[r], SendCancellation(c, r);
    if Cancel(x.op).1 {
      CleanupIsLocal(q, r, CloseChannel(x.(op := Cancel(x.op).0)), false);
      QueueIsElsewhere(c, q, CancelPending(c, r).0, r);
    } else {
      NothingIsLocal(c, r);
    }
  }

  lemma TimeoutIsLocal(c: Client, r: nat)
    requires TableOk(c.requests, c.pending) && r < |c.requests| && RequestOk(c.requests[r])
    ensures LocalTo(c, TimeoutPending(c, r), r)
  {
    hide LocalTo, Cleanup, Q.TryEnqueue, CancelFrame, TableOk;
    var x, q := c.requests[r], SendCancellation(c, r);
    if Timeout(x.op).1 {
      CleanupIsLocal(q, r, CloseChannel(x.(op := Timeout(x.op).0)), false);
      QueueIsElsewhere(c, q, TimeoutPending(c, r), r);
    } else {
      NothingIsLocal(c, r);
    }
  }

  lemma DiscardIsLocal(c: Client, r: nat)
    requires TableOk(c.requests, c.pending) && r < |c.requests| && RequestOk(c.requests[r])
    ensures LocalTo(c, DiscardPending(c, r), r)
  {
    hide LocalTo, Cleanup, Q.TryEnqueue, CancelFrame, TableOk;
    var x, q := c.requests[r], SendCancellation(c, r);
    if x.op.Terminal() {
      CleanupIsLocal(c, r, x, true);
    } else {
      CleanupIsLocal(q, r, CloseChannel(x.(op := Cancel(x.op).0)), true);
      QueueIsElsewhere(c, q, DiscardPending(c, r), r);
    }
  }

  lemma FinishIsLocal(c: Client, r: nat, outcome: Q.Outcome)
    requires TableOk(c.requests, c.pending) && r < |c.requests| && RequestOk(c.requests[r])
    ensures LocalTo(c, FinishStart(c, r, outcome), r)
  {
    hide LocalTo, Cleanup, TableOk;
    var x := c.requests[r];
    NothingIsLocal(c, r);
    match outcome
    case Blocked =>
    case Accepted => PhaseIsLocal(c, c, r, x.(phase := Held));
    case Rejected =>
      CleanupIsLocal(c, r, CloseChannel(x.(op := Fail(x.op, ResourceLimitExceeded).0)).(phase := NotStarted), true);
  }

  /** The steps of handles, timers and suspended callers are local to their own request. */
  lemma HandleStepIsLocal(c: Client, e: Event, r: nat)
    requires Inv(c) && Enabled(c, e) && HandleStep(e, r)
    ensures r < |c.requests| && LocalTo(c, Apply(c, e), r)
  {
    hide OwnershipOk, QueueOk, OffersOk, LifeOk, TableOk, RequestOk, LocalTo, ResumeStart, BeginWait, EndWait,
      CancelPending, TimeoutPending, DiscardPending, DropHandle, StartRequest, Dispatch, FailConnection, EndReading,
      EndShutdown, BeginShutdown, Q.Apply;
    match e
    case CancelCalled(_) => CancelIsLocal(c, r);
    case DeadlineExpires(_) => TimeoutIsLocal(c, r);
    case HandleDestroyed(_) =>
      DiscardIsLocal(c, r);
      DroppedIsLocal(c, r);
    case WaitCalled(_) => BeginWaitIsLocal(c, r);
    case WaitResumes(_) => EndWaitIsLocal(c, r);
    case StartResumes(_) => ResumeIsLocal(c, r);
  }

  lemma BeginWaitIsLocal(c: Client, r: nat)
    requires r < |c.requests|
    ensures LocalTo(c, BeginWait(c, r), r)
  {
    NothingIsLocal(c, r);
    hide LocalTo;
    PhaseIsLocal(c, c, r, BeginWait(c, r).requests[r]);
  }

  lemma EndWaitIsLocal(c: Client, r: nat)
    requires TableOk(c.requests, c.pending) && r < |c.requests| && c.requests[r].phase.Resuming?
    ensures LocalTo(c, EndWait(c, r), r)
  {
    hide LocalTo, TableOk, Cleanup;
    CleanupIsLocal(c, r, c.requests[r].(phase := Returned(WaitReturns(c.requests[r]))), true);
  }

  lemma ResumeIsLocal(c: Client, r: nat)
    requires TableOk(c.requests, c.pending) && r < |c.requests| && RequestOk(c.requests[r])
    requires Q.CanResume(c.queue, r)
    ensures LocalTo(c, ResumeStart(c, r), r)
  {
    hide LocalTo, TableOk, RequestOk, Q.Resume, FinishStart;
    var (queue, outcome) := Q.Resume(c.queue, r);
    var q := c.(queue := queue);
    FinishIsLocal(q, r, outcome);
    QueueIsElsewhere(c, q, FinishStart(q, r, outcome), r);
  }

  lemma DroppedIsLocal(c: Client, r: nat)
    requires r < |c.requests| && LocalTo(c, DiscardPending(c, r), r)
    ensures LocalTo(c, DropHandle(c, r), r)
  {
    var c' := DiscardPending(c, r);
    assert |c'.requests| == |c.requests|;
    hide DiscardPending;
    PhaseIsLocal(c, c', r, c'.requests[r].(phase := Dropped));
  }

  /** Stale handles are harmless: however late an old handle or timer acts, it changes no other request,
      takes no other request out of the table and returns no identifier but its own, and that at most
      once. Once its own identifier has been returned, it touches neither the table nor the allocator. */
  lemma StaleHandleIsHarmless(c: Client, e: Event, r: nat, t: nat)
    requires Reachable(c) && Enabled(c, e) && HandleStep(e, r)
    requires TableOk(c.requests, c.pending)
    requires t < |c.requests| && t != r
    ensures var c' := Apply(c, e);
            && r < |c.requests| && |c'.requests| == |c.requests|
            && c'.requests[t] == c.requests[t]
            && (!c.requests[t].removed ==>
                  && c.requests[t].stream in c'.pending && c'.pending[c.requests[t].stream] == t)
            && (!c.requests[t].released ==> c.requests[t].stream in c'.ids.inUse)
            && (c.requests[r].released ==> c'.pending == c.pending && c'.ids == c.ids && c'.requests[r].released)
  {
    ReachableInv(c);
    HandleStepIsLocal(c, e, r);
    ApplyInv(c, e);
    assert RequestOk(c.requests[r]);
    hide Reachable, Apply, Enabled, RequestOk, QueueOk, OffersOk, Valid, Release;
  }

  // ----- Decisions are final -----

  lemma StartSettles(c: Client, body: Option<seq<u8>>)
    requires body.Some? ==> |body.value| <= DEFAULT_MAX_PAYLOAD
    ensures AllSettled(c.requests, StartRequest(c, body).requests)
  {
    hide Allocate, SendRequest;
    if !ShuttingDown(c.state) && Allocate(c.ids).1.Some? && body.Some? {
      SendSettles(c.(ids := Allocate(c.ids).0), Allocate(c.ids).1.value, body.value);
    }
  }

  lemma SendSettles(c: Client, s: u64, body: seq<u8>)
    requires |body| <= DEFAULT_MAX_PAYLOAD
    ensures c.requests <= SendRequest(c, s, body).requests
  {
    hide Q.Enqueue, RequestFrame, CloseChannel, Release, Fail;
  }

  lemma LocalSettles(c: Client, c': Client, r: nat)
    requires r < |c.requests| && LocalTo(c, c', r)
    ensures AllSettled(c.requests, c'.requests)
  {
    hide Release;
  }

  /** A frame that dispatch tolerates: a response for a request in the table, on a stream that has not
      had its terminal frame, whose error payload, if it is an error frame, can be decoded. */
  predicate Tolerated(c: Client, f: Frame) {
    && f.header.kind == RESPONSE
    && f.header.stream in c.pending && f.header.stream !in c.terminal
    && (HasFlag(f.header.flags, ERROR) && !HasFlag(f.header.flags, CANCEL) ==> DecodeErrorStatus(f).Some?)
  }

  /** Apart from the record of terminal streams, a tolerated frame is local to the request it names. */
  lemma ToleratedIsLocal(c: Client, f: Frame)
    requires Inv(c) && Tolerated(c, f)
    ensures var r := c.pending[f.header.stream];
            r < |c.requests| && LocalTo(c, Dispatch(c, f).(terminal := c.terminal), r)
    ensures Dispatch(c, f).requests[c.pending[f.header.stream]].op.Terminal()
  {
    hide OwnershipOk, QueueOk, OffersOk, LifeOk, RequestOk, LocalTo, HasFlag, DecodeErrorStatus, Cleanup, CancelPending,
      CloseChannel, Deliver, MarkTerminal, TableOk;
    var s := f.header.stream;
    ActiveInTable(c, s);
    var r := c.pending[s];
    var x := c.requests[r];
    if HasFlag(f.header.flags, CANCEL) {
      CancelIsLocal(c, r);
      CancelEnds(c, r);
      MarkIsErased(c, CancelPending(c, r).0, r, f);
    } else if HasFlag(f.header.flags, ERROR) {
      ErrorStatusNeverOk(f);
      PeerErrorIsLocal(c, r, DecodeErrorStatus(f).value);
      MarkIsErased(c, Cleanup(c, r, CloseChannel(x.(op := Fail(x.op, DecodeErrorStatus(f).value).0)), true), r, f);
    } else {
      ResponseIsLocal(c, r, f);
      MarkIsErased(c, Cleanup(c, r, Deliver(x.(op := Complete(x.op).0), f), true), r, f);
    }
  }

  lemma MarkIsErased(c: Client, d: Client, r: nat, f: Frame)
    requires r < |c.requests| && LocalTo(c, d, r)
    ensures LocalTo(c, MarkTerminal(d, f).(terminal := c.terminal), r)
    ensures MarkTerminal(d, f).requests == d.requests
  {
    assert MarkTerminal(d, f).(terminal := c.terminal) == d.(terminal := c.terminal) == d;
    hide LocalTo, HasFlag;
  }

  lemma CancelEnds(c: Client, r: nat)
    requires r < |c.requests| && c.requests[r].op.state.OpActive?
    ensures |CancelPending(c, r).0.requests| == |c.requests| && CancelPending(c, r).0.requests[r].op.Terminal()
  {
    hide Q.TryEnqueue, CancelFrame;
  }

  lemma PeerErrorIsLocal(c: Client, r: nat, status: StatusCode)
    requires TableOk(c.requests, c.pending) && r < |c.requests|
    requires RequestOk(c.requests[r]) && c.requests[r].op.state.OpActive? && !status.Ok?
    ensures var c' := Cleanup(c, r, CloseChannel(c.requests[r].(op := Fail(c.requests[r].op, status).0)), true);
            LocalTo(c, c', r) && |c'.requests| == |c.requests| && c'.requests[r].op.Terminal()
  {
    hide LocalTo, TableOk, Release;
    CleanupIsLocal(c, r, CloseChannel(c.requests[r].(op := Fail(c.requests[r].op, status).0)), true);
  }

  lemma ResponseIsLocal(c: Client, r: nat, f: Frame)
    requires TableOk(c.requests, c.pending) && r < |c.requests|
    requires RequestOk(c.requests[r]) && c.requests[r].op.state.OpActive?
    ensures Complete(c.requests[r].op).1
    ensures var c' := Cleanup(c, r, Deliver(c.requests[r].(op := Complete(c.requests[r].op).0), f), true);
            LocalTo(c, c', r) && |c'.requests| == |c.requests| && c'.requests[r].op.Terminal()
  {
    hide LocalTo, TableOk, Release;
    CleanupIsLocal(c, r, Deliver(c.requests[r].(op := Complete(c.requests[r].op).0), f), true);
  }

  /** Only a response that names nothing pending is an unknown stream. */
  function IntolerableStatus(c: Client, f: Frame): StatusCode {
    if f.header.kind == RESPONSE && f.header.stream !in c.pending then UnknownStream else MalformedFrame
  }

  /** An intolerable frame fails every pending request and closes the transport. */
  lemma IntolerableFailsAll(c: Client, f: Frame)
    requires Inv(c) && !Tolerated(c, f)
    ensures Dispatch(c, f) == FailConnection(c, IntolerableStatus(c, f))
  {
    if f.header.stream in c.pending {
      ActiveInTable(c, f.header.stream);
    }
    hide Inv, HasFlag, DecodeErrorStatus, FailConnection;
  }

  lemma DispatchSettles(c: Client, f: Frame)
    requires Inv(c)
    ensures AllSettled(c.requests, Dispatch(c, f).requests)
  {
    hide RequestsOk, OwnershipOk, QueueOk, OffersOk, LifeOk, Dispatch, FailPending, Tolerated, Settled, LocalTo;
    if Tolerated(c, f) {
      assert f.header.stream in c.pending by {
        ToleratedIsPending(c, f);
      }
      ToleratedIsLocal(c, f);
      LocalSettles(c, Dispatch(c, f).(terminal := c.terminal), c.pending[f.header.stream]);
    } else {
      IntolerableFailsAll(c, f);
      FailPendingSettles(c, MalformedFrame);
      FailPendingSettles(c, UnknownStream);
    }
  }

  lemma ToleratedIsPending(c: Client, f: Frame)
    requires Tolerated(c, f)
    ensures f.header.stream in c.pending
  {
  }

  lemma ApplySettles(c: Client, e: Event)
    requires Inv(c) && Enabled(c, e)
    ensures AllSettled(c.requests, Apply(c, e).requests)
  {
    hide RequestsOk, OwnershipOk, QueueOk, OffersOk, StartRequest, ResumeStart, Dispatch, FailPending,
      CancelPending, TimeoutPending, DropHandle, BeginWait, EndWait, Q.Apply, LifeOk;
    match e
    case Start(body) => StartSettles(c, body);
    case FrameArrives(f) => DispatchSettles(c, f);
    case DecoderFails(error) => FailPendingSettles(c, StatusForValidation(error));
    case ReadingEnds => FailPendingSettles(c, ConnectionClosed);
    case ShutdownEnds => FailPendingSettles(c, ConnectionClosed);
    case StartResumes(r) => HandleSettles(c, e, r);
    case CancelCalled(r) => HandleSettles(c, e, r);
    case DeadlineExpires(r) => HandleSettles(c, e, r);
    case HandleDestroyed(r) => HandleSettles(c, e, r);
    case WaitCalled(r) => HandleSettles(c, e, r);
    case WaitResumes(r) => HandleSettles(c, e, r);
    case _ =>
  }

  lemma HandleSettles(c: Client, e: Event, r: nat)
    requires Inv(c) && Enabled(c, e) && HandleStep(e, r)
    ensures AllSettled(c.requests, Apply(c, e).requests)
  {
    hide RequestsOk, OwnershipOk, QueueOk, OffersOk, LifeOk, Apply, LocalTo, Settled;
    HandleStepIsLocal(c, e, r);
    LocalSettles(c, Apply(c, e), r);
  }

  /** Exactly one terminal result: whatever happens afterwards, a request that has ended keeps its
      result and its delivered frames, and a released identifier is never taken back by it. */
  lemma {:induction false} OutcomeIsFinal(c: Client, es: seq<Event>, c': Client, r: nat)
    requires Inv(c) && Runs(c, es, c') && r < |c.requests|
    ensures r < |c'.requests| && Settled(c.requests[r], c'.requests[r])
    decreases es
  {
    hide Inv, TableOk, Enabled, Apply;
    if es != [] {
      var c1 := Apply(c, es[0]);
      ApplyInv(c, es[0]);
      ApplySettles(c, es[0]);
      assert Settled(c.requests[r], c1.requests[r]);
      OutcomeIsFinal(c1, es[1..], c', r);
    }
  }

  // ----- Stream ownership -----

  /** Unreleased requests hold pairwise distinct identifiers of the client's parity; the identifiers in
      use are exactly theirs and those leaked by requests that could not be encoded; every table entry
      is an active request filed under its own stream. */
  lemma StreamOwnership(c: Client)
    requires Reachable(c)
    ensures forall r, t :: 0 <= r < t < |c.requests| && !c.requests[r].released && !c.requests[t].released ==>
              c.requests[r].stream != c.requests[t].stream
    ensures forall s: u64 :: s in c.ids.inUse <==> s in c.leaked || Owned(c.requests, s)
    ensures forall s: u64 :: s in c.ids.inUse ==> Own(ClientSide, s) && s <= c.ids.maximum
    ensures forall s :: s in c.pending ==>
              && c.pending[s] < |c.requests|
              && c.requests[c.pending[s]].stream == s
              && c.requests[c.pending[s]].op.state.OpActive? && !c.requests[c.pending[s]].removed
  {
    ReachableInv(c);
    hide Reachable, QueueOk, OffersOk, LifeOk, RequestOk;
    forall s | s in c.pending
      ensures c.pending[s] < |c.requests| && c.requests[c.pending[s]].op.state.OpActive?
    {
      ActiveInTable(c, s);
    }
    forall s: u64 | s in c.ids.inUse
      ensures Own(ClientSide, s) && s <= c.ids.maximum
    {
      assert s in c.ids.inUse + c.ids.available;
    }
  }

  /** A new request never collides: the identifier it is given is the least that no request holds and
      none leaked. Registering it changes no other request and no other entry, and files the new one
      under its own stream unless the write queue refused its frame at once. */
  lemma NewRequestNeverCollides(c: Client, body: seq<u8>)
    requires Reachable(c) && |body| <= DEFAULT_MAX_PAYLOAD && !ShuttingDown(c.state)
    requires Allocate(c.ids).1.Some?
    ensures var s, r, c' := Allocate(c.ids).1.value, |c.requests|, StartRequest(c, Some(body));
            && s !in c.pending && s !in c.leaked && !Owned(c.requests, s)
            && (forall w: u64 :: Own(ClientSide, w) && w < s ==> w in c.leaked || Owned(c.requests, w))
            && |c'.requests| == r + 1 && c'.requests[..r] == c.requests && c'.requests[r].stream == s
            && c'.pending == if c'.requests[r].op.state.OpActive? then c.pending[s := r] else c.pending
  {
    ReachableInv(c);
    hide Reachable, Allocate, QueueOk, OffersOk, LifeOk, RequestOk, Valid, SendRequest;
    AllocateIsLeastFree(c.ids);
    var (ids, allocation) := Allocate(c.ids);
    FreshIdIsFree(c, allocation.value);
    SendAddsOne(c.(ids := ids), allocation.value, body);
  }

  lemma SendAddsOne(c: Client, s: u64, body: seq<u8>)
    requires |body| <= DEFAULT_MAX_PAYLOAD && s !in c.pending
    ensures var r, c' := |c.requests|, SendRequest(c, s, body);
            && |c'.requests| == r + 1 && c'.requests[..r] == c.requests && c'.requests[r].stream == s
            && c'.pending == if c'.requests[r].op.state.OpActive? then c.pending[s := r] else c.pending
  {
    hide Q.Enqueue, RequestFrame, Release, CloseChannel, Fail;
    assert c.pending[s := |c.requests|] - {s} == c.pending;
    RefusedRequest(Request(s, FRESH_OP, Open(1), false, false, Sending, []));
  }

  lemma RefusedRequest(x: Request)
    requires x.op == FRESH_OP
    ensures var y := CloseChannel(x.(op := Fail(x.op, ResourceLimitExceeded).0));
            && y.stream == x.stream && y.removed == x.removed && y.released == x.released
            && y.op.state.OpFailed?
  {
  }

  // ----- Draining -----

  /** The table of c' is part of the table of c. */
  ghost predicate Shrinks(c: Client, c': Client) {
    forall s :: s in c'.pending ==> s in c.pending && c'.pending[s] == c.pending[s]
  }

  lemma DrainingStep(c: Client, e: Event)
    requires Inv(c) && Enabled(c, e) && ShuttingDown(c.state)
    ensures ShuttingDown(Apply(c, e).state) && Shrinks(c, Apply(c, e))
    ensures c.state.Closed? ==> Apply(c, e).state.Closed?
  {
    hide RequestsOk, OwnershipOk, QueueOk, OffersOk, ResumeStart, Dispatch, CancelPending, TimeoutPending, DropHandle,
      BeginWait, EndWait, Q.Apply, LocalTo;
    match e
    case FrameArrives(f) => DrainingFrame(c, f);
    case StartResumes(r) => DrainingHandle(c, e, r);
    case CancelCalled(r) => DrainingHandle(c, e, r);
    case DeadlineExpires(r) => DrainingHandle(c, e, r);
    case HandleDestroyed(r) => DrainingHandle(c, e, r);
    case WaitCalled(r) => DrainingHandle(c, e, r);
    case WaitResumes(r) => DrainingHandle(c, e, r);
    case _ =>
  }

  lemma DrainingHandle(c: Client, e: Event, r: nat)
    requires Inv(c) && Enabled(c, e) && HandleStep(e, r)
    ensures Apply(c, e).state == c.state && Shrinks(c, Apply(c, e))
  {
    hide RequestsOk, OwnershipOk, QueueOk, OffersOk, LifeOk, Apply, Enabled;
    HandleStepIsLocal(c, e, r);
  }

  lemma DrainingFrame(c: Client, f: Frame)
    requires Inv(c)
    ensures Dispatch(c, f).state == c.state && Shrinks(c, Dispatch(c, f))
  {
    hide RequestsOk, OwnershipOk, QueueOk, OffersOk, LifeOk, Dispatch, Tolerated;
    if Tolerated(c, f) {
      assert f.header.stream in c.pending by {
        ToleratedIsPending(c, f);
      }
      ToleratedIsLocal(c, f);
    } else {
      IntolerableFailsAll(c, f);
    }
  }

  /** Drain safety over whole runs: once draining, the table never grows; once closed, the connection
      stays closed and its table stays empty. */
  lemma {:induction false} DrainSafety(c: Client, es: seq<Event>, c': Client)
    requires Inv(c) && Runs(c, es, c') && ShuttingDown(c.state)
    ensures ShuttingDown(c'.state) && Shrinks(c, c')
    ensures c.state.Closed? ==> c'.state.Closed? && c'.pending == map[]
    decreases es
  {
    if es == [] {
    } else {
      hide RequestsOk, TableOk, OwnershipOk, QueueOk, OffersOk, Enabled, Apply;
      ApplyInv(c, es[0]);
      DrainingStep(c, es[0]);
      DrainSafety(Apply(c, es[0]), es[1..], c');
    }
  }

  // ----- Frames the client sends -----

  /** The client offers exactly one request frame for each request it registers, and exactly one cancel
      frame for each request ended by cancellation, handle release or deadline and none for any other;
      every frame it offers is a legal request on that request's own stream. */
  lemma CancellationFrames(c: Client, r: nat)
    requires Reachable(c) && r < |c.requests|
    ensures OfferCount(c.offers, r, false) == 1
    ensures OfferCount(c.offers, r, true)
            == if c.requests[r].op.state.OpCancelled? || c.requests[r].op.timedOut then 1 else 0
    ensures forall i :: 0 <= i < |c.offers| && c.offers[i].request == r ==>
              LegalFor(c.offers[i].frame, REQUEST) && c.offers[i].frame.header.stream == c.requests[r].stream
  {
    ReachableInv(c);
    hide Reachable, RequestsOk, TableOk, OwnershipOk, QueueOk, LifeOk, OfferCount, LegalFor;
  }

  /** Whatever a client writes, and however its peer reads it, the peer's decoder reports no error and
      every frame it emits is a request: the server never takes its wrong-frame-type branch. */
  lemma ServerSeesOnlyRequests(c: Client, chunks: seq<seq<u8>>) returns (k: nat)
    requires Reachable(c) && Flatten(chunks) <= c.queue.wire
    ensures k <= |c.queue.accepted|
    ensures var (frames, st) := FeedAll(DEFAULT_MAX_PAYLOAD, INITIAL, chunks);
            && st.error == NoError && frames == c.queue.accepted[..k]
            && (forall i :: 0 <= i < |frames| ==> LegalFor(frames[i], REQUEST))
  {
    hide Reachable, Inv, QueueOk, FeedAll, Flatten, LegalFor, IsValid, Q.Inv;
    ReachableInv(c);
    QueueOf(c);
    AcceptedAreLegal(c.requests, c.queue);
    k := PeerSeesAPrefix(c.queue, DEFAULT_MAX_PAYLOAD, chunks);
  }

  lemma QueueOf(c: Client)
    requires Inv(c)
    ensures QueueOk(c.requests, c.queue)
  {
    hide RequestsOk, TableOk, OwnershipOk, QueueOk, OffersOk, LifeOk;
  }

  lemma AcceptedAreLegal(requests: seq<Request>, queue: Q.Queue)
    requires QueueOk(requests, queue)
    ensures Q.Inv(queue) && AllValid(queue.accepted, DEFAULT_MAX_PAYLOAD)
    ensures forall i :: 0 <= i < |queue.accepted| ==> LegalFor(queue.accepted[i], REQUEST)
  {
    hide Q.Inv, IsValid;
    assert forall i :: 0 <= i < |queue.accepted| ==> LegalTo(REQUEST)(queue.accepted[i]);
  }

  // ----- What one bad frame costs -----

  /** A frame leaves the connection open, and every other request untouched, exactly when dispatch
      tolerates it; any other frame closes the transport and fails every pending request. */
  lemma FrameIsolation(c: Client, f: Frame)
    requires Inv(c) && c.transportOpen
    ensures Dispatch(c, f).transportOpen <==> Tolerated(c, f)
    ensures Tolerated(c, f) ==>
              forall t :: 0 <= t < |c.requests| && t != c.pending[f.header.stream] ==>
                |Dispatch(c, f).requests| == |c.requests| && Dispatch(c, f).requests[t] == c.requests[t]
    ensures !Tolerated(c, f) ==>
              |Dispatch(c, f).requests| == |c.requests| && Dispatch(c, f).pending == map[]
    ensures !Tolerated(c, f) ==>
              forall t :: 0 <= t < |c.requests| && !c.requests[t].removed ==>
                Dispatch(c, f).requests[t].op.state.OpFailed?
  {
    hide OwnershipOk, QueueOk, OffersOk, LifeOk, Dispatch, Tolerated, FailOne;
    if Tolerated(c, f) {
      ToleratedIsPending(c, f);
      ToleratedIsLocal(c, f);
      hide RequestsOk, TableOk;
    } else {
      IntolerableFailsAll(c, f);
      FailPendingRequests(c, MalformedFrame);
      FailPendingRequests(c, UnknownStream);
      forall t | 0 <= t < |c.requests| && !c.requests[t].removed
        ensures FailOne(c.requests[t], MalformedFrame).op.state.OpFailed?
        ensures FailOne(c.requests[t], UnknownStream).op.state.OpFailed?
      {
        assert RequestOk(c.requests[t]);
        FailOneFails(c.requests[t], MalformedFrame);
        FailOneFails(c.requests[t], UnknownStream);
      }
      hide RequestsOk, TableOk;
    }
  }

  lemma FailOneFails(x: Request, status: StatusCode)
    requires x.op.state.OpActive? && !status.Ok?
    ensures FailOne(x, status).op.state.OpFailed?
  {
  }

  /** An error frame for a pending request on a fresh stream costs only that request exactly when its
      status is not a transport status; the connection_closed status a draining server sends is one,
      so it takes down the whole connection. */
  lemma ErrorFrameIsolation(c: Client, s: u64, status: StatusCode)
    requires Inv(c) && c.transportOpen && s in c.pending && s !in c.terminal && !status.Ok?
    ensures Dispatch(c, ErrorFrame(s, status)).transportOpen <==> !status.IsTransport()
    ensures !Dispatch(c, ErrorFrame(s, ConnectionClosed)).transportOpen
  {
    hide Inv, Dispatch, ErrorFrame, Tolerated;
    ErrorFrameTolerated(c, s, status);
    ErrorFrameTolerated(c, s, ConnectionClosed);
    FrameIsolation(c, ErrorFrame(s, status));
    FrameIsolation(c, ErrorFrame(s, ConnectionClosed));
  }

  lemma ErrorFrameTolerated(c: Client, s: u64, status: StatusCode)
    requires s in c.pending && s !in c.terminal && !status.Ok?
    ensures Tolerated(c, ErrorFrame(s, status)) <==> !status.IsTransport()
  {
    ErrorStatusRoundTrip(s, status);
    var f := ErrorFrame(s, status);
    assert f.header.kind == RESPONSE && f.header.stream == s;
    hide ErrorFrame, DecodeErrorStatus, HasFlag;
  }

  /** A response completes the active request it names exactly when that stream has not carried a
      terminal frame before. Identifiers are recycled but terminal streams are never forgotten. */
  lemma ResponseCompletesIff(c: Client, f: Frame)
    requires Inv(c) && c.transportOpen
    requires f.header.kind == RESPONSE && f.header.stream in c.pending
    requires !HasFlag(f.header.flags, CANCEL) && !HasFlag(f.header.flags, ERROR)
    ensures var r := c.pending[f.header.stream];
            && r < |c.requests| && |Dispatch(c, f).requests| == |c.requests|
            && (Dispatch(c, f).requests[r].op.state.OpCompleted? <==> f.header.stream !in c.terminal)
            && (f.header.stream !in c.terminal ==> Dispatch(c, f).requests[r].delivered == [f])
  {
    var s := f.header.stream;
    ActiveInTable(c, s);
    hide Inv, RequestOk, HasFlag, Dispatch;
    if s in c.terminal {
      FrameIsolation(c, f);
    } else {
      ResponseCompletes(c, f);
    }
  }

  lemma ResponseCompletes(c: Client, f: Frame)
    requires Inv(c) && Tolerated(c, f)
    requires !HasFlag(f.header.flags, CANCEL) && !HasFlag(f.header.flags, ERROR)
    ensures var r := c.pending[f.header.stream];
            && r < |c.requests| && |Dispatch(c, f).requests| == |c.requests|
            && Dispatch(c, f).requests[r].op.state.OpCompleted? && Dispatch(c, f).requests[r].delivered == [f]
  {
    hide OwnershipOk, QueueOk, OffersOk, LifeOk, RequestOk, TableOk, DispatchTo, HasFlag;
    ActiveInTable(c, f.header.stream);
    DeliversTo(c, c.pending[f.header.stream], f);
  }

  lemma DeliversTo(c: Client, r: nat, f: Frame)
    requires r < |c.requests| && c.requests[r].op.state.OpActive? && RequestOk(c.requests[r])
    requires f.header.stream == c.requests[r].stream
    requires !HasFlag(f.header.flags, CANCEL) && !HasFlag(f.header.flags, ERROR)
    ensures |DispatchTo(c, r, f).requests| == |c.requests|
    ensures DispatchTo(c, r, f).requests[r].op.state.OpCompleted? && DispatchTo(c, r, f).requests[r].delivered == [f]
  {
    DeliveredIsOk(c.requests[r], f);
    hide RequestOk, HasFlag, Release, CancelPending, FailConnection, DecodeErrorStatus, CloseChannel;
  }
}
