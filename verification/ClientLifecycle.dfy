/** How a client connection begins and ends, and which streams it remembers as ended. */
module ClientLifecycle {
  import opened Bytes
  import opened Frames
  import opened StreamIds
  import opened Operations
  import Q = WriteQueues
  import opened Clients
  import opened ClientInvariant
  import opened ClientTheorems

  /** Shutdown of a connection in any state begins to drain it, or finds it closed. */
  lemma ShutdownBeginsToDrain(c: Client)
    requires Inv(c)
    ensures TableOk(c.requests, c.pending) && ShuttingDown(Apply(c, ShutdownBegins).state)
    ensures Apply(c, ShutdownBegins) == BeginShutdown(c)
    ensures BeginShutdown(c) == c.(state := BeginShutdown(c).state)
  {
    hide RequestsOk, TableOk, OwnershipOk, QueueOk, OffersOk;
  }

  /** From the moment shutdown begins, over any run, the connection stays in shutdown, no request is
      registered, no identifier is taken and the table only shrinks. */
  lemma NothingStartsAfterShutdown(c: Client, es: seq<Event>, c': Client)
    requires Inv(c) && Runs(BeginShutdown(c), es, c')
    ensures ShuttingDown(c'.state) && |c'.requests| == |c.requests| && c'.ids.inUse <= c.ids.inUse && Shrinks(c, c')
  {
    hide Inv, Runs, BeginShutdown;
    ShutdownBeginsToDrain(c);
    BeginShutdownInv(c);
    DrainSafety(BeginShutdown(c), es, c');
    NoNewRequests(BeginShutdown(c), es, c');
  }

  lemma {:induction false} NoNewRequests(c: Client, es: seq<Event>, c': Client)
    requires Inv(c) && Runs(c, es, c') && ShuttingDown(c.state)
    ensures |c'.requests| == |c.requests| && c'.ids.inUse <= c.ids.inUse
    decreases es
  {
    hide Inv, TableOk, Enabled, Apply, ShuttingDown, Shrinks;
    if es != [] {
      ApplyInv(c, es[0]);
      DrainingStep(c, es[0]);
      QuietStart(c, es[0]);
      NoNewRequests(Apply(c, es[0]), es[1..], c');
    }
  }

  lemma QuietStart(c: Client, e: Event)
    requires Inv(c) && Enabled(c, e) && ShuttingDown(c.state) && TableOk(c.requests, c.pending)
    ensures |Apply(c, e).requests| == |c.requests| && Apply(c, e).ids.inUse <= c.ids.inUse
  {
    hide Inv, TableOk, Apply, Enabled, Settled, Release;
    match e
    case StartResumes(r) => OwnStep(c, e, r);
    case CancelCalled(r) => OwnStep(c, e, r);
    case DeadlineExpires(r) => OwnStep(c, e, r);
    case HandleDestroyed(r) => OwnStep(c, e, r);
    case WaitCalled(r) => OwnStep(c, e, r);
    case WaitResumes(r) => OwnStep(c, e, r);
    case FrameArrives(f) => FrameStep(c, f);
    case _ => OtherStep(c, e);
  }

  lemma ReleaseOnly(c: Client, s: u64)
    requires Inv(c)
    ensures Release(c.ids, s).inUse == c.ids.inUse - {s}
  {
    hide RequestsOk, TableOk, QueueOk, OffersOk, LifeOk, Valid;
    ReleaseValid(c.ids, s);
  }

  lemma OwnStep(c: Client, e: Event, r: nat)
    requires Inv(c) && Enabled(c, e) && HandleStep(e, r) && TableOk(c.requests, c.pending)
    ensures |Apply(c, e).requests| == |c.requests| && Apply(c, e).ids.inUse <= c.ids.inUse
  {
    hide Inv, TableOk, Apply, Enabled, Settled, Release, HandleStep;
    HandleStepIsLocal(c, e, r);
    ReleaseOnly(c, c.requests[r].stream);
  }

  lemma FrameStep(c: Client, f: Frame)
    requires Inv(c) && Enabled(c, FrameArrives(f)) && TableOk(c.requests, c.pending)
    ensures |Apply(c, FrameArrives(f)).requests| == |c.requests|
    ensures Apply(c, FrameArrives(f)).ids.inUse <= c.ids.inUse
  {
    hide Inv, TableOk, Dispatch, Settled, Release, Tolerated, FailOne;
    if Tolerated(c, f) {
      ToleratedIsPending(c, f);
      ToleratedIsLocal(c, f);
      ReleaseOnly(c, c.requests[c.pending[f.header.stream]].stream);
    } else {
      IntolerableFailsAll(c, f);
    }
  }

  lemma OtherStep(c: Client, e: Event)
    requires Enabled(c, e) && ShuttingDown(c.state) && TableOk(c.requests, c.pending)
    requires e.Start? || e.Run? || e.DecoderFails? || e.ReadingEnds? || e.ShutdownBegins? || e.ShutdownEnds? || e.WriterStep?
    ensures |Apply(c, e).requests| == |c.requests| && Apply(c, e).ids == c.ids
  {
    hide TableOk, Dispatch, ResumeStart, CancelPending, TimeoutPending, DropHandle, BeginWait, EndWait, SendRequest, Allocate,
      Q.Apply, Q.Enabled, Q.CloseQueue, FailOne, Q.CanResume;
  }

  /** The end of reading closes a running connection and its write queue, and the end of shutdown closes
      it together with its transport; either leaves nothing pending. */
  lemma EndsCloseTheConnection(c: Client)
    requires Inv(c)
    ensures c.started ==> EndReading(c).state.Closed?
    ensures EndReading(c).queue.closed && !EndReading(c).reading && EndReading(c).pending == map[]
    ensures c.state.Draining? || c.state.Closed? ==>
              EndShutdown(c).state.Closed? && !EndShutdown(c).transportOpen && EndShutdown(c).pending == map[]
    ensures StartRunning(c).started && StartRunning(c).reading && (c.state.Created? ==> StartRunning(c).state.Active?)
    ensures !c.state.Created? ==> StartRunning(c).state == c.state
  {
    hide RequestsOk, TableOk, OwnershipOk, QueueOk, OffersOk;
  }

  /** A failed write closes the queue and the transport; no other step of the writer touches the
      transport. */
  lemma FailedWriteCloses(c: Client, step: Q.Event)
    requires Q.Enabled(c.queue, step)
    ensures step.WriteFails? ==> !WriteStep(c, step).transportOpen && WriteStep(c, step).queue.closed
    ensures !step.WriteFails? ==> WriteStep(c, step).transportOpen == c.transportOpen
  {
  }

  /** A stream is remembered as ended exactly after a tolerated frame that is marked as its last. */
  lemma RememberingIsExact(c: Client, f: Frame)
    requires Inv(c) && TableOk(c.requests, c.pending)
    ensures Dispatch(c, f).terminal
            == c.terminal + (if Tolerated(c, f) && HasFlag(f.header.flags, END_OF_STREAM) then {f.header.stream} else {})
  {
    hide Inv, TableOk, HasFlag, DecodeErrorStatus, DispatchTo, FailOne, RequestOk;
    if Tolerated(c, f) {
      ActiveAt(c, f.header.stream);
      DispatchToRemembers(c, c.pending[f.header.stream], f);
    } else {
      IntolerableFailsAll(c, f);
    }
  }

  lemma ActiveAt(c: Client, s: u64)
    requires Inv(c) && s in c.pending
    ensures c.pending[s] < |c.requests| && c.requests[c.pending[s]].op.state.OpActive?
  {
    ActiveInTable(c, s);
  }

  lemma DispatchToRemembers(c: Client, r: nat, f: Frame)
    requires r < |c.requests| && c.requests[r].op.state.OpActive?
    requires HasFlag(f.header.flags, ERROR) && !HasFlag(f.header.flags, CANCEL) ==> DecodeErrorStatus(f).Some?
    ensures DispatchTo(c, r, f).terminal
            == c.terminal + (if HasFlag(f.header.flags, END_OF_STREAM) then {f.header.stream} else {})
  {
    hide HasFlag, DecodeErrorStatus, CancelPending, Cleanup, Deliver, CloseChannel, FailConnection, Complete;
    TerminalApart(c, r, f);
  }

  lemma TerminalApart(c: Client, r: nat, f: Frame)
    requires r < |c.requests| && c.requests[r].op.state.OpActive?
    ensures CancelPending(c, r).0.terminal == c.terminal && Complete(c.requests[r].op).1
    ensures forall x, release :: Cleanup(c, r, x, release).terminal == c.terminal
  {
    hide Q.TryEnqueue, CancelFrame, Release, CloseChannel;
  }
}
