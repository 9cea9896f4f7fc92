/** What the server's wire can carry: no success response more often than there are completed handler
    runs that sent it. */
module ServerLedger {
  import opened Bytes
  import opened Frames
  import opened Operations
  import M = Messages
  import Q = WriteQueues
  import L = WriteQueueLedger
  import opened Servers
  import opened ServerInvariant
  import opened ServerTheorems

  /** The runs that sent exactly f. */
  ghost function SentBy(runs: seq<HandlerRun>, f: Frame): set<nat> {
    set h: nat | 0 <= h < |runs| && runs[h].sent == [f]
  }

  /** Every success response the write queue has taken on was sent by a run of its own. */
  ghost predicate Ledger(s: Server) {
    forall f: Frame :: !HasFlag(f.header.flags, ERROR) ==> L.Taken(s.queue)[f] <= |SentBy(s.runs, f)|
  }

  // ----- The runs' side -----

  lemma SentStays(a: seq<HandlerRun>, b: seq<HandlerRun>, f: Frame)
    requires AllForward(a, b) && RunsOk(b)
    ensures |SentBy(a, f)| <= |SentBy(b, f)|
  {
    forall h | h in SentBy(a, f)
      ensures h in SentBy(b, f)
    {
      assert Forward(a[h], b[h]) && RunOk(b[h]);
    }
    L.SmallerSet(SentBy(a, f), SentBy(b, f));
  }

  /** One run more has sent f. */
  lemma SentMore(runs: seq<HandlerRun>, h: nat, y: HandlerRun, f: Frame)
    requires h < |runs| && runs[h].sent == [] && y.sent == [f]
    ensures |SentBy(runs[h := y], f)| == |SentBy(runs, f)| + 1
    ensures forall g :: g != f ==> SentBy(runs[h := y], g) == SentBy(runs, g)
  {
    assert SentBy(runs[h := y], f) == SentBy(runs, f) + {h};
    forall g | g != f
      ensures SentBy(runs[h := y], g) == SentBy(runs, g)
    {
      assert runs[h := y][h].sent != [g];
    }
  }

  // ----- The queue's side -----

  /** What a step may add to the queue without a run of its own: error frames. */
  ghost predicate OnlyErrors(q: Q.Queue, q': Q.Queue) {
    forall f: Frame :: !HasFlag(f.header.flags, ERROR) ==> L.Taken(q')[f] <= L.Taken(q)[f]
  }

  lemma SendErrorAdds(s: Server, stream: u64, status: StatusCode)
    ensures OnlyErrors(s.queue, SendError(s, stream, status).queue)
  {
    var e := ErrorFrame(stream, status);
    hide Q.TryEnqueue, L.Taken, ErrorFrame, HasFlag;
    L.TryEnqueueTaken(s.queue, e);
  }

  lemma IdleAdds(s: Server)
    ensures OnlyErrors(s.queue, CloseWhenIdle(s).queue)
  {
    hide Q.CloseQueue, L.Taken, HasFlag;
    L.CloseTaken(s.queue);
  }

  lemma OnlyErrorsAgain(a: Q.Queue, b: Q.Queue, c: Q.Queue)
    requires OnlyErrors(a, b) && OnlyErrors(b, c)
    ensures OnlyErrors(a, c)
  {
    hide L.Taken, HasFlag;
  }

  lemma FinishAdds(s: Server, h: nat, x: HandlerRun)
    requires h < |s.runs| && s.activeHandlers > 0
    ensures OnlyErrors(s.queue, FinishHandler(s, h, x).queue)
  {
    hide CloseWhenIdle, OnlyErrors;
    IdleAdds(s.(runs := s.runs[h := x.(phase := Finished)], operations := s.operations - {x.stream},
                activeHandlers := s.activeHandlers - 1));
  }

  lemma RespondedAdds(s: Server, h: nat, y: HandlerRun, outcome: Q.Outcome)
    requires h < |s.runs| && s.activeHandlers > 0
    ensures OnlyErrors(s.queue, Responded(s, h, y, outcome).queue)
  {
    hide FinishHandler, L.Taken, HasFlag;
    FinishAdds(s, h, y);
  }

  lemma StartsAdds(s: Server, h: nat, failure: Option<StatusCode>)
    requires h < |s.runs| && s.activeHandlers > 0
    ensures OnlyErrors(s.queue, HandlerStarts(s, h, failure).queue)
  {
    hide FinishHandler, SendError, ErrorFrame, L.Taken, HasFlag;
    if failure.Some? {
      var x := s.runs[h];
      var s1 := SendError(s, x.stream, failure.value);
      SendErrorAdds(s, x.stream, failure.value);
      SendErrorKeeps(s, x.stream, failure.value);
      FinishAdds(s1, h, x.(op := Fail(x.op, failure.value).0, sent := x.sent + [ErrorFrame(x.stream, failure.value)]));
    }
  }

  lemma ResumesAdds(s: Server, h: nat)
    requires h < |s.runs| && s.activeHandlers > 0 && Q.CanResume(s.queue, h)
    ensures OnlyErrors(s.queue, HandlerResumes(s, h).queue)
  {
    hide Responded, Q.Resume, Q.CanResume, L.Taken, HasFlag;
    L.ResumeTaken(s.queue, h);
    var (queue, outcome) := Q.Resume(s.queue, h);
    RespondedAdds(s.(queue := queue), h, s.runs[h], outcome);
  }

  lemma DispatchAdds(s: Server, f: Frame)
    requires TableOk(s.runs, s.operations)
    ensures OnlyErrors(s.queue, Dispatch(s, f).queue)
  {
    hide SendError, MarkTerminal, HasFlag, Cancel, OnlyErrors, Accept;
    var t := f.header.stream;
    SameAdds(s.queue);
    if ShuttingDown(s.state) {
      AnswerAdds(s, f, ConnectionClosed);
    } else if f.header.kind != REQUEST || t in s.terminal {
    } else if HasFlag(f.header.flags, CANCEL) {
      if t in s.operations {
        var h := s.operations[t];
        MarkKeeps(s.(runs := s.runs[h := s.runs[h].(op := Cancel(s.runs[h].op).0)]), f);
      }
    } else {
      AcceptAdds(s, f);
    }
  }

  lemma AnswerAdds(s: Server, f: Frame, status: StatusCode)
    ensures OnlyErrors(s.queue, MarkTerminal(SendError(s, f.header.stream, status), f).queue)
  {
    hide SendError, MarkTerminal, OnlyErrors;
    SendErrorAdds(s, f.header.stream, status);
    MarkKeeps(SendError(s, f.header.stream, status), f);
  }

  lemma AcceptAdds(s: Server, f: Frame)
    ensures OnlyErrors(s.queue, Accept(s, f).queue)
  {
    hide SendError, MarkTerminal, OnlyErrors, M.PeekMessageType;
    SameAdds(s.queue);
    AnswerAdds(s, f, DecodeError);
    AnswerAdds(s, f, UnknownMessageType);
  }

  lemma EndAdds(s: Server, lost: bool)
    ensures OnlyErrors(s.queue, EndReading(s, lost).queue) && OnlyErrors(s.queue, EndShutdown(s).queue)
  {
    FailOperationsKeeps(s);
    hide FailOperations, CloseWhenIdle, L.Taken, HasFlag;
    var s1 := if lost then FailOperations(s) else s;
    IdleAdds(s1.(reading := false, state := Transition(s1.state, Closed)));
  }

  // ----- Steps -----

  /** A step that adds only error frames to the queue keeps the ledger. */
  lemma KeepsLedger(s: Server, s': Server)
    requires Ledger(s) && OnlyErrors(s.queue, s'.queue) && AllForward(s.runs, s'.runs) && RunsOk(s'.runs)
    ensures Ledger(s')
  {
    hide L.Taken, HasFlag, RunsOk, AllForward, SentBy;
    forall f: Frame
      ensures |SentBy(s.runs, f)| <= |SentBy(s'.runs, f)|
    {
      SentStays(s.runs, s'.runs, f);
    }
  }

  lemma ReturnsLedger(s: Server, h: nat, body: Option<seq<u8>>)
    requires Ledger(s) && Inv(s) && Enabled(s, HandlerReturned(h, body))
    ensures Ledger(HandlerReturns(s, h, body))
  {
    hide Inv, Ledger, HandlerReturns, Complete;
    RunningRun(s, h);
    if body.None? || !Complete(s.runs[h].op).1 {
      QuietReturn(s, h, body);
    } else {
      LoudReturn(s, h, body.value);
    }
  }

  lemma RunningRun(s: Server, h: nat)
    requires Inv(s) && h < |s.runs| && s.runs[h].phase.Running?
    ensures s.runs[h].sent == [] && h !in s.queue.producers && RunsOk(s.runs) && RunOk(s.runs[h].(phase := Finished))
  {
    assert RunOk(s.runs[h]);
    hide TableOk, CloseOk, LifeOk, ShutdownOk, Q.Inv;
  }

  lemma QuietReturn(s: Server, h: nat, body: Option<seq<u8>>)
    requires Ledger(s) && h < |s.runs| && s.activeHandlers > 0 && RunsOk(s.runs) && RunOk(s.runs[h].(phase := Finished))
    requires body.Some? ==> |body.value| <= DEFAULT_MAX_PAYLOAD && !Complete(s.runs[h].op).1
    requires !s.runs[h].phase.Finished?
    ensures Ledger(HandlerReturns(s, h, body))
  {
    hide RunOk, FinishHandler, Ledger, OnlyErrors, Complete;
    var x := s.runs[h];
    FinishAdds(s, h, x);
    FinishRuns(s, h, x);
    OneForward(s.runs, h, x.(phase := Finished));
    KeepsLedger(s, FinishHandler(s, h, x));
  }

  lemma LoudReturn(s: Server, h: nat, body: seq<u8>)
    requires Ledger(s) && h < |s.runs| && s.activeHandlers > 0 && h !in s.queue.producers && |body| <= DEFAULT_MAX_PAYLOAD
    requires s.runs[h].sent == [] && Complete(s.runs[h].op).1
    ensures Ledger(HandlerReturns(s, h, Some(body)))
  {
    hide Q.Enqueue, L.Taken, HasFlag, Responded, ResponseFrame, SentBy;
    var x, f := s.runs[h], ResponseFrame(s.runs[h].stream, body);
    var y := x.(op := Complete(x.op).0, sent := x.sent + [f]);
    var (queue, outcome) := Q.Enqueue(s.queue, h, f);
    L.EnqueueTaken(s.queue, h, f);
    RespondedAdds(s.(queue := queue), h, y, outcome);
    RespondedRuns(s.(queue := queue), h, y, outcome);
    SentMore(s.runs, h, y.(phase := Responding), f);
    SentMore(s.runs, h, y.(phase := Finished), f);
  }

  lemma StepAdds(s: Server, e: Event)
    requires Inv(s) && Enabled(s, e) && TableOk(s.runs, s.operations) && !e.HandlerReturned?
    ensures OnlyErrors(s.queue, Apply(s, e).queue)
  {
    hide Inv, OnlyErrors, Dispatch, EndReading, EndShutdown, HandlerStarts, HandlerReturns, FinishHandler, HandlerResumes,
      WriteStep, Q.Enabled;
    SameAdds(s.queue);
    match e
    case FrameArrives(f) => DispatchAdds(s, f);
    case ReadingEnds(lost) => EndAdds(s, lost);
    case ShutdownEnds => EndAdds(s, false);
    case HandlerBegins(h, failure) => StartsAdds(s, h, failure);
    case HandlerThrew(h) => FinishAdds(s, h, s.runs[h]);
    case ResponseResumes(h) => ResumesAdds(s, h);
    case WriterStep(step) => WriterAdds(s, step);
    case _ =>
  }

  lemma SameAdds(q: Q.Queue)
    ensures OnlyErrors(q, q)
  {
    hide L.Taken, HasFlag;
  }

  lemma WriterAdds(s: Server, step: Q.Event)
    requires Q.Enabled(s.queue, step) && step.Internal() && !step.ProducerResumes?
    ensures OnlyErrors(s.queue, WriteStep(s, step).queue)
  {
    hide Q.Apply, Q.Enabled, L.Taken, HasFlag;
    L.WriterTaken(s.queue, step);
  }

  lemma ApplyLedger(s: Server, e: Event)
    requires Inv(s) && Enabled(s, e) && Ledger(s) && TableOk(s.runs, s.operations)
    ensures Ledger(Apply(s, e))
  {
    if e.HandlerReturned? {
      ReturnsLedger(s, e.handler, e.body);
    } else {
      StepAdds(s, e);
      ApplyForward(s, e);
      ApplyInv(s, e);
      hide TableOk, QueueOk, CloseOk, LifeOk, ShutdownOk, RunsOk, Apply, Enabled, Ledger, OnlyErrors, AllForward;
      KeepsLedger(s, Apply(s, e));
    }
  }

  lemma {:induction false} RunsLedger(s: Server, es: seq<Event>, s': Server)
    requires Inv(s) && Ledger(s) && Runs(s, es, s')
    ensures Ledger(s')
    decreases es
  {
    hide Inv, Ledger, TableOk, Enabled, Apply;
    if es != [] {
      ApplyInv(s, es[0]);
      ApplyLedger(s, es[0]);
      RunsLedger(Apply(s, es[0]), es[1..], s');
    }
  }

  /** The wire: in every reachable server, no frame other than an error frame has been accepted, and so
      will ever be written, more often than there are completed runs on its stream that sent exactly
      that frame; so each completed run answers at most once on the wire as well. */
  lemma WireCarriesWhatWasSent(s: Server, f: Frame)
    requires Reachable(s) && !HasFlag(f.header.flags, ERROR)
    ensures multiset(s.queue.accepted)[f] <= |SentBy(s.runs, f)|
    ensures forall h :: h in SentBy(s.runs, f) ==>
              s.runs[h].op.state.OpCompleted? && s.runs[h].stream == f.header.stream
  {
    var limits, es :| Runs(Create(limits), es, s);
    assert Ledger(Create(limits)) by {
      hide HasFlag;
    }
    hide Inv, Ledger, Runs, Create, HasFlag;
    CreateInv(limits);
    RunsLedger(Create(limits), es, s);
    LedgerOf(s, f);
    forall h | h in SentBy(s.runs, f)
      ensures s.runs[h].op.state.OpCompleted? && s.runs[h].stream == f.header.stream
    {
      ResponseSafety(s, h);
    }
  }

  lemma LedgerOf(s: Server, f: Frame)
    requires Ledger(s) && !HasFlag(f.header.flags, ERROR)
    ensures multiset(s.queue.accepted)[f] <= |SentBy(s.runs, f)|
  {
    hide HasFlag, L.FramesOf;
  }
}
