/** What a server connection guarantees over whole runs. */
module ServerTheorems {
  import opened Bytes
  import opened Frames
  import opened FrameDecoding
  import opened Operations
  import Q = WriteQueues
  import M = Messages
  import opened WirePath
  import opened Servers
  import opened ServerInvariant

  /** es is a schedule that takes s0 to s. */
  ghost predicate Runs(s0: Server, es: seq<Event>, s: Server)
    decreases es
  {
    if es == [] then s == s0
    else
      && TableOk(s0.runs, s0.operations) && Enabled(s0, es[0])
      && Runs(Apply(s0, es[0]), es[1..], s)
  }

  lemma {:induction false} RunsInv(s0: Server, es: seq<Event>, s: Server)
    requires Inv(s0) && Runs(s0, es, s)
    ensures Inv(s)
    decreases es
  {
    hide Inv, TableOk, Enabled, Apply;
    if es != [] {
      ApplyInv(s0, es[0]);
      RunsInv(Apply(s0, es[0]), es[1..], s);
    }
  }

  ghost predicate Reachable(s: Server) {
    exists limits, es :: Runs(Create(limits), es, s)
  }

  lemma ReachableInv(s: Server)
    requires Reachable(s)
    ensures Inv(s)
  {
    hide Inv, Runs, Create;
    var limits, es :| Runs(Create(limits), es, s);
    CreateInv(limits);
    RunsInv(Create(limits), es, s);
  }

  // ----- Accounting -----

  ghost function LiveRuns(runs: seq<HandlerRun>): set<nat> {
    set h | 0 <= h < |runs| && !runs[h].phase.Finished?
  }

  lemma {:induction false} InjectiveValues(m: map<u64, nat>)
    requires forall a, b :: a in m && b in m && m[a] == m[b] ==> a == b
    ensures |m.Values| == |m|
    decreases |m|
  {
    if m != map[] {
      var k :| k in m;
      var rest := m - {k};
      assert m == rest[k := m[k]];
      assert |m| == |rest| + 1;
      InjectiveValues(rest);
      assert m.Values == rest.Values + {m[k]};
      assert m[k] !in rest.Values;
    } else {
      assert m.Values == {};
    }
  }

  lemma TableIsLive(runs: seq<HandlerRun>, operations: map<u64, nat>)
    requires TableOk(runs, operations)
    ensures operations.Values == LiveRuns(runs) && |operations| == |LiveRuns(runs)|
  {
    forall h | h in LiveRuns(runs)
      ensures h in operations.Values
    {
      assert operations[runs[h].stream] == h;
    }
    assert operations.Values == LiveRuns(runs);
    InjectiveValues(operations);
  }

  /** In every reachable state the handler count is the size of the operation table and the number of
      handler runs that have not finished, so it never underflows; each of those runs is filed under
      its own stream. */
  lemma HandlerAccounting(s: Server)
    requires Reachable(s)
    ensures s.activeHandlers == |s.operations| == |LiveRuns(s.runs)|
    ensures forall h :: h in LiveRuns(s.runs) ==>
              s.runs[h].stream in s.operations && s.operations[s.runs[h].stream] == h && s.activeHandlers > 0
  {
    hide Reachable, RunsOk, QueueOk, ShutdownOk, CloseOk;
    ReachableInv(s);
    TableIsLive(s.runs, s.operations);
  }

  // ----- The write queue's end -----

  /** The queue is closed exactly when its writer has failed, or reading has ended and the last handler
      has finished; so it does end once nothing can be sent any more, and not before. */
  lemma QueueClosesExactlyWhenIdle(s: Server)
    requires Reachable(s)
    ensures s.queue.closed <==> s.queue.run.Failed? || (!s.reading && s.operations == map[])
  {
    ReachableInv(s);
    hide Reachable, RunsOk, QueueOk, TableOk, ShutdownOk;
  }

  /** Idle-close never refuses a live handler: unless the writer has failed, a running handler's
      response is refused only for exceeding the queue's own limits, and one already suspended in the
      queue is never turned away. */
  lemma IdleCloseNeverRefuses(s: Server, h: nat, f: Frame)
    requires Reachable(s) && h < |s.runs| && !s.queue.run.Failed?
    ensures !s.runs[h].phase.Finished? ==> !s.queue.closed
    ensures s.runs[h].phase.Running? ==>
              (Q.Enqueue(s.queue, h, f).1.Rejected? <==>
               Q.FrameBytes(f) > s.queue.limits.maxBytes || s.queue.limits.maxFrames == 0)
    ensures s.runs[h].phase.Responding? && Q.CanResume(s.queue, h) ==> !Q.Resume(s.queue, h).1.Rejected?
  {
    hide Reachable, RunsOk, Q.Inv, Carries, ShutdownOk, TableOk, Q.Enqueue, Q.Resume;
    ReachableInv(s);
    if !s.runs[h].phase.Finished? {
      LiveCount(s, h);
    }
    if s.runs[h].phase.Running? {
      Q.EnqueueInv(s.queue, h, f);
      TooLargeIsRejected(s.queue, h, f);
    }
    if s.runs[h].phase.Responding? && Q.CanResume(s.queue, h) {
      Q.ResumeInv(s.queue, h);
    }
  }

  lemma TooLargeIsRejected(q: Q.Queue, h: nat, f: Frame)
    ensures Q.FrameBytes(f) > q.limits.maxBytes || q.limits.maxFrames == 0 ==> Q.Enqueue(q, h, f).1.Rejected?
  {
  }

  // ----- Responses -----

  /** Each handler run hands the queue at most one frame, legal and on its own stream, and it is a
      success response exactly when that run's own operation was completed. */
  lemma ResponseSafety(s: Server, h: nat)
    requires Reachable(s) && h < |s.runs|
    ensures var x := s.runs[h];
            && |x.sent| <= 1
            && (|x.sent| == 1 ==> LegalFor(x.sent[0], RESPONSE) && x.sent[0].header.stream == x.stream)
            && (x.op.state.OpCompleted? <==> |x.sent| == 1 && !HasFlag(x.sent[0].header.flags, ERROR))
  {
    hide Reachable, TableOk, QueueOk, ShutdownOk, LifeOk, CloseOk, LegalFor, HasFlag;
    ReachableInv(s);
    assert RunOk(s.runs[h]);
  }

  // ----- Steps only move runs forward -----

  /** What any step may do to a run: a finished run is fixed, an ended operation is fixed, and only a
      running handler's own step may complete an operation. */
  ghost predicate Forward(x: HandlerRun, y: HandlerRun) {
    && y.request == x.request
    && (x.phase.Finished? ==> y == x)
    && (x.op.Terminal() ==> y.op == x.op)
    && x.sent <= y.sent
  }

  ghost predicate AllForward(a: seq<HandlerRun>, b: seq<HandlerRun>) {
    |a| <= |b| && forall h :: 0 <= h < |a| ==> Forward(a[h], b[h])
  }

  /** A change to one run only. */
  lemma OneForward(runs: seq<HandlerRun>, h: nat, y: HandlerRun)
    requires h < |runs| && Forward(runs[h], y)
    ensures AllForward(runs, runs[h := y])
  {
  }

  lemma FailForward(s: Server)
    requires RunsOk(s.runs) && TableOk(s.runs, s.operations)
    ensures AllForward(s.runs, FailOperations(s).runs)
  {
    hide RunOk, FailOp;
    FailOperationsRuns(s);
    hide FailOperations;
    forall h | 0 <= h < |s.runs|
      ensures Forward(s.runs[h], FailOperations(s).runs[h])
    {
      FailedOpOk(s.runs[h]);
    }
  }

  lemma FinishRuns(s: Server, h: nat, x: HandlerRun)
    requires h < |s.runs| && s.activeHandlers > 0
    ensures FinishHandler(s, h, x).runs == s.runs[h := x.(phase := Finished)]
    ensures FinishHandler(s, h, x).operations == s.operations - {x.stream}
    ensures FinishHandler(s, h, x).activeHandlers == s.activeHandlers - 1
    ensures FinishHandler(s, h, x).reading == s.reading && FinishHandler(s, h, x).shutdownDone == s.shutdownDone
  {
    hide Q.CloseQueue;
  }

  lemma RespondedRuns(s: Server, h: nat, y: HandlerRun, outcome: Q.Outcome)
    requires h < |s.runs| && s.activeHandlers > 0
    ensures Responded(s, h, y, outcome).runs == s.runs[h := y.(phase := if outcome.Blocked? then Responding else Finished)]
  {
    hide FinishHandler;
    FinishRuns(s, h, y);
  }

  /** s' is s with run h moved forward and nothing started. */
  ghost predicate Advances(s: Server, s': Server, h: nat)
    requires h < |s.runs|
  {
    && (exists y :: Forward(s.runs[h], y) && s'.runs == s.runs[h := y])
    && s'.activeHandlers <= s.activeHandlers && s'.reading == s.reading && s'.shutdownDone == s.shutdownDone
  }

  lemma FinishAdvances(s: Server, s1: Server, h: nat, x: HandlerRun)
    requires h < |s.runs| && s1.activeHandlers > 0 && s1 == s.(queue := s1.queue)
    requires Forward(s.runs[h], x.(phase := Finished))
    ensures Advances(s, FinishHandler(s1, h, x), h)
  {
    hide FinishHandler, Forward;
    FinishRuns(s1, h, x);
  }

  lemma BeginsAdvances(s: Server, h: nat, failure: Option<StatusCode>)
    requires Enabled(s, HandlerBegins(h, failure))
    ensures Advances(s, HandlerStarts(s, h, failure), h)
  {
    hide FinishHandler, SendError, ErrorFrame;
    var x := s.runs[h];
    match failure
    case None => assert Forward(x, x.(phase := Running));
    case Some(status) =>
      SendErrorKeeps(s, x.stream, status);
      FinishAdvances(s, SendError(s, x.stream, status), h,
                     x.(op := Fail(x.op, status).0, sent := x.sent + [ErrorFrame(x.stream, status)]));
  }

  lemma RespondedAdvances(s: Server, s1: Server, h: nat, y: HandlerRun, outcome: Q.Outcome)
    requires h < |s.runs| && s1.activeHandlers > 0 && s1 == s.(queue := s1.queue)
    requires Forward(s.runs[h], y.(phase := Finished)) && Forward(s.runs[h], y.(phase := Responding))
    ensures Advances(s, Responded(s1, h, y, outcome), h)
  {
    hide FinishHandler, Forward;
    if !outcome.Blocked? {
      FinishAdvances(s, s1, h, y);
    }
  }

  lemma ReturnsAdvances(s: Server, h: nat, body: Option<seq<u8>>)
    requires Enabled(s, HandlerReturned(h, body))
    ensures Advances(s, HandlerReturns(s, h, body), h)
  {
    hide FinishHandler, Responded, ResponseFrame, Q.Enqueue;
    var x := s.runs[h];
    if body.None? || !Complete(x.op).1 {
      FinishAdvances(s, s, h, x);
    } else {
      var f := ResponseFrame(x.stream, body.value);
      var (queue, outcome) := Q.Enqueue(s.queue, h, f);
      RespondedAdvances(s, s.(queue := queue), h, x.(op := Complete(x.op).0, sent := x.sent + [f]), outcome);
    }
  }

  lemma ResumesAdvances(s: Server, h: nat)
    requires h < |s.runs| && s.activeHandlers > 0 && Q.CanResume(s.queue, h) && s.runs[h].phase.Responding?
    ensures Advances(s, HandlerResumes(s, h), h)
  {
    hide Responded, Q.Resume, Q.CanResume;
    var (queue, outcome) := Q.Resume(s.queue, h);
    var x := s.runs[h];
    assert Forward(x, x.(phase := Finished)) && Forward(x, x.(phase := Responding));
    hide Forward;
    RespondedAdvances(s, s.(queue := queue), h, x, outcome);
  }

  lemma HandlerForward(s: Server, e: Event)
    requires Inv(s) && Enabled(s, e)
    requires e.HandlerBegins? || e.HandlerReturned? || e.HandlerThrew? || e.ResponseResumes?
    ensures AllForward(s.runs, Apply(s, e).runs) && |Apply(s, e).runs| == |s.runs|
    ensures Apply(s, e).activeHandlers <= s.activeHandlers
    ensures Apply(s, e).reading == s.reading && Apply(s, e).shutdownDone == s.shutdownDone
  {
    hide RunsOk, QueueOk, CloseOk, LifeOk, ShutdownOk, TableOk, FinishHandler, HandlerStarts, HandlerReturns,
      HandlerResumes, Dispatch, EndReading, EndShutdown, Q.Apply, AllForward;
    var h := e.handler;
    match e {
      case HandlerBegins(_, failure) => BeginsAdvances(s, h, failure);
      case HandlerReturned(_, body) => ReturnsAdvances(s, h, body);
      case HandlerThrew(_) => FinishAdvances(s, s, h, s.runs[h]);
      case ResponseResumes(_) =>
        RespondingProducer(s, h);
        ResumesAdvances(s, h);
    }
    var y :| Forward(s.runs[h], y) && Apply(s, e).runs == s.runs[h := y];
    OneForward(s.runs, h, y);
  }

  lemma RespondingProducer(s: Server, h: nat)
    requires Inv(s) && h < |s.runs| && Q.CanResume(s.queue, h)
    ensures s.runs[h].phase.Responding?
  {
    hide Q.Inv, Carries, RunsOk;
  }

  function CancelRun(x: HandlerRun): HandlerRun {
    x.(op := Cancel(x.op).0)
  }

  /** What dispatch can do to the runs: nothing, cancel the one it names, or start a new one. */
  lemma DispatchShape(s: Server, f: Frame)
    requires TableOk(s.runs, s.operations)
    ensures var s', t := Dispatch(s, f), f.header.stream;
            && s'.shutdownDone == s.shutdownDone && s'.reading == s.reading && s'.started == s.started
            && s'.handlers == s.handlers
            && (|| (s'.runs == s.runs && s'.operations == s.operations && s'.activeHandlers == s.activeHandlers)
                || (!ShuttingDown(s.state) && t in s.operations
                    && s'.runs == s.runs[s.operations[t] := CancelRun(s.runs[s.operations[t]])])
                || (!ShuttingDown(s.state) && t !in s.operations
                    && s'.runs == s.runs + [HandlerRun(f, FRESH_OP, Spawned, [])]))
  {
    hide SendError, MarkTerminal, HasFlag, Accept, Cancel;
    var t := f.header.stream;
    if ShuttingDown(s.state) {
      SendErrorKeeps(s, t, ConnectionClosed);
      MarkKeeps(SendError(s, t, ConnectionClosed), f);
    } else if f.header.kind != REQUEST || t in s.terminal {
    } else if HasFlag(f.header.flags, CANCEL) {
      if t in s.operations {
        MarkKeeps(s.(runs := s.runs[s.operations[t] := CancelRun(s.runs[s.operations[t]])]), f);
      }
    } else {
      AcceptShape(s, f);
    }
  }

  lemma AcceptShape(s: Server, f: Frame)
    ensures var s', t := Accept(s, f), f.header.stream;
            && s'.shutdownDone == s.shutdownDone && s'.reading == s.reading && s'.started == s.started
            && s'.handlers == s.handlers
            && (|| (s'.runs == s.runs && s'.operations == s.operations && s'.activeHandlers == s.activeHandlers)
                || (t !in s.operations && s'.runs == s.runs + [HandlerRun(f, FRESH_OP, Spawned, [])]))
  {
    hide SendError, MarkTerminal, M.PeekMessageType;
    var t := f.header.stream;
    SendErrorKeeps(s, t, DecodeError);
    MarkKeeps(SendError(s, t, DecodeError), f);
    SendErrorKeeps(s, t, UnknownMessageType);
    MarkKeeps(SendError(s, t, UnknownMessageType), f);
  }

  lemma MarkKeeps(s: Server, f: Frame)
    ensures MarkTerminal(s, f) == s.(terminal := MarkTerminal(s, f).terminal)
  {
    hide HasFlag;
  }

  lemma DispatchCancels(s: Server, f: Frame)
    requires TableOk(s.runs, s.operations)
    requires HasFlag(f.header.flags, CANCEL) && Tolerated(s, f) && !ShuttingDown(s.state)
    ensures var h := s.operations[f.header.stream];
            h < |s.runs| && Dispatch(s, f).runs == s.runs[h := CancelRun(s.runs[h])]
  {
    hide HasFlag, M.PeekMessageType, Cancel, MarkTerminal;
    var h := s.operations[f.header.stream];
    MarkKeeps(s.(runs := s.runs[h := CancelRun(s.runs[h])]), f);
  }

  lemma DispatchStaysOpen(s: Server, f: Frame)
    requires TableOk(s.runs, s.operations) && s.transportOpen
    ensures Dispatch(s, f).transportOpen <==> Tolerated(s, f)
  {
    hide SendError, MarkTerminal, HasFlag, Accept, Cancel, M.PeekMessageType;
    var t := f.header.stream;
    if ShuttingDown(s.state) {
      SendErrorKeeps(s, t, ConnectionClosed);
      MarkKeeps(SendError(s, t, ConnectionClosed), f);
    } else if f.header.kind != REQUEST || t in s.terminal {
    } else if HasFlag(f.header.flags, CANCEL) {
      if t in s.operations {
        MarkKeeps(s.(runs := s.runs[s.operations[t] := CancelRun(s.runs[s.operations[t]])]), f);
      }
    } else {
      AcceptStaysOpen(s, f);
    }
  }

  lemma AcceptStaysOpen(s: Server, f: Frame)
    requires s.transportOpen
    ensures Accept(s, f).transportOpen
            <==> (M.PeekMessageType(f.payload).Some? && M.PeekMessageType(f.payload).value in s.handlers
                  ==> f.header.stream !in s.operations)
  {
    hide SendError, MarkTerminal, M.PeekMessageType;
    var t := f.header.stream;
    SendErrorKeeps(s, t, DecodeError);
    MarkKeeps(SendError(s, t, DecodeError), f);
    SendErrorKeeps(s, t, UnknownMessageType);
    MarkKeeps(SendError(s, t, UnknownMessageType), f);
  }

  lemma DispatchForward(s: Server, f: Frame)
    requires Inv(s)
    ensures AllForward(s.runs, Dispatch(s, f).runs)
    ensures ShuttingDown(s.state) ==>
              && Dispatch(s, f).runs == s.runs && Dispatch(s, f).operations == s.operations
              && Dispatch(s, f).activeHandlers == s.activeHandlers
    ensures Dispatch(s, f).shutdownDone == s.shutdownDone && Dispatch(s, f).reading == s.reading
  {
    hide RunOk, QueueOk, Dispatch, Forward, CancelRun, Tolerated, HasFlag;
    var t := f.header.stream;
    DispatchShape(s, f);
    SameForward(s.runs);
    if t in s.operations {
      CancelForward(s.runs[s.operations[t]]);
      OneForward(s.runs, s.operations[t], CancelRun(s.runs[s.operations[t]]));
    }
  }

  lemma CancelForward(x: HandlerRun)
    requires RunOk(x) && !x.phase.Finished?
    ensures Forward(x, CancelRun(x)) && CancelRun(x).op.Terminal() && CancelRun(x).stream == x.stream
  {
    CancelledRunOk(x);
    hide RunOk, Cancel;
  }

  lemma ApplyForward(s: Server, e: Event)
    requires Inv(s) && Enabled(s, e)
    ensures AllForward(s.runs, Apply(s, e).runs)
    ensures !s.reading || s.shutdownDone ==> |Apply(s, e).runs| == |s.runs|
    ensures !s.reading ==> !Apply(s, e).reading && Apply(s, e).activeHandlers <= s.activeHandlers
    ensures s.shutdownDone ==> Apply(s, e).shutdownDone
  {
    hide RunsOk, QueueOk, CloseOk, ShutdownOk, Dispatch, FailOperations, HandlerStarts, HandlerReturns, FinishHandler,
      HandlerResumes, Q.Apply, Q.CloseQueue, Forward;
    SameForward(s.runs);
    match e
    case FrameArrives(f) => DispatchForward(s, f);
    case ReadingEnds(lost) => FailForward(s); FailOperationsKeeps(s); FailOperationsLength(s);
    case ShutdownEnds => FailForward(s); FailOperationsKeeps(s); FailOperationsLength(s);
    case HandlerBegins(_, _) => HandlerForward(s, e);
    case HandlerReturned(_, _) => HandlerForward(s, e);
    case HandlerThrew(_) => HandlerForward(s, e);
    case ResponseResumes(_) => HandlerForward(s, e);
    case _ =>
  }

  lemma SameForward(runs: seq<HandlerRun>)
    ensures AllForward(runs, runs)
  {
  }

  lemma FailOperationsLength(s: Server)
    ensures |FailOperations(s).runs| == |s.runs|
  {
  }

  /** Operations end once, finished runs stay finished, and what a run has sent stays sent. */
  lemma {:induction false} HandlersOnlyMoveForward(s: Server, es: seq<Event>, s': Server, h: nat)
    requires Inv(s) && Runs(s, es, s') && h < |s.runs|
    ensures h < |s'.runs| && Forward(s.runs[h], s'.runs[h])
    decreases es
  {
    hide Inv, TableOk, Enabled, Apply;
    if es != [] {
      var s1 := Apply(s, es[0]);
      ApplyInv(s, es[0]);
      ApplyForward(s, es[0]);
      assert Forward(s.runs[h], s1.runs[h]);
      HandlersOnlyMoveForward(s1, es[1..], s', h);
    }
  }

  /** Once reading has ended no handler ever starts and the handler count never rises. */
  lemma {:induction false} NoHandlerAfterReading(s: Server, es: seq<Event>, s': Server)
    requires Inv(s) && Runs(s, es, s') && !s.reading
    ensures !s'.reading && |s'.runs| == |s.runs| && s'.activeHandlers <= s.activeHandlers
    decreases es
  {
    hide Inv, TableOk, Enabled, Apply;
    if es != [] {
      ApplyInv(s, es[0]);
      ApplyForward(s, es[0]);
      NoHandlerAfterReading(Apply(s, es[0]), es[1..], s');
    }
  }

  /** After shutdown has returned, every operation still in the table has ended, none is added, and no
      operation's outcome ever changes: in particular none is ever completed. */
  lemma {:induction false} AfterShutdown(s: Server, es: seq<Event>, s': Server)
    requires Inv(s) && Runs(s, es, s') && s.shutdownDone
    ensures s'.shutdownDone && |s'.runs| == |s.runs|
    ensures forall t :: t in s'.operations ==>
              s'.operations[t] < |s'.runs| && s'.runs[s'.operations[t]].op.Terminal()
    ensures forall h :: 0 <= h < |s.runs| ==> s'.runs[h].op == s.runs[h].op
    decreases es
  {
    if es == [] {
      hide RunsOk, QueueOk, CloseOk;
    } else {
      hide RunsOk, QueueOk, CloseOk, LifeOk, TableOk, Enabled, Apply;
      var s1 := Apply(s, es[0]);
      ApplyInv(s, es[0]);
      ApplyForward(s, es[0]);
      AfterShutdown(s1, es[1..], s');
      forall h | 0 <= h < |s.runs|
        ensures s1.runs[h].op == s.runs[h].op
      {
        assert Forward(s.runs[h], s1.runs[h]);
      }
    }
  }

  // ----- Frames -----

  /** The steps that may change run h while shutting down: its own handler's, and the two that fail
      every operation. */
  predicate Concerns(e: Event, h: nat) {
    match e
    case HandlerBegins(t, _) => t == h
    case HandlerReturned(t, _) => t == h
    case HandlerThrew(t) => t == h
    case ResponseResumes(t) => t == h
    case ReadingEnds(lost) => lost
    case ShutdownEnds => true
    case _ => false
  }

  lemma DrainingFrame(s: Server, f: Frame)
    requires TableOk(s.runs, s.operations) && ShuttingDown(s.state)
    ensures Dispatch(s, f).runs == s.runs && Dispatch(s, f).state == s.state
    ensures Dispatch(s, f).activeHandlers == s.activeHandlers
  {
    hide Q.TryEnqueue, ErrorFrame, HasFlag, TableOk;
  }

  lemma DrainingHandler(s: Server, e: Event)
    requires Inv(s) && Enabled(s, e)
    requires e.HandlerBegins? || e.HandlerReturned? || e.HandlerThrew? || e.ResponseResumes?
    ensures Apply(s, e).state == s.state && Apply(s, e).activeHandlers <= s.activeHandlers
    ensures |Apply(s, e).runs| == |s.runs|
    ensures forall h :: 0 <= h < |s.runs| && h != e.handler ==> Apply(s, e).runs[h] == s.runs[h]
  {
    hide RunsOk, QueueOk, CloseOk, LifeOk, ShutdownOk, TableOk, FinishHandler, HandlerStarts, HandlerReturns,
      HandlerResumes, Dispatch, EndReading, EndShutdown, Q.Apply;
    var h := e.handler;
    KeepsState(s, h);
    match e {
      case HandlerBegins(_, failure) => BeginsAdvances(s, h, failure);
      case HandlerReturned(_, body) => ReturnsAdvances(s, h, body);
      case HandlerThrew(_) => FinishAdvances(s, s, h, s.runs[h]);
      case ResponseResumes(_) =>
        RespondingProducer(s, h);
        ResumesAdvances(s, h);
    }
  }

  lemma KeepsState(s: Server, h: nat)
    requires h < |s.runs| && s.activeHandlers > 0
    ensures forall failure :: HandlerStarts(s, h, failure).state == s.state
    ensures forall body: Option<seq<u8>> :: (body.Some? ==> |body.value| <= DEFAULT_MAX_PAYLOAD) ==>
              HandlerReturns(s, h, body).state == s.state
    ensures FinishHandler(s, h, s.runs[h]).state == s.state
    ensures Q.CanResume(s.queue, h) ==> HandlerResumes(s, h).state == s.state
  {
    hide Q.TryEnqueue, Q.Enqueue, Q.Resume, Q.CloseQueue, Q.CanResume, ErrorFrame, ResponseFrame, Complete, Fail;
  }

  lemma DrainingStep(s: Server, e: Event)
    requires Inv(s) && Enabled(s, e) && ShuttingDown(s.state) && TableOk(s.runs, s.operations)
    ensures var s' := Apply(s, e);
            && ShuttingDown(s'.state) && |s'.runs| == |s.runs| && s'.activeHandlers <= s.activeHandlers
            && (forall h :: 0 <= h < |s.runs| && !Concerns(e, h) ==> s'.runs[h] == s.runs[h])
  {
    hide RunsOk, QueueOk, CloseOk, LifeOk, ShutdownOk, TableOk, FinishHandler, HandlerStarts, HandlerReturns,
      HandlerResumes, Dispatch, FailOperations, CloseWhenIdle, WriteStep, Inv;
    if e.HandlerBegins? || e.HandlerReturned? || e.HandlerThrew? || e.ResponseResumes? {
      DrainingHandler(s, e);
    } else if e.FrameArrives? {
      DrainingFrame(s, e.frame);
    } else {
      DrainingOther(s, e);
    }
  }

  lemma DrainingOther(s: Server, e: Event)
    requires Enabled(s, e) && ShuttingDown(s.state) && TableOk(s.runs, s.operations)
    requires !e.HandlerBegins? && !e.HandlerReturned? && !e.HandlerThrew? && !e.ResponseResumes? && !e.FrameArrives?
    ensures var s' := Apply(s, e);
            && ShuttingDown(s'.state) && |s'.runs| == |s.runs| && s'.activeHandlers <= s.activeHandlers
            && (e.ShutdownEnds? || e == ReadingEnds(true) || s'.runs == s.runs)
  {
    FailOperationsKeeps(s);
    FailOperationsLength(s);
    hide TableOk, FailOperations, Dispatch, Q.CloseQueue, Q.Apply, Q.Enabled, HandlerStarts, HandlerReturns, HandlerResumes,
      FinishHandler;
  }

  /** Draining only answers, over whole runs: once shutting down the server stays so, no handler ever
      starts, and a run is changed only by its own handler or by the end of the connection; so no frame
      a peer sends, a cancellation included, has any effect on an operation. */
  lemma {:induction false} DrainingOnlyAnswers(s: Server, es: seq<Event>, s': Server, h: nat)
    requires Inv(s) && Runs(s, es, s') && ShuttingDown(s.state) && h < |s.runs|
    ensures ShuttingDown(s'.state) && |s'.runs| == |s.runs| && s'.activeHandlers <= s.activeHandlers
    ensures (forall i :: 0 <= i < |es| ==> !Concerns(es[i], h)) ==> s'.runs[h] == s.runs[h]
    decreases es
  {
    hide Inv, TableOk, Enabled, Apply, Concerns, ShuttingDown;
    if es != [] {
      ApplyInv(s, es[0]);
      DrainingStep(s, es[0]);
      DrainingOnlyAnswers(Apply(s, es[0]), es[1..], s', h);
    }
  }

  /** A frame the server tolerates: a request on a stream that has not had its terminal frame, which
      cancels an operation in the table or is not a second request for one. */
  predicate Tolerated(s: Server, f: Frame) {
    ShuttingDown(s.state)
    || (&& f.header.kind == REQUEST && f.header.stream !in s.terminal
        && if HasFlag(f.header.flags, CANCEL) then f.header.stream in s.operations
           else
             && (M.PeekMessageType(f.payload).Some? && M.PeekMessageType(f.payload).value in s.handlers
                 ==> f.header.stream !in s.operations))
  }

  /** A frame leaves the connection open exactly when the server tolerates it; a cancellation changes
      only the operation it names, and any frame changes at most that one existing run. */
  lemma FrameIsolation(s: Server, f: Frame)
    requires Inv(s) && s.transportOpen
    ensures Dispatch(s, f).transportOpen <==> Tolerated(s, f)
    ensures forall h :: 0 <= h < |s.runs| && s.runs[h].stream != f.header.stream ==>
              h < |Dispatch(s, f).runs| && Dispatch(s, f).runs[h] == s.runs[h]
    ensures Tolerated(s, f) && !ShuttingDown(s.state) && HasFlag(f.header.flags, CANCEL) ==>
              && s.operations[f.header.stream] < |Dispatch(s, f).runs|
              && Dispatch(s, f).runs[s.operations[f.header.stream]].op.Terminal()
  {
    hide RunOk, QueueOk, Dispatch, Forward, CancelRun, HasFlag, M.PeekMessageType;
    var t := f.header.stream;
    DispatchShape(s, f);
    DispatchStaysOpen(s, f);
    if t in s.operations {
      CancelForward(s.runs[s.operations[t]]);
    }
    if Tolerated(s, f) && !ShuttingDown(s.state) && HasFlag(f.header.flags, CANCEL) {
      DispatchCancels(s, f);
    }
  }

  /** Whatever a server writes, and however its peer reads it, the peer's decoder reports no error and
      every frame it emits is a response: the client never takes its wrong-frame-type branch. */
  lemma ClientSeesOnlyResponses(s: Server, chunks: seq<seq<u8>>) returns (k: nat)
    requires Reachable(s) && Flatten(chunks) <= s.queue.wire
    ensures k <= |s.queue.accepted|
    ensures var (frames, st) := FeedAll(DEFAULT_MAX_PAYLOAD, INITIAL, chunks);
            && st.error == NoError && frames == s.queue.accepted[..k]
            && (forall i :: 0 <= i < |frames| ==> LegalFor(frames[i], RESPONSE))
  {
    hide Reachable, RunsOk, TableOk, QueueOk, CloseOk, LifeOk, ShutdownOk, FeedAll, Flatten, LegalFor;
    ReachableInv(s);
    AcceptedAreLegal(s.runs, s.queue);
    k := PeerSeesAPrefix(s.queue, DEFAULT_MAX_PAYLOAD, chunks);
  }

  lemma AcceptedAreLegal(runs: seq<HandlerRun>, queue: Q.Queue)
    requires QueueOk(runs, queue)
    ensures Q.Inv(queue) && AllValid(queue.accepted, DEFAULT_MAX_PAYLOAD)
    ensures forall i :: 0 <= i < |queue.accepted| ==> LegalFor(queue.accepted[i], RESPONSE)
  {
    hide Q.Inv, IsValid;
    assert forall i :: 0 <= i < |queue.accepted| ==> LegalTo(RESPONSE)(queue.accepted[i]);
  }
}
