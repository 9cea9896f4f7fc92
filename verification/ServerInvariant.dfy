/** What every reachable server satisfies, and why every step keeps it. */
module ServerInvariant {
  import opened Bytes
  import opened Frames
  import opened Operations
  import Q = WriteQueues
  import M = Messages
  import opened WirePath
  import opened Servers

  /** One handler run: at most one frame, of its own stream, and a success response exactly when its
      own operation was completed. */
  predicate RunOk(x: HandlerRun) {
    && Coherent(x.op) && x.stream != 0
    && (x.phase.Spawned? || x.phase.Running? ==> x.sent == [] && !x.op.state.OpCompleted?)
    && (x.phase.Responding? ==> x.op.state.OpCompleted?)
    && |x.sent| <= 1
    && (|x.sent| == 1 ==> LegalFor(x.sent[0], RESPONSE) && x.sent[0].header.stream == x.stream)
    && (x.op.state.OpCompleted? <==> |x.sent| == 1 && !HasFlag(x.sent[0].header.flags, ERROR))
  }

  predicate RunsOk(runs: seq<HandlerRun>) {
    forall h :: 0 <= h < |runs| ==> RunOk(runs[h])
  }

  ghost predicate QueueOk(runs: seq<HandlerRun>, queue: Q.Queue) {
    && Q.Inv(queue)
    && Carries(queue, LegalTo(RESPONSE))
    && (forall p :: p in queue.producers <==> 0 <= p < |runs| && runs[p].phase.Responding?)
  }

  /** The queue is closed exactly when its writer failed, or reading has ended and no handler is left. */
  predicate CloseOk(s: Server) {
    s.queue.closed <==> s.queue.run.Failed? || (!s.reading && s.activeHandlers == 0)
  }

  predicate LifeOk(s: Server) {
    && (s.state.Created? || s.state.Active? || s.state.Draining? || s.state.Closed?)
    && (s.started ==> !s.state.Created?)
    && (!s.reading ==> s.state.Closed?)
    && s.activeHandlers == |s.operations|
    && (s.shutdownDone ==> s.state.Closed?)
  }

  /** After shutdown every operation still in the table has ended. */
  predicate ShutdownOk(s: Server) {
    s.shutdownDone ==> forall h :: 0 <= h < |s.runs| && !s.runs[h].phase.Finished? ==> s.runs[h].op.Terminal()
  }

  ghost predicate Inv(s: Server) {
    RunsOk(s.runs) && TableOk(s.runs, s.operations) && QueueOk(s.runs, s.queue) && CloseOk(s) && LifeOk(s) && ShutdownOk(s)
  }

  lemma CreateInv(limits: Q.Limits)
    ensures Inv(Create(limits))
  {
    Q.CreateInv(limits);
    hide Q.Inv;
  }

  // ----- Frames of the invariant's parts -----

  lemma TouchTable(runs: seq<HandlerRun>, operations: map<u64, nat>, h: nat, y: HandlerRun)
    requires TableOk(runs, operations) && h < |runs|
    requires y.stream == runs[h].stream && y.phase.Finished? == runs[h].phase.Finished?
    ensures TableOk(runs[h := y], operations)
  {
  }

  lemma FinishTable(runs: seq<HandlerRun>, operations: map<u64, nat>, h: nat, y: HandlerRun)
    requires TableOk(runs, operations) && h < |runs| && !runs[h].phase.Finished?
    requires y.stream == runs[h].stream && y.phase.Finished?
    ensures TableOk(runs[h := y], operations - {y.stream})
    ensures |operations| > 0 && |operations - {y.stream}| == |operations| - 1
  {
    var rest := operations - {y.stream};
    assert operations == rest[y.stream := h];
  }

  /** The queue has already answered for handler h, whose run has not yet moved on. */
  ghost predicate QueueAnswered(runs: seq<HandlerRun>, queue: Q.Queue, h: nat, blocked: bool) {
    && Q.Inv(queue)
    && Carries(queue, LegalTo(RESPONSE))
    && (forall p :: p != h ==> (p in queue.producers <==> 0 <= p < |runs| && runs[p].phase.Responding?))
    && (h in queue.producers <==> blocked)
  }

  lemma AnsweredQueue(runs: seq<HandlerRun>, queue: Q.Queue, h: nat, blocked: bool, y: HandlerRun)
    requires QueueAnswered(runs, queue, h, blocked) && h < |runs| && y.phase.Responding? == blocked
    ensures QueueOk(runs[h := y], queue)
  {
    hide Q.Inv, Carries;
  }

  lemma OkAnswers(runs: seq<HandlerRun>, queue: Q.Queue, h: nat)
    requires QueueOk(runs, queue) && h < |runs|
    ensures QueueAnswered(runs, queue, h, runs[h].phase.Responding?)
  {
    hide Q.Inv, Carries;
  }

  lemma TouchQueue(runs: seq<HandlerRun>, queue: Q.Queue, h: nat, y: HandlerRun)
    requires QueueOk(runs, queue) && h < |runs| && y.phase.Responding? == runs[h].phase.Responding?
    ensures QueueOk(runs[h := y], queue)
  {
    hide Q.Inv, Carries;
  }

  lemma AnsweredBy(runs: seq<HandlerRun>, q: Q.Queue, q': Q.Queue, h: nat)
    requires QueueOk(runs, q) && Q.OnlyProducer(q, q', h)
    requires Q.Inv(q') && Carries(q', LegalTo(RESPONSE))
    ensures QueueAnswered(runs, q', h, h in q'.producers)
  {
    hide Q.Inv, Carries;
    forall p | p != h
      ensures p in q.producers <==> p in q'.producers
    {
      assert p in q.producers - {h} <==> p in q'.producers - {h};
    }
  }

  /** Offering an error frame changes nothing but the frames the queue carries. */
  lemma ErrorQueue(runs: seq<HandlerRun>, queue: Q.Queue, stream: u64, status: StatusCode)
    requires QueueOk(runs, queue) && stream != 0
    ensures var q := Q.TryEnqueue(queue, ErrorFrame(stream, status)).0;
            QueueOk(runs, q) && q.closed == queue.closed && q.run.Failed? == queue.run.Failed?
  {
    var f := ErrorFrame(stream, status);
    assert LegalTo(RESPONSE)(f);
    assert Q.TryEnqueue(queue, f).0.run.Failed? == queue.run.Failed? by {
      FailedStays(queue, f);
    }
    hide Q.Core, Q.NoLostWakeup, Carries, ErrorFrame, Q.TryEnqueue;
    Q.TryEnqueueInv(queue, f);
    Q.TryEnqueueCore(queue, f);
    TryEnqueueCarries(queue, f, LegalTo(RESPONSE));
  }

  lemma FailedStays(q: Q.Queue, f: Frame)
    requires Q.Inv(q)
    ensures Q.TryEnqueue(q, f).0.run.Failed? == q.run.Failed?
  {
    hide Q.BytesAgree, Q.OrderAgrees, Q.ProducersAgree;
  }

  lemma SendErrorInv(s: Server, stream: u64, status: StatusCode)
    requires Inv(s) && stream != 0
    ensures Inv(SendError(s, stream, status))
  {
    hide RunsOk, TableOk, QueueOk, Q.TryEnqueue, ErrorFrame;
    ErrorQueue(s.runs, s.queue, stream, status);
  }

  lemma MarkTerminalInv(s: Server, f: Frame)
    requires Inv(s)
    ensures Inv(MarkTerminal(s, f))
  {
    hide RunsOk, TableOk, QueueOk, HasFlag;
  }

  // ----- The end of a handler -----

  ghost predicate InvAnswered(s: Server, h: nat, blocked: bool) {
    && RunsOk(s.runs) && TableOk(s.runs, s.operations)
    && QueueAnswered(s.runs, s.queue, h, blocked)
    && CloseOk(s) && LifeOk(s) && ShutdownOk(s)
    && h < |s.runs| && !s.runs[h].phase.Finished?
  }

  lemma FinishHandlerInv(s: Server, h: nat, x: HandlerRun)
    requires InvAnswered(s, h, false) && x.stream == s.runs[h].stream
    requires RunOk(x.(phase := Finished))
    ensures s.activeHandlers > 0 && Inv(FinishHandler(s, h, x))
  {
    hide TableOk, QueueOk, QueueAnswered, RunOk, Q.CloseQueue;
    var y := x.(phase := Finished);
    FinishTable(s.runs, s.operations, h, y);
    AnsweredQueue(s.runs, s.queue, h, false, y);
    CloseQueueOk(s.runs[h := y], s.queue);
  }

  lemma CloseQueueOk(runs: seq<HandlerRun>, queue: Q.Queue)
    requires QueueOk(runs, queue)
    ensures QueueOk(runs, Q.CloseQueue(queue)) && Q.CloseQueue(queue).closed
    ensures Q.CloseQueue(queue).run.Failed? == queue.run.Failed?
  {
    assert Q.CloseQueue(queue).run.Failed? == queue.run.Failed?;
    hide Q.Inv, Carries, Q.CloseQueue;
    Q.CloseInv(queue);
    CloseCarries(queue, LegalTo(RESPONSE));
  }

  lemma RespondedInv(s: Server, h: nat, y: HandlerRun, outcome: Q.Outcome)
    requires InvAnswered(s, h, outcome.Blocked?) && y.stream == s.runs[h].stream
    requires RunOk(y.(phase := Responding)) && RunOk(y.(phase := Finished))
    ensures s.activeHandlers > 0 && Inv(Responded(s, h, y, outcome))
  {
    hide TableOk, QueueOk, QueueAnswered, FinishHandler;
    if outcome.Blocked? {
      var z := y.(phase := Responding);
      TouchTable(s.runs, s.operations, h, z);
      AnsweredQueue(s.runs, s.queue, h, true, z);
      LiveCount(s, h);
    } else {
      FinishHandlerInv(s, h, y);
    }
  }

  lemma LiveCount(s: Server, h: nat)
    requires TableOk(s.runs, s.operations) && LifeOk(s) && h < |s.runs| && !s.runs[h].phase.Finished?
    ensures s.activeHandlers > 0
  {
    assert s.runs[h].stream in s.operations;
  }

  lemma HandlerStartsInv(s: Server, h: nat, failure: Option<StatusCode>)
    requires Inv(s) && Enabled(s, HandlerBegins(h, failure))
    ensures Inv(HandlerStarts(s, h, failure))
  {
    hide TableOk, QueueOk, QueueAnswered, FinishHandler, SendError, RunOk, ErrorFrame;
    var x := s.runs[h];
    match failure
    case None => BeginInv(s, h);
    case Some(status) =>
      var s1 := SendError(s, x.stream, status);
      SpawnedStream(x);
      SendErrorInv(s, x.stream, status);
      SendErrorKeeps(s, x.stream, status);
      OkAnswers(s1.runs, s1.queue, h);
      FailedRunOk(x, status);
      FinishHandlerInv(s1, h, x.(op := Fail(x.op, status).0, sent := x.sent + [ErrorFrame(x.stream, status)]));
  }

  lemma SpawnedStream(x: HandlerRun)
    requires RunOk(x)
    ensures x.stream != 0
  {
  }

  lemma SendErrorKeeps(s: Server, stream: u64, status: StatusCode)
    ensures SendError(s, stream, status) == s.(queue := SendError(s, stream, status).queue)
  {
  }

  lemma BeginInv(s: Server, h: nat)
    requires Inv(s) && h < |s.runs| && s.runs[h].phase.Spawned?
    ensures Inv(s.(runs := s.runs[h := s.runs[h].(phase := Running)]))
  {
    hide TableOk, QueueOk;
    var x := s.runs[h];
    assert RunOk(x);
    assert RunOk(x.(phase := Running));
    hide RunOk;
    TouchTable(s.runs, s.operations, h, x.(phase := Running));
    TouchQueue(s.runs, s.queue, h, x.(phase := Running));
  }

  lemma FailedRunOk(x: HandlerRun, status: StatusCode)
    requires RunOk(x) && x.phase.Spawned? && !status.Ok?
    ensures RunOk(x.(op := Fail(x.op, status).0, sent := x.sent + [ErrorFrame(x.stream, status)], phase := Finished))
  {
    var f := ErrorFrame(x.stream, status);
    assert LegalFor(f, RESPONSE) && f.header.stream == x.stream && HasFlag(f.header.flags, ERROR);
    hide LegalFor, HasFlag, ErrorFrame;
  }

  lemma CompletedRunOk(x: HandlerRun, body: seq<u8>, phase: HandlerPhase)
    requires RunOk(x) && x.phase.Running? && Complete(x.op).1 && |body| <= DEFAULT_MAX_PAYLOAD
    requires phase.Responding? || phase.Finished?
    ensures RunOk(x.(op := Complete(x.op).0, sent := x.sent + [ResponseFrame(x.stream, body)], phase := phase))
  {
    var f := ResponseFrame(x.stream, body);
    assert LegalFor(f, RESPONSE) && f.header.stream == x.stream && !HasFlag(f.header.flags, ERROR);
    hide LegalFor, HasFlag, ResponseFrame;
  }

  lemma HandlerReturnsInv(s: Server, h: nat, body: Option<seq<u8>>)
    requires Inv(s) && Enabled(s, HandlerReturned(h, body))
    ensures Inv(HandlerReturns(s, h, body))
  {
    hide TableOk, QueueOk, QueueAnswered, FinishHandler, Responded, Q.Enqueue, RunOk, ResponseFrame, LegalFor;
    var x := s.runs[h];
    FinishedRunOk(x);
    if body.None? || !Complete(x.op).1 {
      OkAnswers(s.runs, s.queue, h);
      FinishHandlerInv(s, h, x);
    } else {
      var f := ResponseFrame(x.stream, body.value);
      CompletedRunOk(x, body.value, Responding);
      CompletedRunOk(x, body.value, Finished);
      EnqueueAnswers(s.runs, s.queue, h, f);
      var (queue, outcome) := Q.Enqueue(s.queue, h, f);
      RespondedInv(s.(queue := queue), h, x.(op := Complete(x.op).0, sent := x.sent + [f]), outcome);
    }
  }

  lemma FinishedRunOk(x: HandlerRun)
    requires RunOk(x)
    ensures RunOk(x.(phase := Finished)) && x.stream != 0
  {
    hide LegalFor, HasFlag;
  }

  lemma EnqueueAnswers(runs: seq<HandlerRun>, queue: Q.Queue, h: nat, f: Frame)
    requires QueueOk(runs, queue) && h < |runs| && !runs[h].phase.Responding? && LegalFor(f, RESPONSE)
    ensures var (q, outcome) := Q.Enqueue(queue, h, f);
            && QueueAnswered(runs, q, h, outcome.Blocked?)
            && q.closed == queue.closed && q.run.Failed? == queue.run.Failed?
  {
    FailedStays(queue, f);
    assert LegalTo(RESPONSE)(f);
    var q := Q.Enqueue(queue, h, f).0;
    assert q.closed == queue.closed && q.run.Failed? == queue.run.Failed?;
    hide Q.Inv, Carries, Q.Enqueue, Q.OnlyProducer, LegalFor;
    Q.EnqueueInv(queue, h, f);
    EnqueueCarries(queue, h, f, LegalTo(RESPONSE));
    AnsweredBy(runs, queue, q, h);
  }

  lemma ResumeAnswers(runs: seq<HandlerRun>, queue: Q.Queue, h: nat)
    requires QueueOk(runs, queue) && h < |runs| && Q.CanResume(queue, h)
    ensures runs[h].phase.Responding?
    ensures var (q, outcome) := Q.Resume(queue, h);
            && QueueAnswered(runs, q, h, outcome.Blocked?)
            && q.closed == queue.closed && q.run.Failed? == queue.run.Failed?
  {
    ResumeKeeps(queue, h);
    var q := Q.Resume(queue, h).0;
    hide Q.Inv, Carries, Q.Resume, Q.OnlyProducer;
    Q.ResumeInv(queue, h);
    ResumeCarries(queue, h, LegalTo(RESPONSE));
    AnsweredBy(runs, queue, q, h);
  }

  lemma ResumeKeeps(queue: Q.Queue, h: nat)
    requires Q.Inv(queue) && Q.CanResume(queue, h)
    ensures var q := Q.Resume(queue, h).0; q.closed == queue.closed && q.run.Failed? == queue.run.Failed?
  {
    hide Q.BytesAgree, Q.OrderAgrees, Q.ProducersAgree, Q.NoLostWakeup;
  }

  lemma HandlerResumesInv(s: Server, h: nat)
    requires Inv(s) && Enabled(s, ResponseResumes(h))
    ensures Inv(HandlerResumes(s, h))
  {
    hide TableOk, QueueOk, QueueAnswered, Responded, Q.Resume, RunOk;
    ResumeAnswers(s.runs, s.queue, h);
    var (queue, outcome) := Q.Resume(s.queue, h);
    RespondingRunOk(s.runs[h]);
    RespondedInv(s.(queue := queue), h, s.runs[h], outcome);
  }

  lemma RespondingRunOk(x: HandlerRun)
    requires RunOk(x) && x.phase.Responding?
    ensures RunOk(x.(phase := Responding)) && RunOk(x.(phase := Finished))
  {
    hide LegalFor, HasFlag;
  }

  lemma HandlerThrewInv(s: Server, h: nat)
    requires Inv(s) && Enabled(s, HandlerThrew(h))
    ensures Inv(FinishHandler(s, h, s.runs[h]))
  {
    hide TableOk, QueueOk, QueueAnswered, FinishHandler, RunOk;
    var x := s.runs[h];
    FinishedRunOk(x);
    OkAnswers(s.runs, s.queue, h);
    FinishHandlerInv(s, h, x);
  }

  // ----- Ends of the connection -----

  lemma FailedOpOk(x: HandlerRun)
    requires RunOk(x)
    ensures RunOk(x.(op := FailOp(x.op))) && FailOp(x.op).Terminal()
    ensures x.op.Terminal() ==> FailOp(x.op) == x.op
  {
  }

  /** Two sets of runs with the same streams in the same phases. */
  ghost predicate SameShape(a: seq<HandlerRun>, b: seq<HandlerRun>) {
    |a| == |b| && forall h :: 0 <= h < |a| ==> a[h].stream == b[h].stream && a[h].phase == b[h].phase
  }

  lemma SameShapeOk(a: seq<HandlerRun>, b: seq<HandlerRun>, operations: map<u64, nat>, queue: Q.Queue)
    requires SameShape(a, b) && TableOk(a, operations) && QueueOk(a, queue)
    ensures TableOk(b, operations) && QueueOk(b, queue)
  {
    hide Q.Inv, Carries;
  }

  lemma FailOperationsRuns(s: Server)
    requires RunsOk(s.runs) && TableOk(s.runs, s.operations)
    ensures var s' := FailOperations(s);
            && RunsOk(s'.runs) && SameShape(s.runs, s'.runs)
            && (forall h :: 0 <= h < |s.runs| ==>
                  s'.runs[h] == if s.runs[h].phase.Finished? then s.runs[h] else s.runs[h].(op := FailOp(s.runs[h].op)))
            && (forall h :: 0 <= h < |s.runs| && !s.runs[h].phase.Finished? ==> s'.runs[h].op.Terminal())
  {
    hide RunOk, FailOp;
    var s' := FailOperations(s);
    forall h | 0 <= h < |s.runs|
      ensures RunOk(s'.runs[h]) && (s'.runs[h].phase.Finished? || s'.runs[h].op.Terminal())
    {
      FailedOpOk(s.runs[h]);
    }
  }

  lemma FailOperationsInv(s: Server)
    requires Inv(s)
    ensures Inv(FailOperations(s))
    ensures forall h :: 0 <= h < |s.runs| && !s.runs[h].phase.Finished? ==> FailOperations(s).runs[h].op.Terminal()
  {
    FailOperationsKeeps(s);
    hide RunsOk, TableOk, QueueOk, FailOperations, FailOp;
    FailOperationsRuns(s);
    SameShapeOk(s.runs, FailOperations(s).runs, s.operations, s.queue);
  }

  lemma RegisterInv(s: Server, messageType: u32)
    requires Inv(s)
    ensures Inv(Register(s, messageType))
  {
    hide RunsOk, TableOk, QueueOk;
  }

  lemma StartRunningInv(s: Server)
    requires Inv(s)
    ensures Inv(StartRunning(s)) && Inv(BeginShutdown(s))
  {
    hide RunsOk, TableOk, QueueOk;
  }

  lemma EndReadingInv(s: Server, lost: bool)
    requires Inv(s) && s.started && s.reading
    ensures Inv(EndReading(s, lost))
  {
    hide RunsOk, TableOk, QueueOk, FailOperations, Q.CloseQueue;
    FailOperationsInv(s);
    FailOperationsKeeps(s);
    CloseQueueOk(s.runs, s.queue);
    CloseQueueOk(FailOperations(s).runs, s.queue);
  }

  lemma FailOperationsKeeps(s: Server)
    ensures FailOperations(s) == s.(runs := FailOperations(s).runs)
  {
  }

  lemma EndShutdownInv(s: Server)
    requires Inv(s) && (s.state.Draining? || s.state.Closed?)
    ensures Inv(EndShutdown(s))
  {
    FailOperationsInv(s);
    FailOperationsKeeps(s);
    if s.activeHandlers == 0 {
      NoneLeft(s);
    }
    hide RunsOk, TableOk, QueueOk, FailOperations;
  }

  lemma NoneLeft(s: Server)
    requires TableOk(s.runs, s.operations) && LifeOk(s) && s.activeHandlers == 0
    ensures forall h :: 0 <= h < |s.runs| ==> s.runs[h].phase.Finished?
  {
    assert s.operations == map[];
  }

  // ----- Incoming frames -----

  lemma CancelInv(s: Server, t: u64)
    requires Inv(s) && t in s.operations
    ensures var h := s.operations[t];
            h < |s.runs| && Inv(s.(runs := s.runs[h := s.runs[h].(op := Cancel(s.runs[h].op).0)]))
  {
    hide QueueOk, RunOk, Cancel;
    var h := s.operations[t];
    var x := s.runs[h];
    var y := x.(op := Cancel(x.op).0);
    CancelledRunOk(x);
    TouchTable(s.runs, s.operations, h, y);
    hide TableOk;
    TouchQueue(s.runs, s.queue, h, y);
  }

  lemma CancelledRunOk(x: HandlerRun)
    requires RunOk(x)
    ensures RunOk(x.(op := Cancel(x.op).0)) && (x.op.Terminal() ==> Cancel(x.op).0 == x.op)
    ensures Cancel(x.op).0.Terminal()
  {
  }

  lemma SpawnInv(s: Server, f: Frame)
    requires Inv(s) && f.header.stream !in s.operations && f.header.stream != 0 && s.reading && !s.shutdownDone
    ensures Inv(s.(runs := s.runs + [HandlerRun(f, FRESH_OP, Spawned, [])],
                   operations := s.operations[f.header.stream := |s.runs|], activeHandlers := s.activeHandlers + 1))
  {
    var t, x := f.header.stream, HandlerRun(f, FRESH_OP, Spawned, []);
    assert RunOk(x);
    hide RunOk, Q.Inv, Carries;
    assert |s.operations[t := |s.runs|]| == |s.operations| + 1;
    SpawnTable(s.runs, s.operations, x);
    SpawnQueue(s.runs, s.queue, x);
    hide TableOk, QueueOk;
  }

  lemma SpawnTable(runs: seq<HandlerRun>, operations: map<u64, nat>, x: HandlerRun)
    requires TableOk(runs, operations) && x.stream !in operations && !x.phase.Finished?
    ensures TableOk(runs + [x], operations[x.stream := |runs|])
  {
  }

  lemma SpawnQueue(runs: seq<HandlerRun>, queue: Q.Queue, x: HandlerRun)
    requires QueueOk(runs, queue) && !x.phase.Responding?
    ensures QueueOk(runs + [x], queue)
  {
    hide Q.Inv, Carries;
    forall p
      ensures p in queue.producers <==> 0 <= p < |runs + [x]| && (runs + [x])[p].phase.Responding?
    {
      assert p in queue.producers <==> 0 <= p < |runs| && runs[p].phase.Responding?;
    }
  }

  lemma DispatchInv(s: Server, f: Frame)
    requires Inv(s) && s.reading && f.header.stream != 0
    ensures Inv(Dispatch(s, f))
  {
    var t := f.header.stream;
    hide RunsOk, QueueOk, SendError, MarkTerminal, HasFlag, Accept;
    if ShuttingDown(s.state) {
      SendErrorInv(s, t, ConnectionClosed);
      MarkTerminalInv(SendError(s, t, ConnectionClosed), f);
    } else if f.header.kind != REQUEST || t in s.terminal {
    } else if HasFlag(f.header.flags, CANCEL) {
      if t in s.operations {
        CancelInv(s, t);
        var h := s.operations[t];
        MarkTerminalInv(s.(runs := s.runs[h := s.runs[h].(op := Cancel(s.runs[h].op).0)]), f);
      }
    } else {
      AcceptInv(s, f);
    }
  }

  lemma AcceptInv(s: Server, f: Frame)
    requires Inv(s) && s.reading && f.header.stream != 0 && !ShuttingDown(s.state)
    ensures Inv(Accept(s, f))
  {
    hide RunsOk, TableOk, QueueOk, SendError, MarkTerminal, HasFlag, M.PeekMessageType;
    var t := f.header.stream;
    SendErrorInv(s, t, DecodeError);
    MarkTerminalInv(SendError(s, t, DecodeError), f);
    SendErrorInv(s, t, UnknownMessageType);
    MarkTerminalInv(SendError(s, t, UnknownMessageType), f);
    if t !in s.operations {
      SpawnInv(s, f);
    }
  }

  // ----- Every step -----

  lemma WriterStepInv(s: Server, step: Q.Event)
    requires Inv(s) && Q.Enabled(s.queue, step) && step.Internal() && !step.ProducerResumes?
    ensures Inv(WriteStep(s, step))
  {
    hide RunsOk, TableOk, QueueOk, Q.Apply, Q.Enabled;
    WriterQueue(s.runs, s.queue, step);
  }

  lemma WriterQueue(runs: seq<HandlerRun>, q: Q.Queue, step: Q.Event)
    requires QueueOk(runs, q)
    requires Q.Enabled(q, step) && step.Internal() && !step.ProducerResumes?
    ensures var q' := Q.Apply(q, step);
            && QueueOk(runs, q')
            && q'.closed == (q.closed || step.WriteFails?)
            && q'.run.Failed? == step.WriteFails? && !q.run.Failed?
  {
    hide Carries, Q.Inv, Q.Apply, Q.Enabled;
    WriterCloses(q, step);
    Q.ApplyInv(q, step);
    WriterCarries(q, step, LegalTo(RESPONSE));
  }

  /** The writer closes the queue only by failing, and never un-fails. */
  lemma WriterCloses(q: Q.Queue, step: Q.Event)
    requires Q.Inv(q) && Q.Enabled(q, step) && step.Internal() && !step.ProducerResumes?
    ensures var q' := Q.Apply(q, step);
            && q'.closed == (q.closed || step.WriteFails?)
            && q'.run.Failed? == step.WriteFails? && !q.run.Failed?
  {
    hide Q.BytesAgree, Q.OrderAgrees, Q.ProducersAgree, Q.NoLostWakeup;
  }

  lemma ApplyInv(s: Server, e: Event)
    requires Inv(s) && Enabled(s, e)
    ensures Inv(Apply(s, e))
  {
    hide RunsOk, QueueOk, Dispatch, EndReading, EndShutdown, HandlerStarts, HandlerReturns, FinishHandler,
      HandlerResumes, Q.Apply;
    match e
    case Handle(t) => RegisterInv(s, t);
    case Run => StartRunningInv(s);
    case FrameArrives(f) => DispatchInv(s, f);
    case DecoderFails =>
    case ReadingEnds(lost) => EndReadingInv(s, lost);
    case ShutdownBegins => StartRunningInv(s);
    case ShutdownEnds => EndShutdownInv(s);
    case HandlerBegins(h, failure) => HandlerStartsInv(s, h, failure);
    case HandlerReturned(h, body) => HandlerReturnsInv(s, h, body);
    case HandlerThrew(h) => HandlerThrewInv(s, h);
    case ResponseResumes(h) => HandlerResumesInv(s, h);
    case WriterStep(step) => WriterStepInv(s, step);
  }
}
