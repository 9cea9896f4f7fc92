/** The server connection object. One spawned handler is one heap object: its coroutine and the
    operation it shares with the table. Every method does to the heap what the step system does to its
    state, and a handler's index in the step system names the object. */
module ServerObjects {
  import opened Bytes
  import opened Frames
  import opened FrameCodec
  import opened Operations
  import Q = WriteQueues
  import opened WriteQueueObjects
  import M = Messages
  import S = Servers
  import I = ServerInvariant
  import R = ServerReading
  import opened FrameDecoding

  class HandlerTask {
    const request: Frame
    const operation: Operation
    const id: nat  // names the coroutine
    ghost var phase: S.HandlerPhase
    ghost var sent: seq<Frame>

    ghost function View(): S.HandlerRun
      reads this, operation
    {
      S.HandlerRun(request, operation.View(), phase, sent)
    }

    constructor (id: nat, request: Frame)
      ensures View() == S.HandlerRun(request, FRESH_OP, S.Spawned, [])
      ensures this.id == id && fresh(operation)
    {
      this.request := request;
      operation := new Operation(request.header.stream);
      this.id := id;
      phase, sent := S.Spawned, [];
    }
  }

  class ServerConnection {
    const queue: WriteQueue
    var operations: map<u64, HandlerTask>
    var terminalStreams: set<u64>
    var handlers: set<u32>
    var activeHandlers: nat
    var reading: bool
    var state: ConnectionState
    var transportOpen: bool
    var started: bool
    var issued: nat
    ghost var shutdownDone: bool
    ghost var tasks: seq<HandlerTask>  // every handler ever spawned

    ghost predicate Structure()
      reads this`tasks, this`operations, this`issued
    {
      && issued == |tasks|
      && (forall i :: 0 <= i < |tasks| ==> tasks[i].id == i)
      && (forall i, j :: 0 <= i < j < |tasks| ==> tasks[i].operation != tasks[j].operation)
      && (forall t :: t in operations ==> Mine(operations[t]))
    }

    ghost predicate Mine(h: HandlerTask)
      reads this`tasks
    {
      h.id < |tasks| && tasks[h.id] == h
    }

    ghost function Table(): map<u64, nat>
      reads this`operations
    {
      map t | t in operations :: operations[t].id
    }

    ghost function Ops(): set<Operation>
      reads this`tasks
    {
      set i | 0 <= i < |tasks| :: tasks[i].operation
    }

    ghost function RunViews(): (views: seq<S.HandlerRun>)
      reads this`tasks, tasks, Ops()
      ensures |views| == |tasks|
      ensures forall i :: 0 <= i < |tasks| ==> views[i] == tasks[i].View()
    {
      var all, ops := tasks, Ops();
      seq(|all|, i requires 0 <= i < |all| && all[i].operation in ops reads all, ops => all[i].View())
    }

    ghost function View(): S.Server
      reads this, queue, tasks, Ops()
    {
      S.Server(RunViews(), Table(), terminalStreams, handlers, activeHandlers, reading, state, transportOpen,
               started, shutdownDone, queue.View())
    }

    ghost predicate Valid()
      reads this, queue, tasks, Ops()
    {
      Structure() && I.Inv(View())
    }

    constructor (limits: Q.Limits)
      ensures Valid() && View() == S.Create(limits) && fresh(queue)
    {
      queue := new WriteQueue(limits);
      operations, terminalStreams, handlers := map[], {}, {};
      activeHandlers, issued := 0, 0;
      reading, state, transportOpen, started := true, Created, true, false;
      shutdownDone, tasks := false, [];
      new;
      I.CreateInv(limits);
      assert View() == S.Create(limits);
    }

    lemma ValidView()
      requires Valid()
      ensures Structure() && I.Inv(View())
    {
    }

    lemma ViewIsValid()
      requires Structure() && I.Inv(View())
      ensures Valid()
    {
    }

    lemma QueueValid()
      requires Valid()
      ensures queue.Valid() && queue.View() == View().queue
    {
      hide S.TableOk, I.RunOk, Q.Inv;
    }

    /** A handler's entry in the view is the handler's own view. */
    lemma EntryOf(h: HandlerTask)
      requires Structure() && Mine(h)
      ensures h.id < |View().runs| && View().runs[h.id] == h.View()
    {
    }

    lemma MineIsOwn(h: HandlerTask)
      requires Mine(h)
      ensures h in tasks && h.operation in Ops()
    {
    }

    lemma Filed(stream: u64)
      requires Structure() && stream in operations
      ensures Mine(operations[stream]) && operations[stream] in tasks && operations[stream].operation in Ops()
      ensures stream in View().operations && View().operations[stream] == operations[stream].id
    {
    }

    lemma Fields()
      ensures var s := View();
              && s.terminal == terminalStreams && s.handlers == handlers && s.activeHandlers == activeHandlers
              && s.state == state && s.reading == reading && s.transportOpen == transportOpen
      ensures View().operations.Keys == operations.Keys
    {
    }

    /** Only handler h changed, so only its entry in the view did. */
    twostate lemma OnlyChanged(h: HandlerTask)
      requires old(Structure()) && old(Mine(h)) && tasks == old(tasks)
      requires forall i :: 0 <= i < |tasks| && i != h.id ==> tasks[i].View() == old(tasks[i].View())
      ensures RunViews() == old(RunViews())[h.id := h.View()]
    {
    }

    // ----- Changes to one handler -----

    method CompleteOperation(h: HandlerTask) returns (ok: bool)
      requires Structure() && Mine(h)
      modifies h.operation
      ensures Structure() && tasks == old(tasks)
      ensures var s, x := old(View()), old(h.View());
              && ok == Complete(x.op).1
              && View() == s.(runs := s.runs[h.id := x.(op := Complete(x.op).0)])
    {
      ok := h.operation.CompleteOp();
      OnlyChanged(h);
    }

    method FailOperation(h: HandlerTask, status: StatusCode)
      requires Structure() && Mine(h)
      modifies h.operation
      ensures Structure() && tasks == old(tasks)
      ensures var s, x := old(View()), old(h.View());
              View() == s.(runs := s.runs[h.id := x.(op := Fail(x.op, status).0)])
    {
      var _ := h.operation.FailOp(status);
      OnlyChanged(h);
    }

    method CancelOperation(h: HandlerTask)
      requires Structure() && Mine(h)
      modifies h.operation
      ensures Structure() && tasks == old(tasks)
      ensures var s, x := old(View()), old(h.View());
              View() == s.(runs := s.runs[h.id := x.(op := Cancel(x.op).0)])
    {
      var _ := h.operation.CancelOp();
      OnlyChanged(h);
    }

    /** The handler is asked to stop and its operation fails. */
    method LoseOperation(h: HandlerTask)
      requires Structure() && Mine(h)
      modifies h.operation
      ensures Structure() && tasks == old(tasks)
      ensures var s, x := old(View()), old(h.View());
              View() == s.(runs := s.runs[h.id := x.(op := S.FailOp(x.op))])
    {
      var _ := h.operation.RequestCancel();
      var _ := h.operation.FailOp(ConnectionClosed);
      OnlyChanged(h);
    }

    /** The coroutine moves on. */
    ghost method MoveTo(h: HandlerTask, phase: S.HandlerPhase)
      requires Structure() && Mine(h)
      modifies h
      ensures Structure() && tasks == old(tasks)
      ensures View() == old(View()).(runs := old(View()).runs[h.id := old(h.View()).(phase := phase)])
    {
      h.phase := phase;
      OnlyChanged(h);
    }

    ghost method NoteSent(h: HandlerTask, f: Frame)
      requires Structure() && Mine(h)
      modifies h
      ensures Structure() && tasks == old(tasks)
      ensures var s, x := old(View()), old(h.View());
              View() == s.(runs := s.runs[h.id := x.(sent := x.sent + [f])])
    {
      h.sent := h.sent + [f];
      OnlyChanged(h);
    }

    // ----- Changes to the connection alone -----

    method CloseTransport()
      requires Structure()
      modifies this`transportOpen
      ensures Structure() && View() == old(View()).(transportOpen := false)
    {
      hide Table, RunViews;
      transportOpen := false;
    }

    method MoveState(to: ConnectionState)
      requires Structure()
      modifies this`state
      ensures Structure() && View() == old(View()).(state := Transition(old(View()).state, to))
    {
      hide Table, RunViews;
      if CanTransition(state, to) {
        state := to;
      }
    }

    method MarkTerminal(f: Frame)
      requires Structure()
      modifies this`terminalStreams
      ensures Structure() && View() == S.MarkTerminal(old(View()), f)
    {
      hide Table, RunViews, HasFlag;
      if HasFlag(f.header.flags, END_OF_STREAM) {
        terminalStreams := terminalStreams + {f.header.stream};
      }
    }

    method SendError(stream: u64, status: StatusCode)
      requires Structure() && queue.Valid()
      modifies queue
      ensures Structure() && queue.Valid() && View() == S.SendError(old(View()), stream, status)
    {
      hide Table, RunViews, Structure, Q.TryEnqueue, Q.Core, Q.NoLostWakeup, ErrorFrame, WriteQueue.View;
      var _ := queue.TryEnqueueFrame(ErrorFrame(stream, status));
    }

    method CloseQueueWhenIdle()
      requires Structure() && queue.Valid()
      modifies queue
      ensures Structure() && queue.Valid() && View() == S.CloseWhenIdle(old(View()))
    {
      hide Table, RunViews, Structure, Q.CloseQueue;
      if !reading && activeHandlers == 0 {
        queue.CloseQueue();
      }
    }

    /** handle: a type the registry does not know is ignored. */
    method Handle(messageType: Option<u32>)
      requires Valid()
      modifies this`handlers
      ensures Valid()
      ensures View() == if messageType.Some? then S.Register(old(View()), messageType.value) else old(View())
    {
      hide I.Inv, Structure, Valid, View;
      ValidView();
      if messageType.Some? {
        I.RegisterInv(View(), messageType.value);
        AddHandler(messageType.value);
        ViewIsValid();
      }
    }

    method AddHandler(messageType: u32)
      requires Structure()
      modifies this`handlers
      ensures Structure() && View() == S.Register(old(View()), messageType)
    {
      hide Table, RunViews;
      handlers := handlers + {messageType};
    }

    // ----- The end of a handler -----

    twostate lemma TableWithout(stream: u64)
      requires operations == old(operations) - {stream}
      ensures Table() == old(Table()) - {stream}
    {
    }

    method Erase(stream: u64)
      requires Structure()
      modifies this`operations
      ensures Structure() && View() == old(View()).(operations := old(View()).operations - {stream})
    {
      hide Table, RunViews;
      operations := operations - {stream};
      TableWithout(stream);
    }

    method CountDown()
      requires Structure() && activeHandlers > 0
      modifies this`activeHandlers
      ensures Structure() && View() == old(View()).(activeHandlers := old(View()).activeHandlers - 1)
    {
      hide Table, RunViews;
      activeHandlers := activeHandlers - 1;
    }

    /** The end of run_handler. */
    method FinishHandler(h: HandlerTask)
      requires Structure() && Mine(h) && queue.Valid() && activeHandlers > 0
      modifies this`operations, this`activeHandlers, queue, h
      ensures Structure() && tasks == old(tasks)
      ensures h.id < |old(View()).runs| && old(View()).activeHandlers > 0
      ensures View() == S.FinishHandler(old(View()), h.id, old(h.View()))
    {
      hide View, Structure, S.CloseWhenIdle, WriteQueue.Valid;
      Fields();
      EntryOf(h);
      Erase(h.request.header.stream);
      CountDown();
      MoveTo(h, S.Finished);
      CloseQueueWhenIdle();
    }

    // ----- Handlers -----

    /** A spawned handler starts: it decodes its request, and answers a failure with an error frame. */
    method HandlerStarts(h: HandlerTask, failure: Option<StatusCode>)
      requires Valid() && Mine(h) && h.phase.Spawned? && (failure.Some? ==> !failure.value.Ok?)
      modifies this`operations, this`activeHandlers, queue, h, h.operation
      ensures Valid() && tasks == old(tasks) && Live(old(View()), h.id)
      ensures View() == S.HandlerStarts(old(View()), h.id, failure)
    {
      hide I.Inv, Valid, View, Structure, S.FinishHandler, S.SendError, WriteQueue.Valid, Fail, ErrorFrame, HandlerTask.View;
      ghost var s, x := View(), h.View();
      ValidView();
      EntryOf(h);
      PhaseOfView(h);
      LiveHandler(s, h.id);
      I.HandlerStartsInv(s, h.id, failure);
      if failure.None? {
        MoveTo(h, S.Running);
        ViewIsValid();
        return;
      }
      QueueValid();
      Fields();
      AnswerError(h, failure.value);
      ViewIsValid();
    }

    method AnswerError(h: HandlerTask, status: StatusCode)
      requires Structure() && Mine(h) && queue.Valid() && activeHandlers > 0
      modifies this`operations, this`activeHandlers, queue, h, h.operation
      ensures Structure() && tasks == old(tasks)
      ensures h.id < |old(View()).runs| && old(View()).activeHandlers > 0
      ensures var s, x := old(View()), old(h.View());
              View() == S.FinishHandler(S.SendError(s, x.stream, status), h.id,
                          x.(op := Fail(x.op, status).0, sent := x.sent + [ErrorFrame(x.stream, status)]))
    {
      hide View, Structure, S.FinishHandler, S.SendError, WriteQueue.Valid, Fail, ErrorFrame, HandlerTask.View;
      ghost var s, x := View(), h.View();
      ghost var s1 := S.SendError(s, x.stream, status);
      Fields();
      EntryOf(h);
      StreamOfView(h);
      FailOperation(h, status);
      EntryOf(h);
      ErrorCommutes(s, h.id, h.View(), x.stream, status);
      SendError(h.request.header.stream, status);
      EntryOf(h);
      NoteSent(h, ErrorFrame(h.request.header.stream, status));
      EntryOf(h);
      ghost var y := h.View();
      assert View() == s1.(runs := s1.runs[h.id := y]);
      FinishHandler(h);
      FinishReplaces(s1, h.id, y);
    }

    /** The application's handler returned; body is the encoded response, if encoding succeeded. */
    method HandlerReturns(h: HandlerTask, body: Option<seq<u8>>)
      requires Valid() && Mine(h) && h.phase.Running? && (body.Some? ==> |body.value| <= DEFAULT_MAX_PAYLOAD)
      modifies this`operations, this`activeHandlers, queue, h, h.operation
      ensures Valid() && tasks == old(tasks) && Live(old(View()), h.id)
      ensures View() == S.HandlerReturns(old(View()), h.id, body)
    {
      hide I.Inv, Valid, View, Structure, S.FinishHandler, S.Responded, WriteQueue.Valid, Complete, S.ResponseFrame,
        Q.Enqueue, HandlerTask.View;
      ghost var s, x := View(), h.View();
      ValidView();
      EntryOf(h);
      PhaseOfView(h);
      LiveHandler(s, h.id);
      I.HandlerReturnsInv(s, h.id, body);
      QueueValid();
      Fields();
      NotWaiting(h);
      if body.None? {
        FinishHandler(h);
        ViewIsValid();
        return;
      }
      var ok := CompleteOperation(h);
      EntryOf(h);
      if !ok {
        RefusedUnchanged(x.op);
        FinishHandler(h);
        assert s.runs[h.id := x] == s.runs;
        ViewIsValid();
        return;
      }
      SendResponse(h, body.value);
      RespondedReplaces(s, h.id, x.(op := Complete(x.op).0), body.value);
      ViewIsValid();
    }

    /** The response is on its way: the handler waits for the queue, or is over. */
    method SendResponse(h: HandlerTask, body: seq<u8>)
      requires Structure() && Mine(h) && queue.Valid() && activeHandlers > 0 && h.id !in queue.producers
      requires |body| <= DEFAULT_MAX_PAYLOAD
      modifies this`operations, this`activeHandlers, queue, h
      ensures Structure() && tasks == old(tasks)
      ensures h.id < |old(View()).runs| && old(View()).activeHandlers > 0
      ensures View() == Sent(old(View()), h.id, old(h.View()), body)
    {
      hide View, Structure, S.Responded, WriteQueue.Valid, S.ResponseFrame, Q.Enqueue, HandlerTask.View;
      ghost var s, x := View(), h.View();
      Fields();
      EntryOf(h);
      StreamOfView(h);
      var f := S.ResponseFrame(h.request.header.stream, body);
      NoteSent(h, f);
      EntryOf(h);
      var outcome := EnqueueFrame(h, f);
      EntryOf(h);
      ghost var y := x.(sent := x.sent + [f]);
      Finish(h, outcome);
      QueueCommutes(s, h.id, y, Q.Enqueue(s.queue, h.id, f).0, outcome);
    }

    method EnqueueFrame(h: HandlerTask, f: Frame) returns (outcome: Q.Outcome)
      requires Structure() && queue.Valid() && h.id !in queue.producers
      modifies queue
      ensures Structure() && queue.Valid()
      ensures outcome == Q.Enqueue(old(View()).queue, h.id, f).1
      ensures View() == old(View()).(queue := Q.Enqueue(old(View()).queue, h.id, f).0)
    {
      hide Table, RunViews, Structure, Q.Enqueue, Q.Inv;
      outcome := queue.Enqueue(h.id, f);
    }

    method ResumeEnqueue(h: HandlerTask) returns (outcome: Q.Outcome)
      requires Structure() && queue.Valid() && Q.CanResume(queue.View(), h.id)
      modifies queue
      ensures Structure() && queue.Valid()
      ensures outcome == Q.Resume(old(View()).queue, h.id).1
      ensures View() == old(View()).(queue := Q.Resume(old(View()).queue, h.id).0)
    {
      hide Table, RunViews, Structure, Q.Resume, Q.Inv;
      outcome := queue.Resume(h.id);
    }

    /** The end of the handler once enqueue has returned, or its wait for space. */
    method Finish(h: HandlerTask, outcome: Q.Outcome)
      requires Structure() && Mine(h) && queue.Valid() && activeHandlers > 0
      modifies this`operations, this`activeHandlers, queue, h
      ensures Structure() && tasks == old(tasks)
      ensures h.id < |old(View()).runs| && old(View()).activeHandlers > 0
      ensures View() == S.Responded(old(View()), h.id, old(h.View()), outcome)
    {
      hide View, Structure, S.FinishHandler, WriteQueue.Valid, HandlerTask.View;
      Fields();
      EntryOf(h);
      if outcome.Blocked? {
        MoveTo(h, S.Responding);
      } else {
        FinishHandler(h);
      }
    }

    /** A handler whose wait for space has ended. */
    method HandlerResumes(h: HandlerTask)
      requires Valid() && Mine(h) && Q.CanResume(queue.View(), h.id)
      modifies this`operations, this`activeHandlers, queue, h
      ensures Valid() && tasks == old(tasks) && Live(old(View()), h.id)
      ensures Q.CanResume(old(View()).queue, h.id) && View() == S.HandlerResumes(old(View()), h.id)
    {
      hide I.Inv, Valid, View, Structure, S.Responded, WriteQueue.Valid, Q.Resume, Q.CanResume, HandlerTask.View;
      ghost var s, x := View(), h.View();
      ValidView();
      EntryOf(h);
      QueueValid();
      WaitingHandler(s, h.id);
      I.HandlerResumesInv(s, h.id);
      Fields();
      var outcome := ResumeEnqueue(h);
      EntryOf(h);
      Fields();
      Finish(h, outcome);
      ViewIsValid();
    }

    /** The application's handler threw: the run is over and nothing is sent. */
    method HandlerThrew(h: HandlerTask)
      requires Valid() && Mine(h) && h.phase.Running?
      modifies this`operations, this`activeHandlers, queue, h
      ensures Valid() && tasks == old(tasks) && Live(old(View()), h.id)
      ensures View() == S.FinishHandler(old(View()), h.id, old(View()).runs[h.id])
    {
      hide I.Inv, Valid, View, Structure, S.FinishHandler, WriteQueue.Valid, HandlerTask.View;
      ghost var s := View();
      ValidView();
      EntryOf(h);
      PhaseOfView(h);
      LiveHandler(s, h.id);
      I.HandlerThrewInv(s, h.id);
      QueueValid();
      Fields();
      FinishHandler(h);
      ViewIsValid();
    }

    lemma PhaseOfView(h: HandlerTask)
      ensures h.View().phase == h.phase
    {
    }

    lemma StreamOfView(h: HandlerTask)
      ensures h.View().stream == h.request.header.stream
    {
    }

    lemma NotWaiting(h: HandlerTask)
      requires Valid() && Mine(h) && h.phase.Running?
      ensures h.id !in queue.producers
    {
      EntryOf(h);
      hide S.TableOk, I.RunOk, Q.Inv;
    }

    // ----- Incoming frames -----

    /** dispatch: one incoming frame, from a correct peer or not. */
    method Dispatch(f: Frame)
      requires Valid() && reading && f.header.stream != 0
      modifies this`operations, this`activeHandlers, this`terminalStreams, this`transportOpen, this`tasks, this`issued
      modifies queue, Ops()
      ensures Valid() && I.Inv(old(View())) && View() == S.Dispatch(old(View()), f)
      ensures old(tasks) <= tasks && forall i :: |old(tasks)| <= i < |tasks| ==> fresh(tasks[i].operation)
    {
      hide I.Inv, Valid, View, Structure, WriteQueue.Valid, S.TableOk, S.SendError, S.MarkTerminal, HasFlag, Cancel,
        S.Accept, HandlerTask.View;
      ghost var s := View();
      var stream := f.header.stream;
      ValidView();
      InvTable(s);
      QueueValid();
      Fields();
      I.DispatchInv(s, f);
      if ShuttingDown(state) {
        SendError(stream, ConnectionClosed);
        MarkTerminal(f);
      } else if f.header.kind != REQUEST || stream in terminalStreams {
        CloseTransport();
      } else if HasFlag(f.header.flags, CANCEL) {
        if stream in operations {
          Filed(stream);
          var h := operations[stream];
          EntryOf(h);
          CancelOperation(h);
          MarkTerminal(f);
        } else {
          CloseTransport();
        }
      } else {
        Accept(f);
      }
      ViewIsValid();
    }

    /** The rest of dispatch, for a request that is not a cancellation. */
    method Accept(f: Frame)
      requires Structure() && queue.Valid()
      modifies this`operations, this`activeHandlers, this`terminalStreams, this`transportOpen, this`tasks, this`issued
      modifies queue
      ensures Structure() && View() == S.Accept(old(View()), f)
      ensures old(tasks) <= tasks && forall i :: |old(tasks)| <= i < |tasks| ==> fresh(tasks[i].operation)
    {
      hide View, Structure, WriteQueue.Valid, S.SendError, S.MarkTerminal, M.PeekMessageType, HandlerTask.View;
      Fields();
      var messageType := M.PeekMessageType(f.payload);
      if messageType.None? {
        SendError(f.header.stream, DecodeError);
        MarkTerminal(f);
      } else if messageType.value !in handlers {
        SendError(f.header.stream, UnknownMessageType);
        MarkTerminal(f);
      } else if f.header.stream in operations {
        CloseTransport();
      } else {
        var h := NewTask(f);
        File(f.header.stream, h);
        CountUp();
      }
    }

    /** Only handler h is new. */
    twostate lemma Extended(new h: HandlerTask)
      requires tasks == old(tasks) + [h]
      requires forall i :: 0 <= i < |old(tasks)| ==> tasks[i].View() == old(tasks[i].View())
      ensures RunViews() == old(RunViews()) + [h.View()]
    {
    }

    twostate lemma Grown(new h: HandlerTask)
      requires old(Structure()) && tasks == old(tasks) + [h] && operations == old(operations)
      requires h.id == old(issued) && issued == old(issued) + 1
      requires forall i :: 0 <= i < |old(tasks)| ==> tasks[i].operation != h.operation
      ensures Structure() && Mine(h) && h.id == |old(tasks)|
    {
    }

    twostate lemma TableWith(stream: u64, new h: HandlerTask)
      requires operations == old(operations)[stream := h]
      ensures Table() == old(Table())[stream := h.id]
    {
    }

    method NewTask(f: Frame) returns (h: HandlerTask)
      requires Structure()
      modifies this`tasks, this`issued
      ensures Structure() && tasks == old(tasks) + [h] && Mine(h) && h.id == |old(View()).runs|
      ensures fresh(h.operation)
      ensures View() == old(View()).(runs := old(View()).runs + [S.HandlerRun(f, FRESH_OP, S.Spawned, [])])
    {
      hide Table, Structure;
      h := new HandlerTask(issued, f);
      issued := issued + 1;
      tasks := tasks + [h];
      Grown(h);
      Extended(h);
    }

    method File(stream: u64, h: HandlerTask)
      requires Structure() && Mine(h)
      modifies this`operations
      ensures Structure() && View() == old(View()).(operations := old(View()).operations[stream := h.id])
    {
      hide Table, RunViews;
      operations := operations[stream := h];
      TableWith(stream, h);
    }

    method CountUp()
      requires Structure()
      modifies this`activeHandlers
      ensures Structure() && View() == old(View()).(activeHandlers := old(View()).activeHandlers + 1)
    {
      hide Table, RunViews;
      activeHandlers := activeHandlers + 1;
    }

    /** One turn of the read loop, for the bytes of one read. */
    method HandleRead(decoder: FrameDecoder, chunk: seq<u8>)
      requires Valid() && reading && decoder.Valid() && decoder.maxPayload == DEFAULT_MAX_PAYLOAD
      modifies this`operations, this`activeHandlers, this`terminalStreams, this`transportOpen, this`tasks, this`issued
      modifies queue, Ops(), decoder, decoder.headerBytes, decoder.payload
      ensures Valid() && decoder.Valid() && R.Reading(old(View()))
      ensures (View(), decoder.View()) == R.HandleRead(old(View()), old(decoder.View()), chunk)
    {
      hide Valid, View, Structure, R.Reading, FrameDecoder.View, WellFormed, Feed, R.DispatchAll, AllValid;
      IsReading();
      R.FeedValid(decoder.View(), chunk);
      var frames := decoder.Push(chunk);
      DispatchFrames(frames);
      IsReading();
      DecoderError(decoder);
      if decoder.error != NoError {
        R.AfterFramesReads(View(), decoder.error);
        CloseTransport();
        FromReading();
      }
    }

    method DispatchFrames(frames: seq<Frame>)
      requires Valid() && reading && AllValid(frames, DEFAULT_MAX_PAYLOAD)
      modifies this`operations, this`activeHandlers, this`terminalStreams, this`transportOpen, this`tasks, this`issued
      modifies queue, Ops()
      ensures Valid() && R.Reading(old(View())) && View() == R.DispatchAll(old(View()), frames)
    {
      hide Valid, View, Structure, R.Reading, S.Dispatch, IsValid, I.Inv, Ops;
      ghost var s := View();
      IsReading();
      var i, open := 0, true;
      assert frames[0..] == frames;
      while i < |frames| && open
        invariant i <= |frames| && Valid() && R.Reading(View())
        invariant R.DispatchAll(s, frames) == if open then R.DispatchAll(View(), frames[i..]) else View()
        invariant forall op :: op in Ops() ==> op in old(Ops()) || fresh(op)
      {
        assert frames[i..][1..] == frames[i + 1..];
        NonZero(frames[i]);
        R.DispatchReads(View(), frames[i]);
        label before:
        Dispatch(frames[i]);
        NewOps@before();
        Fields();
        i, open := i + 1, transportOpen;
      }
    }

    /** Operations are those of before or of handlers started since. */
    twostate lemma NewOps()
      requires old(tasks) <= tasks && forall i :: |old(tasks)| <= i < |tasks| ==> fresh(tasks[i].operation)
      ensures forall op :: op in Ops() ==> op in old(Ops()) || fresh(op)
    {
      forall op | op in Ops()
        ensures op in old(Ops()) || fresh(op)
      {
        var i :| 0 <= i < |tasks| && tasks[i].operation == op;
        if i < |old(tasks)| {
          assert old(tasks[i].operation) == op;
        }
      }
    }

    lemma IsReading()
      requires Valid() && reading
      ensures Structure() && R.Reading(View())
    {
      hide I.Inv;
    }

    lemma FromReading()
      requires Structure() && R.Reading(View())
      ensures Valid()
    {
      hide I.Inv;
    }

    // ----- Ends of the connection -----

    /** fail_operations_on_connection_close: every operation in the table, each once. */
    method FailOperations()
      requires Valid()
      modifies Ops()
      ensures Valid() && View() == S.FailOperations(old(View()))
    {
      hide I.Inv, Valid, View, Structure, S.TableOk, FailThese, S.FailOperations, S.FailOp;
      ghost var s := View();
      ValidView();
      InvTable(s);
      I.FailOperationsInv(s);
      Fields();
      var rest := operations.Keys;
      FailAll(s);
      while rest != {}
        invariant Structure() && rest <= operations.Keys
        invariant View().operations == s.operations && S.TableOk(View().runs, View().operations)
        invariant FailThese(View(), rest) == S.FailOperations(s)
      {
        var stream :| stream in rest;
        Filed(stream);
        ghost var s1 := View();
        var h := operations[stream];
        EntryOf(h);
        LoseOperation(h);
        FailStep(s1, stream, rest);
        rest := rest - {stream};
      }
      FailNone(View());
      ViewIsValid();
    }

    method StopReading()
      requires Structure()
      modifies this`reading
      ensures Structure() && View() == old(View()).(reading := false)
    {
      hide Table, RunViews;
      reading := false;
    }

    /** The end of the read loop. */
    method EndReading(lost: bool)
      requires Valid() && started && reading
      modifies this`reading, this`state, queue, Ops()
      ensures Valid() && View() == S.EndReading(old(View()), lost)
    {
      hide I.Inv, Valid, Structure, Table, RunViews, S.FailOperations, WriteQueue.Valid, Q.CloseQueue;
      ghost var s := View();
      ValidView();
      I.EndReadingInv(s, lost);
      if lost {
        FailOperations();
        ValidView();
      }
      QueueValid();
      hide View;
      StopReading();
      CloseQueueWhenIdle();
      MoveState(Closed);
      ViewIsValid();
    }

    ghost method NoteShutdown()
      requires Structure()
      modifies this`shutdownDone
      ensures Structure() && View() == old(View()).(shutdownDone := true)
    {
      hide Table, RunViews;
      shutdownDone := true;
    }

    /** shutdown after its drain loop. */
    method EndShutdown()
      requires Valid() && (state.Draining? || state.Closed?)
      modifies this`transportOpen, this`state, this`shutdownDone, Ops()
      ensures Valid() && View() == S.EndShutdown(old(View()))
    {
      hide I.Inv, Valid, Structure, Table, RunViews, S.FailOperations;
      ValidView();
      I.EndShutdownInv(View());
      if activeHandlers != 0 {
        FailOperations();
        ValidView();
      }
      hide View;
      CloseTransport();
      MoveState(Closed);
      NoteShutdown();
      ViewIsValid();
    }

    /** begin_shutdown, through the intermediate states of the lifecycle table. */
    method BeginShutdown()
      requires Valid()
      modifies this`state
      ensures Valid() && View() == S.BeginShutdown(old(View()))
    {
      hide I.Inv, Valid, Structure, Table, RunViews;
      ValidView();
      I.StartRunningInv(View());
      if state.Created? {
        MoveState(Accepting);
        MoveState(Active);
      }
      if state.Active? {
        MoveState(Draining);
      }
      ViewIsValid();
    }

    /** run(), up to its start of the write loop and the read loop. */
    method Run()
      requires Valid() && !started
      modifies this`state, this`started
      ensures Valid() && View() == S.StartRunning(old(View()))
    {
      hide I.Inv, Valid, Structure, Table, RunViews;
      ValidView();
      I.StartRunningInv(View());
      if state.Created? {
        MoveState(Accepting);
        MoveState(Active);
      }
      StartLoops();
      ViewIsValid();
    }

    method StartLoops()
      requires Structure()
      modifies this`started
      ensures Structure() && View() == old(View()).(started := true)
    {
      hide Table, RunViews;
      started := true;
    }

    // ----- The write queue's run() -----

    /** Run() asks its queue for the next frame. */
    method WriterReceives()
      requires Valid() && started && queue.running.Ready?
      modifies queue
      ensures Valid() && Q.Enabled(old(View()).queue, Q.WriterReceives)
      ensures View() == S.WriteStep(old(View()), Q.WriterReceives)
    {
      hide Table, RunViews, Structure, Valid, I.Inv, Q.Apply, Q.Enabled, Q.Inv, WriteQueue.View;
      ghost var before := View();
      ValidView();
      QueueValid();
      queue.RunReceive();
      assert View() == S.WriteStep(before, Q.WriterReceives);
      I.WriterStepInv(before, Q.WriterReceives);
      ViewIsValid();
    }

    /** It takes a frame and hands its bytes to the transport. */
    method WriterTakes() returns (bytes: seq<u8>)
      requires Valid() && started && queue.running.HandOff?
      modifies queue
      ensures bytes == EncodeFrame(old(queue.running).frame)
      ensures Valid() && Q.Enabled(old(View()).queue, Q.WriterTakes)
      ensures View() == S.WriteStep(old(View()), Q.WriterTakes)
    {
      hide Table, RunViews, Structure, Valid, I.Inv, Q.Apply, Q.Enabled, Q.Inv, WriteQueue.View;
      ghost var before := View();
      ValidView();
      QueueValid();
      bytes := queue.RunTake();
      assert View() == S.WriteStep(before, Q.WriterTakes);
      I.WriterStepInv(before, Q.WriterTakes);
      ViewIsValid();
    }

    method WriteSucceeds()
      requires Valid() && started && queue.running.Writing?
      modifies queue
      ensures Valid() && Q.Enabled(old(View()).queue, Q.WriteSucceeds)
      ensures View() == S.WriteStep(old(View()), Q.WriteSucceeds)
    {
      hide Table, RunViews, Structure, Valid, I.Inv, Q.Apply, Q.Enabled, Q.Inv, WriteQueue.View;
      ghost var before := View();
      ValidView();
      QueueValid();
      queue.WriteCompleted();
      assert View() == S.WriteStep(before, Q.WriteSucceeds);
      I.WriterStepInv(before, Q.WriteSucceeds);
      ViewIsValid();
    }

    /** The transport took n bytes and failed: queue and transport are closed. */
    method WriteFails(n: nat)
      requires Valid() && started && queue.running.Writing? && n <= |EncodeFrame(queue.running.frame)|
      modifies queue, this`transportOpen
      ensures Valid() && Q.Enabled(old(View()).queue, Q.WriteFails(n))
      ensures View() == S.WriteStep(old(View()), Q.WriteFails(n))
    {
      hide Table, RunViews, Structure, Valid, I.Inv, Q.Apply, Q.Enabled, Q.Inv, WriteQueue.View;
      ghost var before := View();
      ValidView();
      QueueValid();
      queue.WriteFailed(n);
      transportOpen := false;
      assert View() == S.WriteStep(before, Q.WriteFails(n));
      I.WriterStepInv(before, Q.WriteFails(n));
      ViewIsValid();
    }

    method WriterEnds()
      requires Valid() && started && queue.running.Ending?
      modifies queue
      ensures Valid() && Q.Enabled(old(View()).queue, Q.WriterEnds)
      ensures View() == S.WriteStep(old(View()), Q.WriterEnds)
    {
      hide Table, RunViews, Structure, Valid, I.Inv, Q.Apply, Q.Enabled, Q.Inv, WriteQueue.View;
      ghost var before := View();
      ValidView();
      QueueValid();
      queue.RunEnd();
      assert View() == S.WriteStep(before, Q.WriterEnds);
      I.WriterStepInv(before, Q.WriterEnds);
      ViewIsValid();
    }
  }

  lemma NonZero(f: Frame)
    requires IsValid(f, DEFAULT_MAX_PAYLOAD)
    ensures f.header.stream != 0
  {
  }

  lemma InvTable(s: S.Server)
    requires I.Inv(s)
    ensures S.TableOk(s.runs, s.operations)
  {
  }

  /** The operations of some of the table's streams fail. */
  function FailThese(s: S.Server, streams: set<u64>): S.Server {
    s.(runs := seq(|s.runs|, h requires 0 <= h < |s.runs| =>
         if S.InTable(s, h) && s.runs[h].stream in streams then s.runs[h].(op := S.FailOp(s.runs[h].op)) else s.runs[h]))
  }

  lemma FailAll(s: S.Server)
    ensures FailThese(s, s.operations.Keys) == S.FailOperations(s)
  {
    hide S.FailOp;
    assert FailThese(s, s.operations.Keys).runs == S.FailOperations(s).runs;
  }

  lemma FailNone(s: S.Server)
    ensures FailThese(s, {}) == s
  {
    hide S.FailOp;
    assert FailThese(s, {}).runs == s.runs;
  }

  /** Failing one operation first does not change what failing all of them does. */
  lemma FailStep(s: S.Server, t: u64, streams: set<u64>)
    requires S.TableOk(s.runs, s.operations) && t in s.operations && t in streams
    ensures var h := s.operations[t];
            var s' := s.(runs := s.runs[h := s.runs[h].(op := S.FailOp(s.runs[h].op))]);
            S.TableOk(s'.runs, s'.operations) && FailThese(s', streams - {t}) == FailThese(s, streams)
  {
    hide S.FailOp;
    var h := s.operations[t];
    var s' := s.(runs := s.runs[h := s.runs[h].(op := S.FailOp(s.runs[h].op))]);
    assert FailThese(s', streams - {t}).runs == FailThese(s, streams).runs;
  }

  /** Handler h is one the connection counts. */
  predicate Live(s: S.Server, h: nat) {
    h < |s.runs| && s.activeHandlers > 0
  }

  lemma LiveHandler(s: S.Server, h: nat)
    requires I.Inv(s) && h < |s.runs| && !s.runs[h].phase.Finished?
    ensures Live(s, h)
  {
    I.LiveCount(s, h);
  }

  lemma WaitingHandler(s: S.Server, h: nat)
    requires I.Inv(s) && h < |s.runs| && Q.CanResume(s.queue, h)
    ensures Live(s, h)
  {
    hide I.RunOk, Q.Inv, S.TableOk;
    assert s.runs[h].phase.Responding?;
    I.LiveCount(s, h);
  }

  /** The error frame does not depend on the handler's own entry. */
  lemma ErrorCommutes(s: S.Server, h: nat, y: S.HandlerRun, stream: u64, status: StatusCode)
    requires h < |s.runs|
    ensures var t := S.SendError(s, stream, status);
            && t.runs == s.runs && t.activeHandlers == s.activeHandlers
            && S.SendError(s.(runs := s.runs[h := y]), stream, status) == t.(runs := s.runs[h := y])
  {
    hide Q.TryEnqueue, ErrorFrame;
  }

  lemma FinishReplaces(s: S.Server, h: nat, y: S.HandlerRun)
    requires h < |s.runs| && s.activeHandlers > 0
    ensures S.FinishHandler(s.(runs := s.runs[h := y]), h, y) == S.FinishHandler(s, h, y)
  {
    hide Q.CloseQueue;
  }

  /** SendResponse on values: the frame noted, then offered. */
  function Sent(s: S.Server, h: nat, x: S.HandlerRun, body: seq<u8>): S.Server
    requires h < |s.runs| && s.activeHandlers > 0 && |body| <= DEFAULT_MAX_PAYLOAD
  {
    var f := S.ResponseFrame(x.stream, body);
    var (queue, outcome) := Q.Enqueue(s.queue, h, f);
    S.Responded(s.(queue := queue), h, x.(sent := x.sent + [f]), outcome)
  }

  lemma QueueCommutes(s: S.Server, h: nat, y: S.HandlerRun, queue: Q.Queue, outcome: Q.Outcome)
    requires h < |s.runs| && s.activeHandlers > 0
    ensures S.Responded(s.(runs := s.runs[h := y], queue := queue), h, y, outcome)
            == S.Responded(s.(queue := queue), h, y, outcome)
  {
    hide Q.CloseQueue;
  }

  lemma RespondedReplaces(s: S.Server, h: nat, y: S.HandlerRun, body: seq<u8>)
    requires h < |s.runs| && s.activeHandlers > 0 && |body| <= DEFAULT_MAX_PAYLOAD
    ensures Sent(s.(runs := s.runs[h := y]), h, y, body) == Sent(s, h, y, body)
  {
    hide S.Responded, Q.Enqueue, S.ResponseFrame;
    var f := S.ResponseFrame(y.stream, body);
    var (queue, outcome) := Q.Enqueue(s.queue, h, f);
    var z := y.(sent := y.sent + [f]);
    QueueCommutes(s, h, z, queue, outcome);
    QueueCommutes(s.(runs := s.runs[h := y]), h, z, queue, outcome);
    assert s.runs[h := y][h := z] == s.runs[h := z];
  }
}
