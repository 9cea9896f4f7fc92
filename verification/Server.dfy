/** One server connection as a step system: the operation table, the handler coroutines, and a write
    queue that is closed only when reading has ended and the last handler has finished. */
module Servers {
  import opened Bytes
  import opened Frames
  import opened Operations
  import Q = WriteQueues
  import M = Messages

  /** Spawned but not yet run, inside the application's handler, suspended in enqueue, or over. */
  datatype HandlerPhase = Spawned | Running | Responding | Finished

  datatype HandlerRun = HandlerRun(
    request: Frame, op: Op, phase: HandlerPhase,
    sent: seq<Frame>)         // every frame this run handed to the write queue
  {
    const stream: u64 := request.header.stream
  }

  datatype Server = Server(
    runs: seq<HandlerRun>,
    operations: map<u64, nat>,
    terminal: set<u64>,
    handlers: set<u32>,       // wire message types with a registered handler
    activeHandlers: nat,
    reading: bool,
    state: ConnectionState,
    transportOpen: bool,
    started: bool,
    shutdownDone: bool,
    queue: Q.Queue)

  function Create(limits: Q.Limits): Server {
    Server([], map[], {}, {}, 0, true, Created, true, false, false, Q.Create(limits))
  }

  /** The frame of a response: encode_message's, with end_of_stream added. */
  function ResponseFrame(stream: u64, body: seq<u8>): (f: Frame)
    requires |body| <= DEFAULT_MAX_PAYLOAD
    ensures stream != 0 ==> LegalFor(f, RESPONSE)
    ensures f.header.stream == stream && HasFlag(f.header.flags, END_OF_STREAM)
    ensures !HasFlag(f.header.flags, ERROR) && !HasFlag(f.header.flags, CANCEL)
  {
    Frame(FrameHeader(CURRENT_VERSION, RESPONSE, WithEndOfStream(NO_FLAGS), stream, |body|), body)
  }

  function SendError(s: Server, stream: u64, status: StatusCode): Server {
    s.(queue := Q.TryEnqueue(s.queue, ErrorFrame(stream, status)).0)
  }

  function MarkTerminal(s: Server, f: Frame): Server {
    if HasFlag(f.header.flags, END_OF_STREAM) then s.(terminal := s.terminal + {f.header.stream}) else s
  }

  /** close_queue_when_idle. */
  function CloseWhenIdle(s: Server): Server {
    if !s.reading && s.activeHandlers == 0 then s.(queue := Q.CloseQueue(s.queue)) else s
  }

  /** The end of run_handler, for a run whose other fields are now those of x. */
  function FinishHandler(s: Server, h: nat, x: HandlerRun): Server
    requires h < |s.runs| && s.activeHandlers > 0
  {
    CloseWhenIdle(s.(runs := s.runs[h := x.(phase := Finished)],
                     operations := s.operations - {x.stream},
                     activeHandlers := s.activeHandlers - 1))
  }

  function FailOp(op: Op): Op {
    Fail(RequestCancellation(op).0, ConnectionClosed).0
  }

  predicate InTable(s: Server, h: nat)
    requires h < |s.runs|
  {
    s.runs[h].stream in s.operations && s.operations[s.runs[h].stream] == h
  }

  /** fail_operations_on_connection_close. */
  function FailOperations(s: Server): Server {
    s.(runs := seq(|s.runs|, h requires 0 <= h < |s.runs| =>
         if InTable(s, h) then s.runs[h].(op := FailOp(s.runs[h].op)) else s.runs[h]))
  }

  predicate TableOk(runs: seq<HandlerRun>, operations: map<u64, nat>) {
    && (forall t :: t in operations ==>
          operations[t] < |runs| && runs[operations[t]].stream == t && !runs[operations[t]].phase.Finished?)
    && (forall h :: 0 <= h < |runs| && !runs[h].phase.Finished? ==>
          runs[h].stream in operations && operations[runs[h].stream] == h)
  }

  /** dispatch: what one incoming frame does. */
  function Dispatch(s: Server, f: Frame): Server
    requires TableOk(s.runs, s.operations)
  {
    var t := f.header.stream;
    if ShuttingDown(s.state) then MarkTerminal(SendError(s, t, ConnectionClosed), f)
    else if f.header.kind != REQUEST || t in s.terminal then s.(transportOpen := false)
    else if HasFlag(f.header.flags, CANCEL) then
      if t in s.operations then
        var h := s.operations[t];
        MarkTerminal(s.(runs := s.runs[h := s.runs[h].(op := Cancel(s.runs[h].op).0)]), f)
      else s.(transportOpen := false)
    else Accept(s, f)
  }

  /** The rest of dispatch, for a request that is not a cancellation. */
  function Accept(s: Server, f: Frame): Server {
    var t := f.header.stream;
    var messageType := M.PeekMessageType(f.payload);
    if messageType.None? then MarkTerminal(SendError(s, t, DecodeError), f)
    else if messageType.value !in s.handlers then MarkTerminal(SendError(s, t, UnknownMessageType), f)
    else if t in s.operations then s.(transportOpen := false)
    else
      s.(runs := s.runs + [HandlerRun(f, FRESH_OP, Spawned, [])],
         operations := s.operations[t := |s.runs|],
         activeHandlers := s.activeHandlers + 1)
  }

  /** A spawned handler starts: it decodes its request, and answers a failure with an error frame. */
  function HandlerStarts(s: Server, h: nat, failure: Option<StatusCode>): Server
    requires h < |s.runs| && s.activeHandlers > 0
  {
    var x := s.runs[h];
    match failure
    case None => s.(runs := s.runs[h := x.(phase := Running)])
    case Some(status) =>
      FinishHandler(SendError(s, x.stream, status), h,
                    x.(op := Fail(x.op, status).0, sent := x.sent + [ErrorFrame(x.stream, status)]))
  }

  /** The application's handler returned; body is the encoded response, if encoding succeeded. */
  function HandlerReturns(s: Server, h: nat, body: Option<seq<u8>>): Server
    requires h < |s.runs| && s.activeHandlers > 0
    requires body.Some? ==> |body.value| <= DEFAULT_MAX_PAYLOAD
  {
    var x := s.runs[h];
    if body.None? || !Complete(x.op).1 then FinishHandler(s, h, x)
    else
      var f := ResponseFrame(x.stream, body.value);
      var y := x.(op := Complete(x.op).0, sent := x.sent + [f]);
      var (queue, outcome) := Q.Enqueue(s.queue, h, f);
      Responded(s.(queue := queue), h, y, outcome)
  }

  function Responded(s: Server, h: nat, y: HandlerRun, outcome: Q.Outcome): Server
    requires h < |s.runs| && s.activeHandlers > 0
  {
    if outcome.Blocked? then s.(runs := s.runs[h := y.(phase := Responding)]) else FinishHandler(s, h, y)
  }

  function HandlerResumes(s: Server, h: nat): Server
    requires h < |s.runs| && s.activeHandlers > 0 && Q.CanResume(s.queue, h)
  {
    var (queue, outcome) := Q.Resume(s.queue, h);
    Responded(s.(queue := queue), h, s.runs[h], outcome)
  }

  /** handle, for a type the registry knows. */
  function Register(s: Server, messageType: u32): Server {
    s.(handlers := s.handlers + {messageType})
  }

  /** run() up to its two loops. */
  function StartRunning(s: Server): Server {
    s.(started := true, state := if s.state.Created? then Active else s.state)
  }

  function BeginShutdown(s: Server): Server {
    if s.state.Created? || s.state.Active? then s.(state := Draining) else s
  }

  function EndReading(s: Server, lost: bool): Server {
    var s1 := if lost then FailOperations(s) else s;
    CloseWhenIdle(s1.(reading := false, state := Transition(s1.state, Closed)))
  }

  function EndShutdown(s: Server): Server {
    var s1 := if s.activeHandlers != 0 then FailOperations(s) else s;
    s1.(transportOpen := false, state := Transition(s1.state, Closed), shutdownDone := true)
  }

  /** One step of the write queue's run(); a failed write closes the transport. */
  function WriteStep(s: Server, step: Q.Event): Server
    requires Q.Enabled(s.queue, step)
  {
    s.(queue := Q.Apply(s.queue, step), transportOpen := s.transportOpen && !step.WriteFails?)
  }

  datatype Event =
    | Handle(messageType: u32)
    | Run
    | FrameArrives(frame: Frame)
    | DecoderFails
    | ReadingEnds(lost: bool)
    | ShutdownBegins
    | ShutdownEnds
    | HandlerBegins(handler: nat, failure: Option<StatusCode>)
    | HandlerReturned(handler: nat, body: Option<seq<u8>>)
    | HandlerThrew(handler: nat)
    | ResponseResumes(handler: nat)
    | WriterStep(step: Q.Event)

  /** When a step may be taken. Frames come from the decoder, so they are valid. */
  predicate Enabled(s: Server, e: Event) {
    match e
    case Handle(_) => true
    case Run => !s.started
    case FrameArrives(f) => s.started && s.reading && IsValid(f, DEFAULT_MAX_PAYLOAD)
    case DecoderFails => s.started && s.reading
    case ReadingEnds(_) => s.started && s.reading
    case ShutdownBegins => true
    case ShutdownEnds => s.state.Draining? || s.state.Closed?
    case HandlerBegins(h, failure) =>
      && h < |s.runs| && s.runs[h].phase.Spawned? && s.activeHandlers > 0
      && (failure.Some? ==> !failure.value.Ok?)
    case HandlerReturned(h, body) =>
      && h < |s.runs| && s.runs[h].phase.Running? && s.activeHandlers > 0
      && (body.Some? ==> |body.value| <= DEFAULT_MAX_PAYLOAD)
    case HandlerThrew(h) => h < |s.runs| && s.runs[h].phase.Running? && s.activeHandlers > 0
    case ResponseResumes(h) => h < |s.runs| && s.activeHandlers > 0 && Q.CanResume(s.queue, h)
    case WriterStep(step) =>
      s.started && Q.Enabled(s.queue, step) && step.Internal() && !step.ProducerResumes?
  }

  function Apply(s: Server, e: Event): Server
    requires TableOk(s.runs, s.operations) && Enabled(s, e)
  {
    match e
    case Handle(t) => Register(s, t)
    case Run => StartRunning(s)
    case FrameArrives(f) => Dispatch(s, f)
    case DecoderFails => s.(transportOpen := false)
    case ReadingEnds(lost) => EndReading(s, lost)
    case ShutdownBegins => BeginShutdown(s)
    case ShutdownEnds => EndShutdown(s)
    case HandlerBegins(h, failure) => HandlerStarts(s, h, failure)
    case HandlerReturned(h, body) => HandlerReturns(s, h, body)
    case HandlerThrew(h) => FinishHandler(s, h, s.runs[h])
    case ResponseResumes(h) => HandlerResumes(s, h)
    case WriterStep(step) => WriteStep(s, step)
  }
}
