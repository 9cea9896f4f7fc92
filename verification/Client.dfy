/** One client connection as a step system: pending requests, their handles and timers, the stream
    identifier allocator and the write queue. A request is named by its index, which stands for the
    identity of the shared object that the table, the handle and the timer point to. */
module Clients {
  import opened Bytes
  import opened Frames
  import opened Channels
  import opened StreamIds
  import opened Operations
  import Q = WriteQueues

  datatype Waiter = Waiter

  datatype WaitResult = Response(frame: Frame) | Failure(status: StatusCode) | NoResult

  /** Where the caller is: suspended in start_request, holding a handle, suspended in async_wait,
      resumed from it, returned from it, handle destroyed (and with it a caller suspended in
      async_wait), or refused by start_request. */
  datatype Phase =
    | Sending
    | Held
    | Awaiting
    | Resuming(outcome: ReceiveOutcome<Frame>)
    | Returned(result: WaitResult)
    | Dropped
    | NotStarted
  {
    predicate HasHandle() {
      Held? || Awaiting? || Resuming? || Returned?
    }
  }

  datatype Request = Request(
    stream: u64,
    op: Op,
    channel: Channel<Frame, Waiter>,
    removed: bool,
    released: bool,
    phase: Phase,
    delivered: seq<Frame>)  // every frame ever put on the channel

  /** A frame handed to the write queue on behalf of a request. */
  datatype Offer = Offer(request: nat, frame: Frame)

  datatype Client = Client(
    requests: seq<Request>,
    pending: map<u64, nat>,
    terminal: set<u64>,
    ids: Allocator,
    leaked: set<u64>,       // allocated for a request that could not be encoded
    queue: Q.Queue,
    offers: seq<Offer>,
    state: ConnectionState,
    transportOpen: bool,
    started: bool,
    reading: bool)

  function Create(limits: Q.Limits, maximumStreamId: u64): Client {
    Client([], map[], {}, Fresh(ClientSide, maximumStreamId), {}, Q.Create(limits), [],
           Created, true, false, false)
  }

  /** encode_message's frame for a request: default flags, current version, exact length. */
  function RequestFrame(stream: u64, body: seq<u8>): (f: Frame)
    requires |body| <= DEFAULT_MAX_PAYLOAD
    ensures stream != 0 ==> LegalFor(f, REQUEST)
    ensures !HasFlag(f.header.flags, CANCEL) && f.header.stream == stream
  {
    Frame(FrameHeader(CURRENT_VERSION, REQUEST, NO_FLAGS, stream, |body|), body)
  }

  /** Closing a response channel resumes a suspended async_wait with an error. */
  function CloseChannel(x: Request): Request {
    x.(channel := Close(x.channel),
       phase := if x.channel.waiters != [] then Resuming(EndOfChannel) else x.phase)
  }

  /** try_send of a response. */
  function Deliver(x: Request, f: Frame): Request {
    var (channel, outcome) := TrySend(x.channel, f);
    x.(channel := channel,
       delivered := if outcome.NotSent? then x.delivered else x.delivered + [f],
       phase := if outcome.Handed? then Resuming(Received(f)) else x.phase)
  }

  /** cleanup_pending, for request r whose other fields are now those of x. */
  function Cleanup(c: Client, r: nat, x: Request, release: bool): Client
    requires r < |c.requests|
  {
    c.(requests := c.requests[r := x.(removed := true, released := x.released || release)],
       pending := if !x.removed && x.stream in c.pending && c.pending[x.stream] == r
                  then c.pending - {x.stream} else c.pending,
       ids := if release && !x.released then Release(c.ids, x.stream) else c.ids)
  }

  function SendCancellation(c: Client, r: nat): Client
    requires r < |c.requests|
  {
    var f := CancelFrame(c.requests[r].stream);
    c.(queue := Q.TryEnqueue(c.queue, f).0, offers := c.offers + [Offer(r, f)])
  }

  function CancelPending(c: Client, r: nat): (Client, bool)
    requires r < |c.requests|
  {
    var x := c.requests[r];
    var (op, ok) := Cancel(x.op);
    if !ok then (c, false)
    else (Cleanup(SendCancellation(c, r), r, CloseChannel(x.(op := op)), false), true)
  }

  function TimeoutPending(c: Client, r: nat): Client
    requires r < |c.requests|
  {
    var x := c.requests[r];
    var (op, ok) := Timeout(x.op);
    if !ok then c else Cleanup(SendCancellation(c, r), r, CloseChannel(x.(op := op)), false)
  }

  function DiscardPending(c: Client, r: nat): Client
    requires r < |c.requests|
  {
    var x := c.requests[r];
    if x.op.Terminal() then Cleanup(c, r, x, true)
    else Cleanup(SendCancellation(c, r), r, CloseChannel(x.(op := Cancel(x.op).0)), true)
  }

  predicate InTable(c: Client, r: nat)
    requires r < |c.requests|
  {
    c.requests[r].stream in c.pending && c.pending[c.requests[r].stream] == r
  }

  function FailOne(x: Request, status: StatusCode): Request {
    CloseChannel(x.(op := Fail(x.op, status).0)).(removed := true)
  }

  /** fail_pending: every request in the table fails and the table is empty; no id is released. */
  function FailPending(c: Client, status: StatusCode): Client {
    c.(requests := seq(|c.requests|, r requires 0 <= r < |c.requests| =>
         if InTable(c, r) then FailOne(c.requests[r], status) else c.requests[r]),
       pending := map[])
  }

  function FailConnection(c: Client, status: StatusCode): Client {
    FailPending(c, status).(transportOpen := false)
  }

  function MarkTerminal(c: Client, f: Frame): Client {
    if HasFlag(f.header.flags, END_OF_STREAM) then c.(terminal := c.terminal + {f.header.stream}) else c
  }

  predicate TableOk(requests: seq<Request>, pending: map<u64, nat>) {
    && (forall s :: s in pending ==>
          && pending[s] < |requests| && requests[pending[s]].stream == s && !requests[pending[s]].removed)
    && (forall r :: 0 <= r < |requests| && !requests[r].removed ==>
          requests[r].stream in pending && pending[requests[r].stream] == r)
  }

  /** dispatch: what one incoming frame does. */
  function Dispatch(c: Client, f: Frame): Client
    requires TableOk(c.requests, c.pending)
  {
    var s := f.header.stream;
    if f.header.kind != RESPONSE then FailConnection(c, MalformedFrame)
    else if s !in c.pending then FailConnection(c, UnknownStream)
    else if s in c.terminal then FailConnection(c, MalformedFrame)
    else DispatchTo(c, c.pending[s], f)
  }

  /** The rest of dispatch, for the request that the frame's stream leads to. */
  function DispatchTo(c: Client, r: nat, f: Frame): Client
    requires r < |c.requests|
  {
    var x := c.requests[r];
    if HasFlag(f.header.flags, CANCEL) then MarkTerminal(CancelPending(c, r).0, f)
    else if HasFlag(f.header.flags, ERROR) then
      var status := DecodeErrorStatus(f);
      if status.None? then FailConnection(c, MalformedFrame)
      else MarkTerminal(Cleanup(c, r, CloseChannel(x.(op := Fail(x.op, status.value).0)), true), f)
    else
      var (op, ok) := Complete(x.op);
      if !ok then FailConnection(c, MalformedFrame)
      else MarkTerminal(Cleanup(c, r, Deliver(x.(op := op), f), true), f)
  }

  /** The rest of start_request once enqueue has returned, or nothing while it is suspended. */
  function FinishStart(c: Client, r: nat, outcome: Q.Outcome): Client
    requires r < |c.requests|
  {
    var x := c.requests[r];
    match outcome
    case Blocked => c
    case Accepted => c.(requests := c.requests[r := x.(phase := Held)])
    case Rejected =>
      Cleanup(c, r, CloseChannel(x.(op := Fail(x.op, ResourceLimitExceeded).0)).(phase := NotStarted), true)
  }

  /** start_request up to its first suspension; body is the encoded message, if encoding succeeded. */
  ghost function StartRequest(c: Client, body: Option<seq<u8>>): Client
    requires body.Some? ==> |body.value| <= DEFAULT_MAX_PAYLOAD
  {
    if ShuttingDown(c.state) then c
    else
      var (ids, allocation) := Allocate(c.ids);
      if allocation.None? then c.(ids := ids)
      else if body.None? then c.(ids := ids, leaked := c.leaked + {allocation.value})
      else SendRequest(c.(ids := ids), allocation.value, body.value)
  }

  function SendRequest(c: Client, s: u64, body: seq<u8>): Client
    requires |body| <= DEFAULT_MAX_PAYLOAD
  {
    var r := |c.requests|;
    var f := RequestFrame(s, body);
    var (queue, outcome) := Q.Enqueue(c.queue, r, f);
    FinishStart(c.(requests := c.requests + [Request(s, FRESH_OP, Open(1), false, false, Sending, [])],
                   pending := if s in c.pending then c.pending else c.pending[s := r],
                   offers := c.offers + [Offer(r, f)],
                   queue := queue), r, outcome)
  }

  function ResumeStart(c: Client, r: nat): Client
    requires r < |c.requests| && Q.CanResume(c.queue, r)
  {
    var (queue, outcome) := Q.Resume(c.queue, r);
    FinishStart(c.(queue := queue), r, outcome)
  }

  /** async_wait up to its suspension. */
  function BeginWait(c: Client, r: nat): Client
    requires r < |c.requests|
  {
    var x := c.requests[r];
    var (channel, outcome) := Receive(x.channel, Waiter);
    c.(requests := c.requests[r := x.(channel := channel,
                                      phase := if outcome.Suspends? then Awaiting else Resuming(outcome))])
  }

  /** What async_wait returns once its receive has completed. */
  function WaitReturns(x: Request): WaitResult
    requires x.phase.Resuming?
  {
    match x.phase.outcome
    case Received(f) => Response(f)
    case _ => match x.op.result case Some(status) => Failure(status) case None => NoResult
  }

  function EndWait(c: Client, r: nat): Client
    requires r < |c.requests| && c.requests[r].phase.Resuming?
  {
    var x := c.requests[r];
    Cleanup(c, r, x.(phase := Returned(WaitReturns(x))), true)
  }

  /** The handle's destructor. */
  function DropHandle(c: Client, r: nat): Client
    requires r < |c.requests|
  {
    var c' := DiscardPending(c, r);
    c'.(requests := c'.requests[r := c'.requests[r].(phase := Dropped)])
  }

  /** run() up to its two loops. */
  function StartRunning(c: Client): Client {
    c.(started := true, reading := true, state := if c.state.Created? then Active else c.state)
  }

  function BeginShutdown(c: Client): Client {
    if c.state.Created? || c.state.Active? then c.(state := Draining) else c
  }

  function EndShutdown(c: Client): Client {
    FailPending(c, ConnectionClosed).(transportOpen := false, state := Transition(c.state, Closed))
  }

  function EndReading(c: Client): Client {
    FailPending(c, ConnectionClosed).(
      queue := Q.CloseQueue(c.queue), state := Transition(c.state, Closed), reading := false)
  }

  /** One step of the write queue's run(); a failed write closes the transport. */
  function WriteStep(c: Client, step: Q.Event): Client
    requires Q.Enabled(c.queue, step)
  {
    c.(queue := Q.Apply(c.queue, step), transportOpen := c.transportOpen && !step.WriteFails?)
  }

  function StatusForValidation(e: FrameValidationError): StatusCode {
    if e.UnsupportedVersion? then UnsupportedVersionStatus else MalformedFrame
  }

  datatype Event =
    | Start(body: Option<seq<u8>>)
    | StartResumes(request: nat)
    | Run
    | FrameArrives(frame: Frame)
    | DecoderFails(error: FrameValidationError)
    | ReadingEnds
    | ShutdownBegins
    | ShutdownEnds
    | CancelCalled(request: nat)
    | DeadlineExpires(request: nat)
    | HandleDestroyed(request: nat)
    | WaitCalled(request: nat)
    | WaitResumes(request: nat)
    | WriterStep(step: Q.Event)

  /** When a step may be taken. A deadline may expire whenever the request has ever had a handle, even
      long after the request has ended and its identifier has been given to another. */
  predicate Enabled(c: Client, e: Event) {
    match e
    case Start(body) => body.Some? ==> |body.value| <= DEFAULT_MAX_PAYLOAD
    case StartResumes(r) => r < |c.requests| && Q.CanResume(c.queue, r)
    case Run => !c.started
    case FrameArrives(_) => c.reading
    case DecoderFails(e) => c.reading && e != NoError
    case ReadingEnds => c.reading
    case ShutdownBegins => true
    case ShutdownEnds => c.state.Draining? || c.state.Closed?
    case CancelCalled(r) => r < |c.requests| && c.requests[r].phase.HasHandle()
    case DeadlineExpires(r) => r < |c.requests| && (c.requests[r].phase.HasHandle() || c.requests[r].phase.Dropped?)
    case HandleDestroyed(r) => r < |c.requests| && c.requests[r].phase.HasHandle()
    case WaitCalled(r) => r < |c.requests| && c.requests[r].phase.Held?
    case WaitResumes(r) => r < |c.requests| && c.requests[r].phase.Resuming?
    case WriterStep(step) =>
      c.started && Q.Enabled(c.queue, step) && step.Internal() && !step.ProducerResumes?
  }

  ghost function Apply(c: Client, e: Event): Client
    requires TableOk(c.requests, c.pending) && Enabled(c, e)
  {
    match e
    case Start(body) => StartRequest(c, body)
    case StartResumes(r) => ResumeStart(c, r)
    case Run => StartRunning(c)
    case FrameArrives(f) => Dispatch(c, f)
    case DecoderFails(error) => FailConnection(c, StatusForValidation(error))
    case ReadingEnds => EndReading(c)
    case ShutdownBegins => BeginShutdown(c)
    case ShutdownEnds => EndShutdown(c)
    case CancelCalled(r) => CancelPending(c, r).0
    case DeadlineExpires(r) => TimeoutPending(c, r)
    case HandleDestroyed(r) => DropHandle(c, r)
    case WaitCalled(r) => BeginWait(c, r)
    case WaitResumes(r) => EndWait(c, r)
    case WriterStep(step) => WriteStep(c, step)
  }
}
