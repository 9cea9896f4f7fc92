/** The client connection object. A pending request is one heap object shared by the table, its handle
    and its timer; every method does to the heap what the step system does to its state, and the
    request's index in the step system names the object. */
module ClientObjects {
  import opened Bytes
  import opened Frames
  import opened FrameCodec
  import opened Channels
  import opened StreamIds
  import opened Operations
  import Q = WriteQueues
  import opened WriteQueueObjects
  import C = Clients
  import I = ClientInvariant
  import R = ClientReading
  import opened FrameDecoding

  class PendingRequest {
    const operation: Operation
    var channel: Channel<Frame, C.Waiter>
    var removed: bool
    var streamReleased: bool
    const id: nat  // names the coroutine that started the request
    ghost var phase: C.Phase
    ghost var delivered: seq<Frame>

    ghost function View(): C.Request
      reads this, operation
    {
      C.Request(operation.stream, operation.View(), channel, removed, streamReleased, phase, delivered)
    }

    constructor (id: nat, stream: u64)
      ensures View() == C.Request(stream, FRESH_OP, Open(1), false, false, C.Sending, [])
      ensures this.id == id && fresh(operation)
    {
      operation := new Operation(stream);
      channel := Open(1);
      removed, streamReleased := false, false;
      this.id := id;
      phase, delivered := C.Sending, [];
    }
  }

  class ClientConnection {
    const queue: WriteQueue
    const streamIds: StreamIdAllocator
    var pending: map<u64, PendingRequest>
    var terminalStreams: set<u64>
    var state: ConnectionState
    var transportOpen: bool
    var started: bool
    var reading: bool
    var issued: nat
    ghost var requests: seq<PendingRequest>  // every request ever started
    ghost var leaked: set<u64>
    ghost var offers: seq<C.Offer>

    /** Each request is one object with an operation of its own, and the table holds such objects. */
    ghost predicate Structure()
      reads this`requests, this`pending, this`issued
    {
      && issued == |requests|
      && (forall i :: 0 <= i < |requests| ==> requests[i].id == i)
      && (forall i, j :: 0 <= i < j < |requests| ==> requests[i].operation != requests[j].operation)
      && (forall s :: s in pending ==> Mine(pending[s]))
    }

    ghost predicate Mine(p: PendingRequest)
      reads this`requests
    {
      p.id < |requests| && requests[p.id] == p
    }

    ghost function Table(): map<u64, nat>
      reads this`pending
    {
      map s | s in pending :: pending[s].id
    }

    ghost function Ops(): set<Operation>
      reads this`requests
    {
      set i | 0 <= i < |requests| :: requests[i].operation
    }

    ghost function RequestViews(): (views: seq<C.Request>)
      reads this`requests, requests, Ops()
      ensures |views| == |requests|
      ensures forall i :: 0 <= i < |requests| ==> views[i] == requests[i].View()
    {
      var all, ops := requests, Ops();
      seq(|all|, i requires 0 <= i < |all| && all[i].operation in ops reads all, ops => all[i].View())
    }

    ghost function View(): C.Client
      reads this, queue, streamIds, requests, Ops()
    {
      C.Client(RequestViews(), Table(), terminalStreams, streamIds.View(), leaked, queue.View(), offers,
               state, transportOpen, started, reading)
    }

    ghost predicate Valid()
      reads this, queue, streamIds, requests, Ops()
    {
      Structure() && I.Inv(View())
    }

    constructor (limits: Q.Limits, maximumStreamId: u64)
      ensures Valid() && View() == C.Create(limits, maximumStreamId)
      ensures fresh(queue) && fresh(streamIds)
    {
      queue := new WriteQueue(limits);
      streamIds := new StreamIdAllocator(ClientSide, maximumStreamId);
      pending, terminalStreams := map[], {};
      state, transportOpen, started, reading, issued := Created, true, false, false, 0;
      requests, leaked, offers := [], {}, [];
      new;
      I.CreateInv(limits, maximumStreamId);
      assert View() == C.Create(limits, maximumStreamId);
    }

    /** Only request p changed, so only its entry in the view did. */
    twostate lemma OnlyChanged(p: PendingRequest)
      requires old(Structure()) && old(Mine(p)) && requests == old(requests)
      requires forall i :: 0 <= i < |requests| && i != p.id ==> requests[i].View() == old(requests[i].View())
      ensures RequestViews() == old(RequestViews())[p.id := p.View()]
    {
    }

    // ----- Changes to one request -----

    method CancelOperation(p: PendingRequest) returns (ok: bool)
      requires Structure() && Mine(p)
      modifies p.operation
      ensures Structure() && requests == old(requests)
      ensures var c, x := old(View()), old(p.View());
              && ok == Cancel(x.op).1
              && View() == c.(requests := c.requests[p.id := x.(op := Cancel(x.op).0)])
    {
      ok := p.operation.CancelOp();
      OnlyChanged(p);
    }

    method TimeoutOperation(p: PendingRequest) returns (ok: bool)
      requires Structure() && Mine(p)
      modifies p.operation
      ensures Structure() && requests == old(requests)
      ensures var c, x := old(View()), old(p.View());
              && ok == Timeout(x.op).1
              && View() == c.(requests := c.requests[p.id := x.(op := Timeout(x.op).0)])
    {
      ok := p.operation.TimeoutOp();
      OnlyChanged(p);
    }

    method FailOperation(p: PendingRequest, status: StatusCode) returns (ok: bool)
      requires Structure() && Mine(p)
      modifies p.operation
      ensures Structure() && requests == old(requests)
      ensures var c, x := old(View()), old(p.View());
              && ok == Fail(x.op, status).1
              && View() == c.(requests := c.requests[p.id := x.(op := Fail(x.op, status).0)])
    {
      ok := p.operation.FailOp(status);
      OnlyChanged(p);
    }

    method CompleteOperation(p: PendingRequest) returns (ok: bool)
      requires Structure() && Mine(p)
      modifies p.operation
      ensures Structure() && requests == old(requests)
      ensures var c, x := old(View()), old(p.View());
              && ok == Complete(x.op).1
              && View() == c.(requests := c.requests[p.id := x.(op := Complete(x.op).0)])
    {
      ok := p.operation.CompleteOp();
      OnlyChanged(p);
    }

    /** channel.close(). */
    method CloseResponses(p: PendingRequest)
      requires Structure() && Mine(p)
      modifies p
      ensures Structure() && requests == old(requests)
      ensures View() == old(View()).(requests := old(View()).requests[p.id := C.CloseChannel(old(p.View()))])
      ensures p.removed == old(p.removed) && p.streamReleased == old(p.streamReleased)
    {
      if p.channel.waiters != [] {
        p.phase := C.Resuming(EndOfChannel);
      }
      p.channel := Close(p.channel);
      OnlyChanged(p);
    }

    /** channel.try_send(frame). */
    method SendResponse(p: PendingRequest, f: Frame)
      requires Structure() && Mine(p)
      modifies p
      ensures Structure() && requests == old(requests)
      ensures View() == old(View()).(requests := old(View()).requests[p.id := C.Deliver(old(p.View()), f)])
    {
      var (channel, outcome) := TrySend(p.channel, f);
      p.channel := channel;
      if !outcome.NotSent? {
        p.delivered := p.delivered + [f];
      }
      if outcome.Handed? {
        p.phase := C.Resuming(Received(f));
      }
      OnlyChanged(p);
    }

    /** The caller of request p moves on. */
    ghost method MoveTo(p: PendingRequest, phase: C.Phase)
      requires Structure() && Mine(p)
      modifies p
      ensures Structure() && requests == old(requests)
      ensures View() == old(View()).(requests := old(View()).requests[p.id := old(p.View()).(phase := phase)])
      ensures p.channel == old(p.channel) && p.removed == old(p.removed) && p.streamReleased == old(p.streamReleased)
    {
      p.phase := phase;
      OnlyChanged(p);
    }

    /** The table without one stream. */
    twostate lemma TableWithout(stream: u64)
      requires pending == old(pending) - {stream}
      ensures Table() == old(Table()) - {stream}
    {
    }

    /** pending_.erase, if the stream's entry is this very request. */
    method Erase(p: PendingRequest)
      requires Structure() && Mine(p)
      modifies this`pending
      ensures Structure() && requests == old(requests)
      ensures var c, x := old(View()), p.View();
              View() == c.(pending := if x.stream in c.pending && c.pending[x.stream] == p.id
                                      then c.pending - {x.stream} else c.pending)
    {
      var stream := p.operation.stream;
      FiledUnder(p, stream);
      hide Table, RequestViews;
      if stream in pending && pending[stream] == p {
        pending := pending - {stream};
        TableWithout(stream);
      }
    }

    method MarkRemoved(p: PendingRequest)
      requires Structure() && Mine(p)
      modifies p
      ensures Structure() && requests == old(requests)
      ensures View() == old(View()).(requests := old(View()).requests[p.id := old(p.View()).(removed := true)])
      ensures p.View() == old(p.View()).(removed := true)
    {
      p.removed := true;
      OnlyChanged(p);
    }

    lemma FiledUnder(p: PendingRequest, stream: u64)
      requires Structure() && Mine(p)
      ensures stream in pending && pending[stream] == p <==> stream in Table() && Table()[stream] == p.id
    {
    }

    method ReturnStream(p: PendingRequest)
      requires Structure() && Mine(p)
      modifies streamIds, p
      ensures Structure() && requests == old(requests)
      ensures var c, x := old(View()), old(p.View());
              View() == c.(requests := c.requests[p.id := x.(released := true)],
                           ids := if x.released then c.ids else Release(c.ids, x.stream))
      ensures p.phase == old(p.phase)
    {
      hide Release;
      if !p.streamReleased {
        p.streamReleased := true;
        streamIds.ReleaseId(p.operation.stream);
      }
      OnlyChanged(p);
    }

    /** cleanup_pending: out of the table once, identifier back once. */
    method CleanupPending(p: PendingRequest, releaseStream: bool)
      requires Structure() && Mine(p)
      modifies this`pending, streamIds, p
      ensures Structure() && requests == old(requests)
      ensures View() == C.Cleanup(old(View()), p.id, old(p.View()), releaseStream)
      ensures p.phase == old(p.phase)
    {
      hide Release, Structure, View;
      EntryOf(p);
      if !p.removed {
        MarkRemoved(p);
        Erase(p);
      }
      if releaseStream {
        ReturnStream(p);
      }
    }

    method SendCancellation(p: PendingRequest)
      requires Structure() && Mine(p) && queue.Valid()
      modifies queue, this`offers
      ensures Structure() && requests == old(requests)
      ensures queue.Valid()
      ensures View() == C.SendCancellation(old(View()), p.id)
    {
      hide Q.TryEnqueue, Q.Core, Q.NoLostWakeup, CancelFrame, Table, RequestViews, Structure, WriteQueue.View;
      EntryOf(p);
      var frame := CancelFrame(p.operation.stream);
      var ok := queue.TryEnqueueFrame(frame);
      offers := offers + [C.Offer(p.id, frame)];
    }

    // ----- The ways a request ends -----

    /** The parts of validity the steps below start from. */
    lemma Parts(p: PendingRequest)
      requires Valid() && Mine(p)
      ensures queue.Valid() && I.RequestOk(p.View())
      ensures p.id < |View().requests| && View().requests[p.id] == p.View()
    {
      hide C.TableOk, I.OwnershipOk, I.OffersOk, I.RequestOk, Q.Inv;
    }

    lemma ValidView()
      requires Valid()
      ensures Structure() && I.Inv(View())
    {
    }

    lemma ViewIsValid()
      requires Structure() && I.Inv(View())
      ensures Valid()
    {
    }

    /** A request's entry in the view is the request's own view. */
    lemma EntryOf(p: PendingRequest)
      requires Structure() && Mine(p)
      ensures p.id < |View().requests| && View().requests[p.id] == p.View()
    {
    }

    /** The common tail of a cancellation, a deadline and a handle release. */
    method EndWithCancelFrame(p: PendingRequest, releaseStream: bool)
      requires Structure() && Mine(p) && queue.Valid()
      modifies this`pending, this`offers, streamIds, queue, p
      ensures Structure() && requests == old(requests)
      ensures View() == C.Cleanup(C.SendCancellation(old(View()), p.id), p.id, C.CloseChannel(old(p.View())), releaseStream)
    {
      hide C.Cleanup, View, PendingRequest.View, Structure, C.SendCancellation, C.CloseChannel, WriteQueue.Valid;
      ghost var c, x := View(), p.View();
      SendCancellation(p);
      EntryOf(p);
      ghost var c1 := View();
      CloseResponses(p);
      EntryOf(p);
      CleanupPending(p, releaseStream);
      CleanupReplaces(c1, p.id, C.CloseChannel(x), C.CloseChannel(x), releaseStream);
    }

    method CancelPending(p: PendingRequest) returns (ok: bool)
      requires Valid() && Mine(p)
      modifies this`pending, this`offers, streamIds, queue, p, p.operation
      ensures Valid() && requests == old(requests) && (View(), ok) == C.CancelPending(old(View()), p.id)
    {
      hide I.Inv, C.Cleanup, View, PendingRequest.View, Valid, Structure, C.SendCancellation, C.CloseChannel, Cancel;
      ghost var c, x := View(), p.View();
      Parts(p);
      ValidView();
      I.CancelPendingInv(c, p.id);
      ok := CancelOperation(p);
      I.RefusedOpsUnchanged(x);
      EntryOf(p);
      if !ok {
        assert c.requests[p.id := x] == c.requests;
        ViewIsValid();
        return;
      }
      ghost var c1 := View();
      EndWithCancelFrame(p, false);
      CancelCommutes(c, p.id, x.(op := Cancel(x.op).0), false);
      ViewIsValid();
    }

    /** The deadline timer's callback. */
    method TimeoutPending(p: PendingRequest)
      requires Valid() && Mine(p)
      modifies this`pending, this`offers, streamIds, queue, p, p.operation
      ensures Valid() && requests == old(requests) && View() == C.TimeoutPending(old(View()), p.id)
    {
      hide I.Inv, C.Cleanup, View, PendingRequest.View, Valid, Structure, C.SendCancellation, C.CloseChannel, Timeout;
      ghost var c, x := View(), p.View();
      Parts(p);
      ValidView();
      I.TimeoutPendingInv(c, p.id);
      var ok := TimeoutOperation(p);
      I.RefusedOpsUnchanged(x);
      EntryOf(p);
      if !ok {
        assert c.requests[p.id := x] == c.requests;
        ViewIsValid();
        return;
      }
      EndWithCancelFrame(p, false);
      CancelCommutes(c, p.id, x.(op := Timeout(x.op).0), false);
      ViewIsValid();
    }

    method DiscardPending(p: PendingRequest)
      requires Valid() && Mine(p)
      modifies this`pending, this`offers, streamIds, queue, p, p.operation
      ensures Valid() && requests == old(requests) && View() == C.DiscardPending(old(View()), p.id)
    {
      hide I.Inv, C.Cleanup, View, Valid, Structure, C.SendCancellation, C.CloseChannel, Cancel;
      ghost var c, x := View(), p.View();
      assert p.operation.IsTerminal() == x.op.Terminal();
      hide PendingRequest.View;
      Parts(p);
      ValidView();
      I.DiscardPendingInv(c, p.id);
      if p.operation.IsTerminal() {
        CleanupPending(p, true);
      } else {
        var _ := CancelOperation(p);
        EntryOf(p);
        EndWithCancelFrame(p, true);
        CancelCommutes(c, p.id, x.(op := Cancel(x.op).0), true);
      }
      ViewIsValid();
    }

    /** The handle's destructor. */
    method DropHandle(p: PendingRequest)
      requires Valid() && Mine(p) && p.phase.HasHandle()
      modifies this`pending, this`offers, streamIds, queue, p, p.operation
      ensures Valid() && requests == old(requests) && View() == C.DropHandle(old(View()), p.id)
    {
      hide I.Inv, View, Valid, Structure, C.DiscardPending;
      Parts(p);
      ValidView();
      I.DropHandleInv(View(), p.id);
      DiscardPending(p);
      ValidView();
      EntryOf(p);
      MoveTo(p, C.Dropped);
      ViewIsValid();
    }

    // ----- The ways every request ends -----

    /** fail_pending: the loop ends because each turn takes one entry out of the table. */
    method FailPending(status: StatusCode)
      requires Valid() && !status.Ok?
      modifies this`pending, streamIds, requests, Ops()
      ensures Valid() && requests == old(requests) && View() == C.FailPending(old(View()), status)
    {
      hide I.Inv, C.Cleanup, C.CloseChannel, Fail, C.FailPending, PendingRequest.View, Valid, Structure, View, C.TableOk;
      ghost var c := View();
      ValidView();
      I.FailPendingInv(c, status);
      R.InvTable(c);
      while pending != map[]
        invariant Structure() && requests == old(requests)
        invariant C.TableOk(View().requests, View().pending)
        invariant C.FailPending(View(), status) == C.FailPending(c, status)
        decreases |Table()|
      {
        var stream :| stream in pending;
        var p := pending[stream];
        Filed(stream);
        FailEntry(stream, p, status);
      }
      EmptyTable();
      NothingPending(View(), status);
      ViewIsValid();
    }

    /** One turn of fail_pending's loop. */
    method FailEntry(stream: u64, p: PendingRequest, status: StatusCode)
      requires Structure() && C.TableOk(View().requests, View().pending)
      requires stream in pending && pending[stream] == p
      modifies this`pending, streamIds, p, p.operation
      ensures Structure() && requests == old(requests)
      ensures C.TableOk(View().requests, View().pending)
      ensures C.FailPending(View(), status) == C.FailPending(old(View()), status)
      ensures |Table()| < |old(Table())|
    {
      hide C.Cleanup, C.CloseChannel, Fail, C.FailPending, PendingRequest.View, Structure, View, C.TableOk, Table;
      ghost var c, x := View(), p.View();
      Filed(stream);
      TableOfView();
      EntryOf(p);
      FailStep(c, stream, status);
      var _ := FailOperation(p, status);
      EntryOf(p);
      CloseResponses(p);
      EntryOf(p);
      ghost var y := p.View();
      assert View() == c.(requests := c.requests[p.id := y]);
      CleanupPending(p, false);
      CleanupReplaces(c, p.id, y, y, false);
      TableOfView();
    }

    lemma Filed(stream: u64)
      requires Structure() && stream in pending
      ensures Mine(pending[stream]) && pending[stream] in requests && pending[stream].operation in Ops()
      ensures stream in View().pending && View().pending[stream] == pending[stream].id
    {
    }

    lemma TableOfView()
      ensures View().pending == Table()
    {
    }

    lemma EmptyTable()
      requires pending == map[]
      ensures View().pending == map[]
    {
    }

    // ----- Changes to the connection alone -----

    method CloseTransport()
      requires Structure()
      modifies this`transportOpen
      ensures Structure() && View() == old(View()).(transportOpen := false)
    {
      hide Table, RequestViews;
      transportOpen := false;
    }

    /** lifecycle_.transition. */
    method MoveState(to: ConnectionState)
      requires Structure()
      modifies this`state
      ensures Structure() && View() == old(View()).(state := Transition(old(View()).state, to))
    {
      hide Table, RequestViews;
      if CanTransition(state, to) {
        state := to;
      }
    }

    method MarkTerminal(f: Frame)
      requires Structure()
      modifies this`terminalStreams
      ensures Structure() && View() == C.MarkTerminal(old(View()), f)
    {
      hide Table, RequestViews, HasFlag;
      if HasFlag(f.header.flags, END_OF_STREAM) {
        terminalStreams := terminalStreams + {f.header.stream};
      }
    }

    /** write_queue_.close(), as the last thing the read loop does but for its own end. */
    method StopWriting()
      requires Structure() && queue.Valid()
      modifies queue
      ensures Structure() && View() == old(View()).(queue := Q.CloseQueue(old(View()).queue))
    {
      hide Table, RequestViews, Q.CloseQueue;
      queue.CloseQueue();
    }

    method StopReading()
      requires Structure()
      modifies this`reading
      ensures Structure() && View() == old(View()).(reading := false)
    {
      hide Table, RequestViews;
      reading := false;
    }

    lemma QueueValid()
      requires Valid()
      ensures queue.Valid() && queue.View() == View().queue
    {
      hide C.TableOk, I.OwnershipOk, I.OffersOk, I.RequestOk, Q.Inv;
    }

    method FailConnection(status: StatusCode)
      requires Valid() && !status.Ok?
      modifies this`pending, this`transportOpen, streamIds, requests, Ops()
      ensures Valid() && requests == old(requests) && View() == C.FailConnection(old(View()), status)
    {
      hide I.Inv, View, Valid, Structure, C.FailPending;
      ValidView();
      I.FailConnectionInv(View(), status);
      FailPending(status);
      ValidView();
      CloseTransport();
      ViewIsValid();
    }

    /** begin_shutdown, through the intermediate states of the lifecycle table. */
    method BeginShutdown()
      requires Valid()
      modifies this`state
      ensures Valid() && View() == C.BeginShutdown(old(View()))
    {
      hide I.Inv, Valid, Structure, Table, RequestViews;
      ValidView();
      I.BeginShutdownInv(View());
      ghost var c := View();
      if state.Created? {
        MoveState(Connecting);
        MoveState(Active);
      }
      if state.Active? {
        MoveState(Draining);
      }
      assert View() == C.BeginShutdown(c);
      ViewIsValid();
    }

    /** shutdown after its drain loop. */
    method EndShutdown()
      requires Valid() && (state.Draining? || state.Closed?)
      modifies this`pending, this`transportOpen, this`state, streamIds, requests, Ops()
      ensures Valid() && requests == old(requests) && View() == C.EndShutdown(old(View()))
    {
      hide I.Inv, Valid, Structure, C.FailPending, Table, RequestViews;
      ValidView();
      I.EndShutdownInv(View());
      if pending != map[] {
        FailPending(ConnectionClosed);
        ValidView();
      } else {
        EmptyTable();
        NothingPending(View(), ConnectionClosed);
      }
      hide View;
      CloseTransport();
      MoveState(Closed);
      ViewIsValid();
    }

    /** The end of the read loop. */
    method EndReading()
      requires Valid() && reading
      modifies this`pending, this`state, this`reading, streamIds, queue, requests, Ops()
      ensures Valid() && requests == old(requests) && View() == C.EndReading(old(View()))
    {
      hide I.Inv, Valid, Structure, C.FailPending, Table, RequestViews;
      ValidView();
      I.EndReadingInv(View());
      FailPending(ConnectionClosed);
      ValidView();
      QueueValid();
      hide View;
      StopWriting();
      MoveState(Closed);
      StopReading();
      ViewIsValid();
    }

    // ----- Waiting for the response -----

    /** async_wait up to its suspension. */
    method BeginWait(p: PendingRequest)
      requires Valid() && Mine(p) && p.phase.Held?
      modifies p
      ensures Valid() && requests == old(requests) && View() == C.BeginWait(old(View()), p.id)
    {
      hide I.Inv, Valid, Structure, View;
      ValidView();
      EntryOf(p);
      I.BeginWaitInv(View(), p.id);
      StartReceive(p);
      ViewIsValid();
    }

    method StartReceive(p: PendingRequest)
      requires Structure() && Mine(p)
      modifies p
      ensures Structure() && requests == old(requests) && View() == C.BeginWait(old(View()), p.id)
    {
      var (channel, outcome) := Receive(p.channel, C.Waiter);
      p.channel := channel;
      p.phase := if outcome.Suspends? then C.Awaiting else C.Resuming(outcome);
      OnlyChanged(p);
    }

    /** async_wait once its receive has completed with a frame, or with an error if it is None. */
    method EndWait(p: PendingRequest, received: Option<Frame>) returns (result: C.WaitResult)
      requires Valid() && Mine(p) && p.phase.Resuming?
      requires received == match p.phase.outcome case Received(f) => Some(f) case _ => None
      modifies this`pending, streamIds, p
      ensures Valid() && requests == old(requests) && View() == C.EndWait(old(View()), p.id)
      ensures p.phase == C.Returned(result) && !result.NoResult?
    {
      hide I.Inv, Valid, Structure, View, C.Cleanup;
      ValidView();
      Parts(p);
      ghost var c, x := View(), p.View();
      I.EndWaitInv(c, p.id);
      match received {
        case Some(f) => result := C.Response(f);
        case None =>
          result := match p.operation.result case Some(status) => C.Failure(status) case None => C.NoResult;
      }
      assert result == C.WaitReturns(x) && !result.NoResult?;
      MoveTo(p, C.Returned(result));
      EntryOf(p);
      hide PendingRequest.View;
      CleanupPending(p, true);
      CleanupReplaces(c, p.id, x.(phase := C.Returned(result)), x.(phase := C.Returned(result)), true);
      ViewIsValid();
    }

    // ----- Incoming frames -----

    /** dispatch: one incoming frame, from a correct peer or not. */
    method Dispatch(f: Frame)
      requires Valid()
      modifies this`pending, this`offers, this`terminalStreams, this`transportOpen
      modifies streamIds, queue, requests, Ops()
      ensures Valid() && requests == old(requests) && I.Inv(old(View())) && View() == C.Dispatch(old(View()), f)
    {
      hide I.Inv, Valid, Structure, View, C.FailConnection, C.DispatchTo, C.TableOk;
      ghost var c := View();
      var stream := f.header.stream;
      ValidView();
      I.DispatchInv(c, f);
      R.InvTable(c);
      Lookup(stream);
      if f.header.kind != RESPONSE {
        FailConnection(MalformedFrame);
        return;
      }
      if stream !in pending {
        FailConnection(UnknownStream);
        return;
      }
      if stream in terminalStreams {
        FailConnection(MalformedFrame);
        return;
      }
      Filed(stream);
      DispatchTo(pending[stream], f);
      ViewIsValid();
    }

    /** The rest of dispatch, for the request the frame's stream leads to. */
    method DispatchTo(p: PendingRequest, f: Frame)
      requires Valid() && Mine(p)
      modifies this`pending, this`offers, this`terminalStreams, this`transportOpen
      modifies streamIds, queue, requests, Ops()
      ensures Structure() && requests == old(requests) && View() == C.DispatchTo(old(View()), p.id, f)
    {
      hide I.Inv, Valid, Structure, View, PendingRequest.View, C.FailConnection, C.MarkTerminal, C.CancelPending,
        C.Cleanup, C.CloseChannel, C.Deliver, Fail, HasFlag, DecodeErrorStatus, Complete;
      ghost var c := View();
      ValidView();
      EntryOf(p);
      MineIsOwn(p);
      if HasFlag(f.header.flags, CANCEL) {
        var _ := CancelPending(p);
        ValidView();
        MarkTerminal(f);
      } else if HasFlag(f.header.flags, ERROR) {
        var status := DecodeErrorStatus(f);
        if status.None? {
          FailConnection(MalformedFrame);
          ValidView();
          return;
        }
        Reject(p, status.value);
        MarkTerminal(f);
      } else {
        var ok := Respond(p, f);
        if !ok {
          ViewIsValid();
          FailConnection(MalformedFrame);
          ValidView();
          return;
        }
        MarkTerminal(f);
      }
    }

    /** The peer's error frame ends the request. */
    method Reject(p: PendingRequest, status: StatusCode)
      requires Structure() && Mine(p)
      modifies this`pending, streamIds, p, p.operation
      ensures Structure() && requests == old(requests)
      ensures var c, x := old(View()), old(p.View());
              View() == C.Cleanup(c, p.id, C.CloseChannel(x.(op := Fail(x.op, status).0)), true)
    {
      hide C.Cleanup, View, PendingRequest.View, Structure, C.CloseChannel, Fail;
      ghost var c := View();
      EntryOf(p);
      var _ := FailOperation(p, status);
      EntryOf(p);
      CloseResponses(p);
      EntryOf(p);
      ghost var y := p.View();
      assert View() == c.(requests := c.requests[p.id := y]);
      CleanupPending(p, true);
      CleanupReplaces(c, p.id, y, y, true);
    }

    /** The response ends the request, unless it has ended already. */
    method Respond(p: PendingRequest, f: Frame) returns (ok: bool)
      requires Structure() && Mine(p)
      modifies this`pending, streamIds, p, p.operation
      ensures Structure() && requests == old(requests)
      ensures var c, x := old(View()), old(p.View());
              && ok == Complete(x.op).1
              && View() == if ok then C.Cleanup(c, p.id, C.Deliver(x.(op := Complete(x.op).0), f), true) else c
    {
      hide C.Cleanup, View, PendingRequest.View, Structure, C.Deliver, Complete;
      ghost var c, x := View(), p.View();
      EntryOf(p);
      ok := CompleteOperation(p);
      if !ok {
        RefusedUnchanged(x.op);
        assert c.requests[p.id := x] == c.requests;
        return;
      }
      EntryOf(p);
      SendResponse(p, f);
      EntryOf(p);
      ghost var y := p.View();
      assert View() == c.(requests := c.requests[p.id := y]);
      CleanupPending(p, true);
      CleanupReplaces(c, p.id, y, y, true);
    }

    lemma Lookup(stream: u64)
      ensures stream in pending <==> stream in View().pending
      ensures terminalStreams == View().terminal
    {
    }

    lemma MineIsOwn(p: PendingRequest)
      requires Mine(p)
      ensures p in requests && p.operation in Ops()
    {
    }

    /** One turn of the read loop, for the bytes of one read. */
    method HandleRead(decoder: FrameDecoder, chunk: seq<u8>)
      requires Valid() && decoder.Valid() && decoder.maxPayload == DEFAULT_MAX_PAYLOAD
      modifies this`pending, this`offers, this`terminalStreams, this`transportOpen
      modifies streamIds, queue, requests, Ops(), decoder, decoder.headerBytes, decoder.payload
      ensures Valid() && decoder.Valid() && requests == old(requests) && I.Inv(old(View()))
      ensures (View(), decoder.View()) == R.HandleRead(old(View()), old(decoder.View()), chunk)
    {
      hide I.Inv, Valid, View, FrameDecoder.View, WellFormed, Feed, R.DispatchAll, C.FailConnection;
      ValidView();
      var frames := decoder.Push(chunk);
      ghost var st := decoder.View();
      DispatchFrames(frames);
      ValidView();
      DecoderError(decoder);
      if decoder.error != NoError {
        StatusNotOk(decoder.error);
        FailConnection(C.StatusForValidation(decoder.error));
        ValidView();
      }
    }

    method DispatchFrames(frames: seq<Frame>)
      requires Valid()
      modifies this`pending, this`offers, this`terminalStreams, this`transportOpen
      modifies streamIds, queue, requests, Ops()
      ensures Valid() && requests == old(requests) && I.Inv(old(View()))
      ensures View() == R.DispatchAll(old(View()), frames)
    {
      hide I.Inv, Valid, View, C.Dispatch;
      ghost var c := View();
      ValidView();
      var i, open := 0, true;
      assert frames[0..] == frames;
      while i < |frames| && open
        invariant i <= |frames| && Valid() && requests == old(requests) && I.Inv(View())
        invariant R.DispatchAll(c, frames) == if open then R.DispatchAll(View(), frames[i..]) else View()
      {
        assert frames[i..][1..] == frames[i + 1..];
        Dispatch(frames[i]);
        ValidView();
        OpenOfView();
        i, open := i + 1, transportOpen;
      }
    }

    lemma OpenOfView()
      ensures View().transportOpen == transportOpen
    {
    }

    // ----- Starting a request -----

    /** Only request p is new. */
    twostate lemma Extended(new p: PendingRequest)
      requires requests == old(requests) + [p]
      requires forall i :: 0 <= i < |old(requests)| ==> requests[i].View() == old(requests[i].View())
      ensures RequestViews() == old(RequestViews()) + [p.View()]
    {
    }

    twostate lemma Grown(new p: PendingRequest)
      requires old(Structure()) && requests == old(requests) + [p] && pending == old(pending)
      requires p.id == old(issued) && issued == old(issued) + 1
      requires forall i :: 0 <= i < |old(requests)| ==> requests[i].operation != p.operation
      ensures Structure() && Mine(p) && p.id == |old(requests)|
    {
    }

    twostate lemma TableWith(stream: u64, new p: PendingRequest)
      requires pending == old(pending)[stream := p]
      ensures Table() == old(Table())[stream := p.id]
    {
    }

    method NewRequest(stream: u64) returns (p: PendingRequest)
      requires Structure()
      modifies this`requests, this`issued
      ensures Structure() && requests == old(requests) + [p] && p.id == old(issued) == |old(View()).requests| && Mine(p)
      ensures fresh(p) && fresh(p.operation)
      ensures View() == old(View()).(requests := old(View()).requests
                          + [C.Request(stream, FRESH_OP, Open(1), false, false, C.Sending, [])])
    {
      hide Table, Structure;
      p := new PendingRequest(issued, stream);
      issued := issued + 1;
      requests := requests + [p];
      Grown(p);
      Extended(p);
    }

    /** pending_.emplace, which leaves an existing entry alone. */
    method File(stream: u64, p: PendingRequest)
      requires Structure() && Mine(p)
      modifies this`pending
      ensures Structure()
      ensures View() == old(View()).(pending := if stream in old(View()).pending then old(View()).pending
                                                else old(View()).pending[stream := p.id])
    {
      hide Table, RequestViews;
      Lookup(stream);
      if stream !in pending {
        pending := pending[stream := p];
        TableWith(stream, p);
      }
    }

    ghost method Note(offer: C.Offer)
      requires Structure()
      modifies this`offers
      ensures Structure() && View() == old(View()).(offers := old(View()).offers + [offer])
    {
      hide Table, RequestViews;
      offers := offers + [offer];
    }

    method EnqueueFrame(p: PendingRequest, f: Frame) returns (outcome: Q.Outcome)
      requires Structure() && queue.Valid() && p.id !in queue.producers
      modifies queue
      ensures Structure() && queue.Valid()
      ensures outcome == Q.Enqueue(old(View()).queue, p.id, f).1
      ensures View() == old(View()).(queue := Q.Enqueue(old(View()).queue, p.id, f).0)
    {
      hide Table, RequestViews, Structure, Q.Enqueue, Q.Inv;
      outcome := queue.Enqueue(p.id, f);
    }

    method ResumeEnqueue(p: PendingRequest) returns (outcome: Q.Outcome)
      requires Structure() && queue.Valid() && Q.CanResume(queue.View(), p.id)
      modifies queue
      ensures Structure() && queue.Valid()
      ensures outcome == Q.Resume(old(View()).queue, p.id).1
      ensures View() == old(View()).(queue := Q.Resume(old(View()).queue, p.id).0)
    {
      hide Table, RequestViews, Structure, Q.Resume, Q.Inv;
      outcome := queue.Resume(p.id);
    }

    /** The rest of start_request once enqueue has returned. */
    method FinishStart(p: PendingRequest, outcome: Q.Outcome)
      requires Structure() && Mine(p)
      modifies this`pending, streamIds, p, p.operation
      ensures Structure() && requests == old(requests)
      ensures p.id < |old(View()).requests| && View() == C.FinishStart(old(View()), p.id, outcome)
    {
      hide C.Cleanup, View, PendingRequest.View, Structure, C.CloseChannel, Fail;
      ghost var c := View();
      EntryOf(p);
      match outcome {
        case Blocked =>
        case Accepted => MoveTo(p, C.Held);
        case Rejected =>
          var _ := FailOperation(p, ResourceLimitExceeded);
          EntryOf(p);
          CloseResponses(p);
          EntryOf(p);
          MoveTo(p, C.NotStarted);
          EntryOf(p);
          ghost var y := p.View();
          assert View() == c.(requests := c.requests[p.id := y]);
          CleanupPending(p, true);
          CleanupReplaces(c, p.id, y, y, true);
      }
    }

    /** start_request from the allocation of its stream to its suspension in enqueue, or to its end. */
    method SendRequest(stream: u64, body: seq<u8>) returns (p: PendingRequest)
      requires Structure() && queue.Valid() && issued !in queue.producers && |body| <= DEFAULT_MAX_PAYLOAD
      modifies this`pending, this`requests, this`issued, this`offers, streamIds, queue
      ensures Structure() && requests == old(requests) + [p] && fresh(p) && fresh(p.operation)
      ensures View() == C.SendRequest(old(View()), stream, body)
    {
      hide View, Structure, C.FinishStart, Q.Enqueue, C.RequestFrame, WriteQueue.Valid;
      var f := C.RequestFrame(stream, body);
      p := NewRequest(stream);
      File(stream, p);
      Note(C.Offer(p.id, f));
      var outcome := EnqueueFrame(p, f);
      FinishStart(p, outcome);
    }

    method TakeStream() returns (stream: Option<u64>)
      requires Structure()
      modifies streamIds
      ensures Structure() && stream == Allocate(old(View()).ids).1
      ensures View() == old(View()).(ids := Allocate(old(View()).ids).0)
    {
      hide Table, RequestViews, Structure, Allocate;
      stream := streamIds.AllocateId();
    }

    /** The stream of a request that could not be encoded is never given back. */
    ghost method Leak(stream: u64)
      requires Structure()
      modifies this`leaked
      ensures Structure() && View() == old(View()).(leaked := old(View()).leaked + {stream})
    {
      hide Table, RequestViews;
      leaked := leaked + {stream};
    }

    /** start_request up to its first suspension; body is the encoded message, if encoding succeeded. */
    method StartRequest(body: Option<seq<u8>>) returns (p: Option<PendingRequest>)
      requires Valid() && (body.Some? ==> |body.value| <= DEFAULT_MAX_PAYLOAD)
      modifies this`pending, this`requests, this`issued, this`offers, this`leaked, streamIds, queue
      ensures Valid() && requests == old(requests) + (if p.Some? then [p.value] else [])
      ensures View() == C.StartRequest(old(View()), body)
    {
      hide Valid, Structure, I.Inv, C.SendRequest, Allocate, Table, RequestViews;
      ValidView();
      I.StartRequestInv(View(), body);
      if ShuttingDown(state) {
        return None;
      }
      StartFacts();
      var allocation := TakeStream();
      if allocation.None? {
        ViewIsValid();
        return None;
      }
      hide View;
      if body.None? {
        Leak(allocation.value);
        ViewIsValid();
        return None;
      }
      var started := SendRequest(allocation.value, body.value);
      p := Some(started);
      ViewIsValid();
    }

    /** start_request, from its resumption in enqueue to its next suspension, or to its end. */
    method ResumeStart(p: PendingRequest)
      requires Valid() && Mine(p) && Q.CanResume(queue.View(), p.id)
      modifies this`pending, streamIds, queue, p, p.operation
      ensures Valid() && requests == old(requests) && View() == C.ResumeStart(old(View()), p.id)
    {
      QueueOfView();
      hide Valid, Structure, I.Inv, C.FinishStart, Q.Resume, View, Q.CanResume;
      ValidView();
      EntryOf(p);
      I.ResumeStartInv(View(), p.id);
      QueueValid();
      var outcome := ResumeEnqueue(p);
      FinishStart(p, outcome);
      ViewIsValid();
    }

    lemma QueueOfView()
      ensures View().queue == queue.View()
    {
    }

    lemma StartFacts()
      requires Valid()
      ensures queue.Valid() && issued !in queue.producers
    {
      hide C.TableOk, I.OwnershipOk, I.OffersOk, I.RequestOk, Q.Inv;
    }

    // ----- run() -----

    /** run(), up to its start of the write loop and the read loop. */
    method Run()
      requires Valid() && !started
      modifies this`state, this`started, this`reading
      ensures Valid() && View() == C.StartRunning(old(View()))
    {
      hide I.Inv, Valid, Structure, Table, RequestViews;
      ValidView();
      I.StartRunningInv(View());
      if state.Created? {
        MoveState(Connecting);
        MoveState(Active);
      }
      StartLoops();
      ViewIsValid();
    }

    method StartLoops()
      requires Structure()
      modifies this`started, this`reading
      ensures Structure() && View() == old(View()).(started := true, reading := true)
    {
      hide Table, RequestViews;
      started, reading := true, true;
    }

    // ----- The write queue's run() -----

    /** Run() asks its queue for the next frame. */
    method WriterReceives()
      requires Valid() && started && queue.running.Ready?
      modifies queue
      ensures Valid() && Q.Enabled(old(View()).queue, Q.WriterReceives)
      ensures View() == C.WriteStep(old(View()), Q.WriterReceives)
    {
      hide Table, RequestViews, Structure, Valid, I.Inv, Q.Apply, Q.Enabled, Q.Inv, WriteQueue.View;
      ghost var before := View();
      ValidView();
      QueueValid();
      queue.RunReceive();
      assert View() == C.WriteStep(before, Q.WriterReceives);
      I.WriterStepInv(before, Q.WriterReceives);
      ViewIsValid();
    }

    /** It takes a frame and hands its bytes to the transport. */
    method WriterTakes() returns (bytes: seq<u8>)
      requires Valid() && started && queue.running.HandOff?
      modifies queue
      ensures bytes == EncodeFrame(old(queue.running).frame)
      ensures Valid() && Q.Enabled(old(View()).queue, Q.WriterTakes)
      ensures View() == C.WriteStep(old(View()), Q.WriterTakes)
    {
      hide Table, RequestViews, Structure, Valid, I.Inv, Q.Apply, Q.Enabled, Q.Inv, WriteQueue.View;
      ghost var before := View();
      ValidView();
      QueueValid();
      bytes := queue.RunTake();
      assert View() == C.WriteStep(before, Q.WriterTakes);
      I.WriterStepInv(before, Q.WriterTakes);
      ViewIsValid();
    }

    method WriteSucceeds()
      requires Valid() && started && queue.running.Writing?
      modifies queue
      ensures Valid() && Q.Enabled(old(View()).queue, Q.WriteSucceeds)
      ensures View() == C.WriteStep(old(View()), Q.WriteSucceeds)
    {
      hide Table, RequestViews, Structure, Valid, I.Inv, Q.Apply, Q.Enabled, Q.Inv, WriteQueue.View;
      ghost var before := View();
      ValidView();
      QueueValid();
      queue.WriteCompleted();
      assert View() == C.WriteStep(before, Q.WriteSucceeds);
      I.WriterStepInv(before, Q.WriteSucceeds);
      ViewIsValid();
    }

    /** The transport took n bytes and failed: queue and transport are closed. */
    method WriteFails(n: nat)
      requires Valid() && started && queue.running.Writing? && n <= |EncodeFrame(queue.running.frame)|
      modifies queue, this`transportOpen
      ensures Valid() && Q.Enabled(old(View()).queue, Q.WriteFails(n))
      ensures View() == C.WriteStep(old(View()), Q.WriteFails(n))
    {
      hide Table, RequestViews, Structure, Valid, I.Inv, Q.Apply, Q.Enabled, Q.Inv, WriteQueue.View;
      ghost var before := View();
      ValidView();
      QueueValid();
      queue.WriteFailed(n);
      transportOpen := false;
      assert View() == C.WriteStep(before, Q.WriteFails(n));
      I.WriterStepInv(before, Q.WriteFails(n));
      ViewIsValid();
    }

    method WriterEnds()
      requires Valid() && started && queue.running.Ending?
      modifies queue
      ensures Valid() && Q.Enabled(old(View()).queue, Q.WriterEnds)
      ensures View() == C.WriteStep(old(View()), Q.WriterEnds)
    {
      hide Table, RequestViews, Structure, Valid, I.Inv, Q.Apply, Q.Enabled, Q.Inv, WriteQueue.View;
      ghost var before := View();
      ValidView();
      QueueValid();
      queue.RunEnd();
      assert View() == C.WriteStep(before, Q.WriterEnds);
      I.WriterStepInv(before, Q.WriterEnds);
      ViewIsValid();
    }
  }

  lemma StatusNotOk(e: FrameValidationError)
    ensures !C.StatusForValidation(e).Ok?
  {
  }

  lemma NothingPending(c: C.Client, status: StatusCode)
    requires c.pending == map[]
    ensures C.FailPending(c, status) == c
  {
    hide C.FailOne;
    assert C.FailPending(c, status).requests == c.requests;
  }

  /** Failing one entry of the table first does not change what failing all of them does. */
  lemma FailStep(c: C.Client, s: u64, status: StatusCode)
    requires C.TableOk(c.requests, c.pending) && s in c.pending
    ensures var r := c.pending[s];
            var x := c.requests[r];
            var c' := C.Cleanup(c, r, C.CloseChannel(x.(op := Fail(x.op, status).0)), false);
            && C.TableOk(c'.requests, c'.pending) && |c'.pending| < |c.pending|
            && C.FailPending(c', status) == C.FailPending(c, status)
  {
    var r := c.pending[s];
    var x := c.requests[r];
    hide Fail, Release, C.TableOk, C.CloseChannel, C.FailPending;
    var y := C.FailOne(x, status);
    FailTaken(c, s, status);
    assert C.Cleanup(c, r, C.CloseChannel(x.(op := Fail(x.op, status).0)), false)
        == c.(requests := c.requests[r := y], pending := c.pending - {s});
  }

  lemma FailTaken(c: C.Client, s: u64, status: StatusCode)
    requires C.TableOk(c.requests, c.pending) && s in c.pending
    ensures var r := c.pending[s];
            var c' := c.(requests := c.requests[r := C.FailOne(c.requests[r], status)], pending := c.pending - {s});
            && !c.requests[r].removed && c.requests[r].stream == s
            && C.TableOk(c'.requests, c'.pending) && |c'.pending| < |c.pending|
            && C.FailPending(c', status) == C.FailPending(c, status)
  {
    var r := c.pending[s];
    var y := C.FailOne(c.requests[r], status);
    var c' := c.(requests := c.requests[r := y], pending := c.pending - {s});
    assert y.stream == s && y.removed;
    hide C.FailOne;
    I.RemoveTable(c.requests, c.pending, r, y);
    forall t | 0 <= t < |c.requests| && t != r
      ensures C.InTable(c', t) == C.InTable(c, t)
    {
    }
    hide C.TableOk;
    assert C.FailPending(c', status).requests == C.FailPending(c, status).requests;
  }

  /** cleanup_pending overwrites whatever the request's entry held. */
  lemma CleanupReplaces(c: C.Client, r: nat, y: C.Request, x: C.Request, release: bool)
    requires r < |c.requests|
    ensures C.Cleanup(c.(requests := c.requests[r := y]), r, x, release) == C.Cleanup(c, r, x, release)
  {
    hide Release;
  }

  /** The cancel frame depends on the request's stream alone. */
  lemma CancelCommutes(c: C.Client, r: nat, y: C.Request, release: bool)
    requires r < |c.requests| && y.stream == c.requests[r].stream
    ensures C.Cleanup(C.SendCancellation(c.(requests := c.requests[r := y]), r), r, C.CloseChannel(y), release)
            == C.Cleanup(C.SendCancellation(c, r), r, C.CloseChannel(y), release)
  {
    hide Release, Q.TryEnqueue, CancelFrame, C.CloseChannel;
  }
}
