/** What every reachable client satisfies, and why every step keeps it. */
module ClientInvariant {
  import opened Bytes
  import opened Frames
  import opened Channels
  import opened StreamIds
  import opened Operations
  import Q = WriteQueues
  import opened WirePath
  import opened Clients

  /** Outcome coherence of one request: its operation, its response channel, what was delivered on it
      and where its caller is all tell the same story. */
  predicate RequestOk(x: Request) {
    && Coherent(x.op) && x.stream != 0 && x.channel.capacity == 1
    && (x.removed <==> x.op.Terminal())
    && (x.released ==> x.removed)
    && x.channel.waiters == (if x.phase.Awaiting? then [Waiter] else [])
    && (x.op.state.OpActive? ==>
          && !x.channel.closed && x.channel.buffer == [] && x.delivered == []
          && (x.phase.Sending? || x.phase.Held? || x.phase.Awaiting?))
    && (x.op.state.OpCompleted? ==>
          && |x.delivered| == 1 && x.delivered[0].header.stream == x.stream
          && (x.phase.Sending? || x.phase.Held? ==> x.channel.buffer == x.delivered))
    && (x.op.state.OpFailed? || x.op.state.OpCancelled? ==>
          x.channel.closed && x.channel.buffer == [] && x.delivered == [])
    && PhaseOk(x)
  }

  predicate PhaseOk(x: Request) {
    match x.phase
    case Sending => true
    case Held => true
    case Awaiting => x.op.state.OpActive?
    case Resuming(Received(f)) => x.op.state.OpCompleted? && x.delivered == [f]
    case Resuming(EndOfChannel) => x.op.state.OpFailed? || x.op.state.OpCancelled?
    case Resuming(Suspends) => false
    case Returned(Response(f)) => x.op.state.OpCompleted? && x.delivered == [f] && x.released
    case Returned(Failure(status)) =>
      (x.op.state.OpFailed? || x.op.state.OpCancelled?) && x.op.result == Some(status) && x.released
    case Returned(NoResult) => false
    case Dropped => x.op.Terminal() && x.released
    case NotStarted => x.op.Terminal() && x.released
  }

  ghost predicate Owned(requests: seq<Request>, s: u64) {
    exists r :: 0 <= r < |requests| && !requests[r].released && requests[r].stream == s
  }

  /** Stream ownership: unreleased requests hold pairwise distinct identifiers, and the identifiers in
      use are exactly theirs and the leaked ones. */
  ghost predicate OwnershipOk(requests: seq<Request>, ids: Allocator, leaked: set<u64>) {
    && Valid(ids) && ids.initiator.ClientSide?
    && (forall r, t :: 0 <= r < t < |requests| && !requests[r].released && !requests[t].released ==>
          requests[r].stream != requests[t].stream)
    && (forall r :: 0 <= r < |requests| && !requests[r].released ==>
          requests[r].stream in ids.inUse && requests[r].stream !in leaked)
    && (forall s :: s in ids.inUse ==> s in leaked || Owned(requests, s))
    && leaked <= ids.inUse
  }

  ghost predicate QueueOk(requests: seq<Request>, queue: Q.Queue) {
    && Q.Inv(queue)
    && Carries(queue, LegalTo(REQUEST))
    && (forall p :: p in queue.producers <==> 0 <= p < |requests| && requests[p].phase.Sending?)
  }

  /** How many cancel frames, or how many other frames, were offered for request r. */
  function OfferCount(offers: seq<Offer>, r: nat, cancel: bool): nat {
    if offers == [] then 0
    else
      var last := offers[|offers| - 1];
      OfferCount(offers[..|offers| - 1], r, cancel)
      + if last.request == r && HasFlag(last.frame.header.flags, CANCEL) == cancel then 1 else 0
  }

  /** A request ended by cancellation, handle release or deadline owes its peer one cancel frame. */
  function CancelsDue(op: Op): nat {
    if op.state.OpCancelled? || op.timedOut then 1 else 0
  }

  ghost predicate OffersOk(requests: seq<Request>, offers: seq<Offer>) {
    && (forall i :: 0 <= i < |offers| ==>
          && offers[i].request < |requests|
          && LegalFor(offers[i].frame, REQUEST)
          && offers[i].frame.header.stream == requests[offers[i].request].stream)
    && (forall r :: 0 <= r < |requests| ==>
          && OfferCount(offers, r, true) == CancelsDue(requests[r].op)
          && OfferCount(offers, r, false) == 1)
  }

  predicate LifeOk(c: Client) {
    && (c.state.Created? || c.state.Active? || c.state.Draining? || c.state.Closed?)
    && (c.started ==> !c.state.Created?)
    && (c.reading ==> c.started)
    && (c.state.Closed? ==> c.pending == map[])
  }

  predicate RequestsOk(requests: seq<Request>) {
    forall r :: 0 <= r < |requests| ==> RequestOk(requests[r])
  }

  ghost predicate Inv(c: Client) {
    && RequestsOk(c.requests)
    && TableOk(c.requests, c.pending)
    && OwnershipOk(c.requests, c.ids, c.leaked)
    && QueueOk(c.requests, c.queue)
    && OffersOk(c.requests, c.offers)
    && LifeOk(c)
  }

  lemma CreateInv(limits: Q.Limits, maximumStreamId: u64)
    ensures Inv(Create(limits, maximumStreamId))
  {
    Q.CreateInv(limits);
    FreshValid(ClientSide, maximumStreamId);
    hide Valid, Q.Inv;
  }

  // ----- Frames of the invariant's parts -----

  lemma {:induction false} OfferCountSnoc(offers: seq<Offer>, o: Offer, r: nat, cancel: bool)
    ensures OfferCount(offers + [o], r, cancel)
            == OfferCount(offers, r, cancel)
               + if o.request == r && HasFlag(o.frame.header.flags, CANCEL) == cancel then 1 else 0
  {
    hide HasFlag;
    assert (offers + [o])[..|offers|] == offers;
  }

  lemma {:induction false} OfferCountAbsent(offers: seq<Offer>, r: nat, cancel: bool)
    requires forall i :: 0 <= i < |offers| ==> offers[i].request != r
    ensures OfferCount(offers, r, cancel) == 0
  {
    hide HasFlag;
    if offers != [] {
      OfferCountAbsent(offers[..|offers| - 1], r, cancel);
    }
  }

  /** Replacing a request without touching its flags or identity. */
  lemma TouchTable(requests: seq<Request>, pending: map<u64, nat>, r: nat, y: Request)
    requires TableOk(requests, pending) && r < |requests|
    requires y.stream == requests[r].stream && y.removed == requests[r].removed
    ensures TableOk(requests[r := y], pending)
  {
  }

  lemma TouchOwnership(requests: seq<Request>, ids: Allocator, leaked: set<u64>, r: nat, y: Request)
    requires OwnershipOk(requests, ids, leaked) && r < |requests|
    requires y.stream == requests[r].stream && y.released == requests[r].released
    ensures OwnershipOk(requests[r := y], ids, leaked)
  {
    var requests' := requests[r := y];
    forall s | s in ids.inUse && s !in leaked
      ensures Owned(requests', s)
    {
      var t :| 0 <= t < |requests| && !requests[t].released && requests[t].stream == s;
      assert !requests'[t].released && requests'[t].stream == s;
    }
  }

  /** Removing a request from the table. */
  lemma RemoveTable(requests: seq<Request>, pending: map<u64, nat>, r: nat, y: Request)
    requires TableOk(requests, pending) && r < |requests|
    requires y.stream == requests[r].stream && y.removed && !requests[r].removed
    ensures TableOk(requests[r := y], pending - {y.stream})
  {
  }

  /** Returning a request's identifier: only its own owner ever does, and only once. */
  lemma ReleaseOwnership(requests: seq<Request>, ids: Allocator, leaked: set<u64>, r: nat, y: Request)
    requires OwnershipOk(requests, ids, leaked) && r < |requests|
    requires y.stream == requests[r].stream && y.released && !requests[r].released
    ensures OwnershipOk(requests[r := y], Release(ids, y.stream), leaked)
  {
    hide Valid;
    ReleaseValid(ids, y.stream);
    var requests', ids' := requests[r := y], Release(ids, y.stream);
    forall s | s in ids'.inUse && s !in leaked
      ensures Owned(requests', s)
    {
      var t :| 0 <= t < |requests| && !requests[t].released && requests[t].stream == s;
      assert !requests'[t].released && requests'[t].stream == s;
    }
  }

  /** cleanup_pending keeps the table and the ownership of identifiers. */
  lemma CleanupKeeps(c: Client, r: nat, x: Request, release: bool)
    requires TableOk(c.requests, c.pending) && OwnershipOk(c.requests, c.ids, c.leaked)
    requires r < |c.requests|
    requires x.stream == c.requests[r].stream
    requires x.removed == c.requests[r].removed && x.released == c.requests[r].released
    ensures var c' := Cleanup(c, r, x, release);
            TableOk(c'.requests, c'.pending) && OwnershipOk(c'.requests, c'.ids, c'.leaked)
  {
    hide OwnershipOk, Release;
    var y := x.(removed := true, released := x.released || release);
    if x.removed {
      TouchTable(c.requests, c.pending, r, y);
    } else {
      RemoveTable(c.requests, c.pending, r, y);
    }
    if release && !x.released {
      ReleaseOwnership(c.requests, c.ids, c.leaked, r, y);
    } else {
      TouchOwnership(c.requests, c.ids, c.leaked, r, y);
    }
  }

  lemma TouchQueue(requests: seq<Request>, queue: Q.Queue, r: nat, y: Request)
    requires QueueOk(requests, queue) && r < |requests|
    requires y.phase.Sending? == requests[r].phase.Sending?
    ensures QueueOk(requests[r := y], queue)
  {
    hide Q.Inv, Carries;
  }

  lemma TouchOffers(requests: seq<Request>, offers: seq<Offer>, r: nat, y: Request)
    requires OffersOk(requests, offers) && r < |requests|
    requires y.stream == requests[r].stream && CancelsDue(y.op) == CancelsDue(requests[r].op)
    ensures OffersOk(requests[r := y], offers)
  {
    hide LegalFor, OfferCount;
  }

  /** One cancel frame more, for a request that now owes one. */
  lemma CancelOffers(requests: seq<Request>, offers: seq<Offer>, r: nat, y: Request)
    requires OffersOk(requests, offers) && r < |requests|
    requires y.stream == requests[r].stream && y.stream != 0
    requires CancelsDue(requests[r].op) == 0 && CancelsDue(y.op) == 1
    ensures OffersOk(requests[r := y], offers + [Offer(r, CancelFrame(y.stream))])
  {
    var o := Offer(r, CancelFrame(y.stream));
    assert HasFlag(o.frame.header.flags, CANCEL) && LegalFor(o.frame, REQUEST);
    assert o.frame.header.stream == y.stream;
    hide LegalFor, OfferCount, CancelFrame, HasFlag;
    forall t | 0 <= t < |requests|
      ensures OfferCount(offers + [o], t, true) == OfferCount(offers, t, true) + (if t == r then 1 else 0)
      ensures OfferCount(offers + [o], t, false) == OfferCount(offers, t, false)
    {
      OfferCountSnoc(offers, o, t, true);
      OfferCountSnoc(offers, o, t, false);
    }
  }

  lemma CancelQueue(requests: seq<Request>, queue: Q.Queue, r: nat, s: u64)
    requires QueueOk(requests, queue) && s != 0
    ensures QueueOk(requests, Q.TryEnqueue(queue, CancelFrame(s)).0)
  {
    var f := CancelFrame(s);
    assert LegalTo(REQUEST)(f);
    hide Q.Core, Q.NoLostWakeup, Carries, CancelFrame, Q.TryEnqueue;
    Q.TryEnqueueInv(queue, f);
    Q.TryEnqueueCore(queue, f);
    TryEnqueueCarries(queue, f, LegalTo(REQUEST));
  }

  // ----- Ends of a request -----

  /** Ending an active request without a response: what the request becomes. */
  lemma EndedIsOk(x: Request, op: Op, release: bool)
    requires RequestOk(x) && x.op.state.OpActive?
    requires Coherent(op) && (op.state.OpFailed? || op.state.OpCancelled?)
    ensures RequestOk(CloseChannel(x.(op := op)).(removed := true, released := x.released || release))
    ensures CloseChannel(x.(op := op)).phase.Sending? == x.phase.Sending?
    ensures !CloseChannel(x.(op := op)).phase.Awaiting?
  {
  }

  /** Ending request r with a cancel frame: by cancel, by deadline or by handle release. */
  lemma EndWithCancelFrame(c: Client, r: nat, op: Op, release: bool)
    requires Inv(c) && r < |c.requests| && c.requests[r].op.state.OpActive?
    requires Coherent(op) && (op.state.OpFailed? || op.state.OpCancelled?) && CancelsDue(op) == 1
    ensures var x := CloseChannel(c.requests[r].(op := op));
            Inv(Cleanup(SendCancellation(c, r), r, x, release))
  {
    hide TableOk, OwnershipOk, QueueOk, OffersOk, Release, Q.TryEnqueue, CancelFrame;
    var x0 := c.requests[r];
    var x := CloseChannel(x0.(op := op));
    var y := x.(removed := true, released := x.released || release);
    EndedIsOk(x0, op, release);
    CleanupKeeps(SendCancellation(c, r), r, x, release);
    CancelQueue(c.requests, c.queue, r, x.stream);
    TouchQueue(c.requests, Q.TryEnqueue(c.queue, CancelFrame(x.stream)).0, r, y);
    CancelOffers(c.requests, c.offers, r, y);
    EmptyStaysEmpty(c.pending, x.stream);
  }

  lemma EmptyStaysEmpty(pending: map<u64, nat>, s: u64)
    ensures pending == map[] ==> pending - {s} == map[]
  {
  }

  /** An operation that refuses an end is left exactly as it was. */
  lemma RefusedOpsUnchanged(x: Request)
    requires RequestOk(x)
    ensures !Cancel(x.op).1 ==> Cancel(x.op).0 == x.op
    ensures !Timeout(x.op).1 ==> Timeout(x.op).0 == x.op
    ensures !Complete(x.op).1 ==> Complete(x.op).0 == x.op
  {
  }

  lemma CancelPendingInv(c: Client, r: nat)
    requires Inv(c) && r < |c.requests|
    ensures Inv(CancelPending(c, r).0)
  {
    hide Cleanup, SendCancellation, CloseChannel, TableOk, OwnershipOk, QueueOk, OffersOk, LifeOk;
    var x := c.requests[r];
    if Cancel(x.op).1 {
      assert RequestOk(x);
      EndWithCancelFrame(c, r, Cancel(x.op).0, false);
    }
  }

  lemma TimeoutPendingInv(c: Client, r: nat)
    requires Inv(c) && r < |c.requests|
    ensures Inv(TimeoutPending(c, r))
  {
    hide Cleanup, SendCancellation, CloseChannel, TableOk, OwnershipOk, QueueOk, OffersOk, LifeOk;
    var x := c.requests[r];
    if Timeout(x.op).1 {
      assert RequestOk(x);
      EndWithCancelFrame(c, r, Timeout(x.op).0, false);
    }
  }

  /** A request replaced by one that is in the same place in every table. */
  lemma TouchInv(c: Client, r: nat, y: Request)
    requires Inv(c) && r < |c.requests| && RequestOk(y)
    requires y.stream == c.requests[r].stream && y.removed == c.requests[r].removed
    requires y.released == c.requests[r].released
    requires y.phase.Sending? == c.requests[r].phase.Sending?
    requires CancelsDue(y.op) == CancelsDue(c.requests[r].op)
    ensures Inv(c.(requests := c.requests[r := y]))
  {
    hide RequestOk, TableOk, OwnershipOk, QueueOk, OffersOk, CancelsDue;
    TouchTable(c.requests, c.pending, r, y);
    TouchOwnership(c.requests, c.ids, c.leaked, r, y);
    TouchQueue(c.requests, c.queue, r, y);
    TouchOffers(c.requests, c.offers, r, y);
  }

  /** cleanup_pending after a change that sends nothing. */
  lemma CleanupInv(c: Client, r: nat, x: Request, release: bool)
    requires Inv(c) && r < |c.requests|
    requires x.stream == c.requests[r].stream
    requires x.removed == c.requests[r].removed && x.released == c.requests[r].released
    requires RequestOk(x.(removed := true, released := x.released || release))
    requires x.phase.Sending? == c.requests[r].phase.Sending?
    requires CancelsDue(x.op) == CancelsDue(c.requests[r].op)
    ensures Inv(Cleanup(c, r, x, release))
  {
    hide RequestOk, TableOk, OwnershipOk, QueueOk, OffersOk, CancelsDue, Release;
    var y := x.(removed := true, released := x.released || release);
    CleanupKeeps(c, r, x, release);
    TouchQueue(c.requests, c.queue, r, y);
    TouchOffers(c.requests, c.offers, r, y);
    EmptyStaysEmpty(c.pending, x.stream);
  }

  lemma DiscardPendingInv(c: Client, r: nat)
    requires Inv(c) && r < |c.requests|
    ensures Inv(DiscardPending(c, r))
  {
    hide Cleanup, SendCancellation, CloseChannel, TableOk, OwnershipOk, QueueOk, OffersOk, LifeOk;
    var x := c.requests[r];
    assert RequestOk(x);
    if x.op.Terminal() {
      CleanupInv(c, r, x, true);
    } else {
      EndWithCancelFrame(c, r, Cancel(x.op).0, true);
    }
  }

  lemma DropHandleInv(c: Client, r: nat)
    requires Inv(c) && r < |c.requests| && c.requests[r].phase.HasHandle()
    ensures Inv(DropHandle(c, r))
  {
    hide TableOk, OwnershipOk, QueueOk, OffersOk, LifeOk, Q.TryEnqueue, CancelFrame, Release;
    DiscardPendingInv(c, r);
    var c' := DiscardPending(c, r);
    assert RequestOk(c.requests[r]) && RequestOk(c'.requests[r]);
    TouchInv(c', r, c'.requests[r].(phase := Dropped));
  }

  lemma BeginWaitInv(c: Client, r: nat)
    requires Inv(c) && r < |c.requests| && c.requests[r].phase.Held?
    ensures Inv(BeginWait(c, r))
  {
    hide TableOk, OwnershipOk, QueueOk, OffersOk, LifeOk;
    assert RequestOk(c.requests[r]);
    TouchInv(c, r, BeginWait(c, r).requests[r]);
  }

  lemma EndWaitInv(c: Client, r: nat)
    requires Inv(c) && r < |c.requests| && c.requests[r].phase.Resuming?
    ensures Inv(EndWait(c, r))
  {
    hide TableOk, OwnershipOk, QueueOk, OffersOk, LifeOk, Cleanup;
    var x := c.requests[r];
    assert RequestOk(x);
    CleanupInv(c, r, x.(phase := Returned(WaitReturns(x))), true);
  }

  // ----- Ends of the connection -----

  /** The requests of two states agree on everything ownership, queue and offers look at. */
  ghost predicate SameRoles(a: seq<Request>, b: seq<Request>) {
    && |a| == |b|
    && (forall r :: 0 <= r < |a| ==>
          && a[r].stream == b[r].stream && a[r].released == b[r].released
          && a[r].phase.Sending? == b[r].phase.Sending?
          && CancelsDue(a[r].op) == CancelsDue(b[r].op))
  }

  lemma SameRolesOwnership(a: seq<Request>, b: seq<Request>, ids: Allocator, leaked: set<u64>)
    requires SameRoles(a, b) && OwnershipOk(a, ids, leaked)
    ensures OwnershipOk(b, ids, leaked)
  {
    hide CancelsDue, Valid;
    forall s | s in ids.inUse && s !in leaked
      ensures Owned(b, s)
    {
      var t :| 0 <= t < |a| && !a[t].released && a[t].stream == s;
      assert !b[t].released && b[t].stream == s;
    }
  }

  lemma SameRolesOthers(a: seq<Request>, b: seq<Request>, queue: Q.Queue, offers: seq<Offer>)
    requires SameRoles(a, b) && QueueOk(a, queue) && OffersOk(a, offers)
    ensures QueueOk(b, queue) && OffersOk(b, offers)
  {
    hide CancelsDue, Q.Inv, Carries, LegalFor, OfferCount;
  }

  lemma FailOneOk(x: Request, status: StatusCode)
    requires RequestOk(x) && x.op.state.OpActive? && !status.Ok?
    ensures RequestOk(FailOne(x, status))
    ensures FailOne(x, status).phase.Sending? == x.phase.Sending?
    ensures FailOne(x, status).stream == x.stream && FailOne(x, status).released == x.released
    ensures FailOne(x, status).removed && CancelsDue(FailOne(x, status).op) == CancelsDue(x.op) == 0
  {
    EndedIsOk(x, Fail(x.op, status).0, false);
  }

  lemma FailPendingRequests(c: Client, status: StatusCode)
    requires RequestsOk(c.requests) && TableOk(c.requests, c.pending) && !status.Ok?
    ensures var c' := FailPending(c, status);
            && RequestsOk(c'.requests)
            && TableOk(c'.requests, c'.pending)
            && SameRoles(c.requests, c'.requests)
            && (forall r :: 0 <= r < |c.requests| ==>
                  c'.requests[r] == if c.requests[r].removed then c.requests[r] else FailOne(c.requests[r], status))
  {
    hide FailOne, CancelsDue;
    var c' := FailPending(c, status);
    forall r | 0 <= r < |c.requests|
      ensures RequestOk(c'.requests[r]) && c'.requests[r].removed
      ensures c.requests[r].stream == c'.requests[r].stream && c.requests[r].released == c'.requests[r].released
      ensures c.requests[r].phase.Sending? == c'.requests[r].phase.Sending?
      ensures CancelsDue(c.requests[r].op) == CancelsDue(c'.requests[r].op)
      ensures c'.requests[r] == if c.requests[r].removed then c.requests[r] else FailOne(c.requests[r], status)
    {
      assert RequestOk(c.requests[r]);
      if InTable(c, r) {
        FailOneOk(c.requests[r], status);
      }
    }
  }

  lemma FailPendingInv(c: Client, status: StatusCode)
    requires Inv(c) && !status.Ok?
    ensures Inv(FailPending(c, status))
  {
    hide RequestsOk, TableOk, OwnershipOk, QueueOk, OffersOk, SameRoles;
    var c' := FailPending(c, status);
    FailPendingRequests(c, status);
    SameRolesOwnership(c.requests, c'.requests, c.ids, c.leaked);
    SameRolesOthers(c.requests, c'.requests, c.queue, c.offers);
  }

  lemma FailConnectionInv(c: Client, status: StatusCode)
    requires Inv(c) && !status.Ok?
    ensures Inv(FailConnection(c, status))
  {
    FailPendingInv(c, status);
    hide RequestsOk, TableOk, OwnershipOk, QueueOk, OffersOk, FailPending;
  }

  lemma EndReadingInv(c: Client)
    requires Inv(c) && c.reading
    ensures Inv(EndReading(c))
  {
    hide RequestsOk, TableOk, OwnershipOk, OffersOk, QueueOk, Q.CloseQueue;
    FailPendingInv(c, ConnectionClosed);
    CloseQueueOk(FailPending(c, ConnectionClosed).requests, c.queue);
  }

  lemma CloseQueueOk(requests: seq<Request>, queue: Q.Queue)
    requires QueueOk(requests, queue)
    ensures QueueOk(requests, Q.CloseQueue(queue))
  {
    hide Q.Inv, Carries, Q.CloseQueue;
    Q.CloseInv(queue);
    CloseCarries(queue, LegalTo(REQUEST));
  }

  lemma StartRunningInv(c: Client)
    requires Inv(c)
    ensures Inv(StartRunning(c))
  {
    hide RequestsOk, TableOk, OwnershipOk, QueueOk, OffersOk;
  }

  lemma BeginShutdownInv(c: Client)
    requires Inv(c)
    ensures Inv(BeginShutdown(c))
  {
    hide RequestsOk, TableOk, OwnershipOk, QueueOk, OffersOk;
  }

  lemma EndShutdownInv(c: Client)
    requires Inv(c) && (c.state.Draining? || c.state.Closed?)
    ensures Inv(EndShutdown(c))
  {
    FailPendingInv(c, ConnectionClosed);
    hide RequestsOk, TableOk, OwnershipOk, QueueOk, OffersOk, FailPending;
  }

  // ----- Incoming frames -----

  lemma MarkTerminalInv(c: Client, f: Frame)
    requires Inv(c)
    ensures Inv(MarkTerminal(c, f))
  {
    hide RequestsOk, TableOk, OwnershipOk, QueueOk, OffersOk, HasFlag;
  }

  lemma DeliveredIsOk(x: Request, f: Frame)
    requires RequestOk(x) && x.op.state.OpActive? && f.header.stream == x.stream
    ensures Complete(x.op).1
    ensures RequestOk(Deliver(x.(op := Complete(x.op).0), f).(removed := true, released := true))
    ensures Deliver(x.(op := Complete(x.op).0), f).delivered == [f]
    ensures Deliver(x.(op := Complete(x.op).0), f).phase.Sending? == x.phase.Sending?
  {
  }

  /** Whatever frame arrives, from a correct peer or not. */
  lemma DispatchInv(c: Client, f: Frame)
    requires Inv(c)
    ensures Inv(Dispatch(c, f))
  {
    var s := f.header.stream;
    hide QueueOk, OwnershipOk, OffersOk, LifeOk, Cleanup, CancelPending, FailConnection, MarkTerminal,
      DecodeErrorStatus, HasFlag, RequestOk, CloseChannel, Deliver;
    if f.header.kind != RESPONSE || s !in c.pending || s in c.terminal {
      FailConnectionInv(c, MalformedFrame);
      FailConnectionInv(c, UnknownStream);
    } else {
      var r := c.pending[s];
      var x := c.requests[r];
      ActiveInTable(c, s);
      if HasFlag(f.header.flags, CANCEL) {
        CancelPendingInv(c, r);
        MarkTerminalInv(CancelPending(c, r).0, f);
      } else if HasFlag(f.header.flags, ERROR) {
        var status := DecodeErrorStatus(f);
        if status.None? {
          FailConnectionInv(c, MalformedFrame);
        } else {
          ErrorStatusNeverOk(f);
          PeerErrorInv(c, r, status.value);
          MarkTerminalInv(Cleanup(c, r, CloseChannel(x.(op := Fail(x.op, status.value).0)), true), f);
        }
      } else {
        ResponseInv(c, r, f);
        MarkTerminalInv(Cleanup(c, r, Deliver(x.(op := Complete(x.op).0), f), true), f);
      }
    }
  }

  lemma ActiveInTable(c: Client, s: u64)
    requires RequestsOk(c.requests) && TableOk(c.requests, c.pending) && s in c.pending
    ensures c.pending[s] < |c.requests|
    ensures c.requests[c.pending[s]].op.state.OpActive? && RequestOk(c.requests[c.pending[s]])
    ensures c.requests[c.pending[s]].stream == s && !c.requests[c.pending[s]].removed
  {
    assert RequestOk(c.requests[c.pending[s]]);
  }

  lemma PeerErrorInv(c: Client, r: nat, status: StatusCode)
    requires Inv(c) && r < |c.requests| && c.requests[r].op.state.OpActive? && !status.Ok?
    ensures Inv(Cleanup(c, r, CloseChannel(c.requests[r].(op := Fail(c.requests[r].op, status).0)), true))
  {
    hide TableOk, OwnershipOk, QueueOk, OffersOk, LifeOk, Cleanup;
    var x := c.requests[r];
    assert RequestOk(x);
    EndedIsOk(x, Fail(x.op, status).0, true);
    CleanupInv(c, r, CloseChannel(x.(op := Fail(x.op, status).0)), true);
  }

  lemma ResponseInv(c: Client, r: nat, f: Frame)
    requires Inv(c) && r < |c.requests| && c.requests[r].op.state.OpActive?
    requires f.header.stream == c.requests[r].stream
    ensures Complete(c.requests[r].op).1
    ensures Inv(Cleanup(c, r, Deliver(c.requests[r].(op := Complete(c.requests[r].op).0), f), true))
  {
    hide TableOk, OwnershipOk, QueueOk, OffersOk, LifeOk, Cleanup;
    var x := c.requests[r];
    assert RequestOk(x);
    DeliveredIsOk(x, f);
    CleanupInv(c, r, Deliver(x.(op := Complete(x.op).0), f), true);
  }

  // ----- Starting a request -----

  /** The queue has already answered for producer r, whose caller has not yet moved on. */
  ghost predicate QueueAnswered(requests: seq<Request>, queue: Q.Queue, r: nat, blocked: bool) {
    && Q.Inv(queue)
    && Carries(queue, LegalTo(REQUEST))
    && (forall p :: p != r ==> (p in queue.producers <==> 0 <= p < |requests| && requests[p].phase.Sending?))
    && (r in queue.producers <==> blocked)
  }

  ghost predicate InvAnswered(c: Client, r: nat, blocked: bool) {
    && RequestsOk(c.requests)
    && TableOk(c.requests, c.pending)
    && OwnershipOk(c.requests, c.ids, c.leaked)
    && QueueAnswered(c.requests, c.queue, r, blocked)
    && OffersOk(c.requests, c.offers)
    && LifeOk(c)
    && r < |c.requests| && c.requests[r].phase.Sending?
  }

  lemma AnsweredQueue(requests: seq<Request>, queue: Q.Queue, r: nat, blocked: bool, y: Request)
    requires QueueAnswered(requests, queue, r, blocked) && r < |requests|
    requires y.phase.Sending? == blocked
    ensures QueueOk(requests[r := y], queue)
  {
    hide Q.Inv, Carries;
  }

  lemma FinishStartInv(c: Client, r: nat, outcome: Q.Outcome)
    requires InvAnswered(c, r, outcome.Blocked?)
    ensures Inv(FinishStart(c, r, outcome))
  {
    hide TableOk, OwnershipOk, QueueAnswered, QueueOk, OffersOk, Release;
    var x := c.requests[r];
    assert RequestOk(x);
    match outcome
    case Blocked =>
      AnsweredQueue(c.requests, c.queue, r, true, x);
      assert c.requests[r := x] == c.requests;
    case Accepted =>
      var y := x.(phase := Held);
      TouchTable(c.requests, c.pending, r, y);
      TouchOwnership(c.requests, c.ids, c.leaked, r, y);
      AnsweredQueue(c.requests, c.queue, r, false, y);
      TouchOffers(c.requests, c.offers, r, y);
    case Rejected =>
      RefusedIsOk(x);
      var z := CloseChannel(x.(op := Fail(x.op, ResourceLimitExceeded).0)).(phase := NotStarted);
      var y := z.(removed := true, released := true);
      CleanupKeeps(c, r, z, true);
      AnsweredQueue(c.requests, c.queue, r, false, y);
      TouchOffers(c.requests, c.offers, r, y);
      EmptyStaysEmpty(c.pending, x.stream);
  }

  lemma RefusedIsOk(x: Request)
    requires RequestOk(x) && x.phase.Sending?
    ensures var z := CloseChannel(x.(op := Fail(x.op, ResourceLimitExceeded).0)).(phase := NotStarted);
            RequestOk(z.(removed := true, released := true)) && CancelsDue(z.op) == CancelsDue(x.op)
  {
  }

  lemma ResumeStartInv(c: Client, r: nat)
    requires Inv(c) && r < |c.requests| && Q.CanResume(c.queue, r)
    ensures Inv(ResumeStart(c, r))
  {
    hide RequestsOk, TableOk, OwnershipOk, OffersOk, FinishStart, Q.Inv, Q.Resume, Carries, QueueAnswered;
    var (queue, outcome) := Q.Resume(c.queue, r);
    Q.ResumeInv(c.queue, r);
    ResumeCarries(c.queue, r, LegalTo(REQUEST));
    AnsweredBy(c.requests, c.queue, queue, r);
    FinishStartInv(c.(queue := queue), r, outcome);
  }

  lemma AnsweredBy(requests: seq<Request>, q: Q.Queue, q': Q.Queue, r: nat)
    requires QueueOk(requests, q) && Q.OnlyProducer(q, q', r)
    requires Q.Inv(q') && Carries(q', LegalTo(REQUEST))
    ensures QueueAnswered(requests, q', r, r in q'.producers)
  {
    hide Q.Inv, Carries, Q.OnlyProducer;
    SameOtherProducers(q, q', r);
  }

  lemma SameOtherProducers(q: Q.Queue, q': Q.Queue, r: nat)
    requires Q.OnlyProducer(q, q', r)
    ensures forall p :: p != r ==> (p in q.producers <==> p in q'.producers)
  {
    forall p | p != r
      ensures p in q.producers <==> p in q'.producers
    {
      assert p in q.producers - {r} <==> p in q'.producers - {r};
    }
  }

  /** A freshly allocated identifier is in no one's hands, so the new entry cannot collide. */
  lemma FreshIdIsFree(c: Client, s: u64)
    requires RequestsOk(c.requests) && TableOk(c.requests, c.pending)
    requires OwnershipOk(c.requests, c.ids, c.leaked) && s !in c.ids.inUse
    ensures s !in c.pending && s !in c.leaked
    ensures forall r :: 0 <= r < |c.requests| && !c.requests[r].released ==> c.requests[r].stream != s
  {
    hide Valid;
    if s in c.pending {
      ActiveInTable(c, s);
    }
  }

  lemma NewTable(requests: seq<Request>, pending: map<u64, nat>, x: Request)
    requires TableOk(requests, pending) && x.stream !in pending && !x.removed
    ensures TableOk(requests + [x], pending[x.stream := |requests|])
  {
  }

  lemma NewOwnership(requests: seq<Request>, ids: Allocator, leaked: set<u64>, ids': Allocator, x: Request)
    requires OwnershipOk(requests, ids, leaked) && !x.released
    requires Valid(ids') && ids'.initiator.ClientSide? && ids'.inUse == ids.inUse + {x.stream}
    requires x.stream !in leaked
    requires forall r :: 0 <= r < |requests| && !requests[r].released ==> requests[r].stream != x.stream
    ensures OwnershipOk(requests + [x], ids', leaked)
  {
    hide Valid;
    var requests' := requests + [x];
    forall s | s in ids'.inUse && s !in leaked
      ensures Owned(requests', s)
    {
      if s == x.stream {
        assert requests'[|requests|].stream == s;
      } else {
        var t :| 0 <= t < |requests| && !requests[t].released && requests[t].stream == s;
        assert !requests'[t].released && requests'[t].stream == s;
      }
    }
  }

  lemma LeakOwnership(requests: seq<Request>, ids: Allocator, leaked: set<u64>, ids': Allocator, s: u64)
    requires OwnershipOk(requests, ids, leaked)
    requires Valid(ids') && ids'.initiator.ClientSide? && ids'.inUse == ids.inUse + {s}
    requires forall r :: 0 <= r < |requests| && !requests[r].released ==> requests[r].stream != s
    ensures OwnershipOk(requests, ids', leaked + {s})
  {
    hide Valid;
  }

  lemma NewOffers(requests: seq<Request>, offers: seq<Offer>, x: Request, f: Frame)
    requires OffersOk(requests, offers) && CancelsDue(x.op) == 0
    requires LegalFor(f, REQUEST) && f.header.stream == x.stream && !HasFlag(f.header.flags, CANCEL)
    ensures OffersOk(requests + [x], offers + [Offer(|requests|, f)])
  {
    hide LegalFor, OfferCount, HasFlag, CancelsDue;
    var o := Offer(|requests|, f);
    forall t | 0 <= t <= |requests|
      ensures OfferCount(offers + [o], t, true) == if t < |requests| then OfferCount(offers, t, true) else 0
      ensures OfferCount(offers + [o], t, false) == if t < |requests| then OfferCount(offers, t, false) else 1
    {
      OfferCountSnoc(offers, o, t, true);
      OfferCountSnoc(offers, o, t, false);
      if t == |requests| {
        OfferCountAbsent(offers, t, true);
        OfferCountAbsent(offers, t, false);
      }
    }
  }

  /** The queue's answer to a new producer. */
  lemma NewQueue(requests: seq<Request>, q: Q.Queue, x: Request, f: Frame)
    requires QueueOk(requests, q) && LegalTo(REQUEST)(f)
    ensures var (q', outcome) := Q.Enqueue(q, |requests|, f);
            QueueAnswered(requests + [x], q', |requests|, outcome.Blocked?)
  {
    hide Q.Inv, Carries, Q.Enqueue, Q.OnlyProducer;
    var r := |requests|;
    Q.EnqueueInv(q, r, f);
    EnqueueCarries(q, r, f, LegalTo(REQUEST));
    var q' := Q.Enqueue(q, r, f).0;
    AnsweredBy(requests, q, q', r);
    AnsweredSnoc(requests, q', r, x);
  }

  lemma AnsweredSnoc(requests: seq<Request>, q: Q.Queue, r: nat, x: Request)
    requires QueueAnswered(requests, q, r, r in q.producers) && r == |requests|
    ensures QueueAnswered(requests + [x], q, r, r in q.producers)
  {
    hide Q.Inv, Carries;
    forall p | p != r
      ensures p in q.producers <==> 0 <= p < |requests + [x]| && (requests + [x])[p].phase.Sending?
    {
      assert p in q.producers <==> 0 <= p < |requests| && requests[p].phase.Sending?;
    }
  }

  lemma NewRequestOk(s: u64, body: seq<u8>)
    requires s != 0 && |body| <= DEFAULT_MAX_PAYLOAD
    ensures var x, f := Request(s, FRESH_OP, Open(1), false, false, Sending, []), RequestFrame(s, body);
            && RequestOk(x) && CancelsDue(x.op) == 0
            && LegalTo(REQUEST)(f) && LegalFor(f, REQUEST)
  {
  }

  /** Registering a request under a free identifier. */
  lemma SendRequestInv(c: Client, ids: Allocator, s: u64, body: seq<u8>)
    requires Inv(c) && |body| <= DEFAULT_MAX_PAYLOAD && !ShuttingDown(c.state)
    requires Valid(ids) && ids.initiator.ClientSide? && ids.inUse == c.ids.inUse + {s}
    requires s !in c.ids.inUse && s != 0
    ensures Inv(SendRequest(c.(ids := ids), s, body))
  {
    hide Valid, FinishStart, RequestOk, OffersOk, TableOk, OwnershipOk, QueueOk, QueueAnswered, Q.Enqueue,
      RequestFrame, LegalFor, HasFlag, CancelsDue;
    var r, f := |c.requests|, RequestFrame(s, body);
    var x := Request(s, FRESH_OP, Open(1), false, false, Sending, []);
    NewRequestOk(s, body);
    FreshIdIsFree(c, s);
    NewTable(c.requests, c.pending, x);
    NewOwnership(c.requests, c.ids, c.leaked, ids, x);
    NewOffers(c.requests, c.offers, x, f);
    NewQueue(c.requests, c.queue, x, f);
    var (queue, outcome) := Q.Enqueue(c.queue, r, f);
    var c1 := c.(ids := ids, requests := c.requests + [x], pending := c.pending[s := r],
                 offers := c.offers + [Offer(r, f)], queue := queue);
    FinishStartInv(c1, r, outcome);
  }

  lemma StartRequestInv(c: Client, body: Option<seq<u8>>)
    requires Inv(c) && (body.Some? ==> |body.value| <= DEFAULT_MAX_PAYLOAD)
    ensures Inv(StartRequest(c, body))
  {
    hide RequestsOk, TableOk, OwnershipOk, QueueOk, OffersOk, SendRequest, Allocate;
    if !ShuttingDown(c.state) {
      var (ids, allocation) := Allocate(c.ids);
      AllocatedOwnership(c, ids, allocation);
      if allocation.Some? && body.Some? {
        SendRequestInv(c, ids, allocation.value, body.value);
      }
    }
  }

  lemma AllocatedOwnership(c: Client, ids: Allocator, allocation: Option<u64>)
    requires Inv(c) && (ids, allocation) == Allocate(c.ids)
    ensures Valid(ids) && ids.initiator.ClientSide?
    ensures allocation.None? ==> OwnershipOk(c.requests, ids, c.leaked)
    ensures allocation.Some? ==>
              && ids.inUse == c.ids.inUse + {allocation.value}
              && allocation.value !in c.ids.inUse && allocation.value != 0
              && OwnershipOk(c.requests, ids, c.leaked + {allocation.value})
  {
    assert ids.initiator == c.ids.initiator;
    hide Allocate, Valid, QueueOk, OffersOk, LifeOk;
    AllocateValid(c.ids);
    AllocateIsLeastFree(c.ids);
    if allocation.Some? {
      FreshIdIsFree(c, allocation.value);
      LeakOwnership(c.requests, c.ids, c.leaked, ids, allocation.value);
    }
  }

  // ----- Every step and every run -----

  lemma WriterStepInv(c: Client, step: Q.Event)
    requires Inv(c) && Q.Enabled(c.queue, step) && step.Internal() && !step.ProducerResumes?
    ensures Inv(WriteStep(c, step))
  {
    hide RequestsOk, TableOk, OwnershipOk, OffersOk, QueueOk, Q.Apply, Q.Enabled;
    WriterQueueOk(c.requests, c.queue, step);
  }

  lemma WriterQueueOk(requests: seq<Request>, queue: Q.Queue, step: Q.Event)
    requires QueueOk(requests, queue) && Q.Enabled(queue, step) && step.Internal() && !step.ProducerResumes?
    ensures QueueOk(requests, Q.Apply(queue, step))
  {
    hide Carries, Q.Inv, Q.Apply, Q.Enabled;
    Q.ApplyInv(queue, step);
    WriterCarries(queue, step, LegalTo(REQUEST));
  }

  lemma ApplyInv(c: Client, e: Event)
    requires Inv(c) && Enabled(c, e)
    ensures Inv(Apply(c, e))
  {
    hide RequestsOk, OwnershipOk, QueueOk, OffersOk, StartRequest, ResumeStart, Dispatch, FailConnection,
      EndReading, EndShutdown, CancelPending, TimeoutPending, DropHandle, BeginWait, EndWait, Q.Apply;
    match e
    case Start(body) => StartRequestInv(c, body);
    case StartResumes(r) => ResumeStartInv(c, r);
    case Run => StartRunningInv(c);
    case FrameArrives(f) => DispatchInv(c, f);
    case DecoderFails(error) => FailConnectionInv(c, StatusForValidation(error));
    case ReadingEnds => EndReadingInv(c);
    case ShutdownBegins => BeginShutdownInv(c);
    case ShutdownEnds => EndShutdownInv(c);
    case CancelCalled(r) => CancelPendingInv(c, r);
    case DeadlineExpires(r) => TimeoutPendingInv(c, r);
    case HandleDestroyed(r) => DropHandleInv(c, r);
    case WaitCalled(r) => BeginWaitInv(c, r);
    case WaitResumes(r) => EndWaitInv(c, r);
    case WriterStep(step) => WriterStepInv(c, step);
  }
}
