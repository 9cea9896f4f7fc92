/** What the client's wire can carry: only frames that were offered for a request, and no frame more
    often than there are requests it is due for. */
module ClientLedger {
  import opened Bytes
  import opened Frames
  import opened FrameCodec
  import opened StreamIds
  import opened Operations
  import Q = WriteQueues
  import L = WriteQueueLedger
  import opened Clients
  import opened ClientInvariant
  import opened ClientTheorems

  function OfferFrames(offers: seq<Offer>): seq<Frame> {
    seq(|offers|, i requires 0 <= i < |offers| => offers[i].frame)
  }

  lemma OffersGrow(offers: seq<Offer>, o: Offer)
    ensures multiset(OfferFrames(offers + [o])) == multiset(OfferFrames(offers)) + multiset{o.frame}
  {
    assert OfferFrames(offers + [o]) == OfferFrames(offers) + [o.frame];
  }

  // ----- What a step sends -----

  /** The frame a step hands to the write queue: a request that is started, or a cancel frame for a
      request that is active and is now cancelled, timed out, released or cancelled by the peer. */
  ghost function Sends(c: Client, e: Event): multiset<Frame>
    requires Enabled(c, e)
  {
    match e
    case Start(body) =>
      if body.Some? && !ShuttingDown(c.state) && Allocate(c.ids).1.Some?
      then multiset{RequestFrame(Allocate(c.ids).1.value, body.value)} else multiset{}
    case CancelCalled(r) => CancelOf(c.requests[r])
    case DeadlineExpires(r) => CancelOf(c.requests[r])
    case HandleDestroyed(r) => CancelOf(c.requests[r])
    case FrameArrives(f) =>
      if Tolerated(c, f) && HasFlag(f.header.flags, CANCEL) then multiset{CancelFrame(f.header.stream)} else multiset{}
    case _ => multiset{}
  }

  ghost function CancelOf(x: Request): multiset<Frame> {
    if x.op.state.OpActive? then multiset{CancelFrame(x.stream)} else multiset{}
  }

  /** The frame that a step leaves out of the queue for good: a cancel frame there is no room for, a
      request that meets a closed queue or could never fit, or one that was waiting when it closed. */
  ghost function Misses(c: Client, e: Event): multiset<Frame>
    requires Enabled(c, e)
  {
    match e
    case StartResumes(r) => if c.queue.closed then multiset{c.queue.producers[r].frame} else multiset{}
    case Start(_) => L.LeftOut(Sends(c, e), L.Unwelcome(c.queue))
    case _ => L.LeftOut(Sends(c, e), L.NoRoom(c.queue))
  }

  /** From c to c' the given frames were sent, and all but the missed ones are now in the queue. */
  ghost predicate Handed(c: Client, c': Client, sends: multiset<Frame>, misses: multiset<Frame>) {
    && L.Taken(c'.queue) + misses == L.Taken(c.queue) + sends
    && multiset(OfferFrames(c'.offers)) == multiset(OfferFrames(c.offers)) + sends
  }

  /** Nothing but the queue and the offers matters. */
  lemma SameHanded(c: Client, c': Client)
    requires c'.queue == c.queue && c'.offers == c.offers
    ensures Handed(c, c', multiset{}, multiset{})
  {
    hide L.Taken, OfferFrames;
  }

  lemma CancelHanded(c: Client, c': Client, r: nat)
    requires Q.Core(c.queue) && r < |c.requests|
    requires c'.queue == SendCancellation(c, r).queue && c'.offers == SendCancellation(c, r).offers
    ensures var f := CancelFrame(c.requests[r].stream);
            Handed(c, c', multiset{f}, L.LeftOut(multiset{f}, L.NoRoom(c.queue)))
  {
    hide Q.TryEnqueue, CancelFrame, OfferFrames, L.Taken, Q.Core, Q.Room;
    var f := CancelFrame(c.requests[r].stream);
    L.TryEnqueueTaken(c.queue, f);
    Q.AdmissionIsExact(c.queue, f);
    OffersGrow(c.offers, Offer(r, f));
    assert f in multiset{f};
  }

  /** An active request's end sends; a request that has ended sends nothing more. */
  lemma HandleSends(c: Client, r: nat)
    requires r < |c.requests| && RequestOk(c.requests[r])
    ensures var d := if c.requests[r].op.state.OpActive? then SendCancellation(c, r) else c;
            && CancelPending(c, r).0.queue == d.queue && CancelPending(c, r).0.offers == d.offers
            && TimeoutPending(c, r).queue == d.queue && TimeoutPending(c, r).offers == d.offers
            && DropHandle(c, r).queue == d.queue && DropHandle(c, r).offers == d.offers
  {
    hide SendCancellation, CloseChannel, Release;
    QueueApart(c, r);
  }

  lemma QueueApart(c: Client, r: nat)
    requires r < |c.requests|
    ensures SendCancellation(c, r) == c.(queue := SendCancellation(c, r).queue, offers := SendCancellation(c, r).offers)
  {
    hide Q.TryEnqueue, CancelFrame;
  }

  lemma HandleHanded(c: Client, c': Client, r: nat)
    requires Inv(c) && r < |c.requests|
    requires var d := if c.requests[r].op.state.OpActive? then SendCancellation(c, r) else c;
             c'.queue == d.queue && c'.offers == d.offers
    ensures Handed(c, c', CancelOf(c.requests[r]), L.LeftOut(CancelOf(c.requests[r]), L.NoRoom(c.queue)))
  {
    hide Handed, SendCancellation, Q.Room;
    CoreOf(c);
    hide Inv, Q.Core;
    if c.requests[r].op.state.OpActive? {
      CancelHanded(c, c', r);
    } else {
      SameHanded(c, c');
    }
  }

  lemma CoreOf(c: Client)
    requires Inv(c)
    ensures Q.Core(c.queue) && |c.requests| !in c.queue.producers
    ensures forall r :: 0 <= r < |c.requests| ==> RequestOk(c.requests[r])
  {
    hide TableOk, OwnershipOk, OffersOk, LifeOk, RequestOk, Q.Core;
  }

  lemma DispatchHanded(c: Client, f: Frame)
    requires Inv(c) && Enabled(c, FrameArrives(f)) && TableOk(c.requests, c.pending)
    ensures Handed(c, Dispatch(c, f), Sends(c, FrameArrives(f)), Misses(c, FrameArrives(f)))
  {
    CoreOf(c);
    hide Inv, Handed, DispatchTo, FailPending, HasFlag, DecodeErrorStatus, CancelFrame, Q.Room, Q.Core, RequestOk;
    FailKeepsQueue(c, MalformedFrame);
    FailKeepsQueue(c, UnknownStream);
    if Tolerated(c, f) {
      ActiveNow(c, f.header.stream);
      DispatchToHanded(c, c.pending[f.header.stream], f);
    } else {
      IntolerableFailsAll(c, f);
      SameHanded(c, Dispatch(c, f));
    }
  }

  lemma ActiveNow(c: Client, s: u64)
    requires Inv(c) && s in c.pending
    ensures c.pending[s] < |c.requests| && c.requests[c.pending[s]].stream == s
    ensures c.requests[c.pending[s]].op.state.OpActive?
  {
    ActiveInTable(c, s);
  }

  lemma DispatchToHanded(c: Client, r: nat, f: Frame)
    requires Q.Core(c.queue) && r < |c.requests| && RequestOk(c.requests[r]) && c.requests[r].op.state.OpActive?
    requires f.header.stream == c.requests[r].stream
    ensures var sends := if HasFlag(f.header.flags, CANCEL) then multiset{CancelFrame(f.header.stream)} else multiset{};
            Handed(c, DispatchTo(c, r, f), sends, L.LeftOut(sends, L.NoRoom(c.queue)))
  {
    hide Handed, HasFlag, DecodeErrorStatus, CloseChannel, Deliver, Release, CancelPending, FailPending, Fail, Complete,
      SendCancellation, Q.Core, Q.Room, CancelFrame, RequestOk;
    FailKeepsQueue(c, MalformedFrame);
    if HasFlag(f.header.flags, CANCEL) {
      HandleSends(c, r);
      CancelHanded(c, DispatchTo(c, r, f), r);
    } else {
      SameHanded(c, DispatchTo(c, r, f));
    }
  }

  lemma FailKeepsQueue(c: Client, status: StatusCode)
    ensures FailPending(c, status).queue == c.queue && FailPending(c, status).offers == c.offers
  {
  }

  lemma SendRequestHanded(c: Client, s: u64, body: seq<u8>)
    requires Q.Core(c.queue) && |body| <= DEFAULT_MAX_PAYLOAD && |c.requests| !in c.queue.producers
    ensures var f := RequestFrame(s, body);
            Handed(c, SendRequest(c, s, body), multiset{f},
                   L.LeftOut(multiset{f}, L.Unwelcome(c.queue)))
  {
    hide Q.Enqueue, RequestFrame, OfferFrames, L.Taken, CloseChannel, Release, Fail, Q.Core, Q.Room, Q.NeverFits;
    var r, f := |c.requests|, RequestFrame(s, body);
    L.EnqueueTaken(c.queue, r, f);
    Q.EnqueueIsExact(c.queue, r, f);
    OffersGrow(c.offers, Offer(r, f));
    assert f in multiset{f};
  }

  lemma StartHanded(c: Client, body: Option<seq<u8>>)
    requires Inv(c) && Enabled(c, Start(body))
    ensures Handed(c, StartRequest(c, body), Sends(c, Start(body)), Misses(c, Start(body)))
  {
    hide Inv, Allocate, SendRequest, Handed, Q.NeverFits, Q.Core, RequestOk, RequestFrame, L.NoRoom, L.Unwelcome, Tolerated;
    CoreOf(c);
    var (ids, allocation) := Allocate(c.ids);
    if body.Some? && !ShuttingDown(c.state) && allocation.Some? {
      SendRequestHanded(c.(ids := ids), allocation.value, body.value);
      HandedFrom(c.(ids := ids), c, StartRequest(c, body), Sends(c, Start(body)), Misses(c, Start(body)));
    } else {
      SameHanded(c, StartRequest(c, body));
    }
  }

  lemma HandedFrom(b: Client, c: Client, c': Client, sends: multiset<Frame>, misses: multiset<Frame>)
    requires b.queue == c.queue && b.offers == c.offers && Handed(b, c', sends, misses)
    ensures Handed(c, c', sends, misses)
  {
    hide L.Taken, OfferFrames;
  }

  lemma ResumeHanded(c: Client, r: nat)
    requires Q.Core(c.queue) && r < |c.requests| && Q.CanResume(c.queue, r)
    ensures Handed(c, ResumeStart(c, r), multiset{},
                   if c.queue.closed then multiset{c.queue.producers[r].frame} else multiset{})
  {
    hide Q.Resume, OfferFrames, L.Taken, CloseChannel, Release, Fail, Q.Core, Q.Room;
    L.ResumeTaken(c.queue, r);
    Q.ResumeIsExact(c.queue, r);
  }

  lemma WriterHanded(c: Client, step: Q.Event)
    requires Q.Enabled(c.queue, step) && step.Internal() && !step.ProducerResumes?
    ensures Handed(c, WriteStep(c, step), multiset{}, multiset{})
  {
    hide Q.Apply, Q.Enabled, OfferFrames, L.Taken;
    L.WriterTaken(c.queue, step);
  }

  lemma EndReadingHanded(c: Client)
    ensures Handed(c, EndReading(c), multiset{}, multiset{})
  {
    hide Q.CloseQueue, OfferFrames, L.Taken, FailPending;
    L.CloseTaken(c.queue);
    FailKeepsQueue(c, ConnectionClosed);
  }

  lemma FailHanded(c: Client, status: StatusCode)
    ensures Handed(c, FailConnection(c, status), multiset{}, multiset{}) && Handed(c, EndShutdown(c), multiset{}, multiset{})
  {
    hide Handed, FailPending;
    FailKeepsQueue(c, status);
    FailKeepsQueue(c, ConnectionClosed);
    SameHanded(c, FailConnection(c, status));
    SameHanded(c, EndShutdown(c));
  }

  lemma WaitHanded(c: Client, r: nat)
    requires r < |c.requests|
    ensures Handed(c, BeginWait(c, r), multiset{}, multiset{})
    ensures c.requests[r].phase.Resuming? ==> Handed(c, EndWait(c, r), multiset{}, multiset{})
  {
    hide Release, Handed;
    SameHanded(c, BeginWait(c, r));
    if c.requests[r].phase.Resuming? {
      SameHanded(c, EndWait(c, r));
    }
  }

  lemma CancelStepHanded(c: Client, r: nat)
    requires Inv(c) && Enabled(c, CancelCalled(r)) && TableOk(c.requests, c.pending)
    ensures Handed(c, Apply(c, CancelCalled(r)), Sends(c, CancelCalled(r)), Misses(c, CancelCalled(r)))
  {
    hide Inv, TableOk, Handed, CancelPending, TimeoutPending, DropHandle, Q.Core, RequestOk, SendCancellation, CancelOf,
      Q.Room, L.LeftOut, L.NoRoom, L.Unwelcome, Tolerated;
    CoreOf(c);
    HandleSends(c, r);
    HandleHanded(c, CancelPending(c, r).0, r);
  }

  lemma DeadlineStepHanded(c: Client, r: nat)
    requires Inv(c) && Enabled(c, DeadlineExpires(r)) && TableOk(c.requests, c.pending)
    ensures Handed(c, Apply(c, DeadlineExpires(r)), Sends(c, DeadlineExpires(r)), Misses(c, DeadlineExpires(r)))
  {
    hide Inv, TableOk, Handed, CancelPending, TimeoutPending, DropHandle, Q.Core, RequestOk, SendCancellation, CancelOf,
      Q.Room, L.LeftOut, L.NoRoom, L.Unwelcome, Tolerated;
    CoreOf(c);
    HandleSends(c, r);
    HandleHanded(c, TimeoutPending(c, r), r);
  }

  lemma DropStepHanded(c: Client, r: nat)
    requires Inv(c) && Enabled(c, HandleDestroyed(r)) && TableOk(c.requests, c.pending)
    ensures Handed(c, Apply(c, HandleDestroyed(r)), Sends(c, HandleDestroyed(r)), Misses(c, HandleDestroyed(r)))
  {
    hide Inv, TableOk, Handed, CancelPending, TimeoutPending, DropHandle, Q.Core, RequestOk, SendCancellation, CancelOf,
      Q.Room, L.LeftOut, L.NoRoom, L.Unwelcome, Tolerated;
    CoreOf(c);
    HandleSends(c, r);
    HandleHanded(c, DropHandle(c, r), r);
  }

  /** The steps that send nothing. */
  predicate Quiet(e: Event) {
    || e.DecoderFails? || e.ReadingEnds? || e.ShutdownEnds? || e.WaitCalled? || e.WaitResumes? || e.WriterStep?
    || e.Run? || e.ShutdownBegins?
  }

  lemma QuietHanded(c: Client, e: Event)
    requires Inv(c) && Enabled(c, e) && TableOk(c.requests, c.pending) && Quiet(e)
    ensures Handed(c, Apply(c, e), multiset{}, multiset{})
  {
    hide Inv, TableOk, Handed, StartRequest, ResumeStart, Dispatch, FailConnection, EndReading, EndShutdown,
      CancelPending, TimeoutPending, DropHandle, BeginWait, EndWait, WriteStep, Q.Enabled, Q.CanResume;
    match e
    case DecoderFails(error) => FailHanded(c, StatusForValidation(error));
    case ReadingEnds => EndReadingHanded(c);
    case ShutdownEnds => FailHanded(c, ConnectionClosed);
    case WaitCalled(r) => WaitHanded(c, r);
    case WaitResumes(r) => WaitHanded(c, r);
    case WriterStep(step) => WriterHanded(c, step);
    case Run => SameHanded(c, StartRunning(c));
    case ShutdownBegins => SameHanded(c, BeginShutdown(c));
  }

  lemma QuietSends(c: Client, e: Event)
    requires Enabled(c, e) && Quiet(e)
    ensures Sends(c, e) == multiset{} && Misses(c, e) == multiset{}
  {
    hide Enabled, Tolerated, Q.Room, Q.NeverFits;
  }

  lemma StartStepHanded(c: Client, body: Option<seq<u8>>)
    requires Inv(c) && Enabled(c, Start(body)) && TableOk(c.requests, c.pending)
    ensures Handed(c, Apply(c, Start(body)), Sends(c, Start(body)), Misses(c, Start(body)))
  {
    hide Inv, TableOk, Handed, StartRequest, Sends, Misses, Enabled;
    StartHanded(c, body);
  }

  lemma ResumeStepHanded(c: Client, r: nat)
    requires Inv(c) && Enabled(c, StartResumes(r)) && TableOk(c.requests, c.pending)
    ensures Handed(c, Apply(c, StartResumes(r)), Sends(c, StartResumes(r)), Misses(c, StartResumes(r)))
  {
    CoreOf(c);
    hide Inv, TableOk, Handed, ResumeStart, Q.CanResume, Q.Core, RequestOk;
    ResumeHanded(c, r);
  }

  lemma FrameStepHanded(c: Client, f: Frame)
    requires Inv(c) && Enabled(c, FrameArrives(f)) && TableOk(c.requests, c.pending)
    ensures Handed(c, Apply(c, FrameArrives(f)), Sends(c, FrameArrives(f)), Misses(c, FrameArrives(f)))
  {
    hide Inv, TableOk, Handed, Dispatch, Sends, Misses, Enabled;
    DispatchHanded(c, f);
  }

  /** Every step sends exactly what its cause says, and exactly what there is no room for is missed. */
  lemma SendingIsExact(c: Client, e: Event)
    requires Inv(c) && Enabled(c, e) && TableOk(c.requests, c.pending)
    ensures Handed(c, Apply(c, e), Sends(c, e), Misses(c, e))
  {
    hide Inv, TableOk, Handed, Apply, Sends, Misses, Enabled;
    match e
    case Start(body) => StartStepHanded(c, body);
    case StartResumes(r) => ResumeStepHanded(c, r);
    case FrameArrives(f) => FrameStepHanded(c, f);
    case CancelCalled(r) => CancelStepHanded(c, r);
    case DeadlineExpires(r) => DeadlineStepHanded(c, r);
    case HandleDestroyed(r) => DropStepHanded(c, r);
    case _ =>
      QuietHanded(c, e);
      QuietSends(c, e);
  }

  // ----- Whole runs -----

  ghost function SentAlong(c: Client, es: seq<Event>, c': Client): multiset<Frame>
    requires Runs(c, es, c')
    decreases es
  {
    if es == [] then multiset{} else Sends(c, es[0]) + SentAlong(Apply(c, es[0]), es[1..], c')
  }

  ghost function MissedAlong(c: Client, es: seq<Event>, c': Client): multiset<Frame>
    requires Runs(c, es, c')
    decreases es
  {
    if es == [] then multiset{} else Misses(c, es[0]) + MissedAlong(Apply(c, es[0]), es[1..], c')
  }

  lemma {:induction false} RunsHanded(c: Client, es: seq<Event>, c': Client)
    requires Inv(c) && Runs(c, es, c')
    ensures Handed(c, c', SentAlong(c, es, c'), MissedAlong(c, es, c'))
    decreases es
  {
    hide Inv, Handed, TableOk, Enabled, Apply, Sends, Misses;
    if es == [] {
      SameHanded(c, c);
    } else {
      var c1 := Apply(c, es[0]);
      ApplyInv(c, es[0]);
      SendingIsExact(c, es[0]);
      RunsHanded(c1, es[1..], c');
      HandedTwice(c, c1, c', Sends(c, es[0]), Misses(c, es[0]), SentAlong(c1, es[1..], c'), MissedAlong(c1, es[1..], c'));
    }
  }

  lemma HandedTwice(a: Client, b: Client, c: Client, s1: multiset<Frame>, m1: multiset<Frame>, s2: multiset<Frame>,
                    m2: multiset<Frame>)
    requires Handed(a, b, s1, m1) && Handed(b, c, s2, m2)
    ensures Handed(a, c, s1 + s2, m1 + m2)
  {
    hide L.Taken, OfferFrames;
    var ta, tb, tc := L.Taken(a.queue), L.Taken(b.queue), L.Taken(c.queue);
    assert tc + (m1 + m2) == (tc + m2) + m1 == (tb + s2) + m1 == (tb + m1) + s2 == (ta + s1) + s2 == ta + (s1 + s2);
  }

  /** Every frame the client sends is accounted for, over every run: it is in the queue, accepted or
      suspended, or it was missed for want of room or because the queue was closed; nothing else is in
      the queue, and the log of offers is exactly what was sent. */
  lemma EverySentFrameIsAccounted(limits: Q.Limits, maximum: u64, es: seq<Event>, c: Client)
    requires Runs(Create(limits, maximum), es, c)
    ensures var c0 := Create(limits, maximum);
            && L.Taken(c.queue) + MissedAlong(c0, es, c) == SentAlong(c0, es, c)
            && multiset(OfferFrames(c.offers)) == SentAlong(c0, es, c)
  {
    var c0 := Create(limits, maximum);
    assert L.Taken(c0.queue) == multiset{} && OfferFrames(c0.offers) == [];
    hide Inv, Runs, Create, SentAlong, MissedAlong, L.Taken, OfferFrames;
    CreateInv(limits, maximum);
    RunsHanded(c0, es, c);
  }

  lemma ReachableLedger(c: Client)
    requires Reachable(c)
    ensures L.Taken(c.queue) <= multiset(OfferFrames(c.offers))
  {
    var limits, maximum, es :| Runs(Create(limits, maximum), es, c);
    hide Runs, Create, SentAlong, MissedAlong, L.Taken, OfferFrames;
    EverySentFrameIsAccounted(limits, maximum, es, c);
  }

  // ----- One frame -----

  /** Ending an active request by cancellation, deadline or handle release puts one more frame into a
      queue with room for it: a legal request without payload on the request's stream, with the cancel
      bit and the end-of-stream bit. */
  lemma CancelReachesTheQueue(c: Client, e: Event, r: nat) returns (g: Frame)
    requires Inv(c) && Enabled(c, e) && TableOk(c.requests, c.pending)
    requires e == CancelCalled(r) || e == DeadlineExpires(r) || e == HandleDestroyed(r)
    requires c.requests[r].op.state.OpActive? && Q.Room(c.queue, CancelFrame(c.requests[r].stream))
    ensures Apply(c, e).queue.accepted == c.queue.accepted + [g]
    ensures WellShaped(g, DEFAULT_MAX_PAYLOAD) && g.header.kind == 1 && g.header.flags == 3
    ensures g.header.stream == c.requests[r].stream && g.payload == []
  {
    hide Inv, Q.Core, Q.Room, RequestOk, Apply, Q.TryEnqueue, TableOk, WellShaped;
    g := CancelFrame(c.requests[r].stream);
    CoreOf(c);
    CancelShape(c.requests[r]);
    EndSends(c, e, r);
    Q.AdmissionIsExact(c.queue, g);
  }

  lemma CancelShape(x: Request)
    requires RequestOk(x)
    ensures var g := CancelFrame(x.stream);
            && WellShaped(g, DEFAULT_MAX_PAYLOAD) && g.header.kind == 1 && g.header.flags == 3
            && g.header.stream == x.stream && g.payload == []
  {
  }

  lemma EndSends(c: Client, e: Event, r: nat)
    requires Enabled(c, e) && TableOk(c.requests, c.pending) && r < |c.requests| && RequestOk(c.requests[r])
    requires e == CancelCalled(r) || e == DeadlineExpires(r) || e == HandleDestroyed(r)
    requires c.requests[r].op.state.OpActive?
    ensures Apply(c, e).queue == SendCancellation(c, r).queue
  {
    hide TableOk, RequestOk, CancelPending, TimeoutPending, DropHandle, SendCancellation;
    HandleSends(c, r);
  }

  /** Starting a request on an open connection puts exactly one more frame into the queue, accepted at
      once if there is room and suspended otherwise: a legal request with the encoded message as its
      payload, on the least identifier nobody holds. */
  lemma RequestReachesTheQueue(c: Client, body: seq<u8>) returns (g: Frame)
    requires Inv(c) && |body| <= DEFAULT_MAX_PAYLOAD && !ShuttingDown(c.state) && Allocate(c.ids).1.Some?
    requires !c.queue.closed && HEADER_SIZE + |body| <= c.queue.limits.maxBytes && c.queue.limits.maxFrames != 0
    ensures var q := StartRequest(c, Some(body)).queue;
            && L.Taken(q) == L.Taken(c.queue) + multiset{g}
            && q.accepted == if Q.Room(c.queue, g) then c.queue.accepted + [g] else c.queue.accepted
    ensures WellShaped(g, DEFAULT_MAX_PAYLOAD) && g.header.kind == 1 && g.header.flags == 0 && g.payload == body
    ensures g.header.stream == Allocate(c.ids).1.value
  {
    var (ids, allocation) := Allocate(c.ids);
    g := RequestFrame(allocation.value, body);
    AllocatedOwnership(c, ids, allocation);
    ValidationIsExact(g, DEFAULT_MAX_PAYLOAD);
    CoreOf(c);
    assert !Q.NeverFits(c.queue.limits, g);
    hide Inv, Allocate, Q.Core, Q.Room, RequestOk, Q.Enqueue, L.Taken, CloseChannel, Release, Fail, Q.NeverFits;
    L.EnqueueTaken(c.queue, |c.requests|, g);
    Q.EnqueueIsExact(c.queue, |c.requests|, g);
  }

  // ----- The wire -----

  /** The requests frame f was offered for. */
  ghost function Senders(offers: seq<Offer>, f: Frame): set<nat> {
    set i | 0 <= i < |offers| && offers[i].frame == f :: offers[i].request
  }

  lemma {:induction false} SenderCounts(offers: seq<Offer>, f: Frame, r: nat)
    requires r in Senders(offers, f)
    ensures OfferCount(offers, r, HasFlag(f.header.flags, CANCEL)) >= 1
  {
    hide HasFlag;
    var i :| 0 <= i < |offers| && offers[i].frame == f && offers[i].request == r;
    var front := offers[..|offers| - 1];
    if i < |front| {
      assert front[i].frame == f;
      SenderCounts(front, f, r);
    }
  }

  /** When no request has a frame of one kind offered twice, a frame was offered as often as it has
      senders. */
  lemma {:induction false} OfferedAsOften(offers: seq<Offer>, f: Frame)
    requires forall r :: OfferCount(offers, r, HasFlag(f.header.flags, CANCEL)) <= 1
    ensures multiset(OfferFrames(offers))[f] == |Senders(offers, f)|
    decreases |offers|
  {
    var cancel := HasFlag(f.header.flags, CANCEL);
    hide HasFlag;
    if offers != [] {
      var front, o := offers[..|offers| - 1], offers[|offers| - 1];
      assert offers == front + [o];
      OffersGrow(front, o);
      forall r
        ensures OfferCount(front, r, cancel) <= 1
        ensures o.frame == f && o.request == r ==> OfferCount(front, r, cancel) == 0
      {
        OfferCountSnoc(front, o, r, cancel);
      }
      OfferedAsOften(front, f);
      if o.frame == f {
        if o.request in Senders(front, f) {
          SenderCounts(front, f, o.request);
        }
        SendersGrow(front, o);
      } else {
        SendersSame(front, o, f);
      }
    }
  }

  lemma SendersGrow(offers: seq<Offer>, o: Offer)
    ensures Senders(offers + [o], o.frame) == Senders(offers, o.frame) + {o.request}
  {
    var f, all := o.frame, offers + [o];
    forall r | r in Senders(offers, f) + {o.request}
      ensures r in Senders(all, f)
    {
      if r == o.request {
        assert all[|offers|].frame == f;
      } else {
        var i :| 0 <= i < |offers| && offers[i].frame == f && offers[i].request == r;
        assert all[i].frame == f;
      }
    }
  }

  lemma SendersSame(offers: seq<Offer>, o: Offer, f: Frame)
    requires o.frame != f
    ensures Senders(offers + [o], f) == Senders(offers, f)
  {
    var all := offers + [o];
    forall r | r in Senders(offers, f)
      ensures r in Senders(all, f)
    {
      var i :| 0 <= i < |offers| && offers[i].frame == f && offers[i].request == r;
      assert all[i].frame == f;
    }
  }

  /** The requests a frame is due for: those on its stream and, for a cancel frame, among those only the
      ones ended by cancellation, handle release or deadline. */
  ghost function Due(c: Client, f: Frame): set<nat> {
    set r: nat | 0 <= r < |c.requests| && c.requests[r].stream == f.header.stream
            && (HasFlag(f.header.flags, CANCEL) ==> CancelsDue(c.requests[r].op) == 1)
  }

  /** The wire: in every reachable client the queue has accepted, and so will ever write of what it has
      accepted, only frames that were offered, and no frame more often than there are requests it is
      due for. */
  lemma WireCarriesWhatIsDue(c: Client, f: Frame)
    requires Reachable(c)
    ensures multiset(c.queue.accepted) <= multiset(OfferFrames(c.offers))
    ensures multiset(c.queue.accepted)[f] <= |Due(c, f)|
  {
    ReachableInv(c);
    ReachableLedger(c);
    OnceEach(c, f);
    hide Inv, Reachable, OfferFrames, HasFlag, CancelsDue, L.FramesOf;
    OfferedAsOften(c.offers, f);
    SendersAreDue(c, f);
    L.SmallerSet(Senders(c.offers, f), Due(c, f));
  }

  lemma OnceEach(c: Client, f: Frame)
    requires Inv(c)
    ensures forall r :: OfferCount(c.offers, r, HasFlag(f.header.flags, CANCEL)) <= 1
  {
    hide RequestsOk, TableOk, OwnershipOk, QueueOk, LifeOk, OfferCount, HasFlag, LegalFor;
    forall r | r >= |c.requests|
      ensures OfferCount(c.offers, r, HasFlag(f.header.flags, CANCEL)) == 0
    {
      OfferCountAbsent(c.offers, r, HasFlag(f.header.flags, CANCEL));
    }
  }

  lemma SendersAreDue(c: Client, f: Frame)
    requires Inv(c)
    ensures Senders(c.offers, f) <= Due(c, f)
  {
    hide RequestsOk, TableOk, OwnershipOk, QueueOk, LifeOk, OfferCount, HasFlag, LegalFor;
    forall r | r in Senders(c.offers, f)
      ensures r in Due(c, f)
    {
      var i :| 0 <= i < |c.offers| && c.offers[i].frame == f && c.offers[i].request == r;
      SenderCounts(c.offers, f, r);
    }
  }
}
