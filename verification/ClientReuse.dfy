/** Recycled identifiers meet remembered terminal streams. */
module ClientReuse {
  import opened Bytes
  import opened Frames
  import opened FrameCodec
  import opened StreamIds
  import opened Operations
  import Q = WriteQueues
  import S = Servers
  import opened Clients
  import opened ClientInvariant
  import opened ClientTheorems
  import opened ClientOutcomes
  import CL = ClientLoops

  /** A stream that has carried a terminal frame is remembered for as long as the connection lives. */
  lemma {:induction false} TerminalStreamsAreNeverForgotten(c: Client, es: seq<Event>, c': Client)
    requires Inv(c) && Runs(c, es, c')
    ensures c.terminal <= c'.terminal
    decreases es
  {
    hide Inv, TableOk, Enabled, Apply;
    if es != [] {
      ApplyInv(c, es[0]);
      StepRemembers(c, es[0]);
      TerminalStreamsAreNeverForgotten(Apply(c, es[0]), es[1..], c');
    }
  }

  lemma StepRemembers(c: Client, e: Event)
    requires TableOk(c.requests, c.pending) && Enabled(c, e)
    ensures c.terminal <= Apply(c, e).terminal
  {
    hide TableOk, Dispatch, Q.TryEnqueue, Q.Enqueue, Q.Resume, Q.Apply, Q.Enabled, CancelFrame, RequestFrame, Allocate,
      Release, CloseChannel;
    if e.FrameArrives? {
      DispatchRemembers(c, e.frame);
    }
  }

  lemma DispatchRemembers(c: Client, f: Frame)
    requires TableOk(c.requests, c.pending)
    ensures c.terminal <= Dispatch(c, f).terminal
  {
    hide TableOk, Q.TryEnqueue, CancelFrame, Release, CloseChannel, Deliver, DecodeErrorStatus, HasFlag;
  }

  /** So any response to a later request on the same identifier takes the connection down. */
  lemma RecycledStreamIsPoisoned(c: Client, es: seq<Event>, c': Client, f: Frame)
    requires Inv(c) && Runs(c, es, c') && c'.transportOpen
    requires f.header.stream in c.terminal
    ensures Inv(c') && !Dispatch(c', f).transportOpen && Dispatch(c', f).pending == map[]
  {
    hide RequestsOk, OwnershipOk, QueueOk, OffersOk, LifeOk, Runs, Dispatch;
    RunsInv(c, es, c');
    TerminalStreamsAreNeverForgotten(c, es, c');
    FrameIsolation(c', f);
  }

  /** And so a request that holds such an identifier while it is active is never answered: over any run
      it may be cancelled, time out or fail, but it never completes. */
  lemma {:induction false} PoisonedRequestNeverCompletes(c: Client, es: seq<Event>, c': Client, r: nat)
    requires Inv(c) && Runs(c, es, c') && r < |c.requests|
    requires c.requests[r].op.state.OpActive? && c.requests[r].stream in c.terminal
    ensures r < |c'.requests| && c'.requests[r].op.result != Some(Ok)
    decreases es
  {
    hide Inv, TableOk, Enabled, Apply, Ending, Settled;
    ActiveIsQuiet(c, r);
    if es != [] {
      var c1 := Apply(c, es[0]);
      RunsStep(c, es, c');
      EndingDecides(c, es[0], r);
      EndingIsNotOk(c, es[0], r);
      ApplySettles(c, es[0]);
      Kept(c, c1, r);
      StepRemembers(c, es[0]);
      ResultMeansEnded(c1, r);
      if c1.requests[r].op.result.Some? {
        OutcomeIsFinal(c1, es[1..], c', r);
        ResultStays(c1, c', r);
      } else {
        PoisonedRequestNeverCompletes(c1, es[1..], c', r);
      }
    }
  }

  lemma ResultStays(c: Client, c': Client, r: nat)
    requires r < |c.requests| && r < |c'.requests| && Settled(c.requests[r], c'.requests[r]) && c.requests[r].removed
    ensures c'.requests[r].op == c.requests[r].op
  {
  }

  /** The only cause that would give ok is a tolerated response, and none is tolerated here. */
  lemma EndingIsNotOk(c: Client, e: Event, r: nat)
    requires r < |c.requests| && Enabled(c, e) && c.requests[r].stream in c.terminal
    ensures Ending(c, e, r) != Some(Ok)
  {
    hide Q.Resume, Q.CanResume, Q.Enabled, DecodeErrorStatus, HasFlag, PeerVerdict;
  }

  // ----- It happens -----

  const WRITE: seq<Event> := [WriterStep(Q.WriterReceives), WriterStep(Q.WriterTakes), WriterStep(Q.WriteSucceeds)]

  /** A request with the given encoded message is started and completely written. */
  function Send(body: seq<u8>): seq<Event> {
    [Start(Some(body))] + WRITE
  }

  /** The server's response to it arrives. */
  function Replies(payload: seq<u8>): seq<Event>
    requires |payload| <= DEFAULT_MAX_PAYLOAD
  {
    [FrameArrives(S.ResponseFrame(1, payload))]
  }

  /** The request fits the queue. */
  predicate Fits(limits: Q.Limits, body: seq<u8>) {
    limits.maxFrames >= 1 && limits.maxBytes >= HEADER_SIZE + |body| && |body| <= DEFAULT_MAX_PAYLOAD
  }

  /** It happens on every connection that can send a request at all, with every message and every
      response: send a request and have it answered, send the next and have it answered, and that one
      has been given the first one's identifier and its own response closes the connection and fails
      it. */
  lemma RecycledStreamWitness(limits: Q.Limits, maximum: u64, body: seq<u8>, reply: seq<u8>) returns (c: Client)
    requires Fits(limits, body) && maximum >= 1 && |reply| <= DEFAULT_MAX_PAYLOAD
    ensures Runs(Create(limits, maximum), [Run] + (Send(body) + Replies(reply)) + (Send(body) + Replies(reply)), c)
    ensures |c.requests| == 2 && c.requests[0].stream == c.requests[1].stream == 1
    ensures c.requests[0].op.state.OpCompleted? && c.requests[1].op.state.OpFailed?
    ensures c.queue.sent == |c.queue.accepted| == 2 && !c.transportOpen
  {
    hide Inv, Apply, Enabled, Awake, TableOk, Runs, Send, Replies;
    var round := Send(body) + Replies(reply);
    var c0, c1 := Begun(limits, maximum, body);
    var c2 := Sent(c1, body);
    var c3 := Answered(c2, body, reply);
    CL.RunsAppend(c1, Send(body), c2, Replies(reply), c3);
    var c4 := Sent(c3, body);
    assert c4.requests[0] == c4.requests[..1][0] == c3.requests[0];
    c := AnsweredAgain(c4, body, reply);
    CL.RunsAppend(c3, Send(body), c4, Replies(reply), c);
    CL.RunsAppend(c0, [Run], c1, round, c3);
    CL.RunsAppend(c0, [Run] + round, c3, round, c);
  }

  /** A running connection with nothing left to write. */
  ghost predicate Awake(c: Client, body: seq<u8>) {
    && Inv(c) && c.state.Active? && c.started && c.reading && c.transportOpen
    && c.ids.maximum >= 1 && Fits(c.queue.limits, body) && Idle(c.queue) && |c.queue.accepted| == |c.requests|
  }

  ghost predicate Idle(q: Q.Queue) {
    Q.Inv(q) && !q.closed && q.run.Ready? && q.channel.buffer == [] && q.sent == |q.accepted|
  }

  lemma Begun(limits: Q.Limits, maximum: u64, body: seq<u8>) returns (c0: Client, c1: Client)
    requires Fits(limits, body) && maximum >= 1
    ensures c0 == Create(limits, maximum) && Runs(c0, [Run], c1)
    ensures Awake(c1, body) && c1.pending == map[] && c1.ids.inUse == {} && c1.requests == [] && c1.terminal == {}
  {
    c0 := Create(limits, maximum);
    CreateInv(limits, maximum);
    Q.CreateInv(limits);
    hide Inv, Runs, Q.Inv;
    StartRunningInv(c0);
    CL.OneStep(c0, Run);
    c1 := StartRunning(c0);
  }

  /** One request started and completely written. */
  lemma Sent(c: Client, body: seq<u8>) returns (c': Client)
    requires Awake(c, body) && c.pending == map[] && c.ids.inUse == {}
    ensures Runs(c, Send(body), c') && Awake(c', body)
    ensures c'.pending == map[1 := |c.requests|] && c'.terminal == c.terminal && c'.ids.inUse == {1}
    ensures |c'.requests| == |c.requests| + 1 && c'.requests[|c.requests|].stream == 1
    ensures c'.requests[..|c.requests|] == c.requests
  {
    hide Inv, Idle, Runs;
    var c1 := Started(c, body);
    c' := Written(c1, body);
    CL.RunsAppend(c, [Start(Some(body))], c1, WRITE, c');
  }

  /** The connection is running and its queue holds one frame. */
  ghost predicate Loaded(c: Client, body: seq<u8>) {
    && Inv(c) && c.state.Active? && c.started && c.reading && c.transportOpen
    && c.ids.maximum >= 1 && Fits(c.queue.limits, body) && HoldsOne(c.queue, RequestFrame(1, body)) && |c.queue.accepted| == |c.requests|
  }

  ghost predicate HoldsOne(q: Q.Queue, f: Frame) {
    Q.Inv(q) && !q.closed && q.run.Ready? && q.channel.buffer == [f]
  }

  lemma Started(c: Client, body: seq<u8>) returns (c': Client)
    requires Awake(c, body) && c.pending == map[] && c.ids.inUse == {}
    ensures Runs(c, [Start(Some(body))], c') && Loaded(c', body)
    ensures c'.pending == map[1 := |c.requests|] && c'.terminal == c.terminal && c'.ids.inUse == {1}
    ensures |c'.requests| == |c.requests| + 1 && c'.requests[|c.requests|].stream == 1
    ensures c'.requests[..|c.requests|] == c.requests
  {
    hide RequestsOk, TableOk, OwnershipOk, QueueOk, OffersOk, Q.Enqueue, Q.Inv, Allocate, Runs, RequestFrame;
    PartsHold(c);
    OnlyOne(c.ids);
    var f := RequestFrame(1, body);
    FrameFits(body);
    EnqueueIdle(c.queue, |c.requests|, f);
    StartRequestInv(c, Some(body));
    CL.OneStep(c, Start(Some(body)));
    c' := StartRequest(c, Some(body));
  }

  lemma FrameFits(body: seq<u8>)
    requires |body| <= DEFAULT_MAX_PAYLOAD
    ensures Q.FrameBytes(RequestFrame(1, body)) == HEADER_SIZE + |body|
  {
  }

  lemma PartsHold(c: Client)
    requires Inv(c)
    ensures Valid(c.ids) && c.ids.initiator.ClientSide? && Q.Inv(c.queue) && |c.requests| !in c.queue.producers
  {
    hide RequestsOk, TableOk, OffersOk, LifeOk, Q.Inv, Valid;
  }

  lemma OnlyOne(a: Allocator)
    requires Valid(a) && a.initiator.ClientSide? && a.maximum >= 1 && a.inUse == {}
    ensures Allocate(a).1 == Some(1) && Allocate(a).0.inUse == {1} && Allocate(a).0.maximum == a.maximum
  {
    AllocateIsLeastFree(a);
    assert Own(ClientSide, 1) && 1 !in a.inUse;
  }

  lemma EnqueueIdle(q: Q.Queue, p: nat, f: Frame)
    requires Idle(q) && p !in q.producers && Q.FrameBytes(f) <= q.limits.maxBytes && q.limits.maxFrames >= 1
    ensures var (q', o) := Q.Enqueue(q, p, f);
            o.Accepted? && HoldsOne(q', f) && q'.limits == q.limits && |q'.accepted| == |q.accepted| + 1
  {
    assert q.channel.waiters == [] && q.queuedBytes == 0;
    Q.EnqueueInv(q, p, f);
    hide Q.OrderAgrees, Q.ProducersAgree, Q.NoLostWakeup;
  }

  /** The writer takes the one frame the queue holds and writes it. */
  lemma Written(c: Client, body: seq<u8>) returns (c': Client)
    requires Loaded(c, body)
    ensures Runs(c, WRITE, c') && Awake(c', body) && c' == c.(queue := c'.queue)
  {
    hide Inv, Q.Inv, Q.Apply, Q.Enabled, Runs, HoldsOne;
    WriteOne(c.queue, RequestFrame(1, body));
    var c1 := WriterMoves(c, Q.WriterReceives);
    var c2 := WriterMoves(c1, Q.WriterTakes);
    c' := WriterMoves(c2, Q.WriteSucceeds);
    var one, two, three := WriterStep(Q.WriterReceives), WriterStep(Q.WriterTakes), WriterStep(Q.WriteSucceeds);
    CL.RunsAppend(c, [one], c1, [two], c2);
    CL.RunsAppend(c, [one] + [two], c2, [three], c');
    assert [one] + [two] + [three] == WRITE;
  }

  lemma WriterMoves(c: Client, step: Q.Event) returns (c': Client)
    requires Inv(c) && c.started && Q.Enabled(c.queue, step) && step.Internal() && !step.ProducerResumes? && !step.WriteFails?
    ensures Runs(c, [WriterStep(step)], c') && Inv(c') && c' == c.(queue := Q.Apply(c.queue, step))
  {
    hide Inv, Q.Apply, Q.Enabled, Runs;
    WriterStepInv(c, step);
    CL.OneStep(c, WriterStep(step));
    c' := WriteStep(c, step);
  }

  lemma WriteOne(q: Q.Queue, f: Frame)
    requires HoldsOne(q, f)
    ensures Q.Enabled(q, Q.WriterReceives)
    ensures var q1 := Q.Apply(q, Q.WriterReceives);
            && Q.Enabled(q1, Q.WriterTakes)
            && var q2 := Q.Apply(q1, Q.WriterTakes);
               && Q.Enabled(q2, Q.WriteSucceeds)
               && var q3 := Q.Apply(q2, Q.WriteSucceeds);
                  Idle(q3) && q3.limits == q.limits && |q3.accepted| == |q.accepted|
  {
    var q1 := Q.RunReceive(q);
    Q.RunReceiveInv(q);
    assert q1.run == Q.HandOff(f) && q1.channel.buffer == [];
    TakeInRange(q1);
    var q2 := Q.RunTake(q1);
    Q.RunTakeInv(q1);
    var q3 := Q.WriteOk(q2);
    Q.WriteOkInv(q2);
    AllSent(q3);
    hide Q.Inv;
  }

  lemma TakeInRange(q: Q.Queue)
    requires Q.Inv(q)
    ensures q.run.HandOff? ==> q.queuedBytes >= Q.FrameBytes(q.run.frame)
  {
    hide Q.OrderAgrees, Q.ProducersAgree, Q.NoLostWakeup, Q.ChannelsAgree;
  }

  lemma AllSent(q: Q.Queue)
    requires Q.Inv(q) && q.run.Ready? && q.channel.buffer == []
    ensures q.sent == |q.accepted|
  {
    assert |q.accepted[q.sent..]| == 0;
  }

  lemma Answered(c: Client, body: seq<u8>, reply: seq<u8>) returns (c': Client)
    requires Awake(c, body) && c.pending == map[1 := 0] && 1 !in c.terminal && c.ids.inUse == {1} && |c.requests| == 1
    requires |reply| <= DEFAULT_MAX_PAYLOAD
    ensures Runs(c, Replies(reply), c') && Awake(c', body)
    ensures c'.pending == map[] && 1 in c'.terminal && c'.ids.inUse == {}
    ensures |c'.requests| == 1 && c'.requests[0].op.state.OpCompleted? && c'.requests[0].stream == 1
  {
    var f := S.ResponseFrame(1, reply);
    hide Inv, Dispatch, Deliver, Release, RequestOk, Runs, Idle, HasFlag, S.ResponseFrame, Fits;
    c' := Dispatch(c, f);
    CL.FrameStep(c, f);
    ResponseHeader(reply);
    UnreleasedInTable(c, 1);
    ResponseEffect(c, f);
    ReleasedOne(c);
    DeliverKeeps(c.requests[0].(op := Complete(c.requests[0].op).0), f);
    assert c.pending - {1} == map[];
  }

  lemma ResponseHeader(reply: seq<u8>)
    requires |reply| <= DEFAULT_MAX_PAYLOAD
    ensures var h := S.ResponseFrame(1, reply).header;
            && h.kind == RESPONSE && h.stream == 1 && HasFlag(h.flags, END_OF_STREAM)
            && !HasFlag(h.flags, CANCEL) && !HasFlag(h.flags, ERROR)
  {
  }

  /** All a last response does to the connection. */
  lemma ResponseEffect(c: Client, f: Frame)
    requires TableOk(c.requests, c.pending) && f.header.stream in c.pending && f.header.stream !in c.terminal
    requires f.header.kind == RESPONSE && HasFlag(f.header.flags, END_OF_STREAM)
    requires !HasFlag(f.header.flags, CANCEL) && !HasFlag(f.header.flags, ERROR)
    requires c.requests[c.pending[f.header.stream]].op.state.OpActive?
    requires !c.requests[c.pending[f.header.stream]].released
    ensures var s, r := f.header.stream, c.pending[f.header.stream];
            var y := Deliver(c.requests[r].(op := Complete(c.requests[r].op).0), f).(removed := true, released := true);
            Dispatch(c, f) == c.(requests := c.requests[r := y], pending := c.pending - {s}, ids := Release(c.ids, s),
                                 terminal := c.terminal + {s})
  {
    var r := c.pending[f.header.stream];
    var x := c.requests[r];
    assert x.stream == f.header.stream && !x.removed;
    DeliverKeeps(x.(op := Complete(x.op).0), f);
    hide TableOk, HasFlag, Deliver, Release, CancelPending, FailConnection, DecodeErrorStatus, CloseChannel;
  }

  lemma DeliverKeeps(x: Request, f: Frame)
    ensures Deliver(x, f).op == x.op && Deliver(x, f).stream == x.stream
    ensures Deliver(x, f).removed == x.removed && Deliver(x, f).released == x.released
  {
  }

  lemma ReleasedOne(c: Client)
    requires Inv(c) && c.ids.inUse == {1}
    ensures Release(c.ids, 1).inUse == {} && Release(c.ids, 1).maximum == c.ids.maximum
  {
    hide RequestsOk, TableOk, QueueOk, OffersOk, LifeOk, Valid;
    ReleaseValid(c.ids, 1);
  }

  lemma UnreleasedInTable(c: Client, s: u64)
    requires Inv(c) && s in c.pending
    ensures !c.requests[c.pending[s]].released && c.requests[c.pending[s]].op.state.OpActive?
    ensures c.requests[c.pending[s]].stream == s
  {
    ActiveInTable(c, s);
    hide OwnershipOk, QueueOk, OffersOk;
  }

  lemma AnsweredAgain(c: Client, body: seq<u8>, reply: seq<u8>) returns (c': Client)
    requires Awake(c, body) && c.pending == map[1 := 1] && 1 in c.terminal && |c.requests| == 2
    requires c.requests[0].op.state.OpCompleted? && c.requests[0].stream == 1 && c.requests[1].stream == 1
    requires |reply| <= DEFAULT_MAX_PAYLOAD
    ensures Runs(c, Replies(reply), c')
    ensures |c'.requests| == 2 && c'.requests[0].stream == c'.requests[1].stream == 1 && !c'.transportOpen
    ensures c'.requests[0].op.state.OpCompleted? && c'.requests[1].op.state.OpFailed?
    ensures c'.queue.sent == |c'.queue.accepted| == 2
  {
    var f := S.ResponseFrame(1, reply);
    hide Inv, Dispatch, Runs, FailPending, HasFlag, S.ResponseFrame, Fits, Settled;
    c' := Dispatch(c, f);
    ResponseHeader(reply);
    CL.FrameStep(c, f);
    UnreleasedInTable(c, 1);
    EndedIsRemoved(c, 0);
    FrameIsolation(c, f);
    IntolerableFailsAll(c, f);
    FailKeepsQueue(c, IntolerableStatus(c, f));
    DispatchSettles(c, f);
    Kept(c, c', 0);
    Kept(c, c', 1);
  }

  lemma EndedIsRemoved(c: Client, r: nat)
    requires Inv(c) && r < |c.requests| && c.requests[r].op.state.OpCompleted?
    ensures c.requests[r].removed
    ensures c.pending == map[1 := 1] && |c.requests| == 2 ==> !c.requests[1].removed
  {
    assert RequestOk(c.requests[r]);
    hide OwnershipOk, QueueOk, OffersOk, LifeOk, RequestOk;
    assert 1 in c.pending || c.pending != map[1 := 1];
  }

  lemma Kept(c: Client, c': Client, r: nat)
    requires r < |c.requests| && AllSettled(c.requests, c'.requests)
    ensures c'.requests[r].stream == c.requests[r].stream
    ensures c.requests[r].removed ==> c'.requests[r].op == c.requests[r].op
  {
    assert Settled(c.requests[r], c'.requests[r]);
  }

  lemma FailKeepsQueue(c: Client, status: StatusCode)
    ensures FailPending(c, status).queue == c.queue
  {
  }
}
