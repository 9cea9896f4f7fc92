/** Progress of the write queue: left to itself it always comes to rest, in a bounded number of
    steps, with no producer still suspended. */
module WriteQueueProgress {
  import opened Frames
  import opened FrameCodec
  import opened Channels
  import opened WriteQueues
  import opened WriteQueueLedger

  ghost function SignalledSet(m: map<nat, Producer>): set<nat> {
    set p | p in m && m[p].wait.Signalled?
  }

  lemma AddProducer(m: map<nat, Producer>, p: nat, x: Producer)
    requires p !in m
    ensures |m[p := x]| == |m| + 1
    ensures |SignalledSet(m[p := x])| == |SignalledSet(m)| + if x.wait.Signalled? then 1 else 0
  {
    if x.wait.Signalled? {
      assert SignalledSet(m[p := x]) == SignalledSet(m) + {p};
    } else {
      assert SignalledSet(m[p := x]) == SignalledSet(m);
    }
  }

  function Rank(run: RunState): nat {
    match run
    case Writing(_) => 3
    case Ready => 2
    case Receiving => 1
    case HandOff(_) => 1
    case Ending => 1
    case Finished => 0
    case Failed(_) => 0
  }

  /** Work left: four units for each frame not yet taken by the writer, one for each wake-up not yet
      used, and the writer's position. */
  ghost function Potential(q: Queue): nat {
    4 * (|q.producers| + |q.channel.buffer| + if q.run.HandOff? then 1 else 0)
    + |q.space.buffer| + |SignalledSet(q.producers)| + Rank(q.run)
  }

  lemma TryEnqueuePotential(q: Queue, f: Frame)
    requires ChannelsAgree(q)
    ensures Potential(TryEnqueue(q, f).0) <= Potential(q) + 4
  {
    assert SignalledSet(TryEnqueue(q, f).0.producers) == SignalledSet(q.producers);
    assert |q.channel.buffer + [f]| == |q.channel.buffer| + 1;
    hide SignalledSet;
  }

  lemma SuspendPotential(q: Queue, p: nat, producer: Producer, space: Channel<(), nat>)
    requires p !in q.producers
    ensures var q' := q.(space := space, producers := q.producers[p := producer]);
            Potential(q') == Potential(q) + 4 + |space.buffer| - |q.space.buffer|
                             + if producer.wait.Signalled? then 1 else 0
  {
    hide SignalledSet;
    AddProducer(q.producers, p, producer);
  }

  lemma AttemptPotential(q: Queue, p: nat, f: Frame)
    requires ChannelsAgree(q) && p !in q.producers
    ensures Potential(Attempt(q, p, f).0) <= Potential(q) + 4
  {
    hide TryEnqueue, ChannelsAgree, Potential;
    TryEnqueuePotential(q, f);
    var (q', o) := Attempt(q, p, f);
    if o.Blocked? {
      SuspendPotential(q, p, q'.producers[p], q'.space);
    }
  }

  lemma ResumePotential(q: Queue, p: nat)
    requires Inv(q) && CanResume(q, p)
    ensures Potential(Resume(q, p).0) < Potential(q)
  {
    hide Attempt, BytesAgree, OrderAgrees, NoLostWakeup, SignalledSet;
    var q1 := q.(producers := q.producers - {p});
    assert q.producers == q1.producers[p := q.producers[p]];
    AddProducer(q1.producers, p, q.producers[p]);
    if q.producers[p].wait.Signalled? {
      AttemptPotential(q1, p, q.producers[p].frame);
    }
  }

  lemma RunTakePotential(q: Queue)
    requires Inv(q) && q.run.HandOff? && q.queuedBytes >= FrameBytes(q.run.frame)
    ensures Potential(RunTake(q)) < Potential(q)
  {
    hide BytesAgree, OrderAgrees, NoLostWakeup;
    var q' := RunTake(q);
    if q.space.waiters != [] {
      var w := q.space.waiters[0];
      assert w in q.producers && q.producers[w].wait.Waiting?;
      assert q'.producers.Keys == q.producers.Keys;
      assert |q'.producers| == |q'.producers.Keys| == |q.producers.Keys| == |q.producers|;
      assert SignalledSet(q'.producers) == SignalledSet(q.producers) + {w};
    } else {
      assert SignalledSet(q'.producers) == SignalledSet(q.producers);
    }
  }

  lemma WriteFailPotential(q: Queue, n: nat)
    requires Inv(q) && q.run.Writing? && n <= |EncodeFrame(q.run.frame)|
    ensures Potential(WriteFail(q, n)) < Potential(q)
  {
    hide Inv, EncodeFrame;
    CloseInv(q);
    var q' := WriteFail(q, n);
    assert |q'.producers| == |q'.producers.Keys| == |q.producers.Keys| == |q.producers|;
    assert SignalledSet(q'.producers) == SignalledSet(q.producers);
  }

  /** In every reachable queue: the byte counter is the encoded size of what is buffered and in
      hand-off and is within the limit; accepted frames leave in acceptance order, none lost and none
      twice; and while the queue is open, a suspended producer means a frame buffered, a frame in
      hand-off, or a producer woken that has not retried. */
  lemma QueueSafety(limits: Limits, es: seq<Event>, q: Queue)
    requires Runs(Create(limits), es, q)
    ensures q.queuedBytes == TotalBytes(q.channel.buffer) + (if q.run.HandOff? then FrameBytes(q.run.frame) else 0)
    ensures q.queuedBytes <= q.limits.maxBytes && |q.channel.buffer| <= q.limits.maxFrames
    ensures q.sent <= |q.accepted| && q.accepted == q.accepted[..q.sent] + InFlight(q.run) + q.channel.buffer
    ensures !q.run.Failed? ==> q.wire == EncodeAll(q.accepted[..q.sent])
    ensures !q.closed && (exists p :: p in q.producers && q.producers[p].wait.Waiting?) ==>
              q.channel.buffer != [] || q.run.HandOff? || SomeSignalled(q)
  {
    hide Inv, Runs, Create, EncodeAll, TotalBytes, SomeSignalled, InFlight;
    CreateInv(limits);
    RunsInv(Create(limits), es, q);
    AccountingHolds(q);
    OrderHolds(q);
    WakeupHolds(q);
  }

  lemma AccountingHolds(q: Queue)
    requires Inv(q)
    ensures q.queuedBytes == TotalBytes(q.channel.buffer) + (if q.run.HandOff? then FrameBytes(q.run.frame) else 0)
    ensures q.queuedBytes <= q.limits.maxBytes && |q.channel.buffer| <= q.limits.maxFrames
  {
    hide OrderAgrees, ProducersAgree, NoLostWakeup, TotalBytes;
  }

  lemma OrderHolds(q: Queue)
    requires Inv(q)
    ensures q.sent <= |q.accepted| && q.accepted == q.accepted[..q.sent] + InFlight(q.run) + q.channel.buffer
    ensures !q.run.Failed? ==> q.wire == EncodeAll(q.accepted[..q.sent])
  {
    hide ChannelsAgree, BytesAgree, ProducersAgree, NoLostWakeup, EncodeAll, EncodeFrame, InFlight;
    assert q.accepted == q.accepted[..q.sent] + q.accepted[q.sent..];
  }

  lemma WakeupHolds(q: Queue)
    requires Inv(q)
    ensures !q.closed && (exists p :: p in q.producers && q.producers[p].wait.Waiting?) ==>
              q.channel.buffer != [] || q.run.HandOff? || SomeSignalled(q)
  {
    hide ChannelsAgree, BytesAgree, OrderAgrees, SomeSignalled;
  }

  /** Every step of the queue's own coroutines uses up potential. */
  lemma InternalStepDecreases(q: Queue, e: Event)
    requires Inv(q) && Enabled(q, e) && e.Internal()
    ensures Potential(Apply(q, e)) < Potential(q)
  {
    match e
    case ProducerResumes(p) => ResumePotential(q, p);
    case WriterTakes => RunTakePotential(q);
    case WriteFails(n) => WriteFailPotential(q, n);
    case WriterReceives => assert SignalledSet(RunReceive(q).producers) == SignalledSet(q.producers);
    case WriterEnds => assert SignalledSet(RunEnd(q).producers) == SignalledSet(q.producers);
    case WriteSucceeds => assert SignalledSet(WriteOk(q).producers) == SignalledSet(q.producers);
  }

  ghost predicate AllInternal(es: seq<Event>) {
    forall i :: 0 <= i < |es| ==> es[i].Internal()
  }

  /** No coroutine of the queue can take a step. */
  ghost predicate AtRest(q: Queue) {
    forall e: Event :: e.Internal() ==> !Enabled(q, e)
  }

  /** However the queue's coroutines are scheduled, they take at most Potential(q) steps. */
  lemma {:induction false} InternalRunsAreBounded(q: Queue, es: seq<Event>, q': Queue)
    requires Inv(q) && Runs(q, es, q') && AllInternal(es)
    ensures Inv(q') && |es| + Potential(q') <= Potential(q)
    decreases es
  {
    hide Inv, Enabled, Apply, Potential;
    if es != [] {
      assert es[0].Internal();
      ApplyInv(q, es[0]);
      InternalStepDecreases(q, es[0]);
      InternalRunsAreBounded(Apply(q, es[0]), es[1..], q');
    }
  }

  /** When nothing can move, no producer is suspended: an open queue is empty with its writer waiting
      for a frame, and a closed one has a writer that has returned. */
  lemma AtRestMeansDrained(q: Queue)
    requires Inv(q) && AtRest(q)
    ensures q.producers == map[]
    ensures !q.closed ==> q.run.Receiving? && q.channel.buffer == []
    ensures q.closed ==> q.run.Finished? || q.run.Failed?
  {
    hide OrderAgrees;
    assert !Enabled(q, WriterReceives) && !Enabled(q, WriterTakes) && !Enabled(q, WriterEnds);
    assert !Enabled(q, WriteSucceeds);
    forall p | p in q.producers
      ensures q.producers[p].wait.Waiting?
    {
      assert !Enabled(q, ProducerResumes(p));
    }
    assert !SomeSignalled(q);
    assert q.space.waiters == [];
    assert forall p :: p in q.producers ==> p in q.space.waiters;
    assert q.producers.Keys == {};
  }

  /** Some internal step that does not fail is enabled unless the queue is at rest. */
  lemma NextStep(q: Queue) returns (e: Event)
    requires !AtRest(q)
    ensures e.Internal() && Enabled(q, e) && !e.WriteFails?
  {
    e :| e.Internal() && Enabled(q, e);
    if e.WriteFails? {
      e := WriteSucceeds;
    }
  }

  /** While no write fails and no one closes the queue, what it has taken on is conserved: a producer
      stops waiting only by having its own frame accepted. */
  lemma StepConserves(q: Queue, e: Event)
    requires Inv(q) && Enabled(q, e) && e.Internal() && !e.WriteFails? && !q.closed
    ensures !Apply(q, e).closed && q.accepted <= Apply(q, e).accepted
    ensures Taken(Apply(q, e)) == Taken(q)
  {
    hide Taken;
    match e
    case ProducerResumes(p) =>
      ResumeTaken(q, p);
      ResumeAccepts(q, p);
    case _ =>
      WriterTaken(q, e);
      hide OrderAgrees, BytesAgree, NoLostWakeup, ProducersAgree;
  }

  lemma ResumeAccepts(q: Queue, p: nat)
    requires Inv(q) && CanResume(q, p) && !q.closed
    ensures var (q', o) := Resume(q, p);
            !o.Rejected? && !q'.closed && q.accepted <= q'.accepted
  {
    hide OrderAgrees, BytesAgree, NoLostWakeup;
    assert !q.producers[p].wait.Refused?;
  }

  /** No write of the schedule fails. */
  ghost predicate NoFailure(es: seq<Event>) {
    forall i :: 0 <= i < |es| ==> !es[i].WriteFails?
  }

  lemma {:induction false} RunsConserve(q: Queue, es: seq<Event>, q': Queue)
    requires Inv(q) && !q.closed && Runs(q, es, q') && AllInternal(es) && NoFailure(es)
    ensures Inv(q') && !q'.closed && q.accepted <= q'.accepted && Taken(q') == Taken(q)
    decreases es
  {
    hide Inv, Enabled, Apply, Taken;
    if es != [] {
      assert es[0].Internal() && !es[0].WriteFails?;
      ApplyInv(q, es[0]);
      StepConserves(q, es[0]);
      RunsConserve(Apply(q, es[0]), es[1..], q');
    }
  }

  /** Every schedule drains: however an open queue's coroutines are scheduled, as long as no write
      fails, once they come to rest (which they do, within the bound above) no producer is suspended,
      and what has been accepted is exactly what was accepted before and the suspended producers' own
      frames, all of it on the wire. */
  lemma EveryScheduleDrains(q: Queue, es: seq<Event>, q': Queue)
    requires Inv(q) && !q.closed && Runs(q, es, q') && AllInternal(es) && NoFailure(es) && AtRest(q')
    ensures q'.producers == map[] && q'.run.Receiving? && q.accepted <= q'.accepted
    ensures multiset(q'.accepted) == multiset(q.accepted) + FramesOf(q.producers)
    ensures q'.sent == |q'.accepted| && q'.wire == EncodeAll(q'.accepted)
  {
    hide Inv, Runs, AtRest, EncodeAll;
    RunsConserve(q, es, q');
    AtRestMeansDrained(q');
    AtRestAllSent(q');
    OrderHolds(q');
    assert q'.accepted[..q'.sent] == q'.accepted;
  }

  /** And there is such a schedule: no producer of an open queue is stuck. */
  lemma {:induction false} EveryProducerIsAccepted(q: Queue) returns (es: seq<Event>, q': Queue)
    requires Inv(q) && !q.closed
    ensures Runs(q, es, q') && AllInternal(es) && NoFailure(es) && AtRest(q')
    ensures q'.producers == map[] && q'.run.Receiving? && q'.sent == |q'.accepted|
    ensures q.accepted <= q'.accepted && multiset(q'.accepted) == multiset(q.accepted) + FramesOf(q.producers)
    decreases Potential(q)
  {
    hide Core, NoLostWakeup, Enabled, Apply, Potential, FramesOf;
    if AtRest(q) {
      es, q' := [], q;
    } else {
      var e := NextStep(q);
      ApplyInv(q, e);
      InternalStepDecreases(q, e);
      StepConserves(q, e);
      var rest: seq<Event>;
      rest, q' := EveryProducerIsAccepted(Apply(q, e));
      es := [e] + rest;
      assert es[1..] == rest;
    }
    EveryScheduleDrains(q, es, q');
  }

  lemma AtRestAllSent(q: Queue)
    requires Inv(q) && q.run.Receiving? && q.channel.buffer == []
    ensures q.sent == |q.accepted|
  {
    assert |q.accepted[q.sent..]| == 0;
  }
}
