/** The write queue as a step system: producers, the single writer, and the two channels between
    them. A step is what runs between two suspension points. */
module WriteQueues {
  import opened Bytes
  import opened Frames
  import opened FrameCodec
  import opened Channels

  datatype Limits = Limits(maxFrames: u64, maxBytes: u64)

  /** A coroutine suspended in enqueue's wait for space. */
  datatype Wait = Waiting | Signalled | Refused
  datatype Producer = Producer(frame: Frame, wait: Wait)

  datatype Writer = Writer

  /** Where run() is: about to receive, suspended in receive, resumed with a frame or with the
      end of the channel, writing, or returned. */
  datatype RunState =
    | Ready
    | Receiving
    | HandOff(frame: Frame)
    | Ending
    | Writing(frame: Frame)
    | Finished
    | Failed(frame: Frame)

  datatype Queue = Queue(
    limits: Limits,
    queuedBytes: nat,
    closed: bool,
    channel: Channel<Frame, Writer>,
    space: Channel<(), nat>,
    run: RunState,
    producers: map<nat, Producer>,
    accepted: seq<Frame>,   // every frame accepted so far, in acceptance order
    sent: nat,              // how many of them are completely written
    wire: seq<u8>)          // every byte the transport has taken

  function SpaceSignalCapacity(limits: Limits): nat {
    if limits.maxFrames == U64_MAX || limits.maxFrames == 0 then 1 else limits.maxFrames
  }

  function Create(limits: Limits): Queue {
    Queue(limits, 0, false, Open(limits.maxFrames), Open(SpaceSignalCapacity(limits)),
          Ready, map[], [], 0, [])
  }

  function FrameBytes(f: Frame): nat {
    HEADER_SIZE + |f.payload|
  }

  predicate CanFit(q: Queue, bytes: nat) {
    && !q.closed && q.limits.maxFrames != 0 && bytes <= q.limits.maxBytes
    && q.queuedBytes <= q.limits.maxBytes - bytes
  }

  function TryEnqueue(q: Queue, f: Frame): (Queue, bool) {
    if !CanFit(q, FrameBytes(f)) then (q, false)
    else
      var (channel, outcome) := TrySend(q.channel, f);
      if outcome.NotSent? then (q, false)
      else
        (q.(channel := channel,
            run := if outcome.Handed? then HandOff(f) else q.run,
            queuedBytes := q.queuedBytes + FrameBytes(f),
            accepted := q.accepted + [f]), true)
  }

  datatype Outcome = Accepted | Rejected | Blocked

  /** One turn of enqueue's loop, up to its next suspension or return. */
  function Attempt(q: Queue, p: nat, f: Frame): (Queue, Outcome) {
    var (q', ok) := TryEnqueue(q, f);
    if ok then (q', Accepted)
    else if q.closed then (q, Rejected)
    else
      var (space, outcome) := Receive(q.space, p);
      var wait := if outcome.Received? then Signalled else if outcome.EndOfChannel? then Refused else Waiting;
      (q.(space := space, producers := q.producers[p := Producer(f, wait)]), Blocked)
  }

  /** enqueue called by producer p. */
  function Enqueue(q: Queue, p: nat, f: Frame): (Queue, Outcome) {
    if FrameBytes(f) > q.limits.maxBytes || q.limits.maxFrames == 0 then (q, Rejected)
    else Attempt(q, p, f)
  }

  predicate CanResume(q: Queue, p: nat) {
    p in q.producers && !q.producers[p].wait.Waiting?
  }

  /** A producer whose wait for space has ended: try again, or give up if the channel was closed. */
  function Resume(q: Queue, p: nat): (Queue, Outcome)
    requires CanResume(q, p)
  {
    var q' := q.(producers := q.producers - {p});
    if q.producers[p].wait.Refused? then (q', Rejected) else Attempt(q', p, q.producers[p].frame)
  }

  function CloseQueue(q: Queue): Queue {
    q.(closed := true, channel := Close(q.channel), space := Close(q.space),
       run := if q.run.Receiving? then Ending else q.run,
       producers := map p | p in q.producers ::
         if q.producers[p].wait.Waiting? then q.producers[p].(wait := Refused) else q.producers[p])
  }

  /** run() asks for the next frame. */
  function RunReceive(q: Queue): Queue
    requires q.run.Ready?
  {
    var (channel, outcome) := Receive(q.channel, Writer);
    q.(channel := channel,
       run := match outcome case Received(f) => HandOff(f) case EndOfChannel => Ending case Suspends => Receiving)
  }

  /** run() resumes with a frame: account for it, signal one producer, start the write. */
  function RunTake(q: Queue): Queue
    requires q.run.HandOff? && q.queuedBytes >= FrameBytes(q.run.frame)
  {
    var (space, outcome) := TrySend(q.space, ());
    q.(queuedBytes := q.queuedBytes - FrameBytes(q.run.frame), space := space, run := Writing(q.run.frame),
       producers := if outcome.Handed? && outcome.to in q.producers
                    then q.producers[outcome.to := q.producers[outcome.to].(wait := Signalled)]
                    else q.producers)
  }

  function RunEnd(q: Queue): Queue
    requires q.run.Ending?
  {
    q.(run := Finished)
  }

  function WriteOk(q: Queue): Queue
    requires q.run.Writing?
  {
    q.(run := Ready, sent := q.sent + 1, wire := q.wire + EncodeFrame(q.run.frame))
  }

  /** The transport took n bytes of the frame and then failed. */
  function WriteFail(q: Queue, n: nat): Queue
    requires q.run.Writing? && n <= |EncodeFrame(q.run.frame)|
  {
    CloseQueue(q).(run := Failed(q.run.frame), wire := q.wire + EncodeFrame(q.run.frame)[..n])
  }

  // ----- Invariant -----

  function TotalBytes(fs: seq<Frame>): nat {
    if fs == [] then 0 else FrameBytes(fs[0]) + TotalBytes(fs[1..])
  }

  /** The frame run() holds and has not completely written. */
  function InFlight(run: RunState): seq<Frame> {
    match run
    case HandOff(f) => [f]
    case Writing(f) => [f]
    case Failed(f) => [f]
    case _ => []
  }

  ghost predicate ChannelsAgree(q: Queue) {
    && q.channel.closed == q.closed && q.space.closed == q.closed
    && q.channel.capacity == q.limits.maxFrames
    && q.space.capacity == SpaceSignalCapacity(q.limits)
    && Consistent(q.channel) && Consistent(q.space)
    && q.channel.waiters == (if q.run.Receiving? then [Writer] else [])
    && (q.run.Ending? || q.run.Finished? ==> q.closed && q.channel.buffer == [])
    && (q.run.Failed? ==> q.closed)
  }

  /** The byte counter is the encoded size of what is buffered plus what is in hand-off. */
  ghost predicate BytesAgree(q: Queue) {
    && q.queuedBytes == TotalBytes(q.channel.buffer) + (if q.run.HandOff? then FrameBytes(q.run.frame) else 0)
    && q.queuedBytes <= q.limits.maxBytes
  }

  ghost predicate ProducersAgree(q: Queue) {
    && (forall p :: p in q.space.waiters <==> p in q.producers && q.producers[p].wait.Waiting?)
    && (forall i, j :: 0 <= i < j < |q.space.waiters| ==> q.space.waiters[i] != q.space.waiters[j])
    && (forall p :: p in q.producers && q.producers[p].wait.Refused? ==> q.closed)
    && (q.producers != map[] ==> q.limits.maxFrames != 0)
    && (forall p :: p in q.producers ==> FrameBytes(q.producers[p].frame) <= q.limits.maxBytes)
  }

  /** Frames leave in acceptance order, and the wire holds exactly their encodings. */
  ghost predicate OrderAgrees(q: Queue) {
    && q.sent <= |q.accepted|
    && q.accepted[q.sent..] == InFlight(q.run) + q.channel.buffer
    && (if q.run.Failed?
        then EncodeAll(q.accepted[..q.sent]) <= q.wire <= EncodeAll(q.accepted[..q.sent]) + EncodeFrame(q.run.frame)
        else q.wire == EncodeAll(q.accepted[..q.sent]))
  }

  ghost predicate SomeSignalled(q: Queue) {
    exists p :: p in q.producers && q.producers[p].wait.Signalled?
  }

  /** No lost wake-up: while the queue is open, a producer can be suspended only if a frame is
      buffered, a frame is in hand-off, or some producer has been woken and has not retried. */
  ghost predicate NoLostWakeup(q: Queue) {
    !q.closed && q.space.waiters != [] ==> q.channel.buffer != [] || q.run.HandOff? || SomeSignalled(q)
  }

  ghost predicate Core(q: Queue) {
    ChannelsAgree(q) && BytesAgree(q) && ProducersAgree(q) && OrderAgrees(q)
  }

  ghost predicate Inv(q: Queue) {
    Core(q) && NoLostWakeup(q)
  }

  lemma {:induction false} TotalBytesSnoc(fs: seq<Frame>, f: Frame)
    ensures TotalBytes(fs + [f]) == TotalBytes(fs) + FrameBytes(f)
  {
    if fs == [] {
      assert fs + [f] == [f];
    } else {
      TotalBytesSnoc(fs[1..], f);
      assert (fs + [f])[1..] == fs[1..] + [f];
    }
  }

  lemma CreateInv(limits: Limits)
    ensures Inv(Create(limits))
  {
  }

  /** The order and byte accounts depend on these fields only. */
  lemma AccountsFrame(q: Queue, q': Queue)
    requires BytesAgree(q) && OrderAgrees(q)
    requires q'.channel.buffer == q.channel.buffer && q'.run == q.run && q'.queuedBytes == q.queuedBytes
    requires q'.limits == q.limits && q'.accepted == q.accepted && q'.sent == q.sent && q'.wire == q.wire
    ensures BytesAgree(q') && OrderAgrees(q')
  {
  }

  lemma TryEnqueueChannels(q: Queue, f: Frame)
    requires ChannelsAgree(q) && BytesAgree(q)
    ensures ChannelsAgree(TryEnqueue(q, f).0) && BytesAgree(TryEnqueue(q, f).0)
  {
    TotalBytesSnoc(q.channel.buffer, f);
    hide EncodeAll, EncodeFrame;
    assert q.run.HandOff? && q.channel.waiters != [] ==> false;
  }

  lemma TryEnqueueOrder(q: Queue, f: Frame)
    requires ChannelsAgree(q) && OrderAgrees(q)
    ensures OrderAgrees(TryEnqueue(q, f).0)
  {
    hide EncodeAll, EncodeFrame;
    var (q', ok) := TryEnqueue(q, f);
    if ok {
      assert q'.accepted[..q'.sent] == q.accepted[..q.sent];
      assert q'.accepted[q'.sent..] == q.accepted[q.sent..] + [f];
    }
  }

  lemma TryEnqueueCore(q: Queue, f: Frame)
    requires Core(q)
    ensures var (q', ok) := TryEnqueue(q, f);
            && Core(q') && q'.producers == q.producers && q'.space == q.space && q'.closed == q.closed
            && (if ok then (q'.channel.buffer != [] || q'.run.HandOff?) && q'.accepted == q.accepted + [f]
                else q' == q)
  {
    TryEnqueueChannels(q, f);
    TryEnqueueOrder(q, f);
    hide ChannelsAgree, BytesAgree, OrderAgrees;
  }

  lemma TryEnqueueInv(q: Queue, f: Frame)
    requires Inv(q)
    ensures Inv(TryEnqueue(q, f).0)
  {
    hide Core, TryEnqueue;
    TryEnqueueCore(q, f);
  }

  /** A frame that an open queue refuses although it would fit an empty one meets a frame that is
      buffered or in hand-off. */
  lemma RefusalMeetsAFrame(q: Queue, f: Frame)
    requires Core(q) && !q.closed && !TryEnqueue(q, f).1
    requires FrameBytes(f) <= q.limits.maxBytes && q.limits.maxFrames != 0
    ensures q.channel.buffer != [] || q.run.HandOff?
  {
    hide OrderAgrees, ProducersAgree;
  }

  /** Room for a frame: the queue is open, the bytes buffered and in hand-off leave enough of the limit,
      and the frame has a free slot or a waiting writer. */
  predicate Room(q: Queue, f: Frame) {
    && !q.closed && q.limits.maxFrames != 0
    && TotalBytes(q.channel.buffer) + (if q.run.HandOff? then |EncodeFrame(q.run.frame)| else 0) + |EncodeFrame(f)|
       <= q.limits.maxBytes
    && (q.run.Receiving? || |q.channel.buffer| < q.limits.maxFrames)
  }

  /** Admission is exact: try_enqueue takes a frame exactly when there is room for it. */
  lemma AdmissionIsExact(q: Queue, f: Frame)
    requires Core(q)
    ensures var (q', ok) := TryEnqueue(q, f);
            (ok <==> Room(q, f)) && q'.accepted == if Room(q, f) then q.accepted + [f] else q.accepted
  {
    hide OrderAgrees, ProducersAgree, TotalBytes;
  }

  /** A frame no queue with these limits ever takes. */
  predicate NeverFits(limits: Limits, f: Frame) {
    |EncodeFrame(f)| > limits.maxBytes || limits.maxFrames == 0
  }

  /** And so is enqueue: accepted at once exactly when there is room, rejected exactly when the queue is
      closed or could never hold the frame, and suspended exactly otherwise. */
  lemma EnqueueIsExact(q: Queue, p: nat, f: Frame)
    requires Core(q)
    ensures var (q', o) := Enqueue(q, p, f);
            && (o.Accepted? <==> Room(q, f))
            && (o.Rejected? <==> q.closed || NeverFits(q.limits, f))
            && (o.Blocked? <==> !q.closed && !NeverFits(q.limits, f) && !Room(q, f))
            && q'.accepted == if Room(q, f) then q.accepted + [f] else q.accepted
  {
    hide Core, TryEnqueue, TotalBytes;
    AdmissionIsExact(q, f);
  }

  /** A resumed producer: accepted exactly when there is room, rejected exactly when the queue is closed. */
  lemma ResumeIsExact(q: Queue, p: nat)
    requires Core(q) && CanResume(q, p)
    ensures var (q', o) := Resume(q, p);
            && (o.Accepted? <==> Room(q, q.producers[p].frame))
            && (o.Rejected? <==> q.closed)
            && q'.accepted == if o.Accepted? then q.accepted + [q.producers[p].frame] else q.accepted
  {
    var f, q1 := q.producers[p].frame, q.(producers := q.producers - {p});
    assert Room(q1, f) == Room(q, f);
    assert q.producers[p].wait.Refused? ==> q.closed;
    hide TryEnqueue, TotalBytes, OrderAgrees, BytesAgree;
    WithoutProducer(q, p);
    AdmissionIsExact(q1, f);
  }

  /** What one turn of enqueue's loop does to the producers. */
  ghost predicate OnlyProducer(q: Queue, q': Queue, p: nat) {
    q'.producers - {p} == q.producers - {p}
  }

  lemma AttemptInv(q: Queue, p: nat, f: Frame)
    requires Core(q) && p !in q.producers
    requires FrameBytes(f) <= q.limits.maxBytes && q.limits.maxFrames != 0
    ensures Inv(Attempt(q, p, f).0)
    ensures var (q', o) := Attempt(q, p, f);
            && OnlyProducer(q, q', p)
            && (o.Blocked? <==> p in q'.producers)
            && (o.Blocked? ==> q'.producers[p].frame == f && !q.closed && !q'.producers[p].wait.Refused?)
            && (q'.accepted == if o.Accepted? then q.accepted + [f] else q.accepted)
            && (o.Rejected? ==> q.closed)
  {
    hide OrderAgrees, BytesAgree, TryEnqueue;
    TryEnqueueCore(q, f);
    if !TryEnqueue(q, f).1 && !q.closed {
      RefusalMeetsAFrame(q, f);
      var q' := Attempt(q, p, f).0;
      AccountsFrame(q, q');
      if q'.producers[p].wait.Waiting? {
        assert forall r :: r in q'.space.waiters <==> r in q.space.waiters || r == p;
      }
      assert q'.producers - {p} == q.producers - {p};
    }
  }

  lemma EnqueueInv(q: Queue, p: nat, f: Frame)
    requires Inv(q) && p !in q.producers
    ensures Inv(Enqueue(q, p, f).0)
    ensures var (q', o) := Enqueue(q, p, f);
            && OnlyProducer(q, q', p)
            && (o.Blocked? <==> p in q'.producers)
            && (o.Blocked? ==> q'.producers[p].frame == f)
            && (q'.accepted == if o.Accepted? then q.accepted + [f] else q.accepted)
            && (o.Rejected? ==> q.closed || FrameBytes(f) > q.limits.maxBytes || q.limits.maxFrames == 0)
  {
    hide Core, Attempt;
    if FrameBytes(f) <= q.limits.maxBytes && q.limits.maxFrames != 0 {
      AttemptInv(q, p, f);
    }
  }

  /** A woken producer, taken out of the table before it retries, leaves the accounts in order. */
  lemma WithoutProducer(q: Queue, p: nat)
    requires Core(q) && CanResume(q, p)
    ensures Core(q.(producers := q.producers - {p}))
  {
    hide OrderAgrees, BytesAgree;
    AccountsFrame(q, q.(producers := q.producers - {p}));
    assert p !in q.space.waiters;
  }

  lemma ResumeInv(q: Queue, p: nat)
    requires Inv(q) && CanResume(q, p)
    ensures Inv(Resume(q, p).0)
    ensures var (q', o) := Resume(q, p);
            && OnlyProducer(q, q', p)
            && (o.Blocked? <==> p in q'.producers)
            && (o.Blocked? ==> q'.producers[p].frame == q.producers[p].frame && !q'.producers[p].wait.Refused?)
            && (q'.accepted == if o.Accepted? then q.accepted + [q.producers[p].frame] else q.accepted)
            && (o.Rejected? ==> q.closed)
  {
    hide OrderAgrees, BytesAgree, Attempt;
    var q1 := q.(producers := q.producers - {p});
    WithoutProducer(q, p);
    if q.producers[p].wait.Signalled? {
      AttemptInv(q1, p, q.producers[p].frame);
      var q' := Resume(q, p).0;
      assert OnlyProducer(q1, q', p) && q1.producers - {p} == q.producers - {p};
    }
  }

  lemma CloseInv(q: Queue)
    requires Inv(q)
    ensures Inv(CloseQueue(q)) && CloseQueue(q).closed && CloseQueue(q).accepted == q.accepted
    ensures CloseQueue(q).producers.Keys == q.producers.Keys
    ensures forall p :: p in q.producers ==> CloseQueue(q).producers[p].frame == q.producers[p].frame
  {
    hide EncodeAll, EncodeFrame, TotalBytes;
    var q' := CloseQueue(q);
    assert InFlight(q'.run) == InFlight(q.run);
    assert q'.producers != map[] ==> q.producers != map[];
  }

  lemma RunReceiveInv(q: Queue)
    requires Inv(q) && q.run.Ready?
    ensures Inv(RunReceive(q))
  {
    hide EncodeAll, EncodeFrame, FrameBytes;
    var q' := RunReceive(q);
    assert SomeSignalled(q) ==> SomeSignalled(q');
    if q.channel.buffer != [] {
      hide TotalBytes;
      TotalBytesSplit(q.channel.buffer);
      assert q.channel.buffer == [q.channel.buffer[0]] + q.channel.buffer[1..];
    }
  }

  lemma TotalBytesSplit(fs: seq<Frame>)
    requires fs != []
    ensures TotalBytes(fs) == FrameBytes(fs[0]) + TotalBytes(fs[1..])
  {
  }

  lemma RunTakeProducers(q: Queue)
    requires ChannelsAgree(q) && ProducersAgree(q) && q.run.HandOff? && q.queuedBytes >= FrameBytes(q.run.frame)
    ensures ChannelsAgree(RunTake(q)) && ProducersAgree(RunTake(q)) && NoLostWakeup(RunTake(q))
    ensures RunTake(q).producers.Keys == q.producers.Keys
    ensures forall p :: p in q.producers ==> RunTake(q).producers[p].frame == q.producers[p].frame
  {
    var q' := RunTake(q);
    if q.space.waiters != [] {
      var w := q.space.waiters[0];
      assert w in q.producers && q'.producers[w].wait.Signalled?;
      assert forall r :: r in q'.space.waiters <==> r in q.space.waiters && r != w;
    }
  }

  lemma RunTakeInv(q: Queue)
    requires Inv(q) && q.run.HandOff?
    ensures q.queuedBytes >= FrameBytes(q.run.frame)
    ensures Inv(RunTake(q))
    ensures RunTake(q).producers.Keys == q.producers.Keys && RunTake(q).accepted == q.accepted
    ensures forall p :: p in q.producers ==> RunTake(q).producers[p].frame == q.producers[p].frame
  {
    RunTakeProducers(q);
    hide ChannelsAgree, ProducersAgree, EncodeAll, EncodeFrame;
  }

  /** What taking a frame signals: the producer that has waited longest is woken, or, when none waits, one
      more signal is kept while fewer are kept than the queue has slots (one, if it is unbounded). */
  lemma TakeSignals(q: Queue)
    requires Inv(q) && q.run.HandOff? && q.queuedBytes >= FrameBytes(q.run.frame) && !q.closed
    ensures var q', slots := RunTake(q), if q.limits.maxFrames == U64_MAX || q.limits.maxFrames == 0 then 1 else q.limits.maxFrames;
            if q.space.waiters != [] then
              && q.space.waiters[0] in q'.producers && q'.producers[q.space.waiters[0]].wait.Signalled?
              && q'.space.waiters == q.space.waiters[1..] && q'.space.buffer == q.space.buffer
            else q'.producers == q.producers
                 && |q'.space.buffer| == |q.space.buffer| + if |q.space.buffer| < slots then 1 else 0
  {
    hide OrderAgrees, BytesAgree, NoLostWakeup;
  }

  lemma WriteOkInv(q: Queue)
    requires Inv(q) && q.run.Writing?
    ensures Inv(WriteOk(q))
  {
    hide EncodeFrame;
    var q', f := WriteOk(q), q.run.frame;
    assert q.accepted[q.sent] == q.accepted[q.sent..][0] == f;
    assert q'.accepted[..q'.sent] == q.accepted[..q.sent] + [f];
    assert q'.accepted[q'.sent..] == q.accepted[q.sent..][1..];
    EncodeAllSnoc(q.accepted[..q.sent], f);
    assert SomeSignalled(q) ==> SomeSignalled(q');
  }

  lemma WriteFailInv(q: Queue, n: nat)
    requires Inv(q) && q.run.Writing? && n <= |EncodeFrame(q.run.frame)|
    ensures Inv(WriteFail(q, n)) && WriteFail(q, n).closed && WriteFail(q, n).accepted == q.accepted
    ensures WriteFail(q, n).producers == CloseQueue(q).producers
  {
    CloseInv(q);
    hide EncodeAll, EncodeFrame, TotalBytes;
  }

  // ----- Runs -----

  datatype Event =
    | CallTryEnqueue(frame: Frame)
    | CallEnqueue(producer: nat, frame: Frame)
    | CallClose
    | ProducerResumes(producer: nat)
    | WriterReceives
    | WriterTakes
    | WriterEnds
    | WriteSucceeds
    | WriteFails(bytes: nat)
  {
    /** Steps the queue's own coroutines take, as opposed to new calls. */
    predicate Internal() {
      !CallTryEnqueue? && !CallEnqueue? && !CallClose?
    }
  }

  predicate Enabled(q: Queue, e: Event) {
    match e
    case CallTryEnqueue(_) => true
    case CallEnqueue(p, _) => p !in q.producers
    case CallClose => true
    case ProducerResumes(p) => CanResume(q, p)
    case WriterReceives => q.run.Ready?
    case WriterTakes => q.run.HandOff? && q.queuedBytes >= FrameBytes(q.run.frame)
    case WriterEnds => q.run.Ending?
    case WriteSucceeds => q.run.Writing?
    case WriteFails(n) => q.run.Writing? && n <= |EncodeFrame(q.run.frame)|
  }

  function Apply(q: Queue, e: Event): Queue
    requires Enabled(q, e)
  {
    match e
    case CallTryEnqueue(f) => TryEnqueue(q, f).0
    case CallEnqueue(p, f) => Enqueue(q, p, f).0
    case CallClose => CloseQueue(q)
    case ProducerResumes(p) => Resume(q, p).0
    case WriterReceives => RunReceive(q)
    case WriterTakes => RunTake(q)
    case WriterEnds => RunEnd(q)
    case WriteSucceeds => WriteOk(q)
    case WriteFails(n) => WriteFail(q, n)
  }

  /** es is a schedule that takes q0 to q. */
  predicate Runs(q0: Queue, es: seq<Event>, q: Queue)
    decreases es
  {
    if es == [] then q == q0 else Enabled(q0, es[0]) && Runs(Apply(q0, es[0]), es[1..], q)
  }

  lemma ApplyInv(q: Queue, e: Event)
    requires Inv(q) && Enabled(q, e)
    ensures Inv(Apply(q, e))
  {
    hide Inv;
    match e
    case CallTryEnqueue(f) => TryEnqueueInv(q, f);
    case CallEnqueue(p, f) => EnqueueInv(q, p, f);
    case CallClose => CloseInv(q);
    case ProducerResumes(p) => ResumeInv(q, p);
    case WriterReceives => RunReceiveInv(q);
    case WriterTakes => RunTakeInv(q);
    case WriterEnds => RunEndInv(q);
    case WriteSucceeds => WriteOkInv(q);
    case WriteFails(n) => WriteFailInv(q, n);
  }

  lemma RunEndInv(q: Queue)
    requires Inv(q) && q.run.Ending?
    ensures Inv(RunEnd(q))
  {
    hide EncodeAll, TotalBytes;
    assert SomeSignalled(q) ==> SomeSignalled(RunEnd(q));
  }

  /** Safety over every run: accounting, order, wire contents and no lost wake-up. */
  lemma {:induction false} RunsInv(q0: Queue, es: seq<Event>, q: Queue)
    requires Inv(q0) && Runs(q0, es, q)
    ensures Inv(q)
    decreases es
  {
    hide Inv, Enabled, Apply;
    if es != [] {
      ApplyInv(q0, es[0]);
      RunsInv(Apply(q0, es[0]), es[1..], q);
    }
  }
}
