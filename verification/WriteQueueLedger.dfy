/** What a write queue has taken on: the frames it accepted and the frames of the producers suspended
    in it. No step loses one of them unseen, doubles one or invents one. */
module WriteQueueLedger {
  import opened Frames
  import opened WriteQueues

  /** The frames of suspended producers. */
  ghost function FramesOf(m: map<nat, Producer>): multiset<Frame> {
    if m == map[] then multiset{}
    else
      var p :| p in m;
      FramesOf(m - {p}) + multiset{m[p].frame}
  }

  lemma FirstCounted(m: map<nat, Producer>) returns (p: nat)
    requires m != map[]
    ensures p in m && FramesOf(m) == FramesOf(m - {p}) + multiset{m[p].frame}
  {
    p :| p in m && FramesOf(m) == FramesOf(m - {p}) + multiset{m[p].frame};
  }

  /** Which producer is counted first does not matter. */
  lemma {:induction false} FramesWithout(m: map<nat, Producer>, p: nat)
    requires p in m
    ensures FramesOf(m) == FramesOf(m - {p}) + multiset{m[p].frame}
    decreases |m|
  {
    hide FramesOf;
    var x := FirstCounted(m);
    if x != p {
      FramesWithout(m - {x}, p);
      FramesWithout(m - {p}, x);
      assert m - {x} - {p} == m - {p} - {x};
    }
  }

  lemma FramesWith(m: map<nat, Producer>, p: nat, x: Producer)
    requires p !in m
    ensures FramesOf(m[p := x]) == FramesOf(m) + multiset{x.frame}
  {
    FramesWithout(m[p := x], p);
    assert m[p := x] - {p} == m;
  }

  /** Waking or refusing producers changes none of their frames. */
  lemma {:induction false} FramesSame(a: map<nat, Producer>, b: map<nat, Producer>)
    requires a.Keys == b.Keys && forall p :: p in a ==> a[p].frame == b[p].frame
    ensures FramesOf(a) == FramesOf(b)
    decreases |a|
  {
    if a != map[] {
      hide FramesOf;
      var p :| p in a;
      assert p in b.Keys;
      FramesWithout(a, p);
      FramesWithout(b, p);
      assert (a - {p}).Keys == (b - {p}).Keys;
      FramesSame(a - {p}, b - {p});
    } else {
      assert b.Keys == {};
      assert b == map[];
    }
  }

  ghost function Taken(q: Queue): multiset<Frame> {
    multiset(q.accepted) + FramesOf(q.producers)
  }

  lemma TryEnqueueTaken(q: Queue, f: Frame)
    ensures var (q', ok) := TryEnqueue(q, f);
            Taken(q') == if ok then Taken(q) + multiset{f} else Taken(q)
  {
    hide FramesOf;
  }

  lemma AttemptTaken(q: Queue, p: nat, f: Frame)
    requires p !in q.producers
    ensures var (q', o) := Attempt(q, p, f);
            Taken(q') == if o.Rejected? then Taken(q) else Taken(q) + multiset{f}
  {
    hide FramesOf, TryEnqueue;
    TryEnqueueTaken(q, f);
    var (q', o) := Attempt(q, p, f);
    if o.Blocked? {
      FramesWith(q.producers, p, q'.producers[p]);
    }
  }

  lemma EnqueueTaken(q: Queue, p: nat, f: Frame)
    requires p !in q.producers
    ensures var (q', o) := Enqueue(q, p, f);
            Taken(q') == if o.Rejected? then Taken(q) else Taken(q) + multiset{f}
  {
    hide Taken, Attempt;
    AttemptTaken(q, p, f);
  }

  /** A resumed producer keeps its own frame in the queue, accepted or still suspended, unless it is
      rejected. */
  lemma ResumeTaken(q: Queue, p: nat)
    requires CanResume(q, p)
    ensures var (q', o) := Resume(q, p);
            Taken(q) == if o.Rejected? then Taken(q') + multiset{q.producers[p].frame} else Taken(q')
  {
    hide FramesOf, Attempt;
    FramesWithout(q.producers, p);
    AttemptTaken(q.(producers := q.producers - {p}), p, q.producers[p].frame);
  }

  lemma CloseTaken(q: Queue)
    ensures Taken(CloseQueue(q)) == Taken(q)
  {
    FramesSame(q.producers, CloseQueue(q).producers);
  }

  lemma WriterTaken(q: Queue, e: Event)
    requires Enabled(q, e) && e.Internal() && !e.ProducerResumes?
    ensures Taken(Apply(q, e)) == Taken(q)
  {
    FramesSame(q.producers, Apply(q, e).producers);
  }

  lemma SmallerSet(a: set<nat>, b: set<nat>)
    requires a <= b
    ensures |a| <= |b|
  {
    assert b == a + (b - a);
  }

  // ----- What is sent and what is missed -----

  function NoRoom(q: Queue): Frame -> bool {
    f => !Room(q, f)
  }

  function Unwelcome(q: Queue): Frame -> bool {
    f => q.closed || NeverFits(q.limits, f)
  }

  /** The frames, if there are any and all are refused. */
  ghost function LeftOut(frames: multiset<Frame>, refused: Frame -> bool): multiset<Frame> {
    if frames != multiset{} && (forall f :: f in frames ==> refused(f)) then frames else multiset{}
  }

  /** From q to q' the given frames were sent, and all but the missed ones are now in the queue. */
  ghost predicate Moves(q: Queue, q': Queue, sends: multiset<Frame>, misses: multiset<Frame>) {
    && Taken(q') + misses == Taken(q) + sends
    && q'.limits == q.limits && (q.run.Failed? ==> q'.run.Failed?)
  }

  lemma NothingMoves(q: Queue)
    ensures Moves(q, q, multiset{}, multiset{})
  {
    hide Taken;
  }

  lemma TryEnqueueMoves(q: Queue, f: Frame)
    requires Core(q)
    ensures Moves(q, TryEnqueue(q, f).0, multiset{f}, LeftOut(multiset{f}, NoRoom(q)))
  {
    hide Taken, Room, Core, TryEnqueue;
    TryEnqueueTaken(q, f);
    AdmissionIsExact(q, f);
    TryEnqueueKeeps(q, f);
    assert f in multiset{f};
  }

  lemma TryEnqueueKeeps(q: Queue, f: Frame)
    requires Core(q)
    ensures var q' := TryEnqueue(q, f).0;
            q'.limits == q.limits && q'.closed == q.closed && (q.run.Failed? ==> q'.run.Failed?)
  {
    hide OrderAgrees, BytesAgree, ProducersAgree;
  }

  lemma AttemptKeeps(q: Queue, p: nat, f: Frame)
    requires Core(q)
    ensures var q' := Attempt(q, p, f).0;
            q'.limits == q.limits && (q.run.Failed? ==> q'.run.Failed?)
  {
    hide Core, TryEnqueue;
    TryEnqueueKeeps(q, f);
  }

  lemma EnqueueMoves(q: Queue, p: nat, f: Frame)
    requires Core(q) && p !in q.producers
    ensures Moves(q, Enqueue(q, p, f).0, multiset{f}, LeftOut(multiset{f}, Unwelcome(q)))
  {
    hide Taken, Room, NeverFits, Core, Attempt;
    EnqueueTaken(q, p, f);
    EnqueueIsExact(q, p, f);
    AttemptKeeps(q, p, f);
    assert f in multiset{f};
  }

  lemma ResumeMoves(q: Queue, p: nat)
    requires Core(q) && CanResume(q, p)
    ensures Moves(q, Resume(q, p).0, multiset{}, if q.closed then multiset{q.producers[p].frame} else multiset{})
  {
    hide Taken, Room, Core, Attempt;
    ResumeTaken(q, p);
    ResumeIsExact(q, p);
    WithoutProducer(q, p);
    AttemptKeeps(q.(producers := q.producers - {p}), p, q.producers[p].frame);
  }

  lemma CloseMoves(q: Queue)
    ensures Moves(q, CloseQueue(q), multiset{}, multiset{})
  {
    CloseTaken(q);
    hide Taken;
  }

  lemma WriterMoves(q: Queue, e: Event)
    requires Enabled(q, e) && e.Internal() && !e.ProducerResumes?
    ensures Moves(q, Apply(q, e), multiset{}, multiset{})
  {
    WriterTaken(q, e);
    hide Taken;
  }

  lemma MovesTwice(a: Queue, b: Queue, c: Queue, sends: multiset<Frame>, misses: multiset<Frame>)
    requires Moves(a, b, sends, misses) && Moves(b, c, multiset{}, multiset{})
    ensures Moves(a, c, sends, misses)
  {
    hide Taken;
    assert Taken(c) == Taken(c) + multiset{} == Taken(b) + multiset{} == Taken(b);
  }
}
