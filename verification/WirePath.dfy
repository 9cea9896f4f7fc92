/** End to end: from the frames a queue accepts, over the bytes its writer hands to the transport, to
    the frames the peer's decoder emits. */
module WirePath {
  import opened Bytes
  import opened Frames
  import opened FrameCodec
  import opened StreamParsing
  import opened FrameDecoding
  import opened WriteQueues

  /** Every frame the queue has accepted, or a suspended producer still offers, satisfies ok. */
  ghost predicate Carries(q: Queue, ok: Frame -> bool) {
    && (forall i :: 0 <= i < |q.accepted| ==> ok(q.accepted[i]))
    && (forall p :: p in q.producers ==> ok(q.producers[p].frame))
  }

  lemma TryEnqueueCarries(q: Queue, f: Frame, ok: Frame -> bool)
    requires Inv(q) && Carries(q, ok) && ok(f)
    ensures Carries(TryEnqueue(q, f).0, ok)
  {
    hide Core, TryEnqueue;
    TryEnqueueCore(q, f);
  }

  lemma EnqueueCarries(q: Queue, p: nat, f: Frame, ok: Frame -> bool)
    requires Inv(q) && Carries(q, ok) && ok(f) && p !in q.producers
    ensures Carries(Enqueue(q, p, f).0, ok)
  {
    hide Inv, Enqueue;
    EnqueueInv(q, p, f);
    OnlyProducerCarries(q, Enqueue(q, p, f).0, p, ok);
  }

  lemma ResumeCarries(q: Queue, p: nat, ok: Frame -> bool)
    requires Inv(q) && Carries(q, ok) && CanResume(q, p)
    ensures Carries(Resume(q, p).0, ok)
  {
    hide Inv, Resume;
    ResumeInv(q, p);
    OnlyProducerCarries(q, Resume(q, p).0, p, ok);
  }

  lemma OnlyProducerCarries(q: Queue, q': Queue, p: nat, ok: Frame -> bool)
    requires Carries(q, ok) && OnlyProducer(q, q', p)
    requires p in q'.producers ==> ok(q'.producers[p].frame)
    requires forall i :: 0 <= i < |q'.accepted| ==> ok(q'.accepted[i])
    ensures Carries(q', ok)
  {
    forall r | r in q'.producers && r != p
      ensures ok(q'.producers[r].frame)
    {
      assert r in q'.producers - {p};
      assert (q'.producers - {p})[r] == (q.producers - {p})[r];
    }
  }

  lemma CloseCarries(q: Queue, ok: Frame -> bool)
    requires Inv(q) && Carries(q, ok)
    ensures Carries(CloseQueue(q), ok)
  {
    hide Inv, CloseQueue;
    CloseInv(q);
  }

  /** Steps of the writer leave the accepted frames alone. */
  lemma WriterCarries(q: Queue, e: Event, ok: Frame -> bool)
    requires Inv(q) && Carries(q, ok) && Enabled(q, e) && e.Internal() && !e.ProducerResumes?
    ensures Carries(Apply(q, e), ok)
    ensures Apply(q, e).producers.Keys == q.producers.Keys
    ensures Apply(q, e).accepted == q.accepted
  {
    hide Inv;
    match e
    case WriterReceives =>
    case WriterTakes => RunTakeInv(q);
    case WriterEnds =>
    case WriteSucceeds =>
    case WriteFails(n) =>
      CloseInv(q);
      WriteFailInv(q, n);
  }

  /** Every call of a schedule offers a frame that satisfies ok. */
  ghost predicate Offers(es: seq<Event>, ok: Frame -> bool) {
    forall i :: 0 <= i < |es| ==> (es[i].CallTryEnqueue? || es[i].CallEnqueue? ==> ok(es[i].frame))
  }

  lemma ApplyCarries(q: Queue, e: Event, ok: Frame -> bool)
    requires Inv(q) && Carries(q, ok) && Enabled(q, e)
    requires e.CallTryEnqueue? || e.CallEnqueue? ==> ok(e.frame)
    ensures Carries(Apply(q, e), ok)
  {
    hide Inv, Carries;
    match e
    case CallTryEnqueue(f) => TryEnqueueCarries(q, f, ok);
    case CallEnqueue(p, f) => EnqueueCarries(q, p, f, ok);
    case CallClose => CloseCarries(q, ok);
    case ProducerResumes(p) => ResumeCarries(q, p, ok);
    case _ => WriterCarries(q, e, ok);
  }

  lemma {:induction false} RunsCarry(q0: Queue, es: seq<Event>, q: Queue, ok: Frame -> bool)
    requires Inv(q0) && Carries(q0, ok) && Runs(q0, es, q) && Offers(es, ok)
    ensures Inv(q) && Carries(q, ok)
    decreases es
  {
    hide Inv, Carries, Enabled, Apply;
    if es != [] {
      ApplyInv(q0, es[0]);
      ApplyCarries(q0, es[0], ok);
      RunsCarry(Apply(q0, es[0]), es[1..], q, ok);
    }
  }

  function ValidUnder(maxPayload: u32): Frame -> bool {
    f => IsValid(f, maxPayload)
  }

  /** The wire never holds anything but the accepted frames, in acceptance order. */
  lemma WireIsPrefix(q: Queue)
    requires Inv(q)
    ensures q.wire <= EncodeAll(q.accepted)
  {
    hide EncodeAll, EncodeFrame, BytesAgree, ProducersAgree, NoLostWakeup, ChannelsAgree;
    var done, rest := q.accepted[..q.sent], q.accepted[q.sent..];
    EncodeAllAppend(done, rest);
    assert q.accepted == done + rest;
    if q.run.Failed? {
      assert rest[0] == q.run.frame;
      EncodeAllCons(rest[0], rest[1..]);
      assert rest == [rest[0]] + rest[1..];
      assert EncodeAll(done) + EncodeFrame(q.run.frame) <= EncodeAll(done) + EncodeAll(rest);
    }
  }

  /** From any reachable queue, whatever prefix of the written bytes has arrived and however it was
      cut into reads, the peer's decoder has no error and has emitted a prefix of the accepted
      frames: exactly those whose bytes have wholly arrived. */
  lemma PeerSeesAPrefix(q: Queue, maxPayload: u32, chunks: seq<seq<u8>>) returns (k: nat)
    requires Inv(q) && AllValid(q.accepted, maxPayload)
    requires Flatten(chunks) <= q.wire
    ensures k <= |q.accepted|
    ensures var (frames, st) := FeedAll(maxPayload, INITIAL, chunks);
            frames == q.accepted[..k] && st.error == NoError
    ensures EncodeAll(q.accepted[..k]) <= Flatten(chunks)
    ensures k < |q.accepted| ==> |Flatten(chunks)| < |EncodeAll(q.accepted[..k + 1])|
  {
    hide Inv, EncodeAll, IsValid, Parse, FeedAll, Feed, Flatten, StateOf;
    WireIsPrefix(q);
    var s := Flatten(chunks);
    k := ParsePrefix(maxPayload, q.accepted, s);
    InitialWellFormed(maxPayload);
    FeedAllIsFeed(maxPayload, INITIAL, chunks);
    FeedInitial(maxPayload, s);
  }

  lemma InitialWellFormed(maxPayload: u32)
    ensures WellFormed(maxPayload, INITIAL)
  {
  }

  /** Once run() has returned success, a peer that has read everything has every accepted frame, in
      order, and is left between frames. */
  lemma PeerSeesEverything(q: Queue, maxPayload: u32, chunks: seq<seq<u8>>)
    requires Inv(q) && q.run.Finished? && AllValid(q.accepted, maxPayload)
    requires Flatten(chunks) == q.wire
    ensures FeedAll(maxPayload, INITIAL, chunks) == (q.accepted, INITIAL)
  {
    hide EncodeAll, IsValid, FeedAll, Feed, Flatten;
    assert |q.accepted[q.sent..]| == 0;
    assert q.accepted[..q.sent] == q.accepted;
    InitialWellFormed(maxPayload);
    FeedAllIsFeed(maxPayload, INITIAL, chunks);
    ParseEncodeAll(maxPayload, q.accepted, []);
    assert q.wire + [] == q.wire && q.accepted + [] == q.accepted;
    FeedInitial(maxPayload, q.wire);
  }

  /** End to end over whole runs: for every interleaving of producers with run(), every split of the
      written bytes into reads and at most one failed partial write, a peer decoder emits a prefix of
      the accepted frames with no error, and all of them when run() returned success. */
  lemma Delivery(limits: Limits, es: seq<Event>, q: Queue, maxPayload: u32, chunks: seq<seq<u8>>)
    requires Runs(Create(limits), es, q) && Offers(es, ValidUnder(maxPayload))
    requires Flatten(chunks) <= q.wire
    ensures var (frames, st) := FeedAll(maxPayload, INITIAL, chunks);
            && st.error == NoError
            && frames <= q.accepted
            && (q.run.Finished? && Flatten(chunks) == q.wire ==> frames == q.accepted && st == INITIAL)
  {
    hide Inv, FeedAll, Flatten, IsValid, Runs, Offers, Create;
    RunsFromCreate(limits, es, q, ValidUnder(maxPayload));
    CarriesValid(q, maxPayload);
    var k := PeerSeesAPrefix(q, maxPayload, chunks);
    if q.run.Finished? && Flatten(chunks) == q.wire {
      PeerSeesEverything(q, maxPayload, chunks);
    }
  }

  lemma RunsFromCreate(limits: Limits, es: seq<Event>, q: Queue, ok: Frame -> bool)
    requires Runs(Create(limits), es, q) && Offers(es, ok)
    ensures Inv(q) && Carries(q, ok)
  {
    hide Inv, Runs, Offers;
    CreateInv(limits);
    RunsCarry(Create(limits), es, q, ok);
  }

  lemma CarriesValid(q: Queue, maxPayload: u32)
    requires Carries(q, ValidUnder(maxPayload))
    ensures AllValid(q.accepted, maxPayload)
  {
    assert forall i :: 0 <= i < |q.accepted| ==> ValidUnder(maxPayload)(q.accepted[i]);
  }
}
