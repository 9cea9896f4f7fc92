/** The server's read loop on its own: what one read does to the connection, and what a run of reads
    with nothing between them does. */
module ServerReading {
  import opened Bytes
  import opened Frames
  import opened StreamParsing
  import opened FrameDecoding
  import opened Servers
  import opened ServerInvariant
  import opened ServerTheorems

  /** A connection that is still reading. */
  ghost predicate Reading(s: Server) {
    Inv(s) && s.reading
  }

  lemma DispatchReads(s: Server, f: Frame)
    requires Reading(s) && IsValid(f, DEFAULT_MAX_PAYLOAD)
    ensures TableOk(s.runs, s.operations) && Reading(Dispatch(s, f))
  {
    assert f.header.stream != 0;
    hide RunsOk, TableOk, QueueOk, CloseOk, LifeOk, ShutdownOk, Dispatch, IsValid;
    DispatchInv(s, f);
    DispatchShape(s, f);
  }

  /** The inner loop: frames are dispatched in order until one of them closes the transport. */
  ghost function DispatchAll(s: Server, frames: seq<Frame>): (s': Server)
    requires Reading(s) && AllValid(frames, DEFAULT_MAX_PAYLOAD)
    ensures Reading(s')
    decreases frames
  {
    if frames == [] then s
    else
      DispatchReads(s, frames[0]);
      var s1 := Dispatch(s, frames[0]);
      if s1.transportOpen then DispatchAll(s1, frames[1..]) else s1
  }

  lemma FeedValid(st: DecoderState, chunk: seq<u8>)
    ensures AllValid(Feed(DEFAULT_MAX_PAYLOAD, st, chunk).0, DEFAULT_MAX_PAYLOAD)
  {
    hide Parse, IsValid;
    ParseConserves(DEFAULT_MAX_PAYLOAD, Buffered(st) + chunk);
  }

  /** The decoder's error closes the transport. */
  function AfterFrames(s: Server, error: FrameValidationError): Server {
    if error == NoError then s else s.(transportOpen := false)
  }

  lemma AfterFramesReads(s: Server, error: FrameValidationError)
    requires Reading(s)
    ensures Reading(AfterFrames(s, error))
  {
    hide RunsOk, TableOk, QueueOk;
  }

  /** One read: its frames, then the decoder's error if it has one. */
  ghost function HandleRead(s: Server, st: DecoderState, chunk: seq<u8>): (Server, DecoderState)
    requires Reading(s)
  {
    FeedValid(st, chunk);
    var (frames, st') := Feed(DEFAULT_MAX_PAYLOAD, st, chunk);
    (AfterFrames(DispatchAll(s, frames), st'.error), st')
  }

  /** The outer loop: reads until the transport is closed. */
  ghost function ReadAll(s: Server, st: DecoderState, chunks: seq<seq<u8>>): (Server, DecoderState)
    requires Reading(s)
    decreases chunks
  {
    if chunks == [] || !s.transportOpen then (s, st)
    else
      var (s1, st1) := HandleRead(s, st, chunks[0]);
      ReadIsReading(s, st, chunks[0]);
      ReadAll(s1, st1, chunks[1..])
  }

  lemma ReadIsReading(s: Server, st: DecoderState, chunk: seq<u8>)
    requires Reading(s)
    ensures Reading(HandleRead(s, st, chunk).0)
  {
    hide Reading, Feed, AfterFrames;
    FeedValid(st, chunk);
    var (frames, st') := Feed(DEFAULT_MAX_PAYLOAD, st, chunk);
    AfterFramesReads(DispatchAll(s, frames), st'.error);
  }

  lemma {:induction false} DispatchAllSplit(s: Server, a: seq<Frame>, b: seq<Frame>)
    requires Reading(s) && s.transportOpen
    requires AllValid(a, DEFAULT_MAX_PAYLOAD) && AllValid(b, DEFAULT_MAX_PAYLOAD)
    ensures AllValid(a + b, DEFAULT_MAX_PAYLOAD)
    ensures var s1 := DispatchAll(s, a);
            DispatchAll(s, a + b) == if s1.transportOpen then DispatchAll(s1, b) else s1
    decreases a
  {
    hide Reading, Dispatch, IsValid;
    if a == [] {
      assert a + b == b;
    } else {
      assert (a + b)[1..] == a[1..] + b;
      DispatchReads(s, a[0]);
      if Dispatch(s, a[0]).transportOpen {
        DispatchAllSplit(Dispatch(s, a[0]), a[1..], b);
      }
    }
  }

  /** Two reads with nothing between them are one read of both. */
  lemma ReadsJoin(s: Server, st: DecoderState, a: seq<u8>, b: seq<u8>)
    requires Reading(s) && s.transportOpen && WellFormed(DEFAULT_MAX_PAYLOAD, st)
    ensures var (s1, st1) := HandleRead(s, st, a);
            && Reading(s1) && WellFormed(DEFAULT_MAX_PAYLOAD, st1)
            && HandleRead(s, st, a + b).0 == if s1.transportOpen then HandleRead(s1, st1, b).0 else s1
  {
    hide Reading, WellFormed, Feed, DispatchAll, AllValid;
    ReadIsReading(s, st, a);
    FeedSplit(DEFAULT_MAX_PAYLOAD, st, a, b);
    var (fa, mid) := Feed(DEFAULT_MAX_PAYLOAD, st, a);
    var (fb, last) := Feed(DEFAULT_MAX_PAYLOAD, mid, b);
    FeedValid(st, a);
    FeedValid(mid, b);
    DispatchAllSplit(s, fa, fb);
    if mid.error != NoError {
      ErrorFeedsNothing(DEFAULT_MAX_PAYLOAD, mid, b);
      assert fa + [] == fa;
    }
  }

  /** Chunk independence of the connection: when nothing else happens between the reads, then however
      the same bytes are cut, the read loop starts the same handlers, ends the same operations and
      queues the same answers. */
  lemma {:induction false} CutsDoNotMatter(s: Server, st: DecoderState, chunks: seq<seq<u8>>)
    requires Reading(s) && s.transportOpen && WellFormed(DEFAULT_MAX_PAYLOAD, st)
    ensures ReadAll(s, st, chunks).0 == if chunks == [] then s else HandleRead(s, st, Flatten(chunks)).0
    decreases chunks
  {
    hide Reading, WellFormed, HandleRead;
    if chunks != [] {
      ReadsJoin(s, st, chunks[0], Flatten(chunks[1..]));
      var (s1, st1) := HandleRead(s, st, chunks[0]);
      if s1.transportOpen {
        CutsDoNotMatter(s1, st1, chunks[1..]);
        if chunks[1..] == [] {
          assert chunks[0] + [] == chunks[0];
        }
      }
    }
  }
}
