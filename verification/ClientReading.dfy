/** The client's read loop on its own: what one read does to the connection, and what a run of reads
    with nothing between them does. */
module ClientReading {
  import opened Bytes
  import opened Frames
  import opened FrameDecoding
  import opened Operations
  import Q = WriteQueues
  import opened Clients
  import opened ClientInvariant

  /** The inner loop: frames are dispatched in order until one of them closes the transport. */
  ghost function DispatchAll(c: Client, frames: seq<Frame>): (c': Client)
    requires Inv(c)
    ensures Inv(c')
    decreases frames
  {
    if frames == [] then c
    else
      DispatchInv(c, frames[0]);
      var c1 := Dispatch(c, frames[0]);
      if c1.transportOpen then DispatchAll(c1, frames[1..]) else c1
  }

  /** One read: its frames, then the decoder's error if it has one. */
  ghost function HandleRead(c: Client, st: DecoderState, chunk: seq<u8>): (Client, DecoderState)
    requires Inv(c)
  {
    var (frames, st') := Feed(DEFAULT_MAX_PAYLOAD, st, chunk);
    (AfterFrames(DispatchAll(c, frames), st'.error), st')
  }

  ghost function AfterFrames(c: Client, error: FrameValidationError): (c': Client)
    requires Inv(c)
    ensures Inv(c')
  {
    if error == NoError then c
    else
      FailConnectionInv(c, StatusForValidation(error));
      FailConnection(c, StatusForValidation(error))
  }

  /** The outer loop: reads until the transport is closed. */
  ghost function ReadAll(c: Client, st: DecoderState, chunks: seq<seq<u8>>): (Client, DecoderState)
    requires Inv(c)
    decreases chunks
  {
    if chunks == [] || !c.transportOpen then (c, st)
    else
      var (c1, st1) := HandleRead(c, st, chunks[0]);
      ReadAll(c1, st1, chunks[1..])
  }

  /** Only a failure of the whole connection closes the transport, so it leaves nothing pending. */
  lemma ClosedMeansFailed(c: Client, f: Frame)
    requires Inv(c) && c.transportOpen
    ensures !Dispatch(c, f).transportOpen ==> Dispatch(c, f).pending == map[]
  {
    hide RequestsOk, OwnershipOk, QueueOk, OffersOk, HasFlag, DecodeErrorStatus, CloseChannel, Deliver, Q.TryEnqueue,
      Complete, Cancel, Fail, FailOne, Inv;
    InvTable(c);
  }

  lemma InvTable(c: Client)
    requires Inv(c)
    ensures TableOk(c.requests, c.pending)
  {
  }

  lemma {:induction false} AllClosedMeansFailed(c: Client, frames: seq<Frame>)
    requires Inv(c) && c.transportOpen
    ensures !DispatchAll(c, frames).transportOpen ==> DispatchAll(c, frames).pending == map[]
    decreases frames
  {
    hide Inv, Dispatch;
    if frames != [] {
      InvTable(c);
      ClosedMeansFailed(c, frames[0]);
      DispatchInv(c, frames[0]);
      if Dispatch(c, frames[0]).transportOpen {
        AllClosedMeansFailed(Dispatch(c, frames[0]), frames[1..]);
      }
    }
  }

  lemma {:induction false} DispatchAllSplit(c: Client, a: seq<Frame>, b: seq<Frame>)
    requires Inv(c) && c.transportOpen
    ensures var c1 := DispatchAll(c, a);
            DispatchAll(c, a + b) == if c1.transportOpen then DispatchAll(c1, b) else c1
    decreases a
  {
    hide Inv, Dispatch;
    if a == [] {
      assert a + b == b;
    } else {
      assert (a + b)[1..] == a[1..] + b;
      InvTable(c);
      DispatchInv(c, a[0]);
      if Dispatch(c, a[0]).transportOpen {
        DispatchAllSplit(Dispatch(c, a[0]), a[1..], b);
      }
    }
  }

  /** A connection that has failed cannot be failed again. */
  lemma FailedStaysFailed(c: Client, status: StatusCode)
    requires c.pending == map[] && !c.transportOpen
    ensures FailConnection(c, status) == c
  {
    hide FailOne;
    assert FailPending(c, status).requests == c.requests;
  }

  /** Two reads with nothing between them are one read of both. */
  lemma ReadsJoin(c: Client, st: DecoderState, a: seq<u8>, b: seq<u8>)
    requires Inv(c) && c.transportOpen && WellFormed(DEFAULT_MAX_PAYLOAD, st)
    ensures var (c1, st1) := HandleRead(c, st, a);
            && Inv(c1) && WellFormed(DEFAULT_MAX_PAYLOAD, st1)
            && (st1.error != NoError ==> !c1.transportOpen)
            && HandleRead(c, st, a + b).0 == if c1.transportOpen then HandleRead(c1, st1, b).0 else c1
  {
    hide Inv, WellFormed, Feed, DispatchAll, FailConnection;
    FeedSplit(DEFAULT_MAX_PAYLOAD, st, a, b);
    var (fa, mid) := Feed(DEFAULT_MAX_PAYLOAD, st, a);
    var (fb, last) := Feed(DEFAULT_MAX_PAYLOAD, mid, b);
    DispatchAllSplit(c, fa, fb);
    var c1 := DispatchAll(c, fa);
    if mid.error != NoError {
      ErrorFeedsNothing(DEFAULT_MAX_PAYLOAD, mid, b);
      assert fa + [] == fa;
      FailureCloses(c1, StatusForValidation(mid.error));
    } else if !c1.transportOpen {
      AllClosedMeansFailed(c, fa);
      FailedStaysFailed(c1, StatusForValidation(last.error));
    }
  }

  lemma FailureCloses(c: Client, status: StatusCode)
    ensures !FailConnection(c, status).transportOpen
  {
    hide FailPending;
  }

  /** Chunk independence of the connection: when nothing else happens between the reads, then however
      the same bytes are cut, the read loop leaves every request, channel, identifier and queued frame
      as one read of them all would. */
  lemma {:induction false} CutsDoNotMatter(c: Client, st: DecoderState, chunks: seq<seq<u8>>)
    requires Inv(c) && c.transportOpen && WellFormed(DEFAULT_MAX_PAYLOAD, st)
    ensures ReadAll(c, st, chunks).0 == if chunks == [] then c else HandleRead(c, st, Flatten(chunks)).0
    decreases chunks
  {
    hide Inv, WellFormed, HandleRead;
    if chunks != [] {
      ReadsJoin(c, st, chunks[0], Flatten(chunks[1..]));
      var (c1, st1) := HandleRead(c, st, chunks[0]);
      if c1.transportOpen {
        CutsDoNotMatter(c1, st1, chunks[1..]);
        if chunks[1..] == [] {
          assert chunks[0] + [] == chunks[0];
        }
      }
    }
  }
}
