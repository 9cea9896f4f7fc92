/** The incremental decoder: its observable state, the effect of one push, and the class that
    implements it over fixed buffers. */
module FrameDecoding {
  import opened Bytes
  import opened Frames
  import opened FrameCodec
  import opened StreamParsing

  /** The filled parts of the decoder's buffers. */
  datatype DecoderState = DecoderState(
    headerBytes: seq<u8>, header: Option<FrameHeader>, payload: seq<u8>, error: FrameValidationError)

  const INITIAL := DecoderState([], None, [], NoError)

  /** The bytes the decoder is holding. */
  function Buffered(st: DecoderState): seq<u8> {
    st.headerBytes + st.payload
  }

  /** What every reachable decoder satisfies. A stored header has an incomplete payload within the
      configured limit; no stored header means a partial header; an error keeps the header that
      caused it. */
  predicate WellFormed(maxPayload: u32, st: DecoderState) {
    if st.error != NoError then
      && |st.headerBytes| == HEADER_SIZE && st.header == None && st.payload == []
      && CheckHeader(HeaderOf(st.headerBytes), maxPayload) == st.error
    else if st.header.None? then
      |st.headerBytes| < HEADER_SIZE && st.payload == []
    else
      && |st.headerBytes| == HEADER_SIZE && st.header == Some(HeaderOf(st.headerBytes))
      && CheckHeader(st.header.value, maxPayload) == NoError
      && |st.payload| < st.header.value.payloadSize <= maxPayload
  }

  /** The decoder state that holds what a parse left over. */
  function StateOf(p: Parsed): DecoderState
    requires p.error != NoError ==> |p.rest| >= HEADER_SIZE
  {
    if p.error != NoError then DecoderState(p.rest[..HEADER_SIZE], None, [], p.error)
    else if |p.rest| < HEADER_SIZE then DecoderState(p.rest, None, [], NoError)
    else
      DecoderState(p.rest[..HEADER_SIZE], Some(HeaderOf(p.rest[..HEADER_SIZE])), p.rest[HEADER_SIZE..], NoError)
  }

  lemma {:induction false} ParseErrorHasHeader(maxPayload: u32, s: seq<u8>)
    ensures Parse(maxPayload, s).error != NoError ==> |Parse(maxPayload, s).rest| >= HEADER_SIZE
  {
    ParseConserves(maxPayload, s);
  }

  /** One push: the frames completed and the state afterwards. */
  function Feed(maxPayload: u32, st: DecoderState, bytes: seq<u8>): (seq<Frame>, DecoderState) {
    if st.error != NoError then ([], st)
    else
      var p := Parse(maxPayload, Buffered(st) + bytes);
      ParseErrorHasHeader(maxPayload, Buffered(st) + bytes);
      (p.frames, StateOf(p))
  }

  /** Pushing a run of chunks in order. */
  function FeedAll(maxPayload: u32, st: DecoderState, chunks: seq<seq<u8>>): (seq<Frame>, DecoderState)
    decreases chunks
  {
    if chunks == [] then ([], st)
    else
      var (first, mid) := Feed(maxPayload, st, chunks[0]);
      var (others, last) := FeedAll(maxPayload, mid, chunks[1..]);
      (first + others, last)
  }

  function Flatten(chunks: seq<seq<u8>>): seq<u8> {
    if chunks == [] then [] else chunks[0] + Flatten(chunks[1..])
  }

  /** A parse remainder is stored without loss, and what is stored is well formed. */
  lemma StateOfFaithful(maxPayload: u32, s: seq<u8>)
    ensures var p := Parse(maxPayload, s);
            && (p.error != NoError ==> |p.rest| >= HEADER_SIZE)
            && WellFormed(maxPayload, StateOf(p))
            && StateOf(p).error == p.error
            && (p.error == NoError ==> Buffered(StateOf(p)) == p.rest)
            && (p.error != NoError ==> StateOf(p).headerBytes == p.rest[..HEADER_SIZE])
  {
    ParseConserves(maxPayload, s);
    var p := Parse(maxPayload, s);
    if |p.rest| >= HEADER_SIZE {
      PayloadWithinLimit(HeaderOf(p.rest[..HEADER_SIZE]), maxPayload);
    }
    hide CheckHeader, HeaderOf, Parse, IsValid;
  }

  lemma PayloadWithinLimit(h: FrameHeader, maxPayload: u32)
    ensures CheckHeader(h, maxPayload) == NoError ==> h.payloadSize <= maxPayload
  {
  }

  /** A well-formed state holds no complete frame: re-reading its buffer gives the state back. */
  lemma StateIsStable(maxPayload: u32, st: DecoderState)
    requires WellFormed(maxPayload, st)
    ensures var p := Parse(maxPayload, Buffered(st));
            p.frames == [] && p.error == st.error && p.rest == Buffered(st)
    ensures StateOf(Parse(maxPayload, Buffered(st))) == st
  {
    hide CheckHeader, HeaderOf, IsValid;
    var s := Buffered(st);
    if |st.headerBytes| == HEADER_SIZE {
      assert s[..HEADER_SIZE] == st.headerBytes && s[HEADER_SIZE..] == st.payload;
    }
  }

  /** Chunk independence: pushing a then b is pushing a + b, from every well-formed state. */
  lemma FeedSplit(maxPayload: u32, st: DecoderState, a: seq<u8>, b: seq<u8>)
    ensures WellFormed(maxPayload, st) ==> WellFormed(maxPayload, Feed(maxPayload, st, a).1)
    ensures var (fa, mid) := Feed(maxPayload, st, a);
            var (fb, last) := Feed(maxPayload, mid, b);
            Feed(maxPayload, st, a + b) == (fa + fb, last)
  {
    hide Parse, WellFormed;
    if st.error == NoError {
      var s := Buffered(st) + a;
      assert Buffered(st) + (a + b) == s + b;
      ParseAppend(maxPayload, s, b);
      StateOfFaithful(maxPayload, s);
      StateOfFaithful(maxPayload, s + b);
      var p := Parse(maxPayload, s);
      if p.error != NoError {
        assert (p.rest + b)[..HEADER_SIZE] == p.rest[..HEADER_SIZE];
        assert p.frames + [] == p.frames;
      }
    } else {
      assert Feed(maxPayload, st, a).0 + [] == [];
    }
  }

  /** However a stream is cut, the decoder's frames and state are those of the whole stream. */
  lemma {:induction false} FeedAllIsFeed(maxPayload: u32, st: DecoderState, chunks: seq<seq<u8>>)
    requires WellFormed(maxPayload, st)
    ensures FeedAll(maxPayload, st, chunks) == Feed(maxPayload, st, Flatten(chunks))
    decreases chunks
  {
    hide WellFormed, Feed;
    if chunks == [] {
      FeedNothing(maxPayload, st);
    } else {
      FeedSplit(maxPayload, st, chunks[0], Flatten(chunks[1..]));
      FeedAllIsFeed(maxPayload, Feed(maxPayload, st, chunks[0]).1, chunks[1..]);
    }
  }

  lemma FeedNothing(maxPayload: u32, st: DecoderState)
    requires WellFormed(maxPayload, st)
    ensures Feed(maxPayload, st, []) == ([], st)
  {
    assert Buffered(st) + [] == Buffered(st);
    StateIsStable(maxPayload, st);
    hide Parse, WellFormed;
  }

  /** Conservation over any run of pushes since reset: with no error the input is the re-encoding of
      the frames emitted followed by exactly the buffered bytes; with an error the next 18 bytes are
      the first header that fails, and its error is the one reported. */
  lemma DecoderConserves(maxPayload: u32, chunks: seq<seq<u8>>)
    ensures var (frames, st) := FeedAll(maxPayload, INITIAL, chunks);
            && WellFormed(maxPayload, st)
            && AllValid(frames, maxPayload)
            && (st.error == NoError ==> Flatten(chunks) == EncodeAll(frames) + Buffered(st))
            && (st.error != NoError ==> EncodeAll(frames) + st.headerBytes <= Flatten(chunks))
  {
    assert WellFormed(maxPayload, INITIAL);
    FeedAllIsFeed(maxPayload, INITIAL, chunks);
    FeedConserves(maxPayload, Flatten(chunks));
    hide WellFormed, Feed, EncodeAll, IsValid, FeedAll, Flatten;
  }

  lemma FeedConserves(maxPayload: u32, s: seq<u8>)
    ensures var (frames, st) := Feed(maxPayload, INITIAL, s);
            && WellFormed(maxPayload, st)
            && AllValid(frames, maxPayload)
            && (st.error == NoError ==> s == EncodeAll(frames) + Buffered(st))
            && (st.error != NoError ==> EncodeAll(frames) + st.headerBytes <= s)
  {
    hide WellFormed, Parse, EncodeAll, IsValid, Unfinished, StateOf;
    FeedInitial(maxPayload, s);
    ParseConserves(maxPayload, s);
    StateOfFaithful(maxPayload, s);
    var p := Parse(maxPayload, s);
    if p.error != NoError {
      PrefixOfSum(EncodeAll(p.frames), p.rest, HEADER_SIZE);
    }
  }

  lemma PrefixOfSum(x: seq<u8>, y: seq<u8>, n: nat)
    requires n <= |y|
    ensures x + y[..n] <= x + y
  {
  }

  lemma FeedInitial(maxPayload: u32, s: seq<u8>)
    ensures var p := Parse(maxPayload, s);
            && (p.error != NoError ==> |p.rest| >= HEADER_SIZE)
            && Feed(maxPayload, INITIAL, s) == (p.frames, StateOf(p))
            && StateOf(p).error == p.error
  {
    hide Parse;
    assert Buffered(INITIAL) + s == s;
    StateOfFaithful(maxPayload, s);
  }

  /** What the decoder lets through and what it reports, in terms of the fields themselves: every frame
      it emits is well shaped, and an error names the first wrong field of the header it stopped at. */
  lemma DecoderIsExact(maxPayload: u32, chunks: seq<seq<u8>>)
    ensures var (frames, st) := FeedAll(maxPayload, INITIAL, chunks);
            && (forall i :: 0 <= i < |frames| ==> WellShaped(frames[i], maxPayload))
            && (st.error != NoError ==>
                  |st.headerBytes| == HEADER_SIZE && Blames(st.error, HeaderOf(st.headerBytes), maxPayload))
  {
    hide FeedAll, EncodeAll, Flatten, HeaderOf, ValidateFrame, WellShaped, Blames;
    DecoderConserves(maxPayload, chunks);
    var (frames, st) := FeedAll(maxPayload, INITIAL, chunks);
    forall i | 0 <= i < |frames|
      ensures WellShaped(frames[i], maxPayload)
    {
      ValidationIsExact(frames[i], maxPayload);
    }
    if st.error != NoError {
      ValidationIsExact(Frame(HeaderOf(st.headerBytes), []), maxPayload);
    }
  }

  /** A header with a wrong field, arriving on its own, is rejected for that field. */
  lemma BadHeaderIsRejected(maxPayload: u32, bytes: seq<u8>, error: FrameValidationError)
    requires |bytes| == HEADER_SIZE && error != NoError && Blames(error, HeaderOf(bytes), maxPayload)
    ensures Feed(maxPayload, INITIAL, bytes) == ([], DecoderState(bytes, None, [], error))
  {
    hide Feed, HeaderOf, ValidateFrame, Blames, CheckHeader;
    ValidationIsExact(Frame(HeaderOf(bytes), []), maxPayload);
    assert INITIAL.headerBytes + bytes == bytes;
    RejectingHeader(maxPayload, INITIAL, bytes);
  }

  /** After an error nothing is emitted and nothing changes until reset. */
  lemma {:induction false} ErrorIsTerminal(maxPayload: u32, st: DecoderState, chunks: seq<seq<u8>>)
    requires st.error != NoError
    ensures FeedAll(maxPayload, st, chunks) == ([], st)
  {
    if chunks != [] {
      ErrorIsTerminal(maxPayload, st, chunks[1..]);
      assert FeedAll(maxPayload, st, chunks[1..]).0 + [] == [];
    }
  }

  /** A frame in pieces: header bytes filled so far, then payload bytes filled so far. */
  lemma ReadingHeader(maxPayload: u32, st: DecoderState, chunk: seq<u8>)
    requires WellFormed(maxPayload, st) && st.error == NoError && st.header.None?
    requires |st.headerBytes + chunk| < HEADER_SIZE
    ensures Feed(maxPayload, st, chunk) == ([], st.(headerBytes := st.headerBytes + chunk))
  {
    hide CheckHeader, HeaderOf, IsValid;
    assert Buffered(st) + chunk == st.headerBytes + chunk;
  }

  lemma RejectingHeader(maxPayload: u32, st: DecoderState, chunk: seq<u8>)
    requires WellFormed(maxPayload, st) && st.error == NoError && st.header.None?
    requires |st.headerBytes + chunk| == HEADER_SIZE
    requires CheckHeader(HeaderOf(st.headerBytes + chunk), maxPayload) != NoError
    ensures Feed(maxPayload, st, chunk)
            == ([], DecoderState(st.headerBytes + chunk, None, [],
                                 CheckHeader(HeaderOf(st.headerBytes + chunk), maxPayload)))
  {
    hide CheckHeader, HeaderOf, IsValid;
    var hb := st.headerBytes + chunk;
    assert Buffered(st) + chunk == hb && hb[..HEADER_SIZE] == hb;
  }

  /** With the header in hand: payload bytes accumulate until they complete exactly one frame. */
  lemma ReadingPayload(maxPayload: u32, st: DecoderState, chunk: seq<u8>, hb: seq<u8>, got: seq<u8>)
    requires WellFormed(maxPayload, st) && st.error == NoError
    requires Buffered(st) + chunk == hb + got
    requires |hb| == HEADER_SIZE
    requires CheckHeader(HeaderOf(hb), maxPayload) == NoError
    requires |got| <= HeaderOf(hb).payloadSize
    ensures Feed(maxPayload, st, chunk)
            == if |got| == HeaderOf(hb).payloadSize then ([Frame(HeaderOf(hb), got)], INITIAL)
               else ([], DecoderState(hb, Some(HeaderOf(hb)), got, NoError))
  {
    hide CheckHeader, HeaderOf, IsValid;
    var s := hb + got;
    assert s[..HEADER_SIZE] == hb && s[HEADER_SIZE..] == got;
    if |got| == HeaderOf(hb).payloadSize {
      assert s[HEADER_SIZE..HEADER_SIZE + |got|] == got;
      assert s[HEADER_SIZE + |got|..] == [];
      assert Parse(maxPayload, []) == Parsed([], [], NoError);
      assert [Frame(HeaderOf(hb), got)] + [] == [Frame(HeaderOf(hb), got)];
    }
  }

  /** copy_bytes: fills the destination from its current size, as far as the source reaches. */
  method CopyBytes(source: seq<u8>, destination: array<u8>, size: nat) returns (copied: nat)
    requires size <= destination.Length
    modifies destination
    ensures copied == if |source| < destination.Length - size then |source| else destination.Length - size
    ensures destination[..size + copied] == old(destination[..size]) + source[..copied]
    ensures destination[size + copied..] == old(destination[..])[size + copied..]
  {
    copied := if |source| < destination.Length - size then |source| else destination.Length - size;
    for i := 0 to copied
      invariant destination[..size] == old(destination[..size])
      invariant destination[size..size + i] == source[..i]
      invariant destination[size + i..] == old(destination[..])[size + i..]
    {
      destination[size + i] := source[i];
      assert destination[size..size + i + 1] == destination[size..size + i] + [source[i]];
    }
    assert destination[..size + copied] == destination[..size] + destination[size..size + copied];
  }

  class FrameDecoder {
    const maxPayload: u32
    const headerBytes: array<u8>
    var headerSize: nat
    var header: Option<FrameHeader>
    var payload: array<u8>
    var payloadSize: nat
    var error: FrameValidationError

    ghost predicate Sized()
      reads this
    {
      && headerBytes.Length == HEADER_SIZE && headerSize <= HEADER_SIZE
      && payload != headerBytes && payloadSize <= payload.Length
      && payload.Length == if header.Some? then header.value.payloadSize else 0
    }

    ghost function View(): DecoderState
      requires Sized()
      reads this, headerBytes, payload
    {
      DecoderState(headerBytes[..headerSize], header, payload[..payloadSize], error)
    }

    /** The buffers hold a well-formed state. */
    ghost predicate Valid()
      reads this, headerBytes, payload
    {
      Sized() && WellFormed(maxPayload, View())
    }

    constructor (maxPayload: u32)
      ensures Valid() && View() == INITIAL && this.maxPayload == maxPayload
      ensures fresh(headerBytes) && fresh(payload)
    {
      this.maxPayload := maxPayload;
      headerBytes := new u8[18];
      payload := new u8[0];
      headerSize, payloadSize := 0, 0;
      header, error := None, NoError;
    }

    method HasIncompleteFrame() returns (incomplete: bool)
      requires Valid()
      ensures incomplete == (Buffered(View()) != [])
    {
      incomplete := header.Some? || headerSize != 0;
    }

    method Reset()
      requires Valid()
      modifies this
      ensures Valid() && View() == INITIAL && fresh(payload)
    {
      header := None;
      headerSize := 0;
      payload := new u8[0];
      payloadSize := 0;
      error := NoError;
    }

    /** start_frame, on a full header buffer. */
    method StartFrame()
      requires Sized() && headerSize == HEADER_SIZE && header.None? && error == NoError && payloadSize == 0
      modifies this
      ensures Sized() && headerSize == HEADER_SIZE && payloadSize == 0
      ensures error == CheckHeader(HeaderOf(headerBytes[..]), maxPayload)
      ensures header == if error == NoError then Some(HeaderOf(headerBytes[..])) else None
      ensures payload == old(payload) || fresh(payload)
    {
      var decoded := DecodeFrameHeader(headerBytes[..]);
      assert headerBytes[..][..HEADER_SIZE] == headerBytes[..];
      var validation := ValidateFrame(Frame(decoded.value, []), maxPayload);
      if validation != NoError && validation != PayloadLengthMismatch {
        error := validation;
        return;
      }
      header := decoded;
      payload := new u8[decoded.value.payloadSize];
    }

    /** The second half of an iteration: payload bytes, and the frame if they complete it. */
    method TakePayload(bytes: seq<u8>) returns (emitted: seq<Frame>, copied: nat)
      requires Sized() && headerSize == HEADER_SIZE && header == Some(HeaderOf(headerBytes[..]))
      requires error == NoError && CheckHeader(header.value, maxPayload) == NoError
      modifies this, payload
      ensures Valid() && (payload == old(payload) || fresh(payload))
      ensures copied <= |bytes|
      ensures var hb := old(headerBytes[..]);
              var got := old(payload[..payloadSize]) + bytes[..copied];
              && |got| <= HeaderOf(hb).payloadSize
              && (copied < |bytes| ==> |got| == HeaderOf(hb).payloadSize)
              && (emitted, View())
                 == if |got| == HeaderOf(hb).payloadSize then ([Frame(HeaderOf(hb), got)], INITIAL)
                    else ([], DecoderState(hb, Some(HeaderOf(hb)), got, NoError))
    {
      hide CheckHeader, HeaderOf;
      PayloadWithinLimit(header.value, maxPayload);
      emitted := [];
      copied := CopyBytes(bytes, payload, payloadSize);
      payloadSize := payloadSize + copied;
      assert headerBytes[..headerSize] == headerBytes[..];
      if payloadSize == payload.Length {
        emitted := [Frame(header.value, payload[..])];
        assert payload[..] == payload[..payloadSize];
        payload := new u8[0];
        header := None;
        headerSize := 0;
        payloadSize := 0;
      }
    }

    /** One iteration of push's loop: it consumes at least one byte and does what the
        specification does with exactly the bytes it consumed. */
    method PushStep(bytes: seq<u8>) returns (emitted: seq<Frame>, copied: nat)
      requires Valid() && error == NoError && bytes != []
      modifies this, headerBytes, payload
      ensures Valid() && (payload == old(payload) || fresh(payload))
      ensures 0 < copied <= |bytes|
      ensures (emitted, View()) == Feed(maxPayload, old(View()), bytes[..copied])
    {
      hide Feed, HeaderOf, CheckHeader;
      ghost var st := View();
      copied := 0;
      if header.None? {
        copied := CopyBytes(bytes, headerBytes, headerSize);
        headerSize := headerSize + copied;
        ghost var hb := headerBytes[..headerSize];
        assert hb == st.headerBytes + bytes[..copied];
        if headerSize < HEADER_SIZE {
          ReadingHeader(maxPayload, st, bytes[..copied]);
          return [], copied;
        }
        assert headerBytes[..] == hb;
        StartFrame();
        assert headerBytes[..] == hb;
        if error != NoError {
          RejectingHeader(maxPayload, st, bytes[..copied]);
          return [], copied;
        }
      }
      assert headerBytes[..] == headerBytes[..headerSize];
      ghost var hb, filled := headerBytes[..], payload[..payloadSize];
      var taken: nat;
      emitted, taken := TakePayload(bytes[copied..]);
      assert Buffered(st) + bytes[..copied] == hb + filled;
      assert bytes[..copied] + bytes[copied..][..taken] == bytes[..copied + taken];
      Associative(Buffered(st), bytes[..copied], bytes[copied..][..taken]);
      Associative(hb, filled, bytes[copied..][..taken]);
      ReadingPayload(maxPayload, st, bytes[..copied + taken], hb, filled + bytes[copied..][..taken]);
      copied := copied + taken;
    }

    /** push: whatever the chunk boundaries, the frames and the state are the specification's. */
    method Push(input: seq<u8>) returns (frames: seq<Frame>)
      requires Valid()
      modifies this, headerBytes, payload
      ensures Valid() && (payload == old(payload) || fresh(payload))
      ensures (frames, View()) == Feed(maxPayload, old(View()), input)
    {
      hide WellFormed, Feed;
      frames := [];
      var bytes := input;
      ghost var start := View();
      ghost var done: seq<u8> := [];
      FeedNothing(maxPayload, start);
      while bytes != [] && error == NoError
        invariant Valid() && (payload == old(payload) || fresh(payload))
        invariant input == done + bytes
        invariant Feed(maxPayload, start, done) == (frames, View())
        decreases |bytes|
      {
        var emitted, copied := PushStep(bytes);
        FeedSplit(maxPayload, start, done, bytes[..copied]);
        done := done + bytes[..copied];
        bytes := bytes[copied..];
        frames := frames + emitted;
      }
      FeedSplit(maxPayload, start, done, bytes);
      if bytes == [] {
        assert done + [] == done;
      } else {
        ErrorFeedsNothing(maxPayload, View(), bytes);
        assert frames + [] == frames;
      }
    }
  }

  lemma DecoderError(decoder: FrameDecoder)
    requires decoder.Valid()
    ensures decoder.View().error == decoder.error
  {
  }

  lemma ErrorFeedsNothing(maxPayload: u32, st: DecoderState, bytes: seq<u8>)
    requires st.error != NoError
    ensures Feed(maxPayload, st, bytes) == ([], st)
  {
  }

  /** What a reader does with a run of reads: one fresh decoder, one push a read. Every cut of the
      stream gives the frames, the error and the remainder of the whole stream. */
  method DecodeReads(maxPayload: u32, chunks: seq<seq<u8>>) returns (frames: seq<Frame>, error: FrameValidationError)
    ensures frames == Parse(maxPayload, Flatten(chunks)).frames
    ensures error == Parse(maxPayload, Flatten(chunks)).error
  {
    hide Feed, Parse;
    var decoder := new FrameDecoder(maxPayload);
    frames := [];
    ghost var total := FeedAll(maxPayload, INITIAL, chunks);
    assert chunks[0..] == chunks && frames + total.0 == total.0;
    for i := 0 to |chunks|
      invariant decoder.Valid() && decoder.maxPayload == maxPayload
      invariant fresh(decoder) && fresh(decoder.headerBytes) && fresh(decoder.payload)
      invariant var (others, last) := FeedAll(maxPayload, decoder.View(), chunks[i..]);
                total == (frames + others, last)
    {
      ghost var st := decoder.View();
      var emitted := decoder.Push(chunks[i]);
      assert chunks[i..][1..] == chunks[i + 1..] && chunks[i..][0] == chunks[i];
      ghost var others := FeedAll(maxPayload, decoder.View(), chunks[i + 1..]).0;
      assert frames + (emitted + others) == (frames + emitted) + others;
      frames := frames + emitted;
    }
    error := decoder.error;
    FeedAllIsFeed(maxPayload, INITIAL, chunks);
    FeedInitial(maxPayload, Flatten(chunks));
  }
}
