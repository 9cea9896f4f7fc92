/** What a byte stream means: the whole-stream parse that the incremental decoder must agree with,
    however the stream is cut into reads. */
module StreamParsing {
  import opened Bytes
  import opened Frames
  import opened FrameCodec

  /** What the head of a byte string holds. */
  datatype Head =
    | Incomplete
    | Rejected(error: FrameValidationError)
    | Complete(frame: Frame)

  function HeadOf(maxPayload: u32, s: seq<u8>): (r: Head)
    ensures r.Rejected? ==> r.error != NoError && |s| >= HEADER_SIZE
    ensures r.Complete? ==> IsValid(r.frame, maxPayload) && |EncodeFrame(r.frame)| <= |s|
  {
    if |s| < HEADER_SIZE then Incomplete
    else
      var h := HeaderOf(s[..HEADER_SIZE]);
      var e := CheckHeader(h, maxPayload);
      if e != NoError then Rejected(e)
      else if |s| < HEADER_SIZE + h.payloadSize then Incomplete
      else
        var f := Frame(h, s[HEADER_SIZE..HEADER_SIZE + h.payloadSize]);
        HeaderDecides(f, maxPayload);
        Complete(f)
  }

  /** Complete frames, the bytes after them, and the error found at the head of those bytes. */
  datatype Parsed = Parsed(frames: seq<Frame>, rest: seq<u8>, error: FrameValidationError)

  function Parse(maxPayload: u32, s: seq<u8>): Parsed
    decreases |s|
  {
    match HeadOf(maxPayload, s)
    case Incomplete => Parsed([], s, NoError)
    case Rejected(e) => Parsed([], s, e)
    case Complete(f) =>
      var tail := Parse(maxPayload, s[HEADER_SIZE + |f.payload|..]);
      Parsed([f] + tail.frames, tail.rest, tail.error)
  }

  /** Later bytes never change a verdict already reached. */
  lemma HeadStable(maxPayload: u32, s: seq<u8>, t: seq<u8>)
    requires !HeadOf(maxPayload, s).Incomplete?
    ensures HeadOf(maxPayload, s + t) == HeadOf(maxPayload, s)
  {
    hide CheckHeader, HeaderOf, IsValid;
    assert (s + t)[..HEADER_SIZE] == s[..HEADER_SIZE];
    var h := HeaderOf(s[..HEADER_SIZE]);
    if |s| >= HEADER_SIZE + h.payloadSize {
      assert (s + t)[HEADER_SIZE..HEADER_SIZE + h.payloadSize] == s[HEADER_SIZE..HEADER_SIZE + h.payloadSize];
    }
  }

  /** The bytes a frame was read from are its encoding. */
  lemma HeadEncodes(maxPayload: u32, s: seq<u8>)
    requires HeadOf(maxPayload, s).Complete?
    ensures var f := HeadOf(maxPayload, s).frame;
            s == EncodeFrame(f) + s[HEADER_SIZE + |f.payload|..]
  {
    hide CheckHeader, HeaderOf, IsValid, EncodeHeader;
    BytesRoundTrip(s[..HEADER_SIZE]);
    var end := HEADER_SIZE + |HeadOf(maxPayload, s).frame.payload|;
    assert s == s[..HEADER_SIZE] + s[HEADER_SIZE..end] + s[end..];
  }

  /** A valid frame's encoding is recognised, whatever follows it. */
  lemma HeadOfFrame(maxPayload: u32, f: Frame, t: seq<u8>)
    requires IsValid(f, maxPayload)
    ensures HeadOf(maxPayload, EncodeFrame(f) + t) == Complete(f)
  {
    HeaderRoundTrip(f.header);
    HeaderDecides(f, maxPayload);
    hide CheckHeader, HeaderOf, IsValid, EncodeHeader;
    var s := EncodeFrame(f) + t;
    assert s[..HEADER_SIZE] == EncodeHeader(f.header);
    assert s[HEADER_SIZE..HEADER_SIZE + |f.payload|] == f.payload;
  }

  /** A proper prefix of a valid frame's encoding is never complete and never rejected. */
  lemma HeadOfPrefix(maxPayload: u32, f: Frame, s: seq<u8>)
    requires IsValid(f, maxPayload)
    requires s < EncodeFrame(f)
    ensures HeadOf(maxPayload, s) == Incomplete
  {
    HeaderRoundTrip(f.header);
    HeaderDecides(f, maxPayload);
    hide CheckHeader, HeaderOf, IsValid, EncodeHeader;
    if |s| >= HEADER_SIZE {
      assert s == EncodeFrame(f)[..|s|];
      assert s[..HEADER_SIZE] == EncodeHeader(f.header);
    }
  }

  /** The parse of more input, given what the input so far parsed to. */
  function Continue(maxPayload: u32, p: Parsed, t: seq<u8>): Parsed {
    if p.error != NoError then Parsed(p.frames, p.rest + t, p.error)
    else
      var q := Parse(maxPayload, p.rest + t);
      Parsed(p.frames + q.frames, q.rest, q.error)
  }

  /** Parsing resumes from the unconsumed bytes alone; an error is final. */
  lemma {:induction false} ParseAppend(maxPayload: u32, s: seq<u8>, t: seq<u8>)
    ensures Parse(maxPayload, s + t) == Continue(maxPayload, Parse(maxPayload, s), t)
    decreases |s|
  {
    hide HeadOf, IsValid, EncodeFrame;
    match HeadOf(maxPayload, s)
    case Incomplete =>
      assert [] + Parse(maxPayload, s + t).frames == Parse(maxPayload, s + t).frames;
    case Rejected(e) =>
      HeadStable(maxPayload, s, t);
    case Complete(f) =>
      HeadStable(maxPayload, s, t);
      var end := HEADER_SIZE + |f.payload|;
      assert (s + t)[end..] == s[end..] + t;
      ParseAppend(maxPayload, s[end..], t);
      ContinueCons(maxPayload, f, Parse(maxPayload, s[end..]), t);
  }

  lemma ContinueCons(maxPayload: u32, f: Frame, tail: Parsed, t: seq<u8>)
    ensures var c := Continue(maxPayload, tail, t);
            Continue(maxPayload, Parsed([f] + tail.frames, tail.rest, tail.error), t)
            == Parsed([f] + c.frames, c.rest, c.error)
  {
    hide Parse;
    var q := Parse(maxPayload, tail.rest + t);
    assert [f] + (tail.frames + q.frames) == ([f] + tail.frames) + q.frames;
  }

  /** What may remain after the last complete frame: bytes whose head is incomplete, or bytes whose
      head fails validation with the reported error. */
  predicate Unfinished(maxPayload: u32, rest: seq<u8>, error: FrameValidationError) {
    HeadOf(maxPayload, rest) == if error == NoError then Incomplete else Rejected(error)
  }

  /** Conservation: the input is exactly the re-encoding of the emitted frames followed by what is
      left over; every emitted frame is valid; an error names the first header that fails. */
  lemma {:induction false} ParseConserves(maxPayload: u32, s: seq<u8>)
    ensures var p := Parse(maxPayload, s);
            && s == EncodeAll(p.frames) + p.rest
            && AllValid(p.frames, maxPayload)
            && Unfinished(maxPayload, p.rest, p.error)
    decreases |s|
  {
    hide HeadOf, IsValid, EncodeFrame;
    assert [] + s == s;
    match HeadOf(maxPayload, s)
    case Incomplete =>
    case Rejected(e) =>
    case Complete(f) =>
      var t := s[HEADER_SIZE + |f.payload|..];
      HeadEncodes(maxPayload, s);
      ParseConserves(maxPayload, t);
      ConsConserves(f, Parse(maxPayload, t), t);
  }

  lemma ConsConserves(f: Frame, tail: Parsed, t: seq<u8>)
    requires t == EncodeAll(tail.frames) + tail.rest
    ensures EncodeFrame(f) + t == EncodeAll([f] + tail.frames) + tail.rest
  {
    hide EncodeFrame, EncodeAll;
    EncodeAllCons(f, tail.frames);
    assert EncodeFrame(f) + (EncodeAll(tail.frames) + tail.rest)
           == (EncodeFrame(f) + EncodeAll(tail.frames)) + tail.rest;
  }

  /** A valid frame at the head of the stream is the next frame parsed. */
  lemma ParseFrame(maxPayload: u32, f: Frame, t: seq<u8>)
    requires IsValid(f, maxPayload)
    ensures var p := Parse(maxPayload, t);
            Parse(maxPayload, EncodeFrame(f) + t) == Parsed([f] + p.frames, p.rest, p.error)
  {
    HeadOfFrame(maxPayload, f, t);
    assert (EncodeFrame(f) + t)[HEADER_SIZE + |f.payload|..] == t;
    hide HeadOf, IsValid, EncodeFrame;
  }

  /** Printing then parsing returns the frames, whatever follows them. */
  lemma {:induction false} ParseEncodeAll(maxPayload: u32, fs: seq<Frame>, t: seq<u8>)
    requires AllValid(fs, maxPayload)
    ensures var p := Parse(maxPayload, t);
            Parse(maxPayload, EncodeAll(fs) + t) == Parsed(fs + p.frames, p.rest, p.error)
  {
    hide Parse, EncodeFrame, IsValid;
    var p := Parse(maxPayload, t);
    if fs == [] {
      assert EncodeAll(fs) + t == t;
      assert fs + p.frames == p.frames;
    } else {
      var more := EncodeAll(fs[1..]) + t;
      ParseEncodeAll(maxPayload, fs[1..], t);
      ParseFrame(maxPayload, fs[0], more);
      assert EncodeAll(fs) + t == EncodeFrame(fs[0]) + more;
      assert [fs[0]] + (fs[1..] + p.frames) == fs + p.frames;
    }
  }

  /** The parse is the only one: any way of reading the stream as valid frames followed by an
      unfinished remainder is the way Parse reads it. */
  lemma ParseUnique(maxPayload: u32, fs: seq<Frame>, rest: seq<u8>, error: FrameValidationError)
    requires AllValid(fs, maxPayload) && Unfinished(maxPayload, rest, error)
    ensures Parse(maxPayload, EncodeAll(fs) + rest) == Parsed(fs, rest, error)
  {
    hide HeadOf, IsValid, EncodeAll;
    ParseEncodeAll(maxPayload, fs, rest);
    assert Parse(maxPayload, rest) == Parsed([], rest, error);
    assert fs + [] == fs;
  }

  /** Any prefix of an encoded frame sequence parses without error to exactly the frames that lie
      wholly inside the prefix. */
  lemma {:induction false} ParsePrefix(maxPayload: u32, fs: seq<Frame>, s: seq<u8>) returns (k: nat)
    requires AllValid(fs, maxPayload)
    requires s <= EncodeAll(fs)
    ensures k <= |fs|
    ensures EncodeAll(fs[..k]) <= s
    ensures Parse(maxPayload, s) == Parsed(fs[..k], s[|EncodeAll(fs[..k])|..], NoError)
    ensures k < |fs| ==> |s| < |EncodeAll(fs[..k + 1])|
  {
    hide HeadOf, IsValid, EncodeFrame;
    if fs == [] {
      return 0;
    }
    var f, size := fs[0], |EncodeFrame(fs[0])|;
    assert fs[1..][..0] == [];
    TakeCons(fs, 1);
    if |s| < size {
      assert s == EncodeFrame(f)[..|s|];
      HeadOfPrefix(maxPayload, f, s);
      return 0;
    }
    var t := s[size..];
    assert EncodeAll(fs)[size..] == EncodeAll(fs[1..]);
    assert t == EncodeAll(fs[1..])[..|t|];
    assert EncodeAll(fs)[..size] == EncodeFrame(f);
    assert s == EncodeFrame(f) + t;
    var j := ParsePrefix(maxPayload, fs[1..], t);
    ParseFrame(maxPayload, f, t);
    k := j + 1;
    TakeCons(fs, k);
    if k < |fs| {
      TakeCons(fs, k + 1);
    }
    assert s[|EncodeAll(fs[..k])|..] == t[|EncodeAll(fs[1..][..j])|..];
  }

  lemma TakeCons(fs: seq<Frame>, k: nat)
    requires 0 < k <= |fs|
    ensures fs[..k] == [fs[0]] + fs[1..][..k - 1]
    ensures EncodeAll(fs[..k]) == EncodeFrame(fs[0]) + EncodeAll(fs[1..][..k - 1])
  {
    assert fs[..k] == [fs[0]] + fs[1..][..k - 1];
    EncodeAllCons(fs[0], fs[1..][..k - 1]);
  }
}
