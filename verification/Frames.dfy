/** Frames, their flags and validation, and the status codes they may carry. */
module Frames {
  import opened Bytes

  datatype StatusCode =
    | Ok
    | TransportError | ConnectionClosed | ConnectionReset | ConnectionTimedOut
    | ProtocolError | UnsupportedVersionStatus | MalformedFrame | UnknownStream
    | SerializationError | UnknownMessageType | DecodeError
    | OperationError
    | TimeoutError
    | Cancelled
    | ResourceLimitExceeded
  {
    /** The 16-bit wire value. */
    function Value(): u16 {
      match this
      case Ok => 0
      case TransportError => 1000
      case ConnectionClosed => 1001
      case ConnectionReset => 1002
      case ConnectionTimedOut => 1003
      case ProtocolError => 2000
      case UnsupportedVersionStatus => 2001
      case MalformedFrame => 2002
      case UnknownStream => 2003
      case SerializationError => 3000
      case UnknownMessageType => 3001
      case DecodeError => 3002
      case OperationError => 4000
      case TimeoutError => 5000
      case Cancelled => 6000
      case ResourceLimitExceeded => 7000
    }

    /** Codes in the 1000 band are detected locally and never received from a peer. */
    predicate IsTransport() {
      Value() / 1000 == 1
    }
  }

  const REQUEST: u8 := 1
  const RESPONSE: u8 := 2

  const NO_FLAGS: u8 := 0
  const END_OF_STREAM: u8 := 1
  const CANCEL: u8 := 2
  const ERROR: u8 := 4

  const DEFAULT_MAX_PAYLOAD: u32 := 16 * 1024 * 1024

  /** has_flag for a single-bit flag. */
  predicate HasFlag(flags: u8, flag: u8)
    requires flag > 0
  {
    (flags / flag) % 2 == 1
  }

  /** No bit above end_of_stream | cancel | error. */
  predicate HasOnlyKnownFlags(flags: u8) {
    flags / 8 == 0
  }

  /** flags | end_of_stream. */
  function WithEndOfStream(flags: u8): (r: u8)
    ensures HasFlag(r, END_OF_STREAM)
    ensures HasFlag(r, CANCEL) == HasFlag(flags, CANCEL) && HasFlag(r, ERROR) == HasFlag(flags, ERROR)
    ensures HasOnlyKnownFlags(r) == HasOnlyKnownFlags(flags)
  {
    if HasFlag(flags, END_OF_STREAM) then flags else flags + END_OF_STREAM
  }

  datatype ProtocolVersion = ProtocolVersion(major: u16, minor: u16)

  const CURRENT_VERSION := ProtocolVersion(0, 1)

  datatype FrameHeader = FrameHeader(
    version: ProtocolVersion, kind: u8, flags: u8, stream: u64, payloadSize: u32)

  datatype Frame = Frame(header: FrameHeader, payload: seq<u8>)

  datatype FrameValidationError =
    | NoError
    | UnsupportedVersion
    | UnknownFrameType
    | UnknownFlags
    | InvalidFlagCombination
    | InvalidStream
    | PayloadLengthMismatch
    | PayloadTooLarge

  function ValidateFrame(frame: Frame, maxPayload: u32): FrameValidationError {
    var h := frame.header;
    if h.version != CURRENT_VERSION then UnsupportedVersion
    else if h.kind != REQUEST && h.kind != RESPONSE then UnknownFrameType
    else if !HasOnlyKnownFlags(h.flags) then UnknownFlags
    else if HasFlag(h.flags, CANCEL) && HasFlag(h.flags, ERROR) then InvalidFlagCombination
    else if h.stream == 0 then InvalidStream
    else if h.payloadSize > maxPayload then PayloadTooLarge
    else if |frame.payload| > 0xFFFF_FFFF || h.payloadSize != |frame.payload| then PayloadLengthMismatch
    else NoError
  }

  predicate IsValid(frame: Frame, maxPayload: u32) {
    ValidateFrame(frame, maxPayload) == NoError
  }

  predicate AllValid(frames: seq<Frame>, maxPayload: u32) {
    forall i :: 0 <= i < |frames| ==> IsValid(frames[i], maxPayload)
  }

  /** A frame a peer of the given role may legally receive under the default limit. */
  predicate LegalFor(frame: Frame, kind: u8) {
    IsValid(frame, DEFAULT_MAX_PAYLOAD) && frame.header.kind == kind
  }

  function LegalTo(kind: u8): Frame -> bool {
    f => LegalFor(f, kind)
  }

  /** The check the decoder makes once it has a header and no payload yet: validate_frame on the
      bare header, not counting the payload that has still to arrive. */
  function CheckHeader(h: FrameHeader, maxPayload: u32): FrameValidationError {
    var v := ValidateFrame(Frame(h, []), maxPayload);
    if v == PayloadLengthMismatch then NoError else v
  }

  /** Deciding on the bare header loses nothing: it accepts exactly the headers that some payload
      completes to a valid frame, and otherwise reports the error the whole frame would report. */
  lemma HeaderDecides(frame: Frame, maxPayload: u32)
    ensures IsValid(frame, maxPayload)
            <==> CheckHeader(frame.header, maxPayload) == NoError && |frame.payload| == frame.header.payloadSize
    ensures CheckHeader(frame.header, maxPayload) != NoError
            ==> ValidateFrame(frame, maxPayload) == CheckHeader(frame.header, maxPayload)
  {
  }

  /** A frame of the protocol, field by field: version 0.1, request or response, no flag bit above the
      third, not both the cancel bit and the error bit, a stream, and as much payload as announced and
      allowed. */
  predicate WellShaped(frame: Frame, maxPayload: u32) {
    var h := frame.header;
    && h.version.major == 0 && h.version.minor == 1
    && (h.kind == 1 || h.kind == 2)
    && h.flags < 8 && !((h.flags / 2) % 2 == 1 && (h.flags / 4) % 2 == 1)
    && h.stream != 0
    && h.payloadSize <= maxPayload && h.payloadSize == |frame.payload|
  }

  /** The header's own fields before a given one are all right. */
  predicate GoodUpTo(h: FrameHeader, maxPayload: u32, field: nat) {
    && (field > 0 ==> h.version.major == 0 && h.version.minor == 1)
    && (field > 1 ==> h.kind == 1 || h.kind == 2)
    && (field > 2 ==> h.flags < 8)
    && (field > 3 ==> (h.flags / 2) % 2 == 0 || (h.flags / 4) % 2 == 0)
    && (field > 4 ==> h.stream != 0)
    && (field > 5 ==> h.payloadSize <= maxPayload)
  }

  /** What each error code says of a header: the first field that is wrong. */
  predicate Blames(e: FrameValidationError, h: FrameHeader, maxPayload: u32) {
    match e
    case NoError => GoodUpTo(h, maxPayload, 6)
    case UnsupportedVersion => h.version.major != 0 || h.version.minor != 1
    case UnknownFrameType => GoodUpTo(h, maxPayload, 1) && h.kind != 1 && h.kind != 2
    case UnknownFlags => GoodUpTo(h, maxPayload, 2) && h.flags >= 8
    case InvalidFlagCombination => GoodUpTo(h, maxPayload, 3) && (h.flags / 2) % 2 == 1 && (h.flags / 4) % 2 == 1
    case InvalidStream => GoodUpTo(h, maxPayload, 4) && h.stream == 0
    case PayloadTooLarge => GoodUpTo(h, maxPayload, 5) && h.payloadSize > maxPayload
    case PayloadLengthMismatch => false
  }

  /** Validation is exact: a frame is valid exactly when it is well shaped, and each error code is
      reported exactly when it names the first wrong field, a length mismatch when only the payload's
      length is wrong. */
  lemma ValidationIsExact(frame: Frame, maxPayload: u32)
    ensures IsValid(frame, maxPayload) <==> WellShaped(frame, maxPayload)
    ensures forall e :: e != NoError && e != PayloadLengthMismatch ==>
              (ValidateFrame(frame, maxPayload) == e <==> Blames(e, frame.header, maxPayload))
    ensures ValidateFrame(frame, maxPayload) == PayloadLengthMismatch
            <==> GoodUpTo(frame.header, maxPayload, 6) && frame.header.payloadSize != |frame.payload|
    ensures forall e :: CheckHeader(frame.header, maxPayload) == e <==> Blames(e, frame.header, maxPayload)
  {
  }

  /** send_cancellation's frame. */
  function CancelFrame(stream: u64): (frame: Frame)
    ensures stream != 0 ==> LegalFor(frame, REQUEST)
    ensures HasFlag(frame.header.flags, CANCEL) && HasFlag(frame.header.flags, END_OF_STREAM)
    ensures frame.header.stream == stream
  {
    Frame(FrameHeader(CURRENT_VERSION, REQUEST, WithEndOfStream(CANCEL), stream, 0), [])
  }

  /** make_error_frame. */
  function ErrorFrame(stream: u64, status: StatusCode): (frame: Frame)
    ensures stream != 0 ==> LegalFor(frame, RESPONSE)
    ensures HasFlag(frame.header.flags, ERROR) && HasFlag(frame.header.flags, END_OF_STREAM)
    ensures !HasFlag(frame.header.flags, CANCEL) && frame.header.stream == stream
    ensures |frame.payload| == 2 && 256 * frame.payload[0] as int + frame.payload[1] as int == status.Value()
  {
    Frame(FrameHeader(CURRENT_VERSION, RESPONSE, WithEndOfStream(ERROR), stream, 2),
          [(status.Value() / 256) % 256, status.Value() % 256])
  }

  /** decode_error_status: only the listed codes are accepted. */
  function DecodeErrorStatus(frame: Frame): Option<StatusCode> {
    if |frame.payload| != 2 then None
    else
      var hi: int, lo: int := frame.payload[0], frame.payload[1];
      var value := hi * 256 + lo;
      if value == 2000 then Some(ProtocolError)
      else if value == 2001 then Some(UnsupportedVersionStatus)
      else if value == 2002 then Some(MalformedFrame)
      else if value == 2003 then Some(UnknownStream)
      else if value == 3000 then Some(SerializationError)
      else if value == 3001 then Some(UnknownMessageType)
      else if value == 3002 then Some(DecodeError)
      else if value == 4000 then Some(OperationError)
      else if value == 5000 then Some(TimeoutError)
      else if value == 6000 then Some(Cancelled)
      else if value == 7000 then Some(ResourceLimitExceeded)
      else None
  }

  /** A status survives an error frame exactly when it is an error outside the transport band; every
      other status decodes to nothing at all, never to a different status. */
  lemma ErrorStatusRoundTrip(stream: u64, status: StatusCode)
    ensures DecodeErrorStatus(ErrorFrame(stream, status))
            == if status.Ok? || status.IsTransport() then None else Some(status)
  {
    var frame := ErrorFrame(stream, status);
    var hi: int, lo: int := frame.payload[0], frame.payload[1];
    assert hi * 256 + lo == status.Value();
  }

  lemma ErrorStatusNeverOk(frame: Frame)
    ensures DecodeErrorStatus(frame).Some? ==> !DecodeErrorStatus(frame).value.Ok?
  {
  }
}
