/** Typed messages: the registry that ties application types to wire identifiers, and the payload and
    frame encodings built on it. Application types are named by an index and values are of any type V;
    the codec is a parameter. */
module Messages {
  import opened Bytes
  import opened Frames

  type TypeId = nat

  // ----- Registry -----

  datatype RegistrationError = Registered | InvalidId | DuplicateId | DuplicateType | UnsupportedType

  datatype VersionRegistrations = VersionRegistrations(byId: map<u32, TypeId>, byType: map<TypeId, u32>)

  type Registrations = map<ProtocolVersion, VersionRegistrations>

  function RegistrationsOf(regs: Registrations, version: ProtocolVersion): VersionRegistrations {
    if version in regs then regs[version] else VersionRegistrations(map[], map[])
  }

  /** register_message. A valid identifier makes the version known even if registration then fails. */
  function Register(regs: Registrations, version: ProtocolVersion, id: u32, t: TypeId, supported: bool)
    : (Registrations, RegistrationError)
  {
    if id == 0 then (regs, InvalidId)
    else
      var r := RegistrationsOf(regs, version);
      if id in r.byId then (regs[version := r], DuplicateId)
      else if t in r.byType then (regs[version := r], DuplicateType)
      else if !supported then (regs[version := r], UnsupportedType)
      else (regs[version := VersionRegistrations(r.byId[id := t], r.byType[t := id])], Registered)
  }

  /** message_type<Message>(version). */
  function WireTypeOf(regs: Registrations, version: ProtocolVersion, t: TypeId): Option<u32> {
    if version in regs && t in regs[version].byType then Some(regs[version].byType[t]) else None
  }

  /** message_type(version, id). */
  function TypeOfWire(regs: Registrations, version: ProtocolVersion, id: u32): Option<TypeId> {
    if version in regs && id in regs[version].byId then Some(regs[version].byId[id]) else None
  }

  /** The two directions of every version's table are inverse to each other, and no identifier is 0. */
  ghost predicate Inverse(regs: Registrations) {
    forall version, t: TypeId, id: u32 ::
      (WireTypeOf(regs, version, t) == Some(id) <==> TypeOfWire(regs, version, id) == Some(t))
      && (TypeOfWire(regs, version, id) == Some(t) ==> id != 0)
  }

  datatype Registration = Registration(version: ProtocolVersion, id: u32, t: TypeId, supported: bool)

  function RegisterAll(regs: Registrations, rs: seq<Registration>): Registrations
    decreases rs
  {
    if rs == [] then regs
    else RegisterAll(Register(regs, rs[0].version, rs[0].id, rs[0].t, rs[0].supported).0, rs[1..])
  }

  /** A registration succeeds exactly when the identifier is valid and new, the type is new and the
      codec supports it; it then adds that one pair, in both directions, and nothing else ever changes. */
  lemma RegisterEffect(regs: Registrations, version: ProtocolVersion, id: u32, t: TypeId, supported: bool)
    ensures var (regs', e) := Register(regs, version, id, t, supported);
            && (e.Registered? <==>
                id != 0 && TypeOfWire(regs, version, id).None? && WireTypeOf(regs, version, t).None? && supported)
            && (forall v, u: TypeId ::
                  WireTypeOf(regs', v, u) == if e.Registered? && v == version && u == t then Some(id) else WireTypeOf(regs, v, u))
            && (forall v, i: u32 ::
                  TypeOfWire(regs', v, i) == if e.Registered? && v == version && i == id then Some(t) else TypeOfWire(regs, v, i))
  {
  }

  lemma RegisterInverse(regs: Registrations, version: ProtocolVersion, id: u32, t: TypeId, supported: bool)
    requires Inverse(regs)
    ensures Inverse(Register(regs, version, id, t, supported).0)
  {
    hide Register, WireTypeOf, TypeOfWire;
    RegisterEffect(regs, version, id, t, supported);
  }

  /** After any sequence of registrations, successful or not, the two maps are mutual inverses. */
  lemma {:induction false} RegistrationsStayInverse(regs: Registrations, rs: seq<Registration>)
    requires Inverse(regs)
    ensures Inverse(RegisterAll(regs, rs))
    decreases rs
  {
    hide Inverse, Register;
    if rs != [] {
      RegisterInverse(regs, rs[0].version, rs[0].id, rs[0].t, rs[0].supported);
      RegistrationsStayInverse(Register(regs, rs[0].version, rs[0].id, rs[0].t, rs[0].supported).0, rs[1..]);
    }
  }

  lemma EmptyInverse()
    ensures Inverse(map[])
  {
  }

  /** Registrations are never lost: what a type or an identifier meant, it goes on meaning. */
  lemma {:induction false} RegistrationsPersist(regs: Registrations, rs: seq<Registration>, version: ProtocolVersion, t: TypeId, id: u32)
    requires WireTypeOf(regs, version, t) == Some(id) && TypeOfWire(regs, version, id) == Some(t)
    ensures WireTypeOf(RegisterAll(regs, rs), version, t) == Some(id)
    ensures TypeOfWire(RegisterAll(regs, rs), version, id) == Some(t)
    decreases rs
  {
    hide Register, WireTypeOf, TypeOfWire;
    if rs != [] {
      RegisterEffect(regs, rs[0].version, rs[0].id, rs[0].t, rs[0].supported);
      RegistrationsPersist(Register(regs, rs[0].version, rs[0].id, rs[0].t, rs[0].supported).0, rs[1..], version, t, id);
    }
  }

  class MessageRegistry {
    var registrations: Registrations

    constructor ()
      ensures registrations == map[] && Inverse(registrations)
    {
      registrations := map[];
      EmptyInverse();
    }

    method RegisterMessage(version: ProtocolVersion, id: u32, t: TypeId, supported: bool)
      returns (error: RegistrationError)
      modifies this
      ensures (registrations, error) == Register(old(registrations), version, id, t, supported)
      ensures old(Inverse(registrations)) ==> Inverse(registrations)
    {
      if old(Inverse(registrations)) {
        RegisterInverse(registrations, version, id, t, supported);
      }
      if id == 0 {
        return InvalidId;
      }
      if version !in registrations {
        registrations := registrations[version := VersionRegistrations(map[], map[])];
      }
      var byId, byType := registrations[version].byId, registrations[version].byType;
      assert registrations == old(registrations)[version := registrations[version]];
      if id in byId {
        return DuplicateId;
      }
      if t in byType {
        return DuplicateType;
      }
      if !supported {
        return UnsupportedType;
      }
      byId := byId[id := t];
      byType := byType[t := id];
      registrations := registrations[version := VersionRegistrations(byId, byType)];
      assert registrations == old(registrations)[version := registrations[version]];
      return Registered;
    }
  }

  // ----- Codec -----

  datatype EncodeResult = Encoded(payload: seq<u8>) | EncodeFailed(status: StatusCode)
  datatype DecodeResult<V> = Decoded(value: V) | DecodeFailed(status: StatusCode)
  datatype FrameResult = Framed(frame: Frame) | FrameFailed(status: StatusCode)

  datatype Codec<!V> = Codec(
    encode: (TypeId, V) -> EncodeResult,
    decode: (TypeId, seq<u8>) -> DecodeResult<V>)

  /** What the codec encodes as a value of type t, it decodes back to that value. */
  ghost predicate RoundTrips<V(!new)>(codec: Codec<V>, t: TypeId) {
    forall v: V :: codec.encode(t, v).Encoded? ==> codec.decode(t, codec.encode(t, v).payload) == Decoded(v)
  }

  const TYPE_SIZE: nat := 4

  function EncodePayload<V>(regs: Registrations, codec: Codec<V>, t: TypeId, v: V, version: ProtocolVersion): EncodeResult {
    match WireTypeOf(regs, version, t)
    case None => EncodeFailed(UnknownMessageType)
    case Some(id) =>
      match codec.encode(t, v)
      case EncodeFailed(status) => EncodeFailed(status)
      case Encoded(body) => Encoded(ToBytes(id, 4) + body)
  }

  /** peek_message_type. */
  function PeekMessageType(payload: seq<u8>): Option<u32> {
    if |payload| < TYPE_SIZE then None else Some(ReadBe32(payload, 0))
  }

  function DecodePayload<V>(regs: Registrations, codec: Codec<V>, t: TypeId, payload: seq<u8>, version: ProtocolVersion): DecodeResult<V> {
    match PeekMessageType(payload)
    case None => DecodeFailed(DecodeError)
    case Some(id) =>
      if WireTypeOf(regs, version, t) != Some(id) then DecodeFailed(UnknownMessageType)
      else codec.decode(t, payload[TYPE_SIZE..])
  }

  function EncodeMessage<V>(regs: Registrations, codec: Codec<V>, t: TypeId, v: V, stream: u64, kind: u8, flags: u8,
                            maxPayload: u32, version: ProtocolVersion): FrameResult
  {
    match EncodePayload(regs, codec, t, v, version)
    case EncodeFailed(status) => FrameFailed(status)
    case Encoded(payload) =>
      if |payload| > maxPayload then FrameFailed(ResourceLimitExceeded)
      else Framed(Frame(FrameHeader(version, kind, flags, stream, |payload|), payload))
  }

  function DecodeMessage<V>(regs: Registrations, codec: Codec<V>, t: TypeId, frame: Frame): DecodeResult<V> {
    DecodePayload(regs, codec, t, frame.payload, frame.header.version)
  }

  /** A receiver can tell which type a payload holds before any codec runs. */
  lemma PeekEncoded<V>(regs: Registrations, codec: Codec<V>, t: TypeId, v: V, version: ProtocolVersion)
    requires EncodePayload(regs, codec, t, v, version).Encoded?
    ensures var payload := EncodePayload(regs, codec, t, v, version).payload;
            && PeekMessageType(payload) == WireTypeOf(regs, version, t) && WireTypeOf(regs, version, t).Some?
            && payload[TYPE_SIZE..] == codec.encode(t, v).payload
  {
    var id := WireTypeOf(regs, version, t).value;
    var payload := EncodePayload(regs, codec, t, v, version).payload;
    assert payload[0..4] == ToBytes(id, 4);
    WidthBounds();
    FromToBytes(id, 4);
  }

  /** What decoding any payload as type t gives, byte by byte: decode_error when it is too short to name
      a type, unknown_message_type when the first four bytes are not t's identifier, and otherwise
      exactly the codec's answer to the rest. */
  lemma DecodingIsExact<V>(regs: Registrations, codec: Codec<V>, t: TypeId, payload: seq<u8>, version: ProtocolVersion)
    ensures |payload| < 4 ==> DecodePayload(regs, codec, t, payload, version) == DecodeFailed(DecodeError)
    ensures |payload| >= 4 ==>
              var id := payload[0] as int * 0x100_0000 + payload[1] as int * 0x1_0000 + payload[2] as int * 0x100
                        + payload[3] as int;
              DecodePayload(regs, codec, t, payload, version)
              == if WireTypeOf(regs, version, t).Some? && WireTypeOf(regs, version, t).value == id
                 then codec.decode(t, payload[4..]) else DecodeFailed(UnknownMessageType)
  {
  }

  /** Typed round trip without confusion: decoding an encoded message as its own type returns the value,
      given a codec that round-trips; decoding it as any other type fails with unknown_message_type,
      whatever the codec would have said. */
  lemma TypedRoundTrip<V(!new)>(regs: Registrations, codec: Codec<V>, t: TypeId, v: V, stream: u64, kind: u8, flags: u8,
                                maxPayload: u32, version: ProtocolVersion, other: TypeId, anyCodec: Codec<V>)
    requires Inverse(regs) && RoundTrips(codec, t)
    requires EncodeMessage(regs, codec, t, v, stream, kind, flags, maxPayload, version).Framed?
    ensures var frame := EncodeMessage(regs, codec, t, v, stream, kind, flags, maxPayload, version).frame;
            && DecodeMessage(regs, codec, t, frame) == Decoded(v)
            && (other != t ==> DecodeMessage(regs, anyCodec, other, frame) == DecodeFailed(UnknownMessageType))
  {
    PeekEncoded(regs, codec, t, v, version);
    hide PeekMessageType;
    var id := WireTypeOf(regs, version, t).value;
    assert WireTypeOf(regs, version, t) == Some(id);
    if WireTypeOf(regs, version, other) == Some(id) {
      assert TypeOfWire(regs, version, id) == Some(other) == Some(t);
    }
  }

  /** What encode_message produces with its defaults is legal for the peer on every valid stream; it
      fails exactly when the type is unknown, the codec fails or the payload is too large. */
  lemma EncodedIsLegal<V>(regs: Registrations, codec: Codec<V>, t: TypeId, v: V, stream: u64, kind: u8)
    requires stream != 0 && (kind == REQUEST || kind == RESPONSE)
    ensures var r := EncodeMessage(regs, codec, t, v, stream, kind, NO_FLAGS, DEFAULT_MAX_PAYLOAD, CURRENT_VERSION);
            && (r.Framed? <==> WireTypeOf(regs, CURRENT_VERSION, t).Some? && codec.encode(t, v).Encoded?
                               && |codec.encode(t, v).payload| + TYPE_SIZE <= DEFAULT_MAX_PAYLOAD)
            && (r.Framed? ==> LegalFor(r.frame, kind) && r.frame.header.stream == stream)
            && (WireTypeOf(regs, CURRENT_VERSION, t).None? ==> r == FrameFailed(UnknownMessageType))
            && (WireTypeOf(regs, CURRENT_VERSION, t).Some? ==>
                  match codec.encode(t, v)
                  case EncodeFailed(status) => r == FrameFailed(status)
                  case Encoded(body) =>
                    if |body| + TYPE_SIZE > DEFAULT_MAX_PAYLOAD then r == FrameFailed(ResourceLimitExceeded)
                    else r.Framed? && r.frame.payload[TYPE_SIZE..] == body)
  {
  }

  /** encode_message_payload fills a buffer: the big-endian type, then the body. */
  method EncodeMessagePayload(wireType: Option<u32>, encoded: EncodeResult) returns (r: EncodeResult)
    ensures r == match wireType
                 case None => EncodeFailed(UnknownMessageType)
                 case Some(id) =>
                   if encoded.Encoded? then Encoded(ToBytes(id, 4) + encoded.payload) else encoded
  {
    if wireType.None? {
      return EncodeFailed(UnknownMessageType);
    }
    if encoded.EncodeFailed? {
      return encoded;
    }
    var body := encoded.payload;
    var buffer := new u8[TYPE_SIZE + |body|];
    WriteBe32(buffer, 0, wireType.value);
    assert buffer[..TYPE_SIZE] == ToBytes(wireType.value, 4);
    for i := 0 to |body|
      invariant buffer[..TYPE_SIZE] == ToBytes(wireType.value, 4)
      invariant buffer[TYPE_SIZE..TYPE_SIZE + i] == body[..i]
    {
      buffer[TYPE_SIZE + i] := body[i];
      assert buffer[TYPE_SIZE..TYPE_SIZE + i + 1] == buffer[TYPE_SIZE..TYPE_SIZE + i] + [body[i]];
    }
    assert buffer[..] == buffer[..TYPE_SIZE] + buffer[TYPE_SIZE..TYPE_SIZE + |body|];
    r := Encoded(buffer[..]);
  }
}
