/** Messages of the application, of which only the encoding matters. */
module Messages {
  import opened Header
  import opened Framing

  /** What encoding a prepared message comes to: it fails, or gives the payload. */
  datatype Message = Unencodable | Payload(bytes: seq<byte>)

  /** Encoded payloads are below 2^24 bytes. */
  predicate Encodable(m: Message) {
    m.Payload? ==> |m.bytes| < SIZE_LIMIT
  }

  /** The message can be encoded behind the header in a buffer of this size. */
  predicate Sendable(m: Message, room: nat) {
    m.Payload? && HEADER_SIZE + |m.bytes| <= room
  }

  function UserFrame(kind: byte, m: Message): Frame
    requires m.Payload?
  {
    Frame(kind, m.bytes)
  }

  /** The frames that a client gives to its application: the user messages from the server
      that can be decoded, in order. */
  function ToApplication(decodes: seq<byte> -> bool, fs: seq<Frame>): seq<Frame> {
    if fs == [] then []
    else
      var last := fs[|fs| - 1];
      ToApplication(decodes, fs[..|fs| - 1]) + if ForApplication(decodes, last) then [last] else []
  }

  predicate ForApplication(decodes: seq<byte> -> bool, f: Frame) {
    f.kind == SERVER_TO_CLIENT_USER && decodes(f.payload)
  }

  lemma ToApplicationSnoc(decodes: seq<byte> -> bool, fs: seq<Frame>, f: Frame)
    ensures ToApplication(decodes, fs + [f]) ==
            ToApplication(decodes, fs) + if ForApplication(decodes, f) then [f] else []
  {
    assert (fs + [f])[..|fs|] == fs;
  }

  lemma {:induction false} ToApplicationPrefix(decodes: seq<byte> -> bool, a: seq<Frame>, b: seq<Frame>)
    requires a <= b
    ensures ToApplication(decodes, a) <= ToApplication(decodes, b)
  {
    if a != b {
      assert a <= b[..|b| - 1];
      ToApplicationPrefix(decodes, a, b[..|b| - 1]);
    }
  }

  /** The user messages that cannot be decoded. */
  predicate Undecodable(decodes: seq<byte> -> bool, f: Frame) {
    f.kind == SERVER_TO_CLIENT_USER && !decodes(f.payload)
  }

  lemma EncodableSize(kind: byte, m: Message)
    requires Encodable(m)
    ensures m.Payload? ==> |m.bytes| < SIZE_LIMIT && |UserFrame(kind, m).payload| < SIZE_LIMIT
    ensures m.Payload? ==> UserFrame(kind, m).kind == kind
  {
  }

  /** Encodes the message behind a header of the given kind; -1 if that fails. */
  method EncodeInto(encoded: array<byte>, kind: byte, m: Message) returns (size: int)
    requires encoded.Length >= HEADER_SIZE
    modifies encoded
    ensures size >= 0 <==> Sendable(m, encoded.Length)
    ensures size >= 0 ==> m.Payload? && size <= encoded.Length && encoded[..size] == Encode(UserFrame(kind, m))
  {
    if m.Unencodable? || |m.bytes| > encoded.Length - HEADER_SIZE {
      return -1;
    }
    forall i | 0 <= i < |m.bytes| {
      encoded[HEADER_SIZE + i] := m.bytes[i];
    }
    assert encoded[HEADER_SIZE..HEADER_SIZE + |m.bytes|] == m.bytes;
    ghost var behind := encoded[HEADER_SIZE..];
    Create(encoded, kind, |m.bytes|);
    size := HEADER_SIZE + |m.bytes|;
    assert encoded[HEADER_SIZE..][..|m.bytes|] == encoded[HEADER_SIZE..size];
    assert behind[..|m.bytes|] == m.bytes;
    assert encoded[..size] == encoded[..HEADER_SIZE] + encoded[HEADER_SIZE..size];
  }
}
