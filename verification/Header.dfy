/** The four-byte frame header of lib/include/messi.h: one byte of type and a
    three-byte big-endian payload size. */
module Header {

  type byte = x: int | 0 <= x < 0x100

  const HEADER_SIZE: nat := 4
  const SIZE_LIMIT := 0x100_0000

  const CLIENT_TO_SERVER_USER: byte := 1
  const SERVER_TO_CLIENT_USER: byte := 2
  const PING: byte := 3
  const PONG: byte := 4

  lemma KindsDiffer()
    ensures CLIENT_TO_SERVER_USER != SERVER_TO_CLIENT_USER && PING != PONG
    ensures CLIENT_TO_SERVER_USER != PING && CLIENT_TO_SERVER_USER != PONG
    ensures SERVER_TO_CLIENT_USER != PING && SERVER_TO_CLIENT_USER != PONG
  {
  }

  /** The three size bytes. An unsigned right shift by 8k is a division by
      256^k, and storing into a uint8_t keeps the low eight bits. */
  function SizeBytes(size: nat): (b: seq<byte>)
    ensures |b| == 3
  {
    [(size / 0x1_0000) % 0x100, (size / 0x100) % 0x100, size % 0x100]
  }

  /** The announced payload size. The three shifted bytes occupy disjoint bits,
      so or-ing them together is adding them. */
  function GetSize(header: seq<byte>): (size: nat)
    requires |header| >= HEADER_SIZE
    ensures size < SIZE_LIMIT
  {
    (header[1] as int) * 0x1_0000 + (header[2] as int) * 0x100 + header[3]
  }

  /** Reading back a stored size gives it modulo 2^24: the size survives exactly
      when it is below 2^24. */
  lemma GetSizeOfSizeBytes(kind: byte, size: nat, tail: seq<byte>)
    ensures GetSize([kind] + SizeBytes(size) + tail) == size % SIZE_LIMIT
    ensures GetSize([kind] + SizeBytes(size) + tail) == size <==> size < SIZE_LIMIT
  {
    var h := [kind] + SizeBytes(size) + tail;
    assert h[1] == (size / 0x1_0000) % 0x100 && h[2] == (size / 0x100) % 0x100 && h[3] == size % 0x100;
    assert size / 0x1_0000 == (size / 0x100) / 0x100;
    assert size / SIZE_LIMIT == (size / 0x1_0000) / 0x100;
  }

  /** Stored sizes are canonical: no two headers announce the same size. */
  lemma SizeBytesOfGetSize(header: seq<byte>)
    requires |header| >= HEADER_SIZE
    ensures SizeBytes(GetSize(header)) == header[1..HEADER_SIZE]
  {
    var n := GetSize(header);
    assert n / 0x100 == (header[1] as int) * 0x100 + header[2];
    assert n / 0x1_0000 == header[1];
  }

  /** messi_header_set_size on a header at the start of a buffer. */
  method SetSize(header: array<byte>, size: nat)
    requires header.Length >= HEADER_SIZE
    modifies header
    ensures header[..HEADER_SIZE] == old(header[..1]) + SizeBytes(size)
    ensures header[HEADER_SIZE..] == old(header[HEADER_SIZE..])
  {
    header[1] := (size / 0x1_0000) % 0x100;
    header[2] := (size / 0x100) % 0x100;
    header[3] := size % 0x100;
  }

  /** messi_header_create. */
  method Create(header: array<byte>, kind: byte, size: nat)
    requires header.Length >= HEADER_SIZE
    modifies header
    ensures header[..HEADER_SIZE] == [kind] + SizeBytes(size)
    ensures header[HEADER_SIZE..] == old(header[HEADER_SIZE..])
  {
    header[0] := kind;
    SetSize(header, size);
  }
}
