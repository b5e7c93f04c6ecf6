/** The V1 frame: version, type, 32-bit big-endian length, payload (common/protocole.c). */
module Packet {
  import opened Octets

  const VERSION: byte := 1
  const HEADER_SIZE := 6
  const MAX_MESSAGE_SIZE := 64 * 1024
  const USERNAME_MIN := 3
  const USERNAME_MAX := 32

  const HANDSHAKE: byte := 1
  const STREAM_HEADER: byte := 2
  const MESSAGE: byte := 3
  const CLOSE: byte := 4
  const PING: byte := 5
  const PONG: byte := 6

  datatype Error = ShortBuffer | BadVersion | BadType | TooLarge | Truncated
  datatype Result<T> = Ok(value: T) | Err(error: Error)
  datatype Header = Header(kind: byte, length: nat)

  predicate KindIsValid(kind: byte) { HANDSHAKE <= kind <= PONG }

  /** Big-endian digits, the least significant byte last. */
  function BigEndian(n: nat, width: nat): (r: Bytes)
    ensures |r| == width
  {
    if width == 0 then [] else BigEndian(n / 256, width - 1) + [n % 256]
  }

  function ReadBigEndian(b: Bytes): (n: nat)
  {
    if b == [] then 0 else 256 * ReadBigEndian(b[..|b| - 1]) + b[|b| - 1]
  }

  function Capacity(width: nat): nat
  {
    if width == 0 then 1 else 256 * Capacity(width - 1)
  }

  lemma {:induction false} BigEndianRoundTrip(n: nat, width: nat)
    requires n < Capacity(width)
    ensures ReadBigEndian(BigEndian(n, width)) == n
  {
    if width > 0 {
      BigEndianRoundTrip(n / 256, width - 1);
      assert BigEndian(n, width)[..width - 1] == BigEndian(n / 256, width - 1);
    }
  }

  lemma {:induction false} ReadBigEndianRoundTrip(b: Bytes)
    ensures ReadBigEndian(b) < Capacity(|b|)
    ensures BigEndian(ReadBigEndian(b), |b|) == b
  {
    if b != [] {
      ReadBigEndianRoundTrip(b[..|b| - 1]);
      assert b == b[..|b| - 1] + [b[|b| - 1]];
    }
  }

  function Encode(kind: byte, length: nat): Result<Bytes>
  {
    if !KindIsValid(kind) then Err(BadType)
    else if length > MAX_MESSAGE_SIZE then Err(TooLarge)
    else Ok([VERSION, kind] + BigEndian(length, 4))
  }

  function Decode(buffer: Bytes): Result<Header>
  {
    if |buffer| < HEADER_SIZE then Err(ShortBuffer)
    else if buffer[0] != VERSION then Err(BadVersion)
    else if !KindIsValid(buffer[1]) then Err(BadType)
    else
      var length := ReadBigEndian(buffer[2..6]);
      if length > MAX_MESSAGE_SIZE then Err(TooLarge)
      else if |buffer| > HEADER_SIZE && |buffer| < HEADER_SIZE + length then Err(Truncated)
      else Ok(Header(buffer[1], length))
  }

  /** A whole datagram. */
  function Frame(kind: byte, payload: Bytes): (r: Bytes)
    ensures |r| == HEADER_SIZE + |payload|
    ensures r[HEADER_SIZE..] == payload
  {
    [VERSION, kind] + BigEndian(|payload|, 4) + payload
  }

  /** Decoding a frame gives back its type and payload. */
  lemma FrameRoundTrip(kind: byte, payload: Bytes)
    requires 1 <= kind <= 6 && |payload| <= MAX_MESSAGE_SIZE
    ensures Encode(kind, |payload|) == Ok(Frame(kind, payload)[..HEADER_SIZE])
    ensures Decode(Frame(kind, payload)) == Ok(Header(kind, |payload|))
  {
    var frame := Frame(kind, payload);
    assert frame[..HEADER_SIZE] == [VERSION, kind] + BigEndian(|payload|, 4);
    assert frame[2..6] == BigEndian(|payload|, 4);
    assert Capacity(4) == 0x1_0000_0000;
    BigEndianRoundTrip(|payload|, 4);
  }

  /** Every accepted datagram of the announced size is the frame of what was decoded: no two datagrams decode alike. */
  lemma DecodeIsCanonical(buffer: Bytes)
    requires Decode(buffer).Ok? && |buffer| == HEADER_SIZE + Decode(buffer).value.length
    ensures buffer == Frame(Decode(buffer).value.kind, buffer[HEADER_SIZE..])
  {
    ReadBigEndianRoundTrip(buffer[2..6]);
    assert buffer == [buffer[0], buffer[1]] + buffer[2..6] + buffer[6..];
  }

  /** What is decoded is exactly what can be encoded: a header that stands in front of nothing or of at least the
      payload that it announces. */
  lemma DecodeInvertsEncode(buffer: Bytes, kind: byte, length: nat)
    ensures
      Decode(buffer) == Ok(Header(kind, length)) <==>
        && Encode(kind, length).Ok? && Encode(kind, length).value <= buffer
        && (|buffer| == HEADER_SIZE || |buffer| >= HEADER_SIZE + length)
  {
    if Decode(buffer) == Ok(Header(kind, length)) {
      ReadBigEndianRoundTrip(buffer[2..6]);
      assert [VERSION, kind] + BigEndian(length, 4) == buffer[..6];
    } else if Encode(kind, length).Ok? && Encode(kind, length).value <= buffer {
      assert buffer[..6] == [VERSION, kind] + BigEndian(length, 4);
      assert buffer[0] == buffer[..6][0] && buffer[1] == buffer[..6][1] && buffer[2..6] == buffer[..6][2..];
      assert Capacity(4) == 0x1_0000_0000;
      BigEndianRoundTrip(length, 4);
    }
  }

  lemma FrameInjective(k1: byte, p1: Bytes, k2: byte, p2: Bytes)
    requires Frame(k1, p1) == Frame(k2, p2)
    ensures k1 == k2 && p1 == p2
  {
    assert Frame(k1, p1)[1] == k1 && Frame(k2, p2)[1] == k2;
    assert Frame(k1, p1)[HEADER_SIZE..] == Frame(k2, p2)[HEADER_SIZE..];
  }

  predicate NameChar(c: char) {
    '0' <= c <= '9' || 'a' <= c <= 'z' || 'A' <= c <= 'Z' || c == '_' || c == '-'
  }

  predicate UsernameIsValid(name: string) {
    USERNAME_MIN <= |name| <= USERNAME_MAX && forall i :: 0 <= i < |name| ==> NameChar(name[i])
  }
}
