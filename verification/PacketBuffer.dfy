/** The frame header in a byte buffer, and the username check (common/protocole.c). */
module PacketBuffer {
  import opened Octets
  import opened Packet

  lemma Digits(n: nat, width: nat)
    ensures BigEndian(n, width + 1) == BigEndian(n / 256, width) + [n % 256]
  {
  }

  lemma FourDigits(n: nat)
    ensures BigEndian(n, 4) == [n / 0x100_0000 % 256, n / 0x1_0000 % 256, n / 0x100 % 256, n % 256]
  {
    hide BigEndian;
    var a := n / 256;
    var b := a / 256;
    var c := b / 256;
    Digits(n, 3);
    Digits(a, 2);
    Digits(b, 1);
    Digits(c, 0);
    NoDigits(c / 256);
    assert b == n / 0x1_0000 && c == n / 0x100_0000;
  }

  lemma NoDigits(n: nat)
    ensures BigEndian(n, 0) == []
  {
  }

  method WriteU32(out: array<byte>, at: nat, value: nat)
    requires at + 4 <= out.Length && value < 0x1_0000_0000
    modifies out
    ensures out[..] == old(out[..at]) + BigEndian(value, 4) + old(out[at + 4..])
    ensures ReadBigEndian(out[at..at + 4]) == value
  {
    out[at] := value / 0x100_0000 % 256;
    out[at + 1] := value / 0x1_0000 % 256;
    out[at + 2] := value / 0x100 % 256;
    out[at + 3] := value % 256;
    FourDigits(value);
    assert Capacity(4) == 0x1_0000_0000;
    BigEndianRoundTrip(value, 4);
    assert out[at..at + 4] == BigEndian(value, 4);
    assert out[..] == out[..at] + out[at..at + 4] + out[at + 4..];
  }

  /** Fills in a header that the decoder reads back, or reports why not and leaves the buffer alone. */
  method EncodeHeader(kind: byte, length: nat, out: array<byte>) returns (error: Option<Error>)
    requires out.Length == HEADER_SIZE && length < 0x1_0000_0000
    modifies out
    ensures error.None? <==> KindIsValid(kind) && length <= MAX_MESSAGE_SIZE
    ensures error.None? ==> Ok(out[..]) == Encode(kind, length) && Decode(out[..]) == Ok(Header(kind, length))
    ensures error.Some? ==> Encode(kind, length) == Err(error.value) && out[..] == old(out[..])
  {
    if !KindIsValid(kind) {
      return Some(BadType);
    }
    if length > MAX_MESSAGE_SIZE {
      return Some(TooLarge);
    }
    out[0] := VERSION;
    out[1] := kind;
    WriteU32(out, 2, length);
    error := None;
    assert out[2..6] == BigEndian(length, 4);
    assert out[..] == [VERSION, kind] + BigEndian(length, 4);
  }

  method CheckUsername(name: string) returns (ok: bool)
    ensures ok <==> UsernameIsValid(name)
  {
    if |name| < USERNAME_MIN || |name| > USERNAME_MAX {
      return false;
    }
    for i := 0 to |name|
      invariant forall j :: 0 <= j < i ==> NameChar(name[j])
    {
      if !NameChar(name[i]) {
        return false;
      }
    }
    ok := true;
  }
}
