/** Bytes, fixed-width keys, hexadecimal text and the option type shared by every module. */
module Octets {

  datatype Option<+T> = None | Some(value: T)

  type byte = b: int | 0 <= b < 256
  type Bytes = seq<byte>

  /** Ed25519 and X25519 keys, session keys and BLAKE2b digests are all 32 bytes wide. */
  type Key = k: Bytes | |k| == 32 witness seq(32, _ => 0)

  /** A detached Ed25519 signature. */
  type Signature = s: Bytes | |s| == 64 witness seq(64, _ => 0)

  /** A secretstream header. */
  type Nonce = n: Bytes | |n| == 24 witness seq(24, _ => 0)

  function Zeros(n: nat): (r: Bytes)
    ensures |r| == n && forall i :: 0 <= i < n ==> r[i] == 0
  {
    seq(n, _ => 0)
  }

  const ZERO_KEY: Key := Zeros(32)
  const ONE_KEY: Key := Zeros(31) + [1]
  const ZERO_NONCE: Nonce := Zeros(24)

  /** The bytes of a C string; a C `char` is one byte. */
  function Ascii(s: string): (r: Bytes)
    ensures |r| == |s|
  {
    seq(|s|, i requires 0 <= i < |s| => s[i] as int % 256)
  }

  /** A buffer read as a C string ends at its first NUL. */
  function CString(s: string): (r: string)
    ensures r <= s && '\0' !in r
    ensures r < s ==> s[|r|] == '\0'
  {
    if s == [] || s[0] == '\0' then [] else [s[0]] + CString(s[1..])
  }

  lemma CStringOfText(s: string)
    requires '\0' !in s
    ensures CString(s) == s
  {
  }

  // ---------------------------------------------------------------- hexadecimal

  function HexDigit(n: int): char
    requires 0 <= n < 16
  {
    if n < 10 then '0' + n as char else 'a' + (n - 10) as char
  }

  function HexValue(c: char): Option<int>
  {
    if '0' <= c <= '9' then Some(c as int - '0' as int)
    else if 'a' <= c <= 'f' then Some(c as int - 'a' as int + 10)
    else if 'A' <= c <= 'F' then Some(c as int - 'A' as int + 10)
    else None
  }

  function BinToHex(b: Bytes): (s: string)
    ensures |s| == 2 * |b|
    ensures forall i :: 0 <= i < |s| ==> '0' <= s[i] <= '9' || 'a' <= s[i] <= 'f'
  {
    if b == [] then [] else [HexDigit(b[0] / 16), HexDigit(b[0] % 16)] + BinToHex(b[1..])
  }

  /** Strict decoding: an odd length or a character that is not a digit is an error. */
  function HexToBin(s: string): (r: Option<Bytes>)
    ensures r.Some? ==> |s| == 2 * |r.value|
    decreases |s|
  {
    if s == [] then Some([])
    else if |s| == 1 then None
    else
      match (HexValue(s[0]), HexValue(s[1]), HexToBin(s[2..]))
      case (Some(h), Some(l), Some(rest)) => Some([16 * h + l] + rest)
      case _ => None
  }

  /** Decoding into a buffer that must be filled exactly. */
  function HexToKey(s: string): (r: Option<Key>)
    ensures r.Some? <==> HexToBin(s).Some? && |s| == 64
    ensures r.Some? ==> r.value == HexToBin(s).value
  {
    match HexToBin(s)
    case Some(b) => if |b| == 32 then Some(b) else None
    case None => None
  }

  lemma {:induction false} HexRoundTrip(b: Bytes)
    ensures HexToBin(BinToHex(b)) == Some(b)
  {
    if b != [] {
      HexRoundTrip(b[1..]);
      assert BinToHex(b)[2..] == BinToHex(b[1..]);
      assert 16 * (b[0] / 16) + b[0] % 16 == b[0];
      assert b == [b[0]] + b[1..];
    }
  }

  predicate IsHexDigit(c: char) { '0' <= c <= '9' || 'a' <= c <= 'f' || 'A' <= c <= 'F' }

  /** Digits are read in either case and written in lower case. */
  function LowerDigit(c: char): char { if 'A' <= c <= 'F' then 'a' + (c - 'A') else c }

  lemma DigitDecides(c: char)
    ensures HexValue(c).Some? <==> IsHexDigit(c)
    ensures HexValue(c).Some? ==> 0 <= HexValue(c).value < 16 && HexDigit(HexValue(c).value) == LowerDigit(c)
  {
  }

  /** Text is decoded exactly when it is pairs of digits, and to bytes that are written as that text in lower case. */
  lemma {:induction false} HexDecides(s: string)
    ensures HexToBin(s).Some? <==> |s| % 2 == 0 && forall i :: 0 <= i < |s| ==> IsHexDigit(s[i])
    ensures HexToBin(s).Some? ==> forall i :: 0 <= i < |s| ==> BinToHex(HexToBin(s).value)[i] == LowerDigit(s[i])
  {
    hide HexValue, HexDigit, LowerDigit, IsHexDigit;
    if |s| >= 2 {
      var rest := s[2..];
      HexDecides(rest);
      DigitDecides(s[0]);
      DigitDecides(s[1]);
      assert forall i :: 2 <= i < |s| ==> s[i] == rest[i - 2];
      assert forall j :: 0 <= j < |rest| ==> rest[j] == s[j + 2];
      if HexToBin(s).Some? {
        var b := HexToBin(s).value;
        var h, l := HexValue(s[0]).value, HexValue(s[1]).value;
        assert b == [16 * h + l] + HexToBin(rest).value;
        PairIsSplit(h, l);
        assert b[1..] == HexToBin(rest).value;
      }
    } else if |s| == 1 {
      assert HexToBin(s).None?;
    }
  }

  lemma PairIsSplit(h: int, l: int)
    requires 0 <= h < 16 && 0 <= l < 16
    ensures (16 * h + l) / 16 == h && (16 * h + l) % 16 == l
  {
  }
}
