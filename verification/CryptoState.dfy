/** Handshake and stream records in place, and a model of the laws (common/crypto.c). */
module CryptoState {
  import opened Crypto
  import opened Octets
  import Packet

  /** A value shifted right by `k` bytes. */
  function ShiftRight(value: nat, k: nat): nat { if k == 0 then value else ShiftRight(value, k - 1) / 256 }

  /** Writes the session id's length into the transcript, most significant byte first. */
  method WriteU64(out: array<byte>, value: nat)
    requires out.Length == 8 && value < Packet.Capacity(8)
    modifies out
    ensures out[..] == Packet.BigEndian(value, 8) && Packet.ReadBigEndian(out[..]) == value
  {
    for i := 0 to 8
      invariant out[..i] == Packet.BigEndian(ShiftRight(value, 8 - i), i)
    {
      out[i] := ShiftRight(value, 7 - i) % 256;
      assert out[..i + 1] == out[..i] + [out[i]];
    }
    assert out[..] == out[..8];
    Packet.BigEndianRoundTrip(value, 8);
  }

  /** The wire message: the ephemeral public key, then the signature. */
  method FillMessage(message: array<byte>, kx: Key, signature: Signature)
    requires message.Length == KX_MESSAGE_BYTES
    modifies message
    ensures message[..] == kx + signature
  {
    for i := 0 to 32
      invariant message[..i] == kx[..i]
    {
      message[i] := kx[i];
      assert message[..i + 1] == message[..i] + [kx[i]];
    }
    for i := 0 to 64
      invariant message[..32] == kx && message[32..32 + i] == signature[..i]
    {
      message[32 + i] := signature[i];
      assert message[32..32 + i + 1] == message[32..32 + i] + [signature[i]];
    }
    assert message[..] == message[..32] + message[32..96];
  }

  /** The handshake record that init fills and finish consumes. */
  class HandshakeState {
    var role: Role
    var localPk: Key
    var remotePk: Key
    var kxPk: Key
    var kxSk: Key
    var sessionId: Bytes
    var initialized: bool
    var finished: bool

    function Value(): Handshake
      reads this
    {
      Handshake(role, localPk, remotePk, kxPk, kxSk, sessionId, initialized, finished)
    }

    constructor ()
      ensures Value() == WIPED_HANDSHAKE
    {
      role, localPk, remotePk, kxPk, kxSk := NoRole, ZERO_KEY, ZERO_KEY, ZERO_KEY, ZERO_KEY;
      sessionId, initialized, finished := [], false, false;
    }

    method Wipe()
      modifies this
      ensures Value() == WIPED_HANDSHAKE
    {
      role, localPk, remotePk, kxPk, kxSk := NoRole, ZERO_KEY, ZERO_KEY, ZERO_KEY, ZERO_KEY;
      sessionId, initialized, finished := [], false, false;
    }

    method Begin(sodium: Sodium, id: Identity, remote: Key, asRole: Role, session: Bytes, secret: Option<Key>,
        message: array<byte>)
      returns (result: Result)
      requires message.Length == KX_MESSAGE_BYTES
      modifies this, message
      ensures (result, Value(), message[..]) == Init(sodium, old(Value()), id, remote, asRole, session, secret,
        old(message[..]))
    {
      if asRole == NoRole || !SessionIdFits(session) {
        return ErrInvalid;
      }
      Wipe();
      role, localPk, remotePk, sessionId := asRole, id.public, remote, session;
      if secret.None? {
        Wipe();
        return ErrSodium;
      }
      kxSk, kxPk := secret.value, sodium.kxPublic(secret.value);
      var digest := sodium.hash(Transcript(asRole, id.public, remote, session, kxPk));
      var signature := sodium.sign(digest, id.secret);
      FillMessage(message, kxPk, signature);
      initialized := true;
      result := Ok;
    }

    /** On success the ephemeral secret is gone and the keys are the derived ones; a refused message changes nothing. */
    method Complete(sodium: Sodium, message: Bytes, was: SessionKeys) returns (result: Result, keys: SessionKeys)
      requires |message| == KX_MESSAGE_BYTES
      modifies this
      ensures (result, Value(), keys) == Finish(sodium, old(Value()), message, was)
      ensures result == Ok ==> kxSk == ZERO_KEY && finished && Verifies(sodium, old(Value()), message)
      ensures result == ErrVerify || result == ErrInvalid ==> Value() == old(Value()) && keys == was
    {
      keys := was;
      if !initialized || finished || role == NoRole || !SessionIdFits(sessionId) {
        return ErrInvalid, keys;
      }
      var digest := sodium.hash(Transcript(Opposite(role), remotePk, localPk, sessionId, message[..32]));
      if !sodium.verify(message[32..], digest, remotePk) {
        return ErrVerify, keys;
      }
      var derived :=
        if role == Initiator then sodium.kxClient(kxPk, kxSk, message[..32])
          else sodium.kxServer(kxPk, kxSk, message[..32]);
      kxSk := ZERO_KEY;
      if derived.None? {
        return ErrSodium, WIPED_KEYS;
      }
      finished := true;
      return Ok, derived.value;
    }
  }

  /** The two directions of a session. */
  class StreamState {
    var push: Stream
    var pull: Stream
    var pushOn: bool
    var pullOn: bool

    function Value(): SecretStream
      reads this
    {
      SecretStream(push, pull, pushOn, pullOn)
    }

    constructor ()
      ensures Value() == WIPED_STREAM
    {
      push, pull, pushOn, pullOn := NO_STREAM, NO_STREAM, false, false;
    }

    method Wipe()
      modifies this
      ensures Value() == WIPED_STREAM
    {
      push, pull, pushOn, pullOn := NO_STREAM, NO_STREAM, false, false;
    }

    method StartPush(key: Key, header: Nonce)
      modifies this
      ensures Value() == InitPush(old(Value()), key, header)
    {
      push, pushOn := Stream(key, header, []), true;
    }

    method StartPull(key: Key, header: Nonce)
      modifies this
      ensures Value() == InitPull(old(Value()), key, header)
    {
      pull, pullOn := Stream(key, header, []), true;
    }

    method Seal(sodium: Sodium, item: Item, capacity: nat) returns (result: Result, c: Bytes)
      modifies this
      ensures (result, Value(), c) == Encrypt(sodium, old(Value()), item, capacity)
    {
      if !pushOn {
        return ErrInvalid, [];
      }
      if |item.text| > Packet.MAX_MESSAGE_SIZE {
        return ErrTooLarge, [];
      }
      if capacity < |item.text| + STREAM_ABYTES {
        return ErrBuffer, [];
      }
      c := sodium.seal(push, item);
      push := Advance(push, item);
      result := Ok;
    }

    /** A ciphertext that does not open leaves the stream where it was. */
    method Open(sodium: Sodium, c: Bytes, capacity: nat) returns (result: Result, item: Item)
      modifies this
      ensures (result, Value(), item) == Decrypt(sodium, old(Value()), c, capacity)
      ensures result != Ok ==> Value() == old(Value())
    {
      if !pullOn || |c| < STREAM_ABYTES {
        return ErrInvalid, Item([], 0);
      }
      if capacity < |c| - STREAM_ABYTES {
        return ErrBuffer, Item([], 0);
      }
      var opened' := sodium.open(pull, c);
      if opened'.None? {
        return ErrDecrypt, Item([], 0);
      }
      item := opened'.value;
      pull := Advance(pull, item);
      result := Ok;
    }
  }

  // ---------------------------------------------------------------- the laws are consistent

  function PadKey(k: Key): Signature { k + k }

  /** What the toy library puts behind a message and its tag: the number of the message in its stream. */
  function Trailer(stream: Stream): (t: Bytes)
    ensures |t| == 16
  {
    Packet.BigEndian(|stream.items|, 16)
  }

  /** A toy library that obeys every law and numbers its messages: the proofs assume nothing contradictory. */
  function Counting(): Sodium {
    Sodium(
      (m: Bytes) => ZERO_KEY,
      (k: Key) => k,
      (m: Bytes, k: Key) => PadKey(k),
      (s: Signature, m: Bytes, k: Key) => s == PadKey(k),
      (k: Key) => k,
      (pk: Key, sk: Key, peer: Key) => Some(SessionKeys(pk, peer)),
      (pk: Key, sk: Key, peer: Key) => Some(SessionKeys(pk, peer)),
      (s: Stream, i: Item) => i.text + [i.tag] + Trailer(s),
      (s: Stream, c: Bytes) =>
        if |c| >= 17 && c[|c| - 16..] == Trailer(s) then Some(Item(c[..|c| - 17], c[|c| - 17])) else None,
      (s: string) => None)
  }

  lemma LawsAreConsistent()
    ensures Lawful(Counting())
  {
    hide Trailer;
    var toy := Counting();
    forall stream: Stream, item: Item
      ensures |toy.seal(stream, item)| == |item.text| + STREAM_ABYTES
        && toy.open(stream, toy.seal(stream, item)) == Some(item)
    {
      var c := toy.seal(stream, item);
      assert c[..|item.text|] == item.text && c[|item.text|] == item.tag && c[|item.text| + 1..] == Trailer(stream);
    }
    forall stream: Stream, c: Bytes | toy.open(stream, c).Some?
      ensures c == toy.seal(stream, toy.open(stream, c).value)
    {
      assert c == c[..|c| - 17] + [c[|c| - 17]] + c[|c| - 16..];
    }
  }

  lemma TrailersDiffer(stream: Stream, other: Stream)
    requires |stream.items| < Packet.Capacity(16) && |other.items| < Packet.Capacity(16)
      && |stream.items| != |other.items|
    ensures Trailer(stream) != Trailer(other)
  {
    hide Packet.BigEndian, Packet.Capacity, Packet.ReadBigEndian;
    Packet.BigEndianRoundTrip(|stream.items|, 16);
    Packet.BigEndianRoundTrip(|other.items|, 16);
  }

  /** Below the capacity of the number, a message of the toy library opens only in its own place. */
  lemma OnlyItsPlaceOpens(stream: Stream, item: Item, other: Stream)
    requires |stream.items| < Packet.Capacity(16) && |other.items| < Packet.Capacity(16)
      && |stream.items| != |other.items|
    ensures Counting().open(other, Counting().seal(stream, item)).None?
  {
    TrailersDiffer(stream, other);
    hide Trailer, Packet.Capacity;
    var c := Counting().seal(stream, item);
    assert c[|c| - 16..] == Trailer(stream);
  }
}
