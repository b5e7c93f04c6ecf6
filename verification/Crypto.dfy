/**
 The authenticated key exchange and the message streams (common/crypto.c).

 libsodium is a parameter: a record of functions over bytes. `Lawful` lists the laws that the library's
 documentation states and that the proofs use; nothing else is known about it.
 */
module Crypto {
  import opened Octets
  import Packet

  const SESSION_ID_MAX := 128
  const KX_MESSAGE_BYTES := 96
  const STREAM_ABYTES := 17
  const TAG_MESSAGE: byte := 0
  const TAG_FINAL: byte := 3

  datatype Result = Ok | ErrInvalid | ErrBuffer | ErrSodium | ErrVerify | ErrDecrypt | ErrTooLarge

  datatype Role = NoRole | Initiator | Responder

  function Opposite(role: Role): Role { if role == Initiator then Responder else Initiator }

  function RoleByte(role: Role): byte {
    match role case NoRole => 0 case Initiator => 1 case Responder => 2
  }

  datatype Identity = Identity(username: string, public: Key, secret: Key)

  datatype SessionKeys = SessionKeys(rx: Key, tx: Key)

  /** One secretstream message: its plaintext and its tag. */
  datatype Item = Item(text: Bytes, tag: byte)

  /** One direction of a secretstream. Its internal state is determined by the key, the header and all earlier
      messages. */
  datatype Stream = Stream(key: Key, header: Nonce, items: seq<Item>)

  datatype Sodium = Sodium(
    hash: Bytes -> Key,
    signPublic: Key -> Key,
    sign: (Bytes, Key) -> Signature,
    verify: (Signature, Bytes, Key) -> bool,
    kxPublic: Key -> Key,
    kxClient: (Key, Key, Key) -> Option<SessionKeys>,
    kxServer: (Key, Key, Key) -> Option<SessionKeys>,
    seal: (Stream, Item) -> Bytes,
    open: (Stream, Bytes) -> Option<Item>,
    base64Decode: string -> Option<string>)

  function Swap(keys: SessionKeys): SessionKeys { SessionKeys(keys.tx, keys.rx) }

  /** A signature made with a secret key verifies under its public key. */
  ghost predicate SignaturesVerify(sodium: Sodium) {
    forall message, secret :: sodium.verify(sodium.sign(message, secret), message, sodium.signPublic(secret))
  }

  /** Two honest key pairs derive the same keys with the directions exchanged. */
  ghost predicate ExchangeMirrors(sodium: Sodium) {
    forall a, b ::
      sodium.kxClient(sodium.kxPublic(a), a, sodium.kxPublic(b)).Some?
      && sodium.kxServer(sodium.kxPublic(b), b, sodium.kxPublic(a))
         == Some(Swap(sodium.kxClient(sodium.kxPublic(a), a, sodium.kxPublic(b)).value))
  }

  /** In a given state a ciphertext opens to a message exactly when it is that message sealed in that state. */
  ghost predicate StreamsInvert(sodium: Sodium) {
    && (forall stream, item ::
          |sodium.seal(stream, item)| == |item.text| + STREAM_ABYTES
          && sodium.open(stream, sodium.seal(stream, item)) == Some(item))
    && (forall stream, c :: sodium.open(stream, c).Some? ==> c == sodium.seal(stream, sodium.open(stream, c).value))
  }

  ghost predicate Lawful(sodium: Sodium) {
    SignaturesVerify(sodium) && ExchangeMirrors(sodium) && StreamsInvert(sodium)
  }

  // ---------------------------------------------------------------- transcript

  const DOMAIN: Bytes := Ascii("ProntoChat crypto-kx v1")

  /** What a signer hashes and signs. */
  function Transcript(role: Role, signer: Key, peer: Key, sessionId: Bytes, kx: Key): (r: Bytes)
    ensures |r| == |DOMAIN| + 105 + |sessionId|
  {
    DOMAIN + [RoleByte(role)] + signer + peer + Packet.BigEndian(|sessionId|, 8) + sessionId + kx
  }

  /** Equal transcripts agree on every field, so no signature is valid for two roles, peers, sessions or KX keys. */
  lemma TranscriptInjective(
      r1: Role, signer1: Key, peer1: Key, id1: Bytes, kx1: Key,
      r2: Role, signer2: Key, peer2: Key, id2: Bytes, kx2: Key)
    requires Transcript(r1, signer1, peer1, id1, kx1) == Transcript(r2, signer2, peer2, id2, kx2)
    ensures r1 == r2 && signer1 == signer2 && peer1 == peer2 && id1 == id2 && kx1 == kx2
  {
    var t1 := Transcript(r1, signer1, peer1, id1, kx1);
    var t2 := Transcript(r2, signer2, peer2, id2, kx2);
    var d := |DOMAIN|;
    assert t1[d] == RoleByte(r1) && t2[d] == RoleByte(r2);
    assert t1[d + 1..d + 33] == signer1 && t2[d + 1..d + 33] == signer2;
    assert t1[d + 33..d + 65] == peer1 && t2[d + 33..d + 65] == peer2;
    assert t1[d + 73..d + 73 + |id1|] == id1 && t2[d + 73..d + 73 + |id2|] == id2;
    assert t1[d + 73 + |id1|..] == kx1 && t2[d + 73 + |id2|..] == kx2;
  }

  // ---------------------------------------------------------------- handshake

  datatype Handshake = Handshake(
    role: Role, localPk: Key, remotePk: Key, kxPk: Key, kxSk: Key,
    sessionId: Bytes, initialized: bool, finished: bool)

  const WIPED_HANDSHAKE := Handshake(NoRole, ZERO_KEY, ZERO_KEY, ZERO_KEY, ZERO_KEY, [], false, false)
  const WIPED_KEYS := SessionKeys(ZERO_KEY, ZERO_KEY)

  predicate SessionIdFits(id: Bytes) { 0 < |id| <= SESSION_ID_MAX }

  /** The wire message of a handshake: the ephemeral public key and a signature over the transcript that names it. */
  function KxMessage(sodium: Sodium, id: Identity, remote: Key, role: Role, sessionId: Bytes, secret: Key): (m: Bytes)
    ensures |m| == KX_MESSAGE_BYTES
  {
    var kx := sodium.kxPublic(secret);
    kx + sodium.sign(sodium.hash(Transcript(role, id.public, remote, sessionId, kx)), id.secret)
  }

  /** `secret` is the fresh ephemeral key, or None when the library cannot make one. */
  function Init(
      sodium: Sodium, was: Handshake, id: Identity, remote: Key, role: Role,
      sessionId: Bytes, secret: Option<Key>, message: Bytes): (Result, Handshake, Bytes)
  {
    if role == NoRole || !SessionIdFits(sessionId) then (ErrInvalid, was, message)
    else if secret.None? then (ErrSodium, WIPED_HANDSHAKE, message)
    else
      (Ok,
       Handshake(role, id.public, remote, sodium.kxPublic(secret.value), secret.value, sessionId, true, false),
       KxMessage(sodium, id, remote, role, sessionId, secret.value))
  }

  function Derive(sodium: Sodium, role: Role, pk: Key, sk: Key, peer: Key): Option<SessionKeys> {
    if role == Initiator then sodium.kxClient(pk, sk, peer) else sodium.kxServer(pk, sk, peer)
  }

  /** The peer's signature, checked on the transcript that the peer should have signed. */
  predicate Verifies(sodium: Sodium, h: Handshake, message: Bytes)
    requires |message| == KX_MESSAGE_BYTES
  {
    sodium.verify(
      message[32..],
      sodium.hash(Transcript(Opposite(h.role), h.remotePk, h.localPk, h.sessionId, message[..32])),
      h.remotePk)
  }

  function Finish(sodium: Sodium, h: Handshake, message: Bytes, keys: SessionKeys): (Result, Handshake, SessionKeys)
    requires |message| == KX_MESSAGE_BYTES
  {
    if !h.initialized || h.finished then (ErrInvalid, h, keys)
    else if h.role == NoRole || !SessionIdFits(h.sessionId) then (ErrInvalid, h, keys)
    else if !Verifies(sodium, h, message) then (ErrVerify, h, keys)
    else
      match Derive(sodium, h.role, h.kxPk, h.kxSk, message[..32])
      case None => (ErrSodium, h.(kxSk := ZERO_KEY), WIPED_KEYS)
      case Some(derived) => (Ok, h.(finished := true, kxSk := ZERO_KEY), derived)
  }

  /** Whatever comes of it, a handshake that went as far as deriving keys has given up its ephemeral secret; a message
      that is refused leaves everything for the genuine one. */
  lemma FinishErases(sodium: Sodium, h: Handshake, message: Bytes, keys: SessionKeys)
    requires |message| == KX_MESSAGE_BYTES
    ensures
      var (result, t, derived) := Finish(sodium, h, message, keys);
      if result == Ok || result == ErrSodium then
        && h.initialized && !h.finished && Verifies(sodium, h, message)
        && t == h.(kxSk := ZERO_KEY, finished := t.finished)
        && (t.finished <==> result == Ok) && (result == ErrSodium ==> derived == WIPED_KEYS)
      else t == h && derived == keys
  {
    hide Verifies, Derive;
  }

  /** What finish recomputes is what the honest peer signed at init, so a genuine message is always accepted. */
  lemma GenuineMessageVerifies(sodium: Sodium, h: Handshake, peer: Identity, secret: Key)
    requires Lawful(sodium)
    requires peer.public == sodium.signPublic(peer.secret) && h.remotePk == peer.public
    requires h.role != NoRole
    ensures Verifies(sodium, h, KxMessage(sodium, peer, h.localPk, Opposite(h.role), h.sessionId, secret))
    ensures KxMessage(sodium, peer, h.localPk, Opposite(h.role), h.sessionId, secret)[..32] == sodium.kxPublic(secret)
  {
  }

  /** Opposite roles derive mirrored keys from the same two ephemeral key pairs. */
  lemma DerivedKeysMirror(sodium: Sodium, role: Role, mine: Key, theirs: Key)
    requires Lawful(sodium) && role != NoRole
    ensures
      var own := Derive(sodium, role, sodium.kxPublic(mine), mine, sodium.kxPublic(theirs));
      var other := Derive(sodium, Opposite(role), sodium.kxPublic(theirs), theirs, sodium.kxPublic(mine));
      own.Some? && other == Some(Swap(own.value))
  {
  }

  // ---------------------------------------------------------------- message streams

  datatype SecretStream = SecretStream(push: Stream, pull: Stream, pushOn: bool, pullOn: bool)

  const NO_STREAM := Stream(ZERO_KEY, ZERO_NONCE, [])
  const WIPED_STREAM := SecretStream(NO_STREAM, NO_STREAM, false, false)

  function InitPush(s: SecretStream, key: Key, header: Nonce): SecretStream {
    s.(push := Stream(key, header, []), pushOn := true)
  }

  function InitPull(s: SecretStream, key: Key, header: Nonce): SecretStream {
    s.(pull := Stream(key, header, []), pullOn := true)
  }

  function Advance(stream: Stream, item: Item): Stream { stream.(items := stream.items + [item]) }

  function Encrypt(sodium: Sodium, s: SecretStream, item: Item, capacity: nat): (Result, SecretStream, Bytes) {
    if !s.pushOn then (ErrInvalid, s, [])
    else if |item.text| > Packet.MAX_MESSAGE_SIZE then (ErrTooLarge, s, [])
    else if capacity < |item.text| + STREAM_ABYTES then (ErrBuffer, s, [])
    else (Ok, s.(push := Advance(s.push, item)), sodium.seal(s.push, item))
  }

  function Decrypt(sodium: Sodium, s: SecretStream, c: Bytes, capacity: nat): (Result, SecretStream, Item) {
    if !s.pullOn || |c| < STREAM_ABYTES then (ErrInvalid, s, Item([], 0))
    else if capacity < |c| - STREAM_ABYTES then (ErrBuffer, s, Item([], 0))
    else
      match sodium.open(s.pull, c)
      case None => (ErrDecrypt, s, Item([], 0))
      case Some(item) => (Ok, s.(pull := Advance(s.pull, item)), item)
  }
}
