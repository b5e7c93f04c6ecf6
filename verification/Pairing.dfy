/**
 Two daemons over a network that loses, repeats and reorders the datagrams they send each other: key agreement,
 prefix delivery, complete close, and no spurious setup failure.
 */
module Pairing {
  import opened Octets
  import opened Daemon
  import opened Session
  import Crypto
  import Json
  import Packet

  // ---------------------------------------------------------------- what one side has sent

  /** The state of a push stream before its j-th message. */
  function StreamAt(h: History, j: nat): Crypto.Stream
    requires |h.pushes| == 1 && j <= |h.sealed|
  {
    Crypto.Stream(h.pushes[0].0, h.pushes[0].1, h.sealed[..j])
  }

  function KindOf(tag: byte): byte { if tag == Crypto.TAG_FINAL then Packet.CLOSE else Packet.MESSAGE }

  function Ciphertext(sodium: Crypto.Sodium, h: History, j: nat): Bytes
    requires |h.pushes| == 1 && j < |h.sealed|
  {
    sodium.seal(StreamAt(h, j), h.sealed[j])
  }

  ghost predicate IsHandshake(
      sodium: Crypto.Sodium, id: Crypto.Identity, peerPk: Key, role: Crypto.Role, sid: Bytes, h: History, d: Bytes)
  {
    |h.kxSecrets| == 1
    && d == Packet.Frame(Packet.HANDSHAKE, Crypto.KxMessage(sodium, id, peerPk, role, sid, h.kxSecrets[0]))
  }

  ghost predicate IsHeader(h: History, d: Bytes) {
    |h.pushes| == 1 && d == Packet.Frame(Packet.STREAM_HEADER, h.pushes[0].1)
  }

  ghost predicate IsChatAt(sodium: Crypto.Sodium, h: History, d: Bytes, j: nat) {
    |h.pushes| == 1 && j < |h.sealed| && |d| <= ICE_PACKET_MAX
    && d == Packet.Frame(KindOf(h.sealed[j].tag), Ciphertext(sodium, h, j))
  }

  ghost predicate IsChat(sodium: Crypto.Sodium, h: History, d: Bytes) { exists j: nat :: IsChatAt(sodium, h, d, j) }

  ghost predicate Genuine(
      sodium: Crypto.Sodium, id: Crypto.Identity, peerPk: Key, role: Crypto.Role, sid: Bytes, h: History, d: Bytes)
  {
    IsHandshake(sodium, id, peerPk, role, sid, h, d) || IsHeader(h, d) || IsChat(sodium, h, d)
  }

  ghost predicate WireFrom(
      sodium: Crypto.Sodium, id: Crypto.Identity, peerPk: Key, role: Crypto.Role, sid: Bytes, h: History)
  {
    forall d :: d in h.wire ==> Genuine(sodium, id, peerPk, role, sid, h, d)
  }

  /** Later history of the same session. */
  ghost predicate Grows(a: History, b: History) {
    && a.wire <= b.wire && a.kxSecrets <= b.kxSecrets && a.kxAccepted <= b.kxAccepted
    && a.pushes <= b.pushes && a.sealed <= b.sealed && a.accepted <= b.accepted
    && |b.kxSecrets| <= 1 && |b.pushes| <= 1
  }

  lemma GenuineGrows(
      sodium: Crypto.Sodium, id: Crypto.Identity, peerPk: Key, role: Crypto.Role, sid: Bytes, a: History,
      b: History, d: Bytes)
    requires Grows(a, b) && Genuine(sodium, id, peerPk, role, sid, a, d)
    ensures Genuine(sodium, id, peerPk, role, sid, b, d)
  {
    hide Packet.Frame, Crypto.KxMessage;
    if IsChat(sodium, a, d) {
      var j: nat :| IsChatAt(sodium, a, d, j);
      assert a.sealed[..j] == b.sealed[..j];
      assert IsChatAt(sodium, b, d, j);
    }
  }

  // ---------------------------------------------------------------- what one side has taken from the other

  /** The accepted key exchange is the peer's. */
  ghost predicate KxFrom(
      sodium: Crypto.Sodium, peer: Crypto.Identity, mine: Key, role: Crypto.Role, sid: Bytes,
      accepted: seq<Bytes>, secrets: seq<Key>)
  {
    |accepted| <= 1 &&
    (accepted != [] ==>
       && secrets != []
       && accepted[0] == Crypto.KxMessage(sodium, peer, mine, Crypto.Opposite(role), sid, secrets[0]))
  }

  /** The push key is the one derived from both sides' ephemeral keys. */
  ghost predicate PushFrom(
      sodium: Crypto.Sodium, role: Crypto.Role, pushes: seq<(Key, Nonce)>, mine: seq<Key>, theirs: seq<Key>)
  {
    pushes != [] ==> mine != [] && theirs != [] && Some(pushes[0].0) == TxKey(sodium, role, mine[0], theirs[0])
  }

  function TxKey(sodium: Crypto.Sodium, role: Crypto.Role, mine: Key, theirs: Key): Option<Key> {
    match Crypto.Derive(sodium, role, sodium.kxPublic(mine), mine, sodium.kxPublic(theirs))
    case None => None
    case Some(keys) => Some(keys.tx)
  }

  ghost predicate QueueFrom(queue: seq<Bytes>, wire: seq<Bytes>) { forall d :: d in queue ==> d in wire }

  ghost predicate HeaderFrom(received: bool, header: Nonce, pushes: seq<(Key, Nonce)>) {
    received ==> pushes != [] && header == pushes[0].1
  }

  /** The session is aimed at the peer, in a fixed role and for a fixed session id. */
  ghost predicate Aimed(c: Chat, peer: Crypto.Identity, role: Crypto.Role, sid: Bytes) {
    && c.role == role && c.remotePk == peer.public
    && (if c.handshakeSent then c.hs.sessionId == sid else Ascii(c.sessionId) == sid)
  }

  /** What one side's records say about the other's, in or after the session. */
  ghost predicate Past(
      sodium: Crypto.Sodium, id: Crypto.Identity, peer: Crypto.Identity, role: Crypto.Role, sid: Bytes,
      h: History, ph: History)
  {
    && |h.kxSecrets| <= 1 && |h.pushes| <= 1
    && WireFrom(sodium, id, peer.public, role, sid, h)
    && KxFrom(sodium, peer, id.public, role, sid, h.kxAccepted, ph.kxSecrets)
    && PushFrom(sodium, role, h.pushes, h.kxSecrets, ph.kxSecrets)
    && h.accepted <= ph.sealed
  }

  ghost predicate Present(
      sodium: Crypto.Sodium, me: State, peer: Crypto.Identity, role: Crypto.Role, sid: Bytes, ph: History)
  {
    me.chat.active ==>
      && Aimed(me.chat, peer, role, sid)
      && QueueFrom(me.chat.ice.queue, ph.wire)
      && HeaderFrom(me.chat.headerReceived, me.chat.stream.pull.header, ph.pushes)
  }

  /** One side of a pair. */
  ghost predicate Side(
      sodium: Crypto.Sodium, me: State, peer: Crypto.Identity, role: Crypto.Role, sid: Bytes, ph: History)
  {
    Past(sodium, me.id, peer, role, sid, me.history, ph) && Present(sodium, me, peer, role, sid, ph)
  }

  /** The peer's progress never invalidates what a side has taken from it. */
  lemma SideIsStable(
      sodium: Crypto.Sodium, me: State, peer: Crypto.Identity, role: Crypto.Role, sid: Bytes, ph: History, ph': History)
    requires Side(sodium, me, peer, role, sid, ph) && Grows(ph, ph')
    ensures Side(sodium, me, peer, role, sid, ph')
  {
  }

  // ---------------------------------------------------------------- sending

  lemma WireFromAppend(
      sodium: Crypto.Sodium, id: Crypto.Identity, peerPk: Key, role: Crypto.Role, sid: Bytes, a: History,
      b: History, d: Bytes)
    requires WireFrom(sodium, id, peerPk, role, sid, a) && Grows(a, b)
    requires b.wire == a.wire || b.wire == a.wire + [d]
    requires b.wire == a.wire || Genuine(sodium, id, peerPk, role, sid, b, d)
    ensures WireFrom(sodium, id, peerPk, role, sid, b)
  {
    hide Genuine;
    forall x | x in b.wire
      ensures Genuine(sodium, id, peerPk, role, sid, b, x)
    {
      if x in a.wire {
        GenuineGrows(sodium, id, peerPk, role, sid, a, b, x);
      }
    }
  }

  /** Everything a handshake round changes. */
  lemma StartEffect(sodium: Crypto.Sodium, s: State, env: Env)
    ensures
      var (t, o) := StartHandshake(sodium, s, env);
      && t.id == s.id && t.chat.active == s.chat.active
      && t.history == s.history.(wire := t.history.wire, kxSecrets := t.history.kxSecrets)
      && t.chat.role == s.chat.role && t.chat.remotePk == s.chat.remotePk && t.chat.ice == s.chat.ice
      && t.chat.headerReceived == s.chat.headerReceived && t.chat.stream == s.chat.stream
      && (s.chat.handshakeSent ==> t.chat.hs == s.chat.hs && t.history.kxSecrets == s.history.kxSecrets)
      && (!s.chat.handshakeSent && o == Done ==> t.chat.hs.sessionId == Ascii(s.chat.sessionId))
      && (o == Done ==>
            && t.chat.handshakeSent
            && t.history.wire == s.history.wire + [Packet.Frame(Packet.HANDSHAKE, t.chat.localMessage)])
      && (o != Done ==> t.history.wire == s.history.wire)
      && (t.history.kxSecrets == s.history.kxSecrets || exists k :: t.history.kxSecrets == s.history.kxSecrets + [k])
  {
    hide ResendHandshake, InitHandshake, Ascii, Packet.Frame;
    var e := Enter(s, CryptoHandshake);
    if s.chat.handshakeSent {
      ResendEffect(e, env);
    } else {
      InitEffect(sodium, e, env);
      var (made, ok) := InitHandshake(sodium, e, env);
      if ok {
        ResendEffect(made, env);
      }
    }
  }

  lemma InitEffect(sodium: Crypto.Sodium, s: State, env: Env)
    ensures
      var (t, ok) := InitHandshake(sodium, s, env);
      && t.id == s.id && t.chat.active == s.chat.active
      && t.history == s.history.(kxSecrets := t.history.kxSecrets)
      && t.chat.role == s.chat.role && t.chat.remotePk == s.chat.remotePk && t.chat.ice == s.chat.ice
      && t.chat.headerReceived == s.chat.headerReceived && t.chat.stream == s.chat.stream
      && (ok ==> t.chat.hs.sessionId == Ascii(s.chat.sessionId))
      && (t.history.kxSecrets == s.history.kxSecrets || exists k :: t.history.kxSecrets == s.history.kxSecrets + [k])
  {
    var sid := Ascii(s.chat.sessionId);
    var made := Crypto.Init(
      sodium, s.chat.hs, s.id, s.chat.remotePk, s.chat.role, sid, env.kxSecret, s.chat.localMessage);
    if made.0 == Crypto.Ok {
      assert made.1.sessionId == sid;
      hide Crypto.Init, Ascii;
      var (t, ok) := InitHandshake(sodium, s, env);
      assert t.history.kxSecrets == s.history.kxSecrets + [env.kxSecret.value];
    } else {
      hide Crypto.Init, Ascii;
    }
  }

  lemma ResendEffect(s: State, env: Env)
    ensures
      var (t, o) := ResendHandshake(s, env);
      && t.id == s.id && t.chat.active == s.chat.active
      && t.history == s.history.(wire := t.history.wire)
      && t.chat.role == s.chat.role && t.chat.remotePk == s.chat.remotePk && t.chat.ice == s.chat.ice
      && t.chat.headerReceived == s.chat.headerReceived && t.chat.stream == s.chat.stream && t.chat.hs == s.chat.hs
      && t.chat.localMessage == s.chat.localMessage
      && t.history.wire == (if o == Done then s.history.wire
          + [Packet.Frame(Packet.HANDSHAKE, s.chat.localMessage)] else s.history.wire)
      && (o == Done ==> t.chat.handshakeSent)
  {
    hide Packet.Frame, Packet.Encode;
  }

  lemma HandshakeSide(
      sodium: Crypto.Sodium, s: State, peer: Crypto.Identity, role: Crypto.Role, sid: Bytes, ph: History, env: Env)
    requires Live(sodium, s) && NeverRekeys(s.history) && s.chat.cliNotified && Side(sodium, s, peer, role, sid, ph)
    ensures
      var (t, o) := StartHandshake(sodium, s, env);
      && Past(sodium, t.id, peer, role, sid, t.history, ph) && Grows(s.history, t.history)
      && (o == Done ==> Present(sodium, t, peer, role, sid, ph))
  {
    hide StartHandshake, Live, Packet.Frame, Crypto.KxMessage, Ascii, TxKey, SameBytes;
    StartIsLive(sodium, s, env);
    StartEffect(sodium, s, env);
    var (t, o) := StartHandshake(sodium, s, env);
    assert Grows(s.history, t.history) by { hide Side; }
    var d := Packet.Frame(Packet.HANDSHAKE, t.chat.localMessage);
    if o == Done {
      LiveFacts(sodium, s);
      LiveHandshake(sodium, t);
      assert IsHandshake(sodium, t.id, peer.public, role, sid, t.history, d) by { hide Past, QueueFrom, HeaderFrom; }
    }
    hide NeverRekeys, WireFrom, QueueFrom, HeaderFrom;
    WireFromAppend(sodium, t.id, peer.public, role, sid, s.history, t.history, d);
  }

  /** A session whose handshake has gone out keeps the message it sent. */
  lemma LiveHandshake(sodium: Crypto.Sodium, s: State)
    requires Live(sodium, s) && s.chat.handshakeSent
    ensures
      && |s.history.kxSecrets| == 1
      && s.chat.localMessage == Crypto.KxMessage(sodium, s.id, s.chat.remotePk, s.chat.role, s.chat.hs.sessionId,
          s.history.kxSecrets[0])
  {
  }

  // ---------------------------------------------------------------- receiving

  /** No ciphertext of the session opens anywhere but in its own place. libsodium's authentication makes the opposite
      infeasible; it cannot be a law, because ciphertexts are shorter than states. */
  ghost predicate Unambiguous(sodium: Crypto.Sodium, h: History) {
    |h.pushes| == 1 ==>
      forall i: nat, j: nat :: i < |h.sealed| && j <= |h.sealed| && i != j ==>
        sodium.open(StreamAt(h, j), Ciphertext(sodium, h, i)).None?
  }

  /** What a side relies on about the other's records. */
  ghost predicate Reliable(
      sodium: Crypto.Sodium, id: Crypto.Identity, peer: Crypto.Identity, role: Crypto.Role, sid: Bytes,
      h: History, ph: History)
  {
    && role != Crypto.NoRole && Crypto.SessionIdFits(sid)
    && |ph.kxSecrets| <= 1 && |ph.pushes| <= 1
    && peer.public == sodium.signPublic(peer.secret)
    && WireFrom(sodium, peer, id.public, Crypto.Opposite(role), sid, ph)
    && PushFrom(sodium, Crypto.Opposite(role), ph.pushes, ph.kxSecrets, h.kxSecrets)
    && Unambiguous(sodium, ph)
  }

  lemma HandleFrame(sodium: Crypto.Sodium, s: State, kind: byte, payload: Bytes, arrives: bool)
    requires Packet.HANDSHAKE <= kind <= Packet.CLOSE && |payload| <= Packet.MAX_MESSAGE_SIZE
    ensures
      HandlePacket(sodium, s, Packet.Frame(kind, payload), arrives)
      == if kind == Packet.HANDSHAKE then HandleHandshake(sodium, s, payload)
         else if kind == Packet.STREAM_HEADER then HandleHeader(s, payload)
         else if s.session != Secure || !s.chat.ready || |payload| < Crypto.STREAM_ABYTES then (s, false)
         else OpenPayload(sodium, s, kind, payload, arrives)
  {
    Packet.FrameRoundTrip(kind, payload);
    hide Packet.Decode, HandleHandshake, HandleHeader, OpenPayload;
  }

  /** What one received datagram does to a side: its records grow in step with the peer's. */
  ghost predicate Taken(
      sodium: Crypto.Sodium, s: State, peer: Crypto.Identity, role: Crypto.Role, sid: Bytes, ph: History, t: State,
      ok: bool)
  {
    && t.id == s.id && Past(sodium, t.id, peer, role, sid, t.history, ph) && Grows(s.history, t.history)
    && (ok ==> Present(sodium, t, peer, role, sid, ph))
  }

  lemma Untouched(
      sodium: Crypto.Sodium, s: State, peer: Crypto.Identity, role: Crypto.Role, sid: Bytes, ph: History, ok: bool)
    requires Side(sodium, s, peer, role, sid, ph)
    ensures Taken(sodium, s, peer, role, sid, ph, s, ok)
  {
  }

  lemma PastFacts(
      sodium: Crypto.Sodium, id: Crypto.Identity, peer: Crypto.Identity, role: Crypto.Role, sid: Bytes, h: History,
      ph: History)
    requires Past(sodium, id, peer, role, sid, h, ph)
    ensures |h.kxSecrets| <= 1 && |h.pushes| <= 1 && h.accepted <= ph.sealed
  {
  }

  lemma TakeHandshake(
      sodium: Crypto.Sodium, s: State, peer: Crypto.Identity, role: Crypto.Role, sid: Bytes, ph: History,
      payload: Bytes)
    requires Live(sodium, s) && Side(sodium, s, peer, role, sid, ph) && |ph.kxSecrets| == 1
    requires payload == Crypto.KxMessage(sodium, peer, s.id.public, Crypto.Opposite(role), sid, ph.kxSecrets[0])
    ensures var (t, ok) := HandleHandshake(sodium, s, payload); Taken(sodium, s, peer, role, sid, ph, t, ok)
  {
    Untouched(sodium, s, peer, role, sid, ph, true);
    Untouched(sodium, s, peer, role, sid, ph, false);
    if !s.chat.keysReady {
      TakeFinish(sodium, s, peer, role, sid, ph, payload);
    }
    hide Live, Side, Taken, FinishHandshake, Crypto.KxMessage;
  }

  lemma TakeFinish(
      sodium: Crypto.Sodium, s: State, peer: Crypto.Identity, role: Crypto.Role, sid: Bytes, ph: History,
      payload: Bytes)
    requires Live(sodium, s) && Side(sodium, s, peer, role, sid, ph) && |ph.kxSecrets| == 1 && !s.chat.keysReady
    requires payload == Crypto.KxMessage(sodium, peer, s.id.public, Crypto.Opposite(role), sid, ph.kxSecrets[0])
    ensures var (t, ok) := FinishHandshake(sodium, s, payload); Taken(sodium, s, peer, role, sid, ph, t, ok)
  {
  }

  lemma TakeHeader(
      sodium: Crypto.Sodium, s: State, peer: Crypto.Identity, role: Crypto.Role, sid: Bytes, ph: History)
    requires Live(sodium, s) && Side(sodium, s, peer, role, sid, ph) && |ph.pushes| == 1
    ensures var (t, ok) := HandleHeader(s, ph.pushes[0].1); Taken(sodium, s, peer, role, sid, ph, t, ok)
  {
  }

  /** The two sides' keys mirror each other: what one receives with is what the other pushes with. */
  lemma ReceiveKeyIsPushKey(
      sodium: Crypto.Sodium, s: State, peer: Crypto.Identity, role: Crypto.Role, sid: Bytes, ph: History)
    requires Crypto.Lawful(sodium) && Live(sodium, s) && Side(sodium, s, peer, role, sid, ph)
    requires Reliable(sodium, s.id, peer, role, sid, s.history, ph)
    requires s.chat.active && s.chat.keysReady && ph.pushes != []
    ensures s.chat.keys.rx == ph.pushes[0].0
  {
  }

  /** A ready side's pull state is the peer's push state after the messages accepted so far. */
  lemma PullIsPushPrefix(
      sodium: Crypto.Sodium, s: State, peer: Crypto.Identity, role: Crypto.Role, sid: Bytes, ph: History)
    requires Crypto.Lawful(sodium) && Live(sodium, s) && Side(sodium, s, peer, role, sid, ph)
    requires Reliable(sodium, s.id, peer, role, sid, s.history, ph) && s.chat.headerReceived
    ensures |ph.pushes| == 1 && |s.history.accepted| <= |ph.sealed|
    ensures s.chat.stream.pullOn && s.chat.stream.pull == StreamAt(ph, |s.history.accepted|)
    ensures s.history.accepted == ph.sealed[..|s.history.accepted|]
  {
  }

  /** A genuine ciphertext is accepted exactly when it is the next one, and then as the message that was sealed. */
  lemma OnlyNextOpens(
      sodium: Crypto.Sodium, s: State, peer: Crypto.Identity, role: Crypto.Role, sid: Bytes, ph: History, j: nat)
    requires Crypto.Lawful(sodium) && Live(sodium, s) && Side(sodium, s, peer, role, sid, ph)
    requires Reliable(sodium, s.id, peer, role, sid, s.history, ph) && s.chat.headerReceived
    requires |ph.pushes| == 1 && j < |ph.sealed|
    ensures
      sodium.open(s.chat.stream.pull, Ciphertext(sodium, ph, j))
      == if j == |s.history.accepted| then Some(ph.sealed[j]) else None
  {
    PullIsPushPrefix(sodium, s, peer, role, sid, ph);
    var n := |s.history.accepted|;
    assert Unambiguous(sodium, ph);
    if j == n {
      assert sodium.open(StreamAt(ph, j), sodium.seal(StreamAt(ph, j), ph.sealed[j])) == Some(ph.sealed[j]);
    }
    hide Live, Side, Reliable;
  }

  lemma TakeChat(
      sodium: Crypto.Sodium, s: State, peer: Crypto.Identity, role: Crypto.Role, sid: Bytes, ph: History,
      kind: byte, j: nat, arrives: bool)
    requires Crypto.Lawful(sodium) && Live(sodium, s) && Side(sodium, s, peer, role, sid, ph)
    requires Reliable(sodium, s.id, peer, role, sid, s.history, ph) && s.chat.headerReceived
    requires |ph.pushes| == 1 && j < |ph.sealed|
    ensures
      var (t, ok) := OpenPayload(sodium, s, kind, Ciphertext(sodium, ph, j), arrives);
      Taken(sodium, s, peer, role, sid, ph, t, ok)
  {
    var c := Ciphertext(sodium, ph, j);
    OnlyNextOpens(sodium, s, peer, role, sid, ph, j);
    Untouched(sodium, s, peer, role, sid, ph, false);
    PastFacts(sodium, s.id, peer, role, sid, s.history, ph);
    var r := Crypto.Decrypt(sodium, s.chat.stream, c, Packet.MAX_MESSAGE_SIZE);
    if r.0 == Crypto.Ok {
      var item := r.2;
      assert j == |s.history.accepted| && item == ph.sealed[j]
        && r.1 == s.chat.stream.(pull := Crypto.Advance(s.chat.stream.pull, item)) by {
        hide Crypto.Lawful, Live, Side, Reliable, Taken, Past, Ciphertext;
      }
      var o := s.(chat := s.chat.(stream := r.1), history := s.history.(accepted := s.history.accepted + [item]));
      AcceptNext(sodium, s, peer, role, sid, ph, o, item);
      OpenOutcome(sodium, s, kind, c, arrives);
      OutcomeIsTaken(sodium, s, o, peer, role, sid, ph, OpenPayload(sodium, s, kind, c, arrives).0,
        OpenPayload(sodium, s, kind, c, arrives).1);
    }
    hide Crypto.Lawful, Live, Side, Reliable, Taken, Past, Present, Crypto.Decrypt, Ciphertext;
  }

  /** The next message extends both records alike. */
  lemma AcceptNext(
      sodium: Crypto.Sodium, s: State, peer: Crypto.Identity, role: Crypto.Role, sid: Bytes, ph: History, o: State,
      item: Crypto.Item)
    requires Side(sodium, s, peer, role, sid, ph)
    requires |s.history.accepted| < |ph.sealed| && item == ph.sealed[|s.history.accepted|]
    requires o == s.(chat := s.chat.(stream := o.chat.stream),
      history := s.history.(accepted := s.history.accepted + [item]))
    requires o.chat.stream.pull.header == s.chat.stream.pull.header
    ensures Side(sodium, o, peer, role, sid, ph) && Grows(s.history, o.history)
  {
    WireFromAppend(sodium, s.id, peer.public, role, sid, s.history, o.history, []);
    hide WireFrom, KxFrom, PushFrom, QueueFrom, HeaderFrom, Aimed;
  }

  /** After a successful decryption: the session continues with the advanced stream, or it is wiped. */
  lemma OpenOutcome(sodium: Crypto.Sodium, s: State, kind: byte, c: Bytes, arrives: bool)
    requires Crypto.Decrypt(sodium, s.chat.stream, c, Packet.MAX_MESSAGE_SIZE).0 == Crypto.Ok
    ensures
      var r := Crypto.Decrypt(sodium, s.chat.stream, c, Packet.MAX_MESSAGE_SIZE);
      var o := s.(chat := s.chat.(stream := r.1), history := s.history.(accepted := s.history.accepted + [r.2]));
      var (t, ok) := OpenPayload(sodium, s, kind, c, arrives);
      t.id == s.id && t.history == o.history && (t.chat == o.chat || !t.chat.active)
  {
    var r := Crypto.Decrypt(sodium, s.chat.stream, c, Packet.MAX_MESSAGE_SIZE);
    hide Crypto.Decrypt, OneLine;
    if kind == Packet.MESSAGE && r.2.tag == Crypto.TAG_MESSAGE {
    } else if kind == Packet.CLOSE && r.2.tag == Crypto.TAG_FINAL {
    } else {
    }
  }

  lemma OutcomeIsTaken(
      sodium: Crypto.Sodium, s: State, o: State, peer: Crypto.Identity, role: Crypto.Role, sid: Bytes, ph: History,
      t: State, ok: bool)
    requires Side(sodium, o, peer, role, sid, ph) && Grows(s.history, o.history)
    requires s.id == o.id == t.id && t.history == o.history && (t.chat == o.chat || !t.chat.active)
    ensures Taken(sodium, s, peer, role, sid, ph, t, ok)
  {
  }

  /** Any datagram that the peer sent, in whatever order and however often it arrives. */
  lemma TakePacket(
      sodium: Crypto.Sodium, s: State, peer: Crypto.Identity, role: Crypto.Role, sid: Bytes, ph: History, d: Bytes,
      arrives: bool)
    requires Crypto.Lawful(sodium) && Live(sodium, s) && Side(sodium, s, peer, role, sid, ph)
    requires Reliable(sodium, s.id, peer, role, sid, s.history, ph) && d in ph.wire
    ensures var (t, ok) := HandlePacket(sodium, s, d, arrives); Taken(sodium, s, peer, role, sid, ph, t, ok)
  {
    assert Genuine(sodium, peer, s.id.public, Crypto.Opposite(role), sid, ph, d) by {
      hide Crypto.Lawful, Live, Side, Genuine, Unambiguous, PushFrom;
    }
    Untouched(sodium, s, peer, role, sid, ph, false);
    hide Taken, HandlePacket, HandleHandshake, HandleHeader, OpenPayload, Packet.Frame;
    if IsHandshake(sodium, peer, s.id.public, Crypto.Opposite(role), sid, ph, d) {
      hide Live, Side, Reliable, Crypto.Lawful;
      var m := Crypto.KxMessage(sodium, peer, s.id.public, Crypto.Opposite(role), sid, ph.kxSecrets[0]);
      HandleFrame(sodium, s, Packet.HANDSHAKE, m, arrives);
      TakeHandshake(sodium, s, peer, role, sid, ph, m);
    } else if IsHeader(ph, d) {
      hide Live, Side, Reliable, Crypto.Lawful;
      HandleFrame(sodium, s, Packet.STREAM_HEADER, ph.pushes[0].1, arrives);
      TakeHeader(sodium, s, peer, role, sid, ph);
    } else {
      var j: nat :| IsChatAt(sodium, ph, d, j);
      TakeChatPacket(sodium, s, peer, role, sid, ph, d, j, arrives);
    }
  }

  lemma TakeChatPacket(
      sodium: Crypto.Sodium, s: State, peer: Crypto.Identity, role: Crypto.Role, sid: Bytes, ph: History, d: Bytes,
      j: nat, arrives: bool)
    requires Crypto.Lawful(sodium) && Live(sodium, s) && Side(sodium, s, peer, role, sid, ph)
    requires Reliable(sodium, s.id, peer, role, sid, s.history, ph) && IsChatAt(sodium, ph, d, j)
    ensures var (t, ok) := HandlePacket(sodium, s, d, arrives); Taken(sodium, s, peer, role, sid, ph, t, ok)
  {
    var kind, c := KindOf(ph.sealed[j].tag), Ciphertext(sodium, ph, j);
    assert |c| <= Packet.MAX_MESSAGE_SIZE by { hide Crypto.Lawful, Live, Side, Reliable; }
    HandleFrame(sodium, s, kind, c, arrives);
    Untouched(sodium, s, peer, role, sid, ph, false);
    assert s.chat.ready ==> s.chat.headerReceived by { hide Crypto.Lawful, Side, Reliable; }
    if s.chat.headerReceived {
      TakeChat(sodium, s, peer, role, sid, ph, kind, j, arrives);
    }
    hide Live, Side, Reliable, Crypto.Lawful, Taken, HandlePacket, HandleHandshake, HandleHeader, OpenPayload,
      Packet.Frame, Ciphertext;
  }

  lemma ProcessSide(
      sodium: Crypto.Sodium, s: State, peer: Crypto.Identity, role: Crypto.Role, sid: Bytes, ph: History, arrives: bool)
    requires Crypto.Lawful(sodium) && Live(sodium, s) && Side(sodium, s, peer, role, sid, ph)
    requires Reliable(sodium, s.id, peer, role, sid, s.history, ph)
    ensures var (t, ok) := Process(sodium, s, arrives); Taken(sodium, s, peer, role, sid, ph, t, ok)
  {
    hide Live, Side, Reliable, Crypto.Lawful, Taken, HandlePacket;
    Untouched(sodium, s, peer, role, sid, ph, true);
    Untouched(sodium, s, peer, role, sid, ph, false);
    if s.chat.ice.queue != [] {
      var p, d := Pop(s), s.chat.ice.queue[0];
      PopIsLive(sodium, s);
      PopSide(sodium, s, peer, role, sid, ph);
      Untouched(sodium, p, peer, role, sid, ph, true);
      LiveFacts(sodium, s);
      HeadIsSent(sodium, s, peer, role, sid, ph);
      TakePacket(sodium, p, peer, role, sid, ph, d, arrives);
      TakenFrom(sodium, p, s, peer, role, sid, ph, p, true);
      TakenFrom(sodium, p, s, peer, role, sid, ph, HandlePacket(sodium, p, d, arrives).0,
        HandlePacket(sodium, p, d, arrives).1);
    }
  }

  lemma HeadIsSent(sodium: Crypto.Sodium, s: State, peer: Crypto.Identity, role: Crypto.Role, sid: Bytes, ph: History)
    requires Side(sodium, s, peer, role, sid, ph) && s.chat.active && s.chat.ice.queue != []
    ensures s.chat.ice.queue[0] in ph.wire
  {
  }

  lemma TakenFrom(
      sodium: Crypto.Sodium, p: State, s: State, peer: Crypto.Identity, role: Crypto.Role, sid: Bytes, ph: History,
      t: State, ok: bool)
    requires Taken(sodium, p, peer, role, sid, ph, t, ok) && p.history == s.history && p.id == s.id
    ensures Taken(sodium, s, peer, role, sid, ph, t, ok)
  {
  }

  lemma PopSide(sodium: Crypto.Sodium, s: State, peer: Crypto.Identity, role: Crypto.Role, sid: Bytes, ph: History)
    requires Side(sodium, s, peer, role, sid, ph) && s.chat.ice.queue != []
    ensures Side(sodium, Pop(s), peer, role, sid, ph)
  {
  }

  /** Giving up leaves the records as they are. */
  lemma FailSide(
      sodium: Crypto.Sodium, s: State, peer: Crypto.Identity, role: Crypto.Role, sid: Bytes, ph: History,
      reason: Reason, env: Env)
    requires Past(sodium, s.id, peer, role, sid, s.history, ph)
    ensures
      var t := Fail(s, reason, env);
      t.id == s.id && Side(sodium, t, peer, role, sid, ph) && t.history == s.history && !t.chat.active
  {
    FailWipes(s, reason, env);
    hide Fail, Past;
  }

  lemma HeaderSide(
      sodium: Crypto.Sodium, s: State, peer: Crypto.Identity, role: Crypto.Role, sid: Bytes, ph: History, env: Env)
    requires Live(sodium, s) && NeverRekeys(s.history) && Side(sodium, s, peer, role, sid, ph)
    ensures var (t, o) := SetupHeader(s, env); Taken(sodium, s, peer, role, sid, ph, t, o == Done)
  {
    Untouched(sodium, s, peer, role, sid, ph, true);
    Untouched(sodium, s, peer, role, sid, ph, false);
    if s.chat.keysReady && !s.chat.headerSent && env.header.Some? {
      var m := StartPush(s, env.header.value);
      StartPushSide(sodium, s, peer, role, sid, ph, env.header.value);
      FreshHeaderIsLive(sodium, s, env.header.value);
      ResendHeaderSide(sodium, m, peer, role, sid, ph, env);
      TakenTrans(sodium, s, m, peer, role, sid, ph, ResendHeader(m, env).0, ResendHeader(m, env).1 == Done);
    } else if s.chat.keysReady && s.chat.headerSent {
      assert s.(chat := s.chat.(headerSent := true)) == s;
      ResendHeaderSide(sodium, s, peer, role, sid, ph, env);
    }
    hide Live, NeverRekeys, Side, Taken, ResendHeader, StartPush, Grows;
  }

  lemma TakenTrans(
      sodium: Crypto.Sodium, s: State, m: State, peer: Crypto.Identity, role: Crypto.Role, sid: Bytes, ph: History,
      t: State, ok: bool)
    requires m.id == s.id && Grows(s.history, m.history) && Taken(sodium, m, peer, role, sid, ph, t, ok)
    ensures Taken(sodium, s, peer, role, sid, ph, t, ok)
  {
  }

  lemma StartPushSide(
      sodium: Crypto.Sodium, s: State, peer: Crypto.Identity, role: Crypto.Role, sid: Bytes, ph: History, header: Nonce)
    requires Live(sodium, s) && Side(sodium, s, peer, role, sid, ph) && s.chat.keysReady && !s.chat.headerSent
    ensures
      var t := StartPush(s, header);
      t.id == s.id && Side(sodium, t, peer, role, sid, ph) && Grows(s.history, t.history)
  {
  }

  lemma ResendHeaderSide(
      sodium: Crypto.Sodium, s: State, peer: Crypto.Identity, role: Crypto.Role, sid: Bytes, ph: History, env: Env)
    requires Live(sodium, s.(chat := s.chat.(headerSent := true))) && Side(sodium, s, peer, role, sid, ph)
    ensures var (t, o) := ResendHeader(s, env); Taken(sodium, s, peer, role, sid, ph, t, o == Done)
  {
    var h := s.history;
    assert |h.pushes| == 1 && h.pushes[0].1 == s.chat.localHeader
      by { hide Side, WirePart, PullPart, PeerPart, HandshakePart, KeysPart; }
    ResendHeaderEffect(s, env);
    var (t, o) := ResendHeader(s, env);
    var d := Packet.Frame(Packet.STREAM_HEADER, s.chat.localHeader);
    assert IsHeader(t.history, d);
    assert Grows(h, t.history) by { PastFacts(sodium, s.id, peer, role, sid, h, ph); hide Live, Side, ResendHeader,
      Packet.Frame; }
    WireFromAppend(sodium, s.id, peer.public, role, sid, h, t.history, d);
    hide Live, WireFrom, KxFrom, PushFrom, QueueFrom, HeaderFrom, ResendHeader, Packet.Frame, Ascii;
  }

  lemma ResendHeaderEffect(s: State, env: Env)
    ensures
      var (t, o) := ResendHeader(s, env);
      && t.id == s.id && t.chat.active == s.chat.active
      && t.history == s.history.(wire := t.history.wire)
      && t.chat.role == s.chat.role && t.chat.remotePk == s.chat.remotePk && t.chat.ice == s.chat.ice
      && t.chat.headerReceived == s.chat.headerReceived && t.chat.stream == s.chat.stream && t.chat.hs == s.chat.hs
      && t.chat.handshakeSent == s.chat.handshakeSent && t.chat.sessionId == s.chat.sessionId
      && t.history.wire == (if o == Done then s.history.wire
          + [Packet.Frame(Packet.STREAM_HEADER, s.chat.localHeader)] else s.history.wire)
  {
    hide Packet.Frame, Packet.Encode;
  }

  // ---------------------------------------------------------------- whole events

  lemma TakenIsSide(
      sodium: Crypto.Sodium, s: State, peer: Crypto.Identity, role: Crypto.Role, sid: Bytes, ph: History, t: State,
      ok: bool)
    requires Taken(sodium, s, peer, role, sid, ph, t, ok)
    requires Reliable(sodium, s.id, peer, role, sid, s.history, ph)
    ensures t.id == s.id && Grows(s.history, t.history) && (ok ==> Side(sodium, t, peer, role, sid, ph))
    ensures Past(sodium, t.id, peer, role, sid, t.history, ph)
    ensures Reliable(sodium, t.id, peer, role, sid, t.history, ph)
  {
  }

  lemma SetupHandshakeSide(
      sodium: Crypto.Sodium, s: State, peer: Crypto.Identity, role: Crypto.Role, sid: Bytes, ph: History, env: Env)
    requires Live(sodium, s) && NeverRekeys(s.history) && s.chat.cliNotified && Side(sodium, s, peer, role, sid, ph)
    ensures var (t, o) := SetupHandshake(sodium, s, env); Taken(sodium, s, peer, role, sid, ph, t, o == Done)
  {
    Untouched(sodium, s, peer, role, sid, ph, true);
    HandshakeSide(sodium, s, peer, role, sid, ph, env);
    StartIsLive(sodium, s, env);
    hide Live, NeverRekeys, Side, Past, Present, Grows, StartHandshake;
  }

  lemma RoundSide(
      sodium: Crypto.Sodium, s: State, peer: Crypto.Identity, role: Crypto.Role, sid: Bytes, ph: History, env: Env)
    requires Crypto.Lawful(sodium) && Sound(sodium, s) && s.chat.active && !s.chat.ready && s.chat.cliNotified
    requires Side(sodium, s, peer, role, sid, ph) && Reliable(sodium, s.id, peer, role, sid, s.history, ph)
    ensures var (t, failed) := SetupRound(sodium, s, env); Taken(sodium, s, peer, role, sid, ph, t, failed.None?)
  {
    hide Crypto.Lawful, Live, NeverRekeys, Process, SetupHandshake, SetupHeader, Taken, Side, Reliable, Grows, Past;
    assert !s.chat.headerReceived && s.session != Secure;
    SetupHandshakeIsLive(sodium, s, env);
    SetupHandshakeSide(sodium, s, peer, role, sid, ph, env);
    var (s1, o1) := SetupHandshake(sodium, s, env);
    TakenIsSide(sodium, s, peer, role, sid, ph, s1, o1 == Done);
    if o1 == Done {
      ProcessSetup(sodium, s1, Flag(env.writes, 0));
      ProcessSide(sodium, s1, peer, role, sid, ph, Flag(env.writes, 0));
      var (s2, ok2) := Process(sodium, s1, Flag(env.writes, 0));
      TakenTrans(sodium, s, s1, peer, role, sid, ph, s2, ok2);
      TakenIsSide(sodium, s, peer, role, sid, ph, s2, ok2);
      if ok2 {
        HeaderIsLive(sodium, s2, env);
        HeaderSide(sodium, s2, peer, role, sid, ph, env);
        var (s3, o3) := SetupHeader(s2, env);
        TakenTrans(sodium, s, s2, peer, role, sid, ph, s3, o3 == Done);
        TakenIsSide(sodium, s, peer, role, sid, ph, s3, o3 == Done);
        if o3 == Done {
          ProcessSide(sodium, s3, peer, role, sid, ph, Flag(env.writes, 1));
          var (s4, ok4) := Process(sodium, s3, Flag(env.writes, 1));
          TakenTrans(sodium, s, s3, peer, role, sid, ph, s4, ok4);
        }
      }
    }
  }

  /** The parts of a session that its link to the peer depends on. */
  ghost predicate SameLink(s: State, t: State) {
    && t.id == s.id && t.history == s.history
    && (t.chat.active ==>
          && s.chat.active && t.chat.role == s.chat.role && t.chat.remotePk == s.chat.remotePk
          && t.chat.handshakeSent == s.chat.handshakeSent && t.chat.hs == s.chat.hs
          && (s.chat.handshakeSent || t.chat.sessionId == s.chat.sessionId)
          && t.chat.ice.queue == s.chat.ice.queue
          && t.chat.headerReceived == s.chat.headerReceived && t.chat.stream == s.chat.stream)
  }

  lemma SameLinkSide(
      sodium: Crypto.Sodium, s: State, peer: Crypto.Identity, role: Crypto.Role, sid: Bytes, ph: History, t: State)
    requires Side(sodium, s, peer, role, sid, ph) && SameLink(s, t)
    ensures Taken(sodium, s, peer, role, sid, ph, t, true)
  {
  }

  /** A step that may end in giving up. */
  lemma FailTaken(
      sodium: Crypto.Sodium, s: State, peer: Crypto.Identity, role: Crypto.Role, sid: Bytes, ph: History, m: State,
      ok: bool,
      reason: Reason, env: Env)
    requires Taken(sodium, s, peer, role, sid, ph, m, ok)
    ensures Taken(sodium, s, peer, role, sid, ph, Fail(m, reason, env), true)
  {
    FailSide(sodium, m, peer, role, sid, ph, reason, env);
    hide Past, Present, Fail, Grows;
  }

  lemma SetupSide(
      sodium: Crypto.Sodium, s: State, peer: Crypto.Identity, role: Crypto.Role, sid: Bytes, ph: History, env: Env)
    requires Crypto.Lawful(sodium) && Sound(sodium, s) && s.chat.active && !s.chat.ready && s.chat.cliNotified
    requires Side(sodium, s, peer, role, sid, ph) && Reliable(sodium, s.id, peer, role, sid, s.history, ph)
    ensures Taken(sodium, s, peer, role, sid, ph, ServiceSetup(sodium, s, env), true)
  {
    hide Crypto.Lawful, Sound, Taken, Side, Reliable, Fail, SetupRound;
    Untouched(sodium, s, peer, role, sid, ph, true);
    FailTaken(sodium, s, peer, role, sid, ph, s, true, NoRemoteKey, env);
    FailTaken(sodium, s, peer, role, sid, ph, s, true, Timeout, env);
    RoundSide(sodium, s, peer, role, sid, ph, env);
    var (t, failed) := SetupRound(sodium, s, env);
    TakenIsSide(sodium, s, peer, role, sid, ph, t, failed.None?);
    if failed.Some? {
      FailTaken(sodium, s, peer, role, sid, ph, t, false, failed.value, env);
    } else {
      SameLinkSide(sodium, t, peer, role, sid, ph, BecomeSecure(t));
      TakenTrans(sodium, s, t, peer, role, sid, ph, BecomeSecure(t), true);
    }
  }

  lemma {:induction false} DrainSide(
      sodium: Crypto.Sodium, s: State, peer: Crypto.Identity, role: Crypto.Role, sid: Bytes, ph: History, n: nat,
      env: Env)
    requires Crypto.Lawful(sodium) && Sound(sodium, s) && (s.chat.active ==> s.chat.ready)
    requires Side(sodium, s, peer, role, sid, ph) && Reliable(sodium, s.id, peer, role, sid, s.history, ph)
    ensures Taken(sodium, s, peer, role, sid, ph, Drain(sodium, s, n, env), true)
    decreases n
  {
    hide Crypto.Lawful, Sound, Side, Reliable, Taken, Process, Fail;
    Untouched(sodium, s, peer, role, sid, ph, true);
    if n > 0 {
      if s.chat.active {
        ActiveIsLive(sodium, s);
        ProcessSide(sodium, s, peer, role, sid, ph, Flag(env.writes, n));
      } else {
        IdleProcess(sodium, s, Flag(env.writes, n));
      }
      ProcessReady(sodium, s, Flag(env.writes, n));
      var (next, ok) := Process(sodium, s, Flag(env.writes, n));
      TakenIsSide(sodium, s, peer, role, sid, ph, next, ok);
      FailTaken(sodium, s, peer, role, sid, ph, next, ok, Rejected, env);
      if ok {
        DrainSide(sodium, next, peer, role, sid, ph, n - 1, env);
        TakenTrans(sodium, s, next, peer, role, sid, ph, Drain(sodium, next, n - 1, env), true);
      } else if !next.chat.active {
        TakenInactive(sodium, s, peer, role, sid, ph, next);
      }
    }
  }

  lemma IdleProcess(sodium: Crypto.Sodium, s: State, arrives: bool)
    requires Sound(sodium, s) && !s.chat.active
    ensures Process(sodium, s, arrives) == (s, true)
  {
  }

  lemma TakenInactive(
      sodium: Crypto.Sodium, s: State, peer: Crypto.Identity, role: Crypto.Role, sid: Bytes, ph: History, t: State)
    requires Taken(sodium, s, peer, role, sid, ph, t, false) && !t.chat.active
    ensures Taken(sodium, s, peer, role, sid, ph, t, true)
  {
  }

  lemma ServiceSide(
      sodium: Crypto.Sodium, s: State, peer: Crypto.Identity, role: Crypto.Role, sid: Bytes, ph: History, env: Env)
    requires Crypto.Lawful(sodium) && Good(sodium, s)
    requires Side(sodium, s, peer, role, sid, ph) && Reliable(sodium, s.id, peer, role, sid, s.history, ph)
    ensures Taken(sodium, s, peer, role, sid, ph, ServiceIce(sodium, s, env), true)
  {
    hide Crypto.Lawful, Sound, Good, Side, Reliable, Taken, Fail, ApplyPendingSdp, QueueLocalSdp, NoteConnected,
      ServiceCrypto;
    Untouched(sodium, s, peer, role, sid, ph, true);
    if s.chat.active {
      GoodFacts(sodium, s);
      var (s1, applied) := ApplyPendingSdp(s, env);
      var (s2, queued) := QueueLocalSdp(s1, env);
      var s3 := NoteConnected(s2, env);
      PendingSdpIsSound(sodium, s, env);
      LocalSdpIsSound(sodium, s1, env);
      NoteConnectedIsSound(sodium, s2, env);
      ServiceLinks(s, env);
      SameLinkSide(sodium, s, peer, role, sid, ph, s1);
      SameLinkSide(sodium, s, peer, role, sid, ph, s2);
      SameLinkSide(sodium, s, peer, role, sid, ph, s3);
      TakenIsSide(sodium, s, peer, role, sid, ph, s3, true);
      FailTaken(sodium, s, peer, role, sid, ph, s, true, Timeout, env);
      FailTaken(sodium, s, peer, role, sid, ph, s1, true, Transport, env);
      FailTaken(sodium, s, peer, role, sid, ph, s2, true, Transport, env);
      FailTaken(sodium, s, peer, role, sid, ph, s2, true, Timeout, env);
      CryptoSide(sodium, s3, peer, role, sid, ph, env);
      TakenTrans(sodium, s, s3, peer, role, sid, ph, ServiceCrypto(sodium, s3, env), true);
    }
  }

  lemma ServiceLinks(s: State, env: Env)
    requires s.chat.active
    ensures
      var s1 := ApplyPendingSdp(s, env).0;
      var s2 := QueueLocalSdp(s1, env).0;
      SameLink(s, s1) && SameLink(s, s2) && SameLink(s, NoteConnected(s2, env))
  {
    PendingSdpLinks(s, env);
    var s1 := ApplyPendingSdp(s, env).0;
    LocalSdpLinks(s1, env);
    var s2 := QueueLocalSdp(s1, env).0;
    hide ApplyPendingSdp, QueueLocalSdp;
  }

  lemma ChatLink(s: State, t: State)
    requires SameChat(s, t)
    ensures SameLink(s, t)
  {
  }

  lemma SdpLink(s: State, pending: Option<string>, sent: bool, failed: bool)
    ensures SameLink(s, s.(chat := s.chat.(pendingSdp := pending, localSdpSent := sent,
      ice := s.chat.ice.(failed := failed))))
  {
  }

  lemma LinkTrans(s: State, m: State, t: State)
    requires SameLink(s, m) && SameLink(m, t)
    ensures SameLink(s, t)
  {
  }

  lemma PendingSdpLinks(s: State, env: Env)
    ensures SameLink(s, ApplyPendingSdp(s, env).0)
  {
    ChatLink(s, s);
    SdpLink(s, None, s.chat.localSdpSent, s.chat.ice.failed);
    SdpLink(s, s.chat.pendingSdp, s.chat.localSdpSent, true);
    hide SameLink;
  }

  lemma LocalSdpLinks(s: State, env: Env)
    ensures SameLink(s, QueueLocalSdp(s, env).0)
  {
    ChatLink(s, s);
    if env.localSdp.Some? {
      var fields := SdpFields(s.id, s.chat.peer, s.chat.sessionId, env.localSdp.value);
      QueueKeepsCore(s, fields, MAX_JSON);
      var q := QueueBuilt(s, fields, MAX_JSON).0;
      ChatLink(s, q);
      SdpLink(q, q.chat.pendingSdp, true, q.chat.ice.failed);
      LinkTrans(s, q, q.(chat := q.chat.(localSdpSent := true)));
    }
    hide SameLink, QueueBuilt, SdpFields, Books;
  }

  lemma CryptoSide(
      sodium: Crypto.Sodium, s: State, peer: Crypto.Identity, role: Crypto.Role, sid: Bytes, ph: History, env: Env)
    requires Crypto.Lawful(sodium) && Sound(sodium, s) && s.chat.active && s.chat.cliNotified
    requires Side(sodium, s, peer, role, sid, ph) && Reliable(sodium, s.id, peer, role, sid, s.history, ph)
    ensures Taken(sodium, s, peer, role, sid, ph, ServiceCrypto(sodium, s, env), true)
  {
    hide Crypto.Lawful, Sound, Side, Reliable, Taken, Drain, ServiceSetup;
    Untouched(sodium, s, peer, role, sid, ph, true);
    if s.chat.ready {
      DrainSide(sodium, s, peer, role, sid, ph, QUEUE_CAPACITY, env);
    } else {
      SetupSide(sodium, s, peer, role, sid, ph, env);
    }
  }

  // ---------------------------------------------------------------- sealing

  /** Everything that sending an encrypted payload changes. */
  lemma SealEffect(sodium: Crypto.Sodium, s: State, kind: byte, item: Crypto.Item, leaves: bool)
    requires kind == KindOf(item.tag) && (s.chat.ready ==> s.chat.stream.pushOn)
    ensures
      var t := SendEncrypted(sodium, s, kind, item, leaves).0;
      var c := sodium.seal(s.chat.stream.push, item);
      || t == s
      || (&& s.chat.ready
          && t == s.(
                chat := s.chat.(stream := s.chat.stream.(push := Crypto.Advance(s.chat.stream.push, item))),
                history := s.history.(sealed := s.history.sealed + [item], wire := t.history.wire))
          && (t.history.wire == s.history.wire
              || (t.history.wire == s.history.wire + [Packet.Frame(kind, c)]
                  && |Packet.Frame(kind, c)| <= ICE_PACKET_MAX)))
  {
  }

  lemma SealSide(
      sodium: Crypto.Sodium, s: State, peer: Crypto.Identity, role: Crypto.Role, sid: Bytes, ph: History,
      kind: byte, item: Crypto.Item, leaves: bool)
    requires Sound(sodium, s) && Side(sodium, s, peer, role, sid, ph) && kind == KindOf(item.tag)
    ensures Taken(sodium, s, peer, role, sid, ph, SendEncrypted(sodium, s, kind, item, leaves).0, true)
  {
    Untouched(sodium, s, peer, role, sid, ph, true);
    assert s.chat.ready ==> (
      && s.chat.stream.pushOn && |s.history.pushes| == 1
      && s.chat.stream.push == StreamAt(s.history, |s.history.sealed|)) by {
      hide Side, PeerPart, HandshakePart, KeysPart, PullPart, WirePart, NeverRekeys;
    }
    SealEffect(sodium, s, kind, item, leaves);
    var t := SendEncrypted(sodium, s, kind, item, leaves).0;
    if t != s {
      SealedSide(sodium, s, peer, role, sid, ph, kind, item, t);
    }
    hide Sound, Side, Taken, SendEncrypted;
  }

  lemma SealedSide(
      sodium: Crypto.Sodium, s: State, peer: Crypto.Identity, role: Crypto.Role, sid: Bytes, ph: History,
      kind: byte, item: Crypto.Item, t: State)
    requires Side(sodium, s, peer, role, sid, ph) && kind == KindOf(item.tag)
    requires |s.history.pushes| == 1 && s.chat.stream.push == StreamAt(s.history, |s.history.sealed|)
    requires t == s.(
                chat := s.chat.(stream := s.chat.stream.(push := Crypto.Advance(s.chat.stream.push, item))),
                history := s.history.(sealed := s.history.sealed + [item], wire := t.history.wire))
    requires
      var d := Packet.Frame(kind, sodium.seal(s.chat.stream.push, item));
      t.history.wire == s.history.wire || (t.history.wire == s.history.wire + [d] && |d| <= ICE_PACKET_MAX)
    ensures Taken(sodium, s, peer, role, sid, ph, t, true)
  {
    var h, j := t.history, |s.history.sealed|;
    var d := Packet.Frame(kind, sodium.seal(s.chat.stream.push, item));
    PastFacts(sodium, s.id, peer, role, sid, s.history, ph);
    assert Grows(s.history, h) by { hide Side, Packet.Frame; }
    assert h.sealed[..j] == s.history.sealed[..j] && h.sealed[j] == item;
    assert StreamAt(h, j) == StreamAt(s.history, j);
    if h.wire != s.history.wire {
      assert IsChatAt(sodium, h, d, j) by { hide Side, Packet.Frame, Grows; }
      assert IsChat(sodium, h, d);
    }
    WireFromAppend(sodium, s.id, peer.public, role, sid, s.history, h, d);
    hide WireFrom, KxFrom, PushFrom, QueueFrom, HeaderFrom, Packet.Frame, Ascii, Grows, StreamAt;
  }

  lemma HangUpSide(
      sodium: Crypto.Sodium, s: State, peer: Crypto.Identity, role: Crypto.Role, sid: Bytes, ph: History, m: State,
      next: SessionState)
    requires Taken(sodium, s, peer, role, sid, ph, m, true)
    ensures Taken(sodium, s, peer, role, sid, ph, HangUp(m, next), true)
  {
  }

  lemma CloseSide(
      sodium: Crypto.Sodium, s: State, peer: Crypto.Identity, role: Crypto.Role, sid: Bytes, ph: History, leaves: bool)
    requires Sound(sodium, s) && Side(sodium, s, peer, role, sid, ph)
    ensures Taken(sodium, s, peer, role, sid, ph, HangUp(SendClose(sodium, s, leaves), Closed), true)
  {
    hide Sound, Side, Taken, SendEncrypted, HangUp, SameLink;
    var e := Enter(s, Closing);
    EnterIsSound(sodium, s, Closing);
    EnterLink(s, Closing);
    SameLinkSide(sodium, s, peer, role, sid, ph, e);
    TakenSide(sodium, s, peer, role, sid, ph, e);
    SealSide(sodium, e, peer, role, sid, ph, Packet.CLOSE, Crypto.Item([], Crypto.TAG_FINAL), leaves);
    TakenTrans(sodium, s, e, peer, role, sid, ph, SendClose(sodium, s, leaves), true);
    HangUpSide(sodium, s, peer, role, sid, ph, SendClose(sodium, s, leaves), Closed);
  }

  lemma EnterLink(s: State, next: SessionState)
    ensures SameLink(s, Enter(s, next))
  {
  }

  lemma TakenSide(
      sodium: Crypto.Sodium, s: State, peer: Crypto.Identity, role: Crypto.Role, sid: Bytes, ph: History, t: State)
    requires Taken(sodium, s, peer, role, sid, ph, t, true)
    ensures t.id == s.id && Grows(s.history, t.history) && Side(sodium, t, peer, role, sid, ph)
  {
  }

  lemma CommandSide(
      sodium: Crypto.Sodium, s: State, peer: Crypto.Identity, role: Crypto.Role, sid: Bytes, ph: History,
      line: string, leaves: bool)
    requires Sound(sodium, s) && Side(sodium, s, peer, role, sid, ph)
    ensures Taken(sodium, s, peer, role, sid, ph, OneCommand(sodium, s, line, leaves), true)
  {
    hide Sound, Side, Taken, SendEncrypted, TextIsValid, Ascii, SameLink;
    Untouched(sodium, s, peer, role, sid, ph, true);
    if SEND <= line {
      var item := Crypto.Item(Ascii(line[|SEND|..]), Crypto.TAG_MESSAGE);
      SealSide(sodium, s, peer, role, sid, ph, Packet.MESSAGE, item, leaves);
      var (sent, ok) := SendText(sodium, s, item.text, leaves);
      TakenSide(sodium, s, peer, role, sid, ph, sent);
      var w := Write(sent, CliError(SendFailed));
      ChatLink(sent, w);
      SameLinkSide(sodium, sent, peer, role, sid, ph, w);
      TakenTrans(sodium, s, sent, peer, role, sid, ph, w, true);
    } else {
      var w := Write(s, CliError(UnknownCommand));
      ChatLink(s, w);
      SameLinkSide(sodium, s, peer, role, sid, ph, w);
    }
  }

  lemma {:induction false} CommandsSide(
      sodium: Crypto.Sodium, s: State, peer: Crypto.Identity, role: Crypto.Role, sid: Bytes, ph: History,
      text: string, i: nat, n: nat, env: Env)
    requires i <= |text| && Sound(sodium, s) && Side(sodium, s, peer, role, sid, ph)
    ensures Taken(sodium, s, peer, role, sid, ph, Commands(sodium, s, text, i, n, env), true)
    decreases |text| - i
  {
    hide Sound, Side, Taken, OneCommand, HangUp, SendClose;
    Untouched(sodium, s, peer, role, sid, ph, true);
    if !(i == |text| || s.client.None? || !s.chat.active) {
      var end := LineEnd(text, i);
      CloseSide(sodium, s, peer, role, sid, ph, Flag(env.sends, n));
      CommandIsSound(sodium, s, text[i..end], Flag(env.sends, n));
      CommandSide(sodium, s, peer, role, sid, ph, text[i..end], Flag(env.sends, n));
      if text[i..end] != "CLOSE_CHAT" && end < |text| {
        var next := OneCommand(sodium, s, text[i..end], Flag(env.sends, n));
        TakenSide(sodium, s, peer, role, sid, ph, next);
        CommandsSide(sodium, next, peer, role, sid, ph, text, SkipLineEnds(text, end + 1), n + 1, env);
        TakenTrans(
          sodium, s, next, peer, role, sid, ph,
          Commands(sodium, next, text, SkipLineEnds(text, end + 1), n + 1, env), true);
      }
    }
  }

  lemma ClientSide(
      sodium: Crypto.Sodium, s: State, peer: Crypto.Identity, role: Crypto.Role, sid: Bytes, ph: History,
      input: Input, env: Env)
    requires Sound(sodium, s) && Side(sodium, s, peer, role, sid, ph)
    ensures Taken(sodium, s, peer, role, sid, ph, ServiceClient(sodium, s, input, env), true)
  {
    hide Sound, Side, Taken, Commands, HangUp, SendClose;
    Untouched(sodium, s, peer, role, sid, ph, true);
    HangUpSide(sodium, s, peer, role, sid, ph, s, Failed);
    CloseSide(sodium, s, peer, role, sid, ph, Flag(env.sends, 0));
    if input.Command? {
      CommandsSide(sodium, s, peer, role, sid, ph, CString(input.text), 0, 0, env);
    }
  }

  // ---------------------------------------------------------------- the remaining events

  lemma ChatSide(
      sodium: Crypto.Sodium, s: State, peer: Crypto.Identity, role: Crypto.Role, sid: Bytes, ph: History, t: State)
    requires Side(sodium, s, peer, role, sid, ph) && SameChat(s, t)
    ensures Taken(sodium, s, peer, role, sid, ph, t, true)
  {
  }

  lemma CallbackSide(
      sodium: Crypto.Sodium, s: State, peer: Crypto.Identity, role: Crypto.Role, sid: Bytes, ph: History, ice: Ice)
    requires Side(sodium, s, peer, role, sid, ph) && ice.queue == s.chat.ice.queue
    ensures Taken(sodium, s, peer, role, sid, ph, OnIce(s, ice), true)
  {
  }

  /** A datagram of the peer's reaches the queue, perhaps at the cost of the oldest one. */
  lemma ArrivalSide(
      sodium: Crypto.Sodium, s: State, peer: Crypto.Identity, role: Crypto.Role, sid: Bytes, ph: History, packet: Bytes)
    requires Side(sodium, s, peer, role, sid, ph) && packet in ph.wire
    ensures Taken(sodium, s, peer, role, sid, ph, OnIce(s, Receive(s.chat.ice, packet)), true)
  {
    PastFacts(sodium, s.id, peer, role, sid, s.history, ph);
    var ice := Receive(s.chat.ice, packet);
    assert s.chat.active ==> QueueFrom(ice.queue, ph.wire) by { hide Past, Aimed, HeaderFrom; }
    hide Past, QueueFrom, HeaderFrom, Ascii, Receive;
    if s.chat.ice.agent {} else {}
  }

  lemma CredentialsSide(
      sodium: Crypto.Sodium, s: State, peer: Crypto.Identity, role: Crypto.Role, sid: Bytes, ph: History,
      json: string, env: Env)
    requires Side(sodium, s, peer, role, sid, ph)
    ensures Taken(sodium, s, peer, role, sid, ph, HandleIceCredentials(sodium, s, json, env), true)
  {
    var encoded := Json.GetString(json, "sdp", 2732);
    Untouched(sodium, s, peer, role, sid, ph, true);
    if encoded.Some? && sodium.base64Decode(encoded.value).Some? {
      var sdp := sodium.base64Decode(encoded.value);
      SdpLink(s, sdp, s.chat.localSdpSent, s.chat.ice.failed);
      SdpLink(s, s.chat.pendingSdp, s.chat.localSdpSent, true);
      SameLinkSide(sodium, s, peer, role, sid, ph, s.(chat := s.chat.(pendingSdp := sdp)));
      SameLinkSide(sodium, s, peer, role, sid, ph, s.(chat := s.chat.(ice := s.chat.ice.(failed := true))));
    }
    hide Side, Taken, SameLink, Matches, Json.GetString;
  }

  lemma CancelSide(
      sodium: Crypto.Sodium, s: State, peer: Crypto.Identity, role: Crypto.Role, sid: Bytes, ph: History, json: string)
    requires Side(sodium, s, peer, role, sid, ph)
    ensures Taken(sodium, s, peer, role, sid, ph, HandleChatCancel(s, json), true)
  {
  }

  /** Does a server message open a session? */
  predicate Begins(json: string) {
    var kind := Json.GetString(CString(json), "type", 32);
    kind == Some("chat_request") || kind == Some("chat_accept")
  }

  lemma MessageSide(
      sodium: Crypto.Sodium, s: State, peer: Crypto.Identity, role: Crypto.Role, sid: Bytes, ph: History,
      json: string, env: Env)
    requires Side(sodium, s, peer, role, sid, ph)
    requires Json.GetString(json, "type", 32) != Some("chat_request")
      && Json.GetString(json, "type", 32) != Some("chat_accept")
    ensures Taken(sodium, s, peer, role, sid, ph, HandleReceive(sodium, s, json, env), true)
  {
    hide Side, Taken, HandleUserStatus, HandleError, HandleChallenge, HandleIceCredentials, HandleChatCancel,
      QueueBuilt, HelloFields,
      Json.GetString, Books;
    Untouched(sodium, s, peer, role, sid, ph, true);
    CredentialsSide(sodium, s, peer, role, sid, ph, json, env);
    CancelSide(sodium, s, peer, role, sid, ph, json);
    StatusKeepsCore(s, json);
    ErrorKeepsCore(s, json);
    ChallengeKeepsCore(sodium, s, json);
    var greeting := s.(phase := Greeting);
    QueueKeepsCore(greeting, HelloFields(s.id), 128);
    ChatSide(sodium, s, peer, role, sid, ph, HandleUserStatus(s, json));
    ChatSide(sodium, s, peer, role, sid, ph, HandleError(s, json));
    ChatSide(sodium, s, peer, role, sid, ph, HandleChallenge(sodium, s, json));
    ChatSide(sodium, s, peer, role, sid, ph, QueueBuilt(greeting, HelloFields(s.id), 128).0);
    ChatSide(sodium, s, peer, role, sid, ph, s.(challenge := None, phase := Online));
  }

  lemma AskLink(s: State, fd: int, peer: string, env: Env)
    requires s.chat.active ==> s.chat.handshakeSent
    ensures SameLink(s, AskPeer(s, fd, peer, env))
  {
    var asked := Enter(
      s.(lookupPeer := peer, client := Some(fd), retries := 0, log := s.log.(requests := 0)), Requesting);
    var q := QueueChatRequest(asked, peer, env.sessionId).0;
    RequestLink(asked, peer, env.sessionId);
    RespondKeepsCore(q, CliError(ChatRequestFailed));
    ChatLink(q, Respond(q, CliError(ChatRequestFailed)));
    assert SameLink(s, asked) by { hide QueueChatRequest; }
    LinkTrans(s, asked, q);
    LinkTrans(s, q, Respond(q, CliError(ChatRequestFailed)));
    hide SameLink, QueueChatRequest, Respond, Books;
  }

  lemma RequestLink(s: State, peer: string, id: SessionId)
    requires s.chat.active ==> s.chat.handshakeSent
    ensures SameLink(s, QueueChatRequest(s, peer, id).0)
  {
    var m := s.(chat := s.chat.(sessionId := id));
    assert SameLink(s, m);
    var fields := KeyedFields("chat_request", s.id, peer, id);
    QueueKeepsCore(m, fields, 512);
    var q := QueueBuilt(m, fields, 512).0;
    ChatLink(m, q);
    ChatLink(m, q.(log := q.log.(requests := q.log.requests + 1)));
    LinkTrans(s, m, q);
    LinkTrans(s, m, q.(log := q.log.(requests := q.log.requests + 1)));
    hide SameLink, QueueBuilt, KeyedFields, Books;
  }

  /** Does an OPEN_CHAT start a request of its own? */
  predicate StartsRequest(s: State, peer: string) {
    && Packet.UsernameIsValid(peer) && s.phase == Online && s.wsi && peer != s.id.username
    && !(s.chat.active && s.chat.ready && peer == s.chat.peer) && s.client.None? && s.pending.None?
  }

  lemma OpenChatSide(
      sodium: Crypto.Sodium, s: State, peer: Crypto.Identity, role: Crypto.Role, sid: Bytes, ph: History, fd: int,
      name: string, env: Env)
    requires Side(sodium, s, peer, role, sid, ph)
    requires s.chat.active && !s.chat.handshakeSent ==> !StartsRequest(s, name)
    ensures Taken(sodium, s, peer, role, sid, ph, OpenChat(s, fd, name, env), true)
  {
    hide Side, Taken, SameLink, AskPeer, Packet.UsernameIsValid;
    if StartsRequest(s, name) {
      AskLink(s, fd, name, env);
      SameLinkSide(sodium, s, peer, role, sid, ph, AskPeer(s, fd, name, env));
    }
    ChatSide(sodium, s, peer, role, sid, ph, Attach(s, fd));
    ChatSide(sodium, s, peer, role, sid, ph, Tell(s, fd, CliError(InvalidUsername)));
    ChatSide(sodium, s, peer, role, sid, ph, Tell(s, fd, CliError(DaemonNotOnline)));
    ChatSide(sodium, s, peer, role, sid, ph, Tell(s, fd, UserOnline(name)));
    ChatSide(sodium, s, peer, role, sid, ph, Tell(s, fd, CliError(Busy)));
  }

  /** What may happen to one side of a session: the network delivers only what the peer has sent, no other session is
      begun, and no command starts a request for another chat before the handshake has gone out. */
  ghost predicate Allowed(s: State, ph: History, e: Event) {
    match e
    case ServerMessage(json, _) => !Begins(json)
    case OpenChatCommand(_, name, _) => s.chat.active && !s.chat.handshakeSent ==> !StartsRequest(s, name)
    case Datagram(packet) => packet in ph.wire
    case _ => true
  }

  lemma StepSide(
      sodium: Crypto.Sodium, s: State, peer: Crypto.Identity, role: Crypto.Role, sid: Bytes, ph: History, e: Event)
    requires Crypto.Lawful(sodium) && Good(sodium, s) && Allowed(s, ph, e)
    requires Side(sodium, s, peer, role, sid, ph) && Reliable(sodium, s.id, peer, role, sid, s.history, ph)
    ensures Taken(sodium, s, peer, role, sid, ph, Step(sodium, s, e), true)
  {
    hide Crypto.Lawful, Good, Side, Reliable, Taken, Sound, HandleReceive, OpenChat, ServiceClient, ServiceIce,
      QueueBuilt,
      RegisterFields, Receive, Json.GetString, Books;
    Untouched(sodium, s, peer, role, sid, ph, true);
    GoodFacts(sodium, s);
    match e
    case Established =>
      var c := s.(wsi := true, connected := true, phase := Registering);
      QueueKeepsCore(c, RegisterFields(s.id), 512);
      ChatSide(sodium, s, peer, role, sid, ph, QueueBuilt(c, RegisterFields(s.id), 512).0);
    case ServerMessage(json, env) =>
      MessageSide(sodium, s, peer, role, sid, ph, CString(json), env);
      ChatSide(sodium, s, peer, role, sid, ph, s.(phase := Broken));
    case Writeable(written) => ChatSide(sodium, s, peer, role, sid, ph, Step(sodium, s, e));
    case ConnectionError => ChatSide(sodium, s, peer, role, sid, ph, Step(sodium, s, e));
    case Disconnected => ChatSide(sodium, s, peer, role, sid, ph, Step(sodium, s, e));
    case OpenChatCommand(fd, name, env) => OpenChatSide(sodium, s, peer, role, sid, ph, fd, name, env);
    case ClientInput(input, env) => ClientSide(sodium, s, peer, role, sid, ph, input, env);
    case GatheringDone => CallbackSide(sodium, s, peer, role, sid, ph, s.chat.ice.(gatheringDone := true));
    case Connected(pair) =>
      CallbackSide(sodium, s, peer, role, sid, ph, s.chat.ice.(ready := true));
      if pair.Some? {
        CallbackSide(sodium, s, peer, role, sid, ph,
          s.chat.ice.(ready := true, pairKnown := true, pairRelayed := pair.value));
      }
    case TransportFailed => CallbackSide(sodium, s, peer, role, sid, ph, s.chat.ice.(failed := true));
    case Datagram(packet) => ArrivalSide(sodium, s, peer, role, sid, ph, packet);
    case Service(env) => ServiceSide(sodium, s, peer, role, sid, ph, env);
  }
}
