/** How long a message may be to arrive, byte for byte. */
module Sizes {
  import opened Octets
  import opened Daemon
  import Crypto
  import Packet
  import Pairing

  /** Text that a client can send at all. */
  predicate Sendable(text: Bytes) { 0 < |text| && 0 !in text && 13 !in text && 10 !in text }

  const WIRE_MAX := ICE_PACKET_MAX - Packet.HEADER_SIZE - Crypto.STREAM_ABYTES

  /** A session that can send, over a transport that is up. */
  ghost predicate CanSend(s: State) {
    s.chat.ready && s.session == Secure && s.chat.stream.pushOn && s.chat.ice.ready && s.chat.ice.agent
  }

  /** A session with a client that has received everything its peer has sent. */
  ghost predicate InStep(r: State, push: Crypto.Stream) {
    r.chat.ready && r.session == Secure && r.chat.stream.pullOn && r.chat.stream.pull == push && r.client.Some?
  }

  /** What a client is shown is one line, whatever the peer sent; a text that a client could have sent is shown as it
      is, and no other is. */
  lemma LinePassesThrough(text: Bytes)
    ensures 0 !in OneLine(text) && 13 !in OneLine(text) && 10 !in OneLine(text)
    ensures text != [] ==> (OneLine(text) == text <==> Sendable(text))
  {
    if b: byte :| b in OneLine(text) && b in [0, 13, 10] {
      assert false;
    }
  }

  /** Sealing a text that is too long for a datagram fails after the stream has moved on: the message is lost and so
      is the place of every later one. The text fits exactly when the stream and the wire stay together. */
  lemma SealedTextIsSentWhenItFits(sodium: Crypto.Sodium, s: State, text: Bytes)
    requires Crypto.Lawful(sodium) && CanSend(s) && Sendable(text) && |text| <= TEXT_MAX
    ensures
      var item := Crypto.Item(text, Crypto.TAG_MESSAGE);
      var (t, sent) := SendText(sodium, s, text, true);
      && t.chat.stream.push == Crypto.Advance(s.chat.stream.push, item)
      && t.history.sealed == s.history.sealed + [item]
      && (sent <==> |text| <= WIRE_MAX)
      && t.history.wire
         == if sent then s.history.wire + [Packet.Frame(Packet.MESSAGE, sodium.seal(s.chat.stream.push, item))]
           else s.history.wire
  {
  }

  lemma SentTextIsWritten(sodium: Crypto.Sodium, r: State, push: Crypto.Stream, text: Bytes)
    requires Crypto.Lawful(sodium) && InStep(r, push) && Sendable(text) && |text| <= WIRE_MAX
    ensures
      var d := Packet.Frame(Packet.MESSAGE, sodium.seal(push, Crypto.Item(text, Crypto.TAG_MESSAGE)));
      var (u, ok) := HandlePacket(sodium, r, d, true);
      ok && u.ledger.delivered == r.ledger.delivered + [Delivery(r.client.value, r.chat.peer, text)]
      <==> |text| <= IPC_MAX - 2 - MessagePrefix(r.chat.peer)
  {
    var item := Crypto.Item(text, Crypto.TAG_MESSAGE);
    var c := sodium.seal(push, item);
    assert |c| == |text| + Crypto.STREAM_ABYTES && sodium.open(push, c) == Some(item) by { hide Packet.Frame; }
    Pairing.HandleFrame(sodium, r, Packet.MESSAGE, c, true);
    LinePassesThrough(text);
    hide Crypto.Lawful, Packet.Frame, HandlePacket, OneLine;
    var (u, ok) := OpenPayload(sodium, r, Packet.MESSAGE, c, true);
    var line := Delivery(r.client.value, r.chat.peer, text);
    assert ok ==> u.ledger.delivered == r.ledger.delivered + [line];
  }

  /** What one side sends, the other side's client sees. */
  ghost predicate Arrives(sodium: Crypto.Sodium, s: State, r: State, text: Bytes)
    requires r.client.Some?
  {
    var d := Packet.Frame(Packet.MESSAGE, sodium.seal(s.chat.stream.push, Crypto.Item(text, Crypto.TAG_MESSAGE)));
    var (t, sent) := SendText(sodium, s, text, true);
    var (u, ok) := HandlePacket(sodium, r, d, true);
    && sent && t.history.wire == s.history.wire + [d]
    && ok && u.ledger.delivered == r.ledger.delivered + [Delivery(r.client.value, r.chat.peer, text)]
  }

  /** End to end: a text arrives unchanged exactly when it is at most 4073 bytes long and, with the sender's name, at
      most 4085. */
  lemma TextArrivesWhenItFits(sodium: Crypto.Sodium, s: State, r: State, text: Bytes)
    requires Crypto.Lawful(sodium) && CanSend(s) && InStep(r, s.chat.stream.push) && Sendable(text)
    ensures Arrives(sodium, s, r, text) <==> |text| <= 4073 && |text| + |r.chat.peer| <= 4085
  {
    assert WIRE_MAX == 4073 && TEXT_MAX == 4081 && MessagePrefix(r.chat.peer) == 9 + |r.chat.peer|;
    if |text| <= TEXT_MAX {
      SealedTextIsSentWhenItFits(sodium, s, text);
      if |text| <= WIRE_MAX {
        SentTextIsWritten(sodium, r, s.chat.stream.push, text);
      }
      hide Crypto.Lawful, CanSend, InStep, Packet.Frame, SendText, HandlePacket, MessagePrefix;
    } else {
      assert !SendText(sodium, s, text, true).1;
      hide Crypto.Lawful, CanSend, InStep, Packet.Frame, SendText, HandlePacket, MessagePrefix;
    }
  }

  /** The texts that the daemon seals are exactly those that a client can be shown unchanged and that fit a command. */
  lemma ValidIsSendable(text: Bytes)
    ensures TextIsValid(text) <==> Sendable(text) && |text| <= TEXT_MAX
  {
  }

  /** A message that comes while no client is attached is taken all the same, and shown to nobody; one whose line cannot
      be written is not. */
  lemma UnattendedTextIsTaken(sodium: Crypto.Sodium, r: State, push: Crypto.Stream, text: Bytes, arrives: bool)
    requires Crypto.Lawful(sodium) && Sendable(text) && |text| <= WIRE_MAX
    requires r.chat.ready && r.session == Secure && r.chat.stream.pullOn && r.chat.stream.pull == push
    ensures
      var item := Crypto.Item(text, Crypto.TAG_MESSAGE);
      var (u, ok) := HandlePacket(sodium, r, Packet.Frame(Packet.MESSAGE, sodium.seal(push, item)), arrives);
      && u.history.accepted == r.history.accepted + [item]
      && (r.client.None? ==> ok && u.ledger == r.ledger)
      && (r.client.Some? && !arrives ==> !ok)
  {
    var item := Crypto.Item(text, Crypto.TAG_MESSAGE);
    var c := sodium.seal(push, item);
    assert |c| == |text| + Crypto.STREAM_ABYTES && sodium.open(push, c) == Some(item) by { hide Packet.Frame; }
    Pairing.HandleFrame(sodium, r, Packet.MESSAGE, c, arrives);
    hide Crypto.Lawful, Packet.Frame, HandlePacket, OneLine;
  }
}
