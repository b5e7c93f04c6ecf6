/**
 The memory of a session (daemon/main.c, daemon/ice.c, common/crypto.c): the daemon's fields for it, the transport
 with its receive ring, the handshake record, the two streams and the cached handshake message. The ghost record
 `talk` is the session of the machine; `Valid` says that the memory stands for it.
 */
module SessionMemory {
  import opened Daemon
  import opened Octets
  import Crypto
  import CryptoState
  import Packet
  import Ring

  /** The fields of the session that the daemon holds itself. */
  datatype Fields = Fields(
    active: bool, controlling: bool, localSdpSent: bool, cliNotified: bool, relayed: bool,
    peer: string, sessionId: string, iceDeadline: int, pendingSdp: Option<string>,
    remotePk: Key, hasRemotePk: bool, role: Crypto.Role, keys: Crypto.SessionKeys, localHeader: Nonce,
    cryptoDeadline: int, handshakeSent: bool, nextHandshakeAt: int,
    keysReady: bool, headerSent: bool, nextHeaderAt: int, headerReceived: bool, ready: bool)

  const BLANK := Fields(
    false, false, false, false, false, "", "", 0, None, ZERO_KEY, false, Crypto.NoRole, Crypto.WIPED_KEYS, ZERO_NONCE,
    0, false, 0, false, false, 0, false, false)

  /** The daemon's own fields are those of the session record. */
  ghost predicate Holds(f: Fields, c: Chat) {
    && f.active == c.active && f.controlling == c.controlling && f.localSdpSent == c.localSdpSent
    && f.cliNotified == c.cliNotified
    && f.relayed == c.relayed && f.peer == c.peer && f.sessionId == c.sessionId && f.iceDeadline == c.iceDeadline
    && f.pendingSdp == c.pendingSdp && f.remotePk == c.remotePk && f.hasRemotePk == c.hasRemotePk && f.role == c.role
    && f.keys == c.keys && f.localHeader == c.localHeader && f.cryptoDeadline == c.cryptoDeadline
    && f.handshakeSent == c.handshakeSent && f.nextHandshakeAt == c.nextHandshakeAt && f.keysReady == c.keysReady
    && f.headerSent == c.headerSent && f.nextHeaderAt == c.nextHeaderAt && f.headerReceived == c.headerReceived
    && f.ready == c.ready
  }

  lemma PeerHolds(f: Fields, c: Chat, name: string)
    ensures Holds(f, c) ==> Holds(f.(peer := name), c.(peer := name))
  {
  }

  lemma IdHolds(f: Fields, c: Chat, sid: string)
    ensures Holds(f, c) ==> Holds(f.(sessionId := sid), c.(sessionId := sid))
  {
  }

  lemma SdpHolds(f: Fields, c: Chat, sdp: Option<string>)
    ensures Holds(f, c) ==> Holds(f.(pendingSdp := sdp), c.(pendingSdp := sdp))
  {
  }

  lemma IceHolds(f: Fields, c: Chat, ice: Ice)
    ensures Holds(f, c) ==> Holds(f, c.(ice := ice))
  {
  }

  lemma StreamHolds(f: Fields, c: Chat, stream: Crypto.SecretStream)
    ensures Holds(f, c) ==> Holds(f, c.(stream := stream))
  {
  }

  lemma BlankHolds()
    ensures Holds(BLANK, NO_CHAT)
  {
  }

  class Memory {
    const ice: Ring.Transport
    const handshake: CryptoState.HandshakeState
    const stream: CryptoState.StreamState
    const message: array<byte>
    var chat: Fields
    ghost var talk: Chat

    /** The objects of the session. */
    ghost function Parts(): set<object> { {ice, ice.slots, ice.lens, handshake, stream, message} }

    /** The objects hold a handshake, two streams, a cached message and a transport session. */
    ghost predicate Keeps(hs: Crypto.Handshake, streams: Crypto.SecretStream, cached: Bytes, transport: Ice)
      reads Parts()
    {
      && handshake.Value() == hs && stream.Value() == streams
      && message.Length == Crypto.KX_MESSAGE_BYTES && message[..] == cached
      && ice.Valid() && ice.Value() == transport
    }

    /** The memory stands for the session of the machine. */
    ghost predicate Valid()
      reads this, Parts()
    {
      Holds(chat, talk) && Keeps(talk.hs, talk.stream, talk.localMessage, talk.ice)
    }

    constructor ()
      ensures Valid() && fresh(Parts()) && talk == NO_CHAT
    {
      ice := new Ring.Transport();
      handshake := new CryptoState.HandshakeState();
      stream := new CryptoState.StreamState();
      message := new byte[Crypto.KX_MESSAGE_BYTES](_ => 0);
      chat, talk := BLANK, NO_CHAT;
      new;
      BlankHolds();
      hide Holds;
    }

    /** What handlers read of the session is what the machine has. */
    lemma Status()
      requires Valid()
      ensures
        && chat.active == talk.active && chat.ready == talk.ready && chat.keysReady == talk.keysReady
        && chat.headerSent == talk.headerSent && chat.headerReceived == talk.headerReceived
        && chat.handshakeSent == talk.handshakeSent && chat.hasRemotePk == talk.hasRemotePk
        && chat.cliNotified == talk.cliNotified && chat.localSdpSent == talk.localSdpSent
    {
    }

    lemma Times()
      requires Valid()
      ensures
        && chat.iceDeadline == talk.iceDeadline && chat.cryptoDeadline == talk.cryptoDeadline
        && chat.nextHandshakeAt == talk.nextHandshakeAt && chat.nextHeaderAt == talk.nextHeaderAt
    {
    }

    lemma Names()
      requires Valid()
      ensures
        && chat.peer == talk.peer && chat.sessionId == talk.sessionId && chat.relayed == talk.relayed
        && chat.pendingSdp == talk.pendingSdp
    {
    }

    lemma Cached()
      requires Valid()
      ensures chat.localHeader == talk.localHeader && message[..] == talk.localMessage
    {
    }

    lemma Flags()
      requires Valid()
      ensures
        && ice.agent == talk.ice.agent && ice.gatheringDone == talk.ice.gatheringDone && ice.ready == talk.ice.ready
        && ice.failed == talk.ice.failed && ice.pairKnown == talk.ice.pairKnown
        && ice.pairRelayed == talk.ice.pairRelayed
    {
    }

    method SetSessionId(sid: string)
      requires Valid()
      modifies `chat, `talk
      ensures Valid() && talk == old(talk).(sessionId := sid)
    {
      IdHolds(chat, talk, sid);
      hide Holds;
      chat := chat.(sessionId := sid);
      talk := talk.(sessionId := sid);
    }

    method SetPeer(name: string)
      requires Valid()
      modifies `chat, `talk
      ensures Valid() && talk == old(talk).(peer := name)
    {
      PeerHolds(chat, talk, name);
      hide Holds;
      chat := chat.(peer := name);
      talk := talk.(peer := name);
    }

    method Aim(peer: string, sid: string, pk: Key, controlling: bool)
      requires Valid()
      modifies `chat, `talk
      ensures
        && Valid()
        && talk == old(talk).(
             peer := peer, sessionId := sid, remotePk := pk, hasRemotePk := true, controlling := controlling,
             role := if controlling then Crypto.Initiator else Crypto.Responder)
    {
      var role := if controlling then Crypto.Initiator else Crypto.Responder;
      chat := chat.(
        peer := peer, sessionId := sid, remotePk := pk, hasRemotePk := true, controlling := controlling, role := role);
      talk := talk.(
        peer := peer, sessionId := sid, remotePk := pk, hasRemotePk := true, controlling := controlling, role := role);
    }

    method SetActive(deadline: int)
      requires Valid()
      modifies `chat, `talk
      ensures Valid() && talk == old(talk).(active := true, iceDeadline := deadline)
    {
      chat := chat.(active := true, iceDeadline := deadline);
      talk := talk.(active := true, iceDeadline := deadline);
    }

    method OpenTransport()
      requires Valid()
      modifies `talk, Parts()
      ensures Valid() && talk == old(talk).(ice := old(talk).ice.(agent := true))
    {
      IceHolds(chat, talk, talk.ice.(agent := true));
      hide Holds;
      ice.Open();
      talk := talk.(ice := talk.ice.(agent := true));
    }

    method NoteHandshake(next: int)
      requires Valid()
      modifies `chat, `talk
      ensures Valid() && talk == old(talk).(nextHandshakeAt := next, handshakeSent := true)
    {
      chat := chat.(nextHandshakeAt := next, handshakeSent := true);
      talk := talk.(nextHandshakeAt := next, handshakeSent := true);
    }

    method NoteHeader(next: int)
      requires Valid()
      modifies `chat, `talk
      ensures Valid() && talk == old(talk).(nextHeaderAt := next, headerSent := true)
    {
      chat := chat.(nextHeaderAt := next, headerSent := true);
      talk := talk.(nextHeaderAt := next, headerSent := true);
    }

    method SetKeysReady()
      requires Valid()
      modifies `chat, `talk
      ensures Valid() && talk == old(talk).(keysReady := true)
    {
      chat := chat.(keysReady := true);
      talk := talk.(keysReady := true);
    }

    method SetReady()
      requires Valid()
      modifies `chat, `talk
      ensures Valid() && talk == old(talk).(ready := true)
    {
      chat := chat.(ready := true);
      talk := talk.(ready := true);
    }

    method SetPendingSdp(sdp: Option<string>)
      requires Valid()
      modifies `chat, `talk
      ensures Valid() && talk == old(talk).(pendingSdp := sdp)
    {
      SdpHolds(chat, talk, sdp);
      hide Holds;
      chat := chat.(pendingSdp := sdp);
      talk := talk.(pendingSdp := sdp);
    }

    method SetSdpSent()
      requires Valid()
      modifies `chat, `talk
      ensures Valid() && talk == old(talk).(localSdpSent := true)
    {
      chat := chat.(localSdpSent := true);
      talk := talk.(localSdpSent := true);
    }

    method NotePath(relayed: bool, deadline: int)
      requires Valid()
      modifies `chat, `talk
      ensures Valid() && talk == old(talk).(relayed := relayed, cliNotified := true, cryptoDeadline := deadline)
    {
      chat := chat.(relayed := relayed, cliNotified := true, cryptoDeadline := deadline);
      talk := talk.(relayed := relayed, cliNotified := true, cryptoDeadline := deadline);
    }

    method FailTransport()
      requires Valid()
      modifies `talk, Parts()
      ensures Valid() && talk == old(talk).(ice := old(talk).ice.(failed := true))
    {
      IceHolds(chat, talk, talk.ice.(failed := true));
      hide Holds;
      ice.SetFailed();
      talk := talk.(ice := talk.ice.(failed := true));
    }

    method BeginShake(sodium: Crypto.Sodium, id: Crypto.Identity, secret: Option<Key>) returns (result: Crypto.Result)
      requires Valid()
      modifies `talk, Parts()
      ensures
        var was := old(talk);
        var made := Crypto.Init(sodium, was.hs, id, was.remotePk, was.role, Ascii(was.sessionId), secret,
          was.localMessage);
        Valid() && result == made.0 && talk == was.(hs := made.1, localMessage := made.2)
    {
      hide Crypto.Init, Ascii;
      result := handshake.Begin(sodium, id, chat.remotePk, chat.role, Ascii(chat.sessionId), secret, message);
      talk := talk.(hs := handshake.Value(), localMessage := message[..]);
    }

    method CompleteShake(sodium: Crypto.Sodium, payload: Bytes) returns (result: Crypto.Result)
      requires Valid() && |payload| == Crypto.KX_MESSAGE_BYTES
      modifies `chat, `talk, Parts()
      ensures
        var done := Crypto.Finish(sodium, old(talk).hs, payload, old(talk).keys);
        Valid() && result == done.0 && talk == old(talk).(hs := done.1, keys := done.2)
    {
      hide Crypto.Finish, Crypto.Verifies;
      ghost var done := Crypto.Finish(sodium, talk.hs, payload, talk.keys);
      var keys;
      result, keys := handshake.Complete(sodium, payload, chat.keys);
      chat := chat.(keys := keys);
      talk := talk.(hs := done.1, keys := done.2);
    }

    method BeginPush(header: Nonce)
      requires Valid()
      modifies `chat, `talk, Parts()
      ensures
        && Valid()
        && talk == old(talk).(stream := Crypto.InitPush(old(talk).stream, old(talk).keys.tx, header),
            localHeader := header)
    {
      hide Crypto.InitPush;
      stream.StartPush(chat.keys.tx, header);
      chat := chat.(localHeader := header);
      talk := talk.(stream := stream.Value(), localHeader := header);
    }

    method BeginPull(header: Nonce)
      requires Valid()
      modifies `chat, `talk, Parts()
      ensures
        && Valid()
        && talk == old(talk).(stream := Crypto.InitPull(old(talk).stream, old(talk).keys.rx, header),
            headerReceived := true)
    {
      hide Crypto.InitPull;
      stream.StartPull(chat.keys.rx, header);
      chat := chat.(headerReceived := true);
      talk := talk.(stream := stream.Value(), headerReceived := true);
    }

    method OpenStream(sodium: Crypto.Sodium, payload: Bytes) returns (result: Crypto.Result, item: Crypto.Item)
      requires Valid()
      modifies `talk, Parts()
      ensures
        var made := Crypto.Decrypt(sodium, old(talk).stream, payload, Packet.MAX_MESSAGE_SIZE);
        && Valid() && result == made.0 && item == made.2
        && talk == if result == Crypto.Ok then old(talk).(stream := made.1) else old(talk)
    {
      hide Crypto.Decrypt, Holds;
      result, item := stream.Open(sodium, payload, Packet.MAX_MESSAGE_SIZE);
      if result == Crypto.Ok {
        StreamHolds(chat, talk, stream.Value());
        talk := talk.(stream := stream.Value());
      }
    }

    method SealStream(sodium: Crypto.Sodium, item: Crypto.Item) returns (result: Crypto.Result, c: Bytes)
      requires Valid()
      modifies `talk, Parts()
      ensures
        var made := Crypto.Encrypt(sodium, old(talk).stream, item, Packet.MAX_MESSAGE_SIZE);
        && Valid() && result == made.0 && c == made.2
        && talk == if result == Crypto.Ok then old(talk).(stream := made.1) else old(talk)
    {
      UnsealedLeavesStream(sodium, talk.stream, item);
      hide Crypto.Encrypt, Holds;
      result, c := stream.Seal(sodium, item, Packet.MAX_MESSAGE_SIZE);
      if result == Crypto.Ok {
        StreamHolds(chat, talk, stream.Value());
        talk := talk.(stream := stream.Value());
      }
    }

    /** Takes the oldest packet out of the ring, unless it does not fit. */
    method TakeOldest() returns (result: Ring.Result, packet: Bytes)
      requires Valid()
      modifies `talk, Parts()
      ensures
        var queue := old(talk).ice.queue;
        && Valid() && (result == Ring.Ok <==> queue == [] || |queue[0]| <= ICE_PACKET_MAX)
        && (if queue == [] || result != Ring.Ok then packet == [] && talk == old(talk)
            else packet == queue[0] && talk == old(talk).(ice := old(talk).ice.(queue := queue[1..])))
    {
      hide Holds;
      ghost var some := talk.ice.queue != [];
      result, packet := ice.Take(ICE_PACKET_MAX);
      if result == Ring.Ok && some {
        IceHolds(chat, talk, talk.ice.(queue := talk.ice.queue[1..]));
        talk := talk.(ice := talk.ice.(queue := talk.ice.queue[1..]));
      }
    }

    /** Wipes everything of a session: the transport with its packets, the handshake, the streams, the caches, the
        fields. */
    method Wipe()
      requires Valid()
      modifies `chat, `talk, Parts()
      ensures Valid() && talk == NO_CHAT
    {
      BlankHolds();
      hide Holds;
      ice.Close();
      handshake.Wipe();
      stream.Wipe();
      ClearMessage(message);
      chat, talk := BLANK, NO_CHAT;
    }

    /** The callbacks of the transport. */
    method Gathered()
      requires Valid()
      modifies `talk, Parts()
      ensures Valid() && talk == old(talk).(ice := old(talk).ice.(gatheringDone := true))
    {
      IceHolds(chat, talk, talk.ice.(gatheringDone := true));
      hide Holds;
      ice.SetGathered();
      talk := talk.(ice := talk.ice.(gatheringDone := true));
    }

    method Connected(pair: Option<bool>)
      requires Valid()
      modifies `talk, Parts()
      ensures
        var was := old(talk).ice;
        && Valid()
        && talk == old(talk).(ice := if pair.None? then was.(ready := true)
                                     else was.(ready := true, pairKnown := true, pairRelayed := pair.value))
    {
      hide Holds;
      ice.SetConnected(pair);
      IceHolds(chat, talk, ice.Value());
      talk := talk.(ice := ice.Value());
    }

    /** A datagram goes into the ring. */
    method Received(packet: Bytes)
      requires Valid()
      modifies `talk, Parts()
      ensures Valid() && talk == old(talk).(ice := Receive(old(talk).ice, packet))
    {
      hide Receive, Holds;
      ice.Receive(packet);
      IceHolds(chat, talk, ice.Value());
      talk := talk.(ice := ice.Value());
    }
  }

  lemma UnsealedLeavesStream(sodium: Crypto.Sodium, s: Crypto.SecretStream, item: Crypto.Item)
    ensures
      var r := Crypto.Encrypt(sodium, s, item, Packet.MAX_MESSAGE_SIZE);
      r.0 != Crypto.Ok ==> r.1 == s
  {
  }

  /** Zeroes the cached handshake message. */
  method ClearMessage(message: array<byte>)
    modifies message
    ensures message[..] == Zeros(message.Length)
  {
    for i := 0 to message.Length
      invariant forall j :: 0 <= j < i ==> message[j] == 0
    {
      message[i] := 0;
    }
  }
}
