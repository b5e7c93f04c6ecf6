/** Where delivered lines come from: datagrams and service calls of the run itself, within one session. */
module Provenance {
  import opened Daemon
  import opened Octets
  import opened Pairing
  import opened Session
  import Contacts
  import Crypto
  import Json
  import Packet
  import Pinning

  // ---------------------------------------------------------------- what a session holds, and from where

  /** The datagrams among some events. */
  function Arrived(events: seq<Event>): set<Bytes> { set e | e in events && e.Datagram? :: e.packet }

  /** The ephemeral keys that service calls among some events offered. */
  function Drawn(events: seq<Event>): set<Key> {
    set e | e in events && e.Service? && e.env.kxSecret.Some? :: e.env.kxSecret.value
  }

  /** The j-th message is what one of the packets opened to, in the state the stream had then. */
  ghost predicate OpenedFrom(
      sodium: Crypto.Sodium, key: Key, header: Nonce, items: seq<Crypto.Item>, j: nat, kind: byte, c: Bytes,
      packets: set<Bytes>)
  {
    && j < |items| && Packet.Frame(kind, c) in packets
    && sodium.open(Crypto.Stream(key, header, items[..j]), c) == Some(items[j])
  }

  ghost predicate Opened(
      sodium: Crypto.Sodium, key: Key, header: Nonce, items: seq<Crypto.Item>, j: nat, packets: set<Bytes>)
  {
    exists kind, c :: OpenedFrom(sodium, key, header, items, j, kind, c, packets)
  }

  ghost predicate AllOpened(sodium: Crypto.Sodium, stream: Crypto.Stream, packets: set<Bytes>) {
    forall j: nat :: j < |stream.items| ==> Opened(sodium, stream.key, stream.header, stream.items, j, packets)
  }

  ghost predicate KxTraced(accepted: seq<Bytes>, secrets: seq<Key>, packets: set<Bytes>, drawn: set<Key>) {
    && (forall m :: m in accepted ==> Packet.Frame(Packet.HANDSHAKE, m) in packets)
    && (forall k :: k in secrets ==> k in drawn)
  }

  ghost predicate PullTraced(sodium: Crypto.Sodium, received: bool, pull: Crypto.Stream, packets: set<Bytes>) {
    received ==> Packet.Frame(Packet.STREAM_HEADER, pull.header) in packets && AllOpened(sodium, pull, packets)
  }

  ghost predicate QueueTraced(queue: seq<Bytes>, packets: set<Bytes>) { forall p :: p in queue ==> p in packets }

  /** Everything that a session holds of the outside world came in one of the packets or is one of the drawn keys. */
  ghost predicate Traced(sodium: Crypto.Sodium, s: State, packets: set<Bytes>, drawn: set<Key>) {
    && KxTraced(s.history.kxAccepted, s.history.kxSecrets, packets, drawn)
    && (s.chat.active ==>
          && QueueTraced(s.chat.ice.queue, packets)
          && PullTraced(sodium, s.chat.headerReceived, s.chat.stream.pull, packets))
  }

  lemma OpenedMore(
      sodium: Crypto.Sodium, key: Key, header: Nonce, items: seq<Crypto.Item>, j: nat, packets: set<Bytes>,
      more: seq<Crypto.Item>, wider: set<Bytes>)
    requires Opened(sodium, key, header, items, j, packets) && items <= more && packets <= wider
    ensures Opened(sodium, key, header, more, j, wider)
  {
    var kind, c :| OpenedFrom(sodium, key, header, items, j, kind, c, packets);
    assert items[..j] == more[..j];
    assert OpenedFrom(sodium, key, header, more, j, kind, c, wider);
  }

  lemma AllOpenedMore(sodium: Crypto.Sodium, stream: Crypto.Stream, packets: set<Bytes>, wider: set<Bytes>)
    requires AllOpened(sodium, stream, packets) && packets <= wider
    ensures AllOpened(sodium, stream, wider)
  {
    hide Opened;
    forall j: nat | j < |stream.items|
      ensures Opened(sodium, stream.key, stream.header, stream.items, j, wider)
    {
      OpenedMore(sodium, stream.key, stream.header, stream.items, j, packets, stream.items, wider);
    }
  }

  /** More packets and keys take nothing away. */
  lemma TracedMore(
      sodium: Crypto.Sodium, s: State, packets: set<Bytes>, drawn: set<Key>, wider: set<Bytes>, further: set<Key>)
    requires Traced(sodium, s, packets, drawn) && packets <= wider && drawn <= further
    ensures Traced(sodium, s, wider, further)
  {
    hide AllOpened;
    if s.chat.active && s.chat.headerReceived {
      AllOpenedMore(sodium, s.chat.stream.pull, packets, wider);
    }
  }

  // ---------------------------------------------------------------- steps that take nothing in

  /** Nothing comes in and nothing is shown. */
  ghost predicate Still(s: State, t: State) {
    && t.history.kxAccepted == s.history.kxAccepted && t.history.kxSecrets == s.history.kxSecrets
    && t.ledger.delivered == s.ledger.delivered
    && (t.chat.active ==>
          && s.chat.active && t.chat.ice.queue == s.chat.ice.queue
          && t.chat.stream.pull == s.chat.stream.pull && t.chat.headerReceived == s.chat.headerReceived)
  }

  /** A session that has done nothing yet, or none at all. */
  predicate Unstarted(s: State) {
    s.history == NO_HISTORY && (s.chat.active ==> s.chat.ice.queue == [] && !s.chat.headerReceived)
  }

  /** A step that takes nothing in, or begins a session. */
  ghost predicate Outside(s: State, t: State) {
    Still(s, t) || (Unstarted(t) && t.ledger.delivered == s.ledger.delivered)
  }

  lemma StillTraced(sodium: Crypto.Sodium, s: State, t: State, packets: set<Bytes>, drawn: set<Key>)
    requires Traced(sodium, s, packets, drawn) && Still(s, t)
    ensures Traced(sodium, t, packets, drawn)
  {
    hide KxTraced, QueueTraced, PullTraced;
  }

  lemma UnstartedTraced(sodium: Crypto.Sodium, s: State, packets: set<Bytes>, drawn: set<Key>)
    requires Unstarted(s)
    ensures Traced(sodium, s, packets, drawn)
  {
  }

  lemma StillTrans(s: State, m: State, t: State)
    requires Still(s, m) && Still(m, t)
    ensures Still(s, t)
  {
  }

  lemma SameChatIsStill(s: State, t: State)
    requires SameChat(s, t)
    ensures Still(s, t)
  {
  }

  lemma SameLinkIsStill(s: State, t: State)
    requires SameLink(s, t) && t.ledger == s.ledger
    ensures Still(s, t)
  {
  }

  lemma FailIsStill(s: State, reason: Reason, env: Env)
    ensures Still(s, Fail(s, reason, env))
  {
    FailWipes(s, reason, env);
    hide Fail;
  }

  lemma FailAfter(s: State, m: State, reason: Reason, env: Env)
    requires Still(s, m)
    ensures Still(s, Fail(m, reason, env))
  {
    hide Still, Fail;
    FailIsStill(m, reason, env);
    StillTrans(s, m, Fail(m, reason, env));
  }

  lemma BeginIsOutside(s: State, peer: string, id: string, controlling: bool, pk: Key, env: Env)
    ensures Outside(s, BeginIce(s, peer, id, controlling, pk, env).0)
  {
    hide Fail, Still;
    var b := Enter(Reset(s), IceNegotiating);
    if |peer| > Packet.USERNAME_MAX {
      var m := b.(chat := b.chat.(peer := Clip(peer, Packet.USERNAME_MAX)));
      InactiveIsStill(s, m);
      FailAfter(s, m, LibraryError, env);
    } else if |id| > 32 {
      var m := b.(chat := b.chat.(peer := peer, sessionId := Clip(id, 32)));
      InactiveIsStill(s, m);
      FailAfter(s, m, LibraryError, env);
    } else if !env.iceStarts {
      var m := b.(chat := b.chat.(
        peer := peer, sessionId := id, remotePk := pk, hasRemotePk := true, controlling := controlling,
        role := if controlling then Crypto.Initiator else Crypto.Responder));
      InactiveIsStill(s, m);
      FailAfter(s, m, Transport, env);
    }
  }

  lemma InactiveIsStill(s: State, t: State)
    requires !t.chat.active && t.history == s.history && t.ledger == s.ledger
    ensures Still(s, t)
  {
  }

  lemma OutsideAfter(s: State, m: State, t: State)
    requires Still(s, m) && Outside(m, t)
    ensures Outside(s, t)
  {
    if Still(m, t) {
      StillTrans(s, m, t);
    }
  }

  lemma VerifyIsStill(s: State, name: string, key: Key, io: Contacts.Io)
    ensures Still(s, Verify(s, name, key, io).0)
  {
    hide Contacts.VerifyOrPin;
  }

  lemma RequestIsOutside(s: State, json: string, env: Env)
    ensures Outside(s, HandleChatRequest(s, json, env))
  {
    hide Still, Unstarted, Verify, QueueBuilt, BeginIce, Json.GetString, Packet.UsernameIsValid, KeyedFields,
      HexToKey, Books;
    SameChatIsStill(s, s);
    var from := Json.GetString(json, "from", 33);
    var id := Json.GetString(json, "session_id", 33);
    var hex := Json.GetString(json, "public_key", 65);
    if from.Some? && id.Some? && hex.Some? && HexToKey(hex.value).Some? {
      var key := HexToKey(hex.value).value;
      VerifyIsStill(s, from.value, key, env.io);
      var s1 := Verify(s, from.value, key, env.io).0;
      var e := Enter(s1, Requesting);
      EnterIsStill(s1, Requesting);
      StillTrans(s, s1, e);
      var fields := KeyedFields("chat_accept", s.id, from.value, id.value);
      QueueKeepsCore(e, fields, 512);
      var s2 := QueueBuilt(e, fields, 512).0;
      SameChatIsStill(e, s2);
      StillTrans(s, e, s2);
      BeginIsOutside(s2, from.value, id.value, false, key, env);
      OutsideAfter(s, s2, BeginIce(s2, from.value, id.value, false, key, env).0);
    }
  }

  lemma EnterIsStill(s: State, next: SessionState)
    ensures Still(s, Enter(s, next))
  {
  }

  lemma RespondIsStill(s: State, m: State, line: CliLine)
    requires Still(s, m)
    ensures Still(s, Respond(m, line))
  {
    hide Still, Respond, Books;
    RespondKeepsCore(m, line);
    SameChatIsStill(m, Respond(m, line));
    StillTrans(s, m, Respond(m, line));
  }

  lemma RespondIsOutside(s: State, m: State, line: CliLine)
    requires Outside(s, m)
    ensures Outside(s, Respond(m, line))
  {
    RespondKeepsCore(m, line);
    if Still(s, m) {
      RespondIsStill(s, m, line);
    }
    hide Still, Respond, Books;
  }

  lemma AcceptIsOutside(s: State, json: string, env: Env)
    ensures Outside(s, HandleChatAccept(s, json, env))
  {
    hide Still, Unstarted, Verify, QueueBuilt, Respond, BeginIce, Json.GetString, PeerFields, HexToKey, Books;
    SameChatIsStill(s, s);
    var from := Json.GetString(json, "from", 33);
    var id := Json.GetString(json, "session_id", 33);
    var hex := Json.GetString(json, "public_key", 65);
    if from.Some? && id.Some? && hex.Some? && HexToKey(hex.value).Some? {
      var key := HexToKey(hex.value).value;
      VerifyIsStill(s, from.value, key, env.io);
      var s1 := Verify(s, from.value, key, env.io).0;
      RespondIsStill(s, s1, CliError(ContactVerificationFailed));
      var fields := PeerFields("chat_cancel", s.id, from.value, id.value);
      QueueKeepsCore(s1, fields, 384);
      var q := QueueBuilt(s1, fields, 384).0;
      SameChatIsStill(s1, q);
      StillTrans(s, s1, q);
      RespondIsStill(s, q, IdentityMismatch(from.value));
      BeginIsOutside(s1, from.value, id.value, true, key, env);
      var s2 := BeginIce(s1, from.value, id.value, true, key, env).0;
      OutsideAfter(s, s1, s2);
      RespondIsOutside(s, s2, IceFailed(from.value));
    }
  }

  lemma CredentialsAreStill(sodium: Crypto.Sodium, s: State, json: string, env: Env)
    ensures Still(s, HandleIceCredentials(sodium, s, json, env))
  {
    hide Json.GetString, Matches;
  }

  lemma CancelIsStill(s: State, json: string)
    ensures Still(s, HandleChatCancel(s, json))
  {
    hide Matches;
  }

  lemma MessageIsOutside(sodium: Crypto.Sodium, s: State, json: string, env: Env)
    ensures Outside(s, HandleReceive(sodium, s, json, env))
  {
    hide Still, Unstarted, HandleChatRequest, HandleChatAccept, HandleIceCredentials, HandleChatCancel,
      HandleUserStatus, HandleError,
      HandleChallenge, QueueBuilt, HelloFields, Json.GetString, Books;
    SameChatIsStill(s, s);
    RequestIsOutside(s, json, env);
    AcceptIsOutside(s, json, env);
    CredentialsAreStill(sodium, s, json, env);
    CancelIsStill(s, json);
    StatusKeepsCore(s, json);
    ErrorKeepsCore(s, json);
    ChallengeKeepsCore(sodium, s, json);
    var greeting := s.(phase := Greeting);
    QueueKeepsCore(greeting, HelloFields(s.id), 128);
    SameChatIsStill(s, HandleUserStatus(s, json));
    SameChatIsStill(s, HandleError(s, json));
    SameChatIsStill(s, HandleChallenge(sodium, s, json));
    SameChatIsStill(s, QueueBuilt(greeting, HelloFields(s.id), 128).0);
    SameChatIsStill(s, s.(challenge := None, phase := Online));
  }

  // ---------------------------------------------------------------- client commands

  lemma SealIsStill(sodium: Crypto.Sodium, s: State, kind: byte, item: Crypto.Item, leaves: bool)
    ensures Still(s, SendEncrypted(sodium, s, kind, item, leaves).0)
  {
    hide Packet.Frame, Packet.Encode;
  }

  lemma CommandIsStill(sodium: Crypto.Sodium, s: State, line: string, leaves: bool)
    ensures Still(s, OneCommand(sodium, s, line, leaves))
  {
    hide Still, SendEncrypted, TextIsValid, Ascii;
    SameChatIsStill(s, s);
    var item := Crypto.Item(Ascii(line[if SEND <= line then |SEND| else 0..]), Crypto.TAG_MESSAGE);
    SealIsStill(sodium, s, Packet.MESSAGE, item, leaves);
    var sent := SendText(sodium, s, item.text, leaves).0;
    SameChatIsStill(sent, Write(sent, CliError(SendFailed)));
    StillTrans(s, sent, Write(sent, CliError(SendFailed)));
    SameChatIsStill(s, Write(s, CliError(UnknownCommand)));
  }

  lemma HangUpIsStill(sodium: Crypto.Sodium, s: State, leaves: bool)
    ensures Still(s, HangUp(SendClose(sodium, s, leaves), Closed)) && Still(s, HangUp(s, Failed))
  {
    hide SendEncrypted;
    SealIsStill(sodium, Enter(s, Closing), Packet.CLOSE, Crypto.Item([], Crypto.TAG_FINAL), leaves);
  }

  lemma {:induction false} CommandsAreStill(sodium: Crypto.Sodium, s: State, text: string, i: nat, n: nat, env: Env)
    requires i <= |text|
    ensures Still(s, Commands(sodium, s, text, i, n, env))
    decreases |text| - i
  {
    hide Still, OneCommand, HangUp, SendClose;
    SameChatIsStill(s, s);
    if !(i == |text| || s.client.None? || !s.chat.active) {
      var end := LineEnd(text, i);
      HangUpIsStill(sodium, s, Flag(env.sends, n));
      CommandIsStill(sodium, s, text[i..end], Flag(env.sends, n));
      if text[i..end] != "CLOSE_CHAT" && end < |text| {
        var next := OneCommand(sodium, s, text[i..end], Flag(env.sends, n));
        CommandsAreStill(sodium, next, text, SkipLineEnds(text, end + 1), n + 1, env);
        StillTrans(s, next, Commands(sodium, next, text, SkipLineEnds(text, end + 1), n + 1, env));
      }
    }
  }

  lemma ClientIsStill(sodium: Crypto.Sodium, s: State, input: Input, env: Env)
    ensures Still(s, ServiceClient(sodium, s, input, env))
  {
    hide Still, Commands, HangUp, SendClose;
    SameChatIsStill(s, s);
    HangUpIsStill(sodium, s, Flag(env.sends, 0));
    if input.Command? {
      CommandsAreStill(sodium, s, CString(input.text), 0, 0, env);
    }
  }

  lemma AskIsStill(s: State, fd: int, peer: string, env: Env)
    ensures Still(s, AskPeer(s, fd, peer, env))
  {
    hide KeyedFields, Json.Render;
  }

  lemma OpenChatIsStill(s: State, fd: int, peer: string, env: Env)
    ensures Still(s, OpenChat(s, fd, peer, env))
  {
    hide Still, AskPeer, Packet.UsernameIsValid;
    AskIsStill(s, fd, peer, env);
    SameChatIsStill(s, Attach(s, fd));
    SameChatIsStill(s, Tell(s, fd, CliError(InvalidUsername)));
    SameChatIsStill(s, Tell(s, fd, CliError(DaemonNotOnline)));
    SameChatIsStill(s, Tell(s, fd, UserOnline(peer)));
    SameChatIsStill(s, Tell(s, fd, CliError(Busy)));
  }

  /** Only datagrams and service calls bring anything into a session, and only service calls show anything. */
  lemma OthersAreOutside(sodium: Crypto.Sodium, s: State, e: Event)
    requires !e.Service? && !e.Datagram?
    ensures Outside(s, Step(sodium, s, e))
  {
    hide Still, Unstarted, HandleReceive, OpenChat, ServiceClient, QueueBuilt, RegisterFields, Respond, OnIce, Books;
    match e
    case Established =>
      var c := s.(wsi := true, connected := true, phase := Registering);
      QueueKeepsCore(c, RegisterFields(s.id), 512);
      SameChatIsStill(s, QueueBuilt(c, RegisterFields(s.id), 512).0);
    case ServerMessage(json, env) =>
      MessageIsOutside(sodium, s, CString(json), env);
      SameChatIsStill(s, s.(phase := Broken));
    case Writeable(written) => SameChatIsStill(s, Step(sodium, s, e));
    case ConnectionError =>
      RespondKeepsCore(s.(wsi := false, connected := false), CliError(ServerUnavailable));
      SameChatIsStill(s, Step(sodium, s, e));
    case Disconnected =>
      RespondKeepsCore(s.(wsi := false, connected := false, challenge := None), CliError(ServerDisconnected));
      SameChatIsStill(s, Step(sodium, s, e));
    case OpenChatCommand(fd, peer, env) => OpenChatIsStill(s, fd, peer, env);
    case ClientInput(input, env) => ClientIsStill(sodium, s, input, env);
    case GatheringDone => CallbackIsStill(s, s.chat.ice.(gatheringDone := true));
    case Connected(pair) =>
      CallbackIsStill(s, s.chat.ice.(ready := true));
      if pair.Some? {
        CallbackIsStill(s, s.chat.ice.(ready := true, pairKnown := true, pairRelayed := pair.value));
      }
    case TransportFailed => CallbackIsStill(s, s.chat.ice.(failed := true));
  }

  lemma CallbackIsStill(s: State, ice: Ice)
    requires ice.queue == s.chat.ice.queue
    ensures Still(s, OnIce(s, ice))
  {
  }

  // ---------------------------------------------------------------- datagrams

  /** A datagram waits in the queue, perhaps at the cost of the oldest one. */
  lemma ArrivalIsTraced(sodium: Crypto.Sodium, s: State, packet: Bytes, packets: set<Bytes>, drawn: set<Key>)
    requires Traced(sodium, s, packets, drawn) && packet in packets
    ensures Traced(sodium, OnIce(s, Receive(s.chat.ice, packet)), packets, drawn)
  {
    hide KxTraced, PullTraced;
  }

  lemma HandshakeIsTraced(sodium: Crypto.Sodium, s: State, payload: Bytes, packets: set<Bytes>, drawn: set<Key>)
    requires Traced(sodium, s, packets, drawn) && Packet.Frame(Packet.HANDSHAKE, payload) in packets
    ensures Traced(sodium, HandleHandshake(sodium, s, payload).0, packets, drawn)
  {
    hide QueueTraced, PullTraced, KxTraced, Crypto.Finish, Packet.Frame, FinishHandshake;
    if |payload| == Crypto.KX_MESSAGE_BYTES {
      FinishKeeps(sodium, s, payload);
      MoreKxIsTraced(s.history.kxAccepted, s.history.kxSecrets, payload, packets, drawn);
    }
  }

  lemma FinishKeeps(sodium: Crypto.Sodium, s: State, payload: Bytes)
    requires |payload| == Crypto.KX_MESSAGE_BYTES
    ensures
      var t := FinishHandshake(sodium, s, payload).0;
      && (t.history == s.history || t.history == s.history.(kxAccepted := s.history.kxAccepted + [payload]))
      && t.chat.active == s.chat.active && t.chat.ice == s.chat.ice && t.chat.stream == s.chat.stream
      && t.chat.headerReceived == s.chat.headerReceived
  {
    hide Crypto.Finish;
  }

  lemma MoreKxIsTraced(accepted: seq<Bytes>, secrets: seq<Key>, m: Bytes, packets: set<Bytes>, drawn: set<Key>)
    requires KxTraced(accepted, secrets, packets, drawn) && Packet.Frame(Packet.HANDSHAKE, m) in packets
    ensures KxTraced(accepted + [m], secrets, packets, drawn)
  {
    hide Packet.Frame;
  }

  lemma HeaderIsTraced(sodium: Crypto.Sodium, s: State, payload: Bytes, packets: set<Bytes>, drawn: set<Key>)
    requires Traced(sodium, s, packets, drawn) && Packet.Frame(Packet.STREAM_HEADER, payload) in packets
    ensures Traced(sodium, HandleHeader(s, payload).0, packets, drawn)
  {
    hide KxTraced, QueueTraced, Packet.Frame;
  }

  lemma AdvanceIsOpened(
      sodium: Crypto.Sodium, stream: Crypto.Stream, item: Crypto.Item, kind: byte, c: Bytes, packets: set<Bytes>)
    requires AllOpened(sodium, stream, packets) && Packet.Frame(kind, c) in packets
      && sodium.open(stream, c) == Some(item)
    ensures AllOpened(sodium, Crypto.Advance(stream, item), packets)
  {
    hide Packet.Frame, Opened;
    var next := Crypto.Advance(stream, item);
    forall j: nat | j < |next.items|
      ensures Opened(sodium, next.key, next.header, next.items, j, packets)
    {
      if j < |stream.items| {
        OpenedMore(sodium, stream.key, stream.header, stream.items, j, packets, next.items, packets);
      } else {
        assert next.items[..j] == stream.items;
        assert OpenedFrom(sodium, next.key, next.header, next.items, j, kind, c, packets);
        LastOpened(sodium, next, j, kind, c, packets);
      }
    }
  }

  lemma LastOpened(sodium: Crypto.Sodium, stream: Crypto.Stream, j: nat, kind: byte, c: Bytes, packets: set<Bytes>)
    requires OpenedFrom(sodium, stream.key, stream.header, stream.items, j, kind, c, packets)
    ensures Opened(sodium, stream.key, stream.header, stream.items, j, packets)
  {
  }

  lemma MessageIsTraced(
      sodium: Crypto.Sodium, s: State, kind: byte, payload: Bytes, arrives: bool, packets: set<Bytes>, drawn: set<Key>)
    requires Traced(sodium, s, packets, drawn) && s.chat.active && s.chat.headerReceived
    requires Packet.Frame(kind, payload) in packets
    ensures Traced(sodium, OpenPayload(sodium, s, kind, payload, arrives).0, packets, drawn)
  {
    hide KxTraced, QueueTraced, AllOpened, Packet.Frame;
    var r := Crypto.Decrypt(sodium, s.chat.stream, payload, Packet.MAX_MESSAGE_SIZE);
    if r.0 == Crypto.Ok {
      AdvanceIsOpened(sodium, s.chat.stream.pull, r.2, kind, payload, packets);
      OpenOutcome(sodium, s, kind, payload, arrives);
      assert r.1.pull == Crypto.Advance(s.chat.stream.pull, r.2);
      hide OpenPayload, Crypto.Decrypt;
    }
  }

  lemma PacketIsTraced(
      sodium: Crypto.Sodium, s: State, packet: Bytes, arrives: bool, packets: set<Bytes>, drawn: set<Key>)
    requires Live(sodium, s) && Traced(sodium, s, packets, drawn) && packet in packets
    ensures Traced(sodium, HandlePacket(sodium, s, packet, arrives).0, packets, drawn)
  {
    assert s.chat.active && (s.chat.ready ==> s.chat.headerReceived) by { hide Traced; }
    hide Live, Traced, HandleHandshake, HandleHeader, OpenPayload, Packet.Decode, Packet.Frame;
    var header := Packet.Decode(packet);
    if header.Ok? && |packet| == Packet.HEADER_SIZE + header.value.length {
      Packet.DecodeIsCanonical(packet);
      var payload := packet[Packet.HEADER_SIZE..];
      if header.value.kind == Packet.HANDSHAKE {
        HandshakeIsTraced(sodium, s, payload, packets, drawn);
      } else if header.value.kind == Packet.STREAM_HEADER {
        HeaderIsTraced(sodium, s, payload, packets, drawn);
      } else if s.chat.ready {
        MessageIsTraced(sodium, s, header.value.kind, payload, arrives, packets, drawn);
      }
    }
  }

  lemma PopIsTraced(sodium: Crypto.Sodium, s: State, packets: set<Bytes>, drawn: set<Key>)
    requires Traced(sodium, s, packets, drawn) && s.chat.active && s.chat.ice.queue != []
    ensures Traced(sodium, Pop(s), packets, drawn) && s.chat.ice.queue[0] in packets
  {
    hide KxTraced, PullTraced;
  }

  lemma ProcessIsTraced(sodium: Crypto.Sodium, s: State, arrives: bool, packets: set<Bytes>, drawn: set<Key>)
    requires Live(sodium, s) && Traced(sodium, s, packets, drawn)
    ensures Traced(sodium, Process(sodium, s, arrives).0, packets, drawn)
  {
    hide Live, Traced, HandlePacket;
    if s.chat.ice.queue != [] {
      LiveFacts(sodium, s);
      PopIsLive(sodium, s);
      PopIsTraced(sodium, s, packets, drawn);
      PacketIsTraced(sodium, Pop(s), s.chat.ice.queue[0], arrives, packets, drawn);
    }
  }

  // ---------------------------------------------------------------- service calls

  lemma InitIsTraced(sodium: Crypto.Sodium, s: State, env: Env, packets: set<Bytes>, drawn: set<Key>)
    requires Traced(sodium, s, packets, drawn) && (env.kxSecret.Some? ==> env.kxSecret.value in drawn)
    ensures Traced(sodium, InitHandshake(sodium, s, env).0, packets, drawn)
  {
    hide QueueTraced, PullTraced, Crypto.KxMessage, Ascii;
  }

  lemma ResendIsTraced(sodium: Crypto.Sodium, s: State, env: Env, packets: set<Bytes>, drawn: set<Key>)
    requires Traced(sodium, s, packets, drawn)
    ensures Traced(sodium, ResendHandshake(s, env).0, packets, drawn)
  {
    hide KxTraced, QueueTraced, PullTraced, Packet.Frame, Packet.Encode;
  }

  lemma ShakeIsTraced(sodium: Crypto.Sodium, s: State, env: Env, packets: set<Bytes>, drawn: set<Key>)
    requires Traced(sodium, s, packets, drawn) && (env.kxSecret.Some? ==> env.kxSecret.value in drawn)
    ensures Traced(sodium, SetupHandshake(sodium, s, env).0, packets, drawn)
  {
    hide Traced, InitHandshake, ResendHandshake, Still;
    var e := Enter(s, CryptoHandshake);
    EnterIsStill(s, CryptoHandshake);
    StillTraced(sodium, s, e, packets, drawn);
    ResendIsTraced(sodium, e, env, packets, drawn);
    InitIsTraced(sodium, e, env, packets, drawn);
    ResendIsTraced(sodium, InitHandshake(sodium, e, env).0, env, packets, drawn);
  }

  lemma HeaderIsStill(s: State, env: Env)
    ensures Still(s, SetupHeader(s, env).0)
  {
    hide ResendHeader;
    ResendHeaderEffect(s, env);
    ResendKeepsLedger(s, env);
    if env.header.Some? {
      ResendHeaderEffect(StartPush(s, env.header.value), env);
      ResendKeepsLedger(StartPush(s, env.header.value), env);
    }
  }

  lemma ResendKeepsLedger(s: State, env: Env)
    ensures ResendHeader(s, env).0.ledger == s.ledger
  {
  }

  lemma RoundIsTraced(sodium: Crypto.Sodium, s: State, env: Env, packets: set<Bytes>, drawn: set<Key>)
    requires Sound(sodium, s) && s.chat.active && !s.chat.ready && s.chat.cliNotified
    requires Traced(sodium, s, packets, drawn) && (env.kxSecret.Some? ==> env.kxSecret.value in drawn)
    ensures Traced(sodium, SetupRound(sodium, s, env).0, packets, drawn)
  {
    hide Live, NeverRekeys, Process, SetupHandshake, SetupHeader, Traced, Still;
    assert !s.chat.headerReceived && s.session != Secure;
    SetupHandshakeIsLive(sodium, s, env);
    ShakeIsTraced(sodium, s, env, packets, drawn);
    var (s1, o1) := SetupHandshake(sodium, s, env);
    if o1 == Done {
      ProcessSetup(sodium, s1, Flag(env.writes, 0));
      ProcessIsTraced(sodium, s1, Flag(env.writes, 0), packets, drawn);
      var (s2, ok2) := Process(sodium, s1, Flag(env.writes, 0));
      if ok2 {
        HeaderIsLive(sodium, s2, env);
        HeaderIsStill(s2, env);
        var (s3, o3) := SetupHeader(s2, env);
        StillTraced(sodium, s2, s3, packets, drawn);
        if o3 == Done {
          ProcessIsTraced(sodium, s3, Flag(env.writes, 1), packets, drawn);
        }
      }
    }
  }

  lemma FailIsTraced(sodium: Crypto.Sodium, s: State, reason: Reason, env: Env, packets: set<Bytes>, drawn: set<Key>)
    requires Traced(sodium, s, packets, drawn)
    ensures Traced(sodium, Fail(s, reason, env), packets, drawn)
  {
    hide Traced, Fail, Still;
    FailIsStill(s, reason, env);
    StillTraced(sodium, s, Fail(s, reason, env), packets, drawn);
  }

  lemma SecureIsStill(s: State)
    ensures Still(s, BecomeSecure(s))
  {
  }

  lemma SetupIsTraced(sodium: Crypto.Sodium, s: State, env: Env, packets: set<Bytes>, drawn: set<Key>)
    requires Sound(sodium, s) && s.chat.active && !s.chat.ready && s.chat.cliNotified
    requires Traced(sodium, s, packets, drawn) && (env.kxSecret.Some? ==> env.kxSecret.value in drawn)
    ensures Traced(sodium, ServiceSetup(sodium, s, env), packets, drawn)
  {
    hide Sound, Traced, Fail, SetupRound, BecomeSecure, Still;
    FailIsTraced(sodium, s, NoRemoteKey, env, packets, drawn);
    FailIsTraced(sodium, s, Timeout, env, packets, drawn);
    RoundIsTraced(sodium, s, env, packets, drawn);
    var (t, failed) := SetupRound(sodium, s, env);
    if failed.Some? {
      FailIsTraced(sodium, t, failed.value, env, packets, drawn);
    } else {
      SecureIsStill(t);
      StillTraced(sodium, t, BecomeSecure(t), packets, drawn);
    }
  }

  lemma {:induction false} DrainIsTraced(
      sodium: Crypto.Sodium, s: State, n: nat, env: Env, packets: set<Bytes>, drawn: set<Key>)
    requires Sound(sodium, s) && (s.chat.active ==> s.chat.ready) && Traced(sodium, s, packets, drawn)
    ensures Traced(sodium, Drain(sodium, s, n, env), packets, drawn)
    decreases n
  {
    hide Sound, Traced, Process, Fail;
    if n > 0 {
      if s.chat.active {
        ActiveIsLive(sodium, s);
        ProcessIsTraced(sodium, s, Flag(env.writes, n), packets, drawn);
      } else {
        IdleProcess(sodium, s, Flag(env.writes, n));
      }
      ProcessReady(sodium, s, Flag(env.writes, n));
      var (next, ok) := Process(sodium, s, Flag(env.writes, n));
      FailIsTraced(sodium, next, Rejected, env, packets, drawn);
      if ok {
        DrainIsTraced(sodium, next, n - 1, env, packets, drawn);
      }
    }
  }

  lemma CryptoIsTraced(sodium: Crypto.Sodium, s: State, env: Env, packets: set<Bytes>, drawn: set<Key>)
    requires Sound(sodium, s) && s.chat.active && s.chat.cliNotified
    requires Traced(sodium, s, packets, drawn) && (env.kxSecret.Some? ==> env.kxSecret.value in drawn)
    ensures Traced(sodium, ServiceCrypto(sodium, s, env), packets, drawn)
  {
    hide Sound, Traced, Drain, ServiceSetup;
    if s.chat.ready {
      DrainIsTraced(sodium, s, QUEUE_CAPACITY, env, packets, drawn);
    } else {
      SetupIsTraced(sodium, s, env, packets, drawn);
    }
  }

  /** Up to the key exchange, a service call takes nothing in. */
  lemma NotedIsStill(sodium: Crypto.Sodium, s: State, env: Env)
    requires Sound(sodium, s) && s.chat.active
    ensures
      var s1 := ApplyPendingSdp(s, env).0;
      var s2 := QueueLocalSdp(s1, env).0;
      Still(s, s1) && Still(s, s2) && Still(s, NoteConnected(s2, env))
  {
    hide Sound, SameLink, Still, ApplyPendingSdp, QueueLocalSdp, NoteConnected, Books;
    var s1 := ApplyPendingSdp(s, env).0;
    var s2 := QueueLocalSdp(s1, env).0;
    var s3 := NoteConnected(s2, env);
    ServiceLinks(s, env);
    PendingSdpIsSound(sodium, s, env);
    LocalSdpIsSound(sodium, s1, env);
    NoteConnectedIsSound(sodium, s2, env);
    SameLinkIsStill(s, s1);
    SameLinkIsStill(s, s2);
    SameLinkIsStill(s, s3);
  }

  lemma ServiceIsTraced(sodium: Crypto.Sodium, s: State, env: Env, packets: set<Bytes>, drawn: set<Key>)
    requires Good(sodium, s)
    requires Traced(sodium, s, packets, drawn) && (env.kxSecret.Some? ==> env.kxSecret.value in drawn)
    ensures Traced(sodium, ServiceIce(sodium, s, env), packets, drawn)
  {
    hide Good, Sound, Traced, Still, Fail, ApplyPendingSdp, QueueLocalSdp, NoteConnected, ServiceCrypto, Books;
    if s.chat.active {
      GoodFacts(sodium, s);
      var s1 := ApplyPendingSdp(s, env).0;
      var s2 := QueueLocalSdp(s1, env).0;
      var s3 := NoteConnected(s2, env);
      PendingSdpIsSound(sodium, s, env);
      LocalSdpIsSound(sodium, s1, env);
      NoteConnectedIsSound(sodium, s2, env);
      NotedIsStill(sodium, s, env);
      StillTraced(sodium, s, s1, packets, drawn);
      StillTraced(sodium, s, s2, packets, drawn);
      StillTraced(sodium, s, s3, packets, drawn);
      FailIsTraced(sodium, s, Timeout, env, packets, drawn);
      FailIsTraced(sodium, s1, Transport, env, packets, drawn);
      FailIsTraced(sodium, s2, Transport, env, packets, drawn);
      FailIsTraced(sodium, s2, Timeout, env, packets, drawn);
      CryptoIsTraced(sodium, s3, env, packets, drawn);
    }
  }

  /** Every event: what it brings in is its own datagram or its own ephemeral key. */
  lemma StepIsTraced(sodium: Crypto.Sodium, s: State, e: Event, packets: set<Bytes>, drawn: set<Key>)
    requires Good(sodium, s) && Traced(sodium, s, packets, drawn)
    requires e.Datagram? ==> e.packet in packets
    requires e.Service? && e.env.kxSecret.Some? ==> e.env.kxSecret.value in drawn
    ensures Traced(sodium, Step(sodium, s, e), packets, drawn)
  {
    hide Good, Traced, Still, Unstarted, ServiceIce, Receive, OnIce;
    if e.Service? {
      ServiceIsTraced(sodium, s, e.env, packets, drawn);
    } else if e.Datagram? {
      ArrivalIsTraced(sodium, s, e.packet, packets, drawn);
    } else {
      OthersAreOutside(sodium, s, e);
      var t := Step(sodium, s, e);
      if Still(s, t) {
        StillTraced(sodium, s, t, packets, drawn);
      } else {
        UnstartedTraced(sodium, t, packets, drawn);
      }
    }
  }

  // ---------------------------------------------------------------- lines shown

  function InQueue(s: State): set<Bytes> { set p | p in s.chat.ice.queue }

  /** The part of a ready session that a line depends on. */
  ghost predicate SameView(s: State, t: State) {
    && t.chat.ready == s.chat.ready && t.client == s.client && t.chat.peer == s.chat.peer
    && t.chat.keys == s.chat.keys && t.chat.stream.pull.header == s.chat.stream.pull.header
  }

  /** Between `s` and `t` a ready session took some messages from its queue, in order. */
  ghost predicate Took(sodium: Crypto.Sodium, s: State, t: State) {
    && s.history.accepted <= t.history.accepted && s.ledger.delivered <= t.ledger.delivered
    && forall k: nat :: |s.history.accepted| <= k < |t.history.accepted| ==>
         Opened(sodium, s.chat.keys.rx, s.chat.stream.pull.header, t.history.accepted, k, InQueue(s))
  }

  /** The line is the j-th message of the session as one line, written to the client of the session under the peer's
      name, and that message was opened from a queued MESSAGE datagram. */
  ghost predicate Written(sodium: Crypto.Sodium, s: State, t: State, d: Delivery, j: nat, c: Bytes) {
    && s.chat.ready && s.client == Some(d.fd) && s.chat.peer == d.peer
    && |s.history.accepted| <= j
    && OpenedFrom(
         sodium, s.chat.keys.rx, s.chat.stream.pull.header, t.history.accepted, j, Packet.MESSAGE, c, InQueue(s))
    && t.history.accepted[j].tag == Crypto.TAG_MESSAGE && d.text == OneLine(t.history.accepted[j].text)
  }

  ghost predicate IsWritten(sodium: Crypto.Sodium, s: State, t: State, d: Delivery) {
    exists j: nat, c :: Written(sodium, s, t, d, j, c)
  }

  ghost predicate AllWritten(sodium: Crypto.Sodium, s: State, t: State) {
    forall i: nat :: |s.ledger.delivered| <= i < |t.ledger.delivered| ==> IsWritten(sodium, s, t, t.ledger.delivered[i])
  }

  /** A service step of a ready session. */
  ghost predicate Served(sodium: Crypto.Sodium, s: State, t: State) { Took(sodium, s, t) && AllWritten(sodium, s, t) }

  lemma UnshownIsServed(sodium: Crypto.Sodium, s: State, t: State)
    requires t.history.accepted == s.history.accepted && t.ledger.delivered == s.ledger.delivered
    ensures Served(sodium, s, t)
  {
  }

  /** Two steps in a row, the first of which left the session up. */
  lemma ServedTrans(sodium: Crypto.Sodium, s: State, m: State, t: State)
    requires Served(sodium, s, m) && Served(sodium, m, t)
    requires SameView(s, m) && InQueue(m) <= InQueue(s)
    ensures Served(sodium, s, t)
  {
    TookTrans(sodium, s, m, t);
    forall i: nat | |s.ledger.delivered| <= i < |t.ledger.delivered|
      ensures IsWritten(sodium, s, t, t.ledger.delivered[i])
    {
      hide Took, InQueue;
      var d := t.ledger.delivered[i];
      if i < |m.ledger.delivered| {
        TookFacts(sodium, m, t);
        assert IsWritten(sodium, s, m, m.ledger.delivered[i]);
        WrittenLater(sodium, s, m, t, d);
      } else {
        assert IsWritten(sodium, m, t, d);
        TookFacts(sodium, s, m);
        WrittenEarlier(sodium, s, m, t, d);
      }
    }
  }

  lemma TookFacts(sodium: Crypto.Sodium, s: State, t: State)
    requires Took(sodium, s, t)
    ensures s.history.accepted <= t.history.accepted && s.ledger.delivered <= t.ledger.delivered
  {
  }

  lemma WrittenLater(sodium: Crypto.Sodium, s: State, m: State, t: State, d: Delivery)
    requires IsWritten(sodium, s, m, d) && m.history.accepted <= t.history.accepted
    ensures IsWritten(sodium, s, t, d)
  {
    hide InQueue, OneLine, Packet.Frame;
    var j: nat, c :| Written(sodium, s, m, d, j, c);
    assert t.history.accepted[..j] == m.history.accepted[..j];
    assert Written(sodium, s, t, d, j, c);
  }

  lemma WrittenEarlier(sodium: Crypto.Sodium, s: State, m: State, t: State, d: Delivery)
    requires IsWritten(sodium, m, t, d) && SameView(s, m) && InQueue(m) <= InQueue(s)
    requires s.history.accepted <= m.history.accepted
    ensures IsWritten(sodium, s, t, d)
  {
    hide InQueue, OneLine, Packet.Frame;
    var j: nat, c :| Written(sodium, m, t, d, j, c);
    assert Written(sodium, s, t, d, j, c);
  }

  lemma TookTrans(sodium: Crypto.Sodium, s: State, m: State, t: State)
    requires Took(sodium, s, m) && Took(sodium, m, t) && SameView(s, m) && InQueue(m) <= InQueue(s)
    ensures Took(sodium, s, t)
  {
    hide Opened, InQueue;
    forall k: nat | |s.history.accepted| <= k < |t.history.accepted|
      ensures Opened(sodium, s.chat.keys.rx, s.chat.stream.pull.header, t.history.accepted, k, InQueue(s))
    {
      var key, header := s.chat.keys.rx, s.chat.stream.pull.header;
      if k < |m.history.accepted| {
        OpenedMore(sodium, key, header, m.history.accepted, k, InQueue(s), t.history.accepted, InQueue(s));
      } else {
        OpenedMore(sodium, key, header, t.history.accepted, k, InQueue(m), t.history.accepted, InQueue(s));
      }
    }
  }

  /** What a decrypted payload shows, and to whom. */
  lemma OpenShows(sodium: Crypto.Sodium, s: State, kind: byte, payload: Bytes, arrives: bool)
    requires Crypto.Decrypt(sodium, s.chat.stream, payload, Packet.MAX_MESSAGE_SIZE).0 == Crypto.Ok
    ensures
      var item := Crypto.Decrypt(sodium, s.chat.stream, payload, Packet.MAX_MESSAGE_SIZE).2;
      var t := OpenPayload(sodium, s, kind, payload, arrives).0;
      || t.ledger.delivered == s.ledger.delivered
      || (&& kind == Packet.MESSAGE && item.tag == Crypto.TAG_MESSAGE && s.client.Some?
          && t.ledger.delivered == s.ledger.delivered + [Delivery(s.client.value, s.chat.peer, OneLine(item.text))])
  {
    hide Crypto.Decrypt, OneLine;
  }

  lemma OpenIsSeen(sodium: Crypto.Sodium, s: State, kind: byte, payload: Bytes, arrives: bool)
    ensures
      var t := OpenPayload(sodium, s, kind, payload, arrives).0;
      t.chat.active ==> SameView(s, t) && t.chat.ice.queue == s.chat.ice.queue
  {
    hide WriteMessage, CloseByPeer;
    var r := Crypto.Decrypt(sodium, s.chat.stream, payload, Packet.MAX_MESSAGE_SIZE);
    assert r.1.pull.header == s.chat.stream.pull.header;
    hide Crypto.Decrypt;
    var o := s.(chat := s.chat.(stream := r.1), history := s.history.(accepted := s.history.accepted + [r.2]));
    WriteKeepsChat(o, r.2.text, arrives);
    assert !CloseByPeer(o).chat.active by { ClosedIsInactive(o); }
  }

  lemma WriteKeepsChat(s: State, text: Bytes, arrives: bool)
    ensures var t := WriteMessage(s, text, arrives).0; t.chat == s.chat && t.client == s.client
  {
  }

  lemma ClosedIsInactive(s: State)
    ensures !CloseByPeer(s).chat.active
  {
  }

  /** One message of a ready session. */
  lemma OpenIsServed(sodium: Crypto.Sodium, s: State, q: State, kind: byte, payload: Bytes, arrives: bool)
    requires SameView(s, q) && q.history == s.history && q.ledger == s.ledger && s.chat.ready
    requires q.chat.stream.pull == Crypto.Stream(q.chat.keys.rx, q.chat.stream.pull.header, q.history.accepted)
    requires Packet.Frame(kind, payload) in InQueue(s)
    ensures
      var t := OpenPayload(sodium, q, kind, payload, arrives).0;
      Served(sodium, s, t) && (t.chat.active ==> SameView(s, t))
  {
    hide InQueue, OneLine, Packet.Frame, Served, WriteMessage, CloseByPeer;
    var t := OpenPayload(sodium, q, kind, payload, arrives).0;
    var r := Crypto.Decrypt(sodium, q.chat.stream, payload, Packet.MAX_MESSAGE_SIZE);
    OpenIsSeen(sodium, q, kind, payload, arrives);
    if r.0 == Crypto.Ok {
      assert sodium.open(q.chat.stream.pull, payload) == Some(r.2);
      OpenOutcome(sodium, q, kind, payload, arrives);
      OpenShows(sodium, q, kind, payload, arrives);
      hide OpenPayload, Crypto.Decrypt;
      OneIsServed(sodium, s, t, kind, payload, r.2);
    } else {
      UnshownIsServed(sodium, s, t);
    }
  }

  lemma OneIsServed(sodium: Crypto.Sodium, s: State, t: State, kind: byte, c: Bytes, item: Crypto.Item)
    requires s.chat.ready && Packet.Frame(kind, c) in InQueue(s)
    requires sodium.open(Crypto.Stream(s.chat.keys.rx, s.chat.stream.pull.header, s.history.accepted), c) == Some(item)
    requires t.history.accepted == s.history.accepted + [item]
    requires
      || t.ledger.delivered == s.ledger.delivered
      || (&& kind == Packet.MESSAGE && item.tag == Crypto.TAG_MESSAGE && s.client.Some?
          && t.ledger.delivered == s.ledger.delivered + [Delivery(s.client.value, s.chat.peer, OneLine(item.text))])
    ensures Served(sodium, s, t)
  {
    hide InQueue, OneLine, Packet.Frame;
    var n := |s.history.accepted|;
    assert t.history.accepted[..n] == s.history.accepted;
    var key, header := s.chat.keys.rx, s.chat.stream.pull.header;
    assert OpenedFrom(sodium, key, header, t.history.accepted, n, kind, c, InQueue(s));
    if t.ledger.delivered != s.ledger.delivered {
      assert Written(sodium, s, t, t.ledger.delivered[|s.ledger.delivered|], n, c);
    }
  }

  lemma HandleIsServed(sodium: Crypto.Sodium, s: State, q: State, packet: Bytes, arrives: bool)
    requires Live(sodium, q) && q.chat.ready
    requires SameView(s, q) && q.history == s.history && q.ledger == s.ledger && packet in InQueue(s)
    ensures
      var t := HandlePacket(sodium, q, packet, arrives).0;
      Served(sodium, s, t) && (t.chat.active ==> SameView(s, t))
  {
    assert q.chat.stream.pull == Crypto.Stream(q.chat.keys.rx, q.chat.stream.pull.header, q.history.accepted) by {
      hide PeerPart, HandshakePart, KeysPart, PushPart, WirePart, InQueue;
    }
    DuplicatesIgnored(sodium, q, packet[if |packet| < 6 then 0 else 6..]);
    UnshownIsServed(sodium, s, q);
    hide Live, Served, InQueue, HandleHandshake, HandleHeader, OpenPayload, Packet.Decode, Packet.Frame;
    var header := Packet.Decode(packet);
    if header.Ok? && |packet| == Packet.HEADER_SIZE + header.value.length {
      Packet.DecodeIsCanonical(packet);
      OpenIsServed(sodium, s, q, header.value.kind, packet[Packet.HEADER_SIZE..], arrives);
    }
  }

  lemma HandleKeepsQueue(sodium: Crypto.Sodium, s: State, packet: Bytes, arrives: bool)
    ensures var t := HandlePacket(sodium, s, packet, arrives).0; t.chat.active ==> t.chat.ice.queue == s.chat.ice.queue
  {
    hide OpenPayload, HandleHandshake, HandleHeader, Packet.Decode, SameView;
    var payload := packet[if |packet| < 6 then 0 else 6..];
    SetupKeepsIce(sodium, s, payload);
    OpenIsSeen(sodium, s, Packet.MESSAGE, payload, arrives);
    OpenIsSeen(sodium, s, Packet.CLOSE, payload, arrives);
  }

  lemma ProcessIsServed(sodium: Crypto.Sodium, s: State, arrives: bool)
    requires Live(sodium, s) && s.chat.ready
    ensures
      var t := Process(sodium, s, arrives).0;
      Served(sodium, s, t) && (t.chat.active ==> SameView(s, t) && InQueue(t) <= InQueue(s))
  {
    UnshownIsServed(sodium, s, s);
    if s.chat.ice.queue != [] {
      var p, d := Pop(s), s.chat.ice.queue[0];
      assert d in InQueue(s) && InQueue(p) <= InQueue(s) by { hide Live; }
      PopIsLive(sodium, s);
      UnshownIsServed(sodium, s, p);
      HandleIsServed(sodium, s, p, d, arrives);
      HandleKeepsQueue(sodium, p, d, arrives);
    }
    hide Live, Served, HandlePacket;
  }

  lemma {:induction false} DrainIsServed(sodium: Crypto.Sodium, s: State, n: nat, env: Env)
    requires Sound(sodium, s) && (s.chat.active ==> s.chat.ready)
    ensures Served(sodium, s, Drain(sodium, s, n, env))
    decreases n
  {
    hide Sound, Process, Fail, Served, InQueue, SameView;
    UnshownIsServed(sodium, s, s);
    if n > 0 {
      var (next, ok) := Process(sodium, s, Flag(env.writes, n));
      if s.chat.active {
        ActiveIsLive(sodium, s);
        ProcessIsServed(sodium, s, Flag(env.writes, n));
      } else {
        IdleProcess(sodium, s, Flag(env.writes, n));
      }
      ProcessReady(sodium, s, Flag(env.writes, n));
      var t := Drain(sodium, s, n, env);
      if ok {
        if next.chat.active {
          DrainIsServed(sodium, next, n - 1, env);
          ServedTrans(sodium, s, next, t);
        } else {
          IdleQueue(sodium, next);
          NothingToDrain(sodium, next, n - 1, env);
        }
      } else if next.chat.active {
        FailWipes(next, Rejected, env);
        UnshownIsServed(sodium, next, t);
        ServedTrans(sodium, s, next, t);
      }
    }
  }

  ghost predicate Unseen(s: State, t: State) {
    SameView(s, t) && t.chat.ice.queue == s.chat.ice.queue && t.history == s.history && t.ledger == s.ledger
  }

  lemma PendingIsUnseen(s: State, env: Env)
    ensures Unseen(s, ApplyPendingSdp(s, env).0)
  {
    SameSight(s, s.(chat := s.chat.(pendingSdp := None)));
    SameSight(s, s.(chat := s.chat.(ice := s.chat.ice.(failed := true))));
    SameSight(s, s);
    hide Unseen;
  }

  lemma SameSight(s: State, t: State)
    requires t == s.(chat := s.chat.(pendingSdp := t.chat.pendingSdp, ice := t.chat.ice))
    requires t.chat.ice.queue == s.chat.ice.queue
    ensures Unseen(s, t)
  {
  }

  lemma LocalIsUnseen(s: State, env: Env)
    ensures Unseen(s, QueueLocalSdp(s, env).0)
  {
    hide Json.Render, SdpFields;
  }

  lemma ConnectedIsUnseen(s: State, env: Env)
    ensures Unseen(s, NoteConnected(s, env))
  {
  }

  lemma NotedIsUnseen(s: State, env: Env)
    ensures Unseen(s, Noted(s, env))
  {
    hide ApplyPendingSdp, QueueLocalSdp, NoteConnected;
    var s1 := ApplyPendingSdp(s, env).0;
    PendingIsUnseen(s, env);
    LocalIsUnseen(s1, env);
    ConnectedIsUnseen(QueueLocalSdp(s1, env).0, env);
  }

  lemma ServiceIsServed(sodium: Crypto.Sodium, s: State, env: Env)
    requires Good(sodium, s)
    ensures
      var t := ServiceIce(sodium, s, env);
      t.ledger.delivered == s.ledger.delivered || (s.chat.ready && Served(sodium, s, t))
  {
    hide Good, Sound, Served, SameView, Fail, ApplyPendingSdp, QueueLocalSdp, NoteConnected, ServiceCrypto, Books;
    if s.chat.active {
      GoodFacts(sodium, s);
      var s1 := ApplyPendingSdp(s, env).0;
      var s2 := QueueLocalSdp(s1, env).0;
      var s3 := NoteConnected(s2, env);
      PendingSdpIsSound(sodium, s, env);
      LocalSdpIsSound(sodium, s1, env);
      NoteConnectedIsSound(sodium, s2, env);
      FailWipes(s, Timeout, env);
      FailWipes(s1, Transport, env);
      FailWipes(s2, Transport, env);
      FailWipes(s2, Timeout, env);
      NotedIsUnseen(s, env);
      CryptoIsServed(sodium, s3, env);
      ServedFrom(sodium, s, s3, ServiceCrypto(sodium, s3, env));
    }
  }

  lemma ServedFrom(sodium: Crypto.Sodium, s: State, m: State, t: State)
    requires Unseen(s, m)
    ensures Served(sodium, m, t) ==> Served(sodium, s, t)
    ensures m.chat.ready == s.chat.ready
  {
    UnshownIsServed(sodium, s, m);
    if Served(sodium, m, t) {
      ServedTrans(sodium, s, m, t);
    }
    hide Served;
  }

  lemma CryptoIsServed(sodium: Crypto.Sodium, s: State, env: Env)
    requires Sound(sodium, s) && s.chat.active && s.chat.cliNotified
    ensures
      var t := ServiceCrypto(sodium, s, env);
      t.ledger.delivered == s.ledger.delivered || (s.chat.ready && Served(sodium, s, t))
  {
    hide Sound, Served, Drain, ServiceSetup, Books;
    if s.chat.ready {
      DrainIsServed(sodium, s, QUEUE_CAPACITY, env);
    } else {
      SetupIsSound(sodium, s, env);
    }
  }

  /** Every event: a line is shown only by a service call of a ready session, from a message that this call opened. */
  lemma StepIsServed(sodium: Crypto.Sodium, s: State, e: Event)
    requires Good(sodium, s)
    ensures
      var t := Step(sodium, s, e);
      || t.ledger.delivered == s.ledger.delivered
      || (e.Service? && s.chat.ready && Served(sodium, s, t))
  {
    hide Good, Served, Unstarted, ServiceIce;
    if e.Service? {
      ServiceIsServed(sodium, s, e.env);
    } else if !e.Datagram? {
      OthersAreOutside(sodium, s, e);
    }
  }

  // ---------------------------------------------------------------- every run

  /** Where the latest session of a run begins: the last moment at which nothing had happened in it yet. */
  ghost function SessionStart(sodium: Crypto.Sodium, s: State, events: seq<Event>): (n: nat)
    ensures n <= |events|
  {
    if events == [] || Unstarted(Run(sodium, s, events)) then |events|
    else SessionStart(sodium, s, events[..|events| - 1])
  }

  /** The events of the latest session. */
  ghost function SessionEvents(sodium: Crypto.Sodium, s: State, events: seq<Event>): seq<Event> {
    events[SessionStart(sodium, s, events)..]
  }

  lemma ArrivedMore(events: seq<Event>, e: Event)
    ensures Arrived(events) <= Arrived(events + [e]) && Drawn(events) <= Drawn(events + [e])
    ensures e.Datagram? ==> e.packet in Arrived(events + [e])
    ensures e.Service? && e.env.kxSecret.Some? ==> e.env.kxSecret.value in Drawn(events + [e])
  {
    assert e in events + [e] && forall x :: x in events ==> x in events + [e];
  }

  /** In every run, whatever the current session holds came in datagrams and service calls of that session. */
  lemma {:induction false} EveryRunIsTraced(
      sodium: Crypto.Sodium, id: Crypto.Identity, contacts: string, events: seq<Event>)
    ensures
      var start := Start(id, contacts);
      var w := SessionEvents(sodium, start, events);
      Traced(sodium, Run(sodium, start, events), Arrived(w), Drawn(w))
  {
    hide Traced, Unstarted, Good, Step, Arrived, Drawn;
    var start := Start(id, contacts);
    var t := Run(sodium, start, events);
    if Unstarted(t) {
      var w := SessionEvents(sodium, start, events);
      UnstartedTraced(sodium, t, Arrived(w), Drawn(w));
    } else if events == [] {
      StartIsUnstarted(id, contacts);
    } else {
      var before, e := events[..|events| - 1], events[|events| - 1];
      EveryRunIsTraced(sodium, id, contacts, before);
      EveryRunIsGood(sodium, id, contacts, before);
      var s, w := Run(sodium, start, before), SessionEvents(sodium, start, before);
      assert SessionEvents(sodium, start, events) == w + [e];
      ArrivedMore(w, e);
      TracedMore(sodium, s, Arrived(w), Drawn(w), Arrived(w + [e]), Drawn(w + [e]));
      StepIsTraced(sodium, s, e, Arrived(w + [e]), Drawn(w + [e]));
    }
  }

  lemma StartIsUnstarted(id: Crypto.Identity, contacts: string)
    ensures Unstarted(Start(id, contacts))
  {
  }

  /** The keys of a ready session: derived with the ephemeral key that this session drew from a key exchange that
      arrived in this session and that the peer's verified identity signed, for the opposite role, this daemon and
      this session id. The stream header and every message taken so far arrived in this session as well. */
  ghost predicate KeyedBy(sodium: Crypto.Sodium, s: State, w: seq<Event>) {
    var c, h := s.chat, s.history;
    && c.ready && |h.kxSecrets| == 1 && |h.kxAccepted| == 1 && |h.kxAccepted[0]| == Crypto.KX_MESSAGE_BYTES
    && h.kxSecrets[0] in Drawn(w) && Packet.Frame(Packet.HANDSHAKE, h.kxAccepted[0]) in Arrived(w)
    && c.hs.localPk == s.id.public && c.hs.remotePk == c.remotePk && c.hs.role == c.role != Crypto.NoRole
    && c.hs.kxPk == sodium.kxPublic(h.kxSecrets[0]) && Crypto.Verifies(sodium, c.hs, h.kxAccepted[0])
    && Crypto.Derive(sodium, c.role, c.hs.kxPk, h.kxSecrets[0], h.kxAccepted[0][..32]) == Some(c.keys)
    && Packet.Frame(Packet.STREAM_HEADER, c.stream.pull.header) in Arrived(w)
    && c.stream.pull == Crypto.Stream(c.keys.rx, c.stream.pull.header, h.accepted)
    && AllOpened(sodium, c.stream.pull, Arrived(w)) && QueueTraced(c.ice.queue, Arrived(w))
  }

  lemma ReadyIsKeyed(sodium: Crypto.Sodium, s: State, w: seq<Event>)
    requires Live(sodium, s) && s.chat.ready && Traced(sodium, s, Arrived(w), Drawn(w))
    ensures KeyedBy(sodium, s, w)
  {
    hide PeerPart, PushPart, WirePart, AllOpened, QueueTraced, Arrived, Drawn, Crypto.KxMessage, Crypto.Verifies,
      Crypto.Derive,
      Packet.Frame;
  }

  /** The only identity among these that was accepted for the peer's name is the peer's. */
  ghost predicate Sole(chat: Chat, verified: seq<Contacts.Contact>) {
    && Contacts.Contact(chat.peer, chat.remotePk) in verified
    && forall c :: c in verified && c.name == chat.peer ==> c.key == chat.remotePk
  }

  /** The evidence for the i-th line of a run: the n-th event, a service call, wrote it. The line is the j-th message
      of the session that was then ready, opened from a MESSAGE datagram with that ciphertext. The datagram, every
      earlier message's datagram, the key exchange, the ephemeral key and the stream header are all among the events
      of that session. The peer's identity had been checked against the contact file. */
  ghost predicate Proves(
      sodium: Crypto.Sodium, start: State, events: seq<Event>, i: nat, n: nat, j: nat, ciphertext: Bytes)
  {
    && n < |events| && events[n].Service?
    && var s, t, w :=
         Run(sodium, start, events[..n]), Run(sodium, start, events[..n + 1]),
           SessionEvents(sodium, start, events[..n]);
    && |s.ledger.delivered| <= i < |t.ledger.delivered|
    && KeyedBy(sodium, s, w) && Contacts.Contact(s.chat.peer, s.chat.remotePk) in s.ledger.verified
    && Written(sodium, s, t, t.ledger.delivered[i], j, ciphertext)
    && Datagram(Packet.Frame(Packet.MESSAGE, ciphertext)) in w
    && forall k: nat :: k <= j ==>
         Opened(sodium, s.chat.keys.rx, s.chat.stream.pull.header, t.history.accepted, k, Arrived(w))
  }

  lemma ArrivedIsDatagram(events: seq<Event>, packet: Bytes)
    requires packet in Arrived(events)
    ensures Datagram(packet) in events
  {
  }

  lemma ReadyIsKnown(sodium: Crypto.Sodium, s: State)
    requires Good(sodium, s) && s.chat.ready
    ensures Contacts.Contact(s.chat.peer, s.chat.remotePk) in s.ledger.verified
  {
    ReadyIsActive(sodium, s);
    hide HandshakePart, KeysPart, PushPart, PullPart, WirePart, NeverRekeys;
  }

  /** Every message up to the shown one arrived in the session. */
  lemma AllArrived(sodium: Crypto.Sodium, s: State, t: State, w: seq<Event>, j: nat)
    requires KeyedBy(sodium, s, w) && Took(sodium, s, t) && j < |t.history.accepted|
    ensures Opened(sodium, s.chat.keys.rx, s.chat.stream.pull.header, t.history.accepted, j, Arrived(w))
  {
    hide Opened, Arrived, Drawn, Crypto.Verifies, Crypto.Derive, Packet.Frame;
    assert InQueue(s) <= Arrived(w);
    var key, header := s.chat.keys.rx, s.chat.stream.pull.header;
    if j < |s.history.accepted| {
      OpenedMore(sodium, key, header, s.history.accepted, j, Arrived(w), t.history.accepted, Arrived(w));
    } else {
      OpenedMore(sodium, key, header, t.history.accepted, j, InQueue(s), t.history.accepted, Arrived(w));
    }
  }

  /** The event that writes a line has its evidence. */
  lemma LastEventProves(sodium: Crypto.Sodium, id: Crypto.Identity, contacts: string, events: seq<Event>, i: nat)
    returns (j: nat, c: Bytes)
    requires events != []
    requires
      var before := events[..|events| - 1];
      && |Run(sodium, Start(id, contacts), before).ledger.delivered| <= i
      && i < |Run(sodium, Start(id, contacts), events).ledger.delivered|
    ensures Proves(sodium, Start(id, contacts), events, i, |events| - 1, j, c)
  {
    hide Good, Step, Traced, Took, KeyedBy, Arrived, Drawn, Opened, OneLine, Packet.Frame;
    var start, n := Start(id, contacts), |events| - 1;
    assert events[..n + 1] == events;
    var s, t, w :=
      Run(sodium, start, events[..n]), Run(sodium, start, events), SessionEvents(sodium, start, events[..n]);
    EveryRunIsGood(sodium, id, contacts, events[..n]);
    EveryRunIsTraced(sodium, id, contacts, events[..n]);
    StepIsServed(sodium, s, events[n]);
    GoodFacts(sodium, s);
    ReadyIsActive(sodium, s);
    ActiveIsLive(sodium, s);
    ReadyIsKeyed(sodium, s, w);
    ReadyIsKnown(sodium, s);
    assert IsWritten(sodium, s, t, t.ledger.delivered[i]);
    j, c :| Written(sodium, s, t, t.ledger.delivered[i], j, c);
    QueuedArrived(sodium, s, w, Packet.Frame(Packet.MESSAGE, c));
    forall k: nat | k <= j
      ensures Opened(sodium, s.chat.keys.rx, s.chat.stream.pull.header, t.history.accepted, k, Arrived(w))
    {
      AllArrived(sodium, s, t, w, k);
    }
  }

  lemma QueuedArrived(sodium: Crypto.Sodium, s: State, w: seq<Event>, packet: Bytes)
    requires KeyedBy(sodium, s, w) && packet in InQueue(s)
    ensures Datagram(packet) in w
  {
    ArrivedIsDatagram(w, packet);
    hide Arrived, Drawn, AllOpened, Crypto.Verifies, Crypto.Derive, Packet.Frame;
  }

  /** Evidence of a shorter run stays evidence. */
  lemma ProvesLonger(
      sodium: Crypto.Sodium, start: State, before: seq<Event>, events: seq<Event>, i: nat, n: nat, j: nat, c: Bytes)
    requires before <= events && Proves(sodium, start, before, i, n, j, c)
    ensures Proves(sodium, start, events, i, n, j, c)
  {
    assert before[..n] == events[..n] && before[..n + 1] == events[..n + 1];
    hide Run, SessionEvents, KeyedBy, Written, Opened, Arrived, Packet.Frame;
  }

  lemma {:induction false} DeliveryIsProven(
      sodium: Crypto.Sodium, id: Crypto.Identity, contacts: string, events: seq<Event>, i: nat)
    returns (n: nat, j: nat, ciphertext: Bytes)
    requires i < |Run(sodium, Start(id, contacts), events).ledger.delivered|
    ensures Proves(sodium, Start(id, contacts), events, i, n, j, ciphertext)
    ensures
      Run(sodium, Start(id, contacts), events).ledger.delivered[i]
      == Run(sodium, Start(id, contacts), events[..n + 1]).ledger.delivered[i]
  {
    hide Proves, Step, Good, Took;
    var start := Start(id, contacts);
    var before := events[..|events| - 1];
    var s := Run(sodium, start, before);
    if i < |s.ledger.delivered| {
      n, j, ciphertext := DeliveryIsProven(sodium, id, contacts, before, i);
      ProvesLonger(sodium, start, before, events, i, n, j, ciphertext);
      ProvesWithin(sodium, start, before, i, n, j, ciphertext);
      assert before[..n + 1] == events[..n + 1];
      EveryRunIsGood(sodium, id, contacts, before);
      StepIsServed(sodium, s, events[|events| - 1]);
      if Served(sodium, s, Run(sodium, start, events)) {
        TookFacts(sodium, s, Run(sodium, start, events));
      }
    } else {
      n := |events| - 1;
      j, ciphertext := LastEventProves(sodium, id, contacts, events, i);
      assert events[..n + 1] == events;
    }
  }

  lemma ProvesWithin(
      sodium: Crypto.Sodium, start: State, events: seq<Event>, i: nat, n: nat, j: nat, c: Bytes)
    requires Proves(sodium, start, events, i, n, j, c)
    ensures n < |events|
  {
  }

  /** Every line that any run delivers to a client has its evidence in that run. When the run began with a safe contact
      file, the identity behind the line is the only one that the whole run, before and after, accepts for its name. */
  lemma DeliveriesAreAuthentic(
      sodium: Crypto.Sodium, id: Crypto.Identity, contacts: string, events: seq<Event>, i: nat)
    returns (n: nat, j: nat, ciphertext: Bytes)
    requires i < |Run(sodium, Start(id, contacts), events).ledger.delivered|
    ensures Proves(sodium, Start(id, contacts), events, i, n, j, ciphertext)
    ensures
      Run(sodium, Start(id, contacts), events).ledger.delivered[i]
      == Run(sodium, Start(id, contacts), events[..n + 1]).ledger.delivered[i]
    ensures
      var start := Start(id, contacts);
      Pinning.Safe(contacts) ==>
        Sole(Run(sodium, start, events[..n]).chat, Run(sodium, start, events).ledger.verified)
  {
    hide Run, SessionEvents, KeyedBy, Written, Opened, Arrived, Packet.Frame, Pinning.Safe;
    n, j, ciphertext := DeliveryIsProven(sodium, id, contacts, events, i);
    VerifiedGrows(sodium, id, contacts, events, n);
    if Pinning.Safe(contacts) {
      EveryRunIsTrusting(sodium, id, contacts, events);
      TrustingIsSole(Run(sodium, Start(id, contacts), events[..n]), Run(sodium, Start(id, contacts), events));
    }
  }

  lemma TrustingIsSole(s: State, t: State)
    requires Trusting(t) && s.ledger.verified <= t.ledger.verified
    requires Contacts.Contact(s.chat.peer, s.chat.remotePk) in s.ledger.verified
    ensures Sole(s.chat, t.ledger.verified)
  {
    hide Pinning.Safe, Pinning.Agrees;
  }
}
