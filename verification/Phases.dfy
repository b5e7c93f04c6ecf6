/** The phases of the connection to the control server: a daemon is online only after it has answered a challenge. */
module Phases {
  import opened Daemon
  import opened Octets
  import Contacts
  import Crypto
  import Json
  import Packet

  /** A text that waits to be sent goes on waiting. */
  predicate Waits(s: State, t: State) { s.pending.Some? ==> t.pending == s.pending }

  predicate Holds(s: State, t: State) { t.phase == s.phase && Waits(s, t) }

  predicate Steady(s: State, t: State) { t.phase == s.phase && t.pending == s.pending }

  /** No message is built in a buffer that is larger than the connection's. */
  lemma QueueHolds(s: State, fields: seq<Json.Field>, size: nat)
    requires size <= MAX_JSON
    ensures Holds(s, QueueBuilt(s, fields, size).0)
  {
    hide Json.Render;
  }

  lemma RespondHolds(s: State, line: CliLine)
    ensures Steady(s, Respond(s, line))
  {
  }

  lemma RequestHolds(s: State, peer: string, sid: SessionId)
    ensures Holds(s, QueueChatRequest(s, peer, sid).0)
  {
    hide QueueBuilt, KeyedFields;
    var named := s.(chat := s.chat.(sessionId := sid));
    QueueHolds(named, KeyedFields("chat_request", s.id, peer, sid), 512);
  }

  lemma FailHolds(s: State, reason: Reason, env: Env)
    ensures Holds(s, Fail(s, reason, env))
  {
    hide QueueChatRequest;
    var noted := s.(log := s.log.(failures := s.log.failures + [reason]));
    RequestHolds(Enter(Reset(noted.(retries := s.retries + 1)), Requesting), s.lookupPeer, env.sessionId);
  }

  lemma BeginHolds(s: State, peer: string, sid: string, controlling: bool, key: Key, env: Env)
    ensures Holds(s, BeginIce(s, peer, sid, controlling, key, env).0)
  {
    hide Fail, Clip;
    forall m: State, reason | Steady(s, m)
      ensures Holds(s, Fail(m, reason, env))
    {
      FailHolds(m, reason, env);
    }
  }

  lemma ChatRequestHolds(s: State, json: string, env: Env)
    ensures Holds(s, HandleChatRequest(s, json, env))
  {
    hide Json.GetString, Packet.UsernameIsValid, HexToKey, Contacts.VerifyOrPin, QueueBuilt, BeginIce, KeyedFields;
    var from, id := Json.GetString(json, "from", 33), Json.GetString(json, "session_id", 33);
    var hex := Json.GetString(json, "public_key", 65);
    if from.Some? && id.Some? && hex.Some? && HexToKey(hex.value).Some? {
      var key := HexToKey(hex.value).value;
      var e := Enter(Verify(s, from.value, key, env.io).0, Requesting);
      var fields := KeyedFields("chat_accept", s.id, from.value, id.value);
      QueueHolds(e, fields, 512);
      BeginHolds(QueueBuilt(e, fields, 512).0, from.value, id.value, false, key, env);
    }
  }

  lemma ChatAcceptHolds(s: State, json: string, env: Env)
    ensures Holds(s, HandleChatAccept(s, json, env))
  {
    hide Json.GetString, HexToKey, Contacts.VerifyOrPin, QueueBuilt, BeginIce, PeerFields, Respond;
    var from, id := Json.GetString(json, "from", 33), Json.GetString(json, "session_id", 33);
    var hex := Json.GetString(json, "public_key", 65);
    if from.Some? && id.Some? && hex.Some? && HexToKey(hex.value).Some? {
      var key := HexToKey(hex.value).value;
      var s1 := Verify(s, from.value, key, env.io).0;
      var fields := PeerFields("chat_cancel", s.id, from.value, id.value);
      QueueHolds(s1, fields, 384);
      RespondHolds(QueueBuilt(s1, fields, 384).0, IdentityMismatch(from.value));
      RespondHolds(s1, CliError(ContactVerificationFailed));
      BeginHolds(s1, from.value, id.value, true, key, env);
      RespondHolds(BeginIce(s1, from.value, id.value, true, key, env).0, IceFailed(from.value));
    }
  }

  lemma SignalHolds(sodium: Crypto.Sodium, s: State, kind: string, json: string, env: Env)
    ensures Holds(s, HandleSignal(sodium, s, kind, json, env))
  {
    ChatRequestHolds(s, json, env);
    ChatAcceptHolds(s, json, env);
    hide HandleChatRequest, HandleChatAccept, Json.GetString;
  }

  lemma OpenHolds(s: State, fd: int, peer: string, env: Env)
    ensures Holds(s, OpenChat(s, fd, peer, env))
  {
    hide QueueChatRequest, Respond, Packet.UsernameIsValid;
    var asked := Enter(
      s.(lookupPeer := peer, client := Some(fd), retries := 0, log := s.log.(requests := 0)), Requesting);
    RequestHolds(asked, peer, env.sessionId);
    RespondHolds(QueueChatRequest(asked, peer, env.sessionId).0, CliError(ChatRequestFailed));
  }

  // ---------------------------------------------------------------- client input and service

  lemma SealHolds(sodium: Crypto.Sodium, s: State, kind: byte, item: Crypto.Item, leaves: bool)
    ensures Steady(s, SendEncrypted(sodium, s, kind, item, leaves).0)
  {
    hide Crypto.Encrypt, Packet.Frame, Packet.Encode;
  }

  lemma CommandHolds(sodium: Crypto.Sodium, s: State, line: string, leaves: bool)
    ensures Steady(s, OneCommand(sodium, s, line, leaves))
  {
    hide SendEncrypted, TextIsValid, Ascii;
    if SEND <= line {
      SealHolds(sodium, s, Packet.MESSAGE, Crypto.Item(Ascii(line[|SEND|..]), Crypto.TAG_MESSAGE), leaves);
    }
  }

  lemma {:induction false} CommandsHold(sodium: Crypto.Sodium, s: State, text: string, i: nat, n: nat, env: Env)
    requires i <= |text|
    ensures Steady(s, Commands(sodium, s, text, i, n, env))
    decreases |text| - i
  {
    hide OneCommand, SendEncrypted;
    if !(i == |text| || s.client.None? || !s.chat.active) {
      var end := LineEnd(text, i);
      CommandHolds(sodium, s, text[i..end], Flag(env.sends, n));
      SealHolds(sodium, Enter(s, Closing), Packet.CLOSE, Crypto.Item([], Crypto.TAG_FINAL), Flag(env.sends, n));
      if text[i..end] != "CLOSE_CHAT" && end < |text| {
        CommandsHold(sodium, OneCommand(sodium, s, text[i..end], Flag(env.sends, n)), text, SkipLineEnds(text, end + 1),
          n + 1, env);
      }
    }
  }

  lemma ClientHolds(sodium: Crypto.Sodium, s: State, input: Input, env: Env)
    ensures Steady(s, ServiceClient(sodium, s, input, env))
  {
    hide Commands, SendEncrypted, CString;
    SealHolds(sodium, Enter(s, Closing), Packet.CLOSE, Crypto.Item([], Crypto.TAG_FINAL), Flag(env.sends, 0));
    if input.Command? {
      CommandsHold(sodium, s, CString(input.text), 0, 0, env);
    }
  }

  lemma HandshakeHolds(sodium: Crypto.Sodium, s: State, env: Env)
    ensures Steady(s, SetupHandshake(sodium, s, env).0)
  {
    hide Crypto.Init, Packet.Frame, Packet.Encode, Ascii;
  }

  lemma HeaderHolds(s: State, env: Env)
    ensures Steady(s, SetupHeader(s, env).0)
  {
    hide Crypto.InitPush, Packet.Frame, Packet.Encode;
  }

  lemma FinishHolds(sodium: Crypto.Sodium, s: State, payload: Bytes)
    ensures Steady(s, HandleHandshake(sodium, s, payload).0) && Steady(s, HandleHeader(s, payload).0)
  {
    hide Crypto.Finish, Crypto.InitPull;
  }

  lemma OpenPayloadHolds(sodium: Crypto.Sodium, s: State, kind: byte, payload: Bytes, arrives: bool)
    ensures Steady(s, OpenPayload(sodium, s, kind, payload, arrives).0)
  {
    hide Crypto.Decrypt, OneLine;
  }

  lemma TakeHolds(sodium: Crypto.Sodium, s: State, arrives: bool)
    ensures Steady(s, Process(sodium, s, arrives).0)
  {
    if s.chat.ice.queue != [] {
      PacketHolds(sodium, Pop(s), s.chat.ice.queue[0], arrives);
    }
    hide HandlePacket;
  }

  lemma PacketHolds(sodium: Crypto.Sodium, s: State, packet: Bytes, arrives: bool)
    ensures Steady(s, HandlePacket(sodium, s, packet, arrives).0)
  {
    hide Packet.Decode, HandleHandshake, HandleHeader, OpenPayload;
    var payload := packet[if |packet| < 6 then 0 else 6..];
    FinishHolds(sodium, s, payload);
    OpenPayloadHolds(sodium, s, Packet.MESSAGE, payload, arrives);
    OpenPayloadHolds(sodium, s, Packet.CLOSE, payload, arrives);
  }

  lemma {:induction false} DrainHolds(sodium: Crypto.Sodium, s: State, n: nat, env: Env)
    ensures Holds(s, Drain(sodium, s, n, env))
    decreases n
  {
    hide Process, Fail;
    if n > 0 {
      var (next, ok) := Process(sodium, s, Flag(env.writes, n));
      TakeHolds(sodium, s, Flag(env.writes, n));
      FailHolds(next, Rejected, env);
      if ok {
        DrainHolds(sodium, next, n - 1, env);
      }
    }
  }

  lemma RoundHolds(sodium: Crypto.Sodium, s: State, env: Env)
    ensures Steady(s, SetupRound(sodium, s, env).0)
  {
    hide SetupHandshake, Process, SetupHeader;
    var s1 := SetupHandshake(sodium, s, env).0;
    var s2 := Process(sodium, s1, Flag(env.writes, 0)).0;
    var s3 := SetupHeader(s2, env).0;
    HandshakeHolds(sodium, s, env);
    TakeHolds(sodium, s1, Flag(env.writes, 0));
    HeaderHolds(s2, env);
    TakeHolds(sodium, s3, Flag(env.writes, 1));
  }

  lemma SetupHolds(sodium: Crypto.Sodium, s: State, env: Env)
    ensures Holds(s, ServiceSetup(sodium, s, env))
  {
    hide SetupRound, Fail;
    RoundHolds(sodium, s, env);
    var (r, failed) := SetupRound(sodium, s, env);
    FailHolds(s, NoRemoteKey, env);
    FailHolds(s, Timeout, env);
    if failed.Some? {
      FailHolds(r, failed.value, env);
    }
  }

  lemma ApplyHolds(s: State, env: Env)
    ensures Steady(s, ApplyPendingSdp(s, env).0)
  {
  }

  lemma LocalHolds(s: State, env: Env)
    ensures Holds(s, QueueLocalSdp(s, env).0)
  {
    hide QueueBuilt, SdpFields;
    if env.localSdp.Some? {
      QueueHolds(s, SdpFields(s.id, s.chat.peer, s.chat.sessionId, env.localSdp.value), MAX_JSON);
    }
  }

  lemma NoteHolds(s: State, env: Env)
    ensures Steady(s, NoteConnected(s, env))
  {
  }

  lemma ServiceHolds(sodium: Crypto.Sodium, s: State, env: Env)
    ensures Holds(s, ServiceIce(sodium, s, env))
  {
    hide ApplyPendingSdp, QueueLocalSdp, NoteConnected, ServiceSetup, Drain, Fail;
    var s1 := ApplyPendingSdp(s, env).0;
    var s2 := QueueLocalSdp(s1, env).0;
    var s3 := NoteConnected(s2, env);
    ApplyHolds(s, env);
    LocalHolds(s1, env);
    NoteHolds(s2, env);
    FailHolds(s, Timeout, env);
    FailHolds(s1, Transport, env);
    FailHolds(s2, Transport, env);
    FailHolds(s2, Timeout, env);
    SetupHolds(sodium, s3, env);
    DrainHolds(sodium, s3, QUEUE_CAPACITY, env);
  }

  // ---------------------------------------------------------------- every event

  /** The type of a server message that a daemon reads. */
  function Kind(e: Event): Option<string> {
    if e.ServerMessage? && |e.json| < MAX_JSON then Json.GetString(CString(e.json), "type", 32) else None
  }

  /** Does an error leave the connection as it is? */
  predicate Harmless(s: State, code: Option<string>) {
    (s.phase == Registering && code == Some("user already exists")) || (s.client.Some? && code == Some("peer_offline"))
  }

  predicate ChallengeReads(json: string) {
    var hex := Json.GetString(json, "challenge", 65);
    hex.Some? && HexToKey(hex.value).Some?
  }

  predicate MessageBreaks(s: State, json: string) {
    var kind := Json.GetString(json, "type", 32);
    || (kind == Some("error") && !Harmless(s, Json.GetString(json, "code", 128)))
    || (kind == Some("auth_challenge") && s.phase == Greeting && !ChallengeReads(json))
  }

  predicate Breaks(s: State, e: Event) {
    match e
    case Writeable(written) => s.pending.Some? && !written
    case ServerMessage(json, _) => |json| >= MAX_JSON || MessageBreaks(s, CString(json))
    case _ => false
  }

  /** Over every event: the phases are walked in order, and only by the server's answers. A daemon is registering
      exactly from connecting on, greets only after registering, answers only a challenge, and is online only after its
      answer was accepted. */
  lemma PhasesAreWalked(sodium: Crypto.Sodium, s: State, e: Event)
    requires Step(sodium, s, e).phase != s.phase
    ensures
      match Step(sodium, s, e).phase
      case Registering => e == Established
      case Greeting => s.phase == Registering && Kind(e) in [Some("register_ok"), Some("error")]
      case Answering => s.phase == Greeting && Kind(e) == Some("auth_challenge") && Step(sodium, s, e).challenge.Some?
      case Online => s.phase == Answering && Kind(e) == Some("auth_ok")
      case Broken => Breaks(s, e)
  {
    EventWalks(sodium, s, e);
  }

  /** Over every event: a connection breaks exactly when a text cannot be written, a message is too long, a challenge
      cannot be read, or the server reports an error that is neither about the peer asked for nor that the user is known
      already. */
  lemma BreaksExactly(sodium: Crypto.Sodium, s: State, e: Event)
    requires s.phase != Broken
    ensures Step(sodium, s, e).phase == Broken <==> Breaks(s, e)
  {
    EventWalks(sodium, s, e);
  }

  /** Over every event: a text in the buffer stays there, unchanged, until it has been written. Nothing that the daemon
      has to say later takes its place. */
  lemma HeldUntilWritten(sodium: Crypto.Sodium, s: State, e: Event)
    requires s.pending.Some? && e != Writeable(true)
    ensures Step(sodium, s, e).pending == s.pending
  {
    EventWalks(sodium, s, e);
  }

  lemma EventWalks(sodium: Crypto.Sodium, s: State, e: Event)
    ensures e != Writeable(true) ==> Waits(s, Step(sodium, s, e))
    ensures
      Step(sodium, s, e).phase != s.phase ==>
        match Step(sodium, s, e).phase
        case Registering => e == Established
        case Greeting => s.phase == Registering && Kind(e) in [Some("register_ok"), Some("error")]
        case Answering => s.phase == Greeting && Kind(e) == Some("auth_challenge") && Step(sodium, s, e).challenge.Some?
        case Online => s.phase == Answering && Kind(e) == Some("auth_ok")
        case Broken => Breaks(s, e)
    ensures Breaks(s, e) ==> Step(sodium, s, e).phase == Broken
  {
    hide MessageBreaks, HandleReceive, OpenChat, ServiceClient, ServiceIce, QueueBuilt, RegisterFields, Receive,
      Respond, OnIce;
    match e
    case Established =>
      QueueHolds(s.(wsi := true, connected := true, phase := Registering), RegisterFields(s.id), 512);
    case ServerMessage(json, env) =>
      if |json| < MAX_JSON {
        MessageWalks(sodium, s, CString(json), env);
      }
    case Writeable(written) =>
    case ConnectionError => RespondHolds(s.(wsi := false, connected := false), CliError(ServerUnavailable));
    case Disconnected =>
      RespondHolds(s.(wsi := false, connected := false, challenge := None), CliError(ServerDisconnected));
    case OpenChatCommand(fd, peer, env) => OpenHolds(s, fd, peer, env);
    case ClientInput(input, env) => ClientHolds(sodium, s, input, env);
    case GatheringDone => IceHolds(s, s.chat.ice.(gatheringDone := true));
    case Connected(pair) =>
      IceHolds(s, s.chat.ice.(ready := true));
      if pair.Some? {
        IceHolds(s, s.chat.ice.(ready := true, pairKnown := true, pairRelayed := pair.value));
      }
    case TransportFailed => IceHolds(s, s.chat.ice.(failed := true));
    case Datagram(packet) => IceHolds(s, Receive(s.chat.ice, packet));
    case Service(env) => ServiceHolds(sodium, s, env);
  }

  lemma IceHolds(s: State, ice: Ice)
    ensures Steady(s, OnIce(s, ice))
  {
  }

  lemma MessageWalks(sodium: Crypto.Sodium, s: State, json: string, env: Env)
    ensures Waits(s, HandleReceive(sodium, s, json, env))
    ensures
      var t := HandleReceive(sodium, s, json, env);
      var kind := Json.GetString(json, "type", 32);
      t.phase != s.phase ==>
        match t.phase
        case Registering => false
        case Greeting => s.phase == Registering && kind in [Some("register_ok"), Some("error")]
        case Answering => s.phase == Greeting && kind == Some("auth_challenge") && t.challenge.Some?
        case Online => s.phase == Answering && kind == Some("auth_ok")
        case Broken => MessageBreaks(s, json)
    ensures MessageBreaks(s, json) ==> HandleReceive(sodium, s, json, env).phase == Broken
  {
    hide Json.GetString, Harmless, ChallengeReads, HandleSignal, HandleUserStatus, HandleError, HandleChallenge,
      QueueBuilt, HelloFields;
    var kind := Json.GetString(json, "type", 32);
    if kind.Some? {
      SignalHolds(sodium, s, kind.value, json, env);
      StatusHolds(s, json);
      ErrorWalks(s, json);
      ChallengeWalks(sodium, s, json);
      QueueHolds(s.(phase := Greeting), HelloFields(s.id), 128);
    }
  }

  lemma StatusHolds(s: State, json: string)
    ensures Steady(s, HandleUserStatus(s, json))
  {
    hide Json.GetString, Json.IsTrue, Respond;
    RespondHolds(s, UserOffline(s.lookupPeer));
    RespondHolds(s, UserOnline(s.lookupPeer));
  }

  lemma ErrorWalks(s: State, json: string)
    ensures
      var t := HandleError(s, json);
      && Waits(s, t)
      && (if !Harmless(s, Json.GetString(json, "code", 128)) then t.phase == Broken
          else t.phase == s.phase || (s.phase == Registering && t.phase == Greeting))
  {
    hide Json.GetString, HelloFields, Respond, QueueBuilt;
    var found := Json.GetString(json, "code", 128);
    QueueHolds(s.(phase := Greeting), HelloFields(s.id), 128);
    RespondHolds(s, UserOffline(s.lookupPeer));
    RespondHolds(s, CliError(FromServer(if found.Some? then found.value else "unknown")));
  }

  lemma ChallengeWalks(sodium: Crypto.Sodium, s: State, json: string)
    ensures
      var t := HandleChallenge(sodium, s, json);
      && Waits(s, t)
      && if ChallengeReads(json) then t.phase == Answering && t.challenge.Some? else t.phase == Broken
  {
    hide Json.GetString, Json.Render, AuthFields, HexToKey;
  }
}
