/** A ready session need not stay SECURE: which events take it out of that state and leave it running. */
module Unseating {
  import opened Daemon
  import opened Octets
  import opened Pairing
  import opened Session
  import Contacts
  import Crypto
  import Json
  import Packet
  import Setup

  // ---------------------------------------------------------------- the condition

  /** Is a chat request complete, for this user, and its key accepted for its sender? */
  predicate IsWelcome(s: State, json: string, env: Env) {
    var from := Json.GetString(json, "from", 33);
    var to := Json.GetString(json, "to", 33);
    var id := Json.GetString(json, "session_id", 33);
    var hex := Json.GetString(json, "public_key", 65);
    && from.Some? && to == Some(s.id.username) && id.Some? && id.value != "" && hex.Some?
    && Packet.UsernameIsValid(from.value) && HexToKey(hex.value).Some?
    && Contacts.VerifyOrPin(s.contacts, from.value, HexToKey(hex.value).value, env.io).0 == Contacts.Ok
  }

  /** The events that leave a ready session up but not SECURE. */
  predicate Unseats(s: State, e: Event) {
    match e
    case OpenChatCommand(_, peer, _) => StartsRequest(s, peer)
    case ServerMessage(json, env) =>
      && |json| < MAX_JSON && Json.GetString(CString(json), "type", 32) == Some("chat_request")
      && IsWelcome(s, CString(json), env) && s.pending.Some?
    case _ => false
  }

  // ---------------------------------------------------------------- commands

  lemma CommandDecides(s: State, fd: int, peer: string, env: Env)
    requires s.chat.active && s.chat.ready && s.session == Secure
    ensures
      var t := OpenChat(s, fd, peer, env);
      && t.chat.active && t.chat.ready
      && t.session == if StartsRequest(s, peer) then Requesting else Secure
  {
    hide AskPeer, Packet.UsernameIsValid;
    if StartsRequest(s, peer) {
      AskChangesState(s, fd, peer, env);
    } else {
    }
  }

  lemma AskChangesState(s: State, fd: int, peer: string, env: Env)
    ensures
      var t := AskPeer(s, fd, peer, env);
      t.session == Requesting && t.chat.active == s.chat.active && t.chat.ready == s.chat.ready
  {
    hide KeyedFields, Json.Render;
  }

  // ---------------------------------------------------------------- requests

  lemma {:induction false} ValueIsShort(s: string, i: nat, done: string, size: nat)
    requires i <= |s| && |done| < size
    ensures Json.Value(s, i, done, size).Some? ==> |Json.Value(s, i, done, size).value| < size
    decreases |s| - i
  {
    if i < |s| && s[i] != '"' && !(s[i] < ' ' || s[i] == '\\' || |done| + 1 >= size) {
      ValueIsShort(s, i + 1, done + [s[i]], size);
    }
  }

  lemma StringIsShort(json: string, key: string, size: nat)
    ensures Json.GetString(json, key, size).Some? ==> |Json.GetString(json, key, size).value| < size
  {
    hide Json.Value, Json.Find, Json.SkipBlanks;
    forall i: nat | i <= |json| && size > 0
      ensures Json.Value(json, i, "", size).Some? ==> |Json.Value(json, i, "", size).value| < size
    {
      ValueIsShort(json, i, "", size);
    }
  }

  /** The answer to a request always fits its buffer. */
  lemma AnswerFits(id: Crypto.Identity, peer: string, sid: string)
    requires |id.username| <= 32 && |peer| <= 32 && |sid| <= 32
    ensures |Json.Render(KeyedFields("chat_accept", id, peer, sid))| < 512
  {
    hide Json.RenderFields, BinToHex;
    var hex := BinToHex(id.public);
    var fields := KeyedFields("chat_accept", id, peer, sid);
    assert |hex| == 64;
    assert fields == [("type", "chat_accept"), ("from", id.username), ("to", peer), ("session_id", sid),
      ("public_key", hex)];
    FieldsLength(fields);
  }

  lemma FieldLength(f: Json.Field)
    requires |f.0| <= 10 && |f.1| <= 64
    ensures |Json.RenderField(f)| <= 79
  {
  }

  lemma {:induction false} FieldsLength(fields: seq<Json.Field>)
    requires forall f :: f in fields ==> |f.0| <= 10 && |f.1| <= 64
    ensures |Json.RenderFields(fields)| <= 80 * |fields|
  {
    hide Json.RenderField;
    if fields != [] {
      assert fields[0] in fields;
      FieldLength(fields[0]);
      FieldsLength(fields[1..]);
    }
  }

  lemma QueueDecides(s: State, fields: seq<Json.Field>)
    requires |Json.Render(fields)| < 512
    ensures QueueBuilt(s, fields, 512).1 <==> s.pending.None?
  {
    hide Json.Render;
  }

  lemma BegunIsUnready(s: State, peer: string, id: string, controlling: bool, pk: Key, env: Env)
    ensures !BeginIce(s, peer, id, controlling, pk, env).0.chat.ready
  {
    hide Fail;
    forall m: State, reason: Reason
      ensures !Fail(m, reason, env).chat.ready
    {
      FailWipes(m, reason, env);
    }
  }

  lemma VerifyDecides(s: State, name: string, key: Key, io: Contacts.Io)
    ensures
      var (t, result) := Verify(s, name, key, io);
      && result == Contacts.VerifyOrPin(s.contacts, name, key, io).0
      && t.chat == s.chat && t.session == s.session && t.pending == s.pending
  {
    hide Contacts.VerifyOrPin;
  }

  /** A welcome request while a control message waits cannot be answered: it takes the session out of SECURE and
      leaves it ready. One that can be answered replaces the session, and any other changes nothing. */
  lemma RequestDecides(s: State, json: string, env: Env)
    requires s.chat.active && s.chat.ready && s.session == Secure
    ensures
      var t := HandleChatRequest(s, json, env);
      if !IsWelcome(s, json, env) then t.chat == s.chat && t.session == Secure
      else if s.pending.Some? then t.chat == s.chat && t.session == Requesting
      else !t.chat.ready
  {
    hide Verify, QueueBuilt, BeginIce, Json.GetString, Packet.UsernameIsValid, KeyedFields, HexToKey,
      Contacts.VerifyOrPin, Json.Render,
      Books;
    var from := Json.GetString(json, "from", 33);
    var id := Json.GetString(json, "session_id", 33);
    var hex := Json.GetString(json, "public_key", 65);
    if from.Some? && id.Some? && hex.Some? && HexToKey(hex.value).Some? {
      var key := HexToKey(hex.value).value;
      VerifyDecides(s, from.value, key, env.io);
      var s1 := Verify(s, from.value, key, env.io).0;
      var e := Enter(s1, Requesting);
      var fields := KeyedFields("chat_accept", s.id, from.value, id.value);
      StringIsShort(json, "from", 33);
      StringIsShort(json, "to", 33);
      StringIsShort(json, "session_id", 33);
      if IsWelcome(s, json, env) {
        AnswerFits(s.id, from.value, id.value);
        QueueDecides(e, fields);
        QueueKeepsCore(e, fields, 512);
        BegunIsUnready(QueueBuilt(e, fields, 512).0, from.value, id.value, false, key, env);
      }
    }
  }

  lemma AcceptDecides(s: State, json: string, env: Env)
    requires s.chat.ready && s.session == Secure
    ensures var t := HandleChatAccept(s, json, env); t.chat.ready ==> t.session == Secure
  {
    hide Verify, QueueBuilt, BeginIce, Respond, Json.GetString, PeerFields, HexToKey, Books;
    var from := Json.GetString(json, "from", 33);
    var id := Json.GetString(json, "session_id", 33);
    var hex := Json.GetString(json, "public_key", 65);
    if from.Some? && id.Some? && hex.Some? && HexToKey(hex.value).Some? {
      var key := HexToKey(hex.value).value;
      VerifyDecides(s, from.value, key, env.io);
      var s1 := Verify(s, from.value, key, env.io).0;
      var fields := PeerFields("chat_cancel", s.id, from.value, id.value);
      QueueKeepsCore(s1, fields, 384);
      RespondKeepsCore(QueueBuilt(s1, fields, 384).0, IdentityMismatch(from.value));
      RespondKeepsCore(s1, CliError(ContactVerificationFailed));
      BegunIsUnready(s1, from.value, id.value, true, key, env);
      RespondKeepsCore(BeginIce(s1, from.value, id.value, true, key, env).0, IceFailed(from.value));
    }
  }

  lemma MessageDecides(sodium: Crypto.Sodium, s: State, json: string, env: Env)
    requires Good(sodium, s) && s.chat.active && s.chat.ready && s.session == Secure
    ensures
      var t := HandleReceive(sodium, s, json, env);
      t.chat.ready && t.session != Secure <==>
        Json.GetString(json, "type", 32) == Some("chat_request") && IsWelcome(s, json, env) && s.pending.Some?
  {
    hide Good, HandleChatRequest, HandleChatAccept, HandleUserStatus, HandleError, HandleChallenge,
      HandleIceCredentials,
      HandleChatCancel, QueueBuilt, HelloFields, Json.GetString, IsWelcome, Setup.Steady;
    var kind := Json.GetString(json, "type", 32);
    RequestDecides(s, json, env);
    AcceptDecides(s, json, env);
    if kind != Some("chat_request") && kind != Some("chat_accept") {
      Setup.MessageIsSteady(sodium, s, json, env);
      MessageIsGood(sodium, s, json, env);
      SteadyIsSeated(sodium, s, HandleReceive(sodium, s, json, env));
    }
  }

  lemma SteadyIsSeated(sodium: Crypto.Sodium, s: State, t: State)
    requires Good(sodium, t) && Setup.Steady(s, t) && s.session == Secure
    ensures t.chat.ready ==> t.session == Secure
  {
    hide Live, NeverRekeys;
  }

  // ---------------------------------------------------------------- service calls

  lemma HandleIsSeated(sodium: Crypto.Sodium, s: State, packet: Bytes, arrives: bool)
    requires Live(sodium, s) && s.chat.ready
    ensures var t := HandlePacket(sodium, s, packet, arrives).0; t.chat.active ==> t.session == s.session
  {
    hide Live, HandleHandshake, HandleHeader, OpenPayload, Packet.Decode;
    var payload := packet[if |packet| < 6 then 0 else 6..];
    DuplicatesIgnored(sodium, s, payload);
    OpenIsSeated(sodium, s, Packet.MESSAGE, payload, arrives);
    OpenIsSeated(sodium, s, Packet.CLOSE, payload, arrives);
  }

  lemma PacketIsSeated(sodium: Crypto.Sodium, s: State, arrives: bool)
    requires Live(sodium, s) && s.chat.ready
    ensures var t := Process(sodium, s, arrives).0; t.chat.active ==> t.session == s.session
  {
    if s.chat.ice.queue != [] {
      PopIsLive(sodium, s);
      HandleIsSeated(sodium, Pop(s), s.chat.ice.queue[0], arrives);
    }
    hide Live, HandlePacket;
  }

  lemma OpenIsSeated(sodium: Crypto.Sodium, s: State, kind: byte, payload: Bytes, arrives: bool)
    ensures var t := OpenPayload(sodium, s, kind, payload, arrives).0; t.chat.active ==> t.session == s.session
  {
    hide Crypto.Decrypt, OneLine;
  }

  lemma {:induction false} DrainIsSeated(sodium: Crypto.Sodium, s: State, n: nat, env: Env)
    requires Sound(sodium, s) && (s.chat.active ==> s.chat.ready && s.session == Secure)
    ensures var t := Drain(sodium, s, n, env); t.chat.active ==> t.session == Secure
    decreases n
  {
    hide Sound, Process, Fail;
    if n > 0 {
      if s.chat.active {
        ActiveIsLive(sodium, s);
        PacketIsSeated(sodium, s, Flag(env.writes, n));
      } else {
        IdleProcess(sodium, s, Flag(env.writes, n));
      }
      ProcessReady(sodium, s, Flag(env.writes, n));
      var (next, ok) := Process(sodium, s, Flag(env.writes, n));
      FailWipes(next, Rejected, env);
      if ok {
        DrainIsSeated(sodium, next, n - 1, env);
      }
    }
  }

  lemma ServiceIsSeated(sodium: Crypto.Sodium, s: State, env: Env)
    requires Good(sodium, s) && s.chat.active && s.chat.ready && s.session == Secure
    ensures var t := ServiceIce(sodium, s, env); t.chat.ready ==> t.session == Secure
  {
    hide Good, Sound, Live, Fail, ApplyPendingSdp, QueueLocalSdp, NoteConnected, ServiceCrypto, Books;
    GoodFacts(sodium, s);
    ActiveIsLive(sodium, s);
    ReadyIsNotified(sodium, s);
    var s1 := ApplyPendingSdp(s, env).0;
    var s2 := QueueLocalSdp(s1, env).0;
    PendingSdpIsSound(sodium, s, env);
    LocalSdpIsSound(sodium, s1, env);
    SdpKeepsSeat(s, env);
    SdpKeepsSeat(s1, env);
    FailWipes(s, Timeout, env);
    FailWipes(s1, Transport, env);
    FailWipes(s2, Transport, env);
    FailWipes(s2, Timeout, env);
    AlreadyNoted(s2, env);
    CryptoIsSeated(sodium, s2, env);
  }

  lemma ReadyIsNotified(sodium: Crypto.Sodium, s: State)
    requires Live(sodium, s) && s.chat.ready
    ensures s.chat.cliNotified
  {
    hide PeerPart, HandshakePart, PushPart, WirePart, PullPart, Crypto.Verifies, Crypto.Derive;
  }

  lemma SdpKeepsSeat(s: State, env: Env)
    ensures
      var t := ApplyPendingSdp(s, env).0;
      t.session == s.session && t.chat.ready == s.chat.ready && t.chat.cliNotified == s.chat.cliNotified
    ensures
      var t := QueueLocalSdp(s, env).0;
      t.session == s.session && t.chat.ready == s.chat.ready && t.chat.cliNotified == s.chat.cliNotified
  {
    hide Json.Render, SdpFields;
  }

  lemma CryptoIsSeated(sodium: Crypto.Sodium, s: State, env: Env)
    requires Sound(sodium, s) && s.chat.active && s.chat.ready && s.session == Secure
    ensures var t := ServiceCrypto(sodium, s, env); t.chat.ready ==> t.session == Secure
  {
    DrainIsSeated(sodium, s, QUEUE_CAPACITY, env);
    DrainIsSound(sodium, s, QUEUE_CAPACITY, env);
    SeatedWhenSound(sodium, Drain(sodium, s, QUEUE_CAPACITY, env));
    hide Sound, Drain, Books;
  }

  lemma SeatedWhenSound(sodium: Crypto.Sodium, s: State)
    requires Sound(sodium, s) && (s.chat.active ==> s.session == Secure)
    ensures s.chat.ready ==> s.session == Secure
  {
    if s.chat.ready {
      ReadyIsActive(sodium, s);
    }
  }

  // ---------------------------------------------------------------- every event

  /** Over every event of the machine: a ready SECURE session is left ready but no longer SECURE exactly when a
      client asks for another chat that starts a request of its own, or when a welcome chat request arrives while a
      control message waits. */
  lemma UnseatedExactlyByRequests(sodium: Crypto.Sodium, s: State, e: Event)
    requires Good(sodium, s) && s.chat.ready && s.session == Secure
    ensures var t := Step(sodium, s, e); t.chat.ready && t.session != Secure <==> Unseats(s, e)
  {
    hide Good, Sound, HandleReceive, OpenChat, ServiceIce, Json.GetString, IsWelcome, StartsRequest, Begins,
      Setup.Steady;
    GoodFacts(sodium, s);
    ReadyIsActive(sodium, s);
    if e.ServerMessage? {
      MessageDecides(sodium, s, CString(e.json), e.env);
    } else if e.OpenChatCommand? {
      CommandDecides(s, e.fd, e.peer, e.env);
    } else if e.Service? {
      ServiceIsSeated(sodium, s, e.env);
    } else {
      Setup.OtherIsSteady(sodium, s, e);
      StepIsGood(sodium, s, e);
      SteadyIsSeated(sodium, s, Step(sodium, s, e));
    }
  }

  /** While a session is unseated, its peer's next message is refused. */
  lemma UnseatedRefusesMessages(sodium: Crypto.Sodium, s: State, e: Event, kind: byte, c: Bytes, arrives: bool)
    requires Good(sodium, s) && s.chat.ready && s.session == Secure && Unseats(s, e)
    requires (kind == Packet.MESSAGE || kind == Packet.CLOSE) && |c| <= Packet.MAX_MESSAGE_SIZE
    ensures !HandlePacket(sodium, Step(sodium, s, e), Packet.Frame(kind, c), arrives).1
  {
    hide Good, Step, HandlePacket, OpenPayload, Packet.Frame, Unseats;
    UnseatedExactlyByRequests(sodium, s, e);
    HandleFrame(sodium, Step(sodium, s, e), kind, c, arrives);
  }

  // ---------------------------------------------------------------- before the handshake

  /** A request of its own during setup replaces the session id of the running session, and nothing else of it. */
  lemma RequestReplacesId(s: State, fd: int, peer: string, env: Env)
    requires StartsRequest(s, peer)
    ensures OpenChat(s, fd, peer, env).chat == s.chat.(sessionId := env.sessionId)
  {
    hide KeyedFields, Json.Render, Packet.UsernameIsValid;
  }

  /** When the handshake has not gone out, the new id is the one that it signs. */
  lemma HandshakeSignsNewId(sodium: Crypto.Sodium, s: State, fd: int, peer: string, env: Env, later: Env)
    requires StartsRequest(s, peer) && s.chat.role != Crypto.NoRole && later.kxSecret.Some?
    ensures
      var (t, ok) := InitHandshake(sodium, OpenChat(s, fd, peer, env), later);
      ok && t.chat.hs.sessionId == Ascii(env.sessionId)
  {
    RequestReplacesId(s, fd, peer, env);
    InitEffect(sodium, OpenChat(s, fd, peer, env), later);
    hide OpenChat, StartsRequest, Crypto.KxMessage, Ascii;
  }
}
