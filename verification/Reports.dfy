/** What the clients of a daemon are told, and when. */
module Reports {
  import opened Daemon
  import opened Introduction
  import opened Login
  import opened Network
  import opened Octets
  import opened Pairing
  import opened RelayDelivery
  import opened Resending
  import opened Session
  import opened Signalling
  import Crypto
  import Json
  import Packet
  import Relay
  import RelayAuthenticity

  // ---------------------------------------------------------------- an encrypted session is announced

  /** The same client, told the same, about the same peer. */
  ghost predicate SameScreen(s: State, t: State) {
    t.log == s.log && t.client == s.client && t.chat.peer == s.chat.peer && t.chat.relayed == s.chat.relayed
  }

  lemma InitKeepsScreen(sodium: Crypto.Sodium, s: State, env: Env)
    ensures SameScreen(s, InitHandshake(sodium, s, env).0)
  {
    hide Crypto.Init, Ascii;
  }

  lemma ResendKeepsScreen(s: State, env: Env)
    ensures SameScreen(s, ResendHandshake(s, env).0)
  {
    hide Packet.Frame, Packet.Encode;
  }

  lemma HandshakeKeepsScreen(sodium: Crypto.Sodium, s: State, env: Env)
    ensures SameScreen(s, SetupHandshake(sodium, s, env).0)
  {
    hide InitHandshake, ResendHandshake;
    var e := Enter(s, CryptoHandshake);
    InitKeepsScreen(sodium, e, env);
    ResendKeepsScreen(e, env);
    ResendKeepsScreen(InitHandshake(sodium, e, env).0, env);
  }

  lemma SendingKeepsScreen(s: State, env: Env)
    ensures SameScreen(s, ResendHeader(s, env).0)
  {
    hide Packet.Frame, Packet.Encode;
  }

  lemma PushKeepsScreen(s: State, header: Nonce)
    ensures SameScreen(s, StartPush(s, header))
  {
    hide Crypto.InitPush;
  }

  lemma HeaderKeepsScreen(s: State, env: Env)
    ensures SameScreen(s, SetupHeader(s, env).0)
  {
    hide StartPush, ResendHeader;
    SendingKeepsScreen(s, env);
    if env.header.Some? {
      PushKeepsScreen(s, env.header.value);
      SendingKeepsScreen(StartPush(s, env.header.value), env);
    }
  }

  lemma FinishKeepsScreen(sodium: Crypto.Sodium, s: State, payload: Bytes)
    ensures SameScreen(s, HandleHandshake(sodium, s, payload).0)
  {
    hide Crypto.Finish;
  }

  lemma ReceiveKeepsScreen(s: State, payload: Bytes)
    ensures SameScreen(s, HandleHeader(s, payload).0)
  {
    hide Crypto.InitPull;
  }

  lemma TakingKeepsScreen(sodium: Crypto.Sodium, s: State, arrives: bool)
    requires !s.chat.ready
    ensures SameScreen(s, Process(sodium, s, arrives).0)
  {
    if s.chat.ice.queue != [] {
      HandlingKeepsScreen(sodium, Pop(s), s.chat.ice.queue[0], arrives);
    }
    hide HandlePacket;
  }

  lemma HandlingKeepsScreen(sodium: Crypto.Sodium, s: State, packet: Bytes, arrives: bool)
    requires !s.chat.ready
    ensures SameScreen(s, HandlePacket(sodium, s, packet, arrives).0)
  {
    hide OpenPayload, Packet.Decode, HandleHandshake, HandleHeader, SameScreen;
    assert SameScreen(s, s) by { SelfScreen(s); }
    FinishKeepsScreen(sodium, s, packet[if |packet| < 6 then 0 else 6..]);
    ReceiveKeepsScreen(s, packet[if |packet| < 6 then 0 else 6..]);
  }

  lemma SelfScreen(s: State)
    ensures SameScreen(s, s)
  {
  }

  lemma ScreenTrans(s: State, m: State, t: State)
    requires SameScreen(s, m) && SameScreen(m, t)
    ensures SameScreen(s, t)
  {
  }

  lemma RoundKeepsScreen(sodium: Crypto.Sodium, s: State, env: Env)
    requires !s.chat.ready
    ensures SameScreen(s, SetupRound(sodium, s, env).0)
  {
    hide SetupHandshake, Process, SetupHeader, SameScreen;
    var s1 := SetupHandshake(sodium, s, env).0;
    var s2 := Process(sodium, s1, Flag(env.writes, 0)).0;
    var s3 := SetupHeader(s2, env).0;
    HandshakeKeepsScreen(sodium, s, env);
    StartKeepsTransport(sodium, s, env);
    TakingKeepsScreen(sodium, s1, Flag(env.writes, 0));
    TakingKeepsTransport(sodium, s1, Flag(env.writes, 0));
    HeaderKeepsScreen(s2, env);
    HeaderKeepsReady(s2, env);
    TakingKeepsScreen(sodium, s3, Flag(env.writes, 1));
    ScreenTrans(s, s1, s2);
    ScreenTrans(s, s2, s3);
    ScreenTrans(s, s3, Process(sodium, s3, Flag(env.writes, 1)).0);
  }

  lemma HeaderKeepsReady(s: State, env: Env)
    ensures SetupHeader(s, env).0.chat.ready == s.chat.ready
  {
    hide StartPush, ResendHeader;
    SendingKeepsReady(s, env);
    if env.header.Some? {
      PushKeepsReady(s, env.header.value);
      SendingKeepsReady(StartPush(s, env.header.value), env);
    }
  }

  lemma SendingKeepsReady(s: State, env: Env)
    ensures ResendHeader(s, env).0.chat.ready == s.chat.ready
  {
    hide Packet.Frame, Packet.Encode;
  }

  lemma PushKeepsReady(s: State, header: Nonce)
    ensures StartPush(s, header).chat.ready == s.chat.ready
  {
    hide Crypto.InitPush;
  }

  /** Is the path relayed? The pair that the transport last reported when the session first found it up. */
  function Relayed(s: State): bool {
    if !s.chat.cliNotified && s.chat.ice.pairKnown then s.chat.ice.pairRelayed else s.chat.relayed
  }

  lemma NotedScreen(s: State, env: Env)
    ensures
      var n := Noted(s, env);
      n.log == s.log && n.client == s.client && n.chat.peer == s.chat.peer && n.chat.relayed == Relayed(s)
  {
    hide ApplyPendingSdp, QueueLocalSdp;
    AppliedScreen(s, env);
    LocalScreen(ApplyPendingSdp(s, env).0, env);
  }

  ghost predicate SamePath(s: State, t: State) {
    && t.log == s.log && t.client == s.client && t.chat.peer == s.chat.peer && t.chat.relayed == s.chat.relayed
    && t.chat.cliNotified == s.chat.cliNotified && t.chat.ice.pairKnown == s.chat.ice.pairKnown
    && t.chat.ice.pairRelayed == s.chat.ice.pairRelayed
  }

  lemma UnheldPath(s: State)
    ensures SamePath(s, s.(chat := s.chat.(pendingSdp := None)))
  {
  }

  lemma BrokenPath(s: State)
    ensures SamePath(s, s.(chat := s.chat.(ice := s.chat.ice.(failed := true))))
  {
  }

  lemma SelfPath(s: State)
    ensures SamePath(s, s)
  {
  }

  lemma AppliedScreen(s: State, env: Env)
    ensures SamePath(s, ApplyPendingSdp(s, env).0)
  {
    UnheldPath(s);
    BrokenPath(s);
    SelfPath(s);
    hide SamePath;
  }

  lemma LocalScreen(s: State, env: Env)
    ensures SamePath(s, QueueLocalSdp(s, env).0)
  {
    LocalShape(s, env);
    hide QueueLocalSdp;
    PathOffered(s, QueueLocalSdp(s, env).0);
  }

  /** Offering candidates touches the buffer, the phase and one flag. */
  lemma LocalShape(s: State, env: Env)
    ensures
      var t := QueueLocalSdp(s, env).0;
      t == s.(pending := t.pending, phase := t.phase, chat := s.chat.(localSdpSent := t.chat.localSdpSent))
  {
    hide Json.Render, SdpFields;
  }

  lemma PathOffered(s: State, t: State)
    requires t == s.(pending := t.pending, phase := t.phase, chat := s.chat.(localSdpSent := t.chat.localSdpSent))
    ensures SamePath(s, t)
  {
  }

  /** When a session becomes encrypted, its client is told so, once, with the peer's name and whether the path is
      relayed; nothing else is said. */
  lemma SecureIsTold(sodium: Crypto.Sodium, s: State, e: Event)
    requires Good(sodium, s) && s.session != Secure && Step(sodium, s, e).session == Secure
    ensures
      Step(sodium, s, e).log.cli
      == s.log.cli + if s.client.None? then [] else [(s.client.value, EncryptedSession(s.chat.peer, Relayed(s)))]
    ensures Step(sodium, s, e).client == s.client
  {
    hide Good, Step, Noted, SetupRound;
    SecureOnlyFromHandshake(sodium, s, e);
    var n := Noted(s, e.env);
    NotedScreen(s, e.env);
    RoundKeepsScreen(sodium, n, e.env);
    var r := SetupRound(sodium, n, e.env).0;
    assert s.log.cli + [] == s.log.cli;
    BecomingTells(r);
  }

  lemma BecomingTells(s: State)
    requires s.chat.keysReady && s.chat.headerSent && s.chat.headerReceived
    ensures
      var t := BecomeSecure(s);
      && t.client == s.client
      && t.log.cli == s.log.cli
           + if s.client.None? then [] else [(s.client.value, EncryptedSession(s.chat.peer, s.chat.relayed))]
  {
    assert s.log.cli + [] == s.log.cli;
  }

  // ---------------------------------------------------------------- answers to OPEN_CHAT

  /** Does an OPEN_CHAT take over a session that is already encrypted with that peer? */
  predicate Attaches(s: State, peer: string) {
    && Packet.UsernameIsValid(peer) && s.phase == Online && s.wsi && peer != s.id.username
    && s.chat.active && s.chat.ready && peer == s.chat.peer && s.client.None?
  }

  /** Every OPEN_CHAT that starts no request is answered at once with one line to whoever gave it, and changes nothing
      else, except that it may take over the session that is already encrypted with that peer. */
  lemma OpenChatIsAnswered(s: State, fd: int, peer: string, env: Env)
    requires !StartsRequest(s, peer)
    ensures
      var t := OpenChat(s, fd, peer, env);
      && |t.log.cli| == |s.log.cli| + 1
      && t == s.(log := t.log, client := if Attaches(s, peer) then Some(fd) else s.client)
      && t.log == s.log.(cli := s.log.cli + [(fd, t.log.cli[|s.log.cli|].1)])
      && var line := t.log.cli[|s.log.cli|].1;
      && (Attaches(s, peer) <==> line == EncryptedSession(s.chat.peer, s.chat.relayed))
      && (!Packet.UsernameIsValid(peer) <==> line == CliError(InvalidUsername))
      && (Packet.UsernameIsValid(peer) && !(s.phase == Online && s.wsi) <==> line == CliError(DaemonNotOnline))
      && (line == UserOnline(peer) <==>
            Packet.UsernameIsValid(peer) && s.phase == Online && s.wsi && peer == s.id.username)
      && (line == CliError(Busy) <==>
            && Packet.UsernameIsValid(peer) && s.phase == Online && s.wsi && peer != s.id.username
            && !Attaches(s, peer) && (s.client.Some? || s.pending.Some?))
  {
    hide AskPeer, Packet.UsernameIsValid;
  }

  /** An OPEN_CHAT that starts a request leaves its client waiting for a request that is on its way, or told that there
      is none. */
  lemma AskingIsAnswered(s: State, fd: int, peer: string, env: Env)
    requires StartsRequest(s, peer)
    ensures
      var t := OpenChat(s, fd, peer, env);
      if t.pending.Some? then t.client == Some(fd) && t.lookupPeer == peer && t.log.cli == s.log.cli
      else t.client.None? && t.log.cli == s.log.cli + [(fd, CliError(ChatRequestFailed))]
  {
    hide Json.Render, KeyedFields, Packet.UsernameIsValid;
  }

  // ---------------------------------------------------------------- errors from the server

  /** An error while a client waits: an offline peer is reported by name, any other error with its code. Either way the
      client is let go. Only an error that is not about the peer breaks the connection. */
  lemma ErrorIsReported(sodium: Crypto.Sodium, d: State, code: string, env: Env)
    requires Word(code) && |code| <= 40 && !(d.phase == Registering && code == "user already exists")
    ensures
      var t := Step(sodium, d, ServerMessage(ErrorText(code), env));
      && t.client.None? && t.chat == d.chat && t.session == d.session && t.pending == d.pending
      && t.log.cli == d.log.cli
           + (if d.client.None? then []
              else [(d.client.value,
                if code == "peer_offline" then UserOffline(d.lookupPeer) else CliError(FromServer(code)))])
      && t.phase == if d.client.Some? && code == "peer_offline" then d.phase else Broken
  {
    hide Json.GetString, Step, ErrorText, Says, Word;
    ErrorReads(code);
    DaemonReads(sodium, d, ErrorText(code), "error", env);
    assert d.log.cli + [] == d.log.cli;
  }

  lemma OfflineIsWord()
    ensures Word("peer_offline")
  {
  }

  /** A chat request for a user who is not online comes back to the client that asked as that user being offline. */
  lemma OfflinePeerIsReported(
      sodium: Crypto.Sodium, server: Relay.Server, a: State, ca: Relay.Conn, peer: string, fd: int, envA: Env,
      envC: Env, challenge: Key)
    requires RelayAuthenticity.UniqueNames(server.users) && IsOnline(server, ca, a.id)
    requires StartsRequest(a, peer) && Clear(a.id.username) && Clear(peer) && GoodId(envA.sessionId)
    requires forall u :: u in server.users && u.name == peer ==> !u.online
    ensures
      var asking := Step(sodium, a, OpenChatCommand(fd, peer, envA));
      var after := Post(sodium, server, ca, asking, challenge);
      var t := Collect(sodium, after, ca, Step(sodium, asking, Writeable(true)), envC);
      && t.client.None? && t.log.cli == a.log.cli + [(fd, UserOffline(peer))] && t.phase == a.phase
  {
    hide Step, Post, Collect, OpenChat, Invites, StartsRequest, GoodId, Packet.UsernameIsValid, Reserved, ErrorText,
      RelayAuthenticity.UniqueNames, IsOnline, Word;
    OpenChatAsks(a, fd, peer, envA);
    assert Step(sodium, a, OpenChatCommand(fd, peer, envA)) == OpenChat(a, fd, peer, envA) by {
      OpenStep(sodium, a, fd, peer, envA);
    }
    var asking := OpenChat(a, fd, peer, envA);
    IdIsWord(envA.sessionId);
    OfflineIsRefused(sodium, server, asking, ca, peer, challenge);
    var after := Post(sodium, server, ca, asking, challenge);
    SendingFrees(sodium, asking);
    OfflineIsWord();
    ErrorIsReported(sodium, asking.(pending := None), "peer_offline", envC);
    CollectIs(sodium, after, ca, asking.(pending := None), envC);
  }

  lemma OpenStep(sodium: Crypto.Sodium, s: State, fd: int, peer: string, env: Env)
    ensures Step(sodium, s, OpenChatCommand(fd, peer, env)) == OpenChat(s, fd, peer, env)
  {
    hide OpenChat;
  }

  lemma CollectIs(sodium: Crypto.Sodium, s: Relay.Server, c: Relay.Conn, d: State, env: Env)
    requires c in s.sessions
    ensures Collect(sodium, s, c, d, env) == Step(sodium, d, ServerMessage(s.sessions[c].pending, env))
  {
    hide Step;
  }

  lemma OfflineIsRefused(
      sodium: Crypto.Sodium, server: Relay.Server, d: State, c: Relay.Conn, peer: string, challenge: Key)
    requires RelayAuthenticity.UniqueNames(server.users) && IsOnline(server, c, d.id)
    requires Packet.UsernameIsValid(d.id.username) && Packet.UsernameIsValid(peer) && d.chat.sessionId != ""
    requires d.pending.Some? && Invites(d.pending.value, "chat_request", d.id, peer, d.chat.sessionId)
    requires forall u :: u in server.users && u.name == peer ==> !u.online
    ensures
      var t := Post(sodium, server, c, d, challenge);
      c in t.sessions && t.sessions[c].pending == ErrorText("peer_offline")
  {
    hide Json.GetString, HexToKey, Packet.UsernameIsValid, Relay.Step, ErrorText, RelayAuthenticity.UniqueNames, Says;
    var json := d.pending.value;
    InvitationIsText(json, "chat_request", d.id, peer, d.chat.sessionId);
    WiderString(json, "session_id", 33, 128);
    var u := Relay.User(d.id.username, d.id.public, true, Some(c));
    assert u in server.users && Relay.ClaimedKey(json) == Some(u.key);
    assert Admits(server, c, json, "chat_request");
    assert forall target: nat :: !Reaches(server, json, target);
    assert Relayable(json, "chat_request") by { InvitationSays(json, d.id, peer, d.chat.sessionId); }
    OthersGoNowhere(sodium, server, c, json, challenge, "chat_request");
  }

  lemma InvitationSays(json: string, from: Crypto.Identity, to: string, sid: string)
    requires Invites(json, "chat_request", from, to, sid)
    ensures Relayable(json, "chat_request")
  {
    hide Json.GetString;
  }
}
