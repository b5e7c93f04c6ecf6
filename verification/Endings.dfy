/** How sessions end: by cancel, by the client leaving, by the transport, by a deadline; and what does not end them. */
module Endings {
  import opened Completion
  import opened Daemon
  import opened Introduction
  import opened JsonRoundTrip
  import opened Login
  import opened Octets
  import opened RelayDelivery
  import opened Reports
  import opened Session
  import opened Signalling
  import Contacts
  import Crypto
  import Json
  import Packet
  import Relay
  import Unseating

  // ---------------------------------------------------------------- a changed key, and the cancel it causes

  /** A cancel as its receiver reads it. */
  ghost predicate Cancels(json: string, from: string, to: string, sid: string) {
    && Says(json, "chat_cancel") && |json| < 384
    && Json.GetString(json, "from", 33) == Some(from) && Json.GetString(json, "to", 33) == Some(to)
    && Json.GetString(json, "session_id", 33) == Some(sid)
  }

  lemma PeerCancels(id: Crypto.Identity, peer: string, sid: string)
    requires Clear(id.username) && Clear(peer) && GoodId(sid)
    ensures Cancels(Json.Render(PeerFields("chat_cancel", id, peer, sid)), id.username, peer, sid)
  {
    hide Word, Plain, Copies, Json.GetString, Json.Render, Packet.UsernameIsValid, Says, AllPlain;
    NameIsWord(id.username);
    NameIsWord(peer);
    IdIsWord(sid);
    FieldsAreWords();
    PeerKindsAreWords();
    var rest: seq<Json.Field> := [("from", id.username), ("to", peer), ("session_id", sid)];
    var fields := PeerFields("chat_cancel", id, peer, sid);
    assert fields == [("type", "chat_cancel")] + rest;
    BuiltSays("chat_cancel", rest, 44);
    assert KindOfPeer("chat_cancel");
    NothingIsPlain();
    assert fields + [] == fields;
    RoutingRoundTrip("chat_cancel", id, peer, sid, []);
  }

  lemma NothingIsPlain()
    ensures AllPlain([])
  {
  }

  /** A cancel from the session's peer, for this user and this session, ends it; any other changes nothing. */
  lemma CancelEnds(sodium: Crypto.Sodium, s: State, json: string, from: string, to: string, sid: string, env: Env)
    requires Cancels(json, from, to, sid)
    ensures
      Step(sodium, s, ServerMessage(json, env))
      == if s.chat.active && from == s.chat.peer && to == s.id.username && sid == s.chat.sessionId
         then s.(session := Closed, chat := NO_CHAT) else s
  {
    hide Json.GetString, Says, Step;
    DaemonReads(sodium, s, json, "chat_cancel", env);
    hide HandleChatRequest, HandleChatAccept, HandleIceCredentials, HandleError, HandleUserStatus, HandleChallenge;
  }

  /** An accept under another key than the pinned one: no session begins, the client is told and let go, and the peer is
      sent a cancel that ends the session it has begun. */
  lemma MismatchCancels(
      sodium: Crypto.Sodium, s: State, json: string, b: Crypto.Identity, sid: string, env: Env, peer: State, later: Env)
    requires Invites(json, "chat_accept", b, s.id.username, sid) && GoodId(sid) && s.pending.None?
    requires Clear(b.username) && Clear(s.id.username)
    requires s.client.Some? && s.lookupPeer == b.username && s.chat.sessionId == sid
    requires Contacts.VerifyOrPin(s.contacts, b.username, b.public, env.io).0 == Contacts.ErrMismatch
    requires peer.chat.active && peer.chat.peer == s.id.username && peer.id.username == b.username
    requires peer.chat.sessionId == sid
    ensures
      var t := Step(sodium, s, ServerMessage(json, env));
      && t.client.None? && t.chat == s.chat && t.log.cli == s.log.cli + [(s.client.value, IdentityMismatch(b.username))]
      && t.pending.Some?
      && Step(sodium, peer, ServerMessage(t.pending.value, later)) == peer.(session := Closed, chat := NO_CHAT)
  {
    hide Json.GetString, Json.Render, HexToKey, Step, BeginIce, PeerFields, Packet.UsernameIsValid, Says,
      Contacts.VerifyOrPin, Cancels, GoodId, QueueBuilt, HandleChatRequest, HandleIceCredentials, HandleChatCancel,
      Reserved;
    DaemonReads(sodium, s, json, "chat_accept", env);
    var s1 := Verify(s, b.username, b.public, env.io).0;
    var fields := PeerFields("chat_cancel", s.id, b.username, sid);
    PeerCancels(s.id, b.username, sid);
    CancelFits(Json.Render(fields), s.id.username, b.username, sid);
    FreeBufferQueues(s1, fields, 384);
    CancelEnds(sodium, peer, Json.Render(fields), s.id.username, b.username, sid, later);
  }

  /** A cancel passes the server like any message between two users who are online. */
  lemma CancelPasses(
      s: Relay.Server, json: string, from: Crypto.Identity, to: Crypto.Identity, sid: string, c: Relay.Conn,
      target: Relay.Conn)
    requires Cancels(json, from.username, to.username, sid) && sid != ""
    requires Packet.UsernameIsValid(from.username) && Packet.UsernameIsValid(to.username)
    requires IsOnline(s, c, from) && IsOnline(s, target, to) && s.sessions[target].pending == ""
    ensures Relayable(json, "chat_cancel") && Passes(s, c, json, "chat_cancel", target)
  {
    hide Cancels, Routes, Relayable, Passes, IsOnline, Packet.UsernameIsValid, Relay.ClaimedKey;
    CancelRoutes(json, from.username, to.username, sid);
    RoutedPasses(s, json, "chat_cancel", from, to, sid, c, target);
  }

  lemma CancelRoutes(json: string, from: string, to: string, sid: string)
    requires Cancels(json, from, to, sid)
    ensures Routes(json, "chat_cancel", from, to, sid)
  {
    hide Json.GetString, Says;
  }

  lemma CancelFits(json: string, from: string, to: string, sid: string)
    requires Cancels(json, from, to, sid)
    ensures |json| < 384
  {
  }

  /** Any other reason not to accept the key: the client is told that the contact could not be verified. */
  lemma UnverifiedIsReported(sodium: Crypto.Sodium, s: State, json: string, b: Crypto.Identity, sid: string, env: Env)
    requires Invites(json, "chat_accept", b, s.id.username, sid)
    requires s.client.Some? && s.lookupPeer == b.username && s.chat.sessionId == sid
    requires
      var result := Contacts.VerifyOrPin(s.contacts, b.username, b.public, env.io).0;
      result != Contacts.Ok && result != Contacts.ErrMismatch
    ensures
      var t := Step(sodium, s, ServerMessage(json, env));
      && t.client.None? && t.chat == s.chat && t.pending == s.pending
      && t.log.cli == s.log.cli + [(s.client.value, CliError(ContactVerificationFailed))]
  {
    hide Json.GetString, HexToKey, Step, BeginIce, PeerFields, Says, Contacts.VerifyOrPin, QueueBuilt,
      HandleChatRequest, HandleIceCredentials, HandleChatCancel;
    DaemonReads(sodium, s, json, "chat_accept", env);
  }

  /** An accept that nobody waits for changes nothing: without a client, from another user than the one asked, for
      another user, or for another session. */
  lemma StrayAcceptIsIgnored(
      sodium: Crypto.Sodium, s: State, json: string, b: Crypto.Identity, to: string, sid: string, env: Env)
    requires Invites(json, "chat_accept", b, to, sid)
    requires s.client.None? || b.username != s.lookupPeer || to != s.id.username || sid != s.chat.sessionId
    ensures Step(sodium, s, ServerMessage(json, env)) == s
  {
    hide Json.GetString, HexToKey, Step, BeginIce, PeerFields, Says, Verify, QueueBuilt, Respond, HandleChatRequest,
      HandleIceCredentials, HandleChatCancel;
    DaemonReads(sodium, s, json, "chat_accept", env);
  }

  /** A request that is incomplete, for somebody else or not accepted by the contact file changes nothing but, perhaps,
      that file. */
  lemma UnwelcomeIsIgnored(s: State, json: string, env: Env)
    requires !Unseating.IsWelcome(s, json, env)
    ensures HandleChatRequest(s, json, env) == s.(contacts := HandleChatRequest(s, json, env).contacts)
  {
    hide Json.GetString, Packet.UsernameIsValid, HexToKey, Contacts.VerifyOrPin, QueueBuilt, BeginIce, KeyedFields;
  }

  // ---------------------------------------------------------------- the client leaves

  /** Whatever way the client of a ready session leaves, the session is over and wiped. A client that closes says so to
      the peer, with a final message; one whose socket fails does not. */
  lemma LeavingEnds(sodium: Crypto.Sodium, s: State, input: Input, env: Env)
    requires Good(sodium, s) && s.client.Some? && s.chat.ready && (input == EndOfFile || input == ReadError)
    ensures
      var t := Step(sodium, s, ClientInput(input, env));
      && t.chat == NO_CHAT && t.client.None? && t.session == (if input == EndOfFile then Closed else Failed)
      && t.history.sealed == s.history.sealed
           + (if input == EndOfFile then [Crypto.Item([], Crypto.TAG_FINAL)] else [])
      && t.log == s.log
  {
    hide Good, SendClose;
    if input == EndOfFile {
      FarewellIsSealed(sodium, s, Flag(env.sends, 0));
    }
    assert s.history.sealed + [] == s.history.sealed;
  }

  lemma FarewellIsSealed(sodium: Crypto.Sodium, s: State, leaves: bool)
    requires Good(sodium, s) && s.chat.ready
    ensures
      var t := SendClose(sodium, s, leaves);
      t.history.sealed == s.history.sealed + [Crypto.Item([], Crypto.TAG_FINAL)] && t.log == s.log
  {
    assert s.chat.stream.pushOn by { ReadyPushes(sodium, s); }
    hide Good, Packet.Frame, Packet.Encode;
  }

  lemma ReadyPushes(sodium: Crypto.Sodium, s: State)
    requires Good(sodium, s) && s.chat.ready
    ensures s.chat.stream.pushOn
  {
    ReadyIsActive(sodium, s);
    hide PeerPart, HandshakePart, KeysPart, WirePart, NeverRekeys;
  }

  // ---------------------------------------------------------------- the connection to the server is lost

  /** A session that is ready outlives the server. A client that still waits for one is told, and let go. */
  lemma ServerLossSparesSession(sodium: Crypto.Sodium, s: State, e: Event)
    requires e == ConnectionError || e == Disconnected
    ensures
      var t := Step(sodium, s, e);
      && !t.wsi && (e == Disconnected ==> t.challenge.None?) && t.chat == s.chat && t.session == s.session
      && t.history == s.history && t.pending == s.pending
      && (s.chat.ready ==> t.client == s.client && t.log == s.log)
      && (!s.chat.ready ==>
            && t.client.None?
            && t.log.cli == s.log.cli
                 + (if s.client.None? then []
                    else [(s.client.value,
                      CliError(if e == ConnectionError then ServerUnavailable else ServerDisconnected))]))
  {
    assert s.log.cli + [] == s.log.cli;
  }

  // ---------------------------------------------------------------- the transport fails, or time runs out

  /** No deadline of the key exchange has passed when the call begins. */
  predicate InTime(s: State, env: Env) {
    s.chat.cryptoDeadline == 0 || s.chat.ready || env.clock.polled < s.chat.cryptoDeadline
  }

  /** What a failure to apply candidates and its absence leave alone. */
  ghost predicate SameNews(s: State, t: State) {
    && t.log == s.log && t.chat.ready == s.chat.ready && t.chat.ice.ready == s.chat.ice.ready
    && t.chat.iceDeadline == s.chat.iceDeadline && t.chat.cryptoDeadline == s.chat.cryptoDeadline
    && t.chat.cliNotified == s.chat.cliNotified && (s.chat.ice.failed ==> t.chat.ice.failed)
  }

  lemma NewsWithout(s: State)
    ensures SameNews(s, s) && SameNews(s, s.(chat := s.chat.(pendingSdp := None)))
  {
  }

  lemma NewsFailed(s: State)
    ensures SameNews(s, s.(chat := s.chat.(ice := s.chat.ice.(failed := true))))
  {
  }

  lemma AppliedKeepsNews(s: State, env: Env)
    ensures SameNews(s, ApplyPendingSdp(s, env).0)
  {
    NewsWithout(s);
    NewsFailed(s);
    hide SameNews;
  }

  lemma OfferedKeepsNews(s: State, t: State)
    requires t == s.(pending := t.pending, phase := t.phase, chat := s.chat.(localSdpSent := t.chat.localSdpSent))
    ensures t.log == s.log && t.chat.ready == s.chat.ready && t.chat.ice == s.chat.ice
    ensures t.chat.iceDeadline == s.chat.iceDeadline && t.chat.cryptoDeadline == s.chat.cryptoDeadline
    ensures t.chat.cliNotified == s.chat.cliNotified
  {
  }

  /** A session whose transport has failed is given up at the next service call, for that reason. */
  lemma TransportFailureEnds(sodium: Crypto.Sodium, s: State, env: Env)
    requires s.chat.active && s.chat.ice.failed && InTime(s, env)
    ensures
      var t := Step(sodium, s, Service(env));
      Wiped(t.chat) && t.log.failures == s.log.failures + [Transport]
  {
    hide ApplyPendingSdp, QueueLocalSdp, NoteConnected, ServiceCrypto, Fail, Step;
    var s1 := ApplyPendingSdp(s, env).0;
    var s2 := QueueLocalSdp(s1, env).0;
    AppliedKeepsNews(s, env);
    LocalShape(s1, env);
    OfferedKeepsNews(s1, s2);
    FailWipes(s1, Transport, env);
    FailWipes(s2, Transport, env);
    StepService(sodium, s, env);
  }

  /** What the transport reports ends the session at the next service call: a failure, or a datagram that is too long
      for a slot of the ring. */
  lemma ReportedFailureEnds(sodium: Crypto.Sodium, s: State, e: Event, env: Env)
    requires e == TransportFailed || (e.Datagram? && |e.packet| > ICE_PACKET_MAX)
    requires s.chat.active && s.chat.ice.agent && InTime(s, env)
    ensures
      var t := Step(sodium, Step(sodium, s, e), Service(env));
      Wiped(t.chat) && t.log.failures == s.log.failures + [Transport]
  {
    var u := Step(sodium, s, e);
    assert u == s.(chat := s.chat.(ice := s.chat.ice.(failed := true)));
    NewsFailed(s);
    hide Step;
    TransportFailureEnds(sodium, u, env);
  }

  lemma TakingKeepsFailures(sodium: Crypto.Sodium, s: State, arrives: bool)
    ensures Process(sodium, s, arrives).0.log.failures == s.log.failures
  {
    if s.chat.ice.queue != [] {
      HandlingKeepsFailures(sodium, Pop(s), s.chat.ice.queue[0], arrives);
    }
    hide HandlePacket;
  }

  lemma HandlingKeepsFailures(sodium: Crypto.Sodium, s: State, packet: Bytes, arrives: bool)
    ensures HandlePacket(sodium, s, packet, arrives).0.log.failures == s.log.failures
  {
    hide OpenPayload, Packet.Decode, HandleHandshake, HandleHeader;
    var payload := packet[if |packet| < 6 then 0 else 6..];
    FinishKeepsScreen(sodium, s, payload);
    ReceiveKeepsScreen(s, payload);
    OpeningKeepsFailures(sodium, s, Packet.MESSAGE, payload, arrives);
    OpeningKeepsFailures(sodium, s, Packet.CLOSE, payload, arrives);
  }

  lemma OpeningKeepsFailures(sodium: Crypto.Sodium, s: State, kind: byte, payload: Bytes, arrives: bool)
    ensures OpenPayload(sodium, s, kind, payload, arrives).0.log.failures == s.log.failures
  {
    hide Crypto.Decrypt, OneLine;
  }

  lemma {:induction false} DrainFails(sodium: Crypto.Sodium, s: State, n: nat, env: Env)
    ensures
      var t := Drain(sodium, s, n, env);
      t.log.failures == s.log.failures || t.log.failures == s.log.failures + [Rejected]
    decreases n
  {
    hide Process, Fail;
    if n > 0 {
      var (next, ok) := Process(sodium, s, Flag(env.writes, n));
      TakingKeepsFailures(sodium, s, Flag(env.writes, n));
      FailWipes(next, Rejected, env);
      if ok {
        DrainFails(sodium, next, n - 1, env);
      }
    }
  }

  lemma SetupFails(sodium: Crypto.Sodium, s: State, env: Env)
    requires !s.chat.ready
    ensures
      ServiceSetup(sodium, s, env).log.failures == s.log.failures + [Timeout] ==>
        s.chat.hasRemotePk && s.chat.cryptoDeadline != 0 && env.clock.crypto >= s.chat.cryptoDeadline
  {
    hide SetupRound, BecomeSecure, Fail;
    RoundKeepsScreen(sodium, s, env);
    var (r, failed) := SetupRound(sodium, s, env);
    FailWipes(s, NoRemoteKey, env);
    FailWipes(s, Timeout, env);
    if failed.Some? {
      FailWipes(r, failed.value, env);
      RoundReasons(sodium, s, env);
    } else {
      BecomingKeepsFailures(r);
    }
    OneMoreReason(s.log.failures, NoRemoteKey);
  }

  lemma OneMoreReason(failures: seq<Reason>, reason: Reason)
    ensures failures + [reason] != failures
    ensures forall other :: failures + [reason] == failures + [other] ==> reason == other
  {
    forall other | failures + [reason] == failures + [other]
      ensures reason == other
    {
      assert (failures + [reason])[|failures|] == reason && (failures + [other])[|failures|] == other;
    }
  }

  lemma BecomingKeepsFailures(s: State)
    ensures BecomeSecure(s).log.failures == s.log.failures
  {
  }

  /** A round of setup fails because a datagram was refused, was not sent or could not be made: never for the time. */
  lemma RoundReasons(sodium: Crypto.Sodium, s: State, env: Env)
    ensures
      var failed := SetupRound(sodium, s, env).1;
      failed.Some? ==> failed.value in [Rejected, SendError, LibraryError]
  {
    hide SetupHandshake, Process, SetupHeader;
  }

  /** A session times out only when its time is up: thirty seconds after it began while the transport is not up, or
      thirty seconds after the transport came up while the session is not ready. */
  lemma TimeoutIsDue(sodium: Crypto.Sodium, s: State, env: Env)
    requires s.chat.active && Step(sodium, s, Service(env)).log.failures == s.log.failures + [Timeout]
    ensures
      || (!s.chat.ice.ready && env.clock.polled >= s.chat.iceDeadline)
      || (!s.chat.ready && s.chat.cryptoDeadline != 0 && env.clock.polled >= s.chat.cryptoDeadline)
      || (s.chat.ice.ready && !s.chat.ready && env.clock.crypto
            >= if s.chat.cliNotified then s.chat.cryptoDeadline else env.clock.connected + CRYPTO_TIMEOUT)
  {
    hide ApplyPendingSdp, QueueLocalSdp, NoteConnected, ServiceSetup, Drain, Fail, Step;
    var s1 := ApplyPendingSdp(s, env).0;
    var s2 := QueueLocalSdp(s1, env).0;
    var s3 := NoteConnected(s2, env);
    AppliedKeepsNews(s, env);
    LocalShape(s1, env);
    OfferedKeepsNews(s1, s2);
    NotedNews(s2, env);
    FailWipes(s, Timeout, env);
    FailWipes(s1, Transport, env);
    FailWipes(s2, Transport, env);
    FailWipes(s2, Timeout, env);
    OneMoreReason(s.log.failures, Transport);
    OneMoreReason(s.log.failures, Rejected);
    if !s3.chat.ready {
      SetupFails(sodium, s3, env);
    }
    DrainFails(sodium, s3, QUEUE_CAPACITY, env);
    StepService(sodium, s, env);
  }

  lemma NotedNews(s: State, env: Env)
    ensures
      var t := NoteConnected(s, env);
      && t.log == s.log && t.chat.ready == s.chat.ready && t.chat.ice == s.chat.ice
      && t.chat.cryptoDeadline
         == if s.chat.cliNotified then s.chat.cryptoDeadline else env.clock.connected + CRYPTO_TIMEOUT
  {
  }

  /** A session that has just begun has thirty seconds for its transport to come up. */
  lemma NewSessionHasTime(sodium: Crypto.Sodium, s: State, peer: string, sid: string, controlling: bool, key: Key,
      env: Env, later: Env)
    requires BeginIce(s, peer, sid, controlling, key, env).1
    ensures
      var t := BeginIce(s, peer, sid, controlling, key, env).0;
      Step(sodium, t, Service(later)).log.failures == t.log.failures + [Timeout] ==>
        later.clock.polled >= env.clock.polled + 30
  {
    var t := BeginIce(s, peer, sid, controlling, key, env).0;
    BegunDeadlines(s, peer, sid, controlling, key, env);
    hide BeginIce, Step;
    if Step(sodium, t, Service(later)).log.failures == t.log.failures + [Timeout] {
      TimeoutIsDue(sodium, t, later);
    }
  }

  lemma BegunDeadlines(s: State, peer: string, sid: string, controlling: bool, key: Key, env: Env)
    requires BeginIce(s, peer, sid, controlling, key, env).1
    ensures
      var c := BeginIce(s, peer, sid, controlling, key, env).0.chat;
      && c.active && !c.ready && !c.ice.ready && c.cryptoDeadline == 0
      && c.iceDeadline == env.clock.polled + ICE_TIMEOUT
  {
    hide Fail, Clip;
  }

  /** A session that is overdue before it is ready is given up for that reason, whatever else is to be done. */
  lemma OverdueEnds(sodium: Crypto.Sodium, s: State, env: Env)
    requires s.chat.active && !s.chat.ready && s.chat.cryptoDeadline != 0 && env.clock.polled >= s.chat.cryptoDeadline
    ensures
      var t := Step(sodium, s, Service(env));
      Wiped(t.chat) && t.log.failures == s.log.failures + [Timeout]
  {
    FailWipes(s, Timeout, env);
    StepService(sodium, s, env);
    hide Step, Fail;
  }

  // ---------------------------------------------------------------- what a ready session takes

  /** One service call of a ready session takes everything that waits, or ends the session. */
  lemma ReadyCatchesUp(sodium: Crypto.Sodium, s: State, env: Env)
    requires s.chat.active && s.chat.ready && s.chat.ice.ready && |s.chat.ice.queue| <= QUEUE_CAPACITY
    ensures Step(sodium, s, Service(env)).chat.ice.queue == []
  {
    hide ApplyPendingSdp, QueueLocalSdp, NoteConnected, Drain, Fail, Step;
    var s1 := ApplyPendingSdp(s, env).0;
    var s2 := QueueLocalSdp(s1, env).0;
    var s3 := NoteConnected(s2, env);
    AppliedSparesQueue(s, env);
    LocalShape(s1, env);
    FailWipes(s1, Transport, env);
    FailWipes(s2, Transport, env);
    NotedSparesQueue(s2, env);
    DrainEmpties(sodium, s3, QUEUE_CAPACITY, env);
    StepService(sodium, s, env);
  }

  // ---------------------------------------------------------------- commands of a ready session

  /** A line of a client: a valid text that leaves is sealed without a word; one that is not valid or does not leave is
      answered with an error, as is anything that is no command; an empty line is passed over. */
  lemma CommandIsAnswered(sodium: Crypto.Sodium, s: State, line: string, leaves: bool)
    requires Crypto.Lawful(sodium) && Good(sodium, s) && s.chat.ready && s.session == Secure && s.client.Some?
    requires s.chat.ice.ready
    ensures
      var t := OneCommand(sodium, s, line, leaves);
      var text := if SEND <= line then Ascii(line[|SEND|..]) else [];
      && t.history.sealed == s.history.sealed
           + (if SEND <= line && TextIsValid(text) then [Crypto.Item(text, Crypto.TAG_MESSAGE)] else [])
      && t.log.cli == s.log.cli
           + (if line == "" || (SEND <= line && TextIsValid(text) && |text| <= 4073 && leaves) then []
              else [(s.client.value, CliError(if SEND <= line then SendFailed else UnknownCommand))])
  {
    hide Ascii, TextIsValid, Good, SendEncrypted, Crypto.Lawful;
    assert s.history.sealed + [] == s.history.sealed && s.log.cli + [] == s.log.cli;
    if SEND <= line {
      var text := Ascii(line[|SEND|..]);
      if TextIsValid(text) {
        ReadyPushes(sodium, s);
        assert s.chat.ice.agent && |text| <= TEXT_MAX by { ReadyHasAgent(sodium, s); ValidFits(text); }
        SealIsAnswered(sodium, s, Crypto.Item(text, Crypto.TAG_MESSAGE), leaves);
      }
    }
  }

  lemma ReadyHasAgent(sodium: Crypto.Sodium, s: State)
    requires Good(sodium, s) && s.chat.ready
    ensures s.chat.ice.agent
  {
    ReadyIsActive(sodium, s);
    hide PeerPart, HandshakePart, KeysPart, PushPart, PullPart, WirePart, NeverRekeys;
  }

  lemma ValidFits(text: Bytes)
    requires TextIsValid(text)
    ensures |text| <= TEXT_MAX
  {
  }

  lemma SealIsAnswered(sodium: Crypto.Sodium, s: State, item: Crypto.Item, leaves: bool)
    requires s.chat.ready && s.session == Secure && s.chat.stream.pushOn && s.chat.ice.ready && s.chat.ice.agent
    requires |item.text| <= TEXT_MAX && Crypto.Lawful(sodium)
    ensures
      var (t, ok) := SendEncrypted(sodium, s, Packet.MESSAGE, item, leaves);
      && t.history.sealed == s.history.sealed + [item] && t.log == s.log && t.client == s.client
      && (ok <==> leaves && |item.text| <= 4073)
  {
    assert |sodium.seal(s.chat.stream.push, item)| == |item.text| + Crypto.STREAM_ABYTES by { hide SendEncrypted; }
    hide Packet.Frame, Crypto.Lawful;
  }

  /** An accepted session whose transport cannot be started does not begin: the client is told and let go. */
  lemma UnstartedIsReported(sodium: Crypto.Sodium, s: State, json: string, b: Crypto.Identity, sid: string, env: Env)
    requires Invites(json, "chat_accept", b, s.id.username, sid) && |sid| <= 32 && Booked(s)
    requires Packet.UsernameIsValid(b.username) && Vouches(s, b, env.io) && !env.iceStarts
    requires s.client.Some? && s.lookupPeer == b.username && s.chat.sessionId == sid
    ensures
      var t := Step(sodium, s, ServerMessage(json, env));
      && t.client.None? && !t.chat.active && t.log.failures == s.log.failures + [Transport]
      && (|| t.log.cli == s.log.cli + [(s.client.value, IceFailed(b.username))]
          || t.log.cli == s.log.cli + [(s.client.value, CliError(ChatRetryFailed))])
  {
    hide Json.GetString, HexToKey, Step, Verify, HandleChatRequest, HandleIceCredentials, HandleChatCancel,
      Packet.UsernameIsValid, Says, Vouches, Fail, QueueBuilt, PeerFields, Clip, MayRetry;
    DaemonReads(sodium, s, json, "chat_accept", env);
    VouchedVerifies(s, b, env.io);
    var s1 := Verify(s, b.username, b.public, env.io).0;
    assert 0 < |b.username| <= 32 by { NameIsWord(b.username); }
    var e := Enter(Reset(s1), IceNegotiating);
    var m := e.(chat := e.chat.(
      peer := b.username, sessionId := sid, remotePk := b.public, hasRemotePk := true, controlling := true,
      role := Crypto.Initiator));
    assert BeginIce(s1, b.username, sid, true, b.public, env) == (Fail(m, Transport, env), false);
    hide BeginIce;
    FailWipes(m, Transport, env);
    StartFailureTells(m, b.username, env);
  }

  /** What a failed start leaves to say. */
  lemma StartFailureTells(m: State, peer: string, env: Env)
    requires Booked(m) && m.client.Some? && !m.chat.ready && m.chat.peer == peer != ""
    ensures
      var t := Respond(Fail(m, Transport, env), IceFailed(peer));
      && t.client.None?
      && (|| t.log.cli == m.log.cli + [(m.client.value, IceFailed(peer))]
          || t.log.cli == m.log.cli + [(m.client.value, CliError(ChatRetryFailed))])
  {
    hide Fail;
    if MayRetry(m) && m.pending.None? {
      RetryKeepsClient(m, env);
    } else {
      GivingUpTells(m, Transport, env);
    }
  }

  lemma RetryKeepsClient(m: State, env: Env)
    requires MayRetry(m) && m.pending.None?
    ensures
      var t := Fail(m, Transport, env);
      || (t.client == m.client && t.log.cli == m.log.cli)
      || (t.client.None? && t.log.cli == m.log.cli + [(m.client.value, CliError(ChatRetryFailed))])
  {
    hide Json.Render, KeyedFields;
  }
}
