/** Transport candidates: what a daemon tells its peer about itself, what the peer makes of it, and when held candidates
 are applied. */
module Candidates {
  import opened Completion
  import opened Daemon
  import opened Introduction
  import opened JsonRoundTrip
  import opened Login
  import opened Octets
  import opened RelayDelivery
  import opened Session
  import opened Signalling
  import Crypto
  import Json
  import Packet
  import Relay
  import RelayAuthenticity

  // ---------------------------------------------------------------- the message

  const SDP_TEXT_MAX := 2731

  /** Encoded candidates as their receiver reads them. */
  ghost predicate Offers(json: string, from: string, to: string, sid: string, sdp: string) {
    && Says(json, "ice_credentials")
    && Json.GetString(json, "from", 33) == Some(from) && Json.GetString(json, "to", 33) == Some(to)
    && Json.GetString(json, "session_id", 33) == Some(sid) && Json.GetString(json, "sdp", 2732) == Some(sdp)
  }

  lemma SdpIsText(id: Crypto.Identity, peer: string, sid: string, sdp: string)
    requires Clear(id.username) && Clear(peer) && GoodId(sid) && Word(sdp) && |sdp| <= SDP_TEXT_MAX
    ensures
      var json := Json.Render(SdpFields(id, peer, sid, sdp));
      |json| < MAX_JSON && CString(json) == json
  {
    hide Word, Json.Render, Packet.UsernameIsValid, GoodId, NoNuls, AllPlain, Says;
    NameIsWord(id.username);
    NameIsWord(peer);
    IdIsWord(sid);
    FieldsAreWords();
    PeerKindsAreWords();
    TypeIsWord();
    var kind: Json.Field := ("type", "ice_credentials");
    var rest: seq<Json.Field> := [("from", id.username), ("to", peer), ("session_id", sid)];
    var f: Json.Field := ("sdp", sdp);
    assert SdpFields(id, peer, sid, sdp) == ([kind] + rest) + [f];
    BuiltSays("ice_credentials", rest, 44);
    WordsArePlain(([kind] + rest) + [f]);
    MessageIsText(([kind] + rest) + [f]);
    MessageAppend([kind] + rest, f);
  }

  lemma MessageAppend(fields: seq<Json.Field>, f: Json.Field)
    requires fields != []
    ensures |Json.Render(fields + [f])| == |Json.Render(fields)| + |f.0| + |f.1| + 6
  {
    FieldsAppend(fields, f);
    hide Json.RenderFields;
  }

  lemma SdpOffers(id: Crypto.Identity, peer: string, sid: string, sdp: string)
    requires Clear(id.username) && Clear(peer) && GoodId(sid) && Word(sdp) && |sdp| <= SDP_TEXT_MAX
    ensures Offers(Json.Render(SdpFields(id, peer, sid, sdp)), id.username, peer, sid, sdp)
  {
    hide Word, Json.Render, Json.GetString, Packet.UsernameIsValid, GoodId, Copies, Plain;
    SdpIsText(id, peer, sid, sdp);
    WordIsPlain(sdp);
    FieldsAreWords();
    WordIsPlain("sdp");
    assert KindOfPeer("ice_credentials");
    RoutingRoundTrip("ice_credentials", id, peer, sid, [("sdp", sdp)]);
    SdpRoundTrip(id, peer, sid, sdp);
  }

  // ---------------------------------------------------------------- offering

  /** Is there anything to offer at this service call? */
  predicate MayOffer(s: State) {
    s.chat.active && s.chat.ice.gatheringDone && !s.chat.localSdpSent && s.wsi && s.pending.None?
  }

  lemma QueuedOffers(s: State, env: Env, sdp: string)
    requires MayOffer(s) && env.localSdp == Some(sdp) && Word(sdp) && |sdp| <= SDP_TEXT_MAX
    requires Clear(s.id.username) && Clear(s.chat.peer) && GoodId(s.chat.sessionId)
    ensures
      var (t, ok) := QueueLocalSdp(s, env);
      && ok && t.pending.Some? && Offers(t.pending.value, s.id.username, s.chat.peer, s.chat.sessionId, sdp)
      && t == s.(pending := t.pending, chat := s.chat.(localSdpSent := true))
  {
    hide Json.Render, SdpFields, Offers, GoodId, Clear, Word;
    var fields := SdpFields(s.id, s.chat.peer, s.chat.sessionId, sdp);
    SdpOffers(s.id, s.chat.peer, s.chat.sessionId, sdp);
    SdpIsText(s.id, s.chat.peer, s.chat.sessionId, sdp);
    FreeBufferQueues(s, fields, MAX_JSON);
    hide QueueBuilt;
  }

  // ---------------------------------------------------------------- taking

  /** Candidates from the session's peer are taken: held until the own ones are gathered, and applied from then on. When
      they cannot be applied, the transport has failed. */
  lemma OfferIsTaken(sodium: Crypto.Sodium, s: State, json: string, sdp: string, plain: string, env: Env)
    requires s.chat.active && Offers(json, s.chat.peer, s.id.username, s.chat.sessionId, sdp)
    requires sodium.base64Decode(sdp) == Some(plain) && 0 < |plain| <= SDP_MAX && s.chat.ice.agent
    ensures
      Step(sodium, s, ServerMessage(json, env))
      == if !s.chat.ice.gatheringDone then s.(chat := s.chat.(pendingSdp := Some(plain)))
         else if env.remoteSdpApplies then s
         else s.(chat := s.chat.(ice := s.chat.ice.(failed := true)))
  {
    hide Json.GetString, Says, Step;
    DaemonReads(sodium, s, json, "ice_credentials", env);
    hide HandleChatRequest, HandleChatAccept, HandleChatCancel, HandleError, HandleUserStatus, HandleChallenge;
  }

  /** Anybody else's candidates change nothing. */
  lemma StrangersOfferNothing(
      sodium: Crypto.Sodium, s: State, json: string, from: string, to: string, sid: string, sdp: string, env: Env)
    requires Offers(json, from, to, sid, sdp)
    requires !s.chat.active || from != s.chat.peer || to != s.id.username || sid != s.chat.sessionId
    ensures Step(sodium, s, ServerMessage(json, env)) == s
  {
    hide Json.GetString, Says, Step;
    DaemonReads(sodium, s, json, "ice_credentials", env);
    hide HandleChatRequest, HandleChatAccept, HandleChatCancel, HandleError, HandleUserStatus, HandleChallenge;
  }

  /** Candidates that do not decode, are empty or too long are ignored. */
  lemma BadOfferIsIgnored(sodium: Crypto.Sodium, s: State, json: string, from: string, to: string, sid: string,
      sdp: string, env: Env)
    requires Offers(json, from, to, sid, sdp)
    requires
      var plain := sodium.base64Decode(sdp);
      plain.None? || plain.value == "" || |plain.value| > SDP_MAX
    ensures Step(sodium, s, ServerMessage(json, env)) == s
  {
    hide Json.GetString, Says, Step;
    DaemonReads(sodium, s, json, "ice_credentials", env);
    hide HandleChatRequest, HandleChatAccept, HandleChatCancel, HandleError, HandleUserStatus, HandleChallenge;
  }

  /** Candidates pass the server like any message between two users who are online. */
  lemma OfferPasses(
      s: Relay.Server, json: string, from: Crypto.Identity, to: Crypto.Identity, sid: string, sdp: string,
      c: Relay.Conn, target: Relay.Conn)
    requires Offers(json, from.username, to.username, sid, sdp) && sid != ""
    requires Packet.UsernameIsValid(from.username) && Packet.UsernameIsValid(to.username)
    requires IsOnline(s, c, from) && IsOnline(s, target, to) && s.sessions[target].pending == ""
    ensures Relayable(json, "ice_credentials") && Passes(s, c, json, "ice_credentials", target)
  {
    hide Offers, Routes, Relayable, Passes, IsOnline, Packet.UsernameIsValid, Relay.ClaimedKey;
    OfferRoutes(json, from.username, to.username, sid, sdp);
    RoutedPasses(s, json, "ice_credentials", from, to, sid, c, target);
  }

  lemma OfferRoutes(json: string, from: string, to: string, sid: string, sdp: string)
    requires Offers(json, from, to, sid, sdp)
    ensures Routes(json, "ice_credentials", from, to, sid)
  {
    hide Json.GetString, Says;
  }

  /** What one daemon of a session queues goes through the server to the other, which takes it. */
  lemma CandidatesCross(
      sodium: Crypto.Sodium, server: Relay.Server, a: State, b: State, ca: Relay.Conn, cb: Relay.Conn, sdp: string,
      plain: string, envA: Env, envB: Env, challenge: Key)
    requires MayOffer(a) && envA.localSdp == Some(sdp) && Word(sdp) && |sdp| <= SDP_TEXT_MAX
    requires Clear(a.id.username) && Clear(b.id.username) && GoodId(a.chat.sessionId)
    requires b.chat.active && a.chat.peer == b.id.username && b.chat.peer == a.id.username
    requires a.chat.sessionId == b.chat.sessionId && b.chat.ice.agent && !b.chat.ice.gatheringDone
    requires sodium.base64Decode(sdp) == Some(plain) && 0 < |plain| <= SDP_MAX
    requires RelayAuthenticity.UniqueNames(server.users) && IsOnline(server, ca, a.id) && IsOnline(server, cb, b.id)
    requires server.sessions[cb].pending == ""
    ensures
      var (offering, ok) := QueueLocalSdp(a, envA);
      && ok
      && Collect(sodium, Post(sodium, server, ca, offering, challenge), cb, b, envB)
         == b.(chat := b.chat.(pendingSdp := Some(plain)))
  {
    hide Offers, Word, Clear, GoodId, Step, QueueLocalSdp, Relay.Step, Passes, Relayable, IsOnline, MayOffer,
      RelayAuthenticity.UniqueNames;
    QueuedOffers(a, envA, sdp);
    var offering := QueueLocalSdp(a, envA).0;
    var json := offering.pending.value;
    assert Packet.UsernameIsValid(a.id.username) && Packet.UsernameIsValid(b.id.username) && a.chat.sessionId != "" by {
      ClearIsName(a.id.username);
      ClearIsName(b.id.username);
      IdIsWord(a.chat.sessionId);
    }
    hide Packet.UsernameIsValid;
    OfferPasses(server, json, a.id, b.id, a.chat.sessionId, sdp, ca, cb);
    OnlineIsOpen(server, ca, a.id);
    OfferIsText(json, a.id.username, b.id.username, a.chat.sessionId, sdp);
    PassedIsDelivered(sodium, server, ca, json, challenge, "ice_credentials", cb);
    OfferIsTaken(sodium, b, json, sdp, plain, envB);
  }

  lemma ClearIsName(name: string)
    requires Clear(name)
    ensures Packet.UsernameIsValid(name)
  {
  }

  lemma OfferIsText(json: string, from: string, to: string, sid: string, sdp: string)
    requires Offers(json, from, to, sid, sdp)
    ensures CString(json) == json
  {
  }

  // ---------------------------------------------------------------- at a service call

  /** Once something is in the buffer, giving up a session leaves it there. */
  lemma FailKeepsPending(s: State, reason: Reason, env: Env)
    requires s.pending.Some?
    ensures Fail(s, reason, env).pending == s.pending
  {
    hide Json.Render, KeyedFields;
  }

  lemma FinishKeepsPending(sodium: Crypto.Sodium, s: State, payload: Bytes)
    ensures HandleHandshake(sodium, s, payload).0.pending == s.pending
    ensures HandleHeader(s, payload).0.pending == s.pending
  {
    hide Crypto.Finish, Crypto.InitPull;
  }

  lemma OpenKeepsPending(sodium: Crypto.Sodium, s: State, kind: byte, payload: Bytes, arrives: bool)
    ensures OpenPayload(sodium, s, kind, payload, arrives).0.pending == s.pending
  {
    hide Crypto.Decrypt, OneLine;
  }

  lemma PacketKeepsPending(sodium: Crypto.Sodium, s: State, packet: Bytes, arrives: bool)
    ensures HandlePacket(sodium, s, packet, arrives).0.pending == s.pending
  {
    hide Packet.Decode, HandleHandshake, HandleHeader, OpenPayload;
    var payload := packet[if |packet| < 6 then 0 else 6..];
    FinishKeepsPending(sodium, s, payload);
    OpenKeepsPending(sodium, s, Packet.MESSAGE, payload, arrives);
    OpenKeepsPending(sodium, s, Packet.CLOSE, payload, arrives);
  }

  lemma TakeKeepsPending(sodium: Crypto.Sodium, s: State, arrives: bool)
    ensures Process(sodium, s, arrives).0.pending == s.pending
  {
    if s.chat.ice.queue != [] {
      PacketKeepsPending(sodium, Pop(s), s.chat.ice.queue[0], arrives);
    }
    hide HandlePacket;
  }

  lemma {:induction false} DrainKeepsPending(sodium: Crypto.Sodium, s: State, n: nat, env: Env)
    requires s.pending.Some?
    ensures Drain(sodium, s, n, env).pending == s.pending
    decreases n
  {
    hide Process, Fail;
    if n > 0 {
      var (next, ok) := Process(sodium, s, Flag(env.writes, n));
      TakeKeepsPending(sodium, s, Flag(env.writes, n));
      FailKeepsPending(next, Rejected, env);
      if ok {
        DrainKeepsPending(sodium, next, n - 1, env);
      }
    }
  }

  lemma HandshakeKeepsPending(sodium: Crypto.Sodium, s: State, env: Env)
    ensures SetupHandshake(sodium, s, env).0.pending == s.pending
  {
    hide Crypto.Init, Packet.Frame, Packet.Encode, Ascii;
  }

  lemma HeaderKeepsPending(s: State, env: Env)
    ensures SetupHeader(s, env).0.pending == s.pending
  {
    hide Crypto.InitPush, Packet.Frame, Packet.Encode;
  }

  lemma SetupKeepsPending(sodium: Crypto.Sodium, s: State, env: Env)
    requires s.pending.Some?
    ensures ServiceSetup(sodium, s, env).pending == s.pending
  {
    hide SetupHandshake, Process, SetupHeader, Fail;
    var s1 := SetupHandshake(sodium, s, env).0;
    var s2 := Process(sodium, s1, Flag(env.writes, 0)).0;
    var s3 := SetupHeader(s2, env).0;
    HandshakeKeepsPending(sodium, s, env);
    TakeKeepsPending(sodium, s1, Flag(env.writes, 0));
    HeaderKeepsPending(s2, env);
    TakeKeepsPending(sodium, s3, Flag(env.writes, 1));
    var (r, failed) := SetupRound(sodium, s, env);
    assert r.pending == s.pending;
    hide SetupRound;
    FailKeepsPending(s, NoRemoteKey, env);
    FailKeepsPending(s, Timeout, env);
    if failed.Some? {
      FailKeepsPending(r, failed.value, env);
    } else {
      BecomingKeepsPending(r);
    }
    hide BecomeSecure;
  }

  lemma BecomingKeepsPending(s: State)
    ensures BecomeSecure(s).pending == s.pending
  {
  }

  lemma NoteKeepsPending(s: State, env: Env)
    ensures NoteConnected(s, env).pending == s.pending
  {
  }

  /** The first service call after gathering puts the candidates into the buffer, for the session's peer, whatever else
      becomes of the session at that call. */
  lemma ServiceOffers(sodium: Crypto.Sodium, s: State, env: Env, sdp: string)
    requires MayOffer(s) && s.chat.pendingSdp.None? && env.localSdp == Some(sdp) && Word(sdp) && |sdp| <= SDP_TEXT_MAX
    requires Clear(s.id.username) && Clear(s.chat.peer) && GoodId(s.chat.sessionId)
    requires s.chat.cryptoDeadline == 0 || s.chat.ready || env.clock.polled < s.chat.cryptoDeadline
    ensures
      var t := Step(sodium, s, Service(env));
      t.pending.Some? && Offers(t.pending.value, s.id.username, s.chat.peer, s.chat.sessionId, sdp)
  {
    hide Offers, Word, Clear, GoodId, QueueLocalSdp, NoteConnected, ServiceSetup, Drain, Fail, Step;
    QueuedOffers(s, env, sdp);
    var s2 := QueueLocalSdp(s, env).0;
    var s3 := NoteConnected(s2, env);
    assert ApplyPendingSdp(s, env) == (s, true);
    hide ApplyPendingSdp;
    NoteKeepsPending(s2, env);
    FailKeepsPending(s2, Transport, env);
    FailKeepsPending(s2, Timeout, env);
    SetupKeepsPending(sodium, s3, env);
    DrainKeepsPending(sodium, s3, QUEUE_CAPACITY, env);
    StepService(sodium, s, env);
  }

  /** ... so the candidates go out with the first service call after the transport reports that it has them. */
  lemma GatheringOffers(sodium: Crypto.Sodium, s: State, env: Env, sdp: string)
    requires s.chat.active && s.chat.ice.agent && !s.chat.localSdpSent && s.wsi && s.pending.None?
    requires s.chat.pendingSdp.None? && env.localSdp == Some(sdp) && Word(sdp) && |sdp| <= SDP_TEXT_MAX
    requires Clear(s.id.username) && Clear(s.chat.peer) && GoodId(s.chat.sessionId)
    requires s.chat.cryptoDeadline == 0 || s.chat.ready || env.clock.polled < s.chat.cryptoDeadline
    ensures
      var t := Step(sodium, Step(sodium, s, GatheringDone), Service(env));
      t.pending.Some? && Offers(t.pending.value, s.id.username, s.chat.peer, s.chat.sessionId, sdp)
  {
    GatheredIsNoted(sodium, s);
    hide Step, Offers, Word, Clear, GoodId;
    ServiceOffers(sodium, Step(sodium, s, GatheringDone), env, sdp);
  }

  /** Candidates that were held are applied at the first service call after gathering. When they cannot be, the session
      is given up; otherwise they are no longer held. */
  lemma HeldAreApplied(s: State, env: Env)
    requires s.chat.ice.gatheringDone && s.chat.pendingSdp.Some? && s.chat.ice.agent
    ensures
      var (t, ok) := ApplyPendingSdp(s, env);
      && (ok <==> env.remoteSdpApplies) && (ok ==> t == s.(chat := s.chat.(pendingSdp := None)))
      && (!ok ==> t.chat.ice.failed)
  {
  }

  lemma UnappliedEnds(sodium: Crypto.Sodium, s: State, env: Env)
    requires s.chat.active && s.chat.ice.gatheringDone && s.chat.pendingSdp.Some? && !env.remoteSdpApplies
    requires s.chat.cryptoDeadline == 0 || s.chat.ready || env.clock.polled < s.chat.cryptoDeadline
    ensures
      var t := Step(sodium, s, Service(env));
      Wiped(t.chat) && t.log.failures == s.log.failures + [Transport]
  {
    hide QueueLocalSdp, NoteConnected, ServiceCrypto, Fail, Step;
    var s1 := ApplyPendingSdp(s, env).0;
    FailWipes(s1, Transport, env);
    StepService(sodium, s, env);
  }

  /** A session whose own candidates cannot be had after gathering is given up. */
  lemma UngatheredEnds(sodium: Crypto.Sodium, s: State, env: Env)
    requires MayOffer(s) && s.chat.pendingSdp.None? && env.localSdp.None?
    requires s.chat.cryptoDeadline == 0 || s.chat.ready || env.clock.polled < s.chat.cryptoDeadline
    ensures
      var t := Step(sodium, s, Service(env));
      Wiped(t.chat) && t.log.failures == s.log.failures + [Transport]
  {
    assert ApplyPendingSdp(s, env) == (s, true) && QueueLocalSdp(s, env) == (s, false);
    hide ApplyPendingSdp, QueueLocalSdp, NoteConnected, ServiceCrypto, Fail, Step;
    FailWipes(s, Transport, env);
    StepService(sodium, s, env);
  }

  lemma GatheredIsNoted(sodium: Crypto.Sodium, s: State)
    requires s.chat.ice.agent
    ensures Step(sodium, s, GatheringDone) == s.(chat := s.chat.(ice := s.chat.ice.(gatheringDone := true)))
  {
  }

  lemma PairIsNoted(sodium: Crypto.Sodium, s: State, relayed: bool)
    requires s.chat.ice.agent
    ensures
      Step(sodium, s, Connected(Some(relayed)))
      == s.(chat := s.chat.(ice := s.chat.ice.(ready := true, pairKnown := true, pairRelayed := relayed)))
  {
  }
}
