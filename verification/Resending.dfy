/** What a service call of a session in setup sends, exactly, and why that survives the loss of every first datagram. */
module Resending {
  import opened Completion
  import opened Daemon
  import opened Network
  import opened Octets
  import opened Pairing
  import opened Session
  import Crypto
  import Json
  import Packet

  // ---------------------------------------------------------------- what is due

  /** The handshake goes out at once, and again every second until the peer's header is in. */
  predicate HandshakeDue(s: State, env: Env) {
    !s.chat.handshakeSent || (!s.chat.headerReceived && env.clock.crypto >= s.chat.nextHandshakeAt)
  }

  /** The library can make it, and the transport takes it. */
  predicate HandshakeLeaves(s: State, env: Env) {
    && Flag(env.sends, 0)
    && (s.chat.handshakeSent || (env.kxSecret.Some? && Crypto.SessionIdFits(Ascii(s.chat.sessionId))))
  }

  /** The first handshake is made from the ephemeral key that the library draws; every other one is the first again. */
  function Handshakes(sodium: Crypto.Sodium, s: State, env: Env): seq<Bytes> {
    if !HandshakeDue(s, env) || !HandshakeLeaves(s, env) then []
    else if s.chat.handshakeSent then [Packet.Frame(Packet.HANDSHAKE, s.chat.localMessage)]
    else
      [Packet.Frame(Packet.HANDSHAKE, Crypto.KxMessage(
         sodium, s.id, s.chat.remotePk, s.chat.role, Ascii(s.chat.sessionId), env.kxSecret.value))]
  }

  /** Once the keys are there the header goes out at once, and again every second until the session is ready. */
  predicate HeaderDue(s: State, env: Env) {
    s.chat.keysReady && (!s.chat.headerSent || env.clock.crypto >= s.chat.nextHeaderAt)
  }

  predicate HeaderLeaves(s: State, env: Env) { Flag(env.sends, 1) && (s.chat.headerSent || env.header.Some?) }

  function Headers(s: State, env: Env): seq<Bytes> {
    if !HeaderDue(s, env) || !HeaderLeaves(s, env) then []
    else [Packet.Frame(Packet.STREAM_HEADER, if s.chat.headerSent then s.chat.localHeader else env.header.value)]
  }

  // ---------------------------------------------------------------- one part at a time

  lemma FrameLeaves(s: State, kind: byte, payload: Bytes, leaves: bool)
    requires s.chat.ice.ready && s.chat.ice.agent && |payload| <= 96 && Packet.KindIsValid(kind)
    ensures
      var (t, ok) := SendPacket(s, kind, payload, leaves);
      ok == leaves && t == s.(history := s.history.(
        wire := s.history.wire + if leaves then [Packet.Frame(kind, payload)] else []))
  {
    hide Packet.Frame;
    assert s.history.wire + [] == s.history.wire;
  }

  lemma HandshakeIsResent(s: State, env: Env)
    requires s.chat.ice.ready && s.chat.ice.agent && |s.chat.localMessage| == Crypto.KX_MESSAGE_BYTES
    ensures
      var (t, o) := ResendHandshake(s, env);
      && (o == Done <==> Flag(env.sends, 0))
      && t.history == s.history.(wire := s.history.wire
           + if Flag(env.sends, 0) then [Packet.Frame(Packet.HANDSHAKE, s.chat.localMessage)] else [])
      && (o == Done ==> t.chat == s.chat.(nextHandshakeAt := env.clock.handshake + 1, handshakeSent := true))
  {
    FrameLeaves(s, Packet.HANDSHAKE, s.chat.localMessage, Flag(env.sends, 0));
    hide Packet.Frame, SendPacket;
  }

  lemma HandshakeIsMade(sodium: Crypto.Sodium, s: State, env: Env)
    requires s.chat.role != Crypto.NoRole
    ensures
      var (t, ok) := InitHandshake(sodium, s, env);
      && (ok <==> env.kxSecret.Some? && Crypto.SessionIdFits(Ascii(s.chat.sessionId)))
      && t.history.wire == s.history.wire && t.chat.ice == s.chat.ice
      && (ok ==> t.chat.localMessage == Crypto.KxMessage(
            sodium, s.id, s.chat.remotePk, s.chat.role, Ascii(s.chat.sessionId), env.kxSecret.value))
  {
    var sid := Ascii(s.chat.sessionId);
    var (result, hs, message) := Crypto.Init(
      sodium, s.chat.hs, s.id, s.chat.remotePk, s.chat.role, sid, env.kxSecret, s.chat.localMessage);
    assert (result == Crypto.Ok <==> env.kxSecret.Some? && Crypto.SessionIdFits(sid))
      && (result == Crypto.Ok ==>
            message == Crypto.KxMessage(sodium, s.id, s.chat.remotePk, s.chat.role, sid, env.kxSecret.value)) by {
      hide InitHandshake, Ascii, Crypto.KxMessage;
    }
    hide Crypto.Init, Crypto.KxMessage, Ascii;
  }

  /** A handshake leaves exactly when it is due and can leave. */
  lemma HandshakesLeave(sodium: Crypto.Sodium, s: State, env: Env)
    requires Live(sodium, s) && s.chat.ice.ready
    ensures
      var (t, o) := SetupHandshake(sodium, s, env);
      && t.history.wire == s.history.wire + Handshakes(sodium, s, env)
      && (o == Done <==> (HandshakeDue(s, env) ==> HandshakeLeaves(s, env)))
      && (Handshakes(sodium, s, env) != [] ==>
            t.chat.handshakeSent && t.chat.nextHandshakeAt == env.clock.handshake + 1)
  {
    SentIsMessage(sodium, s);
    hide Live, Crypto.KxMessage, Packet.Frame, Ascii, ResendHandshake, InitHandshake;
    var e := Enter(s, CryptoHandshake);
    if HandshakeDue(s, env) {
      if s.chat.handshakeSent {
        HandshakeIsResent(e, env);
      } else {
        HandshakeIsMade(sodium, e, env);
        var (made, ok) := InitHandshake(sodium, e, env);
        if ok {
          HandshakeIsResent(made, env);
        }
      }
    }
  }

  lemma SentIsMessage(sodium: Crypto.Sodium, s: State)
    requires Live(sodium, s)
    ensures s.chat.role != Crypto.NoRole && s.chat.ice.agent
    ensures s.chat.handshakeSent ==> |s.chat.localMessage| == Crypto.KX_MESSAGE_BYTES
  {
  }

  lemma HeaderIsResent(s: State, env: Env)
    requires s.chat.ice.ready && s.chat.ice.agent
    ensures
      var (t, o) := ResendHeader(s, env);
      && (o == Done <==> Flag(env.sends, 1))
      && t.history.wire == s.history.wire
           + (if Flag(env.sends, 1) then [Packet.Frame(Packet.STREAM_HEADER, s.chat.localHeader)] else [])
      && (o == Done ==> t.chat == s.chat.(nextHeaderAt := env.clock.header + 1, headerSent := true))
  {
    FrameLeaves(s, Packet.STREAM_HEADER, s.chat.localHeader, Flag(env.sends, 1));
    hide Packet.Frame, SendPacket;
  }

  lemma PushKeepsWire(s: State, header: Nonce)
    ensures
      var t := StartPush(s, header);
      t.history.wire == s.history.wire && t.chat.ice == s.chat.ice && t.chat.localHeader == header
  {
    hide Crypto.InitPush;
  }

  lemma FirstHeaderLeaves(s: State, env: Env)
    requires s.chat.ice.ready && s.chat.ice.agent && !s.chat.headerSent && s.chat.keysReady
    ensures
      var (t, o) := SetupHeader(s, env);
      && t.history.wire == s.history.wire + Headers(s, env) && (o == Done <==> HeaderLeaves(s, env))
      && (o == Done ==> t.chat.headerSent && t.chat.nextHeaderAt == env.clock.header + 1)
  {
    hide Packet.Frame, StartPush, ResendHeader;
    if env.header.Some? {
      var m := StartPush(s, env.header.value);
      PushKeepsWire(s, env.header.value);
      HeaderIsResent(m, env);
      assert SetupHeader(s, env) == ResendHeader(m, env);
      hide SetupHeader;
    } else {
      assert SetupHeader(s, env) == (s, NotMade);
      assert s.history.wire + [] == s.history.wire;
      hide SetupHeader;
    }
  }

  lemma NextHeaderLeaves(s: State, env: Env)
    requires s.chat.ice.ready && s.chat.ice.agent && !s.chat.ready && s.chat.headerSent && HeaderDue(s, env)
    ensures
      var (t, o) := SetupHeader(s, env);
      && t.history.wire == s.history.wire + Headers(s, env) && (o == Done <==> HeaderLeaves(s, env))
      && (o == Done ==> t.chat.headerSent && t.chat.nextHeaderAt == env.clock.header + 1)
  {
    hide Packet.Frame, StartPush, ResendHeader;
    HeaderIsResent(s, env);
    assert SetupHeader(s, env) == ResendHeader(s, env);
    hide SetupHeader;
  }

  /** A header leaves exactly when it is due and can leave. */
  lemma HeadersLeave(s: State, env: Env)
    requires s.chat.ice.ready && s.chat.ice.agent && !s.chat.ready
    ensures
      var (t, o) := SetupHeader(s, env);
      && t.history.wire == s.history.wire + Headers(s, env)
      && (o == Done <==> (HeaderDue(s, env) ==> HeaderLeaves(s, env)))
      && (Headers(s, env) != [] ==> t.chat.headerSent && t.chat.nextHeaderAt == env.clock.header + 1)
  {
    if !HeaderDue(s, env) {
      assert SetupHeader(s, env) == (s, Done) by { hide SendHeader; }
      assert s.history.wire + [] == s.history.wire;
      hide SetupHeader;
    } else {
      hide SetupHeader, Packet.Frame;
      if s.chat.headerSent {
        NextHeaderLeaves(s, env);
      } else {
        FirstHeaderLeaves(s, env);
      }
    }
  }

  // ---------------------------------------------------------------- a whole service call

  /** A service call that comes to the key exchange: the transport is up, the candidates are dealt with, and no deadline
      has passed. */
  ghost predicate Exchanges(s: State, env: Env) {
    && s.chat.active && !s.chat.ready && (s.chat.cryptoDeadline == 0 || env.clock.polled < s.chat.cryptoDeadline)
    && ApplyPendingSdp(s, env).1 && QueueLocalSdp(ApplyPendingSdp(s, env).0, env).1
    && s.chat.ice.ready && !s.chat.ice.failed
    && env.clock.crypto < if s.chat.cliNotified then s.chat.cryptoDeadline else env.clock.connected + CRYPTO_TIMEOUT
  }

  /** What candidates and the news of the connection leave alone. */
  ghost predicate SameExchange(s: State, t: State) {
    var c, d := s.chat, t.chat;
    && t.history == s.history && t.id == s.id && d.active == c.active && d.ready == c.ready && d.ice == c.ice
    && d.hasRemotePk == c.hasRemotePk && d.remotePk == c.remotePk && d.role == c.role && d.sessionId == c.sessionId
    && d.handshakeSent == c.handshakeSent && d.nextHandshakeAt == c.nextHandshakeAt
    && d.localMessage == c.localMessage && d.headerReceived == c.headerReceived && d.keysReady == c.keysReady
    && d.headerSent == c.headerSent && d.nextHeaderAt == c.nextHeaderAt && d.localHeader == c.localHeader
  }

  lemma AppliedIsSame(s: State, env: Env)
    requires ApplyPendingSdp(s, env).1
    ensures
      var t := ApplyPendingSdp(s, env).0;
      SameExchange(s, t) && t.chat.cliNotified == s.chat.cliNotified && t.chat.cryptoDeadline == s.chat.cryptoDeadline
  {
    UnheldIsSame(s);
    SelfIsSame(s);
    hide SameExchange;
  }

  lemma UnheldIsSame(s: State)
    ensures
      var t := s.(chat := s.chat.(pendingSdp := None));
      SameExchange(s, t) && t.chat.cliNotified == s.chat.cliNotified && t.chat.cryptoDeadline == s.chat.cryptoDeadline
  {
  }

  lemma SelfIsSame(s: State)
    ensures SameExchange(s, s)
  {
  }

  lemma LocalIsSame(s: State, env: Env)
    ensures
      var t := QueueLocalSdp(s, env).0;
      SameExchange(s, t) && t.chat.cliNotified == s.chat.cliNotified && t.chat.cryptoDeadline == s.chat.cryptoDeadline
  {
    hide QueueBuilt, SdpFields, Books;
    if env.localSdp.Some? {
      var fields := SdpFields(s.id, s.chat.peer, s.chat.sessionId, env.localSdp.value);
      QueueKeepsCore(s, fields, MAX_JSON);
      var queued := QueueBuilt(s, fields, MAX_JSON).0;
      OfferedIsSame(queued);
    }
  }

  lemma OfferedIsSame(s: State)
    ensures SameExchange(s, s.(chat := s.chat.(localSdpSent := true)))
  {
  }

  lemma NotedIsSame(s: State, env: Env)
    ensures
      var t := NoteConnected(s, env);
      && SameExchange(s, t)
      && t.chat.cryptoDeadline
         == if s.chat.cliNotified then s.chat.cryptoDeadline else env.clock.connected + CRYPTO_TIMEOUT
  {
  }

  lemma SameTrans(s: State, m: State, t: State)
    requires SameExchange(s, m) && SameExchange(m, t)
    ensures SameExchange(s, t)
  {
  }

  lemma NotedKeeps(s: State, env: Env)
    requires ApplyPendingSdp(s, env).1
    ensures
      && SameExchange(s, Noted(s, env))
      && Noted(s, env).chat.cryptoDeadline
         == if s.chat.cliNotified then s.chat.cryptoDeadline else env.clock.connected + CRYPTO_TIMEOUT
  {
    hide ApplyPendingSdp, QueueLocalSdp, NoteConnected, SameExchange;
    var s1 := ApplyPendingSdp(s, env).0;
    var s2 := QueueLocalSdp(s1, env).0;
    AppliedIsSame(s, env);
    LocalIsSame(s1, env);
    NotedIsSame(s2, env);
    SameTrans(s, s1, s2);
    SameTrans(s, s2, NoteConnected(s2, env));
  }

  lemma SameFacts(s: State, t: State)
    requires SameExchange(s, t)
    ensures t.chat.ice == s.chat.ice && t.chat.ready == s.chat.ready && t.chat.active == s.chat.active
    ensures t.chat.hasRemotePk == s.chat.hasRemotePk && t.history == s.history
  {
  }

  lemma ServiceIsSetup(sodium: Crypto.Sodium, s: State, env: Env)
    requires Exchanges(s, env)
    ensures Step(sodium, s, Service(env)) == ServiceSetup(sodium, Noted(s, env), env)
  {
    hide ApplyPendingSdp, QueueLocalSdp, NoteConnected, ServiceSetup, Fail, Drain, SameExchange, ServiceIce, Step;
    var s1 := ApplyPendingSdp(s, env).0;
    var s2 := QueueLocalSdp(s1, env).0;
    AppliedIsSame(s, env);
    LocalIsSame(s1, env);
    NotedIsSame(s2, env);
    SameFacts(s, s1);
    SameFacts(s1, s2);
    SameFacts(s2, NoteConnected(s2, env));
    StepService(sodium, s, env);
    Unfolds(sodium, s, env, s1, s2);
  }

  lemma Unfolds(sodium: Crypto.Sodium, s: State, env: Env, s1: State, s2: State)
    requires s.chat.active && !s.chat.ready && (s.chat.cryptoDeadline == 0 || env.clock.polled < s.chat.cryptoDeadline)
    requires ApplyPendingSdp(s, env) == (s1, true) && QueueLocalSdp(s1, env) == (s2, true)
    requires s2.chat.ice.ready && !s2.chat.ice.failed
    requires !NoteConnected(s2, env).chat.ready && NoteConnected(s2, env).chat.ice == s2.chat.ice
    ensures ServiceIce(sodium, s, env) == ServiceSetup(sodium, NoteConnected(s2, env), env)
  {
    hide ApplyPendingSdp, QueueLocalSdp, NoteConnected, ServiceSetup, Fail, Drain;
  }

  lemma HandshakeIsTakenInPlace(sodium: Crypto.Sodium, s: State, payload: Bytes)
    ensures
      var t := HandleHandshake(sodium, s, payload).0;
      t.chat.ready == s.chat.ready && t.chat.ice == s.chat.ice
  {
    hide Crypto.Finish;
  }

  lemma HeaderIsTakenInPlace(s: State, payload: Bytes)
    ensures var t := HandleHeader(s, payload).0; t.chat.ready == s.chat.ready && t.chat.ice == s.chat.ice
  {
    hide Crypto.InitPull;
  }

  lemma TakingKeepsTransport(sodium: Crypto.Sodium, s: State, arrives: bool)
    requires !s.chat.ready
    ensures
      var t := Process(sodium, s, arrives).0;
      && !t.chat.ready && t.chat.ice.ready == s.chat.ice.ready && t.chat.ice.agent == s.chat.ice.agent
      && t.history.wire == s.history.wire
  {
    TakingSendsNothing(sodium, s, arrives);
    hide HandlePacket;
    if s.chat.ice.queue != [] {
      HandlingKeepsTransport(sodium, Pop(s), s.chat.ice.queue[0], arrives);
    }
  }

  lemma HandlingKeepsTransport(sodium: Crypto.Sodium, s: State, packet: Bytes, arrives: bool)
    requires !s.chat.ready
    ensures var t := HandlePacket(sodium, s, packet, arrives).0; !t.chat.ready && t.chat.ice == s.chat.ice
  {
    hide OpenPayload, Packet.Decode, HandleHandshake, HandleHeader;
    HandshakeIsTakenInPlace(sodium, s, packet[if |packet| < 6 then 0 else 6..]);
    HeaderIsTakenInPlace(s, packet[if |packet| < 6 then 0 else 6..]);
  }

  lemma StartKeepsTransport(sodium: Crypto.Sodium, s: State, env: Env)
    ensures
      var t := SetupHandshake(sodium, s, env).0;
      t.chat.ready == s.chat.ready && t.chat.ice == s.chat.ice
  {
    StartEffect(sodium, s, env);
    StartKeepsReady(sodium, s, env);
    hide StartHandshake;
  }

  lemma StartKeepsReady(sodium: Crypto.Sodium, s: State, env: Env)
    ensures SameHeader(s, StartHandshake(sodium, s, env).0)
  {
    hide InitHandshake, ResendHandshake;
    var e := Enter(s, CryptoHandshake);
    InitKeepsHeader(sodium, e, env);
    ResendKeepsHeader(e, env);
    ResendKeepsHeader(InitHandshake(sodium, e, env).0, env);
  }

  /** The part of a session that concerns its header. */
  ghost predicate SameHeader(s: State, t: State) {
    && t.chat.ready == s.chat.ready && t.chat.keysReady == s.chat.keysReady && t.chat.headerSent == s.chat.headerSent
    && t.chat.nextHeaderAt == s.chat.nextHeaderAt && t.chat.localHeader == s.chat.localHeader
  }

  lemma InitKeepsHeader(sodium: Crypto.Sodium, s: State, env: Env)
    ensures SameHeader(s, InitHandshake(sodium, s, env).0)
  {
    hide Crypto.Init, Ascii;
  }

  lemma ResendKeepsHeader(s: State, env: Env)
    ensures SameHeader(s, ResendHandshake(s, env).0)
  {
    hide Packet.Frame, Packet.Encode;
  }

  /** The first datagram of a round, after the handshake. */
  function FirstTaken(sodium: Crypto.Sodium, s: State, env: Env): (State, bool) {
    Process(sodium, SetupHandshake(sodium, s, env).0, Flag(env.writes, 0))
  }

  /** All that a round of setup sends: the handshake if it is due, and then, unless that or the first datagram failed,
      the header if it is due. */
  lemma RoundSends(sodium: Crypto.Sodium, s: State, env: Env)
    requires Live(sodium, s) && s.chat.ice.ready && !s.chat.ready
    ensures
      var (s2, ok) := FirstTaken(sodium, s, env);
      SetupRound(sodium, s, env).0.history.wire
      == s.history.wire + Handshakes(sodium, s, env)
         + if (HandshakeDue(s, env) ==> HandshakeLeaves(s, env)) && ok then Headers(s2, env) else []
  {
    hide Live, SetupHandshake, Process, SetupHeader, Handshakes, Headers, HandshakeDue, HandshakeLeaves, HeaderDue,
      HeaderLeaves;
    HandshakesLeave(sodium, s, env);
    StartKeepsTransport(sodium, s, env);
    assert s.chat.ice.agent by { LiveFacts(sodium, s); }
    var s1 := SetupHandshake(sodium, s, env).0;
    var s2 := FirstTaken(sodium, s, env).0;
    TakingKeepsTransport(sodium, s1, Flag(env.writes, 0));
    HeadersLeave(s2, env);
    TakingSendsNothing(sodium, SetupHeader(s2, env).0, Flag(env.writes, 1));
    assert forall w: seq<Bytes> :: w + [] == w;
  }

  lemma SetupSends(sodium: Crypto.Sodium, s: State, env: Env)
    requires s.chat.hasRemotePk && env.clock.crypto < s.chat.cryptoDeadline
    ensures ServiceSetup(sodium, s, env).history == SetupRound(sodium, s, env).0.history
  {
    hide SetupRound, BecomeSecure, Fail;
    var (r, failed) := SetupRound(sodium, s, env);
    BecomingKeepsHistory(r);
    if failed.Some? {
      FailWipes(r, failed.value, env);
    }
  }

  lemma BecomingKeepsHistory(s: State)
    ensures BecomeSecure(s).history == s.history
  {
  }

  lemma SameDue(sodium: Crypto.Sodium, s: State, t: State, env: Env)
    requires SameExchange(s, t)
    ensures Handshakes(sodium, t, env) == Handshakes(sodium, s, env)
    ensures HandshakeDue(t, env) == HandshakeDue(s, env) && HandshakeLeaves(t, env) == HandshakeLeaves(s, env)
    ensures Headers(t, env) == Headers(s, env)
  {
    hide Crypto.KxMessage, Packet.Frame, Ascii;
  }

  /** Everything that a service call in setup sends: exactly the handshake when it is due and can leave, and then
      exactly the header when, after the first waiting datagram was taken, it is due and can leave. */
  lemma ServiceSends(sodium: Crypto.Sodium, s: State, env: Env)
    requires Good(sodium, s) && Exchanges(s, env)
    ensures
      var (s2, ok) := FirstTaken(sodium, Noted(s, env), env);
      Step(sodium, s, Service(env)).history.wire
      == s.history.wire + Handshakes(sodium, s, env)
         + if (HandshakeDue(s, env) ==> HandshakeLeaves(s, env)) && ok then Headers(s2, env) else []
  {
    hide Good, Sound, Noted, FirstTaken, Step, Exchanges, SameExchange, Handshakes, Headers, HandshakeDue,
      HandshakeLeaves, SetupRound, ServiceSetup, Live;
    var n := Noted(s, env);
    ExchangesFacts(s, env);
    NotedKeeps(s, env);
    SameFacts(s, n);
    SameDue(sodium, s, n, env);
    ServiceIsSetup(sodium, s, env);
    NotedIsLive(sodium, s, env);
    RoundSends(sodium, n, env);
    SetupSends(sodium, n, env);
  }

  lemma ExchangesFacts(s: State, env: Env)
    requires Exchanges(s, env)
    ensures s.chat.active && !s.chat.ready && s.chat.ice.ready && ApplyPendingSdp(s, env).1
    ensures
      env.clock.crypto < if s.chat.cliNotified then s.chat.cryptoDeadline else env.clock.connected + CRYPTO_TIMEOUT
  {
  }

  lemma NotedIsLive(sodium: Crypto.Sodium, s: State, env: Env)
    requires Good(sodium, s) && s.chat.active
    ensures Live(sodium, Noted(s, env)) && Noted(s, env).chat.hasRemotePk
  {
    hide Sound, ApplyPendingSdp, QueueLocalSdp, NoteConnected, Books;
    var s1 := ApplyPendingSdp(s, env).0;
    var s2 := QueueLocalSdp(s1, env).0;
    PendingSdpIsSound(sodium, s, env);
    LocalSdpIsSound(sodium, s1, env);
    NoteConnectedIsSound(sodium, s2, env);
    ActiveIsLive(sodium, NoteConnected(s2, env));
    hide PeerPart, HandshakePart, KeysPart, PushPart, PullPart, WirePart;
  }

  /** A handshake that is due and cannot leave ends the session, for the reason that it was not sent or that it could
      not be made. */
  lemma UnsentEnds(sodium: Crypto.Sodium, s: State, env: Env)
    requires Good(sodium, s) && Exchanges(s, env) && HandshakeDue(s, env) && !HandshakeLeaves(s, env)
    ensures
      var t := Step(sodium, s, Service(env));
      var made := s.chat.handshakeSent || (env.kxSecret.Some? && Crypto.SessionIdFits(Ascii(s.chat.sessionId)));
      Wiped(t.chat) && t.log.failures == s.log.failures + [if made then SendError else LibraryError]
  {
    hide Good, Sound, Noted, Step, Exchanges, SameExchange, Live, SetupHandshake, Ascii, Crypto.SessionIdFits,
      Process, SetupHeader, BecomeSecure, Fail, Handshakes;
    var n := Noted(s, env);
    ExchangesFacts(s, env);
    NotedKeeps(s, env);
    SameFacts(s, n);
    SameDue(sodium, s, n, env);
    ServiceIsSetup(sodium, s, env);
    NotedIsLive(sodium, s, env);
    NotedKeepsFailures(s, env);
    UnsentReason(sodium, n, env);
    SameMade(s, n);
    var (s1, o) := SetupHandshake(sodium, n, env);
    FailWipes(s1, Blame(o), env);
  }

  lemma SameMade(s: State, t: State)
    requires SameExchange(s, t)
    ensures t.chat.handshakeSent == s.chat.handshakeSent && t.chat.sessionId == s.chat.sessionId
  {
  }

  lemma NotedKeepsFailures(s: State, env: Env)
    ensures Noted(s, env).log == s.log
  {
    hide ApplyPendingSdp, QueueLocalSdp;
    AppliedKeepsLog(s, env);
    LocalKeepsLog(ApplyPendingSdp(s, env).0, env);
  }

  lemma AppliedKeepsLog(s: State, env: Env)
    ensures ApplyPendingSdp(s, env).0.log == s.log
  {
  }

  lemma LocalKeepsLog(s: State, env: Env)
    ensures QueueLocalSdp(s, env).0.log == s.log
  {
    hide Json.Render, SdpFields;
  }

  lemma UnsentReason(sodium: Crypto.Sodium, s: State, env: Env)
    requires Live(sodium, s) && s.chat.ice.ready && HandshakeDue(s, env) && !HandshakeLeaves(s, env)
    ensures
      var (t, o) := SetupHandshake(sodium, s, env);
      var made := s.chat.handshakeSent || (env.kxSecret.Some? && Crypto.SessionIdFits(Ascii(s.chat.sessionId)));
      o == (if made then NotSent else NotMade) && t.log == s.log
  {
    SentIsMessage(sodium, s);
    hide Live, Crypto.KxMessage, Packet.Frame, Ascii, ResendHandshake, InitHandshake;
    var e := Enter(s, CryptoHandshake);
    ResendReason(e, env);
    if s.chat.handshakeSent {
      HandshakeIsResent(e, env);
    } else {
      HandshakeIsMade(sodium, e, env);
      InitKeepsLog(sodium, e, env);
      var (made, ok) := InitHandshake(sodium, e, env);
      ResendReason(made, env);
      if ok {
        HandshakeIsResent(made, env);
      }
    }
  }

  lemma ResendReason(s: State, env: Env)
    ensures var (t, o) := ResendHandshake(s, env); o != NotMade && t.log == s.log
  {
    hide Packet.Frame, Packet.Encode;
  }

  lemma InitKeepsLog(sodium: Crypto.Sodium, s: State, env: Env)
    ensures InitHandshake(sodium, s, env).0.log == s.log
  {
    hide Crypto.Init, Ascii;
  }

  /** With nothing waiting, what is sent depends on the session and the clock alone. */
  lemma QuietServiceSends(sodium: Crypto.Sodium, s: State, env: Env)
    requires Good(sodium, s) && Exchanges(s, env) && s.chat.ice.queue == []
    ensures
      Step(sodium, s, Service(env)).history.wire
      == s.history.wire + Handshakes(sodium, s, env)
         + if HandshakeDue(s, env) ==> HandshakeLeaves(s, env) then Headers(s, env) else []
  {
    hide Good, Noted, Step, Exchanges, SameExchange, Handshakes, Headers, HandshakeDue, HandshakeLeaves,
      SetupHandshake, Process;
    var n := Noted(s, env);
    ExchangesFacts(s, env);
    NotedKeeps(s, env);
    SameFacts(s, n);
    SameDue(sodium, s, n, env);
    ServiceSends(sodium, s, env);
    HandshakeKeepsHeader(sodium, n, env);
    StartKeepsTransport(sodium, n, env);
    assert FirstTaken(sodium, n, env) == (SetupHandshake(sodium, n, env).0, true) by { NothingTaken(sodium, n, env); }
  }

  lemma NothingTaken(sodium: Crypto.Sodium, s: State, env: Env)
    requires s.chat.ice.queue == []
    ensures FirstTaken(sodium, s, env) == (SetupHandshake(sodium, s, env).0, true)
  {
    hide SetupHandshake, HandlePacket;
    StartKeepsTransport(sodium, s, env);
  }

  lemma HandshakeKeepsHeader(sodium: Crypto.Sodium, s: State, env: Env)
    ensures Headers(SetupHandshake(sodium, s, env).0, env) == Headers(s, env)
  {
    StartKeepsReady(sodium, s, env);
    hide StartHandshake, Packet.Frame;
  }

  // ---------------------------------------------------------------- a setup in which every first datagram is lost

  /** The session after its handshake has gone out once more. */
  function HelloAgain(s: State, now: nat): State {
    s.(chat := s.chat.(nextHandshakeAt := now + 1, handshakeSent := true),
       history := s.history.(wire := s.history.wire + [Packet.Frame(Packet.HANDSHAKE, s.chat.localMessage)]))
  }

  function HeaderAgain(s: State, now: nat): State {
    s.(chat := s.chat.(nextHeaderAt := now + 1, headerSent := true),
       history := s.history.(wire := s.history.wire + [Packet.Frame(Packet.STREAM_HEADER, s.chat.localHeader)]))
  }

  lemma HelloIsRepeated(sodium: Crypto.Sodium, s: State, now: nat, env: Env)
    requires Up(s.chat) && s.session == CryptoHandshake && s.chat.handshakeSent && !s.chat.headerReceived
    requires |s.chat.localMessage| == Crypto.KX_MESSAGE_BYTES && s.chat.nextHandshakeAt <= now
    requires env.clock.crypto == now && env.clock.handshake == now && Flag(env.sends, 0)
    ensures SetupHandshake(sodium, s, env) == (HelloAgain(s, now), Done)
  {
    hide Packet.Frame, SendPacket;
    SendLeaves(s, Packet.HANDSHAKE, s.chat.localMessage);
    assert Enter(s, CryptoHandshake) == s;
  }

  lemma HeaderIsRepeated(s: State, now: nat, env: Env)
    requires Up(s.chat) && s.chat.keysReady && s.chat.headerSent && s.chat.nextHeaderAt <= now
    requires env.clock.crypto == now && env.clock.header == now && Flag(env.sends, 1)
    ensures SetupHeader(s, env) == (HeaderAgain(s, now), Done)
  {
    hide Packet.Frame, SendPacket;
    SendLeaves(s, Packet.STREAM_HEADER, s.chat.localHeader);
  }

  lemma QuietRound(sodium: Crypto.Sodium, s: State, r: State, t: State, env: Env)
    requires SetupHandshake(sodium, s, env) == (r, Done) && r.chat.ice.queue == []
    requires SetupHeader(r, env) == (t, Done) && t.chat.ice.queue == []
    ensures SetupRound(sodium, s, env) == (t, None)
  {
    hide SetupHandshake, SetupHeader, HandlePacket;
  }

  lemma HelloAgainGreets(
      sodium: Crypto.Sodium, s: State, peer: Crypto.Identity, role: Crypto.Role, sid: Bytes, secret: Key, at: nat,
      now: nat)
    requires Greeted(sodium, s, peer, role, sid, secret, at) && now < s.chat.cryptoDeadline
    ensures
      var t := HelloAgain(s, now);
      && Greeted(sodium, t, peer, role, sid, secret, now) && SameUser(s, t) && BecomeSecure(t) == t
      && t.chat.ice == s.chat.ice && t.chat.cryptoDeadline == s.chat.cryptoDeadline && !t.chat.keysReady
      && t.history.wire == s.history.wire + [Hello(sodium, s.id, peer, role, sid, secret)]
  {
    hide Packet.Frame, Crypto.KxMessage;
  }

  /** A second without an answer: the handshake goes out again. */
  lemma RepeatsHello(
      sodium: Crypto.Sodium, s: State, peer: Crypto.Identity, role: Crypto.Role, sid: Bytes, secret: Key,
      header: Nonce, at: nat, now: nat, env: Env)
    requires Greeted(sodium, s, peer, role, sid, secret, at) && s.chat.ice.queue == []
    requires at < now < s.chat.cryptoDeadline
    ensures
      var t := Step(sodium, s, Service(Working(now, secret, header, env)));
      && Greeted(sodium, t, peer, role, sid, secret, now) && SameUser(s, t) && t.chat.ice.queue == []
      && t.chat.cryptoDeadline == s.chat.cryptoDeadline
      && t.history.wire == s.history.wire + [Hello(sodium, s.id, peer, role, sid, secret)]
  {
    var w := Working(now, secret, header, env);
    var r := HelloAgain(s, now);
    HelloAgainGreets(sodium, s, peer, role, sid, secret, at, now);
    hide SetupRound, ServiceSetup, ServiceIce, Hello, HelloAgain, Step, NoteConnected, BecomeSecure, SetupHandshake,
      Crypto.KxMessage;
    StepService(sodium, s, w);
    ServiceIsRound(sodium, s, w);
    AlreadyNoted(s, w);
    HelloIsRepeated(sodium, s, now, w);
    QuietRound(sodium, s, r, r, w);
    RoundSucceeds(sodium, s, w);
  }

  lemma BothAgainKeyed(s: State, header: Nonce, at: nat, now: nat)
    requires Keyed(s, header, at) && now < s.chat.cryptoDeadline
    ensures
      var r := HelloAgain(s, now);
      var t := HeaderAgain(r, now);
      && Up(r.chat) && r.chat.keysReady && r.chat.headerSent && r.chat.nextHeaderAt == at + 1
      && r.chat.ice == s.chat.ice
      && Keyed(t, header, now) && SameUser(s, t) && BecomeSecure(t) == t && t.chat.ice == s.chat.ice
      && t.history == s.history.(wire := t.history.wire)
      && t.history.wire == s.history.wire
           + [Packet.Frame(Packet.HANDSHAKE, s.chat.localMessage)] + [Packet.Frame(Packet.STREAM_HEADER, header)]
  {
    hide Packet.Frame;
  }

  /** A second without the peer's header: handshake and header go out again. */
  lemma RepeatsHeader(sodium: Crypto.Sodium, s: State, header: Nonce, secret: Key, at: nat, now: nat, env: Env)
    requires Keyed(s, header, at) && s.chat.ice.queue == [] && at < now < s.chat.cryptoDeadline
    ensures
      var t := Step(sodium, s, Service(Working(now, secret, header, env)));
      && Keyed(t, header, now) && SameUser(s, t) && t.chat.ice.queue == []
      && t.history.wire == s.history.wire
           + [Packet.Frame(Packet.HANDSHAKE, s.chat.localMessage)] + [Packet.Frame(Packet.STREAM_HEADER, header)]
  {
    var w := Working(now, secret, header, env);
    var r := HelloAgain(s, now);
    var t := HeaderAgain(r, now);
    BothAgainKeyed(s, header, at, now);
    hide SetupRound, ServiceSetup, ServiceIce, HelloAgain, HeaderAgain, Step, NoteConnected, BecomeSecure,
      SetupHandshake, SetupHeader, Packet.Frame;
    StepService(sodium, s, w);
    ServiceIsRound(sodium, s, w);
    AlreadyNoted(s, w);
    HelloIsRepeated(sodium, s, now, w);
    HeaderIsRepeated(r, now, w);
    QuietRound(sodium, s, r, t, w);
    RoundSucceeds(sodium, s, w);
  }

  /** Whatever is delivered had by then been sent at least twice: the first of every kind of datagram is lost. */
  ghost predicate OnlyRepeats(sodium: Crypto.Sodium, p: Pair, moves: seq<Move>) {
    moves == [] ||
    (var before, m := moves[..|moves| - 1], moves[|moves| - 1];
     var q := Play(sodium, p, before);
     && OnlyRepeats(sodium, p, before)
     && (m.e.Datagram? ==> multiset((if m.OnA? then q.b else q.a).history.wire)[m.e.packet] >= 2))
  }

  lemma OneMore(sodium: Crypto.Sodium, p: Pair, moves: seq<Move>, m: Move)
    requires OnlyRepeats(sodium, p, moves)
    requires
      var q := Play(sodium, p, moves);
      m.e.Datagram? ==> multiset((if m.OnA? then q.b else q.a).history.wire)[m.e.packet] >= 2
    ensures OnlyRepeats(sodium, p, moves + [m])
    ensures Play(sodium, p, moves + [m]) == Next(sodium, Play(sodium, p, moves), m)
  {
    hide Next;
    assert (moves + [m])[..|moves|] == moves;
  }

  /** Two datagrams cross that both sides have sent twice, and both sides are serviced. */
  lemma CrossRepeats(
      sodium: Crypto.Sodium, p: Pair, moves: seq<Move>, q: Pair, da: Bytes, db: Bytes, sa: Env, sb: Env)
    requires OnlyRepeats(sodium, p, moves) && Play(sodium, p, moves) == q
    requires multiset(q.a.history.wire)[da] >= 2 && multiset(q.b.history.wire)[db] >= 2
    ensures
      OnlyRepeats(sodium, p,
        moves + [OnA(Datagram(db))] + [OnB(Datagram(da))] + [OnA(Service(sa))] + [OnB(Service(sb))])
  {
    hide OnlyRepeats, Play, Step;
    OneMore(sodium, p, moves, OnA(Datagram(db)));
    var m1 := moves + [OnA(Datagram(db))];
    ArrivalKeepsHistory(sodium, q.a, db);
    OneMore(sodium, p, m1, OnB(Datagram(da)));
    var m2 := m1 + [OnB(Datagram(da))];
    OneMore(sodium, p, m2, OnA(Service(sa)));
    OneMore(sodium, p, m2 + [OnA(Service(sa))], OnB(Service(sb)));
  }

  lemma ArrivalKeepsHistory(sodium: Crypto.Sodium, s: State, packet: Bytes)
    ensures Step(sodium, s, Datagram(packet)).history == s.history
  {
  }

  lemma ServicesRepeat(sodium: Crypto.Sodium, p: Pair, moves: seq<Move>, ea: Event, eb: Event)
    requires OnlyRepeats(sodium, p, moves) && !ea.Datagram? && !eb.Datagram?
    ensures OnlyRepeats(sodium, p, moves + [OnA(ea)] + [OnB(eb)])
  {
    hide OnlyRepeats, Play, Step;
    OneMore(sodium, p, moves, OnA(ea));
    OneMore(sodium, p, moves + [OnA(ea)], OnB(eb));
  }

  lemma SentAgain(wire: seq<Bytes>, more: seq<Bytes>, d: Bytes)
    requires d in wire
    ensures multiset(wire + more + [d])[d] >= 2
  {
    var i :| 0 <= i < |wire| && wire[i] == d;
    assert multiset(wire)[d] >= 1 && multiset([d])[d] == 1;
    assert multiset(wire + more + [d]) == multiset(wire) + multiset(more) + multiset([d]);
  }

  lemma HelloPhase(
      sodium: Crypto.Sodium, p: Pair, sid: Bytes, moves: seq<Move>, ka: Key, kb: Key, ha: Nonce, hb: Nonce, at: nat,
      env: Env)
    returns (more: seq<Move>)
    requires Honest(sodium, p, moves) && OnlyRepeats(sodium, p, moves)
    requires
      var q := Play(sodium, p, moves);
      && SameUser(p.a, q.a) && SameUser(p.b, q.b) && q.a.chat.ice.queue == [] && q.b.chat.ice.queue == []
      && Greeted(sodium, q.a, p.b.id, Crypto.Initiator, sid, ka, at)
      && Greeted(sodium, q.b, p.a.id, Crypto.Responder, sid, kb, at)
      && at + 1 < q.a.chat.cryptoDeadline && at + 1 < q.b.chat.cryptoDeadline
    ensures Honest(sodium, p, more) && OnlyRepeats(sodium, p, more)
    ensures
      var q := Play(sodium, p, more);
      && SameUser(p.a, q.a) && SameUser(p.b, q.b) && q.a.chat.ice.queue == [] && q.b.chat.ice.queue == []
      && Greeted(sodium, q.a, p.b.id, Crypto.Initiator, sid, ka, at + 1)
      && Greeted(sodium, q.b, p.a.id, Crypto.Responder, sid, kb, at + 1)
      && Deadlines(Play(sodium, p, moves), q)
      && multiset(q.a.history.wire)[Hello(sodium, p.a.id, p.b.id, Crypto.Initiator, sid, ka)] >= 2
      && multiset(q.b.history.wire)[Hello(sodium, p.b.id, p.a.id, Crypto.Responder, sid, kb)] >= 2
  {
    hide Step, Honest, Play, Greeted, OnlyRepeats, Hello;
    var q := Play(sodium, p, moves);
    var sa, sb := Service(Working(at + 1, ka, ha, env)), Service(Working(at + 1, kb, hb, env));
    GreetedIsSilent(sodium, q.a, p.b.id, Crypto.Initiator, sid, ka, at);
    GreetedIsSilent(sodium, q.b, p.a.id, Crypto.Responder, sid, kb, at);
    RepeatsHello(sodium, q.a, p.b.id, Crypto.Initiator, sid, ka, ha, at, at + 1, env);
    RepeatsHello(sodium, q.b, p.a.id, Crypto.Responder, sid, kb, hb, at, at + 1, env);
    GreetedIsSilent(sodium, Step(sodium, q.a, sa), p.b.id, Crypto.Initiator, sid, ka, at + 1);
    GreetedIsSilent(sodium, Step(sodium, q.b, sb), p.a.id, Crypto.Responder, sid, kb, at + 1);
    SentAgain(q.a.history.wire, [], Hello(sodium, p.a.id, p.b.id, Crypto.Initiator, sid, ka));
    SentAgain(q.b.history.wire, [], Hello(sodium, p.b.id, p.a.id, Crypto.Responder, sid, kb));
    assert q.a.history.wire + [] == q.a.history.wire && q.b.history.wire + [] == q.b.history.wire;
    Completion.Phase(sodium, p, moves, q, sa, sb);
    ServicesRepeat(sodium, p, moves, sa, sb);
    more := moves + [OnA(sa)] + [OnB(sb)];
  }

  lemma HeaderPhase(
      sodium: Crypto.Sodium, p: Pair, moves: seq<Move>, ka: Key, kb: Key, ha: Nonce, hb: Nonce, at: nat, env: Env)
    returns (more: seq<Move>)
    requires Honest(sodium, p, moves) && OnlyRepeats(sodium, p, moves)
    requires
      var q := Play(sodium, p, moves);
      && SameUser(p.a, q.a) && SameUser(p.b, q.b) && q.a.chat.ice.queue == [] && q.b.chat.ice.queue == []
      && Keyed(q.a, ha, at) && Keyed(q.b, hb, at)
      && at + 1 < q.a.chat.cryptoDeadline && at + 1 < q.b.chat.cryptoDeadline
    ensures Honest(sodium, p, more) && OnlyRepeats(sodium, p, more)
    ensures
      var q := Play(sodium, p, more);
      && SameUser(p.a, q.a) && SameUser(p.b, q.b) && q.a.chat.ice.queue == [] && q.b.chat.ice.queue == []
      && Keyed(q.a, ha, at + 1) && Keyed(q.b, hb, at + 1)
      && multiset(q.a.history.wire)[Packet.Frame(Packet.STREAM_HEADER, ha)] >= 2
      && multiset(q.b.history.wire)[Packet.Frame(Packet.STREAM_HEADER, hb)] >= 2
  {
    hide Step, Honest, Play, Keyed, OnlyRepeats, Packet.Frame;
    var q := Play(sodium, p, moves);
    var sa, sb := Service(Working(at + 1, ka, ha, env)), Service(Working(at + 1, kb, hb, env));
    KeyedIsSilent(q.a, ha, at);
    KeyedIsSilent(q.b, hb, at);
    RepeatsHeader(sodium, q.a, ha, ka, at, at + 1, env);
    RepeatsHeader(sodium, q.b, hb, kb, at, at + 1, env);
    KeyedIsSilent(Step(sodium, q.a, sa), ha, at + 1);
    KeyedIsSilent(Step(sodium, q.b, sb), hb, at + 1);
    SentAgain(q.a.history.wire, [Packet.Frame(Packet.HANDSHAKE, q.a.chat.localMessage)],
      Packet.Frame(Packet.STREAM_HEADER, ha));
    SentAgain(q.b.history.wire, [Packet.Frame(Packet.HANDSHAKE, q.b.chat.localMessage)],
      Packet.Frame(Packet.STREAM_HEADER, hb));
    Completion.Phase(sodium, p, moves, q, sa, sb);
    ServicesRepeat(sodium, p, moves, sa, sb);
    more := moves + [OnA(sa)] + [OnB(sb)];
  }

  /** Whenever two daemons have begun a session, there is an honest run in which the first handshake and the first
      header of each side are lost, and at the end of which both sides are SECURE all the same. */
  lemma SetupSurvivesLoss(
      sodium: Crypto.Sodium, p: Pair, sid: Bytes, ka: Key, kb: Key, ha: Nonce, hb: Nonce, at: nat, env: Env)
    returns (moves: seq<Move>)
    requires Crypto.Lawful(sodium) && Fresh(sodium, p, sid)
    requires Completion.Untouched(p.a.chat) && Completion.Untouched(p.b.chat)
    ensures Honest(sodium, p, moves) && OnlyRepeats(sodium, p, moves) && BothSecure(p, Play(sodium, p, moves))
  {
    assert Acquainted(sodium, p.a.id, p.b.id, sid) by { hide Good, Begun; }
    hide Crypto.Lawful, Fresh, Honest, Play, Greeted, Keyed, Completion.Untouched, OnlyRepeats, Drew, Hello,
      Packet.Frame;
    moves := FirstPhase(sodium, p, sid, ka, kb, ha, hb, at, env);
    FirstRepeats(sodium, p, Working(at, ka, ha, env), Working(at, kb, hb, env));
    moves := HelloPhase(sodium, p, sid, moves, ka, kb, ha, hb, at, env);
    var q := Play(sodium, p, moves);
    var before := moves;
    CrossRepeats(sodium, p, before, q, Hello(sodium, p.a.id, p.b.id, Crypto.Initiator, sid, ka),
      Hello(sodium, p.b.id, p.a.id, Crypto.Responder, sid, kb), Working(at + 1, ka, ha, env),
      Working(at + 1, kb, hb, env));
    moves := SecondPhase(sodium, p, sid, before, ka, kb, ha, hb, at + 1, env);
    moves := HeaderPhase(sodium, p, moves, ka, kb, ha, hb, at + 1, env);
    q := Play(sodium, p, moves);
    before := moves;
    CrossRepeats(sodium, p, before, q, Packet.Frame(Packet.STREAM_HEADER, ha), Packet.Frame(Packet.STREAM_HEADER, hb),
      Working(at + 2, ka, ha, env), Working(at + 2, kb, hb, env));
    moves := ThirdPhase(sodium, p, before, ka, kb, ha, hb, at + 2, env);
  }

  lemma FirstRepeats(sodium: Crypto.Sodium, p: Pair, sa: Env, sb: Env)
    ensures
      var up := Event.Connected(None);
      OnlyRepeats(sodium, p, [] + [OnA(up)] + [OnB(up)] + [OnA(Service(sa))] + [OnB(Service(sb))])
  {
    var up := Event.Connected(None);
    assert OnlyRepeats(sodium, p, []);
    hide OnlyRepeats;
    ServicesRepeat(sodium, p, [], up, up);
    ServicesRepeat(sodium, p, [] + [OnA(up)] + [OnB(up)], Service(sa), Service(sb));
  }
}
