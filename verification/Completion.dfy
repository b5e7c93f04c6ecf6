/** Setup can always be completed: when nothing is lost, two daemons reach an encrypted session. */
module Completion {
  import opened Daemon
  import opened Network
  import opened Octets
  import opened Pairing
  import opened Session
  import Crypto
  import Packet

  /** A service call at which everything works: both sends leave and the library makes a key and a header. */
  function Working(at: nat, secret: Key, header: Nonce, env: Env): Env {
    env.(clock := Clock(at, at, at, at, at), sends := [true, true], kxSecret := Some(secret), header := Some(header))
  }

  // ---------------------------------------------------------------- stages of one side

  /** The transport is up and nothing stands in the way of the service call. */
  ghost predicate Up(c: Chat) {
    && c.active && c.hasRemotePk && !c.ready && c.pendingSdp.None?
    && c.ice.agent && c.ice.ready && !c.ice.failed && !c.ice.gatheringDone
  }

  ghost predicate Connected(s: State, peer: Crypto.Identity, role: Crypto.Role, sid: Bytes) {
    && Up(s.chat) && Begun(s, peer, role, sid) && !s.chat.cliNotified && s.chat.cryptoDeadline == 0
    && !s.chat.keysReady && !s.chat.headerSent
    && role != Crypto.NoRole && Crypto.SessionIdFits(sid)
  }

  function Hello(sodium: Crypto.Sodium, id: Crypto.Identity, peer: Crypto.Identity, role: Crypto.Role, sid: Bytes,
      secret: Key): Bytes {
    Packet.Frame(Packet.HANDSHAKE, Crypto.KxMessage(sodium, id, peer.public, role, sid, secret))
  }

  /** The handshake is out. */
  ghost predicate Greeted(
      sodium: Crypto.Sodium, s: State, peer: Crypto.Identity, role: Crypto.Role, sid: Bytes, secret: Key, at: nat)
  {
    && Up(s.chat) && s.session == CryptoHandshake && s.chat.cliNotified && at < s.chat.cryptoDeadline
    && s.chat.handshakeSent && s.chat.nextHandshakeAt == at + 1
    && !s.chat.keysReady && !s.chat.headerSent && !s.chat.headerReceived
    && s.chat.hs == Crypto.Handshake(role, s.id.public, peer.public, sodium.kxPublic(secret), secret, sid, true, false)
    && Hello(sodium, s.id, peer, role, sid, secret) in s.history.wire && s.history.sealed == []
    && s.chat.localMessage == Crypto.KxMessage(sodium, s.id, peer.public, role, sid, secret)
    && s.history.kxSecrets == [secret] && s.history.pushes == []
  }

  /** A session has drawn this ephemeral key and started one push stream with this header. */
  ghost predicate Drew(h: History, secret: Key, header: Nonce) {
    h.kxSecrets == [secret] && |h.pushes| == 1 && h.pushes[0].1 == header
  }

  /** The keys are there and the header is out. */
  ghost predicate Keyed(s: State, header: Nonce, at: nat) {
    && Up(s.chat) && s.session == CryptoHandshake && s.chat.cliNotified && at < s.chat.cryptoDeadline
    && s.chat.handshakeSent && s.chat.nextHandshakeAt == at + 1
    && s.chat.keysReady && s.chat.headerSent && s.chat.nextHeaderAt == at + 1 && !s.chat.headerReceived
    && Packet.Frame(Packet.STREAM_HEADER, header) in s.history.wire && s.history.sealed == []
    && s.chat.localHeader == header && |s.chat.localMessage| == Crypto.KX_MESSAGE_BYTES
  }

  /** Encrypted, with the transport up, and nobody has spoken. */
  ghost predicate Secured(s: State) {
    var c := s.chat;
    && c.active && c.ready && s.session == Secure && c.cliNotified && c.pendingSdp.None? && s.history.sealed == []
    && c.ice.agent && c.ice.ready && !c.ice.failed && !c.ice.gatheringDone && c.ice.queue == []
  }

  /** The same user, conversation partner, client and screen. */
  ghost predicate SameUser(s: State, t: State) {
    && t.id == s.id && t.client == s.client && t.chat.peer == s.chat.peer && t.ledger == s.ledger
    && t.log.failures == s.log.failures
  }

  lemma StepService(sodium: Crypto.Sodium, s: State, env: Env)
    ensures Step(sodium, s, Service(env)) == ServiceIce(sodium, s, env)
  {
    hide ServiceIce;
  }

  /** A service call while the transport is up is a round of setup. */
  lemma ServiceIsRound(sodium: Crypto.Sodium, s: State, env: Env)
    requires Up(s.chat) && (s.chat.cryptoDeadline == 0 || env.clock.polled < s.chat.cryptoDeadline)
    ensures ServiceIce(sodium, s, env) == ServiceSetup(sodium, NoteConnected(s, env), env)
  {
    hide ServiceSetup, NoteConnected, Fail;
    NotedIsUp(s, env);
  }

  lemma NotedIsUp(s: State, env: Env)
    ensures NoteConnected(s, env).chat.ice == s.chat.ice && NoteConnected(s, env).chat.ready == s.chat.ready
  {
  }

  lemma RoundSucceeds(sodium: Crypto.Sodium, s: State, env: Env)
    requires s.chat.hasRemotePk && s.chat.cryptoDeadline != 0 && env.clock.crypto < s.chat.cryptoDeadline
    requires SetupRound(sodium, s, env).1.None?
    ensures ServiceSetup(sodium, s, env) == BecomeSecure(SetupRound(sodium, s, env).0)
  {
    hide SetupRound, BecomeSecure, Fail;
  }

  /** Sends that fit leave. */
  lemma SendLeaves(s: State, kind: byte, payload: Bytes)
    requires s.chat.ice.ready && s.chat.ice.agent && |payload| <= 96 && Packet.KindIsValid(kind)
    ensures SendPacket(s, kind, payload, true)
      == (s.(history := s.history.(wire := s.history.wire + [Packet.Frame(kind, payload)])), true)
  {
    hide Packet.Frame;
  }

  // ---------------------------------------------------------------- first service call

  function HelloMade(sodium: Crypto.Sodium, s: State, peer: Crypto.Identity, role: Crypto.Role, sid: Bytes,
      secret: Key): State {
    s.(session := CryptoHandshake,
       chat := s.chat.(
         hs := Crypto.Handshake(role, s.id.public, peer.public, sodium.kxPublic(secret), secret, sid, true, false),
         localMessage := Crypto.KxMessage(sodium, s.id, peer.public, role, sid, secret)),
       history := s.history.(kxSecrets := [secret]))
  }

  function HelloSent(
      sodium: Crypto.Sodium, s: State, peer: Crypto.Identity, role: Crypto.Role, sid: Bytes, secret: Key,
      next: int): State
  {
    var made := HelloMade(sodium, s, peer, role, sid, secret);
    made.(chat := made.chat.(nextHandshakeAt := next, handshakeSent := true),
          history := made.history.(wire := [Hello(sodium, s.id, peer, role, sid, secret)]))
  }

  lemma HelloIsMade(sodium: Crypto.Sodium, s: State, peer: Crypto.Identity, role: Crypto.Role, sid: Bytes,
      secret: Key, env: Env)
    requires Begun(s, peer, role, sid) && role != Crypto.NoRole && Crypto.SessionIdFits(sid)
      && env.kxSecret == Some(secret)
    ensures InitHandshake(sodium, Enter(s, CryptoHandshake), env)
      == (HelloMade(sodium, s, peer, role, sid, secret), true)
  {
    hide Crypto.KxMessage, Ascii;
    assert s.history.kxSecrets + [secret] == [secret];
  }

  lemma HelloIsSent(sodium: Crypto.Sodium, s: State, peer: Crypto.Identity, role: Crypto.Role, sid: Bytes,
      secret: Key, env: Env)
    requires Up(s.chat) && s.history.wire == [] && Flag(env.sends, 0)
    ensures
      ResendHandshake(HelloMade(sodium, s, peer, role, sid, secret), env)
      == (HelloSent(sodium, s, peer, role, sid, secret, env.clock.handshake + 1), Done)
  {
    hide Crypto.KxMessage, Packet.Frame, SendPacket;
    var made := HelloMade(sodium, s, peer, role, sid, secret);
    SendLeaves(made, Packet.HANDSHAKE, made.chat.localMessage);
    assert made.history.wire + [Hello(sodium, s.id, peer, role, sid, secret)]
      == [Hello(sodium, s.id, peer, role, sid, secret)];
  }

  lemma FirstRound(sodium: Crypto.Sodium, s: State, peer: Crypto.Identity, role: Crypto.Role, sid: Bytes,
      secret: Key, env: Env)
    requires Up(s.chat) && Begun(s, peer, role, sid) && role != Crypto.NoRole && Crypto.SessionIdFits(sid)
      && !s.chat.keysReady
    requires env.kxSecret == Some(secret) && Flag(env.sends, 0)
    ensures SetupRound(sodium, s, env) == (HelloSent(sodium, s, peer, role, sid, secret, env.clock.handshake + 1), None)
  {
    HelloIsMade(sodium, s, peer, role, sid, secret, env);
    HelloIsSent(sodium, s, peer, role, sid, secret, env);
    var t := HelloSent(sodium, s, peer, role, sid, secret, env.clock.handshake + 1);
    hide InitHandshake, ResendHandshake, HelloMade, Ascii, Up;
    assert SetupHandshake(sodium, s, env) == (t, Done) by { hide HelloSent; }
    assert t.chat.ice == s.chat.ice && t.chat.keysReady == s.chat.keysReady
      by { HelloKeeps(sodium, s, peer, role, sid, secret, env.clock.handshake + 1); }
    hide SetupHandshake, HelloSent;
  }

  lemma HelloKeeps(sodium: Crypto.Sodium, s: State, peer: Crypto.Identity, role: Crypto.Role, sid: Bytes,
      secret: Key, next: int)
    ensures
      var t := HelloSent(sodium, s, peer, role, sid, secret, next);
      && t.chat.ice == s.chat.ice && t.chat.keysReady == s.chat.keysReady && SameUser(s, t)
      && t.chat.cryptoDeadline == s.chat.cryptoDeadline
  {
  }

  lemma FirstService(sodium: Crypto.Sodium, s: State, peer: Crypto.Identity, role: Crypto.Role, sid: Bytes,
      secret: Key, header: Nonce, at: nat, env: Env)
    requires Connected(s, peer, role, sid)
    ensures Greeted(sodium, Step(sodium, s, Service(Working(at, secret, header, env))), peer, role, sid, secret, at)
    ensures
      var t := Step(sodium, s, Service(Working(at, secret, header, env)));
      SameUser(s, t) && t.chat.ice.queue == [] && t.chat.cryptoDeadline == at + CRYPTO_TIMEOUT
  {
    var w := Working(at, secret, header, env);
    var n := NoteConnected(s, w);
    hide SetupRound, ServiceSetup, ServiceIce, Hello, Ascii, HelloSent, Step;
    StepService(sodium, s, w);
    ServiceIsRound(sodium, s, w);
    FirstRound(sodium, n, peer, role, sid, secret, w);
    RoundSucceeds(sodium, n, w);
    HelloGreets(sodium, n, peer, role, sid, secret, at);
    HelloKeeps(sodium, n, peer, role, sid, secret, at + 1);
  }

  lemma HelloGreets(sodium: Crypto.Sodium, s: State, peer: Crypto.Identity, role: Crypto.Role, sid: Bytes,
      secret: Key, at: nat)
    requires Up(s.chat) && Begun(s, peer, role, sid) && s.chat.cliNotified
      && s.chat.cryptoDeadline == at + CRYPTO_TIMEOUT
    requires !s.chat.keysReady && !s.chat.headerSent
    ensures
      var t := HelloSent(sodium, s, peer, role, sid, secret, at + 1);
      Greeted(sodium, t, peer, role, sid, secret, at) && t.id == s.id && BecomeSecure(t) == t
  {
    hide Hello, Crypto.KxMessage, Ascii;
  }

  // ---------------------------------------------------------------- second service call

  /** The session once the peer's handshake has been accepted. */
  function KeysMade(s: State, hs: Crypto.Handshake, keys: Crypto.SessionKeys, message: Bytes): State {
    s.(chat := s.chat.(hs := hs, keys := keys, keysReady := true, ice := s.chat.ice.(queue := [])),
       history := s.history.(kxAccepted := s.history.kxAccepted + [message]))
  }

  function HeaderOutput(s: State, header: Nonce, next: int): State {
    var m := StartPush(s, header);
    m.(chat := m.chat.(nextHeaderAt := next, headerSent := true),
       history := m.history.(wire := m.history.wire + [Packet.Frame(Packet.STREAM_HEADER, header)]))
  }

  lemma PeerHelloIsTaken(
      sodium: Crypto.Sodium, s: State, peer: Crypto.Identity, role: Crypto.Role, sid: Bytes, secret: Key,
      theirs: Key, at: nat, arrives: bool)
    returns (hs: Crypto.Handshake, keys: Crypto.SessionKeys, message: Bytes)
    requires Crypto.Lawful(sodium) && peer.public == sodium.signPublic(peer.secret)
    requires role != Crypto.NoRole && Crypto.SessionIdFits(sid) && Greeted(sodium, s, peer, role, sid, secret, at)
    requires s.chat.ice.queue == [Packet.Frame(Packet.HANDSHAKE,
      Crypto.KxMessage(sodium, peer, s.id.public, Crypto.Opposite(role), sid, theirs))]
    ensures Process(sodium, s, arrives) == (KeysMade(s, hs, keys, message), true)
  {
    message := Crypto.KxMessage(sodium, peer, s.id.public, Crypto.Opposite(role), sid, theirs);
    var h := s.chat.hs;
    Crypto.GenuineMessageVerifies(sodium, h, peer, theirs);
    Crypto.DerivedKeysMirror(sodium, role, secret, theirs);
    hide Crypto.KxMessage, Crypto.Lawful, Crypto.Verifies, Crypto.Derive, Packet.Frame, Hello;
    var derived := Crypto.Derive(sodium, role, h.kxPk, h.kxSk, message[..32]);
    hs, keys := h.(finished := true, kxSk := ZERO_KEY), derived.value;
    assert Crypto.Finish(sodium, h, message, s.chat.keys) == (Crypto.Ok, hs, keys);
    hide Crypto.Finish;
    HandleFrame(sodium, Pop(s), Packet.HANDSHAKE, message, arrives);
    assert s.chat.ice.queue[1..] == [];
    FinishTakes(sodium, Pop(s), message, hs, keys);
    hide HandlePacket, FinishHandshake;
  }

  lemma FinishTakes(sodium: Crypto.Sodium, s: State, message: Bytes, hs: Crypto.Handshake, keys: Crypto.SessionKeys)
    requires |message| == Crypto.KX_MESSAGE_BYTES
      && Crypto.Finish(sodium, s.chat.hs, message, s.chat.keys) == (Crypto.Ok, hs, keys)
    requires s.chat.ice.queue == []
    ensures FinishHandshake(sodium, s, message) == (KeysMade(s, hs, keys, message), true)
  {
    hide Crypto.Finish;
  }

  lemma HeaderLeaves(s: State, header: Nonce, env: Env)
    requires s.chat.ice.ready && s.chat.ice.agent && s.chat.keysReady && !s.chat.headerSent
    requires env.header == Some(header) && Flag(env.sends, 1)
    ensures SetupHeader(s, env) == (HeaderOutput(s, header, env.clock.header + 1), Done)
  {
    hide Packet.Frame, SendPacket;
    SendLeaves(StartPush(s, header), Packet.STREAM_HEADER, header);
  }

  lemma SecondService(
      sodium: Crypto.Sodium, s: State, peer: Crypto.Identity, role: Crypto.Role, sid: Bytes, secret: Key,
      theirs: Key, header: Nonce,
      at: nat, env: Env)
    requires Crypto.Lawful(sodium) && peer.public == sodium.signPublic(peer.secret)
    requires role != Crypto.NoRole && Crypto.SessionIdFits(sid) && Greeted(sodium, s, peer, role, sid, secret, at)
    requires s.chat.ice.queue == [Packet.Frame(Packet.HANDSHAKE,
      Crypto.KxMessage(sodium, peer, s.id.public, Crypto.Opposite(role), sid, theirs))]
    ensures
      var t := Step(sodium, s, Service(Working(at, secret, header, env)));
      && Keyed(t, header, at) && SameUser(s, t) && t.chat.ice.queue == [] && Drew(t.history, secret, header)
      && t.chat.cryptoDeadline == s.chat.cryptoDeadline
  {
    hide Crypto.Lawful, Crypto.KxMessage, Packet.Frame, Hello, SetupRound, ServiceSetup, ServiceIce, KeysMade,
      HeaderOutput, NoteConnected,
      SetupHeader, Process, BecomeSecure, Step, Keyed;
    var w := Working(at, secret, header, env);
    StepService(sodium, s, w);
    var hs, keys, message := PeerHelloIsTaken(sodium, s, peer, role, sid, secret, theirs, at, Flag(w.writes, 0));
    var k := KeysMade(s, hs, keys, message);
    KeysAreUp(s, hs, keys, message);
    HeaderLeaves(k, header, w);
    KeyedByHeader(sodium, s, peer, role, sid, secret, at, hs, keys, message, header);
    RoundFrom(sodium, s, k, HeaderOutput(k, header, at + 1), w);
    ServiceIsRound(sodium, s, w);
    AlreadyNoted(s, w);
    RoundSucceeds(sodium, s, w);
  }

  lemma KeysAreUp(s: State, hs: Crypto.Handshake, keys: Crypto.SessionKeys, message: Bytes)
    requires Up(s.chat) && !s.chat.headerSent
    ensures
      var k := KeysMade(s, hs, keys, message);
      k.chat.ice.ready && k.chat.ice.agent && k.chat.keysReady && !k.chat.headerSent
  {
  }

  lemma RoundFrom(sodium: Crypto.Sodium, s: State, k: State, t: State, env: Env)
    requires s.chat.handshakeSent && env.clock.crypto < s.chat.nextHandshakeAt
    requires Process(sodium, s, Flag(env.writes, 0)) == (k, true) && SetupHeader(k, env) == (t, Done)
      && t.chat.ice.queue == []
    ensures SetupRound(sodium, s, env) == (t, None)
  {
    hide SetupHeader, StartHandshake, HandlePacket;
  }

  lemma KeyedByHeader(
      sodium: Crypto.Sodium, s: State, peer: Crypto.Identity, role: Crypto.Role, sid: Bytes, secret: Key, at: nat,
      hs: Crypto.Handshake, keys: Crypto.SessionKeys, message: Bytes, header: Nonce)
    requires Greeted(sodium, s, peer, role, sid, secret, at)
    ensures
      var t := HeaderOutput(KeysMade(s, hs, keys, message), header, at + 1);
      && Keyed(t, header, at) && SameUser(s, t) && t.chat.ice.queue == [] && BecomeSecure(t) == t
      && Drew(t.history, secret, header) && t.chat.cryptoDeadline == s.chat.cryptoDeadline
  {
    hide Hello, Packet.Frame;
  }

  // ---------------------------------------------------------------- third service call

  lemma ThirdService(sodium: Crypto.Sodium, s: State, mine: Nonce, theirs: Nonce, secret: Key, at: nat, env: Env)
    requires Keyed(s, mine, at) && s.chat.ice.queue == [Packet.Frame(Packet.STREAM_HEADER, theirs)]
    ensures
      var t := Step(sodium, s, Service(Working(at, secret, mine, env)));
      Secured(t) && SameUser(s, t) && t.history == s.history
  {
    hide SetupRound, ServiceSetup, ServiceIce, Packet.Frame, NoteConnected, Process, ReceiveHeader, BecomeSecure,
      SetupHeader, Step;
    var w := Working(at, secret, mine, env);
    StepService(sodium, s, w);
    PeerHeaderIsTaken(sodium, s, mine, theirs, at, Flag(w.writes, 0));
    var r := ReceiveHeader(Pop(s), theirs);
    HeaderSecures(s, mine, theirs, at, w);
    RoundFrom(sodium, s, r, r, w);
    ServiceIsRound(sodium, s, w);
    AlreadyNoted(s, w);
    RoundSucceeds(sodium, s, w);
  }

  lemma HeaderSecures(s: State, mine: Nonce, theirs: Nonce, at: nat, env: Env)
    requires Keyed(s, mine, at) && s.chat.ice.queue == [Packet.Frame(Packet.STREAM_HEADER, theirs)]
      && env.clock.crypto == at
    ensures
      var r := ReceiveHeader(Pop(s), theirs);
      var t := BecomeSecure(r);
      && SetupHeader(r, env) == (r, Done) && r.chat.ice.queue == []
      && Secured(t) && SameUser(s, t) && t.history == s.history
  {
    hide Packet.Frame;
    assert s.chat.ice.queue[1..] == [];
  }

  lemma PeerHeaderIsTaken(sodium: Crypto.Sodium, s: State, mine: Nonce, theirs: Nonce, at: nat, arrives: bool)
    requires Keyed(s, mine, at) && s.chat.ice.queue != []
      && s.chat.ice.queue[0] == Packet.Frame(Packet.STREAM_HEADER, theirs)
    ensures Process(sodium, s, arrives) == (ReceiveHeader(Pop(s), theirs), true)
  {
    hide HandlePacket, Packet.Frame, Crypto.InitPull;
    HandleFrame(sodium, Pop(s), Packet.STREAM_HEADER, theirs, arrives);
  }

  // ---------------------------------------------------------------- both sides

  /** A session as it begins: its transport has done nothing yet. */
  ghost predicate Untouched(c: Chat) {
    && c.hasRemotePk && !c.ready && c.pendingSdp.None? && !c.cliNotified && c.cryptoDeadline == 0 && !c.keysReady
    && !c.headerSent
    && c.ice == NO_ICE.(agent := true)
  }

  lemma BeginIceIsUntouched(s: State, name: string, sessionId: string, controlling: bool, key: Key, env: Env)
    requires BeginIce(s, name, sessionId, controlling, key, env).1
    ensures Untouched(BeginIce(s, name, sessionId, controlling, key, env).0.chat)
  {
    hide Fail;
  }

  lemma TransportConnects(sodium: Crypto.Sodium, s: State, peer: Crypto.Identity, role: Crypto.Role, sid: Bytes)
    requires Begun(s, peer, role, sid) && Untouched(s.chat) && role != Crypto.NoRole && Crypto.SessionIdFits(sid)
    ensures
      var t := Step(sodium, s, Event.Connected(None));
      Connected(t, peer, role, sid) && SameUser(s, t)
  {
    hide Ascii;
  }

  /** A datagram reaches an empty queue. */
  lemma Arrives(sodium: Crypto.Sodium, s: State, packet: Bytes)
    requires Up(s.chat) && s.chat.ice.queue == [] && |packet| <= ICE_PACKET_MAX
    ensures Step(sodium, s, Datagram(packet)) == s.(chat := s.chat.(ice := s.chat.ice.(queue := [packet])))
  {
    assert [] + [packet] == [packet];
  }

  lemma GreetedWith(
      sodium: Crypto.Sodium, s: State, peer: Crypto.Identity, role: Crypto.Role, sid: Bytes, secret: Key, at: nat,
      queue: seq<Bytes>)
    requires Greeted(sodium, s, peer, role, sid, secret, at)
    ensures Greeted(sodium, s.(chat := s.chat.(ice := s.chat.ice.(queue := queue))), peer, role, sid, secret, at)
  {
    hide Hello;
  }

  lemma KeyedWith(s: State, header: Nonce, at: nat, queue: seq<Bytes>)
    requires Keyed(s, header, at)
    ensures Keyed(s.(chat := s.chat.(ice := s.chat.ice.(queue := queue))), header, at)
  {
    hide Packet.Frame;
  }

  /** One more move of an honest run in which nobody has spoken. */
  lemma Extends(sodium: Crypto.Sodium, p: Pair, moves: seq<Move>, m: Move)
    requires Honest(sodium, p, moves) && Enabled(Play(sodium, p, moves), m)
    requires var q := Next(sodium, Play(sodium, p, moves), m); q.a.history.sealed == [] && q.b.history.sealed == []
    ensures Honest(sodium, p, moves + [m]) && Play(sodium, p, moves + [m]) == Next(sodium, Play(sodium, p, moves), m)
  {
    hide Next, Enabled;
    assert (moves + [m])[..|moves|] == moves;
  }

  /** One event at each daemon. */
  lemma Phase(sodium: Crypto.Sodium, p: Pair, moves: seq<Move>, q: Pair, ea: Event, eb: Event)
    requires Honest(sodium, p, moves) && Play(sodium, p, moves) == q
    requires Allowed(q.a, q.b.history, ea) && Allowed(q.b, Step(sodium, q.a, ea).history, eb)
    requires q.b.history.sealed == [] && Step(sodium, q.a, ea).history.sealed == []
      && Step(sodium, q.b, eb).history.sealed == []
    ensures
      var more := moves + [OnA(ea)] + [OnB(eb)];
      Honest(sodium, p, more) && Play(sodium, p, more) == Pair(Step(sodium, q.a, ea), Step(sodium, q.b, eb))
  {
    hide Step, Allowed, Honest, Play;
    Extends(sodium, p, moves, OnA(ea));
    Extends(sodium, p, moves + [OnA(ea)], OnB(eb));
  }

  /** What both sides have reached. */
  ghost predicate BothSecure(p: Pair, q: Pair) {
    Secured(q.a) && Secured(q.b) && SameUser(p.a, q.a) && SameUser(p.b, q.b)
  }

  lemma FirstPhase(sodium: Crypto.Sodium, p: Pair, sid: Bytes, ka: Key, kb: Key, ha: Nonce, hb: Nonce, at: nat,
      env: Env)
    returns (moves: seq<Move>)
    requires Fresh(sodium, p, sid) && Untouched(p.a.chat) && Untouched(p.b.chat)
    ensures Honest(sodium, p, moves)
    ensures
      var q := Play(sodium, p, moves);
      && SameUser(p.a, q.a) && SameUser(p.b, q.b) && q.a.chat.ice.queue == [] && q.b.chat.ice.queue == []
      && Greeted(sodium, q.a, p.b.id, Crypto.Initiator, sid, ka, at)
      && Greeted(sodium, q.b, p.a.id, Crypto.Responder, sid, kb, at)
      && q.a.chat.cryptoDeadline == q.b.chat.cryptoDeadline == at + CRYPTO_TIMEOUT
    ensures
      var up := Event.Connected(None);
      moves == [] + [OnA(up)] + [OnB(up)]
        + [OnA(Service(Working(at, ka, ha, env)))] + [OnB(Service(Working(at, kb, hb, env)))]
  {
    hide Good, Step, Honest, Play, Greeted, Untouched, Ascii;
    NoMoves(sodium, p);
    TransportConnects(sodium, p.a, p.b.id, Crypto.Initiator, sid);
    TransportConnects(sodium, p.b, p.a.id, Crypto.Responder, sid);
    var up := Event.Connected(None);
    Phase(sodium, p, [], p, up, up);
    moves := [] + [OnA(up)] + [OnB(up)];
    var q := Play(sodium, p, moves);
    var sa, sb := Service(Working(at, ka, ha, env)), Service(Working(at, kb, hb, env));
    FirstService(sodium, q.a, p.b.id, Crypto.Initiator, sid, ka, ha, at, env);
    FirstService(sodium, q.b, p.a.id, Crypto.Responder, sid, kb, hb, at, env);
    GreetedIsSilent(sodium, Step(sodium, q.a, sa), p.b.id, Crypto.Initiator, sid, ka, at);
    GreetedIsSilent(sodium, Step(sodium, q.b, sb), p.a.id, Crypto.Responder, sid, kb, at);
    Phase(sodium, p, moves, q, sa, sb);
    moves := moves + [OnA(sa)] + [OnB(sb)];
  }

  lemma NoMoves(sodium: Crypto.Sodium, p: Pair)
    ensures Honest(sodium, p, []) && Play(sodium, p, []) == p
  {
  }

  lemma GreetedIsSilent(
      sodium: Crypto.Sodium, s: State, peer: Crypto.Identity, role: Crypto.Role, sid: Bytes, secret: Key, at: nat)
    requires Greeted(sodium, s, peer, role, sid, secret, at)
    ensures s.history.sealed == [] && Up(s.chat) && Hello(sodium, s.id, peer, role, sid, secret) in s.history.wire
    ensures |Hello(sodium, s.id, peer, role, sid, secret)| <= ICE_PACKET_MAX
  {
    hide Crypto.KxMessage;
  }

  lemma KeyedIsSilent(s: State, header: Nonce, at: nat)
    requires Keyed(s, header, at)
    ensures s.history.sealed == [] && Up(s.chat) && Packet.Frame(Packet.STREAM_HEADER, header) in s.history.wire
    ensures |Packet.Frame(Packet.STREAM_HEADER, header)| <= ICE_PACKET_MAX
  {
  }

  /** Both datagrams cross. */
  lemma Cross(sodium: Crypto.Sodium, p: Pair, moves: seq<Move>, da: Bytes, db: Bytes) returns (more: seq<Move>)
    requires Honest(sodium, p, moves)
    requires
      var q := Play(sodium, p, moves);
      && Up(q.a.chat) && Up(q.b.chat) && q.a.chat.ice.queue == [] && q.b.chat.ice.queue == []
      && q.a.history.sealed == [] && q.b.history.sealed == []
      && da in q.a.history.wire && db in q.b.history.wire && |da| <= ICE_PACKET_MAX && |db| <= ICE_PACKET_MAX
    ensures Honest(sodium, p, more)
    ensures
      var q := Play(sodium, p, moves);
      Play(sodium, p, more)
      == Pair(q.a.(chat := q.a.chat.(ice := q.a.chat.ice.(queue := [db]))),
        q.b.(chat := q.b.chat.(ice := q.b.chat.ice.(queue := [da]))))
    ensures more == moves + [OnA(Datagram(db))] + [OnB(Datagram(da))]
  {
    hide Step, Honest, Play;
    var q := Play(sodium, p, moves);
    Arrives(sodium, q.a, db);
    Arrives(sodium, q.b, da);
    Phase(sodium, p, moves, q, Datagram(db), Datagram(da));
    more := moves + [OnA(Datagram(db))] + [OnB(Datagram(da))];
  }

  /** Whenever two daemons have begun a session and nothing is lost, there is an honest run after which both are
      SECURE. */
  lemma SetupCompletes(sodium: Crypto.Sodium, p: Pair, sid: Bytes, ka: Key, kb: Key, ha: Nonce, hb: Nonce, at: nat,
      env: Env)
    returns (moves: seq<Move>)
    requires Crypto.Lawful(sodium) && Fresh(sodium, p, sid) && Untouched(p.a.chat) && Untouched(p.b.chat)
    ensures Honest(sodium, p, moves) && BothSecure(p, Play(sodium, p, moves))
    ensures Drew(Play(sodium, p, moves).a.history, ka, ha) && Drew(Play(sodium, p, moves).b.history, kb, hb)
  {
    assert Acquainted(sodium, p.a.id, p.b.id, sid) by { hide Good, Begun; }
    hide Crypto.Lawful, Fresh, Honest, Play, Greeted, Keyed, Untouched;
    moves := FirstPhase(sodium, p, sid, ka, kb, ha, hb, at, env);
    moves := SecondPhase(sodium, p, sid, moves, ka, kb, ha, hb, at, env);
    moves := ThirdPhase(sodium, p, moves, ka, kb, ha, hb, at, env);
  }

  /** The deadlines have not moved. */
  ghost predicate Deadlines(p: Pair, q: Pair) {
    q.a.chat.cryptoDeadline == p.a.chat.cryptoDeadline && q.b.chat.cryptoDeadline == p.b.chat.cryptoDeadline
  }

  lemma SecondPhase(sodium: Crypto.Sodium, p: Pair, sid: Bytes, moves: seq<Move>, ka: Key, kb: Key, ha: Nonce,
      hb: Nonce, at: nat, env: Env)
    returns (more: seq<Move>)
    requires Crypto.Lawful(sodium) && Acquainted(sodium, p.a.id, p.b.id, sid) && Honest(sodium, p, moves)
    requires
      var q := Play(sodium, p, moves);
      && SameUser(p.a, q.a) && SameUser(p.b, q.b) && q.a.chat.ice.queue == [] && q.b.chat.ice.queue == []
      && Greeted(sodium, q.a, p.b.id, Crypto.Initiator, sid, ka, at)
      && Greeted(sodium, q.b, p.a.id, Crypto.Responder, sid, kb, at)
    ensures Honest(sodium, p, more)
    ensures
      var q := Play(sodium, p, more);
      && SameUser(p.a, q.a) && SameUser(p.b, q.b) && q.a.chat.ice.queue == [] && q.b.chat.ice.queue == []
      && Keyed(q.a, ha, at) && Keyed(q.b, hb, at) && Drew(q.a.history, ka, ha) && Drew(q.b.history, kb, hb)
    ensures Deadlines(Play(sodium, p, moves), Play(sodium, p, more))
    ensures
      more == moves + [OnA(Datagram(Hello(sodium, p.b.id, p.a.id, Crypto.Responder, sid, kb)))]
        + [OnB(Datagram(Hello(sodium, p.a.id, p.b.id, Crypto.Initiator, sid, ka)))]
        + [OnA(Service(Working(at, ka, ha, env)))] + [OnB(Service(Working(at, kb, hb, env)))]
  {
    hide Crypto.Lawful, Step, Honest, Play, Greeted, Keyed, Packet.Frame, Up, Crypto.KxMessage;
    var q := Play(sodium, p, moves);
    GreetedIsSilent(sodium, q.a, p.b.id, Crypto.Initiator, sid, ka, at);
    GreetedIsSilent(sodium, q.b, p.a.id, Crypto.Responder, sid, kb, at);
    var da := Hello(sodium, p.a.id, p.b.id, Crypto.Initiator, sid, ka);
    var db := Hello(sodium, p.b.id, p.a.id, Crypto.Responder, sid, kb);
    more := Cross(sodium, p, moves, da, db);
    GreetedWith(sodium, q.a, p.b.id, Crypto.Initiator, sid, ka, at, [db]);
    GreetedWith(sodium, q.b, p.a.id, Crypto.Responder, sid, kb, at, [da]);
    var c := Play(sodium, p, more);
    var sa, sb := Service(Working(at, ka, ha, env)), Service(Working(at, kb, hb, env));
    SecondService(sodium, c.a, p.b.id, Crypto.Initiator, sid, ka, kb, ha, at, env);
    SecondService(sodium, c.b, p.a.id, Crypto.Responder, sid, kb, ka, hb, at, env);
    KeyedIsSilent(Step(sodium, c.a, sa), ha, at);
    KeyedIsSilent(Step(sodium, c.b, sb), hb, at);
    Phase(sodium, p, more, c, sa, sb);
    more := more + [OnA(sa)] + [OnB(sb)];
  }

  lemma ThirdPhase(sodium: Crypto.Sodium, p: Pair, moves: seq<Move>, ka: Key, kb: Key, ha: Nonce, hb: Nonce,
      at: nat, env: Env)
    returns (more: seq<Move>)
    requires Honest(sodium, p, moves)
    requires
      var q := Play(sodium, p, moves);
      && SameUser(p.a, q.a) && SameUser(p.b, q.b) && q.a.chat.ice.queue == [] && q.b.chat.ice.queue == []
      && Keyed(q.a, ha, at) && Keyed(q.b, hb, at)
    ensures Honest(sodium, p, more) && BothSecure(p, Play(sodium, p, more))
    ensures Play(sodium, p, more).a.history == Play(sodium, p, moves).a.history
    ensures Play(sodium, p, more).b.history == Play(sodium, p, moves).b.history
    ensures
      more == moves + [OnA(Datagram(Packet.Frame(Packet.STREAM_HEADER, hb)))]
        + [OnB(Datagram(Packet.Frame(Packet.STREAM_HEADER, ha)))]
        + [OnA(Service(Working(at, ka, ha, env)))] + [OnB(Service(Working(at, kb, hb, env)))]
  {
    hide Step, Honest, Play, Keyed, Packet.Frame, Up;
    var q := Play(sodium, p, moves);
    KeyedIsSilent(q.a, ha, at);
    KeyedIsSilent(q.b, hb, at);
    var da, db := Packet.Frame(Packet.STREAM_HEADER, ha), Packet.Frame(Packet.STREAM_HEADER, hb);
    more := Cross(sodium, p, moves, da, db);
    KeyedWith(q.a, ha, at, [db]);
    KeyedWith(q.b, hb, at, [da]);
    var c := Play(sodium, p, more);
    var sa, sb := Service(Working(at, ka, ha, env)), Service(Working(at, kb, hb, env));
    ThirdService(sodium, c.a, ha, hb, ka, at, env);
    ThirdService(sodium, c.b, hb, ha, kb, at, env);
    Phase(sodium, p, more, c, sa, sb);
    more := more + [OnA(sa)] + [OnB(sb)];
  }

  // ---------------------------------------------------------------- what a ready session does not do

  lemma SetupTakesSilently(sodium: Crypto.Sodium, s: State, payload: Bytes)
    ensures HandleHandshake(sodium, s, payload).0.history.wire == s.history.wire
    ensures HandleHeader(s, payload).0.history.wire == s.history.wire
  {
    hide Crypto.Finish;
  }

  lemma OpeningSendsNothing(sodium: Crypto.Sodium, s: State, kind: byte, payload: Bytes, arrives: bool)
    ensures OpenPayload(sodium, s, kind, payload, arrives).0.history.wire == s.history.wire
  {
    hide Crypto.Decrypt, OneLine;
  }

  lemma HandlingSendsNothing(sodium: Crypto.Sodium, s: State, packet: Bytes, arrives: bool)
    ensures HandlePacket(sodium, s, packet, arrives).0.history.wire == s.history.wire
  {
    hide Packet.Decode, HandleHandshake, HandleHeader, OpenPayload;
    var payload := packet[if |packet| < 6 then 0 else 6..];
    SetupTakesSilently(sodium, s, payload);
    OpeningSendsNothing(sodium, s, Packet.MESSAGE, payload, arrives);
    OpeningSendsNothing(sodium, s, Packet.CLOSE, payload, arrives);
  }

  lemma TakingSendsNothing(sodium: Crypto.Sodium, s: State, arrives: bool)
    ensures Process(sodium, s, arrives).0.history.wire == s.history.wire
  {
    hide HandlePacket;
    if s.chat.ice.queue != [] {
      HandlingSendsNothing(sodium, Pop(s), s.chat.ice.queue[0], arrives);
    }
  }

  lemma {:induction false} DrainSendsNothing(sodium: Crypto.Sodium, s: State, n: nat, env: Env)
    ensures Drain(sodium, s, n, env).history.wire == s.history.wire
    decreases n
  {
    hide Process, Fail;
    if n > 0 {
      var (next, ok) := Process(sodium, s, Flag(env.writes, n));
      TakingSendsNothing(sodium, s, Flag(env.writes, n));
      FailWipes(next, Rejected, env);
      if ok {
        DrainSendsNothing(sodium, next, n - 1, env);
      }
    }
  }

  /** The service calls of a ready session send nothing: a handshake or header that the peer has lost is not
      repeated. */
  lemma ReadySendsNothing(sodium: Crypto.Sodium, s: State, env: Env)
    requires s.chat.ready
    ensures ServiceIce(sodium, s, env).history.wire == s.history.wire
  {
    hide Drain, ServiceSetup, Fail, ApplyPendingSdp, QueueLocalSdp, NoteConnected;
    var s1 := ApplyPendingSdp(s, env).0;
    var s2 := QueueLocalSdp(s1, env).0;
    var s3 := NoteConnected(s2, env);
    PendingKeepsHistory(s, env);
    LocalKeepsHistory(s1, env);
    NotedKeepsHistory(s2, env);
    FailWipes(s, Timeout, env);
    FailWipes(s1, Transport, env);
    FailWipes(s2, Transport, env);
    FailWipes(s2, Timeout, env);
    DrainSendsNothing(sodium, s3, QUEUE_CAPACITY, env);
  }

  predicate SameHistory(s: State, t: State) { t.history == s.history && t.chat.ready == s.chat.ready }

  lemma UnheldKeepsHistory(s: State)
    ensures SameHistory(s, s.(chat := s.chat.(pendingSdp := None)))
  {
  }

  lemma BrokenKeepsHistory(s: State)
    ensures SameHistory(s, s.(chat := s.chat.(ice := s.chat.ice.(failed := true))))
  {
  }

  lemma SelfKeepsHistory(s: State)
    ensures SameHistory(s, s)
  {
  }

  lemma PendingKeepsHistory(s: State, env: Env)
    ensures SameHistory(s, ApplyPendingSdp(s, env).0)
  {
    UnheldKeepsHistory(s);
    BrokenKeepsHistory(s);
    SelfKeepsHistory(s);
    hide SameHistory;
  }

  lemma LocalKeepsHistory(s: State, env: Env)
    ensures var t := QueueLocalSdp(s, env).0; t.history == s.history && t.chat.ready == s.chat.ready
  {
  }

  lemma NotedKeepsHistory(s: State, env: Env)
    ensures var t := NoteConnected(s, env); t.history == s.history && t.chat.ready == s.chat.ready
  {
  }
}
