/** What every event keeps: the session invariant of the daemon, over every run. */
module Session {
  import opened Octets
  import opened Daemon
  import Contacts
  import Crypto
  import Json
  import Packet
  import Pinning

  // ---------------------------------------------------------------- the invariant

  /** No session: every secret, cached message and remote identity is zero. Only the id of an outgoing request may be
      set. */
  ghost predicate Wiped(c: Chat) { c == NO_CHAT.(sessionId := c.sessionId) }

  ghost predicate SameBytes(wire: seq<Bytes>, kind: byte) {
    forall i, j :: 0 <= i < |wire| && 0 <= j < |wire| && Carries(wire[i], kind) && Carries(wire[j], kind)
                   ==> wire[i] == wire[j]
  }

  predicate Carries(packet: Bytes, kind: byte) { |packet| >= 2 && packet[1] == kind }

  /** A session keys itself at most once, and every resend repeats the first datagram. */
  ghost predicate NeverRekeys(h: History) {
    && |h.kxSecrets| <= 1 && |h.pushes| <= 1
    && SameBytes(h.wire, Packet.HANDSHAKE)
    && SameBytes(h.wire, Packet.STREAM_HEADER)
  }

  /** The handshake record matches the session and the one ephemeral key drawn for it. */
  ghost predicate HandshakePart(
      sodium: Crypto.Sodium, id: Crypto.Identity, role: Crypto.Role, remote: Key, sent: bool,
      hs: Crypto.Handshake, message: Bytes, secrets: seq<Key>)
  {
    if !sent then hs == Crypto.WIPED_HANDSHAKE && secrets == []
    else
      && hs.initialized && hs.role == role && hs.localPk == id.public && hs.remotePk == remote
      && Crypto.SessionIdFits(hs.sessionId)
      && |secrets| == 1 && hs.kxPk == sodium.kxPublic(secrets[0])
      && (hs.finished || hs.kxSk == secrets[0])
      && message == Crypto.KxMessage(sodium, id, remote, role, hs.sessionId, secrets[0])
  }

  /** The session keys come from a message that verified under the remote identity; the ephemeral secret is gone. */
  ghost predicate KeysPart(
      sodium: Crypto.Sodium, sent: bool, ready: bool, role: Crypto.Role,
      hs: Crypto.Handshake, keys: Crypto.SessionKeys, secrets: seq<Key>, messages: seq<Bytes>)
  {
    if !ready then !hs.finished && messages == []
    else
      && sent && hs.finished && hs.kxSk == ZERO_KEY
      && |secrets| == 1 && |messages| == 1 && |messages[0]| == Crypto.KX_MESSAGE_BYTES
      && Crypto.Verifies(sodium, hs, messages[0])
      && Crypto.Derive(sodium, role, hs.kxPk, secrets[0], messages[0][..32]) == Some(keys)
  }

  ghost predicate PushPart(
      ready: bool, sent: bool, keys: Crypto.SessionKeys, stream: Crypto.SecretStream,
      header: Nonce, pushes: seq<(Key, Nonce)>, sealed: seq<Crypto.Item>)
  {
    if !sent then !stream.pushOn && pushes == [] && sealed == []
    else
      && ready && stream.pushOn && pushes == [(keys.tx, header)]
      && stream.push == Crypto.Stream(keys.tx, header, sealed)
  }

  ghost predicate PullPart(
      ready: bool, received: bool, keys: Crypto.SessionKeys, stream: Crypto.SecretStream, accepted: seq<Crypto.Item>)
  {
    if !received then !stream.pullOn && accepted == []
    else ready && stream.pullOn && stream.pull.key == keys.rx && stream.pull.items == accepted
  }

  /** Every handshake and header datagram sent so far is the one the session made. */
  ghost predicate WirePart(
      handshakeSent: bool, headerSent: bool, message: Bytes, header: Nonce, wire: seq<Bytes>)
  {
    forall i :: 0 <= i < |wire| ==>
      && (Carries(wire[i], Packet.HANDSHAKE) ==>
            handshakeSent && wire[i] == Packet.Frame(Packet.HANDSHAKE, message))
      && (Carries(wire[i], Packet.STREAM_HEADER) ==>
            headerSent && wire[i] == Packet.Frame(Packet.STREAM_HEADER, header))
  }

  ghost predicate PeerPart(peer: string, remote: Key, verified: seq<Contacts.Contact>) {
    Contacts.Contact(peer, remote) in verified
  }

  /** A session in progress, at any point inside an event. */
  ghost predicate Live(sodium: Crypto.Sodium, s: State) {
    var c, h := s.chat, s.history;
    && c.active && c.hasRemotePk && c.ice.agent && c.role != Crypto.NoRole
    && (c.ready ==> c.headerSent && c.headerReceived)
    && (c.headerReceived ==> c.keysReady)
    && (c.cliNotified <==> c.cryptoDeadline != 0) && (c.handshakeSent ==> c.cliNotified)
    && PeerPart(c.peer, c.remotePk, s.ledger.verified)
    && HandshakePart(sodium, s.id, c.role, c.remotePk, c.handshakeSent, c.hs, c.localMessage, h.kxSecrets)
    && KeysPart(sodium, c.handshakeSent, c.keysReady, c.role, c.hs, c.keys, h.kxSecrets, h.kxAccepted)
    && PushPart(c.keysReady, c.headerSent, c.keys, c.stream, c.localHeader, h.pushes, h.sealed)
    && PullPart(c.keysReady, c.headerReceived, c.keys, c.stream, h.accepted)
    && WirePart(c.handshakeSent, c.headerSent, c.localMessage, c.localHeader, h.wire)
  }

  ghost predicate Linked(sodium: Crypto.Sodium, s: State) {
    if s.chat.active then Live(sodium, s) else Wiped(s.chat)
  }

  /** The session invariant between events. */
  ghost predicate Sound(sodium: Crypto.Sodium, s: State) {
    && Linked(sodium, s)
    && NeverRekeys(s.history)
    && (s.chat.headerReceived <==> s.chat.ready)
    && (s.session == Secure ==> s.chat.ready)
  }

  // ---------------------------------------------------------------- steps that keep the conversation log

  /** Client bookkeeping: without a client nothing is being looked up, and one accepted OPEN_CHAT accounts for at most
      one request and one more per retry. */
  ghost predicate Books(client: Option<int>, lookupPeer: string, retries: nat, requests: nat) {
    && (client.None? ==> lookupPeer == "" && retries == 0)
    && retries <= RETRY_MAX && requests <= 1 + RETRY_MAX
    && (lookupPeer != "" ==> requests <= 1 + retries)
  }

  ghost predicate Booked(s: State) { Books(s.client, s.lookupPeer, s.retries, s.log.requests) }

  /** No message reached a client and no contact was verified. */
  ghost predicate Silent(s: State, t: State) {
    t.id == s.id && t.contacts == s.contacts && t.ledger == s.ledger
  }

  /** ... and the books stayed in order. */
  ghost predicate Quiet(s: State, t: State) { Silent(s, t) && (Booked(s) ==> Booked(t)) }

  lemma RetryWipes(s: State, env: Env)
    ensures
      var r := Retry(s, env);
      r.Some? ==>
        && Wiped(r.value.chat) && r.value.history == s.history && Quiet(s, r.value)
        && r.value.session == Requesting && r.value.log.failures == s.log.failures
  {
    hide KeyedFields, Json.Render;
  }

  lemma ReportKeeps(s: State)
    ensures
      var t := ReportFailure(s);
      && t.chat == s.chat && t.history == s.history && Quiet(s, t)
      && t.session == s.session && t.log.failures == s.log.failures
  {
  }

  /** Giving up always ends with nothing left of the session, whatever state it was in. */
  lemma FailWipes(s: State, reason: Reason, env: Env)
    ensures
      var t := Fail(s, reason, env);
      && Wiped(t.chat) && t.history == s.history && Quiet(s, t)
      && (t.session == Requesting || t.session == Failed)
      && t.log.failures == s.log.failures + [reason]
  {
    var noted := s.(log := s.log.(failures := s.log.failures + [reason]));
    RetryWipes(noted, env);
    ReportKeeps(Enter(noted, Failed));
    hide Retry, ReportFailure;
  }

  /** After giving up, the invariant holds whatever held before. */
  lemma FailIsSound(sodium: Crypto.Sodium, s: State, reason: Reason, env: Env)
    requires NeverRekeys(s.history)
    ensures Sound(sodium, Fail(s, reason, env)) && Quiet(s, Fail(s, reason, env))
  {
    FailWipes(s, reason, env);
    hide Fail;
  }

  lemma BegunIsSound(sodium: Crypto.Sodium, s: State)
    requires s.chat == NO_CHAT.(
      active := true, controlling := s.chat.controlling, peer := s.chat.peer, sessionId := s.chat.sessionId,
      iceDeadline := s.chat.iceDeadline, remotePk := s.chat.remotePk, hasRemotePk := true,
      role := s.chat.role, ice := NO_ICE.(agent := true))
    requires s.chat.role != Crypto.NoRole && s.history == NO_HISTORY && s.session == IceNegotiating
    requires PeerPart(s.chat.peer, s.chat.remotePk, s.ledger.verified)
    ensures Sound(sodium, s)
  {
  }

  lemma BeginIsSound(sodium: Crypto.Sodium, s: State, peer: string, id: string, controlling: bool, pk: Key, env: Env)
    requires NeverRekeys(s.history) && PeerPart(peer, pk, s.ledger.verified)
    ensures
      var (t, ok) := BeginIce(s, peer, id, controlling, pk, env);
      Sound(sodium, t) && Quiet(s, t)
  {
    hide Fail, Sound, PeerPart, Books, NeverRekeys;
    var b := Enter(Reset(s), IceNegotiating);
    if |peer| > Packet.USERNAME_MAX {
      FailIsSound(sodium, b.(chat := b.chat.(peer := Clip(peer, Packet.USERNAME_MAX))), LibraryError, env);
    } else if |id| > 32 {
      FailIsSound(sodium, b.(chat := b.chat.(peer := peer, sessionId := Clip(id, 32))), LibraryError, env);
    } else if !env.iceStarts {
      var chat := b.chat.(
        peer := peer, sessionId := id, remotePk := pk, hasRemotePk := true, controlling := controlling,
        role := if controlling then Crypto.Initiator else Crypto.Responder);
      FailIsSound(sodium, b.(chat := chat), Transport, env);
    } else {
      BegunIsSound(sodium, BeginIce(s, peer, id, controlling, pk, env).0);
    }
  }

  // ---------------------------------------------------------------- the key exchange

  lemma SendKeeps(s: State, kind: byte, payload: Bytes, leaves: bool)
    requires Packet.KindIsValid(kind)
    ensures
      var (t, ok) := SendPacket(s, kind, payload, leaves);
      && t == s.(history := t.history) && t.history == s.history.(wire := t.history.wire)
      && t.history.wire == (if ok then s.history.wire + [Packet.Frame(kind, payload)] else s.history.wire)
      && Carries(Packet.Frame(kind, payload), kind)
  {
  }

  lemma WireIsUniform(handshakeSent: bool, headerSent: bool, message: Bytes, header: Nonce, wire: seq<Bytes>)
    requires WirePart(handshakeSent, headerSent, message, header, wire)
    ensures SameBytes(wire, Packet.HANDSHAKE) && SameBytes(wire, Packet.STREAM_HEADER)
  {
  }

  lemma ResendIsLive(sodium: Crypto.Sodium, s: State, env: Env)
    requires Live(sodium, s.(chat := s.chat.(handshakeSent := true))) && NeverRekeys(s.history)
    ensures
      var (t, o) := ResendHandshake(s, env);
      && NeverRekeys(t.history) && Quiet(s, t) && t.session == s.session
      && (o == Done ==> Live(sodium, t) && t.chat.handshakeSent)
  {
    var (t, ok) := SendPacket(s, Packet.HANDSHAKE, s.chat.localMessage, Flag(env.sends, 0));
    SendKeeps(s, Packet.HANDSHAKE, s.chat.localMessage, Flag(env.sends, 0));
    assert WirePart(true, s.chat.headerSent, s.chat.localMessage, s.chat.localHeader, t.history.wire) by {
      hide SendPacket, Packet.Frame;
    }
    WireIsUniform(true, s.chat.headerSent, s.chat.localMessage, s.chat.localHeader, t.history.wire);
    hide SendPacket, PeerPart, HandshakePart, KeysPart, PushPart, PullPart, WirePart, SameBytes;
  }

  lemma InitIsLive(sodium: Crypto.Sodium, s: State, env: Env)
    requires Live(sodium, s) && NeverRekeys(s.history) && !s.chat.handshakeSent && s.chat.cliNotified
    ensures
      var (t, ok) := InitHandshake(sodium, s, env);
      && NeverRekeys(t.history) && Quiet(s, t) && t.session == s.session
      && (ok ==> Live(sodium, t.(chat := t.chat.(handshakeSent := true))))
  {
    var sid := Ascii(s.chat.sessionId);
    var made := Crypto.Init(
      sodium, s.chat.hs, s.id, s.chat.remotePk, s.chat.role, sid, env.kxSecret, s.chat.localMessage);
    if made.0 == Crypto.Ok {
      assert HandshakePart(
        sodium, s.id, s.chat.role, s.chat.remotePk, true, made.1, made.2, s.history.kxSecrets + [env.kxSecret.value])
        && !made.1.finished by { hide Crypto.KxMessage; }
      hide Crypto.Init, HandshakePart, PeerPart, PullPart, PushPart, SameBytes, Books, Ascii;
    } else {
      hide Crypto.Init, Live, Books, Ascii;
    }
  }

  lemma StartIsLive(sodium: Crypto.Sodium, s: State, env: Env)
    requires Live(sodium, s) && NeverRekeys(s.history) && s.chat.cliNotified
    ensures
      var (t, o) := StartHandshake(sodium, s, env);
      && NeverRekeys(t.history) && Quiet(s, t)
      && (o == Done ==> Live(sodium, t) && t.chat.handshakeSent && t.session == CryptoHandshake)
  {
    hide ResendHandshake, InitHandshake, PeerPart, HandshakePart, KeysPart, PushPart, PullPart, WirePart,
      NeverRekeys, Books;
    var e := Enter(s, CryptoHandshake);
    if s.chat.handshakeSent {
      ResendIsLive(sodium, e, env);
    } else {
      InitIsLive(sodium, e, env);
      var (made, ok) := InitHandshake(sodium, e, env);
      if ok {
        hide Live;
        ResendIsLive(sodium, made, env);
      }
    }
  }

  /** What sending the header does when it goes out. */
  ghost predicate HeaderOut(sodium: Crypto.Sodium, s: State, t: State, o: Outcome) {
    && NeverRekeys(t.history) && Quiet(s, t) && t.session == s.session
    && (o == Done ==>
          && Live(sodium, t) && (t.chat.keysReady ==> t.chat.headerSent)
          && t.chat.ready == s.chat.ready && t.chat.headerReceived == s.chat.headerReceived
          && t.chat.keysReady == s.chat.keysReady && SameDeadlines(s.chat, t.chat))
  }

  lemma HeaderIsLive(sodium: Crypto.Sodium, s: State, env: Env)
    requires Live(sodium, s) && NeverRekeys(s.history)
    ensures var (t, o) := SetupHeader(s, env); HeaderOut(sodium, s, t, o)
  {
    hide Live, NeverRekeys, ResendHeader, StartPush, HeaderOut;
    if s.chat.keysReady && !s.chat.headerSent {
      HeaderNotMade(sodium, s);
      if env.header.Some? {
        FreshHeaderOut(sodium, s, env);
      }
    } else {
      HeaderNotDue(sodium, s);
      if s.chat.keysReady {
        RepeatedHeaderOut(sodium, s, env);
      }
    }
  }

  lemma HeaderNotMade(sodium: Crypto.Sodium, s: State)
    requires Live(sodium, s) && NeverRekeys(s.history)
    ensures HeaderOut(sodium, s, s, NotMade)
  {
  }

  lemma HeaderNotDue(sodium: Crypto.Sodium, s: State)
    requires Live(sodium, s) && NeverRekeys(s.history) && (s.chat.keysReady ==> s.chat.headerSent)
    ensures HeaderOut(sodium, s, s, Done)
  {
  }

  lemma RepeatedHeaderOut(sodium: Crypto.Sodium, s: State, env: Env)
    requires Live(sodium, s) && NeverRekeys(s.history) && s.chat.headerSent
    ensures var (t, o) := ResendHeader(s, env); HeaderOut(sodium, s, t, o)
  {
    hide Live, NeverRekeys, ResendHeader, Books;
    assert s.(chat := s.chat.(headerSent := true)) == s;
    ResendHeaderIsLive(sodium, s, env);
  }

  lemma FreshHeaderOut(sodium: Crypto.Sodium, s: State, env: Env)
    requires Live(sodium, s) && NeverRekeys(s.history) && s.chat.keysReady && !s.chat.headerSent && env.header.Some?
    ensures var (t, o) := ResendHeader(StartPush(s, env.header.value), env); HeaderOut(sodium, s, t, o)
  {
    hide Live, NeverRekeys, ResendHeader, Books;
    FreshHeaderIsLive(sodium, s, env.header.value);
    ResendHeaderIsLive(sodium, StartPush(s, env.header.value), env);
  }

  lemma FreshHeaderIsLive(sodium: Crypto.Sodium, s: State, header: Nonce)
    requires Live(sodium, s) && NeverRekeys(s.history) && s.chat.keysReady && !s.chat.headerSent
    ensures
      var t := StartPush(s, header);
      Live(sodium, t.(chat := t.chat.(headerSent := true))) && NeverRekeys(t.history)
  {
  }

  lemma ResendHeaderIsLive(sodium: Crypto.Sodium, s: State, env: Env)
    requires Live(sodium, s.(chat := s.chat.(headerSent := true))) && NeverRekeys(s.history)
    ensures
      var (t, o) := ResendHeader(s, env);
      && NeverRekeys(t.history) && Quiet(s, t) && t.session == s.session
      && (o == Done ==>
            && Live(sodium, t) && t.chat.headerSent
            && t.chat.ready == s.chat.ready && t.chat.headerReceived == s.chat.headerReceived
            && t.chat.keysReady == s.chat.keysReady && SameDeadlines(s.chat, t.chat))
  {
    var (t, ok) := SendPacket(s, Packet.STREAM_HEADER, s.chat.localHeader, Flag(env.sends, 1));
    SendKeeps(s, Packet.STREAM_HEADER, s.chat.localHeader, Flag(env.sends, 1));
    assert WirePart(s.chat.handshakeSent, true, s.chat.localMessage, s.chat.localHeader, t.history.wire) by {
      hide SendPacket, Packet.Frame;
    }
    WireIsUniform(s.chat.handshakeSent, true, s.chat.localMessage, s.chat.localHeader, t.history.wire);
    hide SendPacket, PeerPart, HandshakePart, KeysPart, PushPart, PullPart, WirePart, SameBytes;
  }

  ghost predicate SameDeadlines(a: Chat, b: Chat) {
    a.iceDeadline == b.iceDeadline && a.cryptoDeadline == b.cryptoDeadline
  }

  /** A packet during setup moves the session forward or is refused; it cannot reach a client. */
  ghost predicate SetupStep(sodium: Crypto.Sodium, s: State, t: State, ok: bool) {
    && NeverRekeys(t.history) && Quiet(s, t)
    && (ok ==>
          && Live(sodium, t) && !t.chat.ready && t.session == s.session && SameDeadlines(s.chat, t.chat)
          && t.chat.headerSent == s.chat.headerSent
          && (t.chat.headerReceived ==> s.chat.headerReceived || (s.chat.keysReady && s.session == CryptoHandshake)))
  }

  lemma HandshakeStep(sodium: Crypto.Sodium, s: State, payload: Bytes)
    requires Live(sodium, s) && NeverRekeys(s.history) && !s.chat.ready
    ensures var (t, ok) := HandleHandshake(sodium, s, payload); SetupStep(sodium, s, t, ok)
  {
    hide PeerPart, WirePart, SameBytes, Crypto.KxMessage, Crypto.Derive, Crypto.Transcript;
  }

  lemma HeaderStep(sodium: Crypto.Sodium, s: State, payload: Bytes)
    requires Live(sodium, s) && NeverRekeys(s.history) && !s.chat.ready
    ensures var (t, ok) := HandleHeader(s, payload); SetupStep(sodium, s, t, ok)
  {
  }

  lemma SetupKeepsIce(sodium: Crypto.Sodium, s: State, payload: Bytes)
    ensures HandleHandshake(sodium, s, payload).0.chat.ice == s.chat.ice
      && HandleHeader(s, payload).0.chat.ice == s.chat.ice
  {
    hide Crypto.Finish;
    if |payload| == Crypto.KX_MESSAGE_BYTES {
      if Crypto.Finish(sodium, s.chat.hs, payload, s.chat.keys).0 == Crypto.Ok {} else {}
    }
  }

  lemma PopIsLive(sodium: Crypto.Sodium, s: State)
    requires Live(sodium, s) && s.chat.ice.queue != []
    ensures Live(sodium, Pop(s))
  {
  }

  lemma ProcessSetup(sodium: Crypto.Sodium, s: State, arrives: bool)
    requires Live(sodium, s) && NeverRekeys(s.history) && !s.chat.ready
    ensures var (t, ok) := Process(sodium, s, arrives); SetupStep(sodium, s, t, ok)
  {
    hide HandleHandshake, HandleHeader, OpenPayload, Packet.Decode, Live, NeverRekeys;
    if s.chat.ice.queue != [] {
      PopIsLive(sodium, s);
      var payload := s.chat.ice.queue[0][if |s.chat.ice.queue[0]| < 6 then 0 else 6..];
      HandshakeStep(sodium, Pop(s), payload);
      HeaderStep(sodium, Pop(s), payload);
    }
  }

  lemma BecomeSecureIsSound(sodium: Crypto.Sodium, s: State)
    requires Live(sodium, s) && NeverRekeys(s.history) && !s.chat.ready && s.session != Secure
    requires s.chat.headerReceived ==> s.chat.headerSent
    ensures Sound(sodium, BecomeSecure(s)) && Quiet(s, BecomeSecure(s))
  {
    hide PeerPart, HandshakePart, KeysPart, PushPart, PullPart, WirePart, NeverRekeys;
  }

  /** A round of setup keeps the session live, and a header can only have arrived while the handshake was running. */
  lemma RoundIsLive(sodium: Crypto.Sodium, s: State, env: Env)
    requires Sound(sodium, s) && s.chat.active && !s.chat.ready && s.chat.cliNotified
    ensures
      var (t, failed) := SetupRound(sodium, s, env);
      && NeverRekeys(t.history) && Quiet(s, t)
      && (failed.None? ==>
            && Live(sodium, t) && !t.chat.ready && t.session != Secure && SameDeadlines(s.chat, t.chat)
            && (t.chat.headerReceived ==> t.chat.headerSent && t.session == CryptoHandshake))
  {
    hide Live, NeverRekeys, Process, SetupHandshake, SetupHeader;
    assert !s.chat.headerReceived && s.session != Secure;
    SetupHandshakeIsLive(sodium, s, env);
    var (s1, o1) := SetupHandshake(sodium, s, env);
    if o1 == Done {
      ProcessSetup(sodium, s1, Flag(env.writes, 0));
      var (s2, ok2) := Process(sodium, s1, Flag(env.writes, 0));
      if ok2 {
        HeaderIsLive(sodium, s2, env);
        var (s3, o3) := SetupHeader(s2, env);
        if o3 == Done {
          ProcessSetup(sodium, s3, Flag(env.writes, 1));
          LiveFacts(sodium, s3);
        }
      }
    }
  }

  /** One service call of a session that is still being set up. */
  lemma SetupIsSound(sodium: Crypto.Sodium, s: State, env: Env)
    requires Sound(sodium, s) && s.chat.active && !s.chat.ready && s.chat.cliNotified
    ensures Sound(sodium, ServiceSetup(sodium, s, env)) && Quiet(s, ServiceSetup(sodium, s, env))
  {
    hide Live, NeverRekeys, Fail, SetupRound, BecomeSecure;
    FailIsSound(sodium, s, NoRemoteKey, env);
    FailIsSound(sodium, s, Timeout, env);
    RoundIsLive(sodium, s, env);
    var (t, failed) := SetupRound(sodium, s, env);
    if failed.Some? {
      FailIsSound(sodium, t, failed.value, env);
    } else {
      BecomeSecureIsSound(sodium, t);
    }
  }

  lemma LiveFacts(sodium: Crypto.Sodium, s: State)
    requires Live(sodium, s)
    ensures s.chat.active && s.chat.ice.agent && (s.chat.headerReceived ==> s.chat.keysReady)
    ensures (s.chat.cliNotified <==> s.chat.cryptoDeadline != 0) && (s.chat.handshakeSent ==> s.chat.cliNotified)
  {
  }

  lemma SetupHandshakeIsLive(sodium: Crypto.Sodium, s: State, env: Env)
    requires Live(sodium, s) && NeverRekeys(s.history) && s.session != Secure && !s.chat.ready && s.chat.cliNotified
    ensures
      var (t, o) := SetupHandshake(sodium, s, env);
      && NeverRekeys(t.history) && Quiet(s, t)
      && (o == Done ==>
            && Live(sodium, t) && t.session != Secure && !t.chat.ready && SameDeadlines(s.chat, t.chat)
            && t.chat.headerReceived == s.chat.headerReceived)
  {
    StartIsLive(sodium, s, env);
    StartKeepsFlags(sodium, s, env);
    hide StartHandshake, Live, NeverRekeys;
  }

  lemma ResendKeepsFlags(s: State, env: Env)
    ensures
      var t := ResendHandshake(s, env).0;
      t.chat.ready == s.chat.ready && t.chat.headerReceived == s.chat.headerReceived && SameDeadlines(s.chat, t.chat)
  {
  }

  lemma StartKeepsFlags(sodium: Crypto.Sodium, s: State, env: Env)
    ensures
      var t := StartHandshake(sodium, s, env).0;
      t.chat.ready == s.chat.ready && t.chat.headerReceived == s.chat.headerReceived && SameDeadlines(s.chat, t.chat)
  {
    hide ResendHandshake, InitHandshake;
    var e := Enter(s, CryptoHandshake);
    ResendKeepsFlags(e, env);
    InitKeepsFlags(sodium, e, env);
    ResendKeepsFlags(InitHandshake(sodium, e, env).0, env);
  }

  lemma InitKeepsFlags(sodium: Crypto.Sodium, s: State, env: Env)
    ensures
      var t := InitHandshake(sodium, s, env).0;
      t.chat.ready == s.chat.ready && t.chat.headerReceived == s.chat.headerReceived && SameDeadlines(s.chat, t.chat)
  {
    var made := Crypto.Init(
      sodium, s.chat.hs, s.id, s.chat.remotePk, s.chat.role,
      Ascii(s.chat.sessionId), env.kxSecret, s.chat.localMessage);
    hide Crypto.Init;
    if made.0 == Crypto.Ok {} else {}
  }

  // ---------------------------------------------------------------- encrypted messages

  /** One datagram of a ready session: accepted, or refused with the records intact. */
  ghost predicate ReadyStep(sodium: Crypto.Sodium, s: State, t: State, ok: bool) {
    && NeverRekeys(t.history) && t.id == s.id && t.contacts == s.contacts && t.ledger.verified == s.ledger.verified
    && (Booked(s) ==> Booked(t))
    && (if ok then Sound(sodium, t) && (t.chat.active ==> t.chat.ready) else t.chat.active)
  }

  lemma OpenedIsLive(sodium: Crypto.Sodium, s: State, item: Crypto.Item)
    requires Live(sodium, s) && s.chat.ready
    ensures
      Live(sodium, s.(chat := s.chat.(stream := s.chat.stream.(pull := Crypto.Advance(s.chat.stream.pull, item))),
                      history := s.history.(accepted := s.history.accepted + [item])))
  {
  }

  lemma LedgerKeepsLive(sodium: Crypto.Sodium, s: State, delivered: seq<Delivery>)
    requires Live(sodium, s)
    ensures Live(sodium, s.(ledger := s.ledger.(delivered := delivered)))
  {
  }

  lemma OpenStep(sodium: Crypto.Sodium, s: State, kind: byte, payload: Bytes, arrives: bool)
    requires Sound(sodium, s) && s.chat.active && s.chat.ready
    ensures var (t, ok) := OpenPayload(sodium, s, kind, payload, arrives); ReadyStep(sodium, s, t, ok)
  {
    var (result, stream, item) := Crypto.Decrypt(sodium, s.chat.stream, payload, Packet.MAX_MESSAGE_SIZE);
    if result == Crypto.Ok {
      OpenedIsLive(sodium, s, item);
      var o := s.(chat := s.chat.(stream := stream), history := s.history.(accepted := s.history.accepted + [item]));
      assert Live(sodium, o);
      assert stream == s.chat.stream.(pull := Crypto.Advance(s.chat.stream.pull, item));
      if kind == Packet.MESSAGE && item.tag == Crypto.TAG_MESSAGE {
        MessageStep(sodium, s, o, item.text, arrives);
      } else if kind == Packet.CLOSE && item.tag == Crypto.TAG_FINAL {
        hide Live, OneLine;
        ClosedStep(sodium, o);
      }
    }
    hide Live, WriteMessage, CloseByPeer;
  }

  lemma MessageStep(sodium: Crypto.Sodium, s: State, o: State, text: Bytes, arrives: bool)
    requires Sound(sodium, s) && s.chat.active && s.chat.ready
    requires Live(sodium, o) && o.chat == s.chat.(stream := o.chat.stream)
    requires NeverRekeys(o.history) && o.id == s.id && o.session == s.session
    requires o.contacts == s.contacts && o.ledger == s.ledger && (Booked(s) ==> Booked(o))
    ensures var (t, ok) := WriteMessage(o, text, arrives); ReadyStep(sodium, s, t, ok)
  {
    hide Live, NeverRekeys, OneLine;
    if o.client.Some? {
      LedgerKeepsLive(sodium, o, o.ledger.delivered + [Delivery(o.client.value, s.chat.peer, OneLine(text))]);
    }
  }

  lemma ClosedStep(sodium: Crypto.Sodium, s: State)
    requires NeverRekeys(s.history)
    ensures ReadyStep(sodium, s, CloseByPeer(s), true)
    ensures !CloseByPeer(s).chat.active && CloseByPeer(s).history == s.history
  {
  }

  lemma PopIsSound(sodium: Crypto.Sodium, s: State)
    requires Sound(sodium, s) && s.chat.active && s.chat.ice.queue != []
    ensures Sound(sodium, Pop(s))
  {
  }

  /** Once ready, a repeated handshake or header changes nothing. */
  lemma DuplicatesIgnored(sodium: Crypto.Sodium, s: State, payload: Bytes)
    requires Live(sodium, s) && s.chat.ready
    ensures HandleHandshake(sodium, s, payload).0 == s && HandleHeader(s, payload).0 == s
  {
  }

  lemma ActiveIsLive(sodium: Crypto.Sodium, s: State)
    requires Sound(sodium, s) && s.chat.active
    ensures Live(sodium, s)
  {
  }

  lemma SelfIsReadyStep(sodium: Crypto.Sodium, s: State)
    requires Sound(sodium, s) && s.chat.active && s.chat.ready
    ensures ReadyStep(sodium, s, s, true) && ReadyStep(sodium, s, s, false)
  {
  }

  lemma HandleReady(sodium: Crypto.Sodium, s: State, packet: Bytes, arrives: bool)
    requires Sound(sodium, s) && s.chat.active && s.chat.ready
    ensures var (t, ok) := HandlePacket(sodium, s, packet, arrives); ReadyStep(sodium, s, t, ok)
  {
    hide OpenPayload, Packet.Decode, HandleHandshake, HandleHeader, ReadyStep, Sound;
    var payload := packet[if |packet| < 6 then 0 else 6..];
    OpenStep(sodium, s, Packet.MESSAGE, payload, arrives);
    OpenStep(sodium, s, Packet.CLOSE, payload, arrives);
    ActiveIsLive(sodium, s);
    DuplicatesIgnored(sodium, s, payload);
    SelfIsReadyStep(sodium, s);
  }

  lemma ProcessReady(sodium: Crypto.Sodium, s: State, arrives: bool)
    requires Sound(sodium, s) && (s.chat.active ==> s.chat.ready)
    ensures var (t, ok) := Process(sodium, s, arrives); ReadyStep(sodium, s, t, ok)
  {
    if s.chat.ice.queue != [] {
      assert s.chat.active;
      PopIsSound(sodium, s);
      HandleReady(sodium, Pop(s), s.chat.ice.queue[0], arrives);
    }
    hide Live, NeverRekeys, HandlePacket;
  }

  /** Draining a ready session's queue keeps the invariant and the books. */
  lemma {:induction false} DrainIsSound(sodium: Crypto.Sodium, s: State, n: nat, env: Env)
    requires Sound(sodium, s) && (s.chat.active ==> s.chat.ready)
    ensures
      var t := Drain(sodium, s, n, env);
      && Sound(sodium, t) && t.id == s.id && t.contacts == s.contacts
      && t.ledger.verified == s.ledger.verified
      && (Booked(s) ==> Booked(t))
    decreases n
  {
    hide Sound, NeverRekeys, Process, Fail;
    if n > 0 {
      ProcessReady(sodium, s, Flag(env.writes, n));
      var (next, ok) := Process(sodium, s, Flag(env.writes, n));
      if ok {
        DrainIsSound(sodium, next, n - 1, env);
      } else {
        FailIsSound(sodium, next, Rejected, env);
      }
    }
  }

  // ---------------------------------------------------------------- periodic service

  /** The invariant of every reachable state. */
  ghost predicate Good(sodium: Crypto.Sodium, s: State) { Sound(sodium, s) && Booked(s) }

  /** The contact file agrees with every identity accepted so far. */
  ghost predicate Trusting(s: State) { Pinning.Trusted(s.contacts, s.ledger.verified) }

  /** Accepted identities stay accepted, and the contact file goes on agreeing with them. */
  ghost predicate KeepsTrust(s: State, t: State) {
    s.ledger.verified <= t.ledger.verified && (Trusting(s) ==> Trusting(t))
  }

  lemma SdpIsSound(sodium: Crypto.Sodium, s: State, sdp: Option<string>)
    requires Sound(sodium, s) && s.chat.active
    ensures Sound(sodium, s.(chat := s.chat.(pendingSdp := sdp)))
  {
  }

  lemma IceIsSound(sodium: Crypto.Sodium, s: State, ice: Ice)
    requires Sound(sodium, s) && s.chat.active && ice.agent
    ensures Sound(sodium, s.(chat := s.chat.(ice := ice)))
  {
  }

  lemma PendingSdpIsSound(sodium: Crypto.Sodium, s: State, env: Env)
    requires Sound(sodium, s) && s.chat.active
    ensures var (t, ok) := ApplyPendingSdp(s, env); Sound(sodium, t) && Quiet(s, t) && t.chat.active
  {
    LiveFacts(sodium, s);
    SdpIsSound(sodium, s, None);
    IceIsSound(sodium, s, s.chat.ice.(failed := true));
    hide Sound;
  }

  lemma LocalSdpIsSound(sodium: Crypto.Sodium, s: State, env: Env)
    requires Sound(sodium, s) && s.chat.active
    ensures var (t, ok) := QueueLocalSdp(s, env); Sound(sodium, t) && Quiet(s, t) && t.chat.active
  {
    hide PeerPart, HandshakePart, KeysPart, PushPart, PullPart, WirePart, NeverRekeys, Json.Render, SdpFields;
  }

  lemma NoteConnectedIsSound(sodium: Crypto.Sodium, s: State, env: Env)
    requires Sound(sodium, s) && s.chat.active
    ensures
      var t := NoteConnected(s, env);
      && Sound(sodium, t) && Quiet(s, t) && t.chat.active && t.chat.cliNotified
      && t.chat.ready == s.chat.ready && t.chat.ice == s.chat.ice
  {
    hide PeerPart, HandshakePart, KeysPart, PushPart, PullPart, WirePart, NeverRekeys;
  }

  lemma CryptoIsGood(sodium: Crypto.Sodium, s: State, env: Env)
    requires Good(sodium, s) && s.chat.active && s.chat.cliNotified
    ensures
      var t := ServiceCrypto(sodium, s, env);
      Good(sodium, t) && t.id == s.id && t.contacts == s.contacts && t.ledger.verified == s.ledger.verified
  {
    hide Drain, ServiceSetup, Sound;
    if s.chat.ready {
      DrainIsSound(sodium, s, QUEUE_CAPACITY, env);
    } else {
      SetupIsSound(sodium, s, env);
    }
  }

  lemma ServiceIsGood(sodium: Crypto.Sodium, s: State, env: Env)
    requires Good(sodium, s)
    ensures
      var t := ServiceIce(sodium, s, env);
      Good(sodium, t) && t.id == s.id && t.contacts == s.contacts && t.ledger.verified == s.ledger.verified
  {
    hide Fail, ApplyPendingSdp, QueueLocalSdp, NoteConnected, ServiceCrypto, Live, NeverRekeys;
    if s.chat.active {
      FailIsSound(sodium, s, Timeout, env);
      PendingSdpIsSound(sodium, s, env);
      var (s1, applied) := ApplyPendingSdp(s, env);
      FailIsSound(sodium, s1, Transport, env);
      LocalSdpIsSound(sodium, s1, env);
      var (s2, queued) := QueueLocalSdp(s1, env);
      FailIsSound(sodium, s2, Transport, env);
      FailIsSound(sodium, s2, Timeout, env);
      NoteConnectedIsSound(sodium, s2, env);
      CryptoIsGood(sodium, NoteConnected(s2, env), env);
    }
  }

  lemma AlreadyNoted(s: State, env: Env)
    requires s.chat.cliNotified
    ensures NoteConnected(s, env) == s
  {
  }

  lemma {:induction false} NothingToDrain(sodium: Crypto.Sodium, s: State, n: nat, env: Env)
    requires s.chat.ice.queue == []
    ensures Drain(sodium, s, n, env) == s
    decreases n
  {
    hide Fail, HandlePacket;
    if n > 0 {
      NothingToDrain(sodium, s, n - 1, env);
    }
  }

  lemma IdleQueue(sodium: Crypto.Sodium, s: State)
    requires Sound(sodium, s) && !s.chat.active
    ensures s.chat.ice.queue == []
  {
  }

  // ---------------------------------------------------------------- client commands

  lemma SealIsSound(sodium: Crypto.Sodium, s: State, kind: byte, item: Crypto.Item, leaves: bool)
    requires Sound(sodium, s) && (kind == Packet.MESSAGE || kind == Packet.CLOSE)
    ensures
      var t := SendEncrypted(sodium, s, kind, item, leaves).0;
      && Sound(sodium, t) && Quiet(s, t) && t.session == s.session && t.client == s.client
      && t.chat.active == s.chat.active && t.chat.ready == s.chat.ready
  {
    hide Sound, SendPacket, Packet.Frame, Books;
    var (result, stream, c) := Crypto.Encrypt(sodium, s.chat.stream, item, Packet.MAX_MESSAGE_SIZE);
    if s.chat.ready && result == Crypto.Ok {
      ReadyIsActive(sodium, s);
      var m := s.(chat := s.chat.(stream := stream), history := s.history.(sealed := s.history.sealed + [item]));
      SealedIsSound(sodium, s, item, m);
      SendKeeps(m, kind, c, leaves);
      var (t, ok) := SendPacket(m, kind, c, leaves);
      MoreWireIsSound(sodium, m, t, Packet.Frame(kind, c), kind);
    }
  }

  lemma ReadyIsActive(sodium: Crypto.Sodium, s: State)
    requires Sound(sodium, s) && s.chat.ready
    ensures s.chat.active
  {
  }

  lemma SealedIsSound(sodium: Crypto.Sodium, s: State, item: Crypto.Item, t: State)
    requires Sound(sodium, s) && s.chat.active && s.chat.ready
    requires t == s.(
      chat := s.chat.(stream := s.chat.stream.(push := Crypto.Advance(s.chat.stream.push, item))),
      history := s.history.(sealed := s.history.sealed + [item]))
    ensures Sound(sodium, t)
  {
  }

  lemma MoreWireIsSound(sodium: Crypto.Sodium, s: State, t: State, packet: Bytes, kind: byte)
    requires Sound(sodium, s) && s.chat.active
    requires Carries(packet, kind) && kind != Packet.HANDSHAKE && kind != Packet.STREAM_HEADER
    requires t == s.(history := s.history.(wire := t.history.wire))
    requires t.history.wire == s.history.wire || t.history.wire == s.history.wire + [packet]
    ensures Sound(sodium, t)
  {
    hide PeerPart, HandshakePart, KeysPart, PushPart, PullPart, Packet.Frame;
  }

  lemma HangUpIsSound(sodium: Crypto.Sodium, s: State, next: SessionState)
    requires NeverRekeys(s.history) && next != Secure
    ensures Sound(sodium, HangUp(s, next)) && Quiet(s, HangUp(s, next))
  {
  }

  lemma CloseIsSound(sodium: Crypto.Sodium, s: State, leaves: bool)
    requires Sound(sodium, s)
    ensures
      var t := HangUp(SendClose(sodium, s, leaves), Closed);
      Sound(sodium, t) && Quiet(s, t)
  {
    var e := Enter(s, Closing);
    assert Sound(sodium, e) by { EnterIsSound(sodium, s, Closing); }
    SealIsSound(sodium, e, Packet.CLOSE, Crypto.Item([], Crypto.TAG_FINAL), leaves);
    var c := SendClose(sodium, s, leaves);
    HangUpIsSound(sodium, c, Closed);
    hide SendEncrypted, HangUp, Live, NeverRekeys;
  }

  lemma EnterIsSound(sodium: Crypto.Sodium, s: State, next: SessionState)
    requires Sound(sodium, s) && next != Secure
    ensures Sound(sodium, Enter(s, next))
  {
  }

  /** Fields outside the session that client bookkeeping and the control connection change. */
  ghost predicate SameChat(s: State, t: State) {
    && t.id == s.id && t.session == s.session && t.chat == s.chat
    && t.history == s.history && t.ledger == s.ledger && t.contacts == s.contacts
  }

  ghost predicate SameCore(s: State, t: State) { SameChat(s, t) && (Booked(s) ==> Booked(t)) }

  lemma SameCoreIsSound(sodium: Crypto.Sodium, s: State, t: State)
    requires Sound(sodium, s) && SameChat(s, t)
    ensures Sound(sodium, t)
  {
  }

  lemma CommandIsSound(sodium: Crypto.Sodium, s: State, line: string, leaves: bool)
    requires Sound(sodium, s)
    ensures
      var t := OneCommand(sodium, s, line, leaves);
      Sound(sodium, t) && Quiet(s, t)
  {
    hide Sound, SendEncrypted, TextIsValid, Ascii;
    if SEND <= line {
      var item := Crypto.Item(Ascii(line[|SEND|..]), Crypto.TAG_MESSAGE);
      SealIsSound(sodium, s, Packet.MESSAGE, item, leaves);
      var (sent, ok) := SendText(sodium, s, item.text, leaves);
      assert Sound(sodium, sent);
      SameCoreIsSound(sodium, sent, Write(sent, CliError(SendFailed)));
    } else {
      SameCoreIsSound(sodium, s, Write(s, CliError(UnknownCommand)));
    }
  }

  lemma {:induction false} CommandsAreSound(
      sodium: Crypto.Sodium, s: State, text: string, i: nat, n: nat, env: Env)
    requires i <= |text| && Sound(sodium, s)
    ensures
      var t := Commands(sodium, s, text, i, n, env);
      Sound(sodium, t) && Quiet(s, t)
    decreases |text| - i
  {
    hide Sound, OneCommand, HangUp, SendClose;
    if !(i == |text| || s.client.None? || !s.chat.active) {
      var end := LineEnd(text, i);
      CloseIsSound(sodium, s, Flag(env.sends, n));
      CommandIsSound(sodium, s, text[i..end], Flag(env.sends, n));
      if text[i..end] != "CLOSE_CHAT" && end < |text| {
        var next := OneCommand(sodium, s, text[i..end], Flag(env.sends, n));
        CommandsAreSound(sodium, next, text, SkipLineEnds(text, end + 1), n + 1, env);
      }
    }
  }

  lemma ClientIsSound(sodium: Crypto.Sodium, s: State, input: Input, env: Env)
    requires Sound(sodium, s)
    ensures
      var t := ServiceClient(sodium, s, input, env);
      Sound(sodium, t) && Quiet(s, t)
  {
    hide Sound, Commands, HangUp, SendClose, NeverRekeys;
    SoundFacts(sodium, s);
    HangUpIsSound(sodium, s, Failed);
    CloseIsSound(sodium, s, Flag(env.sends, 0));
    if input.Command? {
      CommandsAreSound(sodium, s, CString(input.text), 0, 0, env);
    }
  }

  lemma RequestIsSound(sodium: Crypto.Sodium, s: State, peer: string, id: SessionId)
    requires Sound(sodium, s)
    ensures
      var (t, ok) := QueueChatRequest(s, peer, id);
      && Sound(sodium, t) && Silent(s, t)
      && t.client == s.client && t.lookupPeer == s.lookupPeer && t.retries == s.retries
      && t.log.requests == s.log.requests + (if ok then 1 else 0)
  {
    hide Json.Render, KeyedFields;
    var m := s.(chat := s.chat.(sessionId := id));
    assert Sound(sodium, m) by {
      hide PeerPart, HandshakePart, KeysPart, PushPart, PullPart, WirePart, NeverRekeys;
    }
    SameCoreIsSound(sodium, m, QueueChatRequest(s, peer, id).0);
    hide Sound;
  }

  lemma AskIsSound(sodium: Crypto.Sodium, s: State, fd: int, peer: string, env: Env)
    requires Sound(sodium, s)
    ensures Sound(sodium, AskPeer(s, fd, peer, env)) && Quiet(s, AskPeer(s, fd, peer, env))
  {
    hide Sound, QueueChatRequest;
    var m := s.(lookupPeer := peer, client := Some(fd), retries := 0, log := s.log.(requests := 0));
    SameCoreIsSound(sodium, s, m);
    EnterIsSound(sodium, m, Requesting);
    var e := Enter(m, Requesting);
    RequestIsSound(sodium, e, peer, env.sessionId);
    var (q, ok) := QueueChatRequest(e, peer, env.sessionId);
    SameCoreIsSound(sodium, q, Respond(q, CliError(ChatRequestFailed)));
  }

  lemma TellIsSound(sodium: Crypto.Sodium, s: State, fd: int, line: CliLine)
    requires Sound(sodium, s)
    ensures Sound(sodium, Tell(s, fd, line)) && Quiet(s, Tell(s, fd, line))
  {
  }

  lemma AttachIsSound(sodium: Crypto.Sodium, s: State, fd: int)
    requires Sound(sodium, s)
    ensures Sound(sodium, Attach(s, fd)) && Quiet(s, Attach(s, fd))
  {
    hide Sound;
    SameCoreIsSound(sodium, s, Attach(s, fd));
  }

  lemma OpenChatIsSound(sodium: Crypto.Sodium, s: State, fd: int, peer: string, env: Env)
    requires Sound(sodium, s)
    ensures Sound(sodium, OpenChat(s, fd, peer, env)) && Quiet(s, OpenChat(s, fd, peer, env))
  {
    hide Sound, Tell, AskPeer, Packet.UsernameIsValid, Attach;
    AskIsSound(sodium, s, fd, peer, env);
    AttachIsSound(sodium, s, fd);
    TellIsSound(sodium, s, fd, CliError(InvalidUsername));
    TellIsSound(sodium, s, fd, CliError(DaemonNotOnline));
    TellIsSound(sodium, s, fd, UserOnline(peer));
    TellIsSound(sodium, s, fd, CliError(Busy));
  }

  // ---------------------------------------------------------------- server messages

  /** A contact check records what it verified and touches nothing else of the session. */
  lemma VerifyIsGood(sodium: Crypto.Sodium, s: State, name: string, key: Key, io: Contacts.Io)
    requires Good(sodium, s)
    ensures
      var (t, result) := Verify(s, name, key, io);
      && Good(sodium, t) && t.id == s.id && t.chat == s.chat && t.session == s.session && t.history == s.history
      && KeepsTrust(s, t)
      && (result == Contacts.Ok ==> PeerPart(name, key, t.ledger.verified))
  {
    var (result, file, isNew) := Contacts.VerifyOrPin(s.contacts, name, key, io);
    var m := s.(contacts := file);
    MoreVerifiedIsSound(sodium, s, m.(ledger := m.ledger.(verified := m.ledger.verified
      + [Contacts.Contact(name, key)])));
    MoreVerifiedIsSound(sodium, s, m);
    if Trusting(s) {
      Pinning.CallKeepsTrust(s.contacts, s.ledger.verified, name, key, io);
    }
    hide Sound, Contacts.VerifyOrPin, Pinning.Trusted;
  }

  lemma MoreVerifiedIsSound(sodium: Crypto.Sodium, s: State, t: State)
    requires Sound(sodium, s) && t == s.(contacts := t.contacts, ledger := t.ledger)
    requires s.ledger.verified <= t.ledger.verified
    ensures Sound(sodium, t)
  {
  }

  lemma QueueKeepsCore(s: State, fields: seq<Json.Field>, size: nat)
    ensures SameCore(s, QueueBuilt(s, fields, size).0)
  {
  }

  lemma RespondKeepsCore(s: State, line: CliLine)
    ensures SameCore(s, Respond(s, line))
  {
  }

  lemma RequestedIsGood(sodium: Crypto.Sodium, s: State, json: string, env: Env)
    requires Good(sodium, s)
    ensures var t := HandleChatRequest(s, json, env); Good(sodium, t) && t.id == s.id && KeepsTrust(s, t)
  {
    hide Sound, Verify, QueueBuilt, BeginIce, Json.GetString, Packet.UsernameIsValid, KeyedFields,
      HexToKey;
    var from := Json.GetString(json, "from", 33);
    var id := Json.GetString(json, "session_id", 33);
    var hex := Json.GetString(json, "public_key", 65);
    if from.Some? && id.Some? && hex.Some? && HexToKey(hex.value).Some? {
      var key := HexToKey(hex.value).value;
      VerifyIsGood(sodium, s, from.value, key, env.io);
      var (s1, result) := Verify(s, from.value, key, env.io);
      if result == Contacts.Ok {
        EnterIsSound(sodium, s1, Requesting);
        var e := Enter(s1, Requesting);
        var fields := KeyedFields("chat_accept", s.id, from.value, id.value);
        QueueKeepsCore(e, fields, 512);
        var (s2, ok) := QueueBuilt(e, fields, 512);
        SameCoreIsSound(sodium, e, s2);
        SoundFacts(sodium, s2);
        BeginIsSound(sodium, s2, from.value, id.value, false, key, env);
      }
    }
  }

  lemma SoundFacts(sodium: Crypto.Sodium, s: State)
    requires Sound(sodium, s)
    ensures NeverRekeys(s.history)
  {
  }

  lemma AcceptedIsGood(sodium: Crypto.Sodium, s: State, json: string, env: Env)
    requires Good(sodium, s)
    ensures var t := HandleChatAccept(s, json, env); Good(sodium, t) && t.id == s.id && KeepsTrust(s, t)
  {
    hide Sound, Verify, QueueBuilt, Respond, BeginIce, Json.GetString, PeerFields, HexToKey;
    var from := Json.GetString(json, "from", 33);
    var id := Json.GetString(json, "session_id", 33);
    var hex := Json.GetString(json, "public_key", 65);
    if from.Some? && id.Some? && hex.Some? && HexToKey(hex.value).Some? {
      var key := HexToKey(hex.value).value;
      VerifyIsGood(sodium, s, from.value, key, env.io);
      var (s1, result) := Verify(s, from.value, key, env.io);
      if result == Contacts.ErrMismatch {
        var fields := PeerFields("chat_cancel", s.id, from.value, id.value);
        QueueKeepsCore(s1, fields, 384);
        RespondIsGood(sodium, s1, QueueBuilt(s1, fields, 384).0, IdentityMismatch(from.value));
      } else if result != Contacts.Ok {
        RespondIsGood(sodium, s1, s1, CliError(ContactVerificationFailed));
      } else {
        SoundFacts(sodium, s1);
        BeginIsSound(sodium, s1, from.value, id.value, true, key, env);
        var (s2, ok) := BeginIce(s1, from.value, id.value, true, key, env);
        RespondIsGood(sodium, s2, s2, IceFailed(from.value));
      }
    }
  }

  lemma RespondIsGood(sodium: Crypto.Sodium, s: State, t: State, line: CliLine)
    requires Good(sodium, s) && SameCore(s, t)
    ensures var u := Respond(t, line); Good(sodium, u) && u.id == s.id && KeepsTrust(s, u)
  {
    RespondKeepsCore(t, line);
    SameCoreIsSound(sodium, s, Respond(t, line));
    hide Sound, Respond;
  }

  lemma CredentialsAreSound(sodium: Crypto.Sodium, s: State, json: string, env: Env)
    requires Sound(sodium, s)
    ensures
      var t := HandleIceCredentials(sodium, s, json, env);
      Sound(sodium, t) && Quiet(s, t)
  {
    hide Json.GetString;
    if s.chat.active {
      LiveFacts(sodium, s);
      forall sdp { SdpIsSound(sodium, s, Some(sdp)); }
      IceIsSound(sodium, s, s.chat.ice.(failed := true));
    }
    hide Sound;
  }

  lemma CancelIsSound(sodium: Crypto.Sodium, s: State, json: string)
    requires Sound(sodium, s)
    ensures Sound(sodium, HandleChatCancel(s, json)) && Quiet(s, HandleChatCancel(s, json))
  {
  }

  lemma StatusKeepsCore(s: State, json: string)
    ensures SameCore(s, HandleUserStatus(s, json))
  {
    hide Json.GetString, Json.IsTrue, Respond;
    RespondKeepsCore(s, UserOffline(s.lookupPeer));
    RespondKeepsCore(s, UserOnline(s.lookupPeer));
  }

  lemma ErrorKeepsCore(s: State, json: string)
    ensures SameCore(s, HandleError(s, json))
  {
    hide Json.GetString, HelloFields, Respond, QueueBuilt;
    var found := Json.GetString(json, "code", 128);
    var code := if found.Some? then found.value else "unknown";
    QueueKeepsCore(s.(phase := Greeting), HelloFields(s.id), 128);
    RespondKeepsCore(s, UserOffline(s.lookupPeer));
    RespondKeepsCore(s, CliError(FromServer(code)));
  }

  lemma ChallengeKeepsCore(sodium: Crypto.Sodium, s: State, json: string)
    ensures SameCore(s, HandleChallenge(sodium, s, json))
  {
    hide Json.GetString, Json.Render, AuthFields, HexToKey;
  }

  lemma SignalIsGood(sodium: Crypto.Sodium, s: State, kind: string, json: string, env: Env)
    requires Good(sodium, s)
    ensures
      var t := HandleSignal(sodium, s, kind, json, env);
      Good(sodium, t) && t.id == s.id && KeepsTrust(s, t)
  {
    hide Good, Sound, HandleChatRequest, HandleChatAccept, HandleIceCredentials, HandleChatCancel;
    assert Sound(sodium, s) by { GoodFacts(sodium, s); }
    RequestedIsGood(sodium, s, json, env);
    AcceptedIsGood(sodium, s, json, env);
    CredentialsAreSound(sodium, s, json, env);
    CancelIsSound(sodium, s, json);
    QuietIsGood(sodium, s, HandleIceCredentials(sodium, s, json, env));
    QuietIsGood(sodium, s, HandleChatCancel(s, json));
  }

  lemma GoodFacts(sodium: Crypto.Sodium, s: State)
    requires Good(sodium, s)
    ensures Sound(sodium, s)
  {
  }

  lemma QuietIsGood(sodium: Crypto.Sodium, s: State, t: State)
    requires Good(sodium, s) && Sound(sodium, t) && Quiet(s, t)
    ensures Good(sodium, t) && KeepsTrust(s, t)
  {
  }

  lemma SameCoreIsGood(sodium: Crypto.Sodium, s: State, t: State)
    requires Good(sodium, s) && SameCore(s, t)
    ensures Good(sodium, t) && t.id == s.id && KeepsTrust(s, t)
  {
  }

  lemma MessageIsGood(sodium: Crypto.Sodium, s: State, json: string, env: Env)
    requires Good(sodium, s)
    ensures var t := HandleReceive(sodium, s, json, env); Good(sodium, t) && t.id == s.id && KeepsTrust(s, t)
  {
    hide Good, HandleSignal, HandleUserStatus, HandleError, HandleChallenge, QueueBuilt, HelloFields, Json.GetString;
    var kind := Json.GetString(json, "type", 32);
    if kind.Some? {
      SignalIsGood(sodium, s, kind.value, json, env);
      StatusKeepsCore(s, json);
      ErrorKeepsCore(s, json);
      ChallengeKeepsCore(sodium, s, json);
      var greeting := s.(phase := Greeting);
      QueueKeepsCore(greeting, HelloFields(s.id), 128);
      SameCoreIsGood(sodium, s, HandleUserStatus(s, json));
      SameCoreIsGood(sodium, s, HandleError(s, json));
      SameCoreIsGood(sodium, s, HandleChallenge(sodium, s, json));
      SameCoreIsGood(sodium, s, QueueBuilt(greeting, HelloFields(s.id), 128).0);
      SameCoreIsGood(sodium, s, s.(challenge := None, phase := Online));
    }
  }

  // ---------------------------------------------------------------- every run

  lemma StepIsGood(sodium: Crypto.Sodium, s: State, e: Event)
    requires Good(sodium, s)
    ensures var t := Step(sodium, s, e); Good(sodium, t) && t.id == s.id && KeepsTrust(s, t)
  {
    hide Good, Sound, HandleReceive, OpenChat, ServiceClient, ServiceIce, QueueBuilt, RegisterFields, Receive,
      Respond, OnIce, Books;
    if e.Established? || e.Writeable? || e.ConnectionError? || e.Disconnected? {
      LinkEventIsGood(sodium, s, e);
    } else if e.GatheringDone? || e.Connected? || e.TransportFailed? || e.Datagram? {
      IceEventIsGood(sodium, s, e);
    } else {
      GoodFacts(sodium, s);
      match e
      case ServerMessage(json, env) =>
        MessageIsGood(sodium, s, CString(json), env);
        SameCoreIsGood(sodium, s, s.(phase := Broken));
      case OpenChatCommand(fd, peer, env) =>
        OpenChatIsSound(sodium, s, fd, peer, env);
        QuietIsGood(sodium, s, OpenChat(s, fd, peer, env));
      case ClientInput(input, env) =>
        ClientIsSound(sodium, s, input, env);
        QuietIsGood(sodium, s, ServiceClient(sodium, s, input, env));
      case Service(env) => ServiceIsGood(sodium, s, env);
    }
  }

  lemma LinkEventIsGood(sodium: Crypto.Sodium, s: State, e: Event)
    requires Good(sodium, s) && (e.Established? || e.Writeable? || e.ConnectionError? || e.Disconnected?)
    ensures var t := Step(sodium, s, e); Good(sodium, t) && t.id == s.id && KeepsTrust(s, t)
  {
    hide Good, HandleReceive, OpenChat, ServiceClient, ServiceIce, QueueBuilt, RegisterFields, Receive, Respond,
      OnIce, Books;
    QueueKeepsCore(s.(wsi := true, connected := true, phase := Registering), RegisterFields(s.id), 512);
    RespondKeepsCore(s.(wsi := false, connected := false), CliError(ServerUnavailable));
    RespondKeepsCore(s.(wsi := false, connected := false, challenge := None), CliError(ServerDisconnected));
    SameCoreIsGood(sodium, s, Step(sodium, s, e));
  }

  lemma IceEventIsGood(sodium: Crypto.Sodium, s: State, e: Event)
    requires Good(sodium, s) && (e.GatheringDone? || e.Connected? || e.TransportFailed? || e.Datagram?)
    ensures var t := Step(sodium, s, e); Good(sodium, t) && t.id == s.id && KeepsTrust(s, t)
  {
    hide Good, HandleReceive, OpenChat, ServiceClient, ServiceIce, QueueBuilt, RegisterFields, Receive, Respond, OnIce;
    match e
    case GatheringDone => CallbackIsGood(sodium, s, s.chat.ice.(gatheringDone := true));
    case Connected(pair) =>
      CallbackIsGood(sodium, s, s.chat.ice.(ready := true));
      if pair.Some? {
        CallbackIsGood(sodium, s, s.chat.ice.(ready := true, pairKnown := true, pairRelayed := pair.value));
      }
    case TransportFailed => CallbackIsGood(sodium, s, s.chat.ice.(failed := true));
    case Datagram(packet) =>
      ReceiveKeepsAgent(s.chat.ice, packet);
      CallbackIsGood(sodium, s, Receive(s.chat.ice, packet));
  }

  lemma CallbackIsGood(sodium: Crypto.Sodium, s: State, ice: Ice)
    requires Good(sodium, s) && ice.agent == s.chat.ice.agent
    ensures var t := OnIce(s, ice); Good(sodium, t) && t.id == s.id && KeepsTrust(s, t)
  {
    hide Good, Sound, OnIce, Books;
    GoodFacts(sodium, s);
    CallbackIsSound(sodium, s, ice);
    QuietIsGood(sodium, s, OnIce(s, ice));
  }

  lemma ReceiveKeepsAgent(ice: Ice, packet: Bytes)
    ensures Receive(ice, packet).agent == ice.agent
  {
  }

  lemma CallbackIsSound(sodium: Crypto.Sodium, s: State, ice: Ice)
    requires Sound(sodium, s) && ice.agent == s.chat.ice.agent
    ensures Sound(sodium, OnIce(s, ice)) && Quiet(s, OnIce(s, ice))
  {
  }

  lemma StartIsGood(sodium: Crypto.Sodium, id: Crypto.Identity, contacts: string)
    ensures Good(sodium, Start(id, contacts))
  {
  }

  /** Every run, from any contact file: the session invariant holds at every event boundary. */
  lemma {:induction false} EveryRunIsGood(
      sodium: Crypto.Sodium, id: Crypto.Identity, contacts: string, events: seq<Event>)
    ensures var s := Run(sodium, Start(id, contacts), events); Good(sodium, s) && s.id == id
  {
    if events == [] {
      StartIsGood(sodium, id, contacts);
    } else {
      EveryRunIsGood(sodium, id, contacts, events[..|events| - 1]);
      StepIsGood(sodium, Run(sodium, Start(id, contacts), events[..|events| - 1]), events[|events| - 1]);
      hide Good, Step;
    }
  }

  /** A longer run only adds accepted identities. */
  lemma {:induction false} VerifiedGrows(
      sodium: Crypto.Sodium, id: Crypto.Identity, contacts: string, events: seq<Event>, n: nat)
    requires n <= |events|
    ensures
      Run(sodium, Start(id, contacts), events[..n]).ledger.verified
      <= Run(sodium, Start(id, contacts), events).ledger.verified
  {
    hide Good, Step;
    if n == |events| {
      assert events[..n] == events;
    } else {
      var before := events[..|events| - 1];
      assert before[..n] == events[..n];
      VerifiedGrows(sodium, id, contacts, before, n);
      EveryRunIsGood(sodium, id, contacts, before);
      StepIsGood(sodium, Run(sodium, Start(id, contacts), before), events[|events| - 1]);
    }
  }

  /** Every run from a safe contact file: it agrees with all identities accepted so far, and no name has two. */
  lemma {:induction false} EveryRunIsTrusting(
      sodium: Crypto.Sodium, id: Crypto.Identity, contacts: string, events: seq<Event>)
    requires Pinning.Safe(contacts)
    ensures Trusting(Run(sodium, Start(id, contacts), events))
  {
    hide Good, Step, Pinning.Safe;
    if events != [] {
      var before := events[..|events| - 1];
      EveryRunIsTrusting(sodium, id, contacts, before);
      EveryRunIsGood(sodium, id, contacts, before);
      StepIsGood(sodium, Run(sodium, Start(id, contacts), before), events[|events| - 1]);
    }
  }

  /** The flags of every reachable state. */
  lemma SessionInvariant(sodium: Crypto.Sodium, id: Crypto.Identity, contacts: string, events: seq<Event>)
    ensures
      var s := Run(sodium, Start(id, contacts), events);
      var c := s.chat;
      && (c.headerReceived <==> c.ready)
      && (s.session == Secure ==> c.ready)
      && (c.ready ==> c.active && c.keysReady && c.hs.finished && c.handshakeSent && c.headerSent)
      && (c.ready ==> c.stream.pushOn && c.stream.pullOn && c.hs.kxSk == ZERO_KEY)
  {
    EveryRunIsGood(sodium, id, contacts, events);
    hide Run, PeerPart, HandshakePart, WirePart, NeverRekeys, Crypto.Verifies, Crypto.Derive;
  }

  /** Whenever no session is active, nothing of one is left: handshake, keys, streams, cached datagrams, remote
      identity. */
  lemma InactiveMeansWiped(sodium: Crypto.Sodium, id: Crypto.Identity, contacts: string, events: seq<Event>)
    ensures
      var c := Run(sodium, Start(id, contacts), events).chat;
      !c.active ==> c == NO_CHAT.(sessionId := c.sessionId)
  {
    EveryRunIsGood(sodium, id, contacts, events);
    hide Run, Live, NeverRekeys;
  }

  /** Within one session every handshake datagram is the same, every stream header is the same, one ephemeral key is
      drawn and one push stream is started, across every service call and timer. */
  lemma ResendsNeverRekey(sodium: Crypto.Sodium, id: Crypto.Identity, contacts: string, events: seq<Event>)
    ensures NeverRekeys(Run(sodium, Start(id, contacts), events).history)
  {
    EveryRunIsGood(sodium, id, contacts, events);
    hide Run, Live, NeverRekeys;
  }

  /** One accepted OPEN_CHAT causes at most four chat requests; without a client nothing is pending for one. */
  lemma RetriesAreBounded(sodium: Crypto.Sodium, id: Crypto.Identity, contacts: string, events: seq<Event>)
    ensures
      var s := Run(sodium, Start(id, contacts), events);
      && s.log.requests <= 1 + RETRY_MAX && s.retries <= RETRY_MAX
      && (s.client.None? ==> s.retries == 0 && s.lookupPeer == "")
  {
    EveryRunIsGood(sodium, id, contacts, events);
    hide Run, Sound;
  }


  // ---------------------------------------------------------------- the way to SECURE

  lemma {:induction false} CommandsNotSecured(
      sodium: Crypto.Sodium, s: State, text: string, i: nat, n: nat, env: Env)
    requires i <= |text| && s.session != Secure
    ensures Commands(sodium, s, text, i, n, env).session != Secure
    decreases |text| - i
  {
    hide OneCommand, SendClose;
    if !(i == |text| || s.client.None? || !s.chat.active) {
      var end := LineEnd(text, i);
      CommandKeepsSession(sodium, s, text[i..end], Flag(env.sends, n));
      if text[i..end] != "CLOSE_CHAT" && end < |text| {
        var next := OneCommand(sodium, s, text[i..end], Flag(env.sends, n));
        CommandsNotSecured(sodium, next, text, SkipLineEnds(text, end + 1), n + 1, env);
      }
    }
  }

  lemma CommandKeepsSession(sodium: Crypto.Sodium, s: State, line: string, leaves: bool)
    ensures OneCommand(sodium, s, line, leaves).session == s.session
  {
    hide TextIsValid, Ascii, Packet.Frame;
  }

  lemma ClientNotSecured(sodium: Crypto.Sodium, s: State, input: Input, env: Env)
    requires s.session != Secure
    ensures ServiceClient(sodium, s, input, env).session != Secure
  {
    hide Commands, SendClose;
    if input.Command? {
      CommandsNotSecured(sodium, s, CString(input.text), 0, 0, env);
    }
  }

  lemma BeginNotSecured(s: State, peer: string, id: string, controlling: bool, pk: Key, env: Env)
    ensures BeginIce(s, peer, id, controlling, pk, env).0.session != Secure
  {
    hide Fail;
    forall m: State, reason: Reason
      ensures Fail(m, reason, env).session != Secure
    {
      FailWipes(m, reason, env);
    }
  }

  lemma SignalNotSecured(sodium: Crypto.Sodium, s: State, kind: string, json: string, env: Env)
    requires s.session != Secure
    ensures HandleSignal(sodium, s, kind, json, env).session != Secure
  {
    hide BeginIce, Verify, QueueBuilt, Respond, Json.GetString, HexToKey, KeyedFields, PeerFields,
      Packet.UsernameIsValid, Matches;
    forall m: State, fields, size { QueueKeepsCore(m, fields, size); }
    forall m: State, line { RespondKeepsCore(m, line); }
    forall m: State, peer, id, controlling, pk { BeginNotSecured(m, peer, id, controlling, pk, env); }
    forall name, key { VerifyKeepsSession(s, name, key, env.io); }
  }

  lemma VerifyKeepsSession(s: State, name: string, key: Key, io: Contacts.Io)
    ensures Verify(s, name, key, io).0.session == s.session
  {
    hide Contacts.VerifyOrPin;
  }

  lemma MessageNotSecured(sodium: Crypto.Sodium, s: State, json: string, env: Env)
    requires s.session != Secure
    ensures HandleReceive(sodium, s, json, env).session != Secure
  {
    hide HandleSignal, HandleUserStatus, HandleError, HandleChallenge, QueueBuilt, HelloFields, Json.GetString;
    var kind := Json.GetString(json, "type", 32);
    if kind.Some? {
      SignalNotSecured(sodium, s, kind.value, json, env);
      StatusKeepsCore(s, json);
      ErrorKeepsCore(s, json);
      ChallengeKeepsCore(sodium, s, json);
      QueueKeepsCore(s.(phase := Greeting), HelloFields(s.id), 128);
    }
  }

  lemma AskNotSecured(s: State, fd: int, peer: string, env: Env)
    requires s.session != Secure
    ensures OpenChat(s, fd, peer, env).session != Secure
  {
    hide KeyedFields, Json.Render, Packet.UsernameIsValid;
  }

  /** A ready session that is not SECURE is not made so by its datagrams. */
  lemma {:induction false} DrainNotSecured(sodium: Crypto.Sodium, s: State, n: nat, env: Env)
    requires s.session != Secure
    ensures Drain(sodium, s, n, env).session != Secure
    decreases n
  {
    hide Process, Fail;
    if n > 0 {
      ProcessKeepsSession(sodium, s, Flag(env.writes, n));
      var (next, ok) := Process(sodium, s, Flag(env.writes, n));
      FailWipes(next, Rejected, env);
      if ok {
        DrainNotSecured(sodium, next, n - 1, env);
      }
    }
  }

  lemma ProcessKeepsSession(sodium: Crypto.Sodium, s: State, arrives: bool)
    requires s.session != Secure
    ensures Process(sodium, s, arrives).0.session == s.session
  {
    hide Packet.Decode, OpenPayload, Crypto.Finish, Crypto.InitPull;
  }

  /** The session as a service call finds it when it turns to the key exchange. */
  function Noted(s: State, env: Env): State {
    NoteConnected(QueueLocalSdp(ApplyPendingSdp(s, env).0, env).0, env)
  }

  /** What it takes for a session to become SECURE in the key exchange. */
  ghost predicate Secures(sodium: Crypto.Sodium, s: State, env: Env, t: State) {
    var (r, failed) := SetupRound(sodium, s, env);
    && !s.chat.ready && failed.None? && r.session == CryptoHandshake
    && r.chat.keysReady && r.chat.headerSent && r.chat.headerReceived && t == BecomeSecure(r)
  }

  lemma CryptoSecures(sodium: Crypto.Sodium, s: State, env: Env)
    requires Sound(sodium, s) && s.chat.active && s.chat.cliNotified && s.session != Secure
    requires ServiceCrypto(sodium, s, env).session == Secure
    ensures Secures(sodium, s, env, ServiceCrypto(sodium, s, env))
  {
    hide Fail, Live, NeverRekeys, SetupRound, Drain, BecomeSecure;
    FailWipes(s, NoRemoteKey, env);
    FailWipes(s, Timeout, env);
    DrainNotSecured(sodium, s, QUEUE_CAPACITY, env);
    if !s.chat.ready {
      RoundIsLive(sodium, s, env);
      var (t, failed) := SetupRound(sodium, s, env);
      if failed.Some? {
        FailWipes(t, failed.value, env);
      }
      RoundSecures(t);
    }
  }

  lemma ServiceSecures(sodium: Crypto.Sodium, s: State, env: Env)
    requires Good(sodium, s) && s.session != Secure && ServiceIce(sodium, s, env).session == Secure
    ensures s.chat.active && !s.chat.ready && Secures(sodium, Noted(s, env), env, ServiceIce(sodium, s, env))
  {
    hide Fail, ApplyPendingSdp, QueueLocalSdp, NoteConnected, Sound, Secures, ServiceCrypto, Books;
    GoodFacts(sodium, s);
    var (s1, applied) := ApplyPendingSdp(s, env);
    var (s2, queued) := QueueLocalSdp(s1, env);
    var s3 := NoteConnected(s2, env);
    FailWipes(s, Timeout, env);
    FailWipes(s1, Transport, env);
    FailWipes(s2, Transport, env);
    FailWipes(s2, Timeout, env);
    PendingSdpIsSound(sodium, s, env);
    LocalSdpIsSound(sodium, s1, env);
    NoteConnectedIsSound(sodium, s2, env);
    NotedNotSecured(s, env);
    CryptoSecures(sodium, s3, env);
    SdpKeepsDeadlines(s, env);
    SdpKeepsDeadlines(s1, env);
    SecuresUnready(sodium, s3, env, ServiceCrypto(sodium, s3, env));
  }

  lemma SecuresUnready(sodium: Crypto.Sodium, s: State, env: Env, t: State)
    requires Secures(sodium, s, env, t)
    ensures !s.chat.ready
  {
    hide SetupRound, BecomeSecure;
  }

  lemma RoundSecures(t: State)
    requires t.session != Secure
    ensures BecomeSecure(t).session == Secure <==> t.chat.keysReady && t.chat.headerSent && t.chat.headerReceived
  {
  }

  lemma NotedNotSecured(s: State, env: Env)
    requires s.session != Secure
    ensures
      && ApplyPendingSdp(s, env).0.session != Secure
      && QueueLocalSdp(ApplyPendingSdp(s, env).0, env).0.session != Secure
      && Noted(s, env).session != Secure
  {
    hide Json.Render, SdpFields;
  }

  /** Over every event: SECURE is entered by a service call alone, whose setup round ended in CRYPTO_HANDSHAKE with
      the keys and both headers. */
  lemma SecureOnlyFromHandshake(sodium: Crypto.Sodium, s: State, e: Event)
    requires Good(sodium, s) && s.session != Secure && Step(sodium, s, e).session == Secure
    ensures e.Service? && s.chat.active && !s.chat.ready
    ensures Secures(sodium, Noted(s, e.env), e.env, Step(sodium, s, e))
  {
    hide Good, HandleReceive, OpenChat, ServiceClient, ServiceIce, QueueBuilt, RegisterFields, Receive, Respond,
      Noted, Secures;
    match e
    case Established => QueueKeepsCore(s.(wsi := true, connected := true, phase := Registering),
      RegisterFields(s.id), 512);
    case ServerMessage(json, env) => MessageNotSecured(sodium, s, CString(json), env);
    case Writeable(written) =>
    case ConnectionError => RespondKeepsCore(s.(wsi := false, connected := false), CliError(ServerUnavailable));
    case Disconnected =>
      RespondKeepsCore(s.(wsi := false, connected := false, challenge := None), CliError(ServerDisconnected));
    case OpenChatCommand(fd, peer, env) => AskNotSecured(s, fd, peer, env);
    case ClientInput(input, env) => ClientNotSecured(sodium, s, input, env);
    case GatheringDone =>
    case Connected(pair) =>
    case TransportFailed =>
    case Datagram(packet) =>
    case Service(env) => ServiceSecures(sodium, s, env);
  }

  /** After every service call a session that is active but not yet encrypted is strictly before its deadline. */
  lemma DeadlinesHold(sodium: Crypto.Sodium, s: State, env: Env)
    requires Good(sodium, s) && Monotone(env.clock)
    ensures
      var c := ServiceIce(sodium, s, env).chat;
      c.active && !c.ready ==> env.clock.polled < if c.cryptoDeadline != 0 then c.cryptoDeadline else c.iceDeadline
  {
    hide Fail, ApplyPendingSdp, QueueLocalSdp, NoteConnected, ServiceCrypto, Live, NeverRekeys;
    if s.chat.active {
      var (s1, applied) := ApplyPendingSdp(s, env);
      var (s2, queued) := QueueLocalSdp(s1, env);
      SdpKeepsDeadlines(s, env);
      SdpKeepsDeadlines(s1, env);
      FailWipes(s, Timeout, env);
      FailWipes(s1, Transport, env);
      FailWipes(s2, Transport, env);
      FailWipes(s2, Timeout, env);
      PendingSdpIsSound(sodium, s, env);
      LocalSdpIsSound(sodium, s1, env);
      NoteConnectedIsSound(sodium, s2, env);
      ConnectedDeadline(s2, env);
      LiveFacts(sodium, s2);
      var s3 := NoteConnected(s2, env);
      LiveFacts(sodium, s3);
      if s2.chat.ice.ready {
        CryptoDeadline(sodium, s3, env);
      }
    }
  }

  lemma SdpKeepsDeadlines(s: State, env: Env)
    ensures SameDeadlines(s.chat, ApplyPendingSdp(s, env).0.chat)
      && ApplyPendingSdp(s, env).0.chat.ready == s.chat.ready
    ensures SameDeadlines(s.chat, QueueLocalSdp(s, env).0.chat) && QueueLocalSdp(s, env).0.chat.ready == s.chat.ready
  {
    hide Json.Render, SdpFields;
  }

  lemma ConnectedDeadline(s: State, env: Env)
    ensures
      var t := NoteConnected(s, env);
      && t.chat.cliNotified && t.chat.ready == s.chat.ready && t.chat.ice == s.chat.ice
      && t.chat.cryptoDeadline == (if s.chat.cliNotified then s.chat.cryptoDeadline
          else env.clock.connected + CRYPTO_TIMEOUT)
  {
  }

  lemma CryptoDeadline(sodium: Crypto.Sodium, s: State, env: Env)
    requires Good(sodium, s) && s.chat.active && s.chat.ice.ready && s.chat.cryptoDeadline != 0
    ensures
      var c := ServiceCrypto(sodium, s, env).chat;
      c.active && !c.ready ==> c.cryptoDeadline == s.chat.cryptoDeadline && env.clock.crypto < c.cryptoDeadline
  {
    hide Live, NeverRekeys, Fail, Drain, SetupRound;
    if s.chat.ready {
      DrainStaysReady(sodium, s, QUEUE_CAPACITY, env);
    } else {
      FailWipes(s, NoRemoteKey, env);
      FailWipes(s, Timeout, env);
      LiveFacts(sodium, s);
      RoundIsLive(sodium, s, env);
      var (t, failed) := SetupRound(sodium, s, env);
      if failed.Some? {
        FailWipes(t, failed.value, env);
      }
    }
  }

  /** A ready session either stays ready or ends. */
  lemma {:induction false} DrainStaysReady(sodium: Crypto.Sodium, s: State, n: nat, env: Env)
    requires Sound(sodium, s) && (s.chat.active ==> s.chat.ready)
    ensures var t := Drain(sodium, s, n, env); t.chat.active ==> t.chat.ready
    decreases n
  {
    hide Sound, NeverRekeys, Process, Fail;
    if n > 0 {
      ProcessReady(sodium, s, Flag(env.writes, n));
      var (next, ok) := Process(sodium, s, Flag(env.writes, n));
      if ok {
        DrainStaysReady(sodium, next, n - 1, env);
      } else {
        FailWipes(next, Rejected, env);
      }
    }
  }

  // ---------------------------------------------------------------- the queue of a ready session

  /** The transport and the flags of a session are as they were. */
  predicate SameQueue(s: State, t: State) { t.chat.ice == s.chat.ice && t.chat.active == s.chat.active }

  /** Taking a datagram leaves the rest of the queue, or nothing of the session. */
  lemma PacketSparesQueue(sodium: Crypto.Sodium, s: State, packet: Bytes, arrives: bool)
    ensures
      var (t, ok) := HandlePacket(sodium, s, packet, arrives);
      SameQueue(s, t) || (ok && t.chat == NO_CHAT)
  {
    hide Packet.Decode, HandleHandshake, HandleHeader, OpenPayload;
    var payload := packet[if |packet| < 6 then 0 else 6..];
    SetupKeepsIce(sodium, s, payload);
    SetupKeepsActive(sodium, s, payload);
    OpeningSparesQueue(sodium, s, Packet.MESSAGE, payload, arrives);
    OpeningSparesQueue(sodium, s, Packet.CLOSE, payload, arrives);
  }

  lemma SetupKeepsActive(sodium: Crypto.Sodium, s: State, payload: Bytes)
    ensures HandleHandshake(sodium, s, payload).0.chat.active == s.chat.active
    ensures HandleHeader(s, payload).0.chat.active == s.chat.active
  {
    if |payload| == Crypto.KX_MESSAGE_BYTES {
      FinishKeepsActive(sodium, s, payload);
    }
    hide FinishHandshake, Crypto.InitPull;
  }

  lemma FinishKeepsActive(sodium: Crypto.Sodium, s: State, payload: Bytes)
    requires |payload| == Crypto.KX_MESSAGE_BYTES
    ensures FinishHandshake(sodium, s, payload).0.chat.active == s.chat.active
  {
    hide Crypto.Finish;
    var (result, hs, keys) := Crypto.Finish(sodium, s.chat.hs, payload, s.chat.keys);
    var u := s.(chat := s.chat.(hs := hs, keys := keys));
    assert u.chat.active == s.chat.active;
    if result != Crypto.Ok {
      assert FinishHandshake(sodium, s, payload).0 == u;
    } else {
      var kept := u.chat.(keysReady := true);
      assert kept.active == u.chat.active;
      assert FinishHandshake(sodium, s, payload).0.chat == kept;
    }
  }

  lemma OpeningSparesQueue(sodium: Crypto.Sodium, s: State, kind: byte, payload: Bytes, arrives: bool)
    ensures
      var (t, ok) := OpenPayload(sodium, s, kind, payload, arrives);
      SameQueue(s, t) || (ok && t.chat == NO_CHAT)
  {
    var (result, stream, item) := Crypto.Decrypt(sodium, s.chat.stream, payload, Packet.MAX_MESSAGE_SIZE);
    var o := s.(chat := s.chat.(stream := stream), history := s.history.(accepted := s.history.accepted + [item]));
    assert SameQueue(s, o);
    WritingKeepsSession(o, item.text, arrives);
    ClosingWipes(o);
    hide Crypto.Decrypt, WriteMessage, CloseByPeer, SameQueue;
  }

  lemma WritingKeepsSession(s: State, text: Bytes, arrives: bool)
    ensures WriteMessage(s, text, arrives).0.chat == s.chat
  {
    hide OneLine;
  }

  lemma ClosingWipes(s: State)
    ensures CloseByPeer(s).chat == NO_CHAT
  {
  }

  lemma {:induction false} DrainEmpties(sodium: Crypto.Sodium, s: State, n: nat, env: Env)
    requires |s.chat.ice.queue| <= n && (s.chat.active || s.chat.ice.queue == [])
    ensures Drain(sodium, s, n, env).chat.ice.queue == []
    decreases n
  {
    hide Fail, HandlePacket;
    if s.chat.ice.queue == [] {
      NothingToDrain(sodium, s, n, env);
    } else {
      PacketSparesQueue(sodium, Pop(s), s.chat.ice.queue[0], Flag(env.writes, n));
      var (next, ok) := Process(sodium, s, Flag(env.writes, n));
      FailWipes(next, Rejected, env);
      if ok {
        DrainEmpties(sodium, next, n - 1, env);
      }
    }
  }

  /** What waits in the queue, and whether it may be taken, are as they were. */
  predicate SameWaiting(s: State, t: State) {
    && t.chat.ice.queue == s.chat.ice.queue && t.chat.ice.ready == s.chat.ice.ready
    && t.chat.active == s.chat.active && t.chat.ready == s.chat.ready
  }

  lemma BrokenWaits(s: State)
    ensures SameWaiting(s, s.(chat := s.chat.(ice := s.chat.ice.(failed := true))))
  {
  }

  lemma UnheldWaits(s: State)
    ensures SameWaiting(s, s.(chat := s.chat.(pendingSdp := None)))
  {
  }

  lemma AppliedSparesQueue(s: State, env: Env)
    ensures SameWaiting(s, ApplyPendingSdp(s, env).0)
  {
    BrokenWaits(s);
    UnheldWaits(s);
    assert SameWaiting(s, s);
    hide SameWaiting;
  }

  lemma NotedSparesQueue(s: State, env: Env)
    ensures
      var t := NoteConnected(s, env);
      t.chat.ice == s.chat.ice && t.chat.active == s.chat.active && t.chat.ready == s.chat.ready
  {
  }
}
