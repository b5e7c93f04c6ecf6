/** Setting up a session: no genuine setup datagram is ever refused, however the network orders, repeats or delays
 it. */
module Setup {
  import opened Octets
  import opened Daemon
  import opened Session
  import opened Pairing
  import opened Network
  import Crypto
  import Json
  import Packet
  import Shutdown

  /** The session state follows the key exchange: CRYPTO_HANDSHAKE from the first handshake datagram on, SECURE when
      ready. */
  ghost predicate Poised(s: State) {
    s.chat.active ==>
      && (s.chat.handshakeSent ==> s.chat.cryptoDeadline != 0)
      && (s.chat.handshakeSent && !s.chat.ready ==> s.session == CryptoHandshake)
      && (s.chat.ready ==> s.session == Secure)
  }

  /** No session was given up because a datagram was refused or the peer's key was missing. */
  ghost predicate Unrefused(was: seq<Reason>, now: seq<Reason>) {
    was <= now && forall i :: |was| <= i < |now| ==> now[i] != Rejected && now[i] != NoRemoteKey
  }

  // ---------------------------------------------------------------- one datagram

  /** The peer's handshake message always finishes the handshake. */
  lemma GenuineHandshakeFinishes(
      sodium: Crypto.Sodium, s: State, peer: Crypto.Identity, role: Crypto.Role, sid: Bytes, ph: History)
    requires Crypto.Lawful(sodium) && Live(sodium, s) && Side(sodium, s, peer, role, sid, ph)
    requires Reliable(sodium, s.id, peer, role, sid, s.history, ph)
    requires |ph.kxSecrets| == 1 && s.chat.handshakeSent && !s.chat.keysReady
    ensures
      var m := Crypto.KxMessage(sodium, peer, s.id.public, Crypto.Opposite(role), sid, ph.kxSecrets[0]);
      FinishHandshake(sodium, s, m).1
  {
  }

  /** While a session is set up or ready, the peer's handshake and header datagrams are accepted wherever they come. */
  lemma SetupDatagramIsAccepted(
      sodium: Crypto.Sodium, s: State, peer: Crypto.Identity, role: Crypto.Role, sid: Bytes, ph: History, d: Bytes,
      arrives: bool)
    requires Crypto.Lawful(sodium) && Live(sodium, s) && Side(sodium, s, peer, role, sid, ph)
    requires Reliable(sodium, s.id, peer, role, sid, s.history, ph)
    requires s.chat.handshakeSent && s.session == (if s.chat.ready then Secure else CryptoHandshake)
    requires IsHandshake(sodium, peer, s.id.public, Crypto.Opposite(role), sid, ph, d) || IsHeader(ph, d)
    ensures var (t, ok) := HandlePacket(sodium, s, d, arrives); ok && (s.chat.ready ==> t == s)
  {
    assert s.chat.ready ==> s.chat.keysReady && s.chat.headerReceived by { hide Crypto.Lawful, Side, Reliable; }
    if IsHandshake(sodium, peer, s.id.public, Crypto.Opposite(role), sid, ph, d) {
      var m := Crypto.KxMessage(sodium, peer, s.id.public, Crypto.Opposite(role), sid, ph.kxSecrets[0]);
      HandleFrame(sodium, s, Packet.HANDSHAKE, m, arrives);
      if !s.chat.keysReady {
        GenuineHandshakeFinishes(sodium, s, peer, role, sid, ph);
      }
    } else {
      HandleFrame(sodium, s, Packet.STREAM_HEADER, ph.pushes[0].1, arrives);
    }
    hide Crypto.Lawful, Live, Side, Reliable, HandlePacket, FinishHandshake, Packet.Frame, Crypto.KxMessage;
  }

  /** During setup, the datagrams of the peer that are refused are exactly its encrypted messages. */
  lemma SetupRefusesExactlyMessages(
      sodium: Crypto.Sodium, s: State, peer: Crypto.Identity, role: Crypto.Role, sid: Bytes, ph: History, d: Bytes,
      arrives: bool)
    requires Crypto.Lawful(sodium) && Live(sodium, s) && Side(sodium, s, peer, role, sid, ph)
    requires Reliable(sodium, s.id, peer, role, sid, s.history, ph) && d in ph.wire
    requires s.chat.handshakeSent && !s.chat.ready && s.session == CryptoHandshake
    ensures HandlePacket(sodium, s, d, arrives).1 <==> !IsChat(sodium, ph, d)
  {
    assert Genuine(sodium, peer, s.id.public, Crypto.Opposite(role), sid, ph, d) by {
      hide Crypto.Lawful, Live, Side, Genuine, Unambiguous, PushFrom;
    }
    if IsChat(sodium, ph, d) {
      var j: nat :| IsChatAt(sodium, ph, d, j);
      var kind, c := KindOf(ph.sealed[j].tag), Ciphertext(sodium, ph, j);
      assert |c| <= Packet.MAX_MESSAGE_SIZE by { hide Crypto.Lawful, Live, Side, Reliable; }
      HandleFrame(sodium, s, kind, c, arrives);
    } else {
      SetupDatagramIsAccepted(sodium, s, peer, role, sid, ph, d, arrives);
    }
    hide Crypto.Lawful, Live, Side, Reliable, HandlePacket, OpenPayload, Packet.Frame, IsHandshake, IsHeader,
      Ciphertext;
  }

  /** With no message sealed, every queued datagram is accepted. */
  lemma ProcessAccepts(
      sodium: Crypto.Sodium, s: State, peer: Crypto.Identity, role: Crypto.Role, sid: Bytes, ph: History, arrives: bool)
    requires Crypto.Lawful(sodium) && Live(sodium, s) && Side(sodium, s, peer, role, sid, ph)
    requires Reliable(sodium, s.id, peer, role, sid, s.history, ph) && ph.sealed == []
    requires s.chat.handshakeSent && s.session == (if s.chat.ready then Secure else CryptoHandshake)
    ensures
      var (t, ok) := Process(sodium, s, arrives);
      ok && (s.chat.ready ==> t == s || (s.chat.ice.queue != [] && t == Pop(s)))
  {
    if s.chat.ice.queue != [] {
      var p, d := Pop(s), s.chat.ice.queue[0];
      PopIsLive(sodium, s);
      PopSide(sodium, s, peer, role, sid, ph);
      assert d in ph.wire by { LiveFacts(sodium, s); hide Live, Past, Reliable, Crypto.Lawful, HeaderFrom, Aimed; }
      SetupOnly(sodium, s, peer, role, sid, ph, d);
      SetupDatagramIsAccepted(sodium, p, peer, role, sid, ph, d, arrives);
    }
    hide Crypto.Lawful, Live, Side, Reliable, HandlePacket, IsHandshake, IsHeader;
  }

  lemma SetupOnly(
      sodium: Crypto.Sodium, s: State, peer: Crypto.Identity, role: Crypto.Role, sid: Bytes, ph: History, d: Bytes)
    requires Reliable(sodium, s.id, peer, role, sid, s.history, ph) && ph.sealed == [] && d in ph.wire
    ensures IsHandshake(sodium, peer, s.id.public, Crypto.Opposite(role), sid, ph, d) || IsHeader(ph, d)
    ensures |d| <= ICE_PACKET_MAX
  {
  }

  // ---------------------------------------------------------------- one service call

  /** Whether or not it is due, the handshake has been sent after this step and the session is in CRYPTO_HANDSHAKE. */
  lemma HandshakeIsOut(sodium: Crypto.Sodium, s: State, env: Env)
    requires Live(sodium, s) && NeverRekeys(s.history) && Poised(s) && !s.chat.ready
    ensures
      var (t, o) := SetupHandshake(sodium, s, env);
      o == Done ==> t.chat.handshakeSent && t.session == CryptoHandshake
  {
  }

  lemma SentIsRecorded(sodium: Crypto.Sodium, s: State)
    requires Live(sodium, s)
    ensures s.chat.handshakeSent <==> s.history.kxSecrets != []
  {
  }

  lemma RoundAccepts(
      sodium: Crypto.Sodium, s: State, peer: Crypto.Identity, role: Crypto.Role, sid: Bytes, ph: History, env: Env)
    requires Crypto.Lawful(sodium) && Sound(sodium, s) && s.chat.active && !s.chat.ready && s.chat.cliNotified
      && Poised(s)
    requires Side(sodium, s, peer, role, sid, ph) && Reliable(sodium, s.id, peer, role, sid, s.history, ph)
      && ph.sealed == []
    ensures
      var (t, failed) := SetupRound(sodium, s, env);
      && failed != Some(Rejected) && failed != Some(NoRemoteKey)
      && (failed.None? ==> t.session == CryptoHandshake)
  {
    hide Crypto.Lawful, Live, NeverRekeys, Process, SetupHandshake, SetupHeader, Taken, Side, Reliable, Past, Poised;
    assert !s.chat.headerReceived && s.session != Secure;
    SetupHandshakeIsLive(sodium, s, env);
    SetupHandshakeSide(sodium, s, peer, role, sid, ph, env);
    HandshakeIsOut(sodium, s, env);
    var (s1, o1) := SetupHandshake(sodium, s, env);
    TakenIsSide(sodium, s, peer, role, sid, ph, s1, o1 == Done);
    if o1 == Done {
      ProcessSetup(sodium, s1, Flag(env.writes, 0));
      ProcessSide(sodium, s1, peer, role, sid, ph, Flag(env.writes, 0));
      ProcessAccepts(sodium, s1, peer, role, sid, ph, Flag(env.writes, 0));
      var s2 := Process(sodium, s1, Flag(env.writes, 0)).0;
      TakenIsSide(sodium, s1, peer, role, sid, ph, s2, true);
      SentIsRecorded(sodium, s1);
      HeaderIsLive(sodium, s2, env);
      HeaderSide(sodium, s2, peer, role, sid, ph, env);
      var (s3, o3) := SetupHeader(s2, env);
      TakenIsSide(sodium, s2, peer, role, sid, ph, s3, o3 == Done);
      if o3 == Done {
        SentIsRecorded(sodium, s3);
        ProcessSetup(sodium, s3, Flag(env.writes, 1));
        ProcessAccepts(sodium, s3, peer, role, sid, ph, Flag(env.writes, 1));
      }
    }
  }

  /** During setup the oldest datagram is refused exactly when it is an encrypted message. */
  lemma ProcessRefusesMessages(
      sodium: Crypto.Sodium, s: State, peer: Crypto.Identity, role: Crypto.Role, sid: Bytes, ph: History, arrives: bool)
    requires Crypto.Lawful(sodium) && Live(sodium, s) && Side(sodium, s, peer, role, sid, ph)
    requires Reliable(sodium, s.id, peer, role, sid, s.history, ph)
    requires s.chat.handshakeSent && !s.chat.ready && s.session == CryptoHandshake
    ensures !Process(sodium, s, arrives).1 <==> s.chat.ice.queue != [] && IsChat(sodium, ph, s.chat.ice.queue[0])
  {
    if s.chat.ice.queue != [] {
      var p, d := Pop(s), s.chat.ice.queue[0];
      PopIsLive(sodium, s);
      PopSide(sodium, s, peer, role, sid, ph);
      assert d in ph.wire by { LiveFacts(sodium, s); hide Live, Past, Reliable, Crypto.Lawful, HeaderFrom, Aimed; }
      SentFits(sodium, s, peer, role, sid, ph, d);
      SetupRefusesExactlyMessages(sodium, p, peer, role, sid, ph, d, arrives);
    }
    hide Crypto.Lawful, Live, Side, Reliable, HandlePacket, IsChat;
  }

  lemma SentFits(
      sodium: Crypto.Sodium, s: State, peer: Crypto.Identity, role: Crypto.Role, sid: Bytes, ph: History, d: Bytes)
    requires Reliable(sodium, s.id, peer, role, sid, s.history, ph) && d in ph.wire
    ensures 0 < |d| <= ICE_PACKET_MAX
  {
    assert Genuine(sodium, peer, s.id.public, Crypto.Opposite(role), sid, ph, d)
      by { hide Genuine, Unambiguous, PushFrom; }
    hide WireFrom, PushFrom, Unambiguous, Crypto.KxMessage, Ciphertext;
  }

  /** Is one of the datagrams that a round of setup takes an encrypted message? It takes the oldest once the
      handshake is out and the next one once the header is. */
  ghost predicate TakesMessage(sodium: Crypto.Sodium, s: State, ph: History, env: Env) {
    var queue := s.chat.ice.queue;
    var (s1, o1) := SetupHandshake(sodium, s, env);
    && o1 == Done && queue != []
    && (IsChat(sodium, ph, queue[0])
        || (&& |queue| > 1 && IsChat(sodium, ph, queue[1])
            && SetupHeader(Process(sodium, s1, Flag(env.writes, 0)).0, env).1 == Done))
  }

  /** A round of setup gives up for a refused datagram exactly when one of the two it takes is an encrypted message,
      wherever that message stands and although nothing was lost or reordered: the round looks only at its end
      whether the session has become secure. */
  lemma FirstMessageMustComeLater(
      sodium: Crypto.Sodium, s: State, peer: Crypto.Identity, role: Crypto.Role, sid: Bytes, ph: History, env: Env)
    requires Crypto.Lawful(sodium) && Sound(sodium, s) && s.chat.active && !s.chat.ready && s.chat.cliNotified
      && Poised(s)
    requires Side(sodium, s, peer, role, sid, ph) && Reliable(sodium, s.id, peer, role, sid, s.history, ph)
    ensures SetupRound(sodium, s, env).1 == Some(Rejected) <==> TakesMessage(sodium, s, ph, env)
  {
    hide Crypto.Lawful, Live, NeverRekeys, Process, SetupHandshake, SetupHeader, Taken, Side, Reliable, Past,
      Poised, IsChat;
    assert !s.chat.headerReceived && s.session != Secure;
    SetupHandshakeIsLive(sodium, s, env);
    SetupHandshakeSide(sodium, s, peer, role, sid, ph, env);
    HandshakeIsOut(sodium, s, env);
    HandshakeKeepsQueue(sodium, s, env);
    var (s1, o1) := SetupHandshake(sodium, s, env);
    TakenIsSide(sodium, s, peer, role, sid, ph, s1, o1 == Done);
    if o1 == Done {
      ProcessSetup(sodium, s1, Flag(env.writes, 0));
      ProcessSide(sodium, s1, peer, role, sid, ph, Flag(env.writes, 0));
      ProcessRefusesMessages(sodium, s1, peer, role, sid, ph, Flag(env.writes, 0));
      var (s2, ok2) := Process(sodium, s1, Flag(env.writes, 0));
      TakenIsSide(sodium, s1, peer, role, sid, ph, s2, ok2);
      if ok2 {
        ProcessPops(sodium, s1, Flag(env.writes, 0));
        SentIsRecorded(sodium, s1);
        HeaderIsLive(sodium, s2, env);
        HeaderSide(sodium, s2, peer, role, sid, ph, env);
        HeaderKeepsQueue(s2, env);
        var (s3, o3) := SetupHeader(s2, env);
        TakenIsSide(sodium, s2, peer, role, sid, ph, s3, o3 == Done);
        if o3 == Done {
          SentIsRecorded(sodium, s3);
          ProcessRefusesMessages(sodium, s3, peer, role, sid, ph, Flag(env.writes, 1));
        }
      }
    }
  }

  lemma HandshakeKeepsQueue(sodium: Crypto.Sodium, s: State, env: Env)
    ensures SetupHandshake(sodium, s, env).0.chat.ice == s.chat.ice
  {
    StartEffect(sodium, s, env);
    hide StartHandshake;
  }

  lemma HeaderKeepsQueue(s: State, env: Env)
    ensures SetupHeader(s, env).0.chat.ice == s.chat.ice
  {
    hide ResendHeader;
    ResendHeaderEffect(s, env);
    if env.header.Some? {
      ResendHeaderEffect(StartPush(s, env.header.value), env);
    }
  }

  /** A datagram that is accepted during setup leaves the rest of the queue as it was. */
  lemma ProcessPops(sodium: Crypto.Sodium, s: State, arrives: bool)
    requires !s.chat.ready && Process(sodium, s, arrives).1
    ensures
      Process(sodium, s, arrives).0.chat.ice.queue == if s.chat.ice.queue == [] then [] else s.chat.ice.queue[1..]
  {
    hide Packet.Decode, OpenPayload, HandleHandshake, HandleHeader;
    if s.chat.ice.queue != [] {
      var packet := s.chat.ice.queue[0];
      SetupKeepsIce(sodium, Pop(s), packet[if |packet| < 6 then 0 else 6..]);
    }
  }

  ghost predicate Kept(s: State, t: State) { Poised(t) && Unrefused(s.log.failures, t.log.failures) }

  lemma FailIsKept(s: State, m: State, reason: Reason, env: Env)
    requires m.log.failures == s.log.failures && reason != Rejected && reason != NoRemoteKey
    ensures Kept(s, Fail(m, reason, env))
  {
    FailWipes(m, reason, env);
    hide Fail;
  }

  lemma SecureIsKept(s: State, t: State)
    requires t.log.failures == s.log.failures && t.session == CryptoHandshake && !t.chat.ready
    requires t.chat.active ==> t.chat.cryptoDeadline != 0
    ensures Kept(s, BecomeSecure(t))
  {
  }

  lemma SetupIsKept(
      sodium: Crypto.Sodium, s: State, peer: Crypto.Identity, role: Crypto.Role, sid: Bytes, ph: History, env: Env)
    requires Crypto.Lawful(sodium) && Sound(sodium, s) && s.chat.active && !s.chat.ready && Poised(s)
      && s.chat.cryptoDeadline != 0
    requires Side(sodium, s, peer, role, sid, ph) && Reliable(sodium, s.id, peer, role, sid, s.history, ph)
      && ph.sealed == []
    ensures Kept(s, ServiceSetup(sodium, s, env))
  {
    assert s.chat.hasRemotePk && s.chat.cliNotified by { hide Crypto.Lawful, Side, Reliable, Poised; }
    hide Crypto.Lawful, Sound, Live, NeverRekeys, Side, Reliable, Poised, Fail, SetupRound, BecomeSecure, Kept;
    FailIsKept(s, s, Timeout, env);
    RoundAccepts(sodium, s, peer, role, sid, ph, env);
    RoundIsLive(sodium, s, env);
    RoundKeepsFailures(sodium, s, env);
    var (t, failed) := SetupRound(sodium, s, env);
    if failed.Some? {
      FailIsKept(s, t, failed.value, env);
    } else {
      SecureIsKept(s, t);
    }
  }

  lemma RoundKeepsFailures(sodium: Crypto.Sodium, s: State, env: Env)
    ensures SetupRound(sodium, s, env).0.log.failures == s.log.failures
  {
    hide Process, SetupHandshake, SetupHeader;
    var s1 := SetupHandshake(sodium, s, env).0;
    HandshakeKeepsFailures(sodium, s, env);
    ProcessKeepsFailures(sodium, s1, Flag(env.writes, 0));
    var s2 := Process(sodium, s1, Flag(env.writes, 0)).0;
    HeaderKeepsFailures(s2, env);
    ProcessKeepsFailures(sodium, SetupHeader(s2, env).0, Flag(env.writes, 1));
  }

  lemma HandshakeKeepsFailures(sodium: Crypto.Sodium, s: State, env: Env)
    ensures SetupHandshake(sodium, s, env).0.log == s.log
  {
    Shutdown.StartKeepsLog(sodium, s, env);
    hide StartHandshake;
  }

  lemma HeaderKeepsFailures(s: State, env: Env)
    ensures SetupHeader(s, env).0.log == s.log
  {
    Shutdown.ResendKeepsLog(s, env);
    if env.header.Some? {
      Shutdown.ResendKeepsLog(StartPush(s, env.header.value), env);
    }
    hide ResendHeader;
  }

  lemma ProcessKeepsFailures(sodium: Crypto.Sodium, s: State, arrives: bool)
    ensures Process(sodium, s, arrives).0.log.failures == s.log.failures
  {
    hide HandlePacket;
    if s.chat.ice.queue != [] {
      HandleKeepsFailures(sodium, Pop(s), s.chat.ice.queue[0], arrives);
    }
  }

  lemma HandleKeepsFailures(sodium: Crypto.Sodium, s: State, packet: Bytes, arrives: bool)
    ensures HandlePacket(sodium, s, packet, arrives).0.log.failures == s.log.failures
  {
    hide HandleHandshake, HandleHeader, OpenPayload, Packet.Decode;
    var payload := packet[if |packet| < 6 then 0 else 6..];
    FinishKeepsFailures(sodium, s, payload);
    ReceiveKeepsFailures(s, payload);
    OpenKeepsFailures(sodium, s, Packet.MESSAGE, payload, arrives);
    OpenKeepsFailures(sodium, s, Packet.CLOSE, payload, arrives);
  }

  lemma ReceiveKeepsFailures(s: State, payload: Bytes)
    ensures HandleHeader(s, payload).0.log == s.log
  {
  }

  lemma FinishKeepsFailures(sodium: Crypto.Sodium, s: State, payload: Bytes)
    ensures HandleHandshake(sodium, s, payload).0.log == s.log
  {
  }

  lemma OpenKeepsFailures(sodium: Crypto.Sodium, s: State, kind: byte, payload: Bytes, arrives: bool)
    ensures OpenPayload(sodium, s, kind, payload, arrives).0.log.failures == s.log.failures
  {
    hide Crypto.Decrypt, OneLine;
  }

  /** A ready session only discards repeated setup datagrams. */
  lemma {:induction false} DrainIsKept(
      sodium: Crypto.Sodium, s: State, peer: Crypto.Identity, role: Crypto.Role, sid: Bytes, ph: History, n: nat,
      env: Env)
    requires Crypto.Lawful(sodium) && Live(sodium, s) && s.chat.ready && Poised(s)
    requires Side(sodium, s, peer, role, sid, ph) && Reliable(sodium, s.id, peer, role, sid, s.history, ph)
      && ph.sealed == []
    ensures Kept(s, Drain(sodium, s, n, env))
    decreases n
  {
    hide Crypto.Lawful, Live, Side, Reliable, Process, Poised, Kept, Pop, Fail;
    SelfIsKept(s);
    if n > 0 {
      ReadyIsSent(sodium, s);
      ProcessAccepts(sodium, s, peer, role, sid, ph, Flag(env.writes, n));
      if s.chat.ice.queue != [] {
        PopIsLive(sodium, s);
        PopSide(sodium, s, peer, role, sid, ph);
        PopIsKept(s);
      }
      var t := Process(sodium, s, Flag(env.writes, n)).0;
      if t == s {
        DrainIsKept(sodium, s, peer, role, sid, ph, n - 1, env);
      } else {
        DrainIsKept(sodium, Pop(s), peer, role, sid, ph, n - 1, env);
        KeptFrom(s, Pop(s), Drain(sodium, Pop(s), n - 1, env));
      }
    }
  }

  lemma SelfIsKept(s: State)
    requires Poised(s)
    ensures Kept(s, s)
  {
  }

  lemma PopIsKept(s: State)
    requires s.chat.ice.queue != [] && Poised(s)
    ensures Poised(Pop(s)) && Pop(s).log == s.log && Pop(s).chat.ready == s.chat.ready && Pop(s).id == s.id
      && Pop(s).history == s.history
  {
  }

  lemma KeptFrom(s: State, m: State, t: State)
    requires m.log == s.log && Kept(m, t)
    ensures Kept(s, t)
  {
  }

  lemma ReadyIsSent(sodium: Crypto.Sodium, s: State)
    requires Live(sodium, s) && s.chat.ready && Poised(s)
    ensures s.chat.active && s.chat.handshakeSent && s.session == Secure
  {
  }

  /** A step that leaves the key exchange and the session state alone, or ends the session without giving up. */
  ghost predicate Steady(s: State, t: State) {
    && t.log.failures == s.log.failures
    && (t.chat.active ==>
          && s.chat.active && t.session == s.session && t.chat.handshakeSent == s.chat.handshakeSent
          && t.chat.ready == s.chat.ready && t.chat.cryptoDeadline == s.chat.cryptoDeadline)
  }

  lemma SteadyIsKept(s: State, t: State)
    requires Poised(s) && Steady(s, t)
    ensures Kept(s, t)
  {
  }

  lemma SteadyTrans(s: State, m: State, t: State)
    requires Steady(s, m) && Steady(m, t)
    ensures Steady(s, t)
  {
  }

  lemma SelfIsSteady(s: State)
    ensures Steady(s, s)
  {
  }

  lemma SdpIsSteady(s: State, pending: Option<string>, ice: Ice)
    ensures Steady(s, s.(chat := s.chat.(pendingSdp := pending, ice := ice)))
  {
  }

  lemma UnheldIsSteady(s: State)
    ensures Steady(s, s.(chat := s.chat.(pendingSdp := None)))
  {
  }

  lemma BrokenIsSteady(s: State)
    ensures Steady(s, s.(chat := s.chat.(ice := s.chat.ice.(failed := true))))
  {
  }

  lemma PendingSdpIsSteady(s: State, env: Env)
    ensures Steady(s, ApplyPendingSdp(s, env).0)
  {
    UnheldIsSteady(s);
    BrokenIsSteady(s);
    SelfIsSteady(s);
    hide Steady;
  }

  lemma QueueIsSteady(s: State, fields: seq<Json.Field>, size: nat)
    ensures Steady(s, QueueBuilt(s, fields, size).0)
  {
  }

  lemma LocalSdpIsSteady(s: State, env: Env)
    ensures Steady(s, QueueLocalSdp(s, env).0)
  {
  }

  lemma ConnectedIsPoised(sodium: Crypto.Sodium, s: State, env: Env)
    requires Live(sodium, s) && Poised(s)
    ensures
      var t := NoteConnected(s, env);
      Poised(t) && t.chat.cryptoDeadline != 0 && t.log == s.log
  {
  }

  lemma CryptoIsKept(
      sodium: Crypto.Sodium, s: State, peer: Crypto.Identity, role: Crypto.Role, sid: Bytes, ph: History, env: Env)
    requires Crypto.Lawful(sodium) && Sound(sodium, s) && s.chat.active && Poised(s) && s.chat.cryptoDeadline != 0
    requires Side(sodium, s, peer, role, sid, ph) && Reliable(sodium, s.id, peer, role, sid, s.history, ph)
      && ph.sealed == []
    ensures Kept(s, ServiceCrypto(sodium, s, env))
  {
    assert Live(sodium, s);
    hide Crypto.Lawful, Sound, Live, Side, Reliable, Drain, ServiceSetup, Poised, Kept;
    SelfIsKept(s);
    if s.chat.ready {
      DrainIsKept(sodium, s, peer, role, sid, ph, QUEUE_CAPACITY, env);
    } else {
      SetupIsKept(sodium, s, peer, role, sid, ph, env);
    }
  }

  lemma ServiceIsKept(
      sodium: Crypto.Sodium, s: State, peer: Crypto.Identity, role: Crypto.Role, sid: Bytes, ph: History, env: Env)
    requires Crypto.Lawful(sodium) && Good(sodium, s) && Poised(s)
    requires Side(sodium, s, peer, role, sid, ph) && Reliable(sodium, s.id, peer, role, sid, s.history, ph)
      && ph.sealed == []
    ensures Kept(s, ServiceIce(sodium, s, env))
  {
    hide Crypto.Lawful, Good, Live, NeverRekeys, Side, Reliable, Taken, Poised, Kept, SameLink, Fail,
      ApplyPendingSdp, QueueLocalSdp,
      NoteConnected, ServiceCrypto, Past, Grows;
    SelfIsKept(s);
    GoodFacts(sodium, s);
    if s.chat.active {
      var s1 := ApplyPendingSdp(s, env).0;
      var s2 := QueueLocalSdp(s1, env).0;
      var s3 := NoteConnected(s2, env);
      PendingSdpIsSound(sodium, s, env);
      LocalSdpIsSound(sodium, s1, env);
      NoteConnectedIsSound(sodium, s2, env);
      ServiceLinks(s, env);
      SameLinkSide(sodium, s, peer, role, sid, ph, s3);
      TakenIsSide(sodium, s, peer, role, sid, ph, s3, true);
      PendingSdpIsSteady(s, env);
      SteadyIsKept(s, s1);
      LocalSdpIsSteady(s1, env);
      SteadyTrans(s, s1, s2);
      SteadyIsKept(s, s2);
      assert Poised(s2) by { hide Sound, Steady; }
      ConnectedIsPoised(sodium, s2, env);
      FailIsKept(s, s, Timeout, env);
      FailIsKept(s, s1, Transport, env);
      FailIsKept(s, s2, Transport, env);
      FailIsKept(s, s2, Timeout, env);
      CryptoIsKept(sodium, s3, peer, role, sid, ph, env);
      LogKept(s, s3, ServiceCrypto(sodium, s3, env));
    }
  }

  lemma LogKept(s: State, m: State, t: State)
    requires m.log.failures == s.log.failures && Kept(m, t)
    ensures Kept(s, t)
  {
  }

  // ---------------------------------------------------------------- the remaining events

  lemma SealIsSteady(sodium: Crypto.Sodium, s: State, kind: byte, item: Crypto.Item, leaves: bool)
    requires Sound(sodium, s) && kind == KindOf(item.tag)
    ensures Steady(s, SendEncrypted(sodium, s, kind, item, leaves).0)
  {
    assert s.chat.ready ==> s.chat.stream.pushOn
      by { hide PeerPart, HandshakePart, KeysPart, WirePart, PullPart, NeverRekeys; }
    SealEffect(sodium, s, kind, item, leaves);
    hide Sound, SendEncrypted, Packet.Frame;
  }

  lemma HangUpIsSteady(s: State, m: State, next: SessionState)
    requires m.log.failures == s.log.failures
    ensures Steady(s, HangUp(m, next))
  {
  }

  lemma CloseIsSteady(sodium: Crypto.Sodium, s: State, leaves: bool)
    requires Sound(sodium, s)
    ensures Steady(s, HangUp(SendClose(sodium, s, leaves), Closed))
  {
  }

  lemma WriteIsSteady(s: State, line: CliLine)
    ensures Steady(s, Write(s, line)) && Steady(s, Respond(s, line))
  {
    if s.client.Some? {} else {}
  }

  lemma CommandIsSteady(sodium: Crypto.Sodium, s: State, line: string, leaves: bool)
    requires Sound(sodium, s)
    ensures Steady(s, OneCommand(sodium, s, line, leaves))
  {
    hide Sound, Steady, SendEncrypted, TextIsValid, Ascii, Write;
    SelfIsSteady(s);
    if SEND <= line {
      var item := Crypto.Item(Ascii(line[|SEND|..]), Crypto.TAG_MESSAGE);
      SealIsSteady(sodium, s, Packet.MESSAGE, item, leaves);
      var sent := SendText(sodium, s, item.text, leaves).0;
      WriteIsSteady(sent, CliError(SendFailed));
      SteadyTrans(s, sent, Write(sent, CliError(SendFailed)));
    } else {
      WriteIsSteady(s, CliError(UnknownCommand));
    }
  }

  lemma {:induction false} CommandsAreSteady(sodium: Crypto.Sodium, s: State, text: string, i: nat, n: nat, env: Env)
    requires i <= |text| && Sound(sodium, s)
    ensures Steady(s, Commands(sodium, s, text, i, n, env))
    decreases |text| - i
  {
    hide Sound, Steady, OneCommand, HangUp, SendClose;
    SelfIsSteady(s);
    if !(i == |text| || s.client.None? || !s.chat.active) {
      var end := LineEnd(text, i);
      CloseIsSteady(sodium, s, Flag(env.sends, n));
      CommandIsSound(sodium, s, text[i..end], Flag(env.sends, n));
      CommandIsSteady(sodium, s, text[i..end], Flag(env.sends, n));
      if text[i..end] != "CLOSE_CHAT" && end < |text| {
        var next := OneCommand(sodium, s, text[i..end], Flag(env.sends, n));
        CommandsAreSteady(sodium, next, text, SkipLineEnds(text, end + 1), n + 1, env);
        SteadyTrans(s, next, Commands(sodium, next, text, SkipLineEnds(text, end + 1), n + 1, env));
      }
    }
  }

  lemma ClientIsSteady(sodium: Crypto.Sodium, s: State, input: Input, env: Env)
    requires Sound(sodium, s)
    ensures Steady(s, ServiceClient(sodium, s, input, env))
  {
    hide Sound, Steady, Commands, HangUp, SendClose;
    SelfIsSteady(s);
    HangUpIsSteady(s, s, Failed);
    CloseIsSteady(sodium, s, Flag(env.sends, 0));
    if input.Command? {
      CommandsAreSteady(sodium, s, CString(input.text), 0, 0, env);
    }
  }

  lemma CredentialsAreSteady(sodium: Crypto.Sodium, s: State, json: string, env: Env)
    ensures Steady(s, HandleIceCredentials(sodium, s, json, env))
  {
    hide Steady, Matches, Json.GetString;
    SelfIsSteady(s);
    SdpIsSteady(s, s.chat.pendingSdp, s.chat.ice.(failed := true));
    var encoded := Json.GetString(json, "sdp", 2732);
    if encoded.Some? {
      SdpIsSteady(s, sodium.base64Decode(encoded.value), s.chat.ice);
    }
  }

  lemma CancelIsSteady(s: State, json: string)
    ensures Steady(s, HandleChatCancel(s, json))
  {
  }

  lemma StatusIsSteady(s: State, json: string)
    ensures Steady(s, HandleUserStatus(s, json))
  {
  }

  lemma PhaseIsSteady(s: State, phase: Phase, challenge: Option<Key>)
    ensures Steady(s, s.(phase := phase, challenge := challenge))
  {
  }

  lemma ErrorIsSteady(s: State, json: string)
    ensures Steady(s, HandleError(s, json))
  {
    hide Steady, Respond, Json.GetString, QueueBuilt, HelloFields;
    var found := Json.GetString(json, "code", 128);
    var code := if found.Some? then found.value else "unknown";
    GreetingIsSteady(s);
    WriteIsSteady(s, UserOffline(s.lookupPeer));
    WriteIsSteady(s, CliError(FromServer(code)));
    var r := Respond(s, CliError(FromServer(code)));
    PhaseIsSteady(r, Broken, r.challenge);
    SteadyTrans(s, r, r.(phase := Broken));
  }

  lemma GreetingIsSteady(s: State)
    ensures Steady(s, QueueBuilt(s.(phase := Greeting), HelloFields(s.id), 128).0)
  {
  }

  lemma ChallengeIsSteady(sodium: Crypto.Sodium, s: State, json: string)
    ensures Steady(s, HandleChallenge(sodium, s, json))
  {
    hide Steady, Json.GetString, QueueBuilt, AuthFields, HexToKey;
    PhaseIsSteady(s, Broken, s.challenge);
    var hex := Json.GetString(json, "challenge", 65);
    if hex.Some? && HexToKey(hex.value).Some? {
      var m := s.(challenge := HexToKey(hex.value), phase := Answering);
      PhaseIsSteady(s, Answering, HexToKey(hex.value));
      var fields := AuthFields(sodium.sign(HexToKey(hex.value).value, s.id.secret));
      QueueIsSteady(m, fields, 256);
      SteadyTrans(s, m, QueueBuilt(m, fields, 256).0);
    }
  }

  lemma MessageIsSteady(sodium: Crypto.Sodium, s: State, json: string, env: Env)
    requires Json.GetString(json, "type", 32) != Some("chat_request")
      && Json.GetString(json, "type", 32) != Some("chat_accept")
    ensures Steady(s, HandleReceive(sodium, s, json, env))
  {
    hide Steady, HandleUserStatus, HandleError, HandleChallenge, HandleIceCredentials, HandleChatCancel, QueueBuilt,
      HelloFields, Json.GetString;
    SelfIsSteady(s);
    CredentialsAreSteady(sodium, s, json, env);
    CancelIsSteady(s, json);
    StatusIsSteady(s, json);
    ErrorIsSteady(s, json);
    ChallengeIsSteady(sodium, s, json);
    GreetingIsSteady(s);
    PhaseIsSteady(s, Online, None);
  }

  lemma LinkIsSteady(s: State, wsi: bool, phase: Phase, challenge: Option<Key>, pending: Option<string>, line: CliLine)
    ensures
      var m := s.(wsi := wsi, connected := wsi, phase := phase, challenge := challenge, pending := pending);
      Steady(s, m) && Steady(s, Respond(m, line))
  {
    var m := s.(wsi := wsi, connected := wsi, phase := phase, challenge := challenge, pending := pending);
    assert Steady(s, m) by { hide Respond; }
    WriteIsSteady(m, line);
    SteadyTrans(s, m, Respond(m, line));
    hide Steady, Respond;
  }

  lemma PendingIsSteady(s: State, phase: Phase, pending: Option<string>)
    ensures Steady(s, s.(phase := phase, pending := pending))
  {
  }

  /** A command starts a request of its own while a session is running. */
  predicate Interrupts(s: State, e: Event) { e.OpenChatCommand? && s.chat.active && StartsRequest(s, e.peer) }

  lemma OpenChatIsSteady(s: State, fd: int, peer: string, env: Env)
    requires !(s.chat.active && StartsRequest(s, peer))
    ensures Steady(s, OpenChat(s, fd, peer, env))
  {
    hide Packet.UsernameIsValid, KeyedFields, Json.Render;
  }

  /** An event that is no service call and no such command. */
  lemma OtherIsSteady(sodium: Crypto.Sodium, s: State, e: Event)
    requires Sound(sodium, s) && (e.ServerMessage? ==> !Begins(e.json)) && !Interrupts(s, e) && !e.Service?
    ensures Steady(s, Step(sodium, s, e))
  {
    hide Sound, Steady, HandleReceive, ServiceClient, ServiceIce, QueueBuilt, RegisterFields, Receive,
      Json.GetString, Respond, OpenChat;
    SelfIsSteady(s);
    match e
    case Established =>
      var c := s.(wsi := true, connected := true, phase := Registering);
      LinkIsSteady(s, true, Registering, s.challenge, s.pending, CliError(Busy));
      QueueIsSteady(c, RegisterFields(s.id), 512);
      SteadyTrans(s, c, QueueBuilt(c, RegisterFields(s.id), 512).0);
    case ServerMessage(json, env) =>
      MessageIsSteady(sodium, s, CString(json), env);
      PhaseIsSteady(s, Broken, s.challenge);
    case Writeable(written) =>
      PendingIsSteady(s, s.phase, None);
      PendingIsSteady(s, Broken, s.pending);
    case ConnectionError => LinkIsSteady(s, false, s.phase, s.challenge, s.pending, CliError(ServerUnavailable));
    case Disconnected => LinkIsSteady(s, false, s.phase, None, s.pending, CliError(ServerDisconnected));
    case OpenChatCommand(fd, peer, env) => OpenChatIsSteady(s, fd, peer, env);
    case ClientInput(input, env) => ClientIsSteady(sodium, s, input, env);
    case GatheringDone => SdpIsSteady(s, s.chat.pendingSdp, s.chat.ice.(gatheringDone := true));
    case Connected(pair) =>
      SdpIsSteady(s, s.chat.pendingSdp, s.chat.ice.(ready := true));
      if pair.Some? {
        SdpIsSteady(s, s.chat.pendingSdp, s.chat.ice.(ready := true, pairKnown := true, pairRelayed := pair.value));
      }
    case TransportFailed => SdpIsSteady(s, s.chat.pendingSdp, s.chat.ice.(failed := true));
    case Datagram(packet) => SdpIsSteady(s, s.chat.pendingSdp, Receive(s.chat.ice, packet));
  }

  lemma StepIsKept(
      sodium: Crypto.Sodium, s: State, peer: Crypto.Identity, role: Crypto.Role, sid: Bytes, ph: History, e: Event)
    requires Crypto.Lawful(sodium) && Good(sodium, s) && Poised(s) && Allowed(s, ph, e) && !Interrupts(s, e)
    requires Side(sodium, s, peer, role, sid, ph) && Reliable(sodium, s.id, peer, role, sid, s.history, ph)
      && ph.sealed == []
    ensures Kept(s, Step(sodium, s, e))
  {
    hide Crypto.Lawful, Good, Sound, Poised, Side, Reliable, Steady, Kept, ServiceIce, Begins;
    GoodFacts(sodium, s);
    if e.Service? {
      ServiceIsKept(sodium, s, peer, role, sid, ph, e.env);
    } else {
      OtherIsSteady(sodium, s, e);
      SteadyIsKept(s, Step(sodium, s, e));
    }
  }

  // ---------------------------------------------------------------- whole setups

  /** No command interrupts a running session. */
  ghost predicate Uninterrupted(sodium: Crypto.Sodium, p: Pair, moves: seq<Move>) {
    moves == [] ||
    (var before, m := moves[..|moves| - 1], moves[|moves| - 1];
     var q := Play(sodium, p, before);
     Uninterrupted(sodium, p, before) && !Interrupts(if m.OnA? then q.a else q.b, m.e))
  }

  /** The pair has kept its composure since `p`. */
  ghost predicate Smooth(p: Pair, q: Pair) { Kept(p.a, q.a) && Kept(p.b, q.b) }

  lemma KeptTrans(s: State, m: State, t: State)
    requires Kept(s, m) && Kept(m, t)
    ensures Kept(s, t)
  {
  }

  lemma NextIsSmooth(sodium: Crypto.Sodium, p: Pair, q: Pair, m: Move, sid: Bytes)
    requires Crypto.Lawful(sodium) && Paired(sodium, q, sid) && Distinct(sodium, q) && Enabled(q, m)
      && !Interrupts(if m.OnA? then q.a else q.b, m.e)
    requires Smooth(p, q) && q.a.history.sealed == [] && q.b.history.sealed == []
    ensures Smooth(p, Next(sodium, q, m))
  {
    hide Crypto.Lawful, Good, Side, Reliable, Poised, Kept, Unambiguous, Step, Allowed, Acquainted;
    KeptIsPoised(p.a, q.a);
    KeptIsPoised(p.b, q.b);
    match m {
      case OnA(e) =>
        SideIsReliable(sodium, q.a, q.b, Crypto.Initiator, sid);
        StepIsKept(sodium, q.a, q.b.id, Crypto.Initiator, sid, q.b.history, e);
        KeptTrans(p.a, q.a, Step(sodium, q.a, e));
      case OnB(e) =>
        assert Acquainted(sodium, q.b.id, q.a.id, sid) by { AcquaintedIsMutual(sodium, q.a.id, q.b.id, sid); }
        SideIsReliable(sodium, q.b, q.a, Crypto.Responder, sid);
        StepIsKept(sodium, q.b, q.a.id, Crypto.Responder, sid, q.a.history, e);
        KeptTrans(p.b, q.b, Step(sodium, q.b, e));
    }
  }

  lemma KeptIsPoised(s: State, t: State)
    requires Kept(s, t)
    ensures Poised(t)
  {
  }

  lemma AcquaintedIsMutual(sodium: Crypto.Sodium, a: Crypto.Identity, b: Crypto.Identity, sid: Bytes)
    requires Acquainted(sodium, a, b, sid)
    ensures Acquainted(sodium, b, a, sid)
  {
  }

  lemma FreshIsPoised(sodium: Crypto.Sodium, p: Pair, sid: Bytes)
    requires Fresh(sodium, p, sid)
    ensures Poised(p.a) && Poised(p.b)
  {
  }

  /** Until somebody speaks, no session is given up for a refused datagram or a missing key, on either side, in any
      order of deliveries, losses, repetitions and timers: only timeouts, send and library errors, and transport
      failures can end it. */
  lemma {:induction false} SetupIsNeverRefused(sodium: Crypto.Sodium, p: Pair, sid: Bytes, moves: seq<Move>)
    requires Crypto.Lawful(sodium) && Fresh(sodium, p, sid) && Honest(sodium, p, moves)
    requires Uninterrupted(sodium, p, moves)
    requires var q := Play(sodium, p, moves); q.a.history.sealed == [] && q.b.history.sealed == []
    ensures Smooth(p, Play(sodium, p, moves))
  {
    hide Crypto.Lawful, Fresh, Paired, Distinct, Next, Enabled, Smooth;
    if moves == [] {
      FreshIsPoised(sodium, p, sid);
      assert Smooth(p, p) by { SelfIsKept(p.a); SelfIsKept(p.b); SmoothWhenKept(p, p); }
    } else {
      var before, m := moves[..|moves| - 1], moves[|moves| - 1];
      var q := Play(sodium, p, before);
      EveryPlayIsPaired(sodium, p, sid, before);
      NextKeeps(sodium, q, m, sid);
      SetupIsNeverRefused(sodium, p, sid, before);
      NextIsSmooth(sodium, p, q, m, sid);
    }
  }

  lemma SmoothWhenKept(p: Pair, q: Pair)
    requires Kept(p.a, q.a) && Kept(p.b, q.b)
    ensures Smooth(p, q)
  {
  }
}
