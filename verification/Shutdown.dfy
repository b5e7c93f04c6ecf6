/** Closing a conversation: the final message is sealed last, and a reported close means that everything was
 received. */
module Shutdown {
  import opened Octets
  import opened Daemon
  import opened Session
  import opened Pairing
  import opened Network
  import Crypto
  import Json
  import Packet

  ghost predicate EndsFinal(items: seq<Crypto.Item>) { items != [] && items[|items| - 1].tag == Crypto.TAG_FINAL }

  /** Only the last sealed message can be final, and it ends the session. */
  ghost predicate Orderly(active: bool, sealed: seq<Crypto.Item>) {
    forall i :: 0 <= i < |sealed| && sealed[i].tag == Crypto.TAG_FINAL ==> i == |sealed| - 1 && !active
  }

  /** New status lines: the close of a chat is reported only after the final message was accepted. */
  ghost predicate Reports(was: seq<(int, CliLine)>, now: seq<(int, CliLine)>, active: bool,
      accepted: seq<Crypto.Item>) {
    && was <= now
    && forall i :: |was| <= i < |now| && now[i].1.ChatClosed? ==> !active && EndsFinal(accepted)
  }

  /** What every step keeps. */
  ghost predicate Calm(s: State, t: State) {
    && (t.chat.active ==> s.chat.active)
    && (Orderly(s.chat.active, s.history.sealed) ==> Orderly(t.chat.active, t.history.sealed))
    && (!s.chat.active ==> t.history.accepted == s.history.accepted)
    && Reports(s.log.cli, t.log.cli, t.chat.active, t.history.accepted)
  }

  /** A step without messages. */
  ghost predicate Plain(s: State, t: State) {
    && (t.chat.active ==> s.chat.active)
    && t.history.sealed == s.history.sealed && t.history.accepted == s.history.accepted
    && Reports(s.log.cli, t.log.cli, true, [])
  }

  lemma PlainIsCalm(s: State, t: State)
    requires Plain(s, t)
    ensures Calm(s, t)
  {
  }

  lemma CalmTrans(s: State, m: State, t: State)
    requires Calm(s, m) && Calm(m, t)
    ensures Calm(s, t)
  {
  }

  lemma SameIsPlain(s: State, t: State)
    requires t.chat.active ==> s.chat.active
    requires t.history.sealed == s.history.sealed && t.history.accepted == s.history.accepted && t.log.cli == s.log.cli
    ensures Plain(s, t)
  {
  }

  lemma TellIsPlain(s: State, t: State, fd: int, line: CliLine)
    requires !line.ChatClosed? && (t.chat.active ==> s.chat.active)
    requires t.history.sealed == s.history.sealed && t.history.accepted == s.history.accepted
    requires t.log.cli == s.log.cli + [(fd, line)]
    ensures Plain(s, t)
  {
  }

  lemma WriteIsPlain(s: State, line: CliLine)
    requires !line.ChatClosed?
    ensures Plain(s, Write(s, line)) && Plain(s, Respond(s, line)) && Plain(s, CloseClient(Write(s, line)))
  {
    SameIsPlain(s, s);
    if s.client.Some? {
      TellIsPlain(s, Tell(s, s.client.value, line), s.client.value, line);
      TellIsPlain(s, CloseClient(Tell(s, s.client.value, line)), s.client.value, line);
    } else {
      SameIsPlain(s, CloseClient(s));
    }
    hide Plain;
  }

  lemma PlainTrans(s: State, m: State, t: State)
    requires Plain(s, m) && Plain(m, t)
    ensures Plain(s, t)
  {
  }

  lemma QueueIsPlain(s: State, fields: seq<Json.Field>, size: nat)
    ensures Plain(s, QueueBuilt(s, fields, size).0)
    ensures QueueBuilt(s, fields, size).0.chat == s.chat
  {
  }

  lemma RequestIsPlain(s: State, peer: string, id: SessionId)
    ensures Plain(s, QueueChatRequest(s, peer, id).0)
  {
    var m := s.(chat := s.chat.(sessionId := id));
    var fields := KeyedFields("chat_request", s.id, peer, id);
    SameIsPlain(s, m);
    QueueIsPlain(m, fields, 512);
    var q := QueueBuilt(m, fields, 512).0;
    PlainTrans(s, m, q);
    SameIsPlain(q, q.(log := q.log.(requests := q.log.requests + 1)));
    PlainTrans(s, q, q.(log := q.log.(requests := q.log.requests + 1)));
    hide Plain, QueueBuilt, KeyedFields;
  }

  lemma RetryIsPlain(s: State, env: Env)
    ensures Retry(s, env).Some? ==> Plain(s, Retry(s, env).value)
  {
    var again := Enter(Reset(s.(retries := s.retries + 1)), Requesting);
    SameIsPlain(s, again);
    RequestIsPlain(again, s.lookupPeer, env.sessionId);
    var q := QueueChatRequest(again, s.lookupPeer, env.sessionId).0;
    PlainTrans(s, again, q);
    WriteIsPlain(q, CliError(ChatRetryFailed));
    PlainTrans(s, q, Respond(q, CliError(ChatRetryFailed)));
    hide Plain, QueueChatRequest, Respond;
  }

  lemma ReportIsPlain(s: State)
    ensures Plain(s, ReportFailure(s))
  {
    SameIsPlain(s, s);
    WriteIsPlain(s, CliError(SessionFailed));
    WriteIsPlain(s, IceFailed(s.chat.peer));
    WriteIsPlain(s, IceFailed(s.lookupPeer));
    hide Plain, Write, Respond;
  }

  lemma FailIsPlain(s: State, reason: Reason, env: Env)
    ensures Plain(s, Fail(s, reason, env))
  {
    var n := s.(log := s.log.(failures := s.log.failures + [reason]));
    SameIsPlain(s, n);
    RetryIsPlain(n, env);
    if Retry(n, env).Some? {
      PlainTrans(s, n, Retry(n, env).value);
    } else {
      var e := Enter(n, Failed);
      SameIsPlain(s, e);
      ReportIsPlain(e);
      PlainTrans(s, e, ReportFailure(e));
      var r := ReportFailure(e);
      SameIsPlain(r, Reset(r));
      PlainTrans(s, r, Reset(r));
    }
    hide Plain, Retry, ReportFailure;
  }

  // ---------------------------------------------------------------- service

  lemma StartIsPlain(sodium: Crypto.Sodium, s: State, env: Env)
    ensures Plain(s, SetupHandshake(sodium, s, env).0)
  {
    StartEffect(sodium, s, env);
    StartKeepsLog(sodium, s, env);
    SameIsPlain(s, s);
    SameIsPlain(s, StartHandshake(sodium, s, env).0);
    hide Plain, StartHandshake;
  }

  lemma StartKeepsLog(sodium: Crypto.Sodium, s: State, env: Env)
    ensures StartHandshake(sodium, s, env).0.log == s.log
  {
    var e := Enter(s, CryptoHandshake);
    ResendKeepsLog(e, env);
    ResendKeepsLog(InitHandshake(sodium, e, env).0, env);
    assert InitHandshake(sodium, e, env).0.log == s.log by { hide Crypto.Init; }
    hide ResendHandshake, InitHandshake;
  }

  lemma ResendKeepsLog(s: State, env: Env)
    ensures ResendHandshake(s, env).0.log == s.log && ResendHeader(s, env).0.log == s.log
  {
  }

  lemma HeaderIsPlain(s: State, env: Env)
    ensures Plain(s, SetupHeader(s, env).0)
  {
    hide Plain, ResendHeader, StartPush;
    SameIsPlain(s, s);
    if env.header.Some? {
      var m := StartPush(s, env.header.value);
      PushIsPlain(s, env.header.value);
      ResendHeaderIsPlain(m, env);
      PlainTrans(s, m, ResendHeader(m, env).0);
    }
    ResendHeaderIsPlain(s, env);
  }

  lemma PushIsPlain(s: State, header: Nonce)
    ensures Plain(s, StartPush(s, header))
  {
  }

  lemma ResendHeaderIsPlain(s: State, env: Env)
    ensures Plain(s, ResendHeader(s, env).0)
  {
    ResendHeaderEffect(s, env);
    ResendKeepsLog(s, env);
    SameIsPlain(s, ResendHeader(s, env).0);
    hide Plain, ResendHeader;
  }

  lemma HandshakePacketIsPlain(sodium: Crypto.Sodium, s: State, payload: Bytes)
    ensures Plain(s, HandleHandshake(sodium, s, payload).0)
  {
    SameIsPlain(s, s);
    if |payload| == Crypto.KX_MESSAGE_BYTES {
      FinishIsPlain(sodium, s, payload);
    }
    hide Plain, FinishHandshake;
  }

  lemma FinishIsPlain(sodium: Crypto.Sodium, s: State, payload: Bytes)
    requires |payload| == Crypto.KX_MESSAGE_BYTES
    ensures Plain(s, FinishHandshake(sodium, s, payload).0)
  {
  }

  lemma HeaderPacketIsPlain(s: State, payload: Bytes)
    ensures Plain(s, HandleHeader(s, payload).0)
  {
  }

  /** Accepting a message while the session is active; the close is reported with the final one. */
  lemma OpenIsCalm(sodium: Crypto.Sodium, s: State, kind: byte, payload: Bytes, arrives: bool)
    requires s.chat.active
    ensures Calm(s, OpenPayload(sodium, s, kind, payload, arrives).0)
  {
    SameIsPlain(s, s);
    PlainIsCalm(s, s);
    var (result, stream, item) := Crypto.Decrypt(sodium, s.chat.stream, payload, Packet.MAX_MESSAGE_SIZE);
    var o := s.(chat := s.chat.(stream := stream), history := s.history.(accepted := s.history.accepted + [item]));
    AcceptIsCalm(s, o, item);
    PeerCloseIsCalm(s, o, item);
    WriteMessageIsPlain(o, item.text, arrives);
    PlainIsCalm(o, WriteMessage(o, item.text, arrives).0);
    CalmTrans(s, o, WriteMessage(o, item.text, arrives).0);
    hide Calm, Plain, Crypto.Decrypt, WriteMessage, CloseByPeer;
  }

  lemma AcceptIsCalm(s: State, o: State, item: Crypto.Item)
    requires s.chat.active && o.chat.active && o.log == s.log
    requires o.history == s.history.(accepted := s.history.accepted + [item])
    ensures Calm(s, o)
  {
  }

  lemma PeerCloseIsCalm(s: State, o: State, item: Crypto.Item)
    requires s.chat.active && o.log == s.log
    requires o.history == s.history.(accepted := s.history.accepted + [item])
    ensures item.tag == Crypto.TAG_FINAL ==> Calm(s, CloseByPeer(o))
  {
  }

  lemma WriteMessageIsPlain(s: State, text: Bytes, arrives: bool)
    ensures Plain(s, WriteMessage(s, text, arrives).0)
  {
  }

  lemma HandleIsCalm(sodium: Crypto.Sodium, s: State, packet: Bytes, arrives: bool)
    requires s.chat.active
    ensures Calm(s, HandlePacket(sodium, s, packet, arrives).0)
  {
    var payload := packet[if |packet| < 6 then 0 else 6..];
    SameIsPlain(s, s);
    PlainIsCalm(s, s);
    HandshakePacketIsPlain(sodium, s, payload);
    PlainIsCalm(s, HandleHandshake(sodium, s, payload).0);
    HeaderPacketIsPlain(s, payload);
    PlainIsCalm(s, HandleHeader(s, payload).0);
    OpenIsCalm(sodium, s, Packet.MESSAGE, payload, arrives);
    OpenIsCalm(sodium, s, Packet.CLOSE, payload, arrives);
    hide Calm, Plain, HandleHandshake, HandleHeader, OpenPayload, Packet.Decode;
  }

  lemma ProcessIsCalm(sodium: Crypto.Sodium, s: State, arrives: bool)
    requires s.chat.active || s.chat.ice.queue == []
    ensures Calm(s, Process(sodium, s, arrives).0)
  {
    SameIsPlain(s, s);
    PlainIsCalm(s, s);
    if s.chat.ice.queue != [] {
      var p := Pop(s);
      SameIsPlain(s, p);
      PlainIsCalm(s, p);
      HandleIsCalm(sodium, p, s.chat.ice.queue[0], arrives);
      CalmTrans(s, p, HandlePacket(sodium, p, s.chat.ice.queue[0], arrives).0);
    }
    hide Calm, Plain, HandlePacket;
  }

  lemma RoundIsCalm(sodium: Crypto.Sodium, s: State, env: Env)
    requires Sound(sodium, s) && s.chat.active && !s.chat.ready && s.chat.cliNotified
    ensures Calm(s, SetupRound(sodium, s, env).0)
  {
    hide Live, NeverRekeys, Process, SetupHandshake, SetupHeader, Calm, Plain;
    assert !s.chat.headerReceived && s.session != Secure;
    SetupHandshakeIsLive(sodium, s, env);
    StartIsPlain(sodium, s, env);
    var (s1, o1) := SetupHandshake(sodium, s, env);
    PlainIsCalm(s, s1);
    if o1 == Done {
      LiveFacts(sodium, s1);
      ProcessSetup(sodium, s1, Flag(env.writes, 0));
      ProcessIsCalm(sodium, s1, Flag(env.writes, 0));
      var (s2, ok2) := Process(sodium, s1, Flag(env.writes, 0));
      CalmTrans(s, s1, s2);
      if ok2 {
        HeaderIsLive(sodium, s2, env);
        HeaderIsPlain(s2, env);
        var (s3, o3) := SetupHeader(s2, env);
        PlainIsCalm(s2, s3);
        CalmTrans(s, s2, s3);
        if o3 == Done {
          LiveFacts(sodium, s3);
          ProcessIsCalm(sodium, s3, Flag(env.writes, 1));
          CalmTrans(s, s3, Process(sodium, s3, Flag(env.writes, 1)).0);
        }
      }
    }
  }

  lemma SecureIsPlain(s: State)
    ensures Plain(s, BecomeSecure(s))
  {
    SameIsPlain(s, s);
    var m := Enter(s.(chat := s.chat.(ready := true)), Secure);
    SameIsPlain(s, m);
    WriteIsPlain(m, EncryptedSession(m.chat.peer, m.chat.relayed));
    PlainTrans(s, m, Write(m, EncryptedSession(m.chat.peer, m.chat.relayed)));
    hide Plain, Write;
  }

  lemma FailIsCalm(s: State, m: State, reason: Reason, env: Env)
    requires Calm(s, m)
    ensures Calm(s, Fail(m, reason, env))
  {
    FailIsPlain(m, reason, env);
    PlainIsCalm(m, Fail(m, reason, env));
    CalmTrans(s, m, Fail(m, reason, env));
    hide Fail, Calm, Plain;
  }

  lemma SelfIsCalm(s: State)
    ensures Calm(s, s)
  {
  }

  lemma SetupIsCalm(sodium: Crypto.Sodium, s: State, env: Env)
    requires Sound(sodium, s) && s.chat.active && !s.chat.ready && s.chat.cliNotified
    ensures Calm(s, ServiceSetup(sodium, s, env))
  {
    hide Sound, Fail, SetupRound, Calm, Plain, BecomeSecure;
    SelfIsCalm(s);
    FailIsCalm(s, s, NoRemoteKey, env);
    FailIsCalm(s, s, Timeout, env);
    RoundIsCalm(sodium, s, env);
    var (t, failed) := SetupRound(sodium, s, env);
    if failed.Some? {
      FailIsCalm(s, t, failed.value, env);
    } else {
      SecureIsPlain(t);
      PlainIsCalm(t, BecomeSecure(t));
      CalmTrans(s, t, BecomeSecure(t));
    }
  }

  lemma {:induction false} DrainIsCalm(sodium: Crypto.Sodium, s: State, n: nat, env: Env)
    requires Sound(sodium, s) && (s.chat.active ==> s.chat.ready)
    ensures Calm(s, Drain(sodium, s, n, env))
    decreases n
  {
    SelfIsCalm(s);
    if n > 0 {
      assert s.chat.active || s.chat.ice.queue == [] by { hide Live, NeverRekeys; }
      hide Sound, NeverRekeys, Process, Fail, Calm;
      ProcessReady(sodium, s, Flag(env.writes, n));
      ProcessIsCalm(sodium, s, Flag(env.writes, n));
      var (next, ok) := Process(sodium, s, Flag(env.writes, n));
      FailIsCalm(s, next, Rejected, env);
      if ok {
        DrainIsCalm(sodium, next, n - 1, env);
        CalmTrans(s, next, Drain(sodium, next, n - 1, env));
      }
    }
  }

  lemma SdpIsPlain(s: State, env: Env)
    ensures Plain(s, ApplyPendingSdp(s, env).0)
  {
  }

  lemma LocalSdpIsPlain(s: State, env: Env)
    ensures Plain(s, QueueLocalSdp(s, env).0)
  {
  }

  lemma ConnectedIsPlain(s: State, env: Env)
    ensures Plain(s, NoteConnected(s, env))
  {
  }

  lemma CryptoIsCalm(sodium: Crypto.Sodium, s: State, env: Env)
    requires Sound(sodium, s) && s.chat.active && s.chat.cliNotified
    ensures Calm(s, ServiceCrypto(sodium, s, env))
  {
    hide Sound, Drain, ServiceSetup, Calm;
    SelfIsCalm(s);
    if s.chat.ready {
      DrainIsCalm(sodium, s, QUEUE_CAPACITY, env);
    } else {
      SetupIsCalm(sodium, s, env);
    }
  }

  lemma ServiceIsCalm(sodium: Crypto.Sodium, s: State, env: Env)
    requires Good(sodium, s)
    ensures Calm(s, ServiceIce(sodium, s, env))
  {
    hide Good, Sound, Calm, Plain, Fail, ApplyPendingSdp, QueueLocalSdp, NoteConnected, ServiceCrypto;
    SelfIsCalm(s);
    GoodFacts(sodium, s);
    if s.chat.active {
      var s1 := ApplyPendingSdp(s, env).0;
      var s2 := QueueLocalSdp(s1, env).0;
      var s3 := NoteConnected(s2, env);
      PendingSdpIsSound(sodium, s, env);
      LocalSdpIsSound(sodium, s1, env);
      NoteConnectedIsSound(sodium, s2, env);
      SdpIsPlain(s, env);
      PlainIsCalm(s, s1);
      LocalSdpIsPlain(s1, env);
      PlainIsCalm(s1, s2);
      CalmTrans(s, s1, s2);
      ConnectedIsPlain(s2, env);
      PlainIsCalm(s2, s3);
      CalmTrans(s, s2, s3);
      FailIsCalm(s, s, Timeout, env);
      FailIsCalm(s, s1, Transport, env);
      FailIsCalm(s, s2, Transport, env);
      FailIsCalm(s, s2, Timeout, env);
      CryptoIsCalm(sodium, s3, env);
      CalmTrans(s, s3, ServiceCrypto(sodium, s3, env));
    }
  }

  // ---------------------------------------------------------------- client

  lemma TextIsCalm(sodium: Crypto.Sodium, s: State, item: Crypto.Item, leaves: bool)
    requires Sound(sodium, s) && s.chat.active && item.tag == Crypto.TAG_MESSAGE
    ensures Calm(s, SendEncrypted(sodium, s, Packet.MESSAGE, item, leaves).0)
  {
    SelfIsCalm(s);
    assert s.chat.ready ==> s.chat.stream.pushOn
      by { hide PeerPart, HandshakePart, KeysPart, WirePart, PullPart, NeverRekeys; }
    SealEffect(sodium, s, Packet.MESSAGE, item, leaves);
    hide Sound, SendEncrypted, Packet.Frame, EndsFinal;
  }

  lemma HangUpIsCalm(sodium: Crypto.Sodium, s: State, leaves: bool)
    requires Sound(sodium, s) && s.chat.active
    ensures Calm(s, HangUp(SendClose(sodium, s, leaves), Closed)) && Calm(s, HangUp(s, Failed))
  {
    var e, item := Enter(s, Closing), Crypto.Item([], Crypto.TAG_FINAL);
    assert s.chat.ready ==> s.chat.stream.pushOn
      by { hide PeerPart, HandshakePart, KeysPart, WirePart, PullPart, NeverRekeys; }
    SealEffect(sodium, e, Packet.CLOSE, item, leaves);
    hide Sound, SendEncrypted, Packet.Frame, EndsFinal;
    var c := SendClose(sodium, s, leaves);
    assert c.log == s.log && c.history.accepted == s.history.accepted
           && (c.history.sealed == s.history.sealed || c.history.sealed == s.history.sealed + [item]);
    ClosedIsCalm(s, c, item, Closed);
    ClosedIsCalm(s, s, item, Failed);
    hide Calm, HangUp, SendClose;
  }

  lemma ClosedIsCalm(s: State, c: State, item: Crypto.Item, next: SessionState)
    requires s.chat.active && c.log == s.log && c.history.accepted == s.history.accepted
    requires c.history.sealed == s.history.sealed || c.history.sealed == s.history.sealed + [item]
    ensures Calm(s, HangUp(c, next))
  {
  }

  lemma CommandIsCalm(sodium: Crypto.Sodium, s: State, line: string, leaves: bool)
    requires Sound(sodium, s) && s.chat.active
    ensures Calm(s, OneCommand(sodium, s, line, leaves))
  {
    hide Sound, Calm, Plain, SendEncrypted, TextIsValid, Ascii, Write;
    SelfIsCalm(s);
    var item := Crypto.Item(Ascii(line[if SEND <= line then |SEND| else 0..]), Crypto.TAG_MESSAGE);
    TextIsCalm(sodium, s, item, leaves);
    var sent := SendText(sodium, s, item.text, leaves).0;
    WriteIsPlain(sent, CliError(SendFailed));
    PlainIsCalm(sent, Write(sent, CliError(SendFailed)));
    CalmTrans(s, sent, Write(sent, CliError(SendFailed)));
    WriteIsPlain(s, CliError(UnknownCommand));
    PlainIsCalm(s, Write(s, CliError(UnknownCommand)));
  }

  lemma {:induction false} CommandsAreCalm(
      sodium: Crypto.Sodium, s: State, text: string, i: nat, n: nat, env: Env)
    requires i <= |text| && Sound(sodium, s)
    ensures Calm(s, Commands(sodium, s, text, i, n, env))
    decreases |text| - i
  {
    hide Sound, Calm, OneCommand, HangUp, SendClose;
    SelfIsCalm(s);
    if !(i == |text| || s.client.None? || !s.chat.active) {
      var end := LineEnd(text, i);
      HangUpIsCalm(sodium, s, Flag(env.sends, n));
      CommandIsSound(sodium, s, text[i..end], Flag(env.sends, n));
      CommandIsCalm(sodium, s, text[i..end], Flag(env.sends, n));
      if text[i..end] != "CLOSE_CHAT" && end < |text| {
        var next := OneCommand(sodium, s, text[i..end], Flag(env.sends, n));
        CommandsAreCalm(sodium, next, text, SkipLineEnds(text, end + 1), n + 1, env);
        CalmTrans(s, next, Commands(sodium, next, text, SkipLineEnds(text, end + 1), n + 1, env));
      }
    }
  }

  lemma ClientIsCalm(sodium: Crypto.Sodium, s: State, input: Input, env: Env)
    requires Sound(sodium, s)
    ensures Calm(s, ServiceClient(sodium, s, input, env))
  {
    assert s.chat.ready ==> s.chat.active by { hide Live, NeverRekeys; }
    hide Sound, Calm, Commands, HangUp, SendClose;
    SelfIsCalm(s);
    if s.chat.ready {
      HangUpIsCalm(sodium, s, Flag(env.sends, 0));
      if input.Command? {
        CommandsAreCalm(sodium, s, CString(input.text), 0, 0, env);
      }
    }
  }

  // ---------------------------------------------------------------- the remaining events

  lemma AskIsPlain(s: State, fd: int, peer: string, env: Env)
    ensures Plain(s, AskPeer(s, fd, peer, env))
  {
    hide Plain, QueueChatRequest, Respond;
    var asked := Enter(
      s.(lookupPeer := peer, client := Some(fd), retries := 0, log := s.log.(requests := 0)), Requesting);
    SameIsPlain(s, asked);
    RequestIsPlain(asked, peer, env.sessionId);
    var q := QueueChatRequest(asked, peer, env.sessionId).0;
    PlainTrans(s, asked, q);
    WriteIsPlain(q, CliError(ChatRequestFailed));
    PlainTrans(s, q, Respond(q, CliError(ChatRequestFailed)));
  }

  lemma ToldIsPlain(s: State, fd: int, line: CliLine)
    requires !line.ChatClosed?
    ensures Plain(s, Tell(s, fd, line))
  {
  }

  lemma OpenChatIsPlain(s: State, fd: int, peer: string, env: Env)
    ensures Plain(s, OpenChat(s, fd, peer, env))
  {
    hide Plain, AskPeer, Tell, Write, Packet.UsernameIsValid;
    AskIsPlain(s, fd, peer, env);
    var m := s.(client := Some(fd));
    SameIsPlain(s, m);
    WriteIsPlain(m, EncryptedSession(s.chat.peer, s.chat.relayed));
    PlainTrans(s, m, Attach(s, fd));
    ToldIsPlain(s, fd, CliError(InvalidUsername));
    ToldIsPlain(s, fd, CliError(DaemonNotOnline));
    ToldIsPlain(s, fd, UserOnline(peer));
    ToldIsPlain(s, fd, CliError(Busy));
  }

  lemma CredentialsArePlain(sodium: Crypto.Sodium, s: State, json: string, env: Env)
    ensures Plain(s, HandleIceCredentials(sodium, s, json, env))
  {
  }

  lemma CancelIsPlain(s: State, json: string)
    ensures Plain(s, HandleChatCancel(s, json))
  {
  }

  lemma StatusIsPlain(s: State, json: string)
    ensures Plain(s, HandleUserStatus(s, json))
  {
    hide Plain, Respond, Json.GetString, Json.IsTrue;
    SameIsPlain(s, s);
    var name := Json.GetString(json, "username", 33);
    if name.Some? {
      WriteIsPlain(s, UserOffline(name.value));
      WriteIsPlain(s, UserOnline(name.value));
    }
  }

  lemma ErrorIsPlain(s: State, json: string)
    ensures Plain(s, HandleError(s, json))
  {
    hide Plain, Respond, Json.GetString, QueueBuilt, HelloFields;
    var found := Json.GetString(json, "code", 128);
    var code := if found.Some? then found.value else "unknown";
    var greeting := s.(phase := Greeting);
    SameIsPlain(s, greeting);
    QueueIsPlain(greeting, HelloFields(s.id), 128);
    PlainTrans(s, greeting, QueueBuilt(greeting, HelloFields(s.id), 128).0);
    WriteIsPlain(s, UserOffline(s.lookupPeer));
    WriteIsPlain(s, CliError(FromServer(code)));
    var r := Respond(s, CliError(FromServer(code)));
    SameIsPlain(r, r.(phase := Broken));
    PlainTrans(s, r, r.(phase := Broken));
  }

  lemma ChallengeIsPlain(sodium: Crypto.Sodium, s: State, json: string)
    ensures Plain(s, HandleChallenge(sodium, s, json))
  {
    hide Plain, Json.GetString, QueueBuilt, AuthFields, HexToKey;
    SameIsPlain(s, s.(phase := Broken));
    var hex := Json.GetString(json, "challenge", 65);
    if hex.Some? && HexToKey(hex.value).Some? {
      var m := s.(challenge := HexToKey(hex.value), phase := Answering);
      SameIsPlain(s, m);
      var fields := AuthFields(sodium.sign(HexToKey(hex.value).value, s.id.secret));
      QueueIsPlain(m, fields, 256);
      PlainTrans(s, m, QueueBuilt(m, fields, 256).0);
    }
  }

  lemma MessageIsPlain(sodium: Crypto.Sodium, s: State, json: string, env: Env)
    requires Json.GetString(json, "type", 32) != Some("chat_request")
      && Json.GetString(json, "type", 32) != Some("chat_accept")
    ensures Plain(s, HandleReceive(sodium, s, json, env))
  {
    hide Plain, HandleUserStatus, HandleError, HandleChallenge, HandleIceCredentials, HandleChatCancel, QueueBuilt,
      HelloFields, Json.GetString;
    SameIsPlain(s, s);
    CredentialsArePlain(sodium, s, json, env);
    CancelIsPlain(s, json);
    StatusIsPlain(s, json);
    ErrorIsPlain(s, json);
    ChallengeIsPlain(sodium, s, json);
    var greeting := s.(phase := Greeting);
    SameIsPlain(s, greeting);
    QueueIsPlain(greeting, HelloFields(s.id), 128);
    PlainTrans(s, greeting, QueueBuilt(greeting, HelloFields(s.id), 128).0);
    SameIsPlain(s, s.(challenge := None, phase := Online));
  }

  lemma OfflineIsPlain(s: State, challenge: Option<Key>, line: CliLine)
    requires !line.ChatClosed?
    ensures
      var m := s.(wsi := false, connected := false, challenge := challenge);
      Plain(s, m) && Plain(s, Respond(m, line))
  {
    hide Plain, Respond;
    var m := s.(wsi := false, connected := false, challenge := challenge);
    SameIsPlain(s, m);
    WriteIsPlain(m, line);
    PlainTrans(s, m, Respond(m, line));
  }

  lemma CallbackIsPlain(s: State, ice: Ice)
    ensures Plain(s, OnIce(s, ice))
  {
  }

  lemma StepIsCalm(sodium: Crypto.Sodium, s: State, e: Event)
    requires Good(sodium, s) && (e.ServerMessage? ==> !Begins(e.json))
    ensures Calm(s, Step(sodium, s, e))
  {
    hide Good, Sound, Calm, Plain, HandleReceive, OpenChat, ServiceClient, ServiceIce, QueueBuilt, RegisterFields,
      Receive,
      Json.GetString, Respond, OnIce;
    GoodFacts(sodium, s);
    SameIsPlain(s, s);
    match e
    case Established =>
      var c := s.(wsi := true, connected := true, phase := Registering);
      SameIsPlain(s, c);
      QueueIsPlain(c, RegisterFields(s.id), 512);
      PlainTrans(s, c, QueueBuilt(c, RegisterFields(s.id), 512).0);
      PlainIsCalm(s, Step(sodium, s, e));
    case ServerMessage(json, env) =>
      MessageIsPlain(sodium, s, CString(json), env);
      SameIsPlain(s, s.(phase := Broken));
      PlainIsCalm(s, Step(sodium, s, e));
    case Writeable(written) =>
      SameIsPlain(s, s.(pending := None));
      SameIsPlain(s, s.(phase := Broken));
      PlainIsCalm(s, Step(sodium, s, e));
    case ConnectionError =>
      OfflineIsPlain(s, s.challenge, CliError(ServerUnavailable));
      PlainIsCalm(s, Step(sodium, s, e));
    case Disconnected =>
      OfflineIsPlain(s, None, CliError(ServerDisconnected));
      PlainIsCalm(s, Step(sodium, s, e));
    case OpenChatCommand(fd, name, env) =>
      OpenChatIsPlain(s, fd, name, env);
      PlainIsCalm(s, Step(sodium, s, e));
    case ClientInput(input, env) => ClientIsCalm(sodium, s, input, env);
    case GatheringDone =>
      CallbackIsPlain(s, s.chat.ice.(gatheringDone := true));
      PlainIsCalm(s, Step(sodium, s, e));
    case Connected(pair) =>
      CallbackIsPlain(s, s.chat.ice.(ready := true));
      if pair.Some? {
        CallbackIsPlain(s, s.chat.ice.(ready := true, pairKnown := true, pairRelayed := pair.value));
      }
      PlainIsCalm(s, Step(sodium, s, e));
    case TransportFailed =>
      CallbackIsPlain(s, s.chat.ice.(failed := true));
      PlainIsCalm(s, Step(sodium, s, e));
    case Datagram(packet) =>
      CallbackIsPlain(s, Receive(s.chat.ice, packet));
      PlainIsCalm(s, Step(sodium, s, e));
    case Service(env) => ServiceIsCalm(sodium, s, env);
  }

  // ---------------------------------------------------------------- whole conversations

  lemma {:induction false} EveryPlayIsCalm(sodium: Crypto.Sodium, p: Pair, sid: Bytes, moves: seq<Move>)
    requires Crypto.Lawful(sodium) && Fresh(sodium, p, sid) && Honest(sodium, p, moves)
    ensures var q := Play(sodium, p, moves); Calm(p.a, q.a) && Calm(p.b, q.b)
  {
    SelfIsCalm(p.a);
    SelfIsCalm(p.b);
    hide Crypto.Lawful, Fresh, Calm, Step, Distinct, Good, Side, Begins;
    if moves != [] {
      var before, m := moves[..|moves| - 1], moves[|moves| - 1];
      EveryPlayIsCalm(sodium, p, sid, before);
      EveryPlayIsPaired(sodium, p, sid, before);
      var q := Play(sodium, p, before);
      assert m.e.ServerMessage? ==> !Begins(m.e.json) by { assert Enabled(q, m); }
      match m {
        case OnA(e) =>
          StepIsCalm(sodium, q.a, e);
          CalmTrans(p.a, q.a, Step(sodium, q.a, e));
        case OnB(e) =>
          StepIsCalm(sodium, q.b, e);
          CalmTrans(p.b, q.b, Step(sodium, q.b, e));
      }
    }
  }

  /** `me` told a client, since it was in state `was`, that the peer closed the chat. */
  ghost predicate ToldClosed(was: State, me: State) {
    exists i :: |was.log.cli| <= i < |me.log.cli| && me.log.cli[i].1.ChatClosed?
  }

  /** A daemon reports that the peer closed the chat only when it has accepted every message that the peer ever sealed,
      the last of them final. A truncated conversation is never reported as closed. */
  lemma ReportedCloseIsComplete(sodium: Crypto.Sodium, p: Pair, sid: Bytes, moves: seq<Move>)
    requires Crypto.Lawful(sodium) && Fresh(sodium, p, sid) && Honest(sodium, p, moves)
    ensures
      var q := Play(sodium, p, moves);
      && (ToldClosed(p.a, q.a) ==> q.a.history.accepted == q.b.history.sealed && EndsFinal(q.b.history.sealed))
      && (ToldClosed(p.b, q.b) ==> q.b.history.accepted == q.a.history.sealed && EndsFinal(q.a.history.sealed))
  {
    assert Orderly(p.a.chat.active, p.a.history.sealed) && Orderly(p.b.chat.active, p.b.history.sealed) by {
      hide Crypto.Lawful, Honest, Good, Acquainted, Play;
    }
    hide Crypto.Lawful, Fresh, Honest, Play;
    EveryPlayIsCalm(sodium, p, sid, moves);
    DeliveryIsPrefix(sodium, p, sid, moves);
    var q := Play(sodium, p, moves);
    CompleteWhenFinal(p.a, q.a, q.b);
    CompleteWhenFinal(p.b, q.b, q.a);
    hide Calm, ToldClosed, EndsFinal;
  }

  lemma CompleteWhenFinal(was: State, me: State, peer: State)
    requires Calm(was, me) && Orderly(peer.chat.active, peer.history.sealed)
      && me.history.accepted <= peer.history.sealed
    ensures ToldClosed(was, me) ==> me.history.accepted == peer.history.sealed && EndsFinal(peer.history.sealed)
  {
  }
}
