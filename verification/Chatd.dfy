/**
 The daemon as an object (daemon/main.c). Its fields and the memory of its session are changed in place by the
 handlers, and every handler does what the session machine says. `history`, `ledger` and `log` are ghost: the program
 does not have them.
 */
module Chatd {
  import opened Daemon
  import opened Octets
  import ContactStore
  import Contacts
  import Crypto
  import Json
  import JsonCursor
  import Packet
  import Ring
  import Session
  import SessionMemory

  class Chatd {
    const id: Crypto.Identity
    const store: ContactStore.Store
    const memory: SessionMemory.Memory
    var phase: Phase
    var session: SessionState
    var challenge: Option<Key>
    var wsi: bool
    var connected: bool
    var pending: Option<string>
    var client: Option<int>
    var lookupPeer: string
    var retries: nat
    ghost var history: History
    ghost var ledger: Ledger
    ghost var log: Log

    ghost function Now(): State
      reads this, store, memory
    {
      State(
        id, phase, session, challenge, wsi, connected, pending, client, lookupPeer, retries, memory.talk, store.file,
        history, ledger, log)
    }

    /** Everything that a handler may change. */
    ghost function Parts(): set<object> { {memory} + memory.Parts() }

    ghost predicate Valid()
      reads Parts()
    {
      memory.Valid()
    }

    constructor (identity: Crypto.Identity, contacts: ContactStore.Store)
      ensures Valid() && fresh(Parts()) && store == contacts && id == identity
        && Now() == Start(identity, contacts.file)
    {
      id, store := identity, contacts;
      memory := new SessionMemory.Memory();
      phase, session, challenge, wsi, connected, pending := Registering, Idle, None, false, false, None;
      client, lookupPeer, retries := None, "", 0;
      history, ledger, log := NO_HISTORY, Ledger([], []), Log([], [], 0);
    }

    // -------------------------------------------------------------- records

    ghost method LogRequests(n: nat)
      requires Valid()
      modifies `log
      ensures Valid() && log == old(log).(requests := n)
    {
      log := log.(requests := n);
    }

    ghost method LogFailure(reason: Reason)
      requires Valid()
      modifies `log
      ensures Valid() && log == old(log).(failures := old(log).failures + [reason])
    {
      log := log.(failures := log.failures + [reason]);
    }

    ghost method LogHistory(h: History)
      requires Valid()
      modifies `history
      ensures Valid() && history == h
    {
      history := h;
    }

    // -------------------------------------------------------------- client socket

    method DropClient()
      requires Valid()
      modifies `client, `lookupPeer, `retries
      ensures Valid() && Now() == CloseClient(old(Now()))
    {
      client, lookupPeer, retries := None, "", 0;
    }

    method WriteTo(fd: int, line: CliLine)
      requires Valid()
      modifies `log
      ensures Valid() && Now() == Tell(old(Now()), fd, line)
    {
      log := log.(cli := log.cli + [(fd, line)]);
    }

    method WriteLine(line: CliLine)
      requires Valid()
      modifies `log
      ensures Valid() && Now() == Write(old(Now()), line)
    {
      hide SessionMemory.Memory.Valid;
      if client.Some? {
        WriteTo(client.value, line);
      }
    }

    method RespondLookup(line: CliLine)
      requires Valid()
      modifies `log, `client, `lookupPeer, `retries
      ensures Valid() && Now() == Respond(old(Now()), line)
    {
      hide SessionMemory.Memory.Valid;
      if client.Some? {
        WriteLine(line);
        DropClient();
      }
    }

    // -------------------------------------------------------------- control connection

    method Queue(json: string) returns (ok: bool)
      requires Valid()
      modifies `phase, `pending
      ensures Valid() && (Now(), ok) == QueueJson(old(Now()), json)
    {
      if |json| >= MAX_JSON {
        phase := Broken;
        return false;
      }
      if pending.Some? {
        return false;
      }
      pending := Some(json);
      ok := true;
    }

    method Build(fields: seq<Json.Field>, size: nat) returns (ok: bool)
      requires Valid()
      modifies `phase, `pending
      ensures Valid() && (Now(), ok) == QueueBuilt(old(Now()), fields, size)
    {
      hide Json.Render, SessionMemory.Memory.Valid;
      var text := Json.Render(fields);
      if |text| >= size {
        return false;
      }
      ok := Queue(text);
    }

    method RequestChat(peer: string, sessionId: SessionId) returns (ok: bool)
      requires Valid()
      modifies this, memory
      ensures Valid() && (Now(), ok) == QueueChatRequest(old(Now()), peer, sessionId)
    {
      hide QueueBuilt, KeyedFields, SessionMemory.Memory.Valid;
      memory.SetSessionId(sessionId);
      ok := Build(KeyedFields("chat_request", id, peer, sessionId), 512);
      if ok {
        LogRequests(log.requests + 1);
      }
    }

    // -------------------------------------------------------------- session life cycle

    method EnterPhase(next: Phase, pending: Option<Key>)
      requires Valid()
      modifies `phase, `challenge
      ensures Valid() && Now() == old(Now()).(phase := next, challenge := pending)
    {
      phase, challenge := next, pending;
    }

    method EnterState(next: SessionState)
      requires Valid()
      modifies `session
      ensures Valid() && Now() == Enter(old(Now()), next)
    {
      session := next;
    }

    method ResetSession()
      requires Valid()
      modifies this, Parts()
      ensures Valid() && Now() == Reset(old(Now()))
    {
      hide SessionMemory.Memory.Valid;
      memory.Wipe();
    }

    method RetryOutgoing(env: Env) returns (retried: bool)
      requires Valid()
      modifies this, Parts()
      ensures retried <==> Retry(old(Now()), env).Some?
      ensures Valid() && Now() == if retried then Retry(old(Now()), env).value else old(Now())
    {
      hide QueueChatRequest, SessionMemory.Memory.Valid;
      memory.Status();
      if client.None? || lookupPeer == "" || !wsi || memory.chat.ready || retries >= RETRY_MAX {
        return false;
      }
      var peer := lookupPeer;
      retries := retries + 1;
      ResetSession();
      EnterState(Requesting);
      var ok := RequestChat(peer, env.sessionId);
      if !ok {
        RespondLookup(CliError(ChatRetryFailed));
      }
      retried := true;
    }

    method Report()
      requires Valid()
      modifies `log, `client, `lookupPeer, `retries
      ensures Valid() && Now() == ReportFailure(old(Now()))
    {
      hide Respond, Write, SessionMemory.Memory.Valid;
      memory.Status();
      memory.Names();
      if client.None? {
        return;
      }
      if memory.chat.ready {
        WriteLine(CliError(SessionFailed));
        DropClient();
      } else if memory.chat.peer != "" {
        RespondLookup(IceFailed(memory.chat.peer));
      } else if lookupPeer != "" {
        RespondLookup(IceFailed(lookupPeer));
      } else {
        WriteLine(CliError(SessionFailed));
        DropClient();
      }
    }

    method GiveUp(ghost reason: Reason, env: Env)
      requires Valid()
      modifies this, Parts()
      ensures Valid() && Now() == Fail(old(Now()), reason, env)
    {
      hide Retry, ReportFailure, SessionMemory.Memory.Valid;
      LogFailure(reason);
      var retried := RetryOutgoing(env);
      if retried {
        return;
      }
      EnterState(Failed);
      Report();
      ResetSession();
    }

    method BeginSession(peer: string, sessionId: string, controlling: bool, pk: Key, env: Env) returns (ok: bool)
      requires Valid()
      modifies this, Parts()
      ensures Valid() && (Now(), ok) == BeginIce(old(Now()), peer, sessionId, controlling, pk, env)
    {
      hide Fail, SessionMemory.Memory.Valid;
      ResetSession();
      EnterState(IceNegotiating);
      if |peer| > Packet.USERNAME_MAX {
        memory.SetPeer(Clip(peer, Packet.USERNAME_MAX));
        GiveUp(LibraryError, env);
        return false;
      }
      if |sessionId| > 32 {
        memory.SetPeer(peer);
        memory.SetSessionId(Clip(sessionId, 32));
        GiveUp(LibraryError, env);
        return false;
      }
      memory.Aim(peer, sessionId, pk, controlling);
      if !env.iceStarts {
        GiveUp(Transport, env);
        return false;
      }
      Launch(env.clock.polled + ICE_TIMEOUT);
      ok := true;
    }

    method Launch(deadline: int)
      requires Valid()
      modifies this, Parts()
      ensures
        && Valid()
        && Now() == old(Now()).(
             chat := old(memory.talk).(active := true, iceDeadline := deadline,
               ice := old(memory.talk).ice.(agent := true)),
             history := NO_HISTORY)
    {
      hide SessionMemory.Memory.Valid;
      memory.OpenTransport();
      memory.SetActive(deadline);
      LogHistory(NO_HISTORY);
    }

    // -------------------------------------------------------------- key exchange

    method Send(kind: byte, payload: Bytes, leaves: bool) returns (ok: bool)
      requires Valid()
      modifies `history
      ensures Valid() && (Now(), ok) == SendPacket(old(Now()), kind, payload, leaves)
    {
      hide Packet.Frame, Packet.Encode;
      memory.Flags();
      if |payload| > Packet.MAX_MESSAGE_SIZE || Packet.HEADER_SIZE + |payload| > ICE_PACKET_MAX {
        return false;
      }
      if Packet.Encode(kind, |payload|).Err? {
        return false;
      }
      if !memory.ice.ready || !memory.ice.agent || !leaves {
        return false;
      }
      history := history.(wire := history.wire + [Packet.Frame(kind, payload)]);
      ok := true;
    }

    method MakeHandshake(sodium: Crypto.Sodium, env: Env) returns (ok: bool)
      requires Valid()
      modifies this, Parts()
      ensures Valid() && (Now(), ok) == InitHandshake(sodium, old(Now()), env)
    {
      hide Crypto.Init, Ascii, SessionMemory.Memory.Valid;
      ghost var made := InitHandshake(sodium, Now(), env).0;
      var result := memory.BeginShake(sodium, id, env.kxSecret);
      ok := result == Crypto.Ok;
      LogHistory(made.history);
    }

    method ShakeHands(sodium: Crypto.Sodium, env: Env) returns (o: Outcome)
      requires Valid()
      modifies this, Parts()
      ensures Valid() && (Now(), o) == StartHandshake(sodium, old(Now()), env)
    {
      hide InitHandshake, ResendHandshake, SessionMemory.Memory.Valid;
      memory.Status();
      EnterState(CryptoHandshake);
      if !memory.chat.handshakeSent {
        var ok := MakeHandshake(sodium, env);
        if !ok {
          return NotMade;
        }
      }
      o := RepeatHandshake(env);
    }

    method RepeatHandshake(env: Env) returns (o: Outcome)
      requires Valid()
      modifies this, memory
      ensures Valid() && (Now(), o) == ResendHandshake(old(Now()), env)
    {
      hide SendPacket, SessionMemory.Memory.Valid;
      memory.Cached();
      var ok := Send(Packet.HANDSHAKE, memory.message[..], Flag(env.sends, 0));
      if !ok {
        return NotSent;
      }
      memory.NoteHandshake(env.clock.handshake + 1);
      o := Done;
    }

    method AcceptHandshake(sodium: Crypto.Sodium, payload: Bytes) returns (ok: bool)
      requires Valid() && |payload| == Crypto.KX_MESSAGE_BYTES
      modifies this, Parts()
      ensures Valid() && (Now(), ok) == FinishHandshake(sodium, old(Now()), payload)
    {
      hide Crypto.Finish, SessionMemory.Memory.Valid;
      var result := memory.CompleteShake(sodium, payload);
      if result != Crypto.Ok {
        return false;
      }
      memory.SetKeysReady();
      LogHistory(history.(kxAccepted := history.kxAccepted + [payload]));
      ok := true;
    }

    /** The push stream begins once, with a fresh header. */
    method MakeHeader(header: Nonce)
      requires Valid()
      modifies this, Parts()
      ensures Valid() && Now() == StartPush(old(Now()), header)
    {
      hide Crypto.InitPush, SessionMemory.Memory.Valid;
      ghost var made := StartPush(Now(), header);
      memory.BeginPush(header);
      LogHistory(made.history);
    }

    method RepeatHeader(env: Env) returns (o: Outcome)
      requires Valid()
      modifies this, memory
      ensures Valid() && (Now(), o) == ResendHeader(old(Now()), env)
    {
      hide SendPacket, SessionMemory.Memory.Valid;
      memory.Cached();
      var ok := Send(Packet.STREAM_HEADER, memory.chat.localHeader, Flag(env.sends, 1));
      if !ok {
        return NotSent;
      }
      memory.NoteHeader(env.clock.header + 1);
      o := Done;
    }

    method SendStreamHeader(env: Env) returns (o: Outcome)
      requires Valid()
      modifies this, Parts()
      ensures Valid() && (Now(), o) == SendHeader(old(Now()), env)
    {
      hide ResendHeader, StartPush, SessionMemory.Memory.Valid;
      memory.Status();
      if !memory.chat.headerSent {
        if env.header.None? {
          return NotMade;
        }
        MakeHeader(env.header.value);
      }
      o := RepeatHeader(env);
    }

    // -------------------------------------------------------------- encrypted messages

    /** Shows a message to the client as one line: line ends and NULs become blanks. */
    method ShowMessage(text: Bytes, arrives: bool) returns (ok: bool)
      requires Valid()
      modifies `ledger
      ensures Valid() && (Now(), ok) == WriteMessage(old(Now()), text, arrives)
    {
      hide OneLine;
      memory.Names();
      if client.None? {
        return true;
      }
      if |text| + MessagePrefix(memory.chat.peer) + 2 > IPC_MAX {
        return false;
      }
      var line := MakeLine(text);
      ledger := ledger.(delivered := ledger.delivered + [Delivery(client.value, memory.chat.peer, line)]);
      ok := arrives;
    }

    method ClosedByPeer()
      requires Valid()
      modifies this, Parts()
      ensures Valid() && Now() == CloseByPeer(old(Now()))
    {
      hide Write, SessionMemory.Memory.Valid;
      memory.Names();
      if client.Some? {
        WriteLine(ChatClosed(memory.chat.peer));
        DropClient();
      }
      ResetSession();
      EnterState(Closed);
    }

    /** A message that opens moves the stream on, whatever becomes of it. */
    method OpenItem(sodium: Crypto.Sodium, payload: Bytes) returns (result: Crypto.Result, item: Crypto.Item)
      requires Valid()
      modifies this, Parts()
      ensures
        var made := Crypto.Decrypt(sodium, old(memory.talk).stream, payload, Packet.MAX_MESSAGE_SIZE);
        && Valid() && result == made.0 && item == made.2
        && Now() == if result != Crypto.Ok then old(Now())
                    else old(Now()).(
                           chat := old(memory.talk).(stream := made.1),
                           history := old(history).(accepted := old(history).accepted + [item]))
    {
      hide Crypto.Decrypt, SessionMemory.Memory.Valid;
      result, item := memory.OpenStream(sodium, payload);
      if result == Crypto.Ok {
        LogHistory(history.(accepted := history.accepted + [item]));
      }
    }

    method DecryptPayload(sodium: Crypto.Sodium, kind: byte, payload: Bytes, arrives: bool) returns (ok: bool)
      requires Valid()
      modifies this, Parts()
      ensures Valid() && (Now(), ok) == OpenPayload(sodium, old(Now()), kind, payload, arrives)
    {
      hide Crypto.Decrypt, WriteMessage, CloseByPeer, SessionMemory.Memory.Valid;
      var result, item := OpenItem(sodium, payload);
      if result != Crypto.Ok {
        return false;
      }
      if kind == Packet.MESSAGE && item.tag == Crypto.TAG_MESSAGE {
        ok := ShowMessage(item.text, arrives);
      } else if kind == Packet.CLOSE && item.tag == Crypto.TAG_FINAL {
        ClosedByPeer();
        ok := true;
      } else {
        ok := false;
      }
    }

    /** The stream moves on before anything is sent. */
    method SealItem(sodium: Crypto.Sodium, item: Crypto.Item) returns (result: Crypto.Result, c: Bytes)
      requires Valid()
      modifies this, Parts()
      ensures
        var made := Crypto.Encrypt(sodium, old(memory.talk).stream, item, Packet.MAX_MESSAGE_SIZE);
        && Valid() && result == made.0 && c == made.2
        && Now() == if result != Crypto.Ok then old(Now())
                    else old(Now()).(
                           chat := old(memory.talk).(stream := made.1),
                           history := old(history).(sealed := old(history).sealed + [item]))
    {
      hide Crypto.Encrypt, SessionMemory.Memory.Valid;
      result, c := memory.SealStream(sodium, item);
      if result == Crypto.Ok {
        LogHistory(history.(sealed := history.sealed + [item]));
      }
    }

    method SendPayload(sodium: Crypto.Sodium, kind: byte, item: Crypto.Item, leaves: bool) returns (ok: bool)
      requires Valid()
      modifies this, Parts()
      ensures Valid() && (Now(), ok) == SendEncrypted(sodium, old(Now()), kind, item, leaves)
    {
      hide Crypto.Encrypt, SendPacket, SessionMemory.Memory.Valid;
      memory.Status();
      if !memory.chat.ready || (session != Secure && session != Closing)
         || |item.text| + Crypto.STREAM_ABYTES > Packet.MAX_MESSAGE_SIZE {
        return false;
      }
      var result, c := SealItem(sodium, item);
      if result != Crypto.Ok {
        return false;
      }
      ok := Send(kind, c, leaves);
    }

    method SendMessage(sodium: Crypto.Sodium, text: Bytes, leaves: bool) returns (ok: bool)
      requires Valid()
      modifies this, Parts()
      ensures Valid() && (Now(), ok) == SendText(sodium, old(Now()), text, leaves)
    {
      hide SendEncrypted, TextIsValid, SessionMemory.Memory.Valid;
      var valid := CheckText(text);
      if !valid {
        return false;
      }
      ok := SendPayload(sodium, Packet.MESSAGE, Crypto.Item(text, Crypto.TAG_MESSAGE), leaves);
    }

    method SendFarewell(sodium: Crypto.Sodium, leaves: bool)
      requires Valid()
      modifies this, Parts()
      ensures Valid() && Now() == SendClose(sodium, old(Now()), leaves)
    {
      hide SendEncrypted, SessionMemory.Memory.Valid;
      EnterState(Closing);
      var ok := SendPayload(sodium, Packet.CLOSE, Crypto.Item([], Crypto.TAG_FINAL), leaves);
    }

    // -------------------------------------------------------------- received datagrams

    method OnHandshakePacket(sodium: Crypto.Sodium, payload: Bytes) returns (ok: bool)
      requires Valid()
      modifies this, Parts()
      ensures Valid() && (Now(), ok) == HandleHandshake(sodium, old(Now()), payload)
    {
      hide FinishHandshake, SessionMemory.Memory.Valid;
      memory.Status();
      if session != IceConnected && session != CryptoHandshake && !(session == Secure && memory.chat.keysReady) {
        return false;
      }
      if |payload| != Crypto.KX_MESSAGE_BYTES {
        return false;
      }
      if memory.chat.keysReady {
        return true;
      }
      ok := AcceptHandshake(sodium, payload);
    }

    method OnHeaderPacket(payload: Bytes) returns (ok: bool)
      requires Valid()
      modifies this, Parts()
      ensures Valid() && (Now(), ok) == HandleHeader(old(Now()), payload)
    {
      hide SessionMemory.Memory.Valid;
      memory.Status();
      if session != CryptoHandshake && !(session == Secure && memory.chat.headerReceived) {
        return false;
      }
      if |payload| != 24 {
        return false;
      }
      if memory.chat.keysReady && !memory.chat.headerReceived {
        memory.BeginPull(payload);
      }
      ok := true;
    }

    method OnPacket(sodium: Crypto.Sodium, packet: Bytes, arrives: bool) returns (ok: bool)
      requires Valid()
      modifies this, Parts()
      ensures Valid() && (Now(), ok) == HandlePacket(sodium, old(Now()), packet, arrives)
    {
      hide Packet.Decode, HandleHandshake, HandleHeader, OpenPayload, SessionMemory.Memory.Valid;
      memory.Status();
      var header := Packet.Decode(packet);
      if header.Err? || |packet| != Packet.HEADER_SIZE + header.value.length {
        return false;
      }
      var kind, payload := header.value.kind, packet[Packet.HEADER_SIZE..];
      if kind == Packet.HANDSHAKE {
        ok := OnHandshakePacket(sodium, payload);
      } else if kind == Packet.STREAM_HEADER {
        ok := OnHeaderPacket(payload);
      } else if kind == Packet.MESSAGE || kind == Packet.CLOSE {
        if session != Secure || !memory.chat.ready || |payload| < Crypto.STREAM_ABYTES {
          return false;
        }
        ok := DecryptPayload(sodium, kind, payload, arrives);
      } else {
        ok := false;
      }
    }

    method TakePacket(sodium: Crypto.Sodium, arrives: bool) returns (ok: bool)
      requires Valid()
      modifies this, Parts()
      ensures Valid() && (Now(), ok) == Process(sodium, old(Now()), arrives)
    {
      hide HandlePacket, SessionMemory.Memory.Valid;
      var result, packet := memory.TakeOldest();
      if result != Ring.Ok {
        return false;
      }
      if packet == [] {
        return true;
      }
      ok := OnPacket(sodium, packet, arrives);
    }

    // -------------------------------------------------------------- periodic service

    /** Up to eight datagrams per call; the first one that is refused ends a session that is still up. */
    method DrainQueue(sodium: Crypto.Sodium, env: Env)
      requires Valid()
      modifies this, Parts()
      ensures Valid() && Now() == Drain(sodium, old(Now()), QUEUE_CAPACITY, env)
    {
      hide Process, Fail, SessionMemory.Memory.Valid;
      memory.Status();
      var n: nat := QUEUE_CAPACITY;
      while n > 0
        invariant Valid() && Drain(sodium, Now(), n, env) == Drain(sodium, old(Now()), QUEUE_CAPACITY, env)
      {
        var ok := TakePacket(sodium, Flag(env.writes, n));
        if !ok {
          memory.Status();
          if memory.chat.active {
            GiveUp(Rejected, env);
          }
          return;
        }
        n := n - 1;
      }
    }

    method HandshakeIfDue(sodium: Crypto.Sodium, env: Env) returns (o: Outcome)
      requires Valid()
      modifies this, Parts()
      ensures Valid() && (Now(), o) == SetupHandshake(sodium, old(Now()), env)
    {
      hide StartHandshake, SessionMemory.Memory.Valid;
      memory.Status();
      memory.Times();
      if !memory.chat.handshakeSent || (!memory.chat.headerReceived
        && env.clock.crypto >= memory.chat.nextHandshakeAt) {
        o := ShakeHands(sodium, env);
      } else {
        o := Done;
      }
    }

    method HeaderIfDue(env: Env) returns (o: Outcome)
      requires Valid()
      modifies this, Parts()
      ensures Valid() && (Now(), o) == SetupHeader(old(Now()), env)
    {
      hide SendHeader, SessionMemory.Memory.Valid;
      memory.Status();
      memory.Times();
      if memory.chat.keysReady && (!memory.chat.headerSent
        || (!memory.chat.ready && env.clock.crypto >= memory.chat.nextHeaderAt)) {
        o := SendStreamHeader(env);
      } else {
        o := Done;
      }
    }

    method SetupStep(sodium: Crypto.Sodium, env: Env) returns (failed: Option<Reason>)
      requires Valid()
      modifies this, Parts()
      ensures Valid() && (Now(), failed) == SetupRound(sodium, old(Now()), env)
    {
      hide SetupHandshake, Process, SetupHeader, SessionMemory.Memory.Valid;
      var o := HandshakeIfDue(sodium, env);
      if o != Done {
        return Some(Blame(o));
      }
      var ok := TakePacket(sodium, Flag(env.writes, 0));
      if !ok {
        return Some(Rejected);
      }
      o := HeaderIfDue(env);
      if o != Done {
        return Some(Blame(o));
      }
      ok := TakePacket(sodium, Flag(env.writes, 1));
      failed := if ok then None else Some(Rejected);
    }

    method BecomeReady()
      requires Valid()
      modifies this, memory
      ensures Valid() && Now() == BecomeSecure(old(Now()))
    {
      hide Write, SessionMemory.Memory.Valid;
      memory.Status();
      if memory.chat.keysReady && memory.chat.headerSent && memory.chat.headerReceived {
        memory.SetReady();
        EnterState(Secure);
        memory.Names();
        WriteLine(EncryptedSession(memory.chat.peer, memory.chat.relayed));
      }
    }

    method ServiceHandshake(sodium: Crypto.Sodium, env: Env)
      requires Valid()
      modifies this, Parts()
      ensures Valid() && Now() == ServiceSetup(sodium, old(Now()), env)
    {
      hide SetupRound, Fail, BecomeSecure, SessionMemory.Memory.Valid;
      memory.Status();
      memory.Times();
      if !memory.chat.hasRemotePk {
        GiveUp(NoRemoteKey, env);
        return;
      }
      if memory.chat.cryptoDeadline != 0 && env.clock.crypto >= memory.chat.cryptoDeadline {
        GiveUp(Timeout, env);
        return;
      }
      var failed := SetupStep(sodium, env);
      if failed.Some? {
        GiveUp(failed.value, env);
        return;
      }
      BecomeReady();
    }

    method ServiceSession(sodium: Crypto.Sodium, env: Env)
      requires Valid()
      modifies this, Parts()
      ensures Valid() && Now() == ServiceCrypto(sodium, old(Now()), env)
    {
      hide Drain, ServiceSetup, SessionMemory.Memory.Valid;
      memory.Status();
      memory.Flags();
      if !memory.ice.ready {
        return;
      }
      if memory.chat.ready {
        DrainQueue(sodium, env);
      } else {
        ServiceHandshake(sodium, env);
      }
    }

    method ApplySdp(env: Env) returns (ok: bool)
      requires Valid()
      modifies this, Parts()
      ensures Valid() && (Now(), ok) == ApplyPendingSdp(old(Now()), env)
    {
      hide SessionMemory.Memory.Valid;
      memory.Names();
      memory.Flags();
      if memory.ice.gatheringDone && memory.chat.pendingSdp.Some? {
        if env.remoteSdpApplies && memory.ice.agent {
          memory.SetPendingSdp(None);
        } else {
          memory.FailTransport();
          return false;
        }
      }
      ok := true;
    }

    method SendSdp(env: Env) returns (ok: bool)
      requires Valid()
      modifies this, memory
      ensures Valid() && (Now(), ok) == QueueLocalSdp(old(Now()), env)
    {
      hide QueueBuilt, SdpFields, SessionMemory.Memory.Valid;
      memory.Status();
      memory.Names();
      memory.Flags();
      if !(memory.ice.gatheringDone && !memory.chat.localSdpSent && wsi && pending.None?) {
        return true;
      }
      if env.localSdp.None? {
        return false;
      }
      var queued := Build(SdpFields(id, memory.chat.peer, memory.chat.sessionId, env.localSdp.value), MAX_JSON);
      if queued {
        memory.SetSdpSent();
        return true;
      }
      ok := pending.Some?;
    }

    method NotifyConnected(env: Env)
      requires Valid()
      modifies this, memory
      ensures Valid() && Now() == NoteConnected(old(Now()), env)
    {
      hide SessionMemory.Memory.Valid;
      memory.Status();
      memory.Names();
      memory.Flags();
      if memory.chat.cliNotified {
        return;
      }
      var relayed := if memory.ice.pairKnown then memory.ice.pairRelayed else memory.chat.relayed;
      memory.NotePath(relayed, env.clock.connected + CRYPTO_TIMEOUT);
      EnterState(IceConnected);
    }

    method ServiceTransport(sodium: Crypto.Sodium, env: Env)
      requires Valid()
      modifies this, Parts()
      ensures Valid() && Now() == ServiceIce(sodium, old(Now()), env)
    {
      hide Fail, ApplyPendingSdp, QueueLocalSdp, NoteConnected, ServiceCrypto, SessionMemory.Memory.Valid;
      assert memory.chat.active == memory.talk.active && memory.chat.ready == memory.talk.ready
             && memory.chat.cryptoDeadline == memory.talk.cryptoDeadline by {
        memory.Status();
        memory.Times();
      }
      if !memory.chat.active {
        return;
      }
      if memory.chat.cryptoDeadline != 0 && !memory.chat.ready && env.clock.polled >= memory.chat.cryptoDeadline {
        GiveUp(Timeout, env);
        return;
      }
      var applied := ApplySdp(env);
      if !applied {
        GiveUp(Transport, env);
        return;
      }
      var queued := SendSdp(env);
      assert memory.chat.iceDeadline == memory.talk.iceDeadline && memory.ice.failed == memory.talk.ice.failed
             && memory.ice.ready == memory.talk.ice.ready by {
        memory.Times();
        memory.Flags();
      }
      if !queued || memory.ice.failed {
        GiveUp(Transport, env);
        return;
      }
      if memory.ice.ready {
        NotifyConnected(env);
        ServiceSession(sodium, env);
      } else if env.clock.polled >= memory.chat.iceDeadline {
        GiveUp(Timeout, env);
      }
    }

    // -------------------------------------------------------------- server messages

    method CheckContact(name: string, key: Key, io: Contacts.Io) returns (result: Contacts.Result)
      requires Valid()
      modifies `ledger, store
      ensures Valid() && (Now(), result) == Verify(old(Now()), name, key, io)
    {
      hide Contacts.VerifyOrPin;
      var isNew;
      result, isNew := store.CheckOrPin(name, key, io);
      if result == Contacts.Ok {
        ledger := ledger.(verified := ledger.verified + [Contacts.Contact(name, key)]);
      }
    }

    method OnChatRequest(json: string, env: Env)
      requires Valid()
      modifies this, store, Parts()
      ensures Valid() && Now() == HandleChatRequest(old(Now()), json, env)
    {
      hide Json.GetString, Packet.UsernameIsValid, HexToKey, Verify, QueueBuilt, KeyedFields, BeginIce,
        SessionMemory.Memory.Valid;
      var from := JsonCursor.ReadString(json, "from", 33);
      var to := JsonCursor.ReadString(json, "to", 33);
      var sid := JsonCursor.ReadString(json, "session_id", 33);
      var hex := JsonCursor.ReadString(json, "public_key", 65);
      if from.None? || to.None? || sid.None? || hex.None? || to.value != id.username
         || !Packet.UsernameIsValid(from.value) || sid.value == "" || HexToKey(hex.value).None? {
        return;
      }
      var key := HexToKey(hex.value).value;
      var result := CheckContact(from.value, key, env.io);
      if result != Contacts.Ok {
        return;
      }
      EnterState(Requesting);
      var ok := Build(KeyedFields("chat_accept", id, from.value, sid.value), 512);
      if ok {
        var begun := BeginSession(from.value, sid.value, false, key, env);
      }
    }

    method OnChatAccept(json: string, env: Env)
      requires Valid()
      modifies this, store, Parts()
      ensures Valid() && Now() == HandleChatAccept(old(Now()), json, env)
    {
      hide Json.GetString, HexToKey, Verify, QueueBuilt, PeerFields, BeginIce, Respond, SessionMemory.Memory.Valid;
      assert memory.chat.sessionId == memory.talk.sessionId by { memory.Names(); }
      var from := JsonCursor.ReadString(json, "from", 33);
      var to := JsonCursor.ReadString(json, "to", 33);
      var sid := JsonCursor.ReadString(json, "session_id", 33);
      var hex := JsonCursor.ReadString(json, "public_key", 65);
      if from.None? || to.None? || sid.None? || hex.None? || HexToKey(hex.value).None? || client.None?
         || from.value != lookupPeer || to.value != id.username || sid.value != memory.chat.sessionId {
        return;
      }
      var key := HexToKey(hex.value).value;
      var result := CheckContact(from.value, key, env.io);
      if result == Contacts.ErrMismatch {
        var queued := Build(PeerFields("chat_cancel", id, from.value, sid.value), 384);
        RespondLookup(IdentityMismatch(from.value));
        return;
      }
      if result != Contacts.Ok {
        RespondLookup(CliError(ContactVerificationFailed));
        return;
      }
      var ok := BeginSession(from.value, sid.value, true, key, env);
      if !ok {
        RespondLookup(IceFailed(from.value));
      }
    }

    /** Is a message about the current session, from its peer? */
    method IsForSession(json: string) returns (ok: bool)
      requires Valid()
      ensures ok <==> Matches(Now(), json)
    {
      hide Json.GetString, SessionMemory.Memory.Valid;
      memory.Status();
      memory.Names();
      var from := JsonCursor.ReadString(json, "from", 33);
      var to := JsonCursor.ReadString(json, "to", 33);
      var sid := JsonCursor.ReadString(json, "session_id", 33);
      ok := memory.chat.active && from == Some(memory.chat.peer) && to == Some(id.username)
        && sid == Some(memory.chat.sessionId);
    }

    method OnIceCredentials(sodium: Crypto.Sodium, json: string, env: Env)
      requires Valid()
      modifies this, Parts()
      ensures Valid() && Now() == HandleIceCredentials(sodium, old(Now()), json, env)
    {
      hide Json.GetString, Matches, SessionMemory.Memory.Valid;
      memory.Flags();
      var matching := IsForSession(json);
      var encoded := JsonCursor.ReadString(json, "sdp", 2732);
      if !matching || encoded.None? {
        return;
      }
      var sdp := sodium.base64Decode(encoded.value);
      if sdp.None? || sdp.value == "" || |sdp.value| > SDP_MAX {
        return;
      }
      if !memory.ice.gatheringDone {
        memory.SetPendingSdp(sdp);
      } else if !(env.remoteSdpApplies && memory.ice.agent) {
        memory.FailTransport();
      }
    }

    method OnChatCancel(json: string)
      requires Valid()
      modifies this, Parts()
      ensures Valid() && Now() == HandleChatCancel(old(Now()), json)
    {
      hide Matches, SessionMemory.Memory.Valid;
      var matching := IsForSession(json);
      if matching {
        ResetSession();
        EnterState(Closed);
      }
    }

    method OnUserStatus(json: string)
      requires Valid()
      modifies `log, `client, `lookupPeer, `retries
      ensures Valid() && Now() == HandleUserStatus(old(Now()), json)
    {
      hide Json.GetString, Json.IsTrue, Respond;
      var name := JsonCursor.ReadString(json, "username", 33);
      if client.None? || name != Some(lookupPeer) {
        return;
      }
      if !Json.IsTrue(json, "known") || !Json.IsTrue(json, "online") {
        RespondLookup(UserOffline(name.value));
      } else {
        RespondLookup(UserOnline(name.value));
      }
    }

    method OnError(json: string)
      requires Valid()
      modifies `phase, `challenge, `pending, `log, `client, `lookupPeer, `retries
      ensures Valid() && Now() == HandleError(old(Now()), json)
    {
      hide Json.GetString, Respond, QueueBuilt, HelloFields;
      var found := JsonCursor.ReadString(json, "code", 128);
      var code := if found.Some? then found.value else "unknown";
      if phase == Registering && code == "user already exists" {
        EnterPhase(Greeting, challenge);
        var queued := Build(HelloFields(id), 128);
      } else if client.Some? && code == "peer_offline" {
        RespondLookup(UserOffline(lookupPeer));
      } else {
        RespondLookup(CliError(FromServer(code)));
        EnterPhase(Broken, challenge);
      }
    }

    method OnChallenge(sodium: Crypto.Sodium, json: string)
      requires Valid()
      modifies `phase, `challenge, `pending
      ensures Valid() && Now() == HandleChallenge(sodium, old(Now()), json)
    {
      hide Json.GetString, HexToKey, QueueBuilt, AuthFields;
      var hex := JsonCursor.ReadString(json, "challenge", 65);
      if hex.None? || HexToKey(hex.value).None? {
        EnterPhase(Broken, challenge);
        return;
      }
      var key := HexToKey(hex.value).value;
      EnterPhase(Answering, Some(key));
      var queued := Build(AuthFields(sodium.sign(key, id.secret)), 256);
    }

    method OnReceive(sodium: Crypto.Sodium, json: string, env: Env)
      requires Valid()
      modifies this, store, Parts()
      ensures Valid() && Now() == HandleReceive(sodium, old(Now()), json, env)
    {
      hide Json.GetString, HandleError, HandleChallenge, HandleUserStatus, HandleChatRequest, HandleChatAccept,
        HandleIceCredentials, HandleChatCancel, QueueBuilt, HelloFields, SessionMemory.Memory.Valid;
      var kind := JsonCursor.ReadString(json, "type", 32);
      if kind.None? {
        return;
      }
      if kind.value == "error" {
        OnError(json);
      } else if phase == Registering && kind.value == "register_ok" {
        EnterPhase(Greeting, challenge);
        var queued := Build(HelloFields(id), 128);
      } else if phase == Greeting && kind.value == "auth_challenge" {
        OnChallenge(sodium, json);
      } else if phase == Answering && kind.value == "auth_ok" {
        EnterPhase(Online, None);
      } else if kind.value == "user_status" {
        OnUserStatus(json);
      } else if kind.value == "chat_request" {
        OnChatRequest(json, env);
      } else if kind.value == "chat_accept" {
        OnChatAccept(json, env);
      } else if kind.value == "ice_credentials" {
        OnIceCredentials(sodium, json, env);
      } else if kind.value == "chat_cancel" {
        OnChatCancel(json);
      }
    }

    // -------------------------------------------------------------- client commands

    /** A new client asks: nothing of an earlier request counts. */
    method Attend(fd: int, peer: string)
      requires Valid()
      modifies `lookupPeer, `client, `retries
      ensures Valid() && Now() == old(Now()).(lookupPeer := peer, client := Some(fd), retries := 0)
    {
      lookupPeer, client, retries := peer, Some(fd), 0;
    }

    method AskForChat(fd: int, peer: string, env: Env)
      requires Valid()
      modifies this, memory
      ensures Valid() && Now() == AskPeer(old(Now()), fd, peer, env)
    {
      hide QueueChatRequest, Respond, SessionMemory.Memory.Valid;
      Attend(fd, peer);
      LogRequests(0);
      EnterState(Requesting);
      var ok := RequestChat(peer, env.sessionId);
      if !ok {
        RespondLookup(CliError(ChatRequestFailed));
      }
    }

    method OnOpenChat(fd: int, peer: string, env: Env)
      requires Valid()
      modifies this, memory
      ensures Valid() && Now() == OpenChat(old(Now()), fd, peer, env)
    {
      hide AskPeer, Tell, Write, Packet.UsernameIsValid;
      memory.Status();
      memory.Names();
      if !Packet.UsernameIsValid(peer) {
        WriteTo(fd, CliError(InvalidUsername));
      } else if !(phase == Online && wsi) {
        WriteTo(fd, CliError(DaemonNotOnline));
      } else if peer == id.username {
        WriteTo(fd, UserOnline(peer));
      } else if memory.chat.active && memory.chat.ready && peer == memory.chat.peer && client.None? {
        client := Some(fd);
        WriteLine(EncryptedSession(memory.chat.peer, memory.chat.relayed));
      } else if client.Some? || pending.Some? {
        WriteTo(fd, CliError(Busy));
      } else {
        AskForChat(fd, peer, env);
      }
    }

    method HangUpClient(next: SessionState)
      requires Valid()
      modifies this, Parts()
      ensures Valid() && Now() == HangUp(old(Now()), next)
    {
      hide SessionMemory.Memory.Valid;
      DropClient();
      ResetSession();
      EnterState(next);
    }

    method CloseChat(sodium: Crypto.Sodium, leaves: bool)
      requires Valid()
      modifies this, Parts()
      ensures Valid() && Now() == HangUp(SendClose(sodium, old(Now()), leaves), Closed)
    {
      hide HangUp, SendClose, SessionMemory.Memory.Valid;
      SendFarewell(sodium, leaves);
      HangUpClient(Closed);
    }

    method RunCommand(sodium: Crypto.Sodium, line: string, leaves: bool)
      requires Valid()
      modifies this, Parts()
      ensures Valid() && Now() == OneCommand(sodium, old(Now()), line, leaves)
    {
      hide SendText, Write, Ascii, SessionMemory.Memory.Valid;
      if SEND <= line {
        var ok := SendMessage(sodium, Ascii(line[|SEND|..]), leaves);
        if !ok {
          WriteLine(CliError(SendFailed));
        }
      } else if line != "" {
        WriteLine(CliError(UnknownCommand));
      }
    }

    /** Runs the line at `i`; `next` is where the following one begins. */
    method RunLine(sodium: Crypto.Sodium, text: string, i: nat, n: nat, env: Env) returns (done: bool, next: nat)
      requires Valid() && i < |text| && client.Some? && memory.chat.active
      modifies this, Parts()
      ensures Valid() && i < next <= |text|
      ensures
        Commands(sodium, old(Now()), text, i, n, env)
        == if done then Now() else Commands(sodium, Now(), text, next, n + 1, env)
    {
      hide OneCommand, HangUp, SendClose, SessionMemory.Memory.Valid;
      assert memory.talk.active by { memory.Status(); }
      var end := FindLineEnd(text, i);
      var line := text[i..end];
      if line == "CLOSE_CHAT" {
        CloseChat(sodium, Flag(env.sends, n));
        return true, |text|;
      }
      RunCommand(sodium, line, Flag(env.sends, n));
      if end == |text| {
        return true, |text|;
      }
      next := PassLineEnds(text, end + 1);
      done := false;
    }

    /** Splits the buffer at line ends and runs each line, until the session or the client is gone. */
    method RunCommands(sodium: Crypto.Sodium, text: string, env: Env)
      requires Valid()
      modifies this, Parts()
      ensures Valid() && Now() == Commands(sodium, old(Now()), text, 0, 0, env)
    {
      hide OneCommand, HangUp, SendClose, SessionMemory.Memory.Valid;
      var i, n: nat := 0, 0;
      while i < |text| && client.Some? && memory.chat.active
        invariant Valid() && i <= |text|
        invariant Commands(sodium, Now(), text, i, n, env) == Commands(sodium, old(Now()), text, 0, 0, env)
        decreases |text| - i
      {
        var done, next := RunLine(sodium, text, i, n, env);
        if done {
          return;
        }
        i, n := next, n + 1;
      }
      memory.Status();
    }

    method OnClientInput(sodium: Crypto.Sodium, input: Input, env: Env)
      requires Valid()
      modifies this, Parts()
      ensures Valid() && Now() == ServiceClient(sodium, old(Now()), input, env)
    {
      hide Commands, HangUp, SendClose, SessionMemory.Memory.Valid;
      memory.Status();
      if client.None? || !memory.chat.ready {
        return;
      }
      match input {
        case Nothing =>
        case ReadError => HangUpClient(Failed);
        case EndOfFile =>
          CloseChat(sodium, Flag(env.sends, 0));
        case Command(text) => RunCommands(sodium, CString(text), env);
      }
    }

    // -------------------------------------------------------------- every event

    /** The callbacks of the transport; there are none without an agent. */
    method OnGatheringDone()
      requires Valid()
      modifies Parts()
      ensures Valid() && Now() == OnIce(old(Now()), old(memory.talk).ice.(gatheringDone := true))
    {
      hide SessionMemory.Memory.Valid;
      assert memory.ice.agent == memory.talk.ice.agent by { memory.Flags(); }
      if memory.ice.agent {
        memory.Gathered();
      }
    }

    method OnConnected(pair: Option<bool>)
      requires Valid()
      modifies Parts()
      ensures
        var was := old(memory.talk).ice;
        && Valid()
        && Now() == OnIce(old(Now()), if pair.None? then was.(ready := true)
                                      else was.(ready := true, pairKnown := true, pairRelayed := pair.value))
    {
      hide SessionMemory.Memory.Valid;
      assert memory.ice.agent == memory.talk.ice.agent by { memory.Flags(); }
      if memory.ice.agent {
        memory.Connected(pair);
      }
    }

    method OnTransportFailed()
      requires Valid()
      modifies Parts()
      ensures Valid() && Now() == OnIce(old(Now()), old(memory.talk).ice.(failed := true))
    {
      hide SessionMemory.Memory.Valid;
      assert memory.ice.agent == memory.talk.ice.agent by { memory.Flags(); }
      if memory.ice.agent {
        memory.FailTransport();
      }
    }

    method OnDatagram(packet: Bytes)
      requires Valid()
      modifies Parts()
      ensures Valid() && Now() == OnIce(old(Now()), Receive(old(memory.talk).ice, packet))
    {
      hide Receive, SessionMemory.Memory.Valid;
      assert memory.ice.agent == memory.talk.ice.agent by { memory.Flags(); }
      if memory.ice.agent {
        memory.Received(packet);
      }
    }

    method Connect()
      requires Valid()
      modifies `wsi, `connected, `phase
      ensures Valid() && Now() == old(Now()).(wsi := true, connected := true, phase := Registering)
    {
      wsi, connected, phase := true, true, Registering;
    }

    method OnEstablished()
      requires Valid()
      modifies `wsi, `connected, `phase, `pending
      ensures Valid()
      ensures
        var s := old(Now());
        Now() == QueueBuilt(s.(wsi := true, connected := true, phase := Registering), RegisterFields(s.id), 512).0
    {
      hide QueueBuilt, RegisterFields, SessionMemory.Memory.Valid;
      Connect();
      var queued := Build(RegisterFields(id), 512);
    }

    method OnWriteable(written: bool)
      requires Valid()
      modifies `phase, `pending
      ensures Valid()
      ensures
        var s := old(Now());
        Now() == if s.pending.None? then s else if written then s.(pending := None) else s.(phase := Broken)
    {
      if pending.Some? {
        if written {
          pending := None;
        } else {
          phase := Broken;
        }
      }
    }

    /** The control connection is gone; a client is told unless its session is already encrypted. */
    method Disconnect(left: Option<Key>)
      requires Valid()
      modifies `wsi, `connected, `challenge
      ensures Valid() && Now() == old(Now()).(wsi := false, connected := false, challenge := left)
    {
      wsi, connected, challenge := false, false, left;
    }

    method OnOffline(left: Option<Key>, line: CliLine)
      requires Valid()
      modifies `wsi, `connected, `challenge, `log, `client, `lookupPeer, `retries
      ensures Valid()
      ensures
        var s := old(Now()).(wsi := false, connected := false, challenge := left);
        Now() == if s.chat.ready then s else Respond(s, line)
    {
      hide Respond, SessionMemory.Memory.Valid;
      Disconnect(left);
      memory.Status();
      if !memory.chat.ready {
        RespondLookup(line);
      }
    }

    method OnEvent(sodium: Crypto.Sodium, e: Event)
      requires Valid()
      modifies this, store, Parts()
      ensures Valid() && Now() == Step(sodium, old(Now()), e)
      ensures Session.Good(sodium, old(Now())) ==> Session.Good(sodium, Now())
      ensures Session.Good(sodium, old(Now())) ==> Session.KeepsTrust(old(Now()), Now())
    {
      hide Session.Good, Session.KeepsTrust, HandleReceive, OpenChat, ServiceClient, ServiceIce, QueueBuilt,
        RegisterFields, Receive, Respond, OnIce, SessionMemory.Memory.Valid;
      ghost var before := Now();
      KeepsGood(sodium, before, e);
      match e {
        case Established => OnEstablished();
        case ServerMessage(json, env) =>
          if |json| >= MAX_JSON {
            phase := Broken;
          } else {
            OnReceive(sodium, CString(json), env);
          }
        case Writeable(written) => OnWriteable(written);
        case ConnectionError => OnOffline(challenge, CliError(ServerUnavailable));
        case Disconnected => OnOffline(None, CliError(ServerDisconnected));
        case OpenChatCommand(fd, peer, env) => OnOpenChat(fd, peer, env);
        case ClientInput(input, env) => OnClientInput(sodium, input, env);
        case GatheringDone => OnGatheringDone();
        case Connected(pair) => OnConnected(pair);
        case TransportFailed => OnTransportFailed();
        case Datagram(packet) => OnDatagram(packet);
        case Service(env) => ServiceTransport(sodium, env);
      }
    }
  }

  method MakeLine(text: Bytes) returns (line: Bytes)
    ensures line == OneLine(text)
  {
    line := [];
    for i := 0 to |text|
      invariant |line| == i && forall j :: 0 <= j < i ==> line[j] == OneLine(text)[j]
    {
      line := line + [if text[i] == 13 || text[i] == 10 || text[i] == 0 then 32 else text[i]];
    }
  }

  method CheckText(text: Bytes) returns (ok: bool)
    ensures ok <==> TextIsValid(text)
  {
    if |text| == 0 || |text| > TEXT_MAX {
      return false;
    }
    for i := 0 to |text|
      invariant forall j :: 0 <= j < i ==> text[j] != 0 && text[j] != 13 && text[j] != 10
    {
      if text[i] == 0 || text[i] == 13 || text[i] == 10 {
        return false;
      }
    }
    ok := true;
  }

  method FindLineEnd(text: string, start: nat) returns (end: nat)
    requires start <= |text|
    ensures end == LineEnd(text, start)
  {
    end := start;
    while end < |text| && text[end] != '\r' && text[end] != '\n'
      invariant start <= end <= |text| && LineEnd(text, end) == LineEnd(text, start)
    {
      end := end + 1;
    }
  }

  method PassLineEnds(text: string, start: nat) returns (end: nat)
    requires start <= |text|
    ensures end == SkipLineEnds(text, start)
  {
    end := start;
    while end < |text| && (text[end] == '\r' || text[end] == '\n')
      invariant start <= end <= |text| && SkipLineEnds(text, end) == SkipLineEnds(text, start)
    {
      end := end + 1;
    }
  }

  lemma KeepsGood(sodium: Crypto.Sodium, s: State, e: Event)
    ensures
      Session.Good(sodium, s) ==>
        Session.Good(sodium, Step(sodium, s, e)) && Session.KeepsTrust(s, Step(sodium, s, e))
  {
    hide Step, Session.Good, Session.KeepsTrust;
    if Session.Good(sodium, s) {
      Session.StepIsGood(sodium, s, e);
    }
  }
}
