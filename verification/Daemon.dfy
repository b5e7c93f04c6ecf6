/**
 The daemon's session machine as a function of its state and one event (daemon/main.c).

 Clock readings, randomness, library failures, file-system behaviour and the results of sends and writes are inputs.
 `History`, `Ledger` and `Log` are records that no branch reads: they exist so that properties can speak about whole
 runs.
 */
module Daemon {
  import opened Octets
  import Contacts
  import Crypto
  import Json
  import Packet

  const MAX_JSON := 4096
  const ICE_TIMEOUT := 30
  const CRYPTO_TIMEOUT := 30
  const RETRY_MAX := 3
  const ICE_PACKET_MAX := 4096
  const QUEUE_CAPACITY := 8
  const IPC_MAX := 4096
  const TEXT_MAX := IPC_MAX - 15
  const SDP_MAX := 2048

  datatype Phase = Registering | Greeting | Answering | Online | Broken

  datatype SessionState =
    | Idle | Requesting | IceNegotiating | IceConnected | CryptoHandshake | Secure | Closing | Closed | Failed

  /** Why a session was given up. */
  datatype Reason = Timeout | SendError | LibraryError | Rejected | Transport | NoRemoteKey

  /** A `MESSAGE <peer> <text>` line written to a client. */
  datatype Delivery = Delivery(fd: int, peer: string, text: Bytes)

  datatype ErrorCode =
    | SessionFailed | SendFailed | UnknownCommand | InvalidUsername | DaemonNotOnline | Busy
    | ChatRequestFailed | ChatRetryFailed | ContactVerificationFailed
    | ServerUnavailable | ServerDisconnected | FromServer(text: string)

  /** Every other line written to a client. */
  datatype CliLine =
    | ChatClosed(peer: string)
    | EncryptedSession(peer: string, relayed: bool)
    | UserOffline(peer: string)
    | UserOnline(peer: string)
    | IceFailed(peer: string)
    | IdentityMismatch(peer: string)
    | CliError(code: ErrorCode)

  /** The transport session (daemon/ice.h). The receive ring appears as the queue it implements. */
  datatype Ice = Ice(
    agent: bool, gatheringDone: bool, ready: bool, failed: bool,
    pairKnown: bool, pairRelayed: bool, queue: seq<Bytes>)

  const NO_ICE := Ice(false, false, false, false, false, false, [])

  /** Everything that reset_ice_session clears. */
  datatype Chat = Chat(
    active: bool, controlling: bool, localSdpSent: bool, cliNotified: bool, relayed: bool,
    peer: string, sessionId: string, iceDeadline: int, pendingSdp: Option<string>,
    remotePk: Key, hasRemotePk: bool, role: Crypto.Role,
    hs: Crypto.Handshake, keys: Crypto.SessionKeys, stream: Crypto.SecretStream,
    localMessage: Bytes, localHeader: Nonce,
    cryptoDeadline: int, handshakeSent: bool, nextHandshakeAt: int,
    keysReady: bool, headerSent: bool, nextHeaderAt: int, headerReceived: bool, ready: bool,
    ice: Ice)

  const NO_CHAT := Chat(
    false, false, false, false, false, "", "", 0, None, ZERO_KEY, false, Crypto.NoRole,
    Crypto.WIPED_HANDSHAKE, Crypto.WIPED_KEYS, Crypto.WIPED_STREAM, Zeros(96), ZERO_NONCE,
    0, false, 0, false, false, 0, false, false, NO_ICE)

  /** What the run has told its clients and the contacts it has verified. */
  datatype Ledger = Ledger(delivered: seq<Delivery>, verified: seq<Contacts.Contact>)

  /** What the latest session has done: datagrams sent, ephemeral keys drawn, peer handshakes accepted,
      push streams started, messages sealed and messages opened. It outlives the session itself. */
  datatype History = History(
    wire: seq<Bytes>, kxSecrets: seq<Key>, kxAccepted: seq<Bytes>,
    pushes: seq<(Key, Nonce)>, sealed: seq<Crypto.Item>, accepted: seq<Crypto.Item>)

  const NO_HISTORY := History([], [], [], [], [], [])

  /** Status lines, abandoned sessions, and chat requests since the last accepted OPEN_CHAT. */
  datatype Log = Log(cli: seq<(int, CliLine)>, failures: seq<Reason>, requests: nat)

  datatype State = State(
    id: Crypto.Identity, phase: Phase, session: SessionState,
    challenge: Option<Key>, wsi: bool, connected: bool, pending: Option<string>,
    client: Option<int>, lookupPeer: string, retries: nat,
    chat: Chat, contacts: string, history: History, ledger: Ledger, log: Log)

  /** Clock readings in the order in which one event takes them. */
  datatype Clock = Clock(polled: nat, connected: nat, crypto: nat, handshake: nat, header: nat)

  predicate Monotone(c: Clock) {
    c.polled <= c.connected <= c.crypto <= c.handshake <= c.header
  }

  type SessionId = s: string | |s| == 32 witness seq(32, _ => '0')

  datatype Env = Env(
    clock: Clock,
    sends: seq<bool>,          // does the n-th datagram leave?
    writes: seq<bool>,         // does the n-th message reach the client socket?
    kxSecret: Option<Key>,     // fresh ephemeral key
    header: Option<Nonce>,     // fresh stream header
    iceStarts: bool,
    localSdp: Option<string>,  // encoded local candidates
    remoteSdpApplies: bool,
    sessionId: SessionId,      // fresh session id
    io: Contacts.Io)

  predicate Flag(flags: seq<bool>, i: nat) { i < |flags| && flags[i] }

  // ---------------------------------------------------------------- client socket

  function Enter(s: State, next: SessionState): State { s.(session := next) }

  function CloseClient(s: State): State { s.(client := None, lookupPeer := "", retries := 0) }

  function Tell(s: State, fd: int, line: CliLine): State {
    s.(log := s.log.(cli := s.log.cli + [(fd, line)]))
  }

  function Write(s: State, line: CliLine): State {
    if s.client.None? then s else Tell(s, s.client.value, line)
  }

  function Respond(s: State, line: CliLine): State {
    if s.client.None? then s else CloseClient(Write(s, line))
  }

  // ---------------------------------------------------------------- control connection

  function QueueJson(s: State, json: string): (State, bool) {
    if |json| >= MAX_JSON then (s.(phase := Broken), false)
    else if s.pending.Some? then (s, false)
    else (s.(pending := Some(json)), true)
  }

  /** A message built in a buffer of `size` bytes. */
  function QueueBuilt(s: State, fields: seq<Json.Field>, size: nat): (State, bool) {
    if |Json.Render(fields)| >= size then (s, false) else QueueJson(s, Json.Render(fields))
  }

  function RegisterFields(id: Crypto.Identity): seq<Json.Field> {
    [("type", "register"), ("username", id.username), ("public_key", BinToHex(id.public))]
  }

  function HelloFields(id: Crypto.Identity): seq<Json.Field> {
    [("type", "hello"), ("username", id.username)]
  }

  function AuthFields(signature: Bytes): seq<Json.Field> {
    [("type", "auth_response"), ("signature", BinToHex(signature))]
  }

  function PeerFields(kind: string, id: Crypto.Identity, peer: string, sessionId: string): seq<Json.Field> {
    [("type", kind), ("from", id.username), ("to", peer), ("session_id", sessionId)]
  }

  function KeyedFields(kind: string, id: Crypto.Identity, peer: string, sessionId: string): seq<Json.Field> {
    PeerFields(kind, id, peer, sessionId) + [("public_key", BinToHex(id.public))]
  }

  function SdpFields(id: Crypto.Identity, peer: string, sessionId: string, sdp: string): seq<Json.Field> {
    PeerFields("ice_credentials", id, peer, sessionId) + [("sdp", sdp)]
  }

  function QueueChatRequest(s: State, peer: string, sessionId: SessionId): (State, bool) {
    var s := s.(chat := s.chat.(sessionId := sessionId));
    var (queued, ok) := QueueBuilt(s, KeyedFields("chat_request", s.id, peer, sessionId), 512);
    (if ok then queued.(log := queued.log.(requests := queued.log.requests + 1)) else queued, ok)
  }

  // ---------------------------------------------------------------- session life cycle

  function Reset(s: State): State { s.(chat := NO_CHAT) }

  function Retry(s: State, env: Env): Option<State> {
    if s.client.None? || s.lookupPeer == "" || !s.wsi || s.chat.ready || s.retries >= RETRY_MAX then None
    else
      var again := Enter(Reset(s.(retries := s.retries + 1)), Requesting);
      var (queued, ok) := QueueChatRequest(again, s.lookupPeer, env.sessionId);
      Some(if ok then queued else Respond(queued, CliError(ChatRetryFailed)))
  }

  /** What the client is told when a session is given up. */
  function ReportFailure(s: State): State {
    if s.client.None? then s
    else if s.chat.ready then CloseClient(Write(s, CliError(SessionFailed)))
    else if s.chat.peer != "" then Respond(s, IceFailed(s.chat.peer))
    else if s.lookupPeer != "" then Respond(s, IceFailed(s.lookupPeer))
    else CloseClient(Write(s, CliError(SessionFailed)))
  }

  function Fail(s: State, reason: Reason, env: Env): State {
    var s := s.(log := s.log.(failures := s.log.failures + [reason]));
    match Retry(s, env)
    case Some(retried) => retried
    case None => Reset(ReportFailure(Enter(s, Failed)))
  }

  function Clip(s: string, room: nat): string { if |s| <= room then s else s[..room] }

  function BeginIce(s: State, peer: string, sessionId: string, controlling: bool, pk: Key, env: Env): (State, bool) {
    var s := Enter(Reset(s), IceNegotiating);
    if |peer| > Packet.USERNAME_MAX then
      (Fail(s.(chat := s.chat.(peer := Clip(peer, Packet.USERNAME_MAX))), LibraryError, env), false)
    else if |sessionId| > 32 then
      (Fail(s.(chat := s.chat.(peer := peer, sessionId := Clip(sessionId, 32))), LibraryError, env), false)
    else
      var chat := s.chat.(
        peer := peer, sessionId := sessionId, remotePk := pk, hasRemotePk := true, controlling := controlling,
        role := if controlling then Crypto.Initiator else Crypto.Responder);
      if !env.iceStarts then (Fail(s.(chat := chat), Transport, env), false)
      else
        (s.(chat := chat.(active := true, iceDeadline := env.clock.polled + ICE_TIMEOUT, ice := NO_ICE.(agent := true)),
            history := NO_HISTORY),
         true)
  }

  // ---------------------------------------------------------------- transport

  function Receive(ice: Ice, packet: Bytes): Ice {
    if |packet| > ICE_PACKET_MAX then ice.(failed := true)
    else
      var kept := if |ice.queue| >= QUEUE_CAPACITY then ice.queue[1..] else ice.queue;
      ice.(queue := kept + [packet])
  }

  function SendPacket(s: State, kind: byte, payload: Bytes, leaves: bool): (State, bool) {
    if |payload| > Packet.MAX_MESSAGE_SIZE || Packet.HEADER_SIZE + |payload| > ICE_PACKET_MAX then (s, false)
    else if Packet.Encode(kind, |payload|).Err? then (s, false)
    else if !s.chat.ice.ready || !s.chat.ice.agent || !leaves then (s, false)
    else (s.(history := s.history.(wire := s.history.wire + [Packet.Frame(kind, payload)])), true)
  }

  // ---------------------------------------------------------------- key exchange

  datatype Outcome = Done | NotSent | NotMade

  /** Draws the ephemeral key and makes the handshake message. */
  function InitHandshake(sodium: Crypto.Sodium, s: State, env: Env): (State, bool) {
    var (result, hs, message) := Crypto.Init(
      sodium, s.chat.hs, s.id, s.chat.remotePk, s.chat.role,
      Ascii(s.chat.sessionId), env.kxSecret, s.chat.localMessage);
    var made := s.(chat := s.chat.(hs := hs, localMessage := message));
    if result != Crypto.Ok then (made, false)
    else (made.(history := made.history.(kxSecrets := made.history.kxSecrets + [env.kxSecret.value])), true)
  }

  function StartHandshake(sodium: Crypto.Sodium, s: State, env: Env): (State, Outcome) {
    var s := Enter(s, CryptoHandshake);
    if s.chat.handshakeSent then ResendHandshake(s, env)
    else
      var (made, ok) := InitHandshake(sodium, s, env);
      if ok then ResendHandshake(made, env) else (made, NotMade)
  }

  function ResendHandshake(s: State, env: Env): (State, Outcome) {
    var (sent, ok) := SendPacket(s, Packet.HANDSHAKE, s.chat.localMessage, Flag(env.sends, 0));
    if !ok then (sent, NotSent)
    else (sent.(chat := sent.chat.(nextHandshakeAt := env.clock.handshake + 1, handshakeSent := true)), Done)
  }

  function FinishHandshake(sodium: Crypto.Sodium, s: State, payload: Bytes): (State, bool)
    requires |payload| == Crypto.KX_MESSAGE_BYTES
  {
    var (result, hs, keys) := Crypto.Finish(sodium, s.chat.hs, payload, s.chat.keys);
    var s := s.(chat := s.chat.(hs := hs, keys := keys));
    if result != Crypto.Ok then (s, false)
    else (s.(chat := s.chat.(keysReady := true),
      history := s.history.(kxAccepted := s.history.kxAccepted + [payload])), true)
  }

  /** The push stream begins with a fresh header. */
  function StartPush(s: State, header: Nonce): State {
    s.(chat := s.chat.(
         stream := Crypto.InitPush(s.chat.stream, s.chat.keys.tx, header), localHeader := header),
       history := s.history.(pushes := s.history.pushes + [(s.chat.keys.tx, header)]))
  }

  function SendHeader(s: State, env: Env): (State, Outcome) {
    if s.chat.headerSent then ResendHeader(s, env)
    else if env.header.None? then (s, NotMade)
    else ResendHeader(StartPush(s, env.header.value), env)
  }

  function ResendHeader(s: State, env: Env): (State, Outcome) {
    var (sent, ok) := SendPacket(s, Packet.STREAM_HEADER, s.chat.localHeader, Flag(env.sends, 1));
    if !ok then (sent, NotSent)
    else (sent.(chat := sent.chat.(nextHeaderAt := env.clock.header + 1, headerSent := true)), Done)
  }

  function ReceiveHeader(s: State, header: Nonce): State {
    s.(chat := s.chat.(stream := Crypto.InitPull(s.chat.stream, s.chat.keys.rx, header), headerReceived := true))
  }

  // ---------------------------------------------------------------- encrypted messages

  /** A received text as the client sees it: one line. */
  function OneLine(text: Bytes): (r: Bytes)
    ensures |r| == |text|
  {
    seq(|text|, i requires 0 <= i < |text| => if text[i] == 13 || text[i] == 10 || text[i] == 0 then 32 else text[i])
  }

  function MessagePrefix(peer: string): nat { |"MESSAGE "| + |peer| + 1 }

  function WriteMessage(s: State, text: Bytes, arrives: bool): (State, bool) {
    if s.client.None? then (s, true)
    else if |text| + MessagePrefix(s.chat.peer) + 2 > IPC_MAX then (s, false)
    else
      var line := Delivery(s.client.value, s.chat.peer, OneLine(text));
      (s.(ledger := s.ledger.(delivered := s.ledger.delivered + [line])), arrives)
  }

  function CloseByPeer(s: State): State {
    var told := if s.client.None? then s else CloseClient(Write(s, ChatClosed(s.chat.peer)));
    Enter(Reset(told), Closed)
  }

  function OpenPayload(sodium: Crypto.Sodium, s: State, kind: byte, payload: Bytes, arrives: bool): (State, bool) {
    var (result, stream, item) := Crypto.Decrypt(sodium, s.chat.stream, payload, Packet.MAX_MESSAGE_SIZE);
    if result != Crypto.Ok then (s, false)
    else
      var s := s.(chat := s.chat.(stream := stream), history := s.history.(accepted := s.history.accepted + [item]));
      if kind == Packet.MESSAGE && item.tag == Crypto.TAG_MESSAGE then WriteMessage(s, item.text, arrives)
      else if kind == Packet.CLOSE && item.tag == Crypto.TAG_FINAL then (CloseByPeer(s), true)
      else (s, false)
  }

  function SendEncrypted(sodium: Crypto.Sodium, s: State, kind: byte, item: Crypto.Item, leaves: bool): (State, bool) {
    if !s.chat.ready || (s.session != Secure && s.session != Closing)
       || |item.text| + Crypto.STREAM_ABYTES > Packet.MAX_MESSAGE_SIZE then (s, false)
    else
      var (result, stream, c) := Crypto.Encrypt(sodium, s.chat.stream, item, Packet.MAX_MESSAGE_SIZE);
      if result != Crypto.Ok then (s, false)
      else
        SendPacket(
          s.(chat := s.chat.(stream := stream), history := s.history.(sealed := s.history.sealed + [item])),
          kind, c, leaves)
  }

  predicate TextIsValid(text: Bytes) {
    0 < |text| <= TEXT_MAX && 0 !in text && 13 !in text && 10 !in text
  }

  function SendText(sodium: Crypto.Sodium, s: State, text: Bytes, leaves: bool): (State, bool) {
    if !TextIsValid(text) then (s, false)
    else SendEncrypted(sodium, s, Packet.MESSAGE, Crypto.Item(text, Crypto.TAG_MESSAGE), leaves)
  }

  function SendClose(sodium: Crypto.Sodium, s: State, leaves: bool): State {
    SendEncrypted(sodium, Enter(s, Closing), Packet.CLOSE, Crypto.Item([], Crypto.TAG_FINAL), leaves).0
  }

  // ---------------------------------------------------------------- received datagrams

  function HandlePacket(sodium: Crypto.Sodium, s: State, packet: Bytes, arrives: bool): (State, bool) {
    match Packet.Decode(packet)
    case Err(_) => (s, false)
    case Ok(header) =>
      if |packet| != Packet.HEADER_SIZE + header.length then (s, false)
      else
        var payload := packet[Packet.HEADER_SIZE..];
        if header.kind == Packet.HANDSHAKE then HandleHandshake(sodium, s, payload)
        else if header.kind == Packet.STREAM_HEADER then HandleHeader(s, payload)
        else if header.kind == Packet.MESSAGE || header.kind == Packet.CLOSE then
          if s.session != Secure || !s.chat.ready || |payload| < Crypto.STREAM_ABYTES then (s, false)
          else OpenPayload(sodium, s, header.kind, payload, arrives)
        else (s, false)
  }

  function HandleHandshake(sodium: Crypto.Sodium, s: State, payload: Bytes): (State, bool) {
    if s.session != IceConnected && s.session != CryptoHandshake && !(s.session == Secure && s.chat.keysReady) then
      (s, false)
    else if |payload| != Crypto.KX_MESSAGE_BYTES then (s, false)
    else if s.chat.keysReady then (s, true)
    else FinishHandshake(sodium, s, payload)
  }

  function HandleHeader(s: State, payload: Bytes): (State, bool) {
    if s.session != CryptoHandshake && !(s.session == Secure && s.chat.headerReceived) then (s, false)
    else if |payload| != 24 then (s, false)
    else if !s.chat.keysReady || s.chat.headerReceived then (s, true)
    else (ReceiveHeader(s, payload), true)
  }

  function Pop(s: State): State
    requires s.chat.ice.queue != []
  {
    s.(chat := s.chat.(ice := s.chat.ice.(queue := s.chat.ice.queue[1..])))
  }

  function Process(sodium: Crypto.Sodium, s: State, arrives: bool): (State, bool) {
    if s.chat.ice.queue == [] then (s, true)
    else if |s.chat.ice.queue[0]| > ICE_PACKET_MAX then (s, false)
    else if s.chat.ice.queue[0] == [] then (Pop(s), true)
    else HandlePacket(sodium, Pop(s), s.chat.ice.queue[0], arrives)
  }

  // ---------------------------------------------------------------- periodic service

  /** A ready session takes up to `n` more datagrams. */
  function Drain(sodium: Crypto.Sodium, s: State, n: nat, env: Env): State
    decreases n
  {
    if n == 0 then s
    else
      var (next, ok) := Process(sodium, s, Flag(env.writes, n));
      if ok then Drain(sodium, next, n - 1, env)
      else if next.chat.active then Fail(next, Rejected, env)
      else next
  }

  function Blame(outcome: Outcome): Reason { if outcome == NotSent then SendError else LibraryError }

  /** Sends or resends the handshake when it is due. */
  function SetupHandshake(sodium: Crypto.Sodium, s: State, env: Env): (State, Outcome) {
    if !s.chat.handshakeSent || (!s.chat.headerReceived && env.clock.crypto >= s.chat.nextHandshakeAt) then
      StartHandshake(sodium, s, env)
    else (s, Done)
  }

  function SetupHeader(s: State, env: Env): (State, Outcome) {
    if s.chat.keysReady
       && (!s.chat.headerSent || (!s.chat.ready && env.clock.crypto >= s.chat.nextHeaderAt)) then SendHeader(s, env)
    else (s, Done)
  }

  function BecomeSecure(s: State): State {
    if s.chat.keysReady && s.chat.headerSent && s.chat.headerReceived then
      var s := Enter(s.(chat := s.chat.(ready := true)), Secure);
      Write(s, EncryptedSession(s.chat.peer, s.chat.relayed))
    else s
  }

  /** Handshake, one datagram, stream header, one datagram; stops at the first failure. */
  function SetupRound(sodium: Crypto.Sodium, s: State, env: Env): (State, Option<Reason>) {
    var (s1, o1) := SetupHandshake(sodium, s, env);
    if o1 != Done then (s1, Some(Blame(o1)))
    else
      var (s2, ok2) := Process(sodium, s1, Flag(env.writes, 0));
      if !ok2 then (s2, Some(Rejected))
      else
        var (s3, o3) := SetupHeader(s2, env);
        if o3 != Done then (s3, Some(Blame(o3)))
        else
          var (s4, ok4) := Process(sodium, s3, Flag(env.writes, 1));
          (s4, if ok4 then None else Some(Rejected))
  }

  function ServiceSetup(sodium: Crypto.Sodium, s: State, env: Env): State {
    if !s.chat.hasRemotePk then Fail(s, NoRemoteKey, env)
    else if s.chat.cryptoDeadline != 0 && env.clock.crypto >= s.chat.cryptoDeadline then Fail(s, Timeout, env)
    else
      match SetupRound(sodium, s, env)
      case (reached, Some(reason)) => Fail(reached, reason, env)
      case (reached, None) => BecomeSecure(reached)
  }

  function ServiceCrypto(sodium: Crypto.Sodium, s: State, env: Env): State {
    if !s.chat.ice.ready then s
    else if s.chat.ready then Drain(sodium, s, QUEUE_CAPACITY, env)
    else ServiceSetup(sodium, s, env)
  }

  /** Remote candidates that arrived before local gathering finished. */
  function ApplyPendingSdp(s: State, env: Env): (State, bool) {
    if s.chat.ice.gatheringDone && s.chat.pendingSdp.Some? then
      if env.remoteSdpApplies && s.chat.ice.agent then (s.(chat := s.chat.(pendingSdp := None)), true)
      else (s.(chat := s.chat.(ice := s.chat.ice.(failed := true))), false)
    else (s, true)
  }

  function QueueLocalSdp(s: State, env: Env): (State, bool) {
    if s.chat.ice.gatheringDone && !s.chat.localSdpSent && s.wsi && s.pending.None? then
      if env.localSdp.None? then (s, false)
      else
        var fields := SdpFields(s.id, s.chat.peer, s.chat.sessionId, env.localSdp.value);
        var (queued, ok) := QueueBuilt(s, fields, MAX_JSON);
        if ok then (queued.(chat := queued.chat.(localSdpSent := true)), true)
        else (queued, queued.pending.Some?)
    else (s, true)
  }

  function NoteConnected(s: State, env: Env): State {
    if s.chat.cliNotified then s
    else
      var relayed := if s.chat.ice.pairKnown then s.chat.ice.pairRelayed else s.chat.relayed;
      Enter(
        s.(chat := s.chat.(
             relayed := relayed, cliNotified := true, cryptoDeadline := env.clock.connected + CRYPTO_TIMEOUT)),
        IceConnected)
  }

  function ServiceIce(sodium: Crypto.Sodium, s: State, env: Env): State {
    if !s.chat.active then s
    else if s.chat.cryptoDeadline != 0 && !s.chat.ready && env.clock.polled >= s.chat.cryptoDeadline then
      Fail(s, Timeout, env)
    else
      var (s1, applied) := ApplyPendingSdp(s, env);
      if !applied then Fail(s1, Transport, env)
      else
        var (s2, queued) := QueueLocalSdp(s1, env);
        if !queued then Fail(s2, Transport, env)
        else if s2.chat.ice.failed then Fail(s2, Transport, env)
        else if s2.chat.ice.ready then ServiceCrypto(sodium, NoteConnected(s2, env), env)
        else if env.clock.polled >= s2.chat.iceDeadline then Fail(s2, Timeout, env)
        else s2
  }

  // ---------------------------------------------------------------- server messages

  /** Checks a key against the contact file and pins it when the name is new. */
  function Verify(s: State, name: string, key: Key, io: Contacts.Io): (State, Contacts.Result) {
    var (result, file, isNew) := Contacts.VerifyOrPin(s.contacts, name, key, io);
    var s := s.(contacts := file);
    (if result == Contacts.Ok then s.(ledger := s.ledger.(verified := s.ledger.verified
      + [Contacts.Contact(name, key)])) else s,
     result)
  }

  function HandleChatRequest(s: State, json: string, env: Env): State {
    var from := Json.GetString(json, "from", 33);
    var to := Json.GetString(json, "to", 33);
    var id := Json.GetString(json, "session_id", 33);
    var hex := Json.GetString(json, "public_key", 65);
    if from.None? || to.None? || id.None? || hex.None? || to.value != s.id.username
       || !Packet.UsernameIsValid(from.value) || id.value == "" || HexToKey(hex.value).None? then s
    else
      var key := HexToKey(hex.value).value;
      var (s1, result) := Verify(s, from.value, key, env.io);
      if result != Contacts.Ok then s1
      else
        var fields := KeyedFields("chat_accept", s.id, from.value, id.value);
        var (s2, ok) := QueueBuilt(Enter(s1, Requesting), fields, 512);
        if !ok then s2 else BeginIce(s2, from.value, id.value, false, key, env).0
  }

  function HandleChatAccept(s: State, json: string, env: Env): State {
    var from := Json.GetString(json, "from", 33);
    var to := Json.GetString(json, "to", 33);
    var id := Json.GetString(json, "session_id", 33);
    var hex := Json.GetString(json, "public_key", 65);
    if from.None? || to.None? || id.None? || hex.None? || HexToKey(hex.value).None?
       || s.client.None? || from.value != s.lookupPeer || to.value != s.id.username
       || id.value != s.chat.sessionId then s
    else
      var key := HexToKey(hex.value).value;
      var (s1, result) := Verify(s, from.value, key, env.io);
      if result == Contacts.ErrMismatch then
        Respond(QueueBuilt(s1, PeerFields("chat_cancel", s.id, from.value, id.value), 384).0,
          IdentityMismatch(from.value))
      else if result != Contacts.Ok then Respond(s1, CliError(ContactVerificationFailed))
      else
        var (s2, ok) := BeginIce(s1, from.value, id.value, true, key, env);
        if ok then s2 else Respond(s2, IceFailed(from.value))
  }

  /** Is the message about the current session, from its peer? */
  predicate Matches(s: State, json: string) {
    && s.chat.active
    && Json.GetString(json, "from", 33) == Some(s.chat.peer)
    && Json.GetString(json, "to", 33) == Some(s.id.username)
    && Json.GetString(json, "session_id", 33) == Some(s.chat.sessionId)
  }

  function HandleIceCredentials(sodium: Crypto.Sodium, s: State, json: string, env: Env): State {
    var encoded := Json.GetString(json, "sdp", 2732);
    if !Matches(s, json) || encoded.None? then s
    else
      match sodium.base64Decode(encoded.value)
      case None => s
      case Some(sdp) =>
        if sdp == "" || |sdp| > SDP_MAX then s
        else if !s.chat.ice.gatheringDone then s.(chat := s.chat.(pendingSdp := Some(sdp)))
        else if env.remoteSdpApplies && s.chat.ice.agent then s
        else s.(chat := s.chat.(ice := s.chat.ice.(failed := true)))
  }

  function HandleChatCancel(s: State, json: string): State {
    if Matches(s, json) then Enter(Reset(s), Closed) else s
  }

  function HandleUserStatus(s: State, json: string): State {
    var name := Json.GetString(json, "username", 33);
    if s.client.None? || name != Some(s.lookupPeer) then s
    else if !Json.IsTrue(json, "known") || !Json.IsTrue(json, "online") then Respond(s, UserOffline(name.value))
    else Respond(s, UserOnline(name.value))
  }

  function HandleError(s: State, json: string): State {
    var found := Json.GetString(json, "code", 128);
    var code := if found.Some? then found.value else "unknown";
    if s.phase == Registering && code == "user already exists" then
      QueueBuilt(s.(phase := Greeting), HelloFields(s.id), 128).0
    else if s.client.Some? && code == "peer_offline" then Respond(s, UserOffline(s.lookupPeer))
    else Respond(s, CliError(FromServer(code))).(phase := Broken)
  }

  function HandleChallenge(sodium: Crypto.Sodium, s: State, json: string): State {
    var hex := Json.GetString(json, "challenge", 65);
    if hex.None? || HexToKey(hex.value).None? then s.(phase := Broken)
    else
      var challenge := HexToKey(hex.value).value;
      QueueBuilt(
        s.(challenge := Some(challenge), phase := Answering),
        AuthFields(sodium.sign(challenge, s.id.secret)), 256).0
  }

  /** Messages that the server relays from another user. */
  function HandleSignal(sodium: Crypto.Sodium, s: State, kind: string, json: string, env: Env): State {
    if kind == "chat_request" then HandleChatRequest(s, json, env)
    else if kind == "chat_accept" then HandleChatAccept(s, json, env)
    else if kind == "ice_credentials" then HandleIceCredentials(sodium, s, json, env)
    else if kind == "chat_cancel" then HandleChatCancel(s, json)
    else s
  }

  function HandleReceive(sodium: Crypto.Sodium, s: State, json: string, env: Env): State {
    match Json.GetString(json, "type", 32)
    case None => s
    case Some(kind) =>
      if kind == "error" then HandleError(s, json)
      else if s.phase == Registering && kind == "register_ok" then
        QueueBuilt(s.(phase := Greeting), HelloFields(s.id), 128).0
      else if s.phase == Greeting && kind == "auth_challenge" then HandleChallenge(sodium, s, json)
      else if s.phase == Answering && kind == "auth_ok" then s.(challenge := None, phase := Online)
      else if kind == "user_status" then HandleUserStatus(s, json)
      else HandleSignal(sodium, s, kind, json, env)
  }

  // ---------------------------------------------------------------- client commands

  /** Sends the first chat request for a client. */
  function AskPeer(s: State, fd: int, peer: string, env: Env): State {
    var asked := Enter(
      s.(lookupPeer := peer, client := Some(fd), retries := 0, log := s.log.(requests := 0)), Requesting);
    var (queued, ok) := QueueChatRequest(asked, peer, env.sessionId);
    if ok then queued else Respond(queued, CliError(ChatRequestFailed))
  }

  /** Gives a client to a session that is already encrypted. */
  function Attach(s: State, fd: int): State {
    Write(s.(client := Some(fd)), EncryptedSession(s.chat.peer, s.chat.relayed))
  }

  function OpenChat(s: State, fd: int, peer: string, env: Env): State {
    if !Packet.UsernameIsValid(peer) then Tell(s, fd, CliError(InvalidUsername))
    else if !(s.phase == Online && s.wsi) then Tell(s, fd, CliError(DaemonNotOnline))
    else if peer == s.id.username then Tell(s, fd, UserOnline(peer))
    else if s.chat.active && s.chat.ready && peer == s.chat.peer && s.client.None? then Attach(s, fd)
    else if s.client.Some? || s.pending.Some? then Tell(s, fd, CliError(Busy))
    else AskPeer(s, fd, peer, env)
  }

  datatype Input = Nothing | ReadError | EndOfFile | Command(text: string)

  /** The first line end at or after `i`, or the end of the text. */
  function LineEnd(text: string, i: nat): (j: nat)
    requires i <= |text|
    ensures i <= j <= |text|
    ensures j < |text| ==> text[j] == '\r' || text[j] == '\n'
    ensures forall k :: i <= k < j ==> text[k] != '\r' && text[k] != '\n'
    decreases |text| - i
  {
    if i == |text| || text[i] == '\r' || text[i] == '\n' then i else LineEnd(text, i + 1)
  }

  function SkipLineEnds(text: string, i: nat): (j: nat)
    requires i <= |text|
    ensures i <= j <= |text|
    ensures j < |text| ==> text[j] != '\r' && text[j] != '\n'
    ensures forall k :: i <= k < j ==> text[k] == '\r' || text[k] == '\n'
    decreases |text| - i
  {
    if i < |text| && (text[i] == '\r' || text[i] == '\n') then SkipLineEnds(text, i + 1) else i
  }

  function HangUp(s: State, next: SessionState): State { Enter(Reset(CloseClient(s)), next) }

  const SEND := "SEND_MESSAGE "

  function OneCommand(sodium: Crypto.Sodium, s: State, line: string, leaves: bool): State {
    if SEND <= line then
      var (sent, ok) := SendText(sodium, s, Ascii(line[|SEND|..]), leaves);
      if ok then sent else Write(sent, CliError(SendFailed))
    else if line != "" then Write(s, CliError(UnknownCommand))
    else s
  }

  /** The command buffer from `i` on; `n` commands came before. */
  function Commands(sodium: Crypto.Sodium, s: State, text: string, i: nat, n: nat, env: Env): State
    requires i <= |text|
    decreases |text| - i
  {
    if i == |text| || s.client.None? || !s.chat.active then s
    else
      var end := LineEnd(text, i);
      var line := text[i..end];
      if line == "CLOSE_CHAT" then HangUp(SendClose(sodium, s, Flag(env.sends, n)), Closed)
      else
        var next := OneCommand(sodium, s, line, Flag(env.sends, n));
        if end == |text| then next
        else Commands(sodium, next, text, SkipLineEnds(text, end + 1), n + 1, env)
  }

  function ServiceClient(sodium: Crypto.Sodium, s: State, input: Input, env: Env): State {
    if s.client.None? || !s.chat.ready then s
    else
      match input
      case Nothing => s
      case ReadError => HangUp(s, Failed)
      case EndOfFile => HangUp(SendClose(sodium, s, Flag(env.sends, 0)), Closed)
      case Command(text) => Commands(sodium, s, CString(text), 0, 0, env)
  }

  // ---------------------------------------------------------------- events and runs

  datatype Event =
    | Established
    | ServerMessage(json: string, env: Env)
    | Writeable(written: bool)
    | ConnectionError
    | Disconnected
    | OpenChatCommand(fd: int, peer: string, env: Env)
    | ClientInput(input: Input, env: Env)
    | GatheringDone
    | Connected(pair: Option<bool>)
    | TransportFailed
    | Datagram(packet: Bytes)
    | Service(env: Env)

  function OnIce(s: State, ice: Ice): State {
    if s.chat.ice.agent then s.(chat := s.chat.(ice := ice)) else s
  }

  function Step(sodium: Crypto.Sodium, s: State, e: Event): State {
    match e
    case Established =>
      QueueBuilt(s.(wsi := true, connected := true, phase := Registering), RegisterFields(s.id), 512).0
    case ServerMessage(json, env) =>
      if |json| >= MAX_JSON then s.(phase := Broken) else HandleReceive(sodium, s, CString(json), env)
    case Writeable(written) =>
      if s.pending.None? then s else if written then s.(pending := None) else s.(phase := Broken)
    case ConnectionError =>
      var s := s.(wsi := false, connected := false);
      if !s.chat.ready then Respond(s, CliError(ServerUnavailable)) else s
    case Disconnected =>
      var s := s.(wsi := false, connected := false, challenge := None);
      if !s.chat.ready then Respond(s, CliError(ServerDisconnected)) else s
    case OpenChatCommand(fd, peer, env) => OpenChat(s, fd, peer, env)
    case ClientInput(input, env) => ServiceClient(sodium, s, input, env)
    case GatheringDone => OnIce(s, s.chat.ice.(gatheringDone := true))
    case Connected(pair) =>
      OnIce(s, if pair.None? then s.chat.ice.(ready := true)
               else s.chat.ice.(ready := true, pairKnown := true, pairRelayed := pair.value))
    case TransportFailed => OnIce(s, s.chat.ice.(failed := true))
    case Datagram(packet) => OnIce(s, Receive(s.chat.ice, packet))
    case Service(env) => ServiceIce(sodium, s, env)
  }

  /** A freshly started daemon for an identity, with whatever contact file is on disk. */
  function Start(id: Crypto.Identity, contacts: string): State {
    State(id, Registering, Idle, None, false, false, None, None, "", 0, NO_CHAT, contacts,
          NO_HISTORY, Ledger([], []), Log([], [], 0))
  }

  function Run(sodium: Crypto.Sodium, s: State, events: seq<Event>): State {
    if events == [] then s
    else Step(sodium, Run(sodium, s, events[..|events| - 1]), events[|events| - 1])
  }
}
