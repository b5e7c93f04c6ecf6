/** How two users get into one session: what the daemons write to each other, through the control server, and what each
 makes of it. */
module Introduction {
  import opened Completion
  import opened Daemon
  import opened JsonRoundTrip
  import opened Login
  import opened Network
  import opened Octets
  import opened Pairing
  import opened RelayDelivery
  import opened Session
  import opened Signalling
  import Contacts
  import Crypto
  import Json
  import Packet
  import Relay
  import RelayAuthenticity

  // ---------------------------------------------------------------- requests and accepts as texts

  /** A request or accept as its receiver reads it: who sends it, for whom, about which session, under which key. */
  ghost predicate Invites(json: string, kind: string, from: Crypto.Identity, to: string, sid: string) {
    && Says(json, kind) && |json| < 512
    && Json.GetString(json, "from", 33) == Some(from.username) && Json.GetString(json, "to", 33) == Some(to)
    && Json.GetString(json, "session_id", 33) == Some(sid)
    && Json.GetString(json, "public_key", 65).Some?
    && HexToKey(Json.GetString(json, "public_key", 65).value) == Some(from.public)
  }

  /** A name that no field name can be confused with. */
  predicate Clear(name: string) { Packet.UsernameIsValid(name) && !Reserved(name) }

  lemma FieldsAreWords()
    ensures Word("from") && Word("to") && Word("session_id") && Word("public_key") && Word("sdp")
  {
  }

  lemma PeerKindsAreWords()
    ensures Word("chat_request") && Word("chat_accept") && Word("chat_cancel") && Word("ice_credentials")
  {
  }

  lemma IdIsWord(sid: string)
    requires GoodId(sid)
    ensures Word(sid) && 0 < |sid| <= 32
  {
  }

  lemma KeyedInvites(kind: string, from: Crypto.Identity, to: string, sid: string)
    requires kind == "chat_request" || kind == "chat_accept"
    requires Clear(from.username) && Clear(to) && GoodId(sid)
    ensures Invites(Json.Render(KeyedFields(kind, from, to, sid)), kind, from, to, sid)
  {
    hide Word, Plain, Copies, Json.GetString, Json.Render, BinToHex, HexToKey, Packet.UsernameIsValid, Says, AllPlain;
    NameIsWord(from.username);
    NameIsWord(to);
    IdIsWord(sid);
    HexIsWord(from.public);
    FieldsAreWords();
    PeerKindsAreWords();
    var rest: seq<Json.Field> := [
      ("from", from.username), ("to", to), ("session_id", sid), ("public_key", BinToHex(from.public))];
    assert KeyedFields(kind, from, to, sid) == [("type", kind)] + rest;
    BuiltSays(kind, rest, 80);
    WordIsPlain(BinToHex(from.public));
    KeyFieldIsPlain(from.public);
    RoutingRoundTrip(kind, from, to, sid, [("public_key", BinToHex(from.public))]);
    KeyRoundTrip(kind, from, to, sid);
  }

  lemma KeyFieldIsPlain(key: Key)
    ensures AllPlain([("public_key", BinToHex(key))])
  {
    HexIsPlain(key, 65);
    hide BinToHex;
  }

  // ---------------------------------------------------------------- asking

  /** A daemon that asks for a chat with `peer` under the id that its session now has. */
  ghost predicate Asking(t: State, peer: string, fd: int) {
    && t.client == Some(fd) && t.lookupPeer == peer && t.session == Requesting
    && t.pending.Some? && Invites(t.pending.value, "chat_request", t.id, peer, t.chat.sessionId)
  }

  lemma QueuedAsks(s: State, peer: string, sid: SessionId)
    requires s.pending.None? && Clear(s.id.username) && Clear(peer) && GoodId(sid)
    ensures
      var (t, ok) := QueueChatRequest(s, peer, sid);
      && ok && t.pending.Some? && Invites(t.pending.value, "chat_request", s.id, peer, sid)
      && t == s.(chat := s.chat.(sessionId := sid), pending := t.pending,
                 log := s.log.(requests := s.log.requests + 1))
  {
    hide Json.Render, KeyedFields, Clear, GoodId, Invites;
    var fields := KeyedFields("chat_request", s.id, peer, sid);
    KeyedInvites("chat_request", s.id, peer, sid);
    InvitationFits(Json.Render(fields), "chat_request", s.id, peer, sid);
    FreeBufferQueues(s.(chat := s.chat.(sessionId := sid)), fields, 512);
    hide QueueBuilt;
  }

  lemma InvitationFits(json: string, kind: string, from: Crypto.Identity, to: string, sid: string)
    requires Invites(json, kind, from, to, sid)
    ensures |json| < 512
  {
  }

  lemma FreeBufferQueues(s: State, fields: seq<Json.Field>, size: nat)
    requires s.pending.None? && |Json.Render(fields)| < size <= MAX_JSON
    ensures QueueBuilt(s, fields, size) == (s.(pending := Some(Json.Render(fields))), true)
  {
    hide Json.Render;
  }

  /** OPEN_CHAT, when it starts a request, asks the user it names, and only that. */
  lemma OpenChatAsks(s: State, fd: int, peer: string, env: Env)
    requires StartsRequest(s, peer) && Clear(s.id.username) && Clear(peer) && GoodId(env.sessionId)
    ensures
      var t := OpenChat(s, fd, peer, env);
      && Asking(t, peer, fd) && t.chat == s.chat.(sessionId := env.sessionId) && t.retries == 0
      && t.log.cli == s.log.cli && t.log.requests == 1 && t.contacts == s.contacts && t.id == s.id
      && t.phase == s.phase
  {
    hide Invites, Packet.UsernameIsValid, GoodId, QueueChatRequest, Reserved;
    var asked := Enter(
      s.(lookupPeer := peer, client := Some(fd), retries := 0, log := s.log.(requests := 0)), Requesting);
    QueuedAsks(asked, peer, env.sessionId);
  }

  /** May a session that is given up be asked for again? */
  predicate MayRetry(s: State) {
    s.client.Some? && s.lookupPeer != "" && s.wsi && !s.chat.ready && s.retries < RETRY_MAX
  }

  /** Giving up asks the same user again, under a fresh id and for the same client, as often as that is allowed. */
  lemma GivingUpAsksAgain(s: State, reason: Reason, env: Env)
    requires MayRetry(s) && s.pending.None? && Clear(s.id.username) && Clear(s.lookupPeer) && GoodId(env.sessionId)
    ensures
      var t := Fail(s, reason, env);
      && Asking(t, s.lookupPeer, s.client.value) && t.chat == NO_CHAT.(sessionId := env.sessionId)
      && t.retries == s.retries + 1 && t.log.cli == s.log.cli && t.log.requests == s.log.requests + 1
  {
    hide Invites, Packet.UsernameIsValid, GoodId, QueueChatRequest, Reserved;
    var noted := s.(log := s.log.(failures := s.log.failures + [reason]));
    var again := Enter(Reset(noted.(retries := s.retries + 1)), Requesting);
    QueuedAsks(again, s.lookupPeer, env.sessionId);
  }

  /** What the client is told when a session is given up for good. */
  function LastWord(s: State): CliLine {
    if s.chat.ready then CliError(SessionFailed)
    else if s.chat.peer != "" then IceFailed(s.chat.peer)
    else if s.lookupPeer != "" then IceFailed(s.lookupPeer)
    else CliError(SessionFailed)
  }

  /** Giving up for good: the client is told once, by the name it asked for if there is one, and let go. When the next
      request cannot be queued, it is told that instead. */
  lemma GivingUpTells(s: State, reason: Reason, env: Env)
    requires (!MayRetry(s) || s.pending.Some?) && Booked(s)
    ensures
      var t := Fail(s, reason, env);
      && t.client.None? && t.lookupPeer == ""
      && t.session == (if MayRetry(s) then Requesting else Failed)
      && t.log.cli == (if s.client.None? then s.log.cli
                       else var line := if MayRetry(s) then CliError(ChatRetryFailed) else LastWord(s);
                         s.log.cli + [(s.client.value, line)])
  {
    hide Json.Render, KeyedFields, QueueChatRequest, ReportFailure;
    var noted := s.(log := s.log.(failures := s.log.failures + [reason]));
    if MayRetry(s) {
      TakenBufferQueuesNothing(Enter(Reset(noted.(retries := s.retries + 1)), Requesting), s.lookupPeer, env.sessionId);
    } else {
      LastWordIsSaid(Enter(noted, Failed));
    }
  }

  lemma TakenBufferQueuesNothing(s: State, peer: string, sid: SessionId)
    requires s.pending.Some?
    ensures
      var (t, ok) := QueueChatRequest(s, peer, sid);
      !ok && t.client == s.client && t.session == s.session && t.log == s.log
  {
    hide Json.Render, KeyedFields;
  }

  lemma LastWordIsSaid(s: State)
    requires Booked(s)
    ensures
      var t := ReportFailure(s);
      && t.client.None? && t.lookupPeer == "" && t.session == s.session
      && t.log.cli == if s.client.None? then s.log.cli else s.log.cli + [(s.client.value, LastWord(s))]
  {
  }

  // ---------------------------------------------------------------- accepting

  /** A session with this peer has just begun, with thirty seconds to connect. */
  ghost predicate Joined(t: State, peer: Crypto.Identity, role: Crypto.Role, sid: string, now: nat) {
    && Begun(t, peer, role, Ascii(sid)) && Completion.Untouched(t.chat) && t.session == IceNegotiating
    && t.chat.peer == peer.username && t.chat.sessionId == sid && t.chat.iceDeadline == now + ICE_TIMEOUT
  }

  lemma BeginJoins(s: State, peer: Crypto.Identity, sid: string, controlling: bool, env: Env)
    requires |peer.username| <= 32 && |sid| <= 32 && env.iceStarts
    ensures
      var (t, ok) := BeginIce(s, peer.username, sid, controlling, peer.public, env);
      && ok && t == s.(session := t.session, chat := t.chat, history := t.history)
      && Joined(t, peer, if controlling then Crypto.Initiator else Crypto.Responder, sid, env.clock.polled)
  {
    hide Ascii, Fail;
  }

  /** The peer's identity is one that this daemon's contact file accepts. */
  predicate Vouches(s: State, peer: Crypto.Identity, io: Contacts.Io) {
    Contacts.VerifyOrPin(s.contacts, peer.username, peer.public, io).0 == Contacts.Ok
  }

  lemma VouchedVerifies(s: State, peer: Crypto.Identity, io: Contacts.Io)
    requires Vouches(s, peer, io)
    ensures
      var (t, result) := Verify(s, peer.username, peer.public, io);
      result == Contacts.Ok && t == s.(contacts := t.contacts, ledger := t.ledger)
  {
    hide Contacts.VerifyOrPin;
  }

  /** A request from a user the daemon vouches for is accepted: the session begins in the responder's role, and the
      accept goes back to the asking user about the same session, with the daemon's own name and key. */
  lemma RequestIsAccepted(sodium: Crypto.Sodium, s: State, json: string, a: Crypto.Identity, sid: string, env: Env)
    requires Invites(json, "chat_request", a, s.id.username, sid) && GoodId(sid)
    requires Clear(a.username) && Clear(s.id.username) && s.pending.None? && Vouches(s, a, env.io) && env.iceStarts
    ensures
      var t := Step(sodium, s, ServerMessage(json, env));
      && Joined(t, a, Crypto.Responder, sid, env.clock.polled)
      && t.pending.Some? && Invites(t.pending.value, "chat_accept", s.id, a.username, sid)
      && t.client == s.client && t.id == s.id && t.log == s.log
  {
    hide Json.GetString, Json.Render, KeyedFields, HexToKey, Ascii, Step, BeginIce, Verify, Joined, HandleChatAccept,
      HandleIceCredentials, HandleChatCancel, Packet.UsernameIsValid, Says, Vouches;
    DaemonReads(sodium, s, json, "chat_request", env);
    var fields := KeyedFields("chat_accept", s.id, a.username, sid);
    KeyedInvites("chat_accept", s.id, a.username, sid);
    VouchedVerifies(s, a, env.io);
    var s1 := Verify(s, a.username, a.public, env.io).0;
    var e := Enter(s1, Requesting);
    FreeBufferQueues(e, fields, 512);
    IdIsWord(sid);
    NameIsWord(a.username);
    BeginJoins(e.(pending := Some(Json.Render(fields))), a, sid, false, env);
    hide QueueBuilt, GoodId;
    RequestReads(s, json, a, sid, env);
  }

  lemma RequestReads(s: State, json: string, a: Crypto.Identity, sid: string, env: Env)
    requires Invites(json, "chat_request", a, s.id.username, sid)
    requires Packet.UsernameIsValid(a.username) && sid != "" && Verify(s, a.username, a.public, env.io).1 == Contacts.Ok
    ensures
      var s1 := Verify(s, a.username, a.public, env.io).0;
      var (s2, ok) := QueueBuilt(Enter(s1, Requesting), KeyedFields("chat_accept", s.id, a.username, sid), 512);
      HandleChatRequest(s, json, env) == if ok then BeginIce(s2, a.username, sid, false, a.public, env).0 else s2
  {
    hide Json.GetString, KeyedFields, HexToKey, BeginIce, Verify, QueueBuilt, Packet.UsernameIsValid, Says;
  }

  /** An accept of the pending request, from the user that was asked, begins the session in the initiator's role. */
  lemma AcceptIsTaken(sodium: Crypto.Sodium, s: State, json: string, b: Crypto.Identity, sid: string, env: Env)
    requires Invites(json, "chat_accept", b, s.id.username, sid) && |sid| <= 32
    requires Packet.UsernameIsValid(b.username) && Vouches(s, b, env.io) && env.iceStarts
    requires s.client.Some? && s.lookupPeer == b.username && s.chat.sessionId == sid
    ensures
      var t := Step(sodium, s, ServerMessage(json, env));
      && Joined(t, b, Crypto.Initiator, sid, env.clock.polled)
      && t.client == s.client && t.id == s.id && t.pending == s.pending && t.log == s.log
  {
    hide Json.GetString, HexToKey, Ascii, Step, BeginIce, Verify, Joined, HandleChatRequest,
      HandleIceCredentials, HandleChatCancel, Packet.UsernameIsValid, Says, Vouches, Respond, QueueBuilt, PeerFields;
    DaemonReads(sodium, s, json, "chat_accept", env);
    VouchedVerifies(s, b, env.io);
    var s1 := Verify(s, b.username, b.public, env.io).0;
    assert |b.username| <= 32 by { NameIsWord(b.username); }
    BeginJoins(s1, b, sid, true, env);
  }

  // ---------------------------------------------------------------- through the server

  lemma {:induction false} WiderValue(s: string, i: nat, done: string, size: nat, wider: nat)
    requires i <= |s| && size <= wider && Json.Value(s, i, done, size).Some?
    ensures Json.Value(s, i, done, wider) == Json.Value(s, i, done, size)
    decreases |s| - i
  {
    if s[i] != '"' {
      WiderValue(s, i + 1, done + [s[i]], size, wider);
    }
  }

  lemma WiderString(json: string, key: string, size: nat, wider: nat)
    requires size <= wider && Json.GetString(json, key, size).Some?
    ensures Json.GetString(json, key, wider) == Json.GetString(json, key, size)
  {
    var at := Json.Find(json, Json.Quoted(key), 0).value;
    var colon := Json.SkipBlanks(json, at + |Json.Quoted(key)|);
    var open := Json.SkipBlanks(json, colon + 1);
    hide Json.Find, Json.SkipBlanks;
    WiderValue(json, open + 1, "", size, wider);
    hide Json.Value;
  }

  /** A message of a relayable kind with its routing fields, as its receiver reads it. */
  ghost predicate Routes(json: string, kind: string, from: string, to: string, sid: string) {
    && Says(json, kind)
    && Json.GetString(json, "from", 33) == Some(from) && Json.GetString(json, "to", 33) == Some(to)
    && Json.GetString(json, "session_id", 33) == Some(sid)
  }

  /** A routed message between two users who are online passes every check of the server, whatever its kind; a request
      or accept must carry the sender's key. */
  lemma RoutedPasses(
      s: Relay.Server, json: string, kind: string, from: Crypto.Identity, to: Crypto.Identity, sid: string,
      c: Relay.Conn, target: Relay.Conn)
    requires kind in ["chat_request", "chat_accept", "ice_credentials", "chat_cancel"]
    requires Routes(json, kind, from.username, to.username, sid) && sid != ""
    requires Relay.CarriesKey(kind) ==> Relay.ClaimedKey(json) == Some(from.public)
    requires Packet.UsernameIsValid(from.username) && Packet.UsernameIsValid(to.username)
    requires IsOnline(s, c, from) && IsOnline(s, target, to) && s.sessions[target].pending == ""
    ensures Relayable(json, kind) && Passes(s, c, json, kind, target)
  {
    hide Json.GetString, Relay.ClaimedKey, Packet.UsernameIsValid;
    WiderString(json, "session_id", 33, 128);
    var u := Relay.User(from.username, from.public, true, Some(c));
    assert u in s.users;
    var v := Relay.User(to.username, to.public, true, Some(target));
    assert v in s.users && Reaches(s, json, target);
  }

  /** An invitation between two users who are online passes every check of the server. */
  lemma InvitationPasses(
      s: Relay.Server, json: string, kind: string, from: Crypto.Identity, to: Crypto.Identity, sid: string,
      c: Relay.Conn, target: Relay.Conn)
    requires kind == "chat_request" || kind == "chat_accept"
    requires Invites(json, kind, from, to.username, sid) && sid != ""
    requires Packet.UsernameIsValid(from.username) && Packet.UsernameIsValid(to.username)
    requires IsOnline(s, c, from) && IsOnline(s, target, to) && s.sessions[target].pending == ""
    ensures Relayable(json, kind) && Passes(s, c, json, kind, target)
  {
    assert Routes(json, kind, from.username, to.username, sid) && Relay.ClaimedKey(json) == Some(from.public) by {
      hide Json.GetString, HexToKey, IsOnline, Packet.UsernameIsValid;
    }
    hide Invites, Routes, Relayable, Passes, IsOnline, Relay.ClaimedKey, Packet.UsernameIsValid;
    RoutedPasses(s, json, kind, from, to, sid, c, target);
  }

  /** The server after a daemon's buffer has been sent to it. */
  function Post(sodium: Crypto.Sodium, s: Relay.Server, c: Relay.Conn, d: State, challenge: Key): Relay.Server {
    if d.pending.None? then s else Relay.Step(sodium, s, Relay.Received(c, d.pending.value, true, challenge))
  }

  /** A daemon after a connection's buffer has been sent to it. */
  function Collect(sodium: Crypto.Sodium, s: Relay.Server, c: Relay.Conn, d: State, env: Env): State {
    if c !in s.sessions then d else Step(sodium, d, ServerMessage(s.sessions[c].pending, env))
  }

  lemma PostDelivers(
      sodium: Crypto.Sodium, s: Relay.Server, d: State, kind: string, to: Crypto.Identity, sid: string,
      c: Relay.Conn, target: Relay.Conn, challenge: Key)
    requires RelayAuthenticity.UniqueNames(s.users) && (kind == "chat_request" || kind == "chat_accept")
    requires d.pending.Some? && Invites(d.pending.value, kind, d.id, to.username, sid) && sid != ""
    requires Packet.UsernameIsValid(d.id.username) && Packet.UsernameIsValid(to.username)
    requires IsOnline(s, c, d.id) && IsOnline(s, target, to) && s.sessions[target].pending == ""
    ensures
      var t := Post(sodium, s, c, d, challenge);
      t.sessions == s.sessions[target := s.sessions[target].(pending := d.pending.value)] && t.users == s.users
  {
    hide Invites, Passes, Relayable, Relay.Step, IsOnline, RelayAuthenticity.UniqueNames, Packet.UsernameIsValid;
    InvitationPasses(s, d.pending.value, kind, d.id, to, sid, c, target);
    InvitationIsText(d.pending.value, kind, d.id, to.username, sid);
    OnlineIsOpen(s, c, d.id);
    PassedIsDelivered(sodium, s, c, d.pending.value, challenge, kind, target);
  }

  lemma InvitationIsText(json: string, kind: string, from: Crypto.Identity, to: string, sid: string)
    requires Invites(json, kind, from, to, sid)
    ensures CString(json) == json
  {
  }

  lemma OnlineIsOpen(s: Relay.Server, c: Relay.Conn, id: Crypto.Identity)
    requires IsOnline(s, c, id)
    ensures c in s.sessions
  {
  }

  /** What is in a connection's buffer does not matter for being online. */
  lemma StillOnline(s: Relay.Server, t: Relay.Server, c: Relay.Conn, k: Relay.Conn, text: string, id: Crypto.Identity)
    requires c in s.sessions && t.sessions == s.sessions[c := s.sessions[c].(pending := text)] && t.users == s.users
    requires IsOnline(s, k, id)
    ensures IsOnline(t, k, id)
  {
  }

  /** OPEN_CHAT at one daemon, the server in between, and everybody handling what is in the other's buffer: the two
      daemons afterwards. */
  function Meet(
      sodium: Crypto.Sodium, server: Relay.Server, a: State, b: State, ca: Relay.Conn, cb: Relay.Conn, fd: int,
      envA: Env, envB: Env, envC: Env, challenge: Key): Pair
  {
    var asking := Step(sodium, a, OpenChatCommand(fd, b.id.username, envA));
    var server1 := Post(sodium, server, ca, asking, challenge);
    var accepting := Collect(sodium, server1, cb, b, envB);
    var server2 := Post(sodium, Relay.Step(sodium, server1, Relay.Writable(cb, true)), cb, accepting, challenge);
    Pair(Collect(sodium, server2, ca, Step(sodium, asking, Writeable(true)), envC),
         Step(sodium, accepting, Writeable(true)))
  }

  /** Two users who can meet: both online at the server with free buffers, each vouching for the other. */
  ghost predicate CanMeet(
      sodium: Crypto.Sodium, server: Relay.Server, a: State, b: State, ca: Relay.Conn, cb: Relay.Conn)
  {
    && RelayAuthenticity.UniqueNames(server.users) && ca != cb
    && IsOnline(server, ca, a.id) && IsOnline(server, cb, b.id)
    && server.sessions[ca].pending == "" && server.sessions[cb].pending == ""
    && Clear(a.id.username) && Clear(b.id.username) && b.pending.None?
    && a.id.public == sodium.signPublic(a.id.secret) && b.id.public == sodium.signPublic(b.id.secret)
  }

  lemma RequestArrives(
      sodium: Crypto.Sodium, server: Relay.Server, a: State, b: State, ca: Relay.Conn, cb: Relay.Conn, fd: int,
      envA: Env, challenge: Key)
    requires CanMeet(sodium, server, a, b, ca, cb) && StartsRequest(a, b.id.username) && GoodId(envA.sessionId)
    ensures
      var asking := Step(sodium, a, OpenChatCommand(fd, b.id.username, envA));
      var s1 := Post(sodium, server, ca, asking, challenge);
      && Asking(asking, b.id.username, fd) && asking.chat.sessionId == envA.sessionId && asking.id == a.id
      && asking.contacts == a.contacts
      && s1.users == server.users
      && s1.sessions == server.sessions[cb := server.sessions[cb].(pending := asking.pending.value)]
  {
    hide Invites, Packet.UsernameIsValid, GoodId, OpenChat, Reserved, Relay.Step, Post, StartsRequest,
      RelayAuthenticity.UniqueNames;
    OpenChatAsks(a, fd, b.id.username, envA);
    var asking := OpenChat(a, fd, b.id.username, envA);
    assert Step(sodium, a, OpenChatCommand(fd, b.id.username, envA)) == asking;
    PostDelivers(sodium, server, asking, "chat_request", b.id, envA.sessionId, ca, cb, challenge);
  }

  lemma AcceptArrives(
      sodium: Crypto.Sodium, server: Relay.Server, s1: Relay.Server, request: string, a: State, b: State,
      ca: Relay.Conn, cb: Relay.Conn, sid: string, envB: Env, challenge: Key)
    requires CanMeet(sodium, server, a, b, ca, cb) && s1.users == server.users
    requires s1.sessions == server.sessions[cb := server.sessions[cb].(pending := request)]
    requires Invites(request, "chat_request", a.id, b.id.username, sid) && GoodId(sid)
    requires Vouches(b, a.id, envB.io) && envB.iceStarts
    ensures
      var accepting := Collect(sodium, s1, cb, b, envB);
      var s2 := Post(sodium, Relay.Step(sodium, s1, Relay.Writable(cb, true)), cb, accepting, challenge);
      && Joined(accepting, a.id, Crypto.Responder, sid, envB.clock.polled) && accepting.id == b.id
      && ca in s2.sessions && Invites(s2.sessions[ca].pending, "chat_accept", b.id, a.id.username, sid)
  {
    hide Invites, Packet.UsernameIsValid, Reserved, GoodId, Vouches, Joined, Step, Post, IsOnline, Says,
      RelayAuthenticity.UniqueNames;
    assert cb in server.sessions && ca in server.sessions by {
      OnlineIsOpen(server, ca, a.id);
      OnlineIsOpen(server, cb, b.id);
    }
    RequestIsAccepted(sodium, b, request, a.id, sid, envB);
    var accepting := Step(sodium, b, ServerMessage(request, envB));
    var free := Relay.Step(sodium, s1, Relay.Writable(cb, true));
    assert free.sessions == server.sessions[cb := server.sessions[cb].(pending := "")] && free.users == server.users;
    hide Relay.Step;
    StillOnline(server, free, cb, ca, "", a.id);
    StillOnline(server, free, cb, cb, "", b.id);
    assert sid != "" by { IdIsWord(sid); }
    PostDelivers(sodium, free, accepting, "chat_accept", a.id, sid, cb, ca, challenge);
  }

  /** From OPEN_CHAT to a fresh session on both sides: the daemon asks, the server forwards, the other daemon accepts,
      the server forwards, the first daemon takes the accept. Both have then begun one and the same session with each
      other, so everything proved about pairs of daemons holds from there on. */
  lemma DaemonsMeet(
      sodium: Crypto.Sodium, server: Relay.Server, a: State, b: State, ca: Relay.Conn, cb: Relay.Conn, fd: int,
      envA: Env, envB: Env, envC: Env, challenge: Key)
    requires Good(sodium, a) && Good(sodium, b) && CanMeet(sodium, server, a, b, ca, cb)
    requires StartsRequest(a, b.id.username) && GoodId(envA.sessionId)
    requires Vouches(b, a.id, envB.io) && envB.iceStarts && Vouches(a, b.id, envC.io) && envC.iceStarts
    ensures
      var p := Meet(sodium, server, a, b, ca, cb, fd, envA, envB, envC, challenge);
      && Fresh(sodium, p, Ascii(envA.sessionId)) && p.a.id == a.id && p.b.id == b.id
      && Joined(p.a, b.id, Crypto.Initiator, envA.sessionId, envC.clock.polled)
      && Joined(p.b, a.id, Crypto.Responder, envA.sessionId, envB.clock.polled)
      && p.a.client == Some(fd) && p.a.pending.None? && p.b.pending.None?
  {
    hide Good, Invites, Packet.UsernameIsValid, Reserved, GoodId, Vouches, Joined, Step, Post, IsOnline, Collect,
      StartsRequest, Relay.Step, RelayAuthenticity.UniqueNames, Ascii;
    var sid := envA.sessionId;
    RequestArrives(sodium, server, a, b, ca, cb, fd, envA, challenge);
    var asking := Step(sodium, a, OpenChatCommand(fd, b.id.username, envA));
    var s1 := Post(sodium, server, ca, asking, challenge);
    AcceptArrives(sodium, server, s1, asking.pending.value, a, b, ca, cb, sid, envB, challenge);
    var accepting := Collect(sodium, s1, cb, b, envB);
    var s2 := Post(sodium, Relay.Step(sodium, s1, Relay.Writable(cb, true)), cb, accepting, challenge);
    SendingFrees(sodium, asking);
    SendingFrees(sodium, accepting);
    var waiting := Step(sodium, asking, Writeable(true));
    VouchesFor(a, waiting, b.id, envC.io);
    CollectTakes(sodium, s2, ca, waiting, b.id, sid, envC);
    StepIsGood(sodium, a, OpenChatCommand(fd, b.id.username, envA));
    StepIsGood(sodium, asking, Writeable(true));
    CollectKeepsGood(sodium, s1, cb, b, envB);
    CollectKeepsGood(sodium, s2, ca, waiting, envC);
    StepIsGood(sodium, accepting, Writeable(true));
    JoinedStays(accepting, Step(sodium, accepting, Writeable(true)), a.id, sid, envB.clock.polled);
    assert Crypto.SessionIdFits(Ascii(sid)) by { IdFits(sid); }
    JoinedIsFresh(sodium, Meet(sodium, server, a, b, ca, cb, fd, envA, envB, envC, challenge), a.id, b.id, sid,
      envC.clock.polled, envB.clock.polled);
  }

  lemma SendingFrees(sodium: Crypto.Sodium, d: State)
    ensures Step(sodium, d, Writeable(true)) == d.(pending := None)
  {
  }

  lemma VouchesFor(s: State, t: State, peer: Crypto.Identity, io: Contacts.Io)
    requires Vouches(s, peer, io) && t.contacts == s.contacts
    ensures Vouches(t, peer, io)
  {
    hide Contacts.VerifyOrPin;
  }

  lemma CollectTakes(
      sodium: Crypto.Sodium, server: Relay.Server, c: Relay.Conn, s: State, b: Crypto.Identity, sid: string, env: Env)
    requires c in server.sessions && Invites(server.sessions[c].pending, "chat_accept", b, s.id.username, sid)
    requires |sid| <= 32 && Packet.UsernameIsValid(b.username) && Vouches(s, b, env.io) && env.iceStarts
    requires s.client.Some? && s.lookupPeer == b.username && s.chat.sessionId == sid
    ensures
      var t := Collect(sodium, server, c, s, env);
      && Joined(t, b, Crypto.Initiator, sid, env.clock.polled)
      && t.client == s.client && t.id == s.id && t.pending == s.pending
  {
    hide Invites, Packet.UsernameIsValid, Vouches, Joined, Step;
    AcceptIsTaken(sodium, s, server.sessions[c].pending, b, sid, env);
  }

  lemma CollectKeepsGood(sodium: Crypto.Sodium, server: Relay.Server, c: Relay.Conn, s: State, env: Env)
    requires Good(sodium, s)
    ensures Good(sodium, Collect(sodium, server, c, s, env))
  {
    hide Good, Step;
    if c in server.sessions {
      StepIsGood(sodium, s, ServerMessage(server.sessions[c].pending, env));
    }
  }

  lemma IdFits(sid: SessionId)
    ensures Crypto.SessionIdFits(Ascii(sid))
  {
  }

  lemma JoinedStays(s: State, t: State, peer: Crypto.Identity, sid: string, now: nat)
    requires Joined(s, peer, Crypto.Responder, sid, now) && t == s.(pending := None)
    ensures Joined(t, peer, Crypto.Responder, sid, now)
  {
    hide Ascii;
  }

  lemma JoinedIsFresh(
      sodium: Crypto.Sodium, p: Pair, a: Crypto.Identity, b: Crypto.Identity, sid: string, nowA: nat, nowB: nat)
    requires Good(sodium, p.a) && Good(sodium, p.b) && p.a.id == a && p.b.id == b && Crypto.SessionIdFits(Ascii(sid))
    requires a.public == sodium.signPublic(a.secret) && b.public == sodium.signPublic(b.secret)
    requires Joined(p.a, b, Crypto.Initiator, sid, nowA) && Joined(p.b, a, Crypto.Responder, sid, nowB)
    ensures Fresh(sodium, p, Ascii(sid))
  {
    hide Good, Ascii;
  }

  /** ... and such a session can always be completed: from OPEN_CHAT to SECURE on both sides. */
  lemma OpenChatReachesSecure(
      sodium: Crypto.Sodium, server: Relay.Server, a: State, b: State, ca: Relay.Conn, cb: Relay.Conn, fd: int,
      envA: Env, envB: Env, envC: Env, challenge: Key, ka: Key, kb: Key, ha: Nonce, hb: Nonce, at: nat, env: Env)
    returns (moves: seq<Move>)
    requires Crypto.Lawful(sodium) && Good(sodium, a) && Good(sodium, b) && CanMeet(sodium, server, a, b, ca, cb)
    requires StartsRequest(a, b.id.username) && GoodId(envA.sessionId)
    requires Vouches(b, a.id, envB.io) && envB.iceStarts && Vouches(a, b.id, envC.io) && envC.iceStarts
    ensures
      var p := Meet(sodium, server, a, b, ca, cb, fd, envA, envB, envC, challenge);
      Honest(sodium, p, moves) && BothSecure(p, Play(sodium, p, moves))
  {
    hide Good, GoodId, Vouches, StartsRequest, Meet, Honest, Play, Fresh, Crypto.Lawful, CanMeet, Begun, Ascii;
    DaemonsMeet(sodium, server, a, b, ca, cb, fd, envA, envB, envC, challenge);
    var p := Meet(sodium, server, a, b, ca, cb, fd, envA, envB, envC, challenge);
    moves := SetupCompletes(sodium, p, Ascii(envA.sessionId), ka, kb, ha, hb, at, env);
  }
}
