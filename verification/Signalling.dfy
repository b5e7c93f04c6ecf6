/** The signalling messages between daemons: what is put in comes out, and two daemons that follow them meet. */
module Signalling {
  import opened Octets
  import opened Daemon
  import opened Session
  import opened Network
  import opened JsonRoundTrip
  import Contacts
  import Crypto
  import Json
  import Packet
  import Relay

  // ---------------------------------------------------------------- plain values

  lemma NameIsPlain(name: string)
    requires Packet.UsernameIsValid(name)
    ensures Plain(name) && Copies(name, 33)
  {
  }

  lemma HexIsPlain(b: Bytes, size: nat)
    requires 2 * |b| < size
    ensures Plain(BinToHex(b)) && Copies(BinToHex(b), size)
  {
  }

  /** Session ids are made by the daemons and copied whole. */
  predicate GoodId(id: string) { Plain(id) && Copies(id, 33) && id != "" && id != "public_key" && id != "sdp" }

  /** Session ids are the hexadecimal text of 16 random bytes. */
  lemma HexIdIsGood(b: Bytes)
    requires |b| == 16
    ensures GoodId(BinToHex(b))
  {
  }

  // ---------------------------------------------------------------- round trips

  function Copied(v: string, size: nat): Option<string> { if Copies(v, size) then Some(v) else None }

  lemma ExtractStep(f: Json.Field, rest: seq<Json.Field>, key: string, size: nat)
    ensures
      Extracted([f] + rest, key, size)
      == if f.0 == key then Copied(f.1, size) else if f.1 == key then None else Extracted(rest, key, size)
  {
  }

  /** Extraction from a message of four fields and more. */
  lemma ExtractFour(a: Json.Field, b: Json.Field, c: Json.Field, d: Json.Field, more: seq<Json.Field>, key: string,
      size: nat)
    ensures
      Extracted([a, b, c, d] + more, key, size)
      == if a.0 == key then Copied(a.1, size) else if a.1 == key then None
         else if b.0 == key then Copied(b.1, size) else if b.1 == key then None
         else if c.0 == key then Copied(c.1, size) else if c.1 == key then None
         else if d.0 == key then Copied(d.1, size) else if d.1 == key then None
         else Extracted(more, key, size)
  {
    hide Copied;
    ExtractStep(d, more, key, size);
    ExtractStep(c, [d] + more, key, size);
    ExtractStep(b, [c] + ([d] + more), key, size);
    ExtractStep(a, [b] + ([c] + ([d] + more)), key, size);
    assert [a, b, c, d] + more == [a] + ([b] + ([c] + ([d] + more)));
    hide Extracted;
  }

  /** A message kind is none of the field names. */
  predicate KindOfPeer(kind: string) { kind in ["chat_request", "chat_accept", "chat_cancel", "ice_credentials"] }

  lemma KindIsNoKey(kind: string)
    requires KindOfPeer(kind)
    ensures Plain(kind) && Copies(kind, 32)
    ensures kind != "from" && kind != "to" && kind != "session_id" && kind != "public_key" && kind != "sdp"
  {
  }

  lemma NameIsNotTo(name: string)
    requires Packet.UsernameIsValid(name)
    ensures name != "to"
  {
  }

  /** What a message with routing fields yields for any key. */
  lemma PeerMessage(kind: string, id: Crypto.Identity, peer: string, sid: string, more: seq<Json.Field>,
      key: string, size: nat)
    requires KindOfPeer(kind) && Packet.UsernameIsValid(id.username) && Packet.UsernameIsValid(peer)
      && GoodId(sid) && AllPlain(more)
    requires Plain(key) && key != ":" && key != "," && 0 < size && |Json.Quoted(key)| < 64
    ensures
      Json.GetString(Json.Render(PeerFields(kind, id, peer, sid) + more), key, size)
      == if "type" == key then Copied(kind, size) else if kind == key then None
         else if "from" == key then Copied(id.username, size) else if id.username == key then None
         else if "to" == key then Copied(peer, size) else if peer == key then None
         else if "session_id" == key then Copied(sid, size) else if sid == key then None
         else Extracted(more, key, size)
  {
    KindIsNoKey(kind);
    NameIsPlain(id.username);
    NameIsPlain(peer);
    hide Packet.UsernameIsValid, KindOfPeer, Copies, Copied, Json.GetString, Json.Render;
    var fields := PeerFields(kind, id, peer, sid) + more;
    assert fields == [("type", kind), ("from", id.username), ("to", peer), ("session_id", sid)] + more;
    assert AllPlain(fields);
    MessageRoundTrip(fields, key, size);
    ExtractFour(("type", kind), ("from", id.username), ("to", peer), ("session_id", sid), more, key, size);
  }

  /** The routing fields of every signalling message: only the session id can be masked, by a user who is called
      that. */
  lemma RoutingRoundTrip(kind: string, id: Crypto.Identity, peer: string, sid: string, more: seq<Json.Field>)
    requires KindOfPeer(kind) && Packet.UsernameIsValid(id.username) && Packet.UsernameIsValid(peer)
      && GoodId(sid) && AllPlain(more)
    ensures
      var json := Json.Render(PeerFields(kind, id, peer, sid) + more);
      && Json.GetString(json, "type", 32) == Some(kind)
      && Json.GetString(json, "from", 33) == Some(id.username)
      && Json.GetString(json, "to", 33) == Some(peer)
      && (Json.GetString(json, "session_id", 33) == Some(sid) <==> id.username != "session_id" && peer != "session_id")
  {
    KindIsNoKey(kind);
    NameIsPlain(id.username);
    NameIsPlain(peer);
    NameIsNotTo(id.username);
    PeerMessage(kind, id, peer, sid, more, "type", 32);
    PeerMessage(kind, id, peer, sid, more, "from", 33);
    PeerMessage(kind, id, peer, sid, more, "to", 33);
    PeerMessage(kind, id, peer, sid, more, "session_id", 33);
    hide Packet.UsernameIsValid, KindOfPeer, Copies, Json.GetString, Json.Render, PeerFields, Extracted, AllPlain;
  }

  /** The key of a request or accept comes out exactly when neither user is called after the field. */
  lemma KeyRoundTrip(kind: string, id: Crypto.Identity, peer: string, sid: string)
    requires KindOfPeer(kind) && Packet.UsernameIsValid(id.username) && Packet.UsernameIsValid(peer) && GoodId(sid)
    ensures
      var hex := Json.GetString(Json.Render(KeyedFields(kind, id, peer, sid)), "public_key", 65);
      && (hex == Some(BinToHex(id.public)) <==> id.username != "public_key" && peer != "public_key")
      && (hex.Some? ==> HexToKey(hex.value) == Some(id.public))
  {
    var f: Json.Field := ("public_key", BinToHex(id.public));
    KindIsNoKey(kind);
    HexIsPlain(id.public, 65);
    HexRoundTrip(id.public);
    PeerMessage(kind, id, peer, sid, [f], "public_key", 65);
    assert [f] + [] == [f];
    ExtractStep(f, [], "public_key", 65);
    hide Packet.UsernameIsValid, KindOfPeer, Copies, Json.GetString, Json.Render, PeerFields, Extracted, HexToBin,
      BinToHex;
  }

  /** The candidates of an ice_credentials message likewise. */
  lemma SdpRoundTrip(id: Crypto.Identity, peer: string, sid: string, sdp: string)
    requires Packet.UsernameIsValid(id.username) && Packet.UsernameIsValid(peer) && GoodId(sid)
    requires Plain(sdp) && Copies(sdp, 2732)
    ensures
      Json.GetString(Json.Render(SdpFields(id, peer, sid, sdp)), "sdp", 2732) == Some(sdp)
      <==> id.username != "sdp" && peer != "sdp"
  {
    var f: Json.Field := ("sdp", sdp);
    assert KindOfPeer("ice_credentials");
    KindIsNoKey("ice_credentials");
    PeerMessage("ice_credentials", id, peer, sid, [f], "sdp", 2732);
    assert [f] + [] == [f];
    ExtractStep(f, [], "sdp", 2732);
    hide Packet.UsernameIsValid, KindOfPeer, Copies, Json.GetString, Json.Render, PeerFields, Extracted;
  }

  // ---------------------------------------------------------------- logging in

  lemma ExtractTwo(a: Json.Field, b: Json.Field, key: string, size: nat)
    ensures
      Extracted([a, b], key, size)
      == if a.0 == key then Copied(a.1, size) else if a.1 == key then None
         else if b.0 == key then Copied(b.1, size) else None
  {
    ExtractStep(b, [], key, size);
    ExtractStep(a, [b], key, size);
    assert [b] + [] == [b] && [a] + [b] == [a, b];
    hide Copied;
  }

  /** A daemon that is challenged answers with its signature of exactly that challenge. */
  lemma ChallengeIsAnswered(sodium: Crypto.Sodium, s: State, challenge: Key)
    requires s.pending.None?
    ensures
      var t := HandleChallenge(sodium, s, Json.Render(Relay.ChallengeFields(challenge)));
      && t.phase == Answering && t.challenge == Some(challenge)
      && t.pending == Some(Json.Render(AuthFields(sodium.sign(challenge, s.id.secret))))
  {
    var fields := Relay.ChallengeFields(challenge);
    HexIsPlain(challenge, 65);
    HexRoundTrip(challenge);
    assert AllPlain(fields) by { hide BinToHex; }
    MessageRoundTrip(fields, "challenge", 65);
    ExtractTwo(fields[0], fields[1], "challenge", 65);
    assert fields == [fields[0], fields[1]];
    AnswerFits(sodium.sign(challenge, s.id.secret));
    hide Json.GetString, Json.Render, Extracted, AuthFields, HexToBin, BinToHex;
  }

  lemma AnswerFits(signature: Signature)
    ensures |Json.Render(AuthFields(signature))| < 256
  {
    var fields := AuthFields(signature);
    assert fields[1..] == [("signature", BinToHex(signature))];
    assert |BinToHex(signature)| == 128;
    hide BinToHex;
    assert |Json.RenderFields(fields[1..])| == 128 + 14;
  }

  /** The server accepts the answer of the daemon whose key is registered and puts the user online on that
      connection. */
  lemma HonestDaemonLogsIn(sodium: Crypto.Sodium, s: Relay.Server, c: Relay.Conn, id: Crypto.Identity)
    requires Crypto.Lawful(sodium) && id.public == sodium.signPublic(id.secret)
    requires c in s.sessions && s.sessions[c].hasChallenge && s.sessions[c].username == id.username != ""
    requires Relay.FindUser(s.users, id.username).Some? && Relay.FindUser(s.users, id.username).value.key == id.public
    ensures
      var json := Json.Render(AuthFields(sodium.sign(s.sessions[c].challenge, id.secret)));
      var t := Relay.HandleAuthResponse(sodium, s, c, json);
      && c in t.sessions && t.sessions[c].authenticated && t.sessions[c].username == id.username
      && Relay.User(id.username, id.public, true, Some(c)) in t.users
  {
    var challenge := s.sessions[c].challenge;
    var signature := sodium.sign(challenge, id.secret);
    var fields := AuthFields(signature);
    var json := Json.Render(fields);
    assert Json.GetString(json, "signature", 129) == Some(BinToHex(signature)) by { SignatureRoundTrip(signature); }
    HexRoundTrip(signature);
    assert sodium.verify(signature, challenge, id.public) by { hide Json.GetString, Json.Render, BinToHex, HexToBin; }
    var k := Relay.IndexOf(s.users, id.username, 0);
    var users := Relay.SetOnline(s.users, id.username, c).1;
    assert k.Some? && users[k.value] == Relay.User(id.username, id.public, true, Some(c)) by {
      hide Crypto.Lawful, Json.GetString, Json.Render, BinToHex, HexToBin;
    }
    assert users[k.value] in users;
    hide Crypto.Lawful, Json.GetString, Json.Render, BinToHex, HexToBin, AuthFields, Relay.IndexOf, Relay.SetOnline;
  }

  lemma SignatureRoundTrip(signature: Signature)
    ensures Json.GetString(Json.Render(AuthFields(signature)), "signature", 129) == Some(BinToHex(signature))
  {
    var fields := AuthFields(signature);
    HexIsPlain(signature, 129);
    assert AllPlain(fields) by { hide BinToHex; }
    MessageRoundTrip(fields, "signature", 129);
    ExtractTwo(fields[0], fields[1], "signature", 129);
    assert fields == [fields[0], fields[1]];
    hide Json.GetString, Json.Render, Extracted, BinToHex;
  }

  // ---------------------------------------------------------------- meeting

  /** The daemon that is asked begins a session in the responder's role, or none. */
  lemma RequestBegins(s: State, json: string, peer: Crypto.Identity, sid: string, env: Env)
    requires !s.chat.active
    requires Json.GetString(json, "from", 33) == Some(peer.username)
      && Json.GetString(json, "session_id", 33) == Some(sid)
    requires Json.GetString(json, "public_key", 65).Some?
      && HexToKey(Json.GetString(json, "public_key", 65).value) == Some(peer.public)
    ensures
      var t := HandleChatRequest(s, json, env);
      t.chat.active ==> Begun(t, peer, Crypto.Responder, Ascii(sid))
  {
    hide Json.GetString, Packet.UsernameIsValid, Verify, QueueBuilt, KeyedFields, BeginIce, HexToKey, Ascii, Books,
      Begun;
    var (s1, result) := Verify(s, peer.username, peer.public, env.io);
    VerifyKeepsChat(s, peer.username, peer.public, env.io);
    var fields := KeyedFields("chat_accept", s.id, peer.username, sid);
    QueueKeepsCore(Enter(s1, Requesting), fields, 512);
    var s2 := QueueBuilt(Enter(s1, Requesting), fields, 512).0;
    BeginsOrNot(s2, peer, sid, false, env);
  }

  lemma VerifyKeepsChat(s: State, name: string, key: Key, io: Contacts.Io)
    ensures Verify(s, name, key, io).0.chat == s.chat
  {
  }

  lemma BeginsOrNot(s: State, peer: Crypto.Identity, sid: string, controlling: bool, env: Env)
    ensures
      var (t, ok) := BeginIce(s, peer.username, sid, controlling, peer.public, env);
      && (ok ==> Begun(t, peer, if controlling then Crypto.Initiator else Crypto.Responder, Ascii(sid)))
      && (!ok ==> !t.chat.active)
  {
    if BeginIce(s, peer.username, sid, controlling, peer.public, env).1 {
      BeginIceIsBegun(s, peer.username, sid, controlling, peer, env);
      hide BeginIce;
    } else {
      FailedBegin(s, peer.username, sid, controlling, peer.public, env);
      hide BeginIce;
    }
  }

  lemma FailedBegin(s: State, name: string, sid: string, controlling: bool, key: Key, env: Env)
    requires !BeginIce(s, name, sid, controlling, key, env).1
    ensures !BeginIce(s, name, sid, controlling, key, env).0.chat.active
  {
    hide Fail, Clip;
    forall b: State, reason
      ensures !Fail(b, reason, env).chat.active
    {
      FailEndsSession(b, reason, env);
    }
  }

  lemma FailEndsSession(s: State, reason: Reason, env: Env)
    ensures !Fail(s, reason, env).chat.active
  {
  }

  /** The daemon that asked begins in the initiator's role, or not at all. */
  lemma AcceptBegins(s: State, json: string, peer: Crypto.Identity, sid: string, env: Env)
    requires !s.chat.active
    requires Json.GetString(json, "from", 33) == Some(peer.username)
      && Json.GetString(json, "session_id", 33) == Some(sid)
    requires Json.GetString(json, "public_key", 65).Some?
      && HexToKey(Json.GetString(json, "public_key", 65).value) == Some(peer.public)
    ensures
      var t := HandleChatAccept(s, json, env);
      t.chat.active ==> Begun(t, peer, Crypto.Initiator, Ascii(sid))
  {
    hide Json.GetString, Verify, QueueBuilt, PeerFields, BeginIce, HexToKey, Ascii, Books, Begun, Respond;
    var (s1, result) := Verify(s, peer.username, peer.public, env.io);
    VerifyKeepsChat(s, peer.username, peer.public, env.io);
    var fields := PeerFields("chat_cancel", s.id, peer.username, sid);
    QueueKeepsCore(s1, fields, 384);
    var q := QueueBuilt(s1, fields, 384).0;
    RespondKeepsCore(q, IdentityMismatch(peer.username));
    RespondKeepsCore(s1, CliError(ContactVerificationFailed));
    BeginsOrNot(s1, peer, sid, true, env);
    var s2 := BeginIce(s1, peer.username, sid, true, peer.public, env).0;
    RespondKeepsCore(s2, IceFailed(peer.username));
  }

  predicate Reserved(name: string) { name == "session_id" || name == "public_key" || name == "sdp" }

  /** A user's identity as a daemon has it. */
  ghost predicate Proper(sodium: Crypto.Sodium, id: Crypto.Identity) {
    && Packet.UsernameIsValid(id.username) && !Reserved(id.username)
    && id.public == sodium.signPublic(id.secret)
  }

  lemma ResponderBegins(sodium: Crypto.Sodium, b: State, a: Crypto.Identity, sid: string, env: Env)
    requires Good(sodium, b) && !b.chat.active && Proper(sodium, a) && Proper(sodium, b.id) && GoodId(sid)
    ensures
      var t := HandleSignal(sodium, b, "chat_request",
        Json.Render(KeyedFields("chat_request", a, b.id.username, sid)), env);
      Good(sodium, t) && t.id == b.id && (t.chat.active ==> Begun(t, a, Crypto.Responder, Ascii(sid)))
  {
    hide Good, Json.GetString, Json.Render, BinToHex, PeerFields, HandleSignal, HandleChatRequest,
      HandleChatAccept, Packet.UsernameIsValid,
      Ascii, Copies, Begun, HexToKey;
    var json := Json.Render(KeyedFields("chat_request", a, b.id.username, sid));
    KeyedRoundTrip(sodium, "chat_request", a, b.id, sid);
    RequestBegins(b, json, a, sid, env);
    SignalIsGood(sodium, b, "chat_request", json, env);
    SignalDispatch(sodium, b, json, env);
  }

  lemma InitiatorBegins(sodium: Crypto.Sodium, a: State, b: Crypto.Identity, sid: string, env: Env)
    requires Good(sodium, a) && !a.chat.active && Proper(sodium, a.id) && Proper(sodium, b) && GoodId(sid)
    ensures
      var t := HandleSignal(sodium, a, "chat_accept",
        Json.Render(KeyedFields("chat_accept", b, a.id.username, sid)), env);
      Good(sodium, t) && t.id == a.id && (t.chat.active ==> Begun(t, b, Crypto.Initiator, Ascii(sid)))
  {
    hide Good, Json.GetString, Json.Render, BinToHex, PeerFields, HandleSignal, HandleChatRequest,
      HandleChatAccept, Packet.UsernameIsValid,
      Ascii, Copies, Begun, HexToKey;
    var json := Json.Render(KeyedFields("chat_accept", b, a.id.username, sid));
    KeyedRoundTrip(sodium, "chat_accept", b, a.id, sid);
    AcceptBegins(a, json, b, sid, env);
    SignalIsGood(sodium, a, "chat_accept", json, env);
    SignalDispatch(sodium, a, json, env);
  }

  /** Requests and accepts between properly named users come through whole. */
  lemma KeyedRoundTrip(sodium: Crypto.Sodium, kind: string, from: Crypto.Identity, to: Crypto.Identity, sid: string)
    requires kind == "chat_request" || kind == "chat_accept"
    requires Proper(sodium, from) && Proper(sodium, to) && GoodId(sid)
    ensures
      var json := Json.Render(KeyedFields(kind, from, to.username, sid));
      && Json.GetString(json, "type", 32) == Some(kind)
      && Json.GetString(json, "from", 33) == Some(from.username) && Json.GetString(json, "to", 33) == Some(to.username)
      && Json.GetString(json, "session_id", 33) == Some(sid)
      && Json.GetString(json, "public_key", 65).Some?
      && HexToKey(Json.GetString(json, "public_key", 65).value) == Some(from.public)
  {
    assert KindOfPeer(kind);
    HexIsPlain(from.public, 65);
    hide Json.GetString, Json.Render, BinToHex, PeerFields, Packet.UsernameIsValid, Copies, HexToKey;
    RoutingRoundTrip(kind, from, to.username, sid, [("public_key", BinToHex(from.public))]);
    KeyRoundTrip(kind, from, to.username, sid);
  }

  /** One daemon handles the other's request and the other handles its accept: when both are then in a session, it is
      one and the same session, so everything proved about pairs of daemons holds from there on. */
  lemma MeetingIsFresh(sodium: Crypto.Sodium, a: State, b: State, sid: string, envA: Env, envB: Env)
    requires Good(sodium, a) && Good(sodium, b) && !a.chat.active && !b.chat.active
    requires Proper(sodium, a.id) && Proper(sodium, b.id) && GoodId(sid)
    ensures
      var request := Json.Render(KeyedFields("chat_request", a.id, b.id.username, sid));
      var accept := Json.Render(KeyedFields("chat_accept", b.id, a.id.username, sid));
      var p := Pair(HandleSignal(sodium, a, "chat_accept", accept, envA),
        HandleSignal(sodium, b, "chat_request", request, envB));
      p.a.chat.active && p.b.chat.active ==> Fresh(sodium, p, Ascii(sid))
  {
    hide Good, Json.Render, KeyedFields, HandleSignal, Ascii, Begun, Packet.UsernameIsValid;
    ResponderBegins(sodium, b, a.id, sid, envB);
    InitiatorBegins(sodium, a, b.id, sid, envA);
  }

  lemma SignalDispatch(sodium: Crypto.Sodium, s: State, json: string, env: Env)
    ensures HandleSignal(sodium, s, "chat_request", json, env) == HandleChatRequest(s, json, env)
    ensures HandleSignal(sodium, s, "chat_accept", json, env) == HandleChatAccept(s, json, env)
  {
  }
}
