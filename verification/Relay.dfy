/**
 The control server (server/main.c, server/users.c): registration, challenge and response, and verified forwarding.

 A connection is the pair of a websocket and its session record. `issued`, `proof`, `forwards` and `dangling` are
 records that no branch reads: the challenge of a connection's last accepted hello, the signature that answered it,
 what was forwarded, and whether a message was ever sent to a connection that is gone.
 */
module Relay {
  import opened Octets
  import opened Json
  import Crypto
  import Packet

  const MAX_USERS := 256
  const MAX_JSON := 4096
  const SESSION_ID_SIZE := 128

  type Conn = nat

  datatype User = User(name: string, key: Key, online: bool, conn: Option<Conn>)

  datatype Proof = Proof(challenge: Key, signature: Signature)

  datatype Connection = Connection(
    username: string, challenge: Key, hasChallenge: bool, authenticated: bool, pending: string,
    issued: Option<Key>, proof: Option<Proof>)

  const NEW_CONNECTION := Connection("", ZERO_KEY, false, false, "", None, None)

  datatype Forward = Forward(
    source: Conn, kind: string, from: string, to: string, target: Conn, json: string,
    issued: Option<Key>, proof: Option<Proof>)

  datatype Server = Server(users: seq<User>, sessions: map<Conn, Connection>, forwards: seq<Forward>, dangling: bool)

  const EMPTY := Server([], map[], [], false)

  // ---------------------------------------------------------------- the registry

  datatype UsersResult = UsersOk | UsersInvalid | UsersFull | UsersExists | UsersNotFound

  function ResultName(r: UsersResult): string {
    match r
    case UsersOk => "ok"
    case UsersInvalid => "invalid user"
    case UsersFull => "user registry full"
    case UsersExists => "user already exists"
    case UsersNotFound => "user not found"
  }

  /** The first entry for a name at or after `i`. */
  function IndexOf(users: seq<User>, name: string, i: nat): (r: Option<nat>)
    requires i <= |users|
    ensures r.Some? ==> i <= r.value < |users| && users[r.value].name == name
    ensures r.Some? ==> forall j :: i <= j < r.value ==> users[j].name != name
    ensures r.None? ==> forall j :: i <= j < |users| ==> users[j].name != name
    decreases |users| - i
  {
    if i == |users| then None else if users[i].name == name then Some(i) else IndexOf(users, name, i + 1)
  }

  function FindUser(users: seq<User>, name: string): (r: Option<User>)
    ensures r.Some? ==> r.value in users && r.value.name == name
    ensures r.None? <==> forall u :: u in users ==> u.name != name
  {
    var i := IndexOf(users, name, 0);
    if i.None? then None else Some(users[i.value])
  }

  function RegisterUser(users: seq<User>, name: string, key: Key): (UsersResult, seq<User>) {
    if !Packet.UsernameIsValid(name) then (UsersInvalid, users)
    else if |users| >= MAX_USERS then (UsersFull, users)
    else if FindUser(users, name).Some? then (UsersExists, users)
    else (UsersOk, users + [User(name, key, false, None)])
  }

  function SetOnline(users: seq<User>, name: string, conn: Conn): (UsersResult, seq<User>) {
    match IndexOf(users, name, 0)
    case None => (UsersNotFound, users)
    case Some(i) => (UsersOk, users[i := users[i].(online := true, conn := Some(conn))])
  }

  function Offline(u: User, conn: Conn): User {
    if u.conn == Some(conn) then u.(online := false, conn := None) else u
  }

  function SetOffline(users: seq<User>, conn: Conn): (r: seq<User>)
    ensures |r| == |users| && forall i :: 0 <= i < |users| ==> r[i].name == users[i].name && r[i].key == users[i].key
    ensures forall i :: 0 <= i < |users| ==> r[i].conn != Some(conn)
    ensures forall i :: 0 <= i < |users| ==> r[i] == users[i] || (users[i].conn == Some(conn) && !r[i].online)
  {
    seq(|users|, i requires 0 <= i < |users| => Offline(users[i], conn))
  }

  // ---------------------------------------------------------------- replies

  function Update(s: Server, c: Conn, session: Connection): Server { s.(sessions := s.sessions[c := session]) }

  function SendJson(s: Server, c: Conn, text: string): Server
    requires c in s.sessions
  {
    if |text| >= MAX_JSON then s else Update(s, c, s.sessions[c].(pending := text))
  }

  /** A reply built in a buffer of `size` bytes. */
  function Reply(s: Server, c: Conn, text: string, size: nat): Server
    requires c in s.sessions
  {
    if |text| >= size then s else SendJson(s, c, text)
  }

  function SendError(s: Server, c: Conn, code: string): Server
    requires c in s.sessions
  {
    Reply(s, c, Render([("type", "error"), ("code", code)]), 256)
  }

  // ---------------------------------------------------------------- handlers

  function HandleRegister(s: Server, c: Conn, json: string): Server
    requires c in s.sessions
  {
    var name := GetString(json, "username", 33);
    var hex := GetString(json, "public_key", 65);
    if name.None? || hex.None? || !Packet.UsernameIsValid(name.value) || HexToKey(hex.value).None? then
      SendError(s, c, "bad_register")
    else
      var (result, users) := RegisterUser(s.users, name.value, HexToKey(hex.value).value);
      if result != UsersOk then SendError(s, c, ResultName(result))
      else SendJson(s.(users := users), c, Render([("type", "register_ok")]))
  }

  function ChallengeFields(challenge: Key): seq<Field> {
    [("type", "auth_challenge"), ("challenge", BinToHex(challenge))]
  }

  /** The user that a hello names, when it is accepted. */
  function Greeted(s: Server, json: string): Option<string> {
    match GetString(json, "username", 33)
    case None => None
    case Some(name) => if Packet.UsernameIsValid(name) && FindUser(s.users, name).Some? then Some(name) else None
  }

  function HandleHello(s: Server, c: Conn, json: string, challenge: Key): Server
    requires c in s.sessions
  {
    var name := GetString(json, "username", 33);
    if name.None? || !Packet.UsernameIsValid(name.value) then SendError(s, c, "bad_hello")
    else if FindUser(s.users, name.value).None? then SendError(s, c, "unknown_user")
    else
      var session := s.sessions[c].(
        username := name.value, challenge := challenge, hasChallenge := true, authenticated := false,
        issued := Some(challenge), proof := None);
      Reply(Update(s, c, session), c, Render(ChallengeFields(challenge)), 192)
  }

  /** Decoding a detached signature. */
  function HexToSignature(s: string): (r: Option<Signature>)
    ensures r.Some? <==> HexToBin(s).Some? && |s| == 128
    ensures r.Some? ==> r.value == HexToBin(s).value
  {
    match HexToBin(s)
    case Some(b) => if |b| == 64 then Some(b) else None
    case None => None
  }

  function HandleAuthResponse(sodium: Crypto.Sodium, s: Server, c: Conn, json: string): Server
    requires c in s.sessions
  {
    var session := s.sessions[c];
    var hex := GetString(json, "signature", 129);
    if !session.hasChallenge || session.username == "" then SendError(s, c, "auth_not_started")
    else if hex.None? || HexToSignature(hex.value).None? then SendError(s, c, "bad_auth_response")
    else
      var signature := HexToSignature(hex.value).value;
      match FindUser(s.users, session.username)
      case None => SendError(s, c, "unknown_user")
      case Some(user) =>
        if !sodium.verify(signature, session.challenge, user.key) then SendError(s, c, "authentication_failed")
        else
          var proven := session.(
            challenge := ZERO_KEY, hasChallenge := false, authenticated := true,
            proof := Some(Proof(session.challenge, signature)));
          // The entry was found above, so going online cannot fail.
          var users := SetOnline(s.users, session.username, c).1;
          SendJson(Update(s.(users := users), c, proven), c, Render([("type", "auth_ok")]))
  }

  predicate Supported(kind: string) {
    kind in ["chat_request", "chat_accept", "chat_reject", "ice_credentials", "ice_candidate", "ice_done",
             "ice_gathering_done", "chat_end", "chat_cancel"]
  }

  predicate CarriesKey(kind: string) { kind == "chat_request" || kind == "chat_accept" }

  /** The key that a signalling message claims for its sender. */
  function ClaimedKey(json: string): Option<Key> {
    match GetString(json, "public_key", 65)
    case None => None
    case Some(hex) => HexToKey(hex)
  }

  function HandleForward(s: Server, c: Conn, json: string, kind: string): Server
    requires c in s.sessions
  {
    var from := GetString(json, "from", 33);
    var to := GetString(json, "to", 33);
    var id := GetString(json, "session_id", SESSION_ID_SIZE);
    if !s.sessions[c].authenticated then SendError(s, c, "authentication_required")
    else if from.None? || to.None? || id.None? || !Packet.UsernameIsValid(from.value)
      || !Packet.UsernameIsValid(to.value)
            || id.value == "" then SendError(s, c, "bad_signaling_message")
    else if from.value != s.sessions[c].username then SendError(s, c, "from_mismatch")
    else
      match FindUser(s.users, from.value)
      case None => SendError(s, c, "unknown_user")
      case Some(sender) =>
        if CarriesKey(kind) && ClaimedKey(json).None? then SendError(s, c, "bad_public_key")
        else if CarriesKey(kind) && ClaimedKey(json).value != sender.key then SendError(s, c, "public_key_mismatch")
        else
          match FindUser(s.users, to.value)
          case None => SendError(s, c, "peer_offline")
          case Some(target) =>
            if !target.online || target.conn.None? then SendError(s, c, "peer_offline")
            else Deliver(s, c, kind, from.value, to.value, target.conn.value, json)
  }

  /** Puts a checked message into the target's buffer. */
  function Deliver(s: Server, c: Conn, kind: string, from: string, to: string, target: Conn, json: string): Server
    requires c in s.sessions
  {
    if target !in s.sessions then s.(dangling := true)
    else if s.sessions[target].pending != "" then SendError(s, c, "peer_busy")
    else
      SendJson(s, target, json).(
        forwards := s.forwards + [Forward(c, kind, from, to, target, json, s.sessions[c].issued, s.sessions[c].proof)])
  }

  function Flag(key: string, value: bool): string { Quoted(key) + ":" + (if value then "true" else "false") }

  /** What a status says after the name. */
  function StatusFlags(user: Option<User>): string {
    "," + (Flag("known", user.Some?) + ("," + (Flag("online", user.Some? && user.value.online)
      + if user.None? then "}" else "," + RenderField(("public_key", BinToHex(user.value.key))) + "}")))
  }

  function UserStatus(user: Option<User>, name: string): string {
    "{" + (RenderField(("type", "user_status")) + ("," + (RenderField(("username", name)) + StatusFlags(user))))
  }

  function HandleLookup(s: Server, c: Conn, json: string): Server
    requires c in s.sessions
  {
    var name := GetString(json, "username", 33);
    if !s.sessions[c].authenticated then SendError(s, c, "authentication_required")
    else if name.None? || !Packet.UsernameIsValid(name.value) then SendError(s, c, "bad_lookup")
    else
      var user := FindUser(s.users, name.value);
      Reply(s, c, UserStatus(user, name.value), if user.None? then 160 else 320)
  }

  function HandleMessage(sodium: Crypto.Sodium, s: Server, c: Conn, json: string, challenge: Key): Server
    requires c in s.sessions
  {
    match GetString(json, "type", 32)
    case None => SendError(s, c, "missing_type")
    case Some(kind) =>
      if kind == "register" then HandleRegister(s, c, json)
      else if kind == "hello" then HandleHello(s, c, json, challenge)
      else if kind == "auth_response" then HandleAuthResponse(sodium, s, c, json)
      else if kind == "user_lookup" then HandleLookup(s, c, json)
      else if Supported(kind) then HandleForward(s, c, json, kind)
      else SendError(s, c, "unknown_type")
  }

  // ---------------------------------------------------------------- events and runs

  /** What the websocket library reports. `challenge` is what the random generator would return now. */
  datatype Event =
    | Opened(conn: Conn)
    | Received(conn: Conn, text: string, whole: bool, challenge: Key)
    | Writable(conn: Conn, written: bool)
    | Closed(conn: Conn)

  function Step(sodium: Crypto.Sodium, s: Server, e: Event): Server {
    if e.Opened? then if e.conn in s.sessions then s else Update(s, e.conn, NEW_CONNECTION)
    else if e.conn !in s.sessions then s
    else
      match e
      case Received(c, text, whole, challenge) =>
        if |text| >= MAX_JSON || !whole then SendError(s, c, "message_too_large_or_fragmented")
        else HandleMessage(sodium, s, c, CString(text), challenge)
      case Writable(c, written) => if written then Update(s, c, s.sessions[c].(pending := "")) else s
      case Closed(c) =>
        s.(users := if s.sessions[c].authenticated then SetOffline(s.users, c)
          else s.users, sessions := s.sessions - {c})
  }

  function Run(sodium: Crypto.Sodium, events: seq<Event>): Server {
    if events == [] then EMPTY
    else Step(sodium, Run(sodium, events[..|events| - 1]), events[|events| - 1])
  }
}
