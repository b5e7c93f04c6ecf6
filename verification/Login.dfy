/** Logging in: a daemon and the control server, each reading what the other wrote, from the first connection until the
    daemon is online. */
module Login {
  import opened Daemon
  import opened JsonRoundTrip
  import opened Octets
  import opened RelayDelivery
  import opened Signalling
  import Crypto
  import Json
  import Packet
  import Relay
  import RelayAuthenticity

  // ---------------------------------------------------------------- reading a message

  /** A message of the given type as both sides read it. */
  ghost predicate Says(json: string, kind: string) {
    |json| < MAX_JSON && CString(json) == json && Json.GetString(json, "type", 32) == Some(kind)
  }

  /** Text that is copied whole wherever it fits. */
  predicate Word(s: string) { forall i :: 0 <= i < |s| ==> s[i] >= ' ' && s[i] != '\\' && s[i] != '"' }

  lemma WordIsPlain(s: string)
    requires Word(s)
    ensures Plain(s) && '\0' !in s && forall size: nat :: |s| < size ==> Copies(s, size)
  {
  }

  predicate Words(fields: seq<Json.Field>) { forall i :: 0 <= i < |fields| ==> Word(fields[i].0) && Word(fields[i].1) }

  lemma WordsArePlain(fields: seq<Json.Field>)
    requires Words(fields)
    ensures AllPlain(fields) && NoNuls(fields)
  {
    forall i | 0 <= i < |fields|
      ensures Plain(fields[i].0) && Plain(fields[i].1) && '\0' !in fields[i].0 && '\0' !in fields[i].1
    {
      WordIsPlain(fields[i].0);
      WordIsPlain(fields[i].1);
    }
    hide Word, Plain;
  }

  lemma TypeIsWord()
    ensures Word("type")
  {
  }

  /** A built message has its type, and every other field can be read from it. */
  lemma BuiltSays(kind: string, rest: seq<Json.Field>, width: nat)
    requires Word(kind) && Words(rest) && |kind| <= 30
    requires forall i :: 0 <= i < |rest| ==> |rest[i].0| + |rest[i].1| <= width
    requires 40 <= width && (1 + |rest|) * (width + 6) + 2 < MAX_JSON
    ensures
      var fields := [("type", kind)] + rest;
      && AllPlain(fields) && Says(Json.Render(fields), kind)
      && |Json.Render(fields)| <= (1 + |rest|) * (width + 6) + 2
  {
    hide Word, Plain, NoNuls, AllPlain, Copies, Json.GetString, Json.Render;
    var fields := [("type", kind)] + rest;
    TypeIsWord();
    assert forall i :: 0 < i < |fields| ==> fields[i] == rest[i - 1];
    WordsArePlain(fields);
    WordIsPlain(kind);
    WordIsPlain("type");
    MessageIsText(fields);
    MessageFits(fields, width);
    MessageRoundTrip(fields, "type", 32);
  }

  lemma NameIsWord(name: string)
    requires Packet.UsernameIsValid(name)
    ensures Word(name) && 3 <= |name| <= 32 && Copies(name, 33)
  {
  }

  lemma HexIsWord(b: Bytes)
    ensures Word(BinToHex(b)) && |BinToHex(b)| == 2 * |b|
  {
  }

  lemma ServerReads(sodium: Crypto.Sodium, s: Relay.Server, c: Relay.Conn, json: string, kind: string, challenge: Key)
    requires c in s.sessions && Says(json, kind)
    ensures
      Relay.Step(sodium, s, Relay.Received(c, json, true, challenge))
      == if kind == "register" then Relay.HandleRegister(s, c, json)
         else if kind == "hello" then Relay.HandleHello(s, c, json, challenge)
         else if kind == "auth_response" then Relay.HandleAuthResponse(sodium, s, c, json)
         else Relay.HandleMessage(sodium, s, c, json, challenge)
  {
    hide Json.GetString, Relay.HandleRegister, Relay.HandleHello, Relay.HandleAuthResponse, Relay.HandleLookup,
      Relay.HandleForward, Relay.SendError, Relay.Supported;
  }

  lemma DaemonReads(sodium: Crypto.Sodium, s: State, json: string, kind: string, env: Env)
    requires Says(json, kind)
    ensures
      Step(sodium, s, ServerMessage(json, env))
      == if kind == "error" then HandleError(s, json)
         else if s.phase == Registering && kind == "register_ok" then
           QueueBuilt(s.(phase := Greeting), HelloFields(s.id), 128).0
         else if s.phase == Greeting && kind == "auth_challenge" then HandleChallenge(sodium, s, json)
         else if s.phase == Answering && kind == "auth_ok" then s.(challenge := None, phase := Online)
         else if kind == "user_status" then HandleUserStatus(s, json)
         else HandleSignal(sodium, s, kind, json, env)
  {
    hide Json.GetString, HandleError, HandleChallenge, HandleUserStatus, HandleSignal, QueueBuilt, HelloFields;
  }

  // ---------------------------------------------------------------- the messages

  lemma KindsAreWords()
    ensures Word("register") && Word("hello") && Word("auth_challenge") && Word("auth_response")
  {
  }

  lemma KeysAreWords()
    ensures Word("username") && Word("public_key") && Word("challenge") && Word("signature")
  {
  }

  lemma RepliesAreWords()
    ensures Word("register_ok") && Word("auth_ok") && Word("error") && Word("code")
  {
  }

  /** Registration reads back, except for a user who is called after the key field. */
  lemma RegisterReads(id: Crypto.Identity)
    requires Packet.UsernameIsValid(id.username)
    ensures
      var json := Json.Render(RegisterFields(id));
      && Says(json, "register") && |json| < 512
      && Json.GetString(json, "username", 33) == Some(id.username)
      && Json.GetString(json, "public_key", 65)
         == if id.username == "public_key" then None else Some(BinToHex(id.public))
  {
    hide Word, Plain, AllPlain, Copies, Json.GetString, Json.Render, BinToHex, Packet.UsernameIsValid, Says, Extracted;
    NameIsWord(id.username);
    HexIsWord(id.public);
    KindsAreWords();
    KeysAreWords();
    var a: Json.Field, b: Json.Field := ("username", id.username), ("public_key", BinToHex(id.public));
    var fields := RegisterFields(id);
    assert fields == [("type", "register")] + [a, b];
    BuiltSays("register", [a, b], 80);
    WordIsPlain("username");
    WordIsPlain("public_key");
    WordIsPlain(BinToHex(id.public));
    MessageRoundTrip(fields, "username", 33);
    MessageRoundTrip(fields, "public_key", 65);
    ExtractStep(("type", "register"), [a, b], "username", 33);
    ExtractStep(("type", "register"), [a, b], "public_key", 65);
    ExtractTwo(a, b, "username", 33);
    ExtractTwo(a, b, "public_key", 65);
  }

  /** What a message of two fields yields. */
  lemma TwoFields(kind: string, key: string, value: string, width: nat, size: nat)
    requires Word(kind) && Word(key) && Word(value) && |kind| <= 30 && kind != key && key != "type" && |value| < size
    requires key != ":" && key != "," && |key| <= 20 && |key| + |value| <= width && 40 <= width <= 200
    ensures
      var json := Json.Render([("type", kind), (key, value)]);
      Says(json, kind) && Json.GetString(json, key, size) == Some(value) && |json| <= 2 * (width + 6) + 2
  {
    hide Word, Plain, AllPlain, Copies, Json.GetString, Json.Render, Says, Extracted;
    var fields := [("type", kind), (key, value)];
    assert fields == [("type", kind)] + [(key, value)];
    BuiltSays(kind, [(key, value)], width);
    WordIsPlain(key);
    WordIsPlain(value);
    MessageRoundTrip(fields, key, size);
    ExtractTwo(("type", kind), (key, value), key, size);
  }

  lemma HelloReads(id: Crypto.Identity)
    requires Packet.UsernameIsValid(id.username)
    ensures
      var json := Json.Render(HelloFields(id));
      && Says(json, "hello") && |json| < 128 && Json.GetString(json, "username", 33) == Some(id.username)
  {
    hide Word, Copies, Json.GetString, Json.Render, Packet.UsernameIsValid, Says;
    NameIsWord(id.username);
    KindsAreWords();
    KeysAreWords();
    TwoFields("hello", "username", id.username, 40, 33);
  }

  lemma ChallengeReads(challenge: Key)
    ensures Says(Json.Render(Relay.ChallengeFields(challenge)), "auth_challenge")
    ensures |Json.Render(Relay.ChallengeFields(challenge))| < 192
  {
    hide Word, Json.GetString, Json.Render, BinToHex, Says;
    HexIsWord(challenge);
    KindsAreWords();
    KeysAreWords();
    TwoFields("auth_challenge", "challenge", BinToHex(challenge), 80, 65);
  }

  lemma AnswerReads(signature: Signature)
    ensures Says(Json.Render(AuthFields(signature)), "auth_response")
  {
    hide Word, Json.GetString, Json.Render, BinToHex, Says;
    HexIsWord(signature);
    KindsAreWords();
    KeysAreWords();
    TwoFields("auth_response", "signature", BinToHex(signature), 140, 129);
  }

  lemma BareReads(kind: string)
    requires Word(kind) && |kind| <= 30
    ensures Says(Json.Render([("type", kind)]), kind) && |Json.Render([("type", kind)])| < 100
  {
    hide Word, Json.GetString, Json.Render, Says;
    assert [("type", kind)] == [("type", kind)] + [];
    BuiltSays(kind, [], 40);
  }

  /** The code of an error message. */
  lemma ErrorReads(code: string)
    requires Word(code) && |code| <= 40
    ensures Says(ErrorText(code), "error") && Json.GetString(ErrorText(code), "code", 128) == Some(code)
    ensures |ErrorText(code)| < 256
  {
    hide Word, Json.GetString, Json.Render, Says;
    RepliesAreWords();
    TwoFields("error", "code", code, 44, 128);
  }

  // ---------------------------------------------------------------- each side's part

  /** The whole effect of a registration: the offered key is stored under the offered name, or the registry stays and
      the sender is told why. A user called after the key field cannot register, and a full registry refuses known
      users as well. */
  lemma RegistrationDecides(sodium: Crypto.Sodium, s: Relay.Server, c: Relay.Conn, id: Crypto.Identity, challenge: Key)
    requires c in s.sessions && Packet.UsernameIsValid(id.username)
    ensures
      var t := Relay.Step(sodium, s, Relay.Received(c, Json.Render(RegisterFields(id)), true, challenge));
      if id.username == "public_key" then t == Holding(s, c, ErrorText("bad_register"))
      else if |s.users| >= Relay.MAX_USERS then t == Holding(s, c, ErrorText("user registry full"))
      else if exists u :: u in s.users && u.name == id.username then
        t == Holding(s, c, ErrorText("user already exists"))
      else
        t == Holding(s, c, Json.Render([("type", "register_ok")])).(
          users := s.users + [Relay.User(id.username, id.public, false, None)])
  {
    hide Json.GetString, Json.Render, BinToHex, HexToBin, Packet.UsernameIsValid, ErrorText, Word, Relay.IndexOf;
    var json := Json.Render(RegisterFields(id));
    RegisterReads(id);
    ServerReads(sodium, s, c, json, "register", challenge);
    HexRoundTrip(id.public);
    HexIsWord(id.public);
    RepliesAreWords();
    BareReads("register_ok");
    ErrorIsTold(s, c, "bad_register");
    ErrorIsTold(s, c, "user registry full");
    ErrorIsTold(s, c, "user already exists");
    hide Relay.SendError, Relay.Step, RegisterFields;
  }

  /** A connected daemon offers its name and key. */
  lemma ConnectedRegisters(sodium: Crypto.Sodium, d: State)
    requires Packet.UsernameIsValid(d.id.username) && d.pending.None?
    ensures
      Step(sodium, d, Established)
      == d.(wsi := true, connected := true, phase := Registering, pending := Some(Json.Render(RegisterFields(d.id))))
  {
    hide Json.GetString, Json.Render, BinToHex, Packet.UsernameIsValid, RegisterFields;
    RegisterReads(d.id);
  }

  /** Either answer to a registration leads to the greeting. */
  lemma RegisteredGreets(sodium: Crypto.Sodium, d: State, reply: string, env: Env)
    requires Packet.UsernameIsValid(d.id.username) && d.pending.None? && d.phase == Registering
    requires reply == Json.Render([("type", "register_ok")]) || reply == ErrorText("user already exists")
    ensures
      Step(sodium, d, ServerMessage(reply, env))
      == d.(phase := Greeting, pending := Some(Json.Render(HelloFields(d.id))))
  {
    hide Json.GetString, Json.Render, BinToHex, Packet.UsernameIsValid, HelloFields, Word, ErrorText, Says;
    RepliesAreWords();
    HelloReads(d.id);
    assert |Json.Render(HelloFields(d.id))| < 128;
    if reply == ErrorText("user already exists") {
      KnownIsWord();
      ErrorReads("user already exists");
      DaemonReads(sodium, d, reply, "error", env);
    } else {
      BareReads("register_ok");
      DaemonReads(sodium, d, reply, "register_ok", env);
    }
    hide Step;
  }

  lemma KnownIsWord()
    ensures Word("user already exists")
  {
  }

  /** The whole effect of a hello, whatever it says: the user it names is challenged, or the sender is told why not. */
  lemma HelloDecides(sodium: Crypto.Sodium, s: Relay.Server, c: Relay.Conn, json: string, challenge: Key)
    requires c in s.sessions && Says(json, "hello")
    ensures
      var name := Json.GetString(json, "username", 33);
      var t := Relay.Step(sodium, s, Relay.Received(c, json, true, challenge));
      if name.None? || !Packet.UsernameIsValid(name.value) then t == Holding(s, c, ErrorText("bad_hello"))
      else if forall u :: u in s.users ==> u.name != name.value then t == Holding(s, c, ErrorText("unknown_user"))
      else
        t == s.(sessions := s.sessions[c := s.sessions[c].(
               username := name.value, challenge := challenge, hasChallenge := true, authenticated := false,
               issued := Some(challenge), proof := None, pending := Json.Render(Relay.ChallengeFields(challenge)))])
  {
    hide Json.GetString, Json.Render, BinToHex, Packet.UsernameIsValid, Relay.IndexOf, Relay.ChallengeFields, ErrorText,
      Says;
    ServerReads(sodium, s, c, json, "hello", challenge);
    ErrorIsTold(s, c, "bad_hello");
    ErrorIsTold(s, c, "unknown_user");
    ChallengeFits(challenge);
    hide Relay.Step, Relay.SendError;
  }

  lemma ChallengeFits(challenge: Key)
    ensures |Json.Render(Relay.ChallengeFields(challenge))| < 192
  {
    ChallengeReads(challenge);
    hide Json.Render, Relay.ChallengeFields;
  }

  /** An accepted hello names the connection, ends any authentication and puts the challenge into its buffer. */
  lemma GreetedIsChallenged(sodium: Crypto.Sodium, s: Relay.Server, c: Relay.Conn, id: Crypto.Identity, challenge: Key)
    requires c in s.sessions && Packet.UsernameIsValid(id.username)
    requires exists u :: u in s.users && u.name == id.username
    ensures
      Relay.Step(sodium, s, Relay.Received(c, Json.Render(HelloFields(id)), true, challenge))
      == s.(sessions := s.sessions[c := s.sessions[c].(
           username := id.username, challenge := challenge, hasChallenge := true, authenticated := false,
           issued := Some(challenge), proof := None, pending := Json.Render(Relay.ChallengeFields(challenge)))])
  {
    hide Json.GetString, Json.Render, BinToHex, Packet.UsernameIsValid, Relay.IndexOf, Relay.ChallengeFields,
      HelloFields;
    HelloReads(id);
    HelloDecides(sodium, s, c, Json.Render(HelloFields(id)), challenge);
    hide Relay.Step, Relay.SendError;
  }

  lemma ChallengedAnswers(sodium: Crypto.Sodium, d: State, challenge: Key, env: Env)
    requires d.pending.None? && d.phase == Greeting
    ensures
      Step(sodium, d, ServerMessage(Json.Render(Relay.ChallengeFields(challenge)), env))
      == d.(phase := Answering, challenge := Some(challenge),
            pending := Some(Json.Render(AuthFields(sodium.sign(challenge, d.id.secret)))))
  {
    hide Json.GetString, Json.Render, BinToHex, Relay.ChallengeFields, AuthFields, Step;
    var json := Json.Render(Relay.ChallengeFields(challenge));
    ChallengeReads(challenge);
    DaemonReads(sodium, d, json, "auth_challenge", env);
    ChallengeIsAnswered(sodium, d, challenge);
    AnswerFits(sodium.sign(challenge, d.id.secret));
    hide Says;
  }

  /** The server after the k-th user has answered the challenge of a connection. */
  function Authenticated(s: Relay.Server, c: Relay.Conn, k: nat, signature: Signature): Relay.Server
    requires c in s.sessions && k < |s.users|
  {
    var session := s.sessions[c];
    s.(users := s.users[k := s.users[k].(online := true, conn := Some(c))],
       sessions := s.sessions[c := session.(
         challenge := ZERO_KEY, hasChallenge := false, authenticated := true,
         proof := Some(Relay.Proof(session.challenge, signature)), pending := Json.Render([("type", "auth_ok")]))])
  }

  /** Whether an answer authenticates its connection depends on the signature alone: it must verify, over the challenge
      that this connection was sent, under the key registered for its user. Otherwise nothing changes and the sender is
      told. Without a challenge there is nothing to answer. */
  lemma AnswerDecides(
      sodium: Crypto.Sodium, s: Relay.Server, c: Relay.Conn, name: string, k: nat, signature: Signature)
    requires c in s.sessions && s.sessions[c].username == name != ""
    requires Relay.IndexOf(s.users, name, 0) == Some(k)
    ensures
      Relay.HandleAuthResponse(sodium, s, c, Json.Render(AuthFields(signature)))
      == if !s.sessions[c].hasChallenge then Holding(s, c, ErrorText("auth_not_started"))
         else if sodium.verify(signature, s.sessions[c].challenge, s.users[k].key) then
           Authenticated(s, c, k, signature)
         else Holding(s, c, ErrorText("authentication_failed"))
  {
    hide Json.GetString, Json.Render, BinToHex, HexToBin, AuthFields, Word, ErrorText;
    ErrorIsTold(s, c, "auth_not_started");
    ErrorIsTold(s, c, "authentication_failed");
    SignatureRoundTrip(signature);
    HexRoundTrip(signature);
    HexIsWord(signature);
    RepliesAreWords();
    BareReads("auth_ok");
    hide Relay.SendError, Relay.IndexOf;
  }

  /** The right signature authenticates the connection and puts its user online there, and changes nothing else. */
  lemma AnswerAuthenticates(
      sodium: Crypto.Sodium, s: Relay.Server, c: Relay.Conn, id: Crypto.Identity, k: nat, challenge: Key)
    requires Crypto.Lawful(sodium) && id.public == sodium.signPublic(id.secret) && id.username != ""
    requires c in s.sessions && s.sessions[c].hasChallenge && s.sessions[c].username == id.username
    requires Relay.IndexOf(s.users, id.username, 0) == Some(k) && s.users[k].key == id.public
    ensures
      var signature := sodium.sign(s.sessions[c].challenge, id.secret);
      Relay.Step(sodium, s, Relay.Received(c, Json.Render(AuthFields(signature)), true, challenge))
      == Authenticated(s, c, k, signature)
  {
    var signature := sodium.sign(s.sessions[c].challenge, id.secret);
    assert sodium.verify(signature, s.sessions[c].challenge, id.public);
    hide Json.GetString, Json.Render, AuthFields, Says, Relay.Step, Crypto.Lawful, Relay.IndexOf, Authenticated;
    AnswerReads(signature);
    ServerReads(sodium, s, c, Json.Render(AuthFields(signature)), "auth_response", challenge);
    AnswerDecides(sodium, s, c, id.username, k, signature);
    hide Relay.HandleAuthResponse;
  }

  lemma AcceptedIsOnline(sodium: Crypto.Sodium, d: State, env: Env)
    requires d.phase == Answering
    ensures
      Step(sodium, d, ServerMessage(Json.Render([("type", "auth_ok")]), env)) == d.(phase := Online, challenge := None)
  {
    hide Json.GetString, Json.Render, Word, Says;
    RepliesAreWords();
    BareReads("auth_ok");
    DaemonReads(sodium, d, Json.Render([("type", "auth_ok")]), "auth_ok", env);
    hide Step;
  }

  // ---------------------------------------------------------------- the exchange

  /** A server and a daemon at the two ends of a connection. */
  datatype Link = Link(server: Relay.Server, daemon: State)

  /** One round trip: the daemon's buffer is sent and handled, then the server's. */
  function RoundTrip(sodium: Crypto.Sodium, l: Link, c: Relay.Conn, challenge: Key, env: Env): Link {
    if l.daemon.pending.None? || c !in l.server.sessions then l
    else
      var server := Relay.Step(sodium, l.server, Relay.Received(c, l.daemon.pending.value, true, challenge));
      var daemon := Step(sodium, l.daemon, Writeable(true));
      if c !in server.sessions then Link(server, daemon)
      else
        Link(Relay.Step(sodium, server, Relay.Writable(c, true)),
             Step(sodium, daemon, ServerMessage(server.sessions[c].pending, env)))
  }

  /** Both sides learn of the connection, and three round trips follow: registration, greeting, answer. */
  function LogIn(sodium: Crypto.Sodium, server: Relay.Server, d: State, c: Relay.Conn, challenge: Key, env: Env): Link {
    Exchange(sodium, Relay.Step(sodium, server, Relay.Opened(c)), d, c, challenge, env)
  }

  function Exchange(
      sodium: Crypto.Sodium, server: Relay.Server, d: State, c: Relay.Conn, challenge: Key, env: Env): Link
  {
    var l := Link(server, Step(sodium, d, Established));
    var l1 := RoundTrip(sodium, l, c, challenge, env);
    var l2 := RoundTrip(sodium, l1, c, challenge, env);
    RoundTrip(sodium, l2, c, challenge, env)
  }

  /** The other connections and everybody's keys are as they were. */
  ghost predicate Undisturbed(s: Relay.Server, t: Relay.Server, c: Relay.Conn) {
    && t.sessions.Keys == s.sessions.Keys + {c} && RelayAuthenticity.KeepsKeys(s.users, t.users)
    && forall k :: k in s.sessions && k != c ==> t.sessions[k] == s.sessions[k]
  }

  lemma RoundTripIs(
      sodium: Crypto.Sodium, server: Relay.Server, d: State, c: Relay.Conn, challenge: Key, env: Env,
      after: Relay.Server, reply: string)
    requires d.pending.Some? && c in server.sessions && c in after.sessions && after.sessions[c].pending == reply
    requires Relay.Step(sodium, server, Relay.Received(c, d.pending.value, true, challenge)) == after
    ensures
      RoundTrip(sodium, Link(server, d), c, challenge, env)
      == Link(Holding(after, c, ""), Step(sodium, d.(pending := None), ServerMessage(reply, env)))
  {
    assert Step(sodium, d, Writeable(true)) == d.(pending := None);
    assert Relay.Step(sodium, after, Relay.Writable(c, true)) == Holding(after, c, "");
    hide Step, Relay.Step;
  }

  /** The registry after a registration that is accepted or already there. */
  ghost function Enlisted(users: seq<Relay.User>, id: Crypto.Identity): seq<Relay.User> {
    if exists u :: u in users && u.name == id.username then users
    else users + [Relay.User(id.username, id.public, false, None)]
  }

  lemma EnlistedHasUser(users: seq<Relay.User>, id: Crypto.Identity) returns (k: nat)
    requires forall u :: u in users && u.name == id.username ==> u.key == id.public
    ensures
      var after := Enlisted(users, id);
      && Relay.IndexOf(after, id.username, 0) == Some(k) && after[k].key == id.public && after[k].name == id.username
      && RelayAuthenticity.KeepsKeys(users, after)
  {
    var after := Enlisted(users, id);
    if !exists u :: u in users && u.name == id.username {
      assert after[|users|].name == id.username;
    }
    var r := Relay.IndexOf(after, id.username, 0);
    assert r.Some?;
    k := r.value;
    assert after[k] in after;
    hide Relay.IndexOf;
  }

  lemma FirstTrip(sodium: Crypto.Sodium, server: Relay.Server, d: State, c: Relay.Conn, challenge: Key, env: Env)
    requires Packet.UsernameIsValid(d.id.username) && d.id.username != "public_key"
    requires d.phase == Registering && d.pending == Some(Json.Render(RegisterFields(d.id)))
    requires c in server.sessions && |server.users| < Relay.MAX_USERS
    ensures
      RoundTrip(sodium, Link(server, d), c, challenge, env)
      == Link(Holding(server, c, "").(users := Enlisted(server.users, d.id)),
        d.(phase := Greeting, pending := Some(Json.Render(HelloFields(d.id)))))
  {
    hide Step, Relay.Step, Json.Render, Json.GetString, Packet.UsernameIsValid, RoundTrip, ErrorText, RegisterFields,
      HelloFields;
    var after := Relay.Step(sodium, server, Relay.Received(c, d.pending.value, true, challenge));
    RegistrationDecides(sodium, server, c, d.id, challenge);
    var reply := after.sessions[c].pending;
    RoundTripIs(sodium, server, d, c, challenge, env, after, reply);
    RegisteredGreets(sodium, d.(pending := None), reply, env);
  }

  /** A connection that has been challenged. */
  function Challenged(s: Relay.Server, c: Relay.Conn, name: string, challenge: Key): Relay.Server
    requires c in s.sessions
  {
    s.(sessions := s.sessions[c := s.sessions[c].(
      username := name, challenge := challenge, hasChallenge := true, authenticated := false,
      issued := Some(challenge), proof := None, pending := "")])
  }

  lemma SecondTrip(sodium: Crypto.Sodium, server: Relay.Server, d: State, c: Relay.Conn, challenge: Key, env: Env)
    requires Packet.UsernameIsValid(d.id.username) && c in server.sessions
    requires d.phase == Greeting && d.pending == Some(Json.Render(HelloFields(d.id)))
    requires exists u :: u in server.users && u.name == d.id.username
    ensures
      RoundTrip(sodium, Link(server, d), c, challenge, env)
      == Link(Challenged(server, c, d.id.username, challenge),
        d.(phase := Answering, challenge := Some(challenge),
           pending := Some(Json.Render(AuthFields(sodium.sign(challenge, d.id.secret))))))
  {
    hide Step, Relay.Step, Json.Render, Json.GetString, Packet.UsernameIsValid, RoundTrip, HelloFields, AuthFields,
      Relay.ChallengeFields;
    var after := Relay.Step(sodium, server, Relay.Received(c, d.pending.value, true, challenge));
    GreetedIsChallenged(sodium, server, c, d.id, challenge);
    RoundTripIs(sodium, server, d, c, challenge, env, after, after.sessions[c].pending);
    ChallengedAnswers(sodium, d.(pending := None), challenge, env);
  }

  lemma ThirdTrip(
      sodium: Crypto.Sodium, server: Relay.Server, d: State, c: Relay.Conn, k: nat, challenge: Key, env: Env)
    requires Crypto.Lawful(sodium) && d.id.public == sodium.signPublic(d.id.secret) && d.id.username != ""
    requires c in server.sessions && server.sessions[c].hasChallenge && server.sessions[c].username == d.id.username
    requires Relay.IndexOf(server.users, d.id.username, 0) == Some(k) && server.users[k].key == d.id.public
    requires d.phase == Answering
      && d.pending == Some(Json.Render(AuthFields(sodium.sign(server.sessions[c].challenge, d.id.secret))))
    ensures
      var signature := sodium.sign(server.sessions[c].challenge, d.id.secret);
      RoundTrip(sodium, Link(server, d), c, challenge, env)
      == Link(Holding(Authenticated(server, c, k, signature), c, ""),
        d.(phase := Online, challenge := None, pending := None))
  {
    hide Step, Relay.Step, Json.Render, Json.GetString, RoundTrip, AuthFields, Crypto.Lawful, Relay.IndexOf;
    var after := Relay.Step(sodium, server, Relay.Received(c, d.pending.value, true, challenge));
    AnswerAuthenticates(sodium, server, c, d.id, k, challenge);
    RoundTripIs(sodium, server, d, c, challenge, env, after, after.sessions[c].pending);
    AcceptedIsOnline(sodium, d.(pending := None), env);
  }

  /** From connecting to online: with room in the registry and no other key under its name, an honest daemon and the
      server bring each other there in three round trips, whatever either held before. Nobody else is touched. */
  lemma LoginCompletes(
      sodium: Crypto.Sodium, server: Relay.Server, d: State, c: Relay.Conn, challenge: Key, env: Env)
    requires Crypto.Lawful(sodium) && d.id.public == sodium.signPublic(d.id.secret)
    requires Packet.UsernameIsValid(d.id.username) && d.id.username != "public_key"
    requires d.pending.None? && |server.users| < Relay.MAX_USERS
    requires forall u :: u in server.users && u.name == d.id.username ==> u.key == d.id.public
    ensures
      var l := LogIn(sodium, server, d, c, challenge, env);
      && l.daemon == d.(wsi := true, connected := true, phase := Online, challenge := None)
      && IsOnline(l.server, c, d.id) && l.server.sessions[c].pending == ""
      && Undisturbed(server, l.server, c)
  {
    OpenedConnects(sodium, server, c);
    hide Step, Relay.Step, Exchange, Packet.UsernameIsValid, Crypto.Lawful, RelayAuthenticity.KeepsKeys;
    ExchangeCompletes(sodium, Relay.Step(sodium, server, Relay.Opened(c)), d, c, challenge, env);
  }

  /** A new connection is taken up, without any claim; everybody else stays. */
  lemma OpenedConnects(sodium: Crypto.Sodium, s: Relay.Server, c: Relay.Conn)
    ensures
      var t := Relay.Step(sodium, s, Relay.Opened(c));
      && t.users == s.users && t.sessions.Keys == s.sessions.Keys + {c}
      && forall k :: k in s.sessions && k != c ==> t.sessions[k] == s.sessions[k]
  {
  }

  lemma ExchangeCompletes(
      sodium: Crypto.Sodium, server: Relay.Server, d: State, c: Relay.Conn, challenge: Key, env: Env)
    requires Crypto.Lawful(sodium) && d.id.public == sodium.signPublic(d.id.secret)
    requires Packet.UsernameIsValid(d.id.username) && d.id.username != "public_key"
    requires d.pending.None? && c in server.sessions && |server.users| < Relay.MAX_USERS
    requires forall u :: u in server.users && u.name == d.id.username ==> u.key == d.id.public
    ensures
      var l := Exchange(sodium, server, d, c, challenge, env);
      && l.daemon == d.(wsi := true, connected := true, phase := Online, challenge := None)
      && IsOnline(l.server, c, d.id) && l.server.sessions[c].pending == ""
      && Undisturbed(server, l.server, c)
  {
    hide Step, Relay.Step, Json.Render, Json.GetString, Packet.UsernameIsValid, Crypto.Lawful, RoundTrip,
      RegisterFields, HelloFields, AuthFields, Relay.IndexOf, Enlisted, RelayAuthenticity.KeepsKeys;
    var k := EnlistedHasUser(server.users, d.id);
    NameIsWord(d.id.username);
    ConnectedRegisters(sodium, d);
    var d0 := Step(sodium, d, Established);
    FirstTrip(sodium, server, d0, c, challenge, env);
    var l1 := RoundTrip(sodium, Link(server, d0), c, challenge, env);
    assert l1.server.users[k] in l1.server.users;
    SecondTrip(sodium, l1.server, l1.daemon, c, challenge, env);
    var l2 := RoundTrip(sodium, l1, c, challenge, env);
    ThirdTrip(sodium, l2.server, l2.daemon, c, k, challenge, env);
    var l3 := RoundTrip(sodium, l2, c, challenge, env);
    OnlineKeepsKeys(server.users, l2.server.users, k, c);
    assert l3.server.users[k] in l3.server.users;
  }

  /** The user is online on this connection, which has proven it. */
  ghost predicate IsOnline(s: Relay.Server, c: Relay.Conn, id: Crypto.Identity) {
    && c in s.sessions && s.sessions[c].authenticated && s.sessions[c].username == id.username
    && Relay.User(id.username, id.public, true, Some(c)) in s.users
  }

  lemma OnlineKeepsKeys(before: seq<Relay.User>, users: seq<Relay.User>, k: nat, c: Relay.Conn)
    requires k < |users| && RelayAuthenticity.KeepsKeys(before, users)
    ensures RelayAuthenticity.KeepsKeys(before, users[k := users[k].(online := true, conn := Some(c))])
  {
  }
}
