/** The control server's objects: the registry's fixed array (server/users.c) and the message handlers
 (server/main.c). */
module RelayServer {
  import opened Octets
  import opened Relay
  import Crypto
  import Json
  import JsonCursor
  import Packet
  import PacketBuffer
  import RelayAuthenticity

  class Registry {
    const entries: array<User>
    var count: nat

    ghost predicate Valid()
      reads this
    {
      entries.Length == MAX_USERS && count <= MAX_USERS
    }

    ghost function Users(): (users: seq<User>)
      requires Valid()
      reads this, entries
      ensures |users| == count
    {
      entries[..count]
    }

    constructor ()
      ensures Valid() && fresh(entries) && Users() == []
    {
      entries := new User[MAX_USERS](_ => User("", ZERO_KEY, false, None));
      count := 0;
    }

    method Find(name: string) returns (found: Option<nat>)
      requires Valid()
      ensures found == IndexOf(Users(), name, 0)
    {
      for i := 0 to count
        invariant IndexOf(Users(), name, i) == IndexOf(Users(), name, 0)
      {
        if entries[i].name == name {
          return Some(i);
        }
      }
      found := None;
    }

    method Register(name: string, key: Key) returns (result: UsersResult)
      requires Valid()
      modifies this`count, entries
      ensures Valid() && (result, Users()) == RegisterUser(old(Users()), name, key)
    {
      var valid := PacketBuffer.CheckUsername(name);
      if !valid {
        return UsersInvalid;
      }
      if count >= MAX_USERS {
        return UsersFull;
      }
      var found := Find(name);
      if found.Some? {
        return UsersExists;
      }
      entries[count] := User(name, key, false, None);
      count := count + 1;
      assert entries[..count] == entries[..count - 1] + [entries[count - 1]];
      result := UsersOk;
    }

    method GoOnline(name: string, conn: Conn) returns (result: UsersResult)
      requires Valid()
      modifies entries
      ensures Valid() && (result, Users()) == SetOnline(old(Users()), name, conn)
    {
      var found := Find(name);
      if found.None? {
        return UsersNotFound;
      }
      entries[found.value] := entries[found.value].(online := true, conn := Some(conn));
      result := UsersOk;
    }

    /** Every entry that refers to the connection goes offline; the others stay as they are. */
    method GoOffline(conn: Conn)
      requires Valid()
      modifies entries
      ensures Valid() && Users() == SetOffline(old(Users()), conn)
    {
      ghost var was := entries[..];
      for i := 0 to count
        invariant forall j :: 0 <= j < i ==> entries[j] == Offline(was[j], conn)
        invariant forall j :: i <= j < count ==> entries[j] == was[j]
      {
        if entries[i].conn == Some(conn) {
          entries[i] := entries[i].(online := false, conn := None);
        }
      }
    }
  }

  class ChatServer {
    const registry: Registry
    var sessions: map<Conn, Connection>
    ghost var forwards: seq<Forward>
    ghost var dangling: bool

    ghost predicate Valid()
      reads this, registry
    {
      registry.Valid()
    }

    ghost function State(): Server
      requires Valid()
      reads this, registry, registry.entries
    {
      Server(registry.Users(), sessions, forwards, dangling)
    }

    constructor ()
      ensures Valid() && fresh(registry) && fresh(registry.entries) && State() == EMPTY
    {
      registry := new Registry();
      sessions, forwards, dangling := map[], [], false;
    }

    method Send(c: Conn, text: string)
      requires Valid() && c in sessions
      modifies this`sessions
      ensures Valid() && State() == SendJson(old(State()), c, text)
    {
      if |text| < MAX_JSON {
        sessions := sessions[c := sessions[c].(pending := text)];
      }
    }

    method Answer(c: Conn, text: string, size: nat)
      requires Valid() && c in sessions
      modifies this`sessions
      ensures Valid() && State() == Reply(old(State()), c, text, size)
    {
      if |text| < size {
        Send(c, text);
      }
    }

    method Refuse(c: Conn, code: string)
      requires Valid() && c in sessions
      modifies this`sessions
      ensures Valid() && State() == SendError(old(State()), c, code)
    {
      Answer(c, Json.Render([("type", "error"), ("code", code)]), 256);
    }

    method OnRegister(c: Conn, json: string)
      requires Valid() && c in sessions
      modifies this`sessions, registry`count, registry.entries
      ensures Valid() && State() == HandleRegister(old(State()), c, json)
    {
      hide Json.GetString, Json.Render, SendError, SendJson, RegisterUser, HexToKey, Packet.UsernameIsValid;
      var name := JsonCursor.ReadString(json, "username", 33);
      var hex := JsonCursor.ReadString(json, "public_key", 65);
      if name.None? || hex.None? || !Packet.UsernameIsValid(name.value) || HexToKey(hex.value).None? {
        Refuse(c, "bad_register");
        return;
      }
      var result := registry.Register(name.value, HexToKey(hex.value).value);
      if result != UsersOk {
        RefusedRegistration(old(registry.Users()), name.value, HexToKey(hex.value).value);
        Refuse(c, ResultName(result));
        return;
      }
      Send(c, Json.Render([("type", "register_ok")]));
    }

    method OnHello(c: Conn, json: string, challenge: Key)
      requires Valid() && c in sessions
      modifies this`sessions
      ensures Valid() && State() == HandleHello(old(State()), c, json, challenge)
    {
      hide Json.GetString, Json.Render, SendError, Reply, ChallengeFields, Packet.UsernameIsValid;
      var name := JsonCursor.ReadString(json, "username", 33);
      if name.None? || !Packet.UsernameIsValid(name.value) {
        Refuse(c, "bad_hello");
        return;
      }
      var found := registry.Find(name.value);
      if found.None? {
        Refuse(c, "unknown_user");
        return;
      }
      sessions := sessions[c := sessions[c].(
        username := name.value, challenge := challenge, hasChallenge := true, authenticated := false,
        issued := Some(challenge), proof := None)];
      Answer(c, Json.Render(ChallengeFields(challenge)), 192);
    }

    method OnAuthResponse(sodium: Crypto.Sodium, c: Conn, json: string)
      requires Valid() && c in sessions
      modifies this`sessions, registry.entries
      ensures Valid() && State() == HandleAuthResponse(sodium, old(State()), c, json)
    {
      hide Json.GetString, Json.Render, SendError, SendJson, HexToSignature, IndexOf;
      if !sessions[c].hasChallenge || sessions[c].username == "" {
        Refuse(c, "auth_not_started");
        return;
      }
      var hex := JsonCursor.ReadString(json, "signature", 129);
      if hex.None? || HexToSignature(hex.value).None? {
        Refuse(c, "bad_auth_response");
        return;
      }
      var signature := HexToSignature(hex.value).value;
      var found := registry.Find(sessions[c].username);
      if found.None? {
        Refuse(c, "unknown_user");
        return;
      }
      if !sodium.verify(signature, sessions[c].challenge, registry.entries[found.value].key) {
        Refuse(c, "authentication_failed");
        return;
      }
      sessions := sessions[c := sessions[c].(
        challenge := ZERO_KEY, hasChallenge := false, authenticated := true,
        proof := Some(Proof(sessions[c].challenge, signature)))];
      var result := registry.GoOnline(sessions[c].username, c);
      Send(c, Json.Render([("type", "auth_ok")]));
    }

    method OnForward(c: Conn, json: string, kind: string)
      requires Valid() && c in sessions
      modifies this`sessions, this`forwards, this`dangling
      ensures Valid() && State() == HandleForward(old(State()), c, json, kind)
    {
      hide Json.GetString, SendError, Packet.UsernameIsValid, Deliver, HexToKey, IndexOf;
      if !sessions[c].authenticated {
        Refuse(c, "authentication_required");
        return;
      }
      var from := JsonCursor.ReadString(json, "from", 33);
      var to := JsonCursor.ReadString(json, "to", 33);
      var id := JsonCursor.ReadString(json, "session_id", SESSION_ID_SIZE);
      if from.None? || to.None? || id.None? || !Packet.UsernameIsValid(from.value) || !Packet.UsernameIsValid(to.value)
         || id.value == "" {
        Refuse(c, "bad_signaling_message");
        return;
      }
      if from.value != sessions[c].username {
        Refuse(c, "from_mismatch");
        return;
      }
      var sender := registry.Find(from.value);
      if sender.None? {
        Refuse(c, "unknown_user");
        return;
      }
      if CarriesKey(kind) {
        var hex := JsonCursor.ReadString(json, "public_key", 65);
        if hex.None? || HexToKey(hex.value).None? {
          Refuse(c, "bad_public_key");
          return;
        }
        if HexToKey(hex.value).value != registry.entries[sender.value].key {
          Refuse(c, "public_key_mismatch");
          return;
        }
      }
      var target := registry.Find(to.value);
      if target.None? || !registry.entries[target.value].online || registry.entries[target.value].conn.None? {
        Refuse(c, "peer_offline");
        return;
      }
      Pass(c, kind, from.value, to.value, registry.entries[target.value].conn.value, json);
    }

    /** Hands a checked message to the target's connection unless one is still waiting there. */
    method Pass(c: Conn, kind: string, from: string, to: string, target: Conn, json: string)
      requires Valid() && c in sessions
      modifies this`sessions, this`forwards, this`dangling
      ensures Valid() && State() == Deliver(old(State()), c, kind, from, to, target, json)
    {
      hide SendError, Json.Render;
      if target !in sessions {
        dangling := true;
        return;
      }
      if sessions[target].pending != "" {
        Refuse(c, "peer_busy");
        return;
      }
      forwards := forwards + [Forward(c, kind, from, to, target, json, sessions[c].issued, sessions[c].proof)];
      Send(target, json);
    }

    method OnLookup(c: Conn, json: string)
      requires Valid() && c in sessions
      modifies this`sessions
      ensures Valid() && State() == HandleLookup(old(State()), c, json)
    {
      hide Json.GetString, SendError, Reply, UserStatus, Packet.UsernameIsValid;
      if !sessions[c].authenticated {
        Refuse(c, "authentication_required");
        return;
      }
      var name := JsonCursor.ReadString(json, "username", 33);
      if name.None? || !Packet.UsernameIsValid(name.value) {
        Refuse(c, "bad_lookup");
        return;
      }
      var found := registry.Find(name.value);
      if found.None? {
        Answer(c, UserStatus(None, name.value), 160);
      } else {
        Answer(c, UserStatus(Some(registry.entries[found.value]), name.value), 320);
      }
    }

    method OnMessage(sodium: Crypto.Sodium, c: Conn, json: string, challenge: Key)
      requires Valid() && c in sessions
      modifies this`sessions, this`forwards, this`dangling, registry`count, registry.entries
      ensures Valid() && State() == HandleMessage(sodium, old(State()), c, json, challenge)
    {
      hide Json.GetString, SendError, HandleRegister, HandleHello, HandleAuthResponse, HandleLookup, HandleForward;
      var kind := JsonCursor.ReadString(json, "type", 32);
      if kind.None? {
        Refuse(c, "missing_type");
      } else if kind.value == "register" {
        OnRegister(c, json);
      } else if kind.value == "hello" {
        OnHello(c, json, challenge);
      } else if kind.value == "auth_response" {
        OnAuthResponse(sodium, c, json);
      } else if kind.value == "user_lookup" {
        OnLookup(c, json);
      } else if Supported(kind.value) {
        OnForward(c, json, kind.value);
      } else {
        Refuse(c, "unknown_type");
      }
    }

    /** The websocket callback. */
    method OnEvent(sodium: Crypto.Sodium, e: Event)
      requires Valid()
      modifies this`sessions, this`forwards, this`dangling, registry`count, registry.entries
      ensures Valid() && State() == Step(sodium, old(State()), e)
      ensures RelayAuthenticity.Genuine(sodium, old(State())) ==> RelayAuthenticity.Genuine(sodium, State())
    {
      KeepsGenuine(sodium, State(), e);
      hide RelayAuthenticity.Genuine, SendError, HandleMessage;
      match e {
        case Opened(c) =>
          if c !in sessions {
            sessions := sessions[c := NEW_CONNECTION];
          }
        case Received(c, text, whole, challenge) =>
          if c in sessions {
            if |text| >= MAX_JSON || !whole {
              Refuse(c, "message_too_large_or_fragmented");
            } else {
              OnMessage(sodium, c, CString(text), challenge);
            }
          }
        case Writable(c, written) =>
          if c in sessions && written {
            sessions := sessions[c := sessions[c].(pending := "")];
          }
        case Closed(c) =>
          if c in sessions {
            if sessions[c].authenticated {
              registry.GoOffline(c);
            }
            sessions := sessions - {c};
          }
      }
    }
  }

  lemma KeepsGenuine(sodium: Crypto.Sodium, s: Server, e: Event)
    ensures RelayAuthenticity.Genuine(sodium, s) ==> RelayAuthenticity.Genuine(sodium, Step(sodium, s, e))
  {
    hide Step, RelayAuthenticity.Genuine;
    if RelayAuthenticity.Genuine(sodium, s) {
      RelayAuthenticity.StepKeeps(sodium, s, e);
    }
  }

  lemma RefusedRegistration(users: seq<User>, name: string, key: Key)
    ensures RegisterUser(users, name, key).0 != UsersOk ==> RegisterUser(users, name, key).1 == users
  {
  }
}
