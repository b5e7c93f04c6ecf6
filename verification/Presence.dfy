/** Presence: which connection the registry believes a user to be on. */
module Presence {
  import opened Octets
  import opened Relay
  import Crypto
  import Json
  import Packet

  /** An online entry refers to an open connection that is authenticated as that user. */
  ghost predicate EntryHolds(u: User, sessions: map<Conn, Connection>) {
    && (u.conn.Some? <==> u.online)
    && (u.online ==>
          && u.conn.value in sessions
          && sessions[u.conn.value].authenticated && sessions[u.conn.value].username == u.name)
  }

  ghost predicate Present(s: Server) { forall i :: 0 <= i < |s.users| ==> EntryHolds(s.users[i], s.sessions) }

  /** A connection that is being challenged is not authenticated. */
  ghost predicate Challenged(s: Server) {
    forall c :: c in s.sessions ==> !(s.sessions[c].hasChallenge && s.sessions[c].authenticated)
  }

  ghost predicate Refers(users: seq<User>, c: Conn) { exists i :: 0 <= i < |users| && users[i].conn == Some(c) }

  /** An accepted hello on a connection that some entry refers to. */
  ghost predicate Rehello(s: Server, e: Event) {
    && e.Received? && e.conn in s.sessions && |e.text| < MAX_JSON && e.whole
    && Json.GetString(CString(e.text), "type", 32) == Some("hello")
    && Greeted(s, CString(e.text)).Some?
    && Refers(s.users, e.conn)
  }

  ghost predicate Orderly(s: Server) { Present(s) && Challenged(s) && !s.dangling }

  // ---------------------------------------------------------------- replies change nothing that matters

  /** The same users, and the same connections up to what waits to be written. */
  ghost predicate SamePresence(s: Server, t: Server) {
    && t.users == s.users && t.dangling == s.dangling && t.sessions.Keys == s.sessions.Keys
    && forall c :: c in s.sessions ==>
         && t.sessions[c].authenticated == s.sessions[c].authenticated
         && t.sessions[c].username == s.sessions[c].username
         && t.sessions[c].hasChallenge == s.sessions[c].hasChallenge
  }

  lemma SamePresenceIsOrderly(s: Server, t: Server)
    requires Orderly(s) && SamePresence(s, t)
    ensures Orderly(t)
  {
  }

  lemma ReplyKeeps(s: Server, c: Conn, text: string, size: nat)
    requires c in s.sessions
    ensures SamePresence(s, SendJson(s, c, text)) && SamePresence(s, Reply(s, c, text, size))
  {
  }

  lemma ErrorKeeps(s: Server, c: Conn, code: string)
    requires c in s.sessions
    ensures SamePresence(s, SendError(s, c, code))
  {
  }

  lemma ErrorIsOrderly(s: Server, c: Conn, code: string)
    requires c in s.sessions && Orderly(s)
    ensures Orderly(SendError(s, c, code))
  {
  }

  lemma SentIsOrderly(s: Server, c: Conn, text: string, size: nat)
    requires c in s.sessions && Orderly(s)
    ensures Orderly(SendJson(s, c, text)) && Orderly(Reply(s, c, text, size))
  {
  }

  // ---------------------------------------------------------------- handlers

  lemma NewUserIsOrderly(s: Server, name: string, key: Key)
    requires Orderly(s)
    ensures Orderly(s.(users := s.users + [User(name, key, false, None)]))
  {
  }

  lemma RegisterIsOrderly(s: Server, c: Conn, json: string)
    requires c in s.sessions && Orderly(s)
    ensures Orderly(HandleRegister(s, c, json))
  {
    hide Json.GetString, Packet.UsernameIsValid, SendError, SendJson, HexToKey, Orderly, FindUser;
    var name := Json.GetString(json, "username", 33);
    var hex := Json.GetString(json, "public_key", 65);
    ErrorIsOrderly(s, c, "bad_register");
    if name.Some? && hex.Some? && HexToKey(hex.value).Some? {
      var (result, users) := RegisterUser(s.users, name.value, HexToKey(hex.value).value);
      ErrorIsOrderly(s, c, ResultName(result));
      if result == UsersOk {
        NewUserIsOrderly(s, name.value, HexToKey(hex.value).value);
        SentIsOrderly(s.(users := users), c, Json.Render([("type", "register_ok")]), 0);
      }
    }
  }

  /** A hello on a connection that no entry refers to. */
  lemma GreetingIsOrderly(s: Server, c: Conn, session: Connection)
    requires Orderly(s) && !Refers(s.users, c) && !session.authenticated
    ensures Orderly(Update(s, c, session))
  {
  }

  /** A hello on a connection that an entry refers to. */
  lemma GreetingBreaksPresence(s: Server, c: Conn, session: Connection)
    requires Present(s) && Refers(s.users, c) && !session.authenticated
    ensures !Present(Update(s, c, session))
  {
  }

  lemma PresenceIsStable(s: Server, t: Server)
    requires SamePresence(s, t)
    ensures Present(s) <==> Present(t)
  {
  }

  lemma HelloDecides(s: Server, c: Conn, json: string, challenge: Key)
    requires c in s.sessions && Orderly(s)
    ensures
      var t := HandleHello(s, c, json, challenge);
      var breaks := Greeted(s, json).Some? && Refers(s.users, c);
      (!breaks ==> Orderly(t)) && (breaks ==> !Present(t))
  {
    hide Json.GetString, Packet.UsernameIsValid, SendError, Reply, FindUser, Orderly, ChallengeFields, Present,
      Refers, SamePresence;
    var name := Json.GetString(json, "username", 33);
    ErrorIsOrderly(s, c, "bad_hello");
    ErrorIsOrderly(s, c, "unknown_user");
    if Greeted(s, json).Some? {
      var session := s.sessions[c].(
        username := name.value, challenge := challenge, hasChallenge := true, authenticated := false,
        issued := Some(challenge), proof := None);
      var u := Update(s, c, session);
      var text := Json.Render(ChallengeFields(challenge));
      if Refers(s.users, c) {
        assert Present(s) by { OrderlyFacts(s); }
        GreetingBreaksPresence(s, c, session);
        ReplyKeeps(u, c, text, 192);
        PresenceIsStable(u, Reply(u, c, text, 192));
      } else {
        GreetingIsOrderly(s, c, session);
        SentIsOrderly(u, c, text, 192);
      }
    }
  }

  lemma OrderlyFacts(s: Server)
    requires Orderly(s)
    ensures Present(s) && Challenged(s) && !s.dangling
  {
  }

  /** A challenged connection is referred to by no entry, so coming online makes exactly one entry refer to it. */
  lemma OnlineIsOrderly(s: Server, c: Conn, session: Connection)
    requires Orderly(s) && c in s.sessions && s.sessions[c].hasChallenge
    requires session.authenticated && !session.hasChallenge && session.username == s.sessions[c].username
    requires FindUser(s.users, session.username).Some?
    ensures Orderly(Update(s.(users := SetOnline(s.users, session.username, c).1), c, session))
  {
  }

  lemma AuthIsOrderly(sodium: Crypto.Sodium, s: Server, c: Conn, json: string)
    requires c in s.sessions && Orderly(s)
    ensures Orderly(HandleAuthResponse(sodium, s, c, json))
  {
    hide Json.GetString, SendError, SendJson, HexToSignature, Orderly, FindUser, SetOnline;
    var session := s.sessions[c];
    var hex := Json.GetString(json, "signature", 129);
    ErrorIsOrderly(s, c, "auth_not_started");
    ErrorIsOrderly(s, c, "bad_auth_response");
    ErrorIsOrderly(s, c, "unknown_user");
    ErrorIsOrderly(s, c, "authentication_failed");
    var user := FindUser(s.users, session.username);
    if session.hasChallenge && hex.Some? && HexToSignature(hex.value).Some? && user.Some? {
      var signature := HexToSignature(hex.value).value;
      var proven := session.(
        challenge := ZERO_KEY, hasChallenge := false, authenticated := true,
        proof := Some(Proof(session.challenge, signature)));
      OnlineIsOrderly(s, c, proven);
      var users := SetOnline(s.users, session.username, c).1;
      SentIsOrderly(Update(s.(users := users), c, proven), c, Json.Render([("type", "auth_ok")]), 0);
    }
  }

  /** Messages go to open connections only. */
  lemma DeliverIsOrderly(s: Server, c: Conn, kind: string, from: string, to: string, target: Conn, json: string)
    requires c in s.sessions && Orderly(s) && target in s.sessions
    ensures Orderly(Deliver(s, c, kind, from, to, target, json))
  {
  }

  lemma ForwardIsOrderly(s: Server, c: Conn, json: string, kind: string)
    requires c in s.sessions && Orderly(s)
    ensures Orderly(HandleForward(s, c, json, kind))
  {
    hide Json.GetString, SendError, Packet.UsernameIsValid, Deliver, ClaimedKey, FindUser, EntryHolds;
    var to := Json.GetString(json, "to", 33);
    ErrorIsOrderly(s, c, "authentication_required");
    ErrorIsOrderly(s, c, "bad_signaling_message");
    ErrorIsOrderly(s, c, "from_mismatch");
    ErrorIsOrderly(s, c, "unknown_user");
    ErrorIsOrderly(s, c, "bad_public_key");
    ErrorIsOrderly(s, c, "public_key_mismatch");
    ErrorIsOrderly(s, c, "peer_offline");
    if to.Some? && FindUser(s.users, to.value).Some? {
      var target := FindUser(s.users, to.value).value;
      if target.online && target.conn.Some? {
        assert EntryHolds(target, s.sessions);
        EntryIsOpen(target, s.sessions);
        var from := Json.GetString(json, "from", 33);
        if from.Some? {
          DeliverIsOrderly(s, c, kind, from.value, to.value, target.conn.value, json);
        }
      }
    }
    hide Orderly;
  }

  lemma EntryIsOpen(u: User, sessions: map<Conn, Connection>)
    requires EntryHolds(u, sessions) && u.online
    ensures u.conn.Some? && u.conn.value in sessions
  {
  }

  lemma LookupIsOrderly(s: Server, c: Conn, json: string)
    requires c in s.sessions && Orderly(s)
    ensures Orderly(HandleLookup(s, c, json))
  {
    hide Json.GetString, SendError, Reply, Packet.UsernameIsValid, UserStatus, FindUser, Orderly;
    ErrorIsOrderly(s, c, "authentication_required");
    ErrorIsOrderly(s, c, "bad_lookup");
    var name := Json.GetString(json, "username", 33);
    if name.Some? {
      var user := FindUser(s.users, name.value);
      SentIsOrderly(s, c, UserStatus(user, name.value), if user.None? then 160 else 320);
    }
  }

  lemma MessageDecides(sodium: Crypto.Sodium, s: Server, c: Conn, json: string, challenge: Key)
    requires c in s.sessions && Orderly(s)
    ensures
      var t := HandleMessage(sodium, s, c, json, challenge);
      var breaks := Json.GetString(json, "type", 32) == Some("hello") && Greeted(s, json).Some? && Refers(s.users, c);
      (!breaks ==> Orderly(t)) && (breaks ==> !Present(t))
  {
    hide Orderly, Present, Refers, Greeted, Json.GetString, SendError, HandleRegister, HandleHello,
      HandleAuthResponse, HandleLookup,
      HandleForward, Supported;
    ErrorIsOrderly(s, c, "missing_type");
    ErrorIsOrderly(s, c, "unknown_type");
    var kind := Json.GetString(json, "type", 32);
    if kind.Some? {
      RegisterIsOrderly(s, c, json);
      HelloDecides(s, c, json, challenge);
      AuthIsOrderly(sodium, s, c, json);
      LookupIsOrderly(s, c, json);
      ForwardIsOrderly(s, c, json, kind.value);
    }
  }

  /** A connection that closes takes exactly its own entry offline. */
  lemma CloseIsOrderly(sodium: Crypto.Sodium, s: Server, c: Conn)
    requires c in s.sessions && Orderly(s)
    ensures Orderly(Step(sodium, s, Closed(c)))
  {
  }

  lemma OpenIsOrderly(s: Server, c: Conn)
    requires c !in s.sessions && Orderly(s)
    ensures Orderly(Update(s, c, NEW_CONNECTION))
  {
  }

  lemma StepDecides(sodium: Crypto.Sodium, s: Server, e: Event)
    requires Orderly(s)
    ensures
      var t := Step(sodium, s, e);
      (!Rehello(s, e) ==> Orderly(t)) && (Rehello(s, e) ==> !Present(t))
  {
    match e
    case Opened(c) =>
      hide Orderly;
      if c !in s.sessions {
        OpenIsOrderly(s, c);
      }
    case Received(c, text, whole, challenge) =>
      hide Orderly, Present, HandleMessage, SendError, Refers, Greeted, Json.GetString;
      if c in s.sessions {
        ErrorIsOrderly(s, c, "message_too_large_or_fragmented");
        MessageDecides(sodium, s, c, CString(text), challenge);
      }
    case Writable(c, written) =>
      if c in s.sessions {
        var t := Update(s, c, s.sessions[c].(pending := ""));
        assert SamePresence(s, t);
        SamePresenceIsOrderly(s, t);
      }
      hide Orderly;
    case Closed(c) =>
      hide Orderly;
      if c in s.sessions {
        CloseIsOrderly(sodium, s, c);
      }
  }

  // ---------------------------------------------------------------- every run

  /** Every event of the run finds its connection either unreferred to or not greeting again. */
  ghost predicate NeverRegreets(sodium: Crypto.Sodium, events: seq<Event>) {
    events == [] ||
    (var before := events[..|events| - 1];
     NeverRegreets(sodium, before) && !Rehello(Run(sodium, before), events[|events| - 1]))
  }

  /** Presence soundness: as long as no referred-to connection greets again, every online entry refers to a still open
      connection that is authenticated as its user, and nothing is ever sent to a connection that is gone. */
  lemma {:induction false} EveryRunIsOrderly(sodium: Crypto.Sodium, events: seq<Event>)
    requires NeverRegreets(sodium, events)
    ensures Orderly(Run(sodium, events))
  {
    if events != [] {
      EveryRunIsOrderly(sodium, events[..|events| - 1]);
      StepDecides(sodium, Run(sodium, events[..|events| - 1]), events[|events| - 1]);
      hide Orderly, Step, Rehello;
    }
  }

  /** ... and it is the only way to lose it: the first event that greets again on such a connection always does. */
  lemma PresenceIsLostExactlyByGreetingAgain(sodium: Crypto.Sodium, events: seq<Event>, e: Event)
    requires NeverRegreets(sodium, events)
    ensures Present(Step(sodium, Run(sodium, events), e)) <==> !Rehello(Run(sodium, events), e)
  {
    EveryRunIsOrderly(sodium, events);
    StepDecides(sodium, Run(sodium, events), e);
    OrderlyImplies(Step(sodium, Run(sodium, events), e));
    hide Orderly, Step, Rehello, Present, Run;
  }

  lemma OrderlyImplies(s: Server)
    ensures Orderly(s) ==> Present(s)
  {
  }

  /** Once a referred-to connection has greeted again and closes, the entry stays online with nobody behind it. */
  lemma StaleEntryRemains(sodium: Crypto.Sodium, s: Server, c: Conn, json: string, challenge: Key, i: nat)
    requires c in s.sessions && i < |s.users| && s.users[i].online && s.users[i].conn == Some(c)
      && Greeted(s, json).Some?
    ensures
      var t := Step(sodium, HandleHello(s, c, json, challenge), Closed(c));
      i < |t.users| && t.users[i] == s.users[i] && t.users[i].online && c !in t.sessions
  {
  }
}
