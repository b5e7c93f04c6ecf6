/** What the control server guarantees in every run, and what the receiving daemon can conclude from a forwarded
 message. */
module RelayAuthenticity {
  import opened Octets
  import opened Relay
  import Contacts
  import Crypto
  import Daemon
  import Json
  import Packet
  import Session

  // ---------------------------------------------------------------- invariants

  ghost predicate UniqueNames(users: seq<User>) {
    forall i, j :: 0 <= i < j < |users| ==> users[i].name != users[j].name
  }

  /** Registered keys never change and nobody is ever removed. */
  ghost predicate KeepsKeys(a: seq<User>, b: seq<User>) {
    |a| <= |b| && forall i :: 0 <= i < |a| ==> b[i].name == a[i].name && b[i].key == a[i].key
  }

  /** The holder of the key registered for `name` signed the challenge. */
  ghost predicate ProvenBy(sodium: Crypto.Sodium, users: seq<User>, name: string, proof: Option<Proof>) {
    && proof.Some?
    && exists u :: u in users && u.name == name && sodium.verify(proof.value.signature, proof.value.challenge, u.key)
  }

  /** An authenticated connection answered the challenge of its own last accepted hello. */
  ghost predicate Proven(sodium: Crypto.Sodium, users: seq<User>, session: Connection) {
    && (session.hasChallenge ==> session.issued == Some(session.challenge))
    && (session.authenticated ==>
          && ProvenBy(sodium, users, session.username, session.proof)
          && session.issued == Some(session.proof.value.challenge))
  }

  ghost predicate SessionsProven(sodium: Crypto.Sodium, users: seq<User>, sessions: map<Conn, Connection>) {
    forall c :: c in sessions ==> Proven(sodium, users, sessions[c])
  }

  /** The fields the server checked are those that the recipient will extract. */
  ghost predicate Checked(sodium: Crypto.Sodium, users: seq<User>, f: Forward) {
    && Json.GetString(f.json, "type", 32) == Some(f.kind)
    && Json.GetString(f.json, "from", 33) == Some(f.from) && Json.GetString(f.json, "to", 33) == Some(f.to)
    && ProvenBy(sodium, users, f.from, f.proof) && f.issued == Some(f.proof.value.challenge)
    && (CarriesKey(f.kind) ==> exists u :: u in users && u.name == f.from && ClaimedKey(f.json) == Some(u.key))
  }

  ghost predicate ForwardsChecked(sodium: Crypto.Sodium, users: seq<User>, forwards: seq<Forward>) {
    forall f :: f in forwards ==> Checked(sodium, users, f)
  }

  ghost predicate Genuine(sodium: Crypto.Sodium, s: Server) {
    && UniqueNames(s.users)
    && SessionsProven(sodium, s.users, s.sessions)
    && ForwardsChecked(sodium, s.users, s.forwards)
  }

  // ---------------------------------------------------------------- the registry only grows

  lemma ProofStands(sodium: Crypto.Sodium, a: seq<User>, b: seq<User>, name: string, proof: Option<Proof>)
    requires KeepsKeys(a, b) && ProvenBy(sodium, a, name, proof)
    ensures ProvenBy(sodium, b, name, proof)
  {
  }

  lemma SessionStands(sodium: Crypto.Sodium, a: seq<User>, b: seq<User>, session: Connection)
    requires KeepsKeys(a, b) && Proven(sodium, a, session)
    ensures Proven(sodium, b, session)
  {
  }

  lemma RegistryGrows(users: seq<User>, name: string, key: Key)
    requires UniqueNames(users)
    ensures var r := RegisterUser(users, name, key).1; UniqueNames(r) && KeepsKeys(users, r)
  {
  }

  lemma OnlineKeeps(users: seq<User>, name: string, conn: Conn)
    requires UniqueNames(users)
    ensures var r := SetOnline(users, name, conn).1; UniqueNames(r) && KeepsKeys(users, r)
  {
  }

  lemma OfflineKeeps(users: seq<User>, conn: Conn)
    requires UniqueNames(users)
    ensures UniqueNames(SetOffline(users, conn)) && KeepsKeys(users, SetOffline(users, conn))
  {
  }

  // ---------------------------------------------------------------- every step

  /** New users with the same connections, whose own session changed as shown. */
  lemma SessionKeeps(sodium: Crypto.Sodium, s: Server, users: seq<User>, c: Conn, session: Connection)
    requires Genuine(sodium, s) && UniqueNames(users) && KeepsKeys(s.users, users)
    requires Proven(sodium, users, session)
    ensures Genuine(sodium, Update(s.(users := users), c, session))
  {
  }

  lemma PendingKeeps(sodium: Crypto.Sodium, s: Server, c: Conn, pending: string)
    requires Genuine(sodium, s) && c in s.sessions
    ensures Genuine(sodium, Update(s, c, s.sessions[c].(pending := pending)))
  {
  }

  lemma SendKeeps(sodium: Crypto.Sodium, s: Server, c: Conn, text: string, size: nat)
    requires Genuine(sodium, s) && c in s.sessions
    ensures Genuine(sodium, SendJson(s, c, text)) && SendJson(s, c, text).users == s.users
    ensures Genuine(sodium, Reply(s, c, text, size)) && Reply(s, c, text, size).users == s.users
  {
  }

  lemma ErrorKeeps(sodium: Crypto.Sodium, s: Server, c: Conn, code: string)
    requires Genuine(sodium, s) && c in s.sessions
    ensures Genuine(sodium, SendError(s, c, code)) && SendError(s, c, code).users == s.users
  {
  }

  lemma RegisterKeeps(sodium: Crypto.Sodium, s: Server, c: Conn, json: string)
    requires Genuine(sodium, s) && c in s.sessions
    ensures var t := HandleRegister(s, c, json); Genuine(sodium, t) && KeepsKeys(s.users, t.users)
  {
    hide Json.GetString, Packet.UsernameIsValid, SendError, SendJson, HexToKey, Json.Render;
    var name := Json.GetString(json, "username", 33);
    var hex := Json.GetString(json, "public_key", 65);
    ErrorKeeps(sodium, s, c, "bad_register");
    if name.Some? && hex.Some? && HexToKey(hex.value).Some? {
      var (result, users) := RegisterUser(s.users, name.value, HexToKey(hex.value).value);
      ErrorKeeps(sodium, s, c, ResultName(result));
      RegistryGrows(s.users, name.value, HexToKey(hex.value).value);
      SessionStands(sodium, s.users, users, s.sessions[c]);
      SessionKeeps(sodium, s, users, c, s.sessions[c]);
      assert Update(s.(users := users), c, s.sessions[c]) == s.(users := users);
      hide Genuine, KeepsKeys, RegisterUser;
      SendKeeps(sodium, s.(users := users), c, Json.Render([("type", "register_ok")]), 0);
    }
  }

  lemma HelloKeeps(sodium: Crypto.Sodium, s: Server, c: Conn, json: string, challenge: Key)
    requires Genuine(sodium, s) && c in s.sessions
    ensures var t := HandleHello(s, c, json, challenge); Genuine(sodium, t) && t.users == s.users
  {
    hide Json.GetString, Packet.UsernameIsValid, SendError, Reply, Json.Render, ChallengeFields, FindUser;
    var name := Json.GetString(json, "username", 33);
    ErrorKeeps(sodium, s, c, "bad_hello");
    ErrorKeeps(sodium, s, c, "unknown_user");
    if name.Some? {
      var session := s.sessions[c].(
        username := name.value, challenge := challenge, hasChallenge := true, authenticated := false,
        issued := Some(challenge), proof := None);
      SessionKeeps(sodium, s, s.users, c, session);
      assert s.(users := s.users) == s;
      hide Genuine;
      SendKeeps(sodium, Update(s, c, session), c, Json.Render(ChallengeFields(challenge)), 192);
    }
  }

  lemma AuthKeeps(sodium: Crypto.Sodium, s: Server, c: Conn, json: string)
    requires Genuine(sodium, s) && c in s.sessions
    ensures var t := HandleAuthResponse(sodium, s, c, json); Genuine(sodium, t) && KeepsKeys(s.users, t.users)
  {
    hide Json.GetString, SendError, SendJson, Json.Render, HexToSignature;
    var session := s.sessions[c];
    var hex := Json.GetString(json, "signature", 129);
    ErrorKeeps(sodium, s, c, "auth_not_started");
    ErrorKeeps(sodium, s, c, "bad_auth_response");
    ErrorKeeps(sodium, s, c, "unknown_user");
    ErrorKeeps(sodium, s, c, "authentication_failed");
    var user := FindUser(s.users, session.username);
    if session.hasChallenge && hex.Some? && HexToSignature(hex.value).Some? && user.Some? {
      var signature := HexToSignature(hex.value).value;
      if sodium.verify(signature, session.challenge, user.value.key) {
        var proven := session.(
          challenge := ZERO_KEY, hasChallenge := false, authenticated := true,
          proof := Some(Proof(session.challenge, signature)));
        var users := SetOnline(s.users, session.username, c).1;
        assert ProvenBy(sodium, s.users, session.username, proven.proof);
        OnlineKeeps(s.users, session.username, c);
        ProofStands(sodium, s.users, users, session.username, proven.proof);
        SessionKeeps(sodium, s, users, c, proven);
        hide Genuine, KeepsKeys, SetOnline;
        SendKeeps(sodium, Update(s.(users := users), c, proven), c, Json.Render([("type", "auth_ok")]), 0);
      }
    }
    hide Genuine, KeepsKeys, SetOnline, FindUser;
  }

  lemma DeliverKeeps(sodium: Crypto.Sodium, s: Server, c: Conn, kind: string, from: string, to: string,
      target: Conn, json: string)
    requires Genuine(sodium, s) && c in s.sessions
    requires Checked(sodium, s.users, Forward(c, kind, from, to, target, json, s.sessions[c].issued,
      s.sessions[c].proof))
    ensures var t := Deliver(s, c, kind, from, to, target, json); Genuine(sodium, t) && t.users == s.users
  {
    hide SendError, SendJson, Checked;
    ErrorKeeps(sodium, s, c, "peer_busy");
    if target in s.sessions {
      SendKeeps(sodium, s, target, json, 0);
      SentForwards(s, target, json);
    }
  }

  lemma SentForwards(s: Server, c: Conn, text: string)
    requires c in s.sessions
    ensures SendJson(s, c, text).forwards == s.forwards
  {
  }

  lemma ForwardKeeps(sodium: Crypto.Sodium, s: Server, c: Conn, json: string, kind: string)
    requires Genuine(sodium, s) && c in s.sessions && Json.GetString(json, "type", 32) == Some(kind)
    ensures var t := HandleForward(s, c, json, kind); Genuine(sodium, t) && t.users == s.users
  {
    hide Json.GetString, SendError, Packet.UsernameIsValid, Deliver, ClaimedKey;
    var from := Json.GetString(json, "from", 33);
    var to := Json.GetString(json, "to", 33);
    ErrorKeeps(sodium, s, c, "authentication_required");
    ErrorKeeps(sodium, s, c, "bad_signaling_message");
    ErrorKeeps(sodium, s, c, "from_mismatch");
    ErrorKeeps(sodium, s, c, "unknown_user");
    ErrorKeeps(sodium, s, c, "bad_public_key");
    ErrorKeeps(sodium, s, c, "public_key_mismatch");
    ErrorKeeps(sodium, s, c, "peer_offline");
    if s.sessions[c].authenticated && from.Some? && to.Some? && from.value == s.sessions[c].username {
      var sender, target := FindUser(s.users, from.value), FindUser(s.users, to.value);
      if sender.Some? && target.Some? && target.value.conn.Some?
        && (CarriesKey(kind) ==> ClaimedKey(json) == Some(sender.value.key)) {
        assert Checked(sodium, s.users, Forward(c, kind, from.value, to.value, target.value.conn.value, json,
          s.sessions[c].issued, s.sessions[c].proof));
        DeliverKeeps(sodium, s, c, kind, from.value, to.value, target.value.conn.value, json);
      }
    }
    hide Genuine, FindUser;
  }

  lemma LookupKeeps(sodium: Crypto.Sodium, s: Server, c: Conn, json: string)
    requires Genuine(sodium, s) && c in s.sessions
    ensures var t := HandleLookup(s, c, json); Genuine(sodium, t) && t.users == s.users
  {
    hide Json.GetString, SendError, Reply, Packet.UsernameIsValid, UserStatus, FindUser, Genuine;
    ErrorKeeps(sodium, s, c, "authentication_required");
    ErrorKeeps(sodium, s, c, "bad_lookup");
    var name := Json.GetString(json, "username", 33);
    if name.Some? {
      var user := FindUser(s.users, name.value);
      SendKeeps(sodium, s, c, UserStatus(user, name.value), if user.None? then 160 else 320);
    }
  }

  lemma MessageKeeps(sodium: Crypto.Sodium, s: Server, c: Conn, json: string, challenge: Key)
    requires Genuine(sodium, s) && c in s.sessions
    ensures var t := HandleMessage(sodium, s, c, json, challenge); Genuine(sodium, t) && KeepsKeys(s.users, t.users)
  {
    hide Genuine, Json.GetString, SendError, HandleRegister, HandleHello, HandleAuthResponse, HandleLookup,
      HandleForward, Supported;
    ErrorKeeps(sodium, s, c, "missing_type");
    ErrorKeeps(sodium, s, c, "unknown_type");
    var kind := Json.GetString(json, "type", 32);
    if kind.Some? {
      RegisterKeeps(sodium, s, c, json);
      HelloKeeps(sodium, s, c, json, challenge);
      AuthKeeps(sodium, s, c, json);
      LookupKeeps(sodium, s, c, json);
      ForwardKeeps(sodium, s, c, json, kind.value);
    }
  }

  lemma CloseKeeps(sodium: Crypto.Sodium, s: Server, c: Conn)
    requires Genuine(sodium, s) && c in s.sessions
    ensures var t := Step(sodium, s, Closed(c)); Genuine(sodium, t) && KeepsKeys(s.users, t.users)
  {
    OfflineKeeps(s.users, c);
    var users := if s.sessions[c].authenticated then SetOffline(s.users, c) else s.users;
    SessionStands(sodium, s.users, users, s.sessions[c]);
    SessionKeeps(sodium, s, users, c, s.sessions[c]);
    hide Checked, Proven, UniqueNames, KeepsKeys;
  }

  lemma StepKeeps(sodium: Crypto.Sodium, s: Server, e: Event)
    requires Genuine(sodium, s)
    ensures var t := Step(sodium, s, e); Genuine(sodium, t) && KeepsKeys(s.users, t.users)
  {
    match e
    case Opened(c) =>
      SessionKeeps(sodium, s, s.users, c, NEW_CONNECTION);
      assert s.(users := s.users) == s;
      hide Genuine;
    case Received(c, text, whole, challenge) =>
      hide Genuine, HandleMessage, SendError;
      if c in s.sessions {
        ErrorKeeps(sodium, s, c, "message_too_large_or_fragmented");
        MessageKeeps(sodium, s, c, CString(text), challenge);
      }
    case Writable(c, written) =>
      hide Genuine;
      if c in s.sessions {
        PendingKeeps(sodium, s, c, "");
      }
    case Closed(c) =>
      hide Genuine;
      if c in s.sessions {
        CloseKeeps(sodium, s, c);
      }
  }

  /** In every run names stay unique, every authenticated connection holds a proof under its user's registered key, and
      every forwarded message was checked. */
  lemma {:induction false} EveryRunIsGenuine(sodium: Crypto.Sodium, events: seq<Event>)
    ensures Genuine(sodium, Run(sodium, events))
  {
    if events != [] {
      EveryRunIsGenuine(sodium, events[..|events| - 1]);
      StepKeeps(sodium, Run(sodium, events[..|events| - 1]), events[|events| - 1]);
      hide Genuine, Step;
    }
  }

  /** Once registered, a name keeps its key for the rest of the run. */
  lemma {:induction false} KeysNeverChange(sodium: Crypto.Sodium, events: seq<Event>, n: nat)
    requires n <= |events|
    ensures KeepsKeys(Run(sodium, events[..n]).users, Run(sodium, events).users)
    decreases |events|
  {
    if n == |events| {
      assert events[..n] == events;
    } else {
      var before := events[..|events| - 1];
      KeysNeverChange(sodium, before, n);
      assert before[..n] == events[..n];
      EveryRunIsGenuine(sodium, before);
      StepKeeps(sodium, Run(sodium, before), events[|events| - 1]);
      hide Genuine, Step;
    }
  }

  // ---------------------------------------------------------------- the receiving daemon

  /** What a server message can add to the contacts that a daemon has verified: the sender it names, with the key it
      claims. */
  lemma VerifiedIsClaimed(sodium: Crypto.Sodium, s: Daemon.State, json: string, env: Daemon.Env)
    ensures
      var was, now := s.ledger.verified, Daemon.HandleReceive(sodium, s, json, env).ledger.verified;
      now == was ||
      (&& Json.GetString(json, "type", 32).Some? && CarriesKey(Json.GetString(json, "type", 32).value)
       && Json.GetString(json, "from", 33).Some? && ClaimedKey(json).Some?
       && now == was + [Contacts.Contact(Json.GetString(json, "from", 33).value, ClaimedKey(json).value)])
  {
    hide Json.GetString, Daemon.HandleError, Daemon.HandleChallenge, Daemon.HandleUserStatus, Daemon.QueueBuilt,
      Daemon.HelloFields,
      Daemon.HandleChatRequest, Daemon.HandleChatAccept, Daemon.HandleIceCredentials, Daemon.HandleChatCancel,
        Session.Books;
    Session.StatusKeepsCore(s, json);
    Session.ErrorKeepsCore(s, json);
    Session.ChallengeKeepsCore(sodium, s, json);
    Session.QueueKeepsCore(s.(phase := Daemon.Greeting), Daemon.HelloFields(s.id), 128);
    RequestVerifies(s, json, env);
    AcceptVerifies(s, json, env);
    CredentialsVerifyNothing(sodium, s, json, env);
    assert Daemon.HandleChatCancel(s, json).ledger == s.ledger by { CancelVerifiesNothing(s, json); }
  }

  lemma CancelVerifiesNothing(s: Daemon.State, json: string)
    ensures Daemon.HandleChatCancel(s, json).ledger == s.ledger
  {
  }

  lemma CredentialsVerifyNothing(sodium: Crypto.Sodium, s: Daemon.State, json: string, env: Daemon.Env)
    ensures Daemon.HandleIceCredentials(sodium, s, json, env).ledger == s.ledger
  {
  }

  lemma BeginVerifiesNothing(s: Daemon.State, peer: string, id: string, controlling: bool, key: Key, env: Daemon.Env)
    ensures Daemon.BeginIce(s, peer, id, controlling, key, env).0.ledger == s.ledger
  {
    forall b: Daemon.State, reason | b.ledger == s.ledger
      ensures Daemon.Fail(b, reason, env).ledger == s.ledger
    {
      Session.FailWipes(b, reason, env);
    }
    hide Daemon.Fail;
  }

  lemma VerifyRecords(s: Daemon.State, name: string, key: Key, io: Contacts.Io)
    ensures
      var t := Daemon.Verify(s, name, key, io).0.ledger.verified;
      t == s.ledger.verified || t == s.ledger.verified + [Contacts.Contact(name, key)]
  {
  }

  lemma RequestVerifies(s: Daemon.State, json: string, env: Daemon.Env)
    ensures
      var was, now := s.ledger.verified, Daemon.HandleChatRequest(s, json, env).ledger.verified;
      now == was ||
      (&& Json.GetString(json, "from", 33).Some? && ClaimedKey(json).Some?
       && now == was + [Contacts.Contact(Json.GetString(json, "from", 33).value, ClaimedKey(json).value)])
  {
    hide Json.GetString, Packet.UsernameIsValid, HexToKey, Daemon.Verify, Daemon.QueueBuilt, Daemon.KeyedFields,
      Daemon.BeginIce, Session.Books;
    var from := Json.GetString(json, "from", 33);
    var id := Json.GetString(json, "session_id", 33);
    var key := ClaimedKey(json);
    if from.Some? && id.Some? && key.Some? {
      VerifyRecords(s, from.value, key.value, env.io);
      var s1 := Daemon.Verify(s, from.value, key.value, env.io).0;
      var fields := Daemon.KeyedFields("chat_accept", s.id, from.value, id.value);
      Session.QueueKeepsCore(Daemon.Enter(s1, Daemon.Requesting), fields, 512);
      BeginVerifiesNothing(
        Daemon.QueueBuilt(Daemon.Enter(s1, Daemon.Requesting), fields, 512).0, from.value, id.value, false,
          key.value, env);
    }
  }

  lemma AcceptVerifies(s: Daemon.State, json: string, env: Daemon.Env)
    ensures
      var was, now := s.ledger.verified, Daemon.HandleChatAccept(s, json, env).ledger.verified;
      now == was ||
      (&& Json.GetString(json, "from", 33).Some? && ClaimedKey(json).Some?
       && now == was + [Contacts.Contact(Json.GetString(json, "from", 33).value, ClaimedKey(json).value)])
  {
    hide Json.GetString, HexToKey, Daemon.Verify, Daemon.QueueBuilt, Daemon.PeerFields, Daemon.BeginIce,
      Daemon.Respond, Session.Books;
    var from := Json.GetString(json, "from", 33);
    var id := Json.GetString(json, "session_id", 33);
    var key := ClaimedKey(json);
    if from.Some? && id.Some? && key.Some? {
      VerifyRecords(s, from.value, key.value, env.io);
      var s1 := Daemon.Verify(s, from.value, key.value, env.io).0;
      var fields := Daemon.PeerFields("chat_cancel", s.id, from.value, id.value);
      Session.QueueKeepsCore(s1, fields, 384);
      var q := Daemon.QueueBuilt(s1, fields, 384).0;
      Session.RespondKeepsCore(q, Daemon.IdentityMismatch(from.value));
      Session.RespondKeepsCore(s1, Daemon.CliError(Daemon.ContactVerificationFailed));
      BeginVerifiesNothing(s1, from.value, id.value, true, key.value, env);
      var s2 := Daemon.BeginIce(s1, from.value, id.value, true, key.value, env).0;
      Session.RespondKeepsCore(s2, Daemon.IceFailed(from.value));
    }
  }

  /** End to end: whatever a forwarded message makes a daemon verify and pin is the sender's name with the key
      registered for it, proven by the sending connection's answer to its own latest challenge. */
  lemma PinnedKeyIsRegistered(sodium: Crypto.Sodium, events: seq<Event>, f: Forward, s: Daemon.State, env: Daemon.Env)
    requires f in Run(sodium, events).forwards
    ensures
      var was, now := s.ledger.verified, Daemon.HandleReceive(sodium, s, f.json, env).ledger.verified;
      now == was ||
      (&& f.proof.Some? && f.issued == Some(f.proof.value.challenge)
       && exists u ::
            && u in Run(sodium, events).users && u.name == f.from && now == was + [Contacts.Contact(f.from, u.key)]
            && sodium.verify(f.proof.value.signature, f.proof.value.challenge, u.key))
  {
    EveryRunIsGenuine(sodium, events);
    VerifiedIsClaimed(sodium, s, f.json, env);
    hide Run, Json.GetString, Daemon.HandleReceive, ClaimedKey;
    var users := Run(sodium, events).users;
    if Daemon.HandleReceive(sodium, s, f.json, env).ledger.verified != s.ledger.verified {
      assert Checked(sodium, users, f);
      var u :| u in users && u.name == f.from && ClaimedKey(f.json) == Some(u.key);
      var v :| v in users && v.name == f.from && sodium.verify(f.proof.value.signature, f.proof.value.challenge, v.key);
      OneEntry(users, u, v);
    }
  }

  lemma OneEntry(users: seq<User>, u: User, v: User)
    requires UniqueNames(users) && u in users && v in users && u.name == v.name
    ensures u == v
  {
  }
}
