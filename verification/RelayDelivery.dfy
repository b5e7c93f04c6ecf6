/** What the control server delivers: to whom, exactly when, and what it tells the sender otherwise. */
module RelayDelivery {
  import opened Json
  import opened Octets
  import opened Relay
  import opened RelayAuthenticity
  import Crypto
  import Packet

  // ---------------------------------------------------------------- the condition

  /** The sender may send this: authenticated under the name in the message, with proper routing fields and, where the
      message carries a key, the registered one. */
  ghost predicate Admits(s: Server, c: Conn, json: string, kind: string)
    requires c in s.sessions
  {
    var from, to, id := GetString(json, "from", 33), GetString(json, "to", 33), GetString(json, "session_id", 128);
    && s.sessions[c].authenticated && from == Some(s.sessions[c].username)
    && to.Some? && id.Some? && id.value != ""
    && Packet.UsernameIsValid(from.value) && Packet.UsernameIsValid(to.value)
    && exists u :: u in s.users && u.name == from.value && (CarriesKey(kind) ==> ClaimedKey(json) == Some(u.key))
  }

  /** The user that the message is for is online on that connection. */
  ghost predicate Reaches(s: Server, json: string, target: Conn) {
    exists u :: u in s.users && Some(u.name) == GetString(json, "to", 33) && u.online && u.conn == Some(target)
  }

  /** Every check holds and the target's buffer is free. */
  ghost predicate Passes(s: Server, c: Conn, json: string, kind: string, target: Conn)
    requires c in s.sessions
  {
    && Admits(s, c, json, kind) && Reaches(s, json, target)
    && target in s.sessions && s.sessions[target].pending == ""
  }

  /** A message that the server would relay. */
  ghost predicate Relayable(text: string, kind: string) {
    |text| < MAX_JSON && GetString(CString(text), "type", 32) == Some(kind) && Supported(kind)
  }

  function ErrorText(code: string): string { Render([("type", "error"), ("code", code)]) }

  /** The server with another text in one connection's buffer. */
  function Holding(s: Server, c: Conn, text: string): Server
    requires c in s.sessions
  {
    s.(sessions := s.sessions[c := s.sessions[c].(pending := text)])
  }

  /** Nothing changed but the buffer of one connection. */
  ghost predicate OnlyTells(s: Server, c: Conn, t: Server)
    requires c in s.sessions
  {
    exists text :: t == Holding(s, c, text)
  }

  // ---------------------------------------------------------------- single lookups

  lemma FindIsEntry(users: seq<User>, u: User)
    requires UniqueNames(users) && u in users
    ensures FindUser(users, u.name) == Some(u)
  {
    var i := IndexOf(users, u.name, 0);
    var j :| 0 <= j < |users| && users[j] == u;
  }

  lemma ErrorTells(s: Server, c: Conn, code: string)
    requires c in s.sessions
    ensures OnlyTells(s, c, SendError(s, c, code))
  {
    hide Render;
    var t := SendError(s, c, code);
    assert t == Holding(s, c, t.sessions[c].pending);
  }

  lemma RenderTwo(a: Field, b: Field)
    ensures |Render([a, b])| == |a.0| + |a.1| + |b.0| + |b.1| + 13
  {
    assert [a, b][1..] == [b] && [b][1..] == [];
    assert |RenderFields([b])| == |RenderField(b)|;
  }

  lemma ErrorIsTold(s: Server, c: Conn, code: string)
    requires c in s.sessions && |code| <= 40
    ensures SendError(s, c, code) == Holding(s, c, ErrorText(code))
  {
    RenderTwo(("type", "error"), ("code", code));
    hide Render;
  }

  lemma RelayableIsForwarded(sodium: Crypto.Sodium, s: Server, c: Conn, text: string, challenge: Key, kind: string)
    requires c in s.sessions && Relayable(text, kind)
    ensures Step(sodium, s, Received(c, text, true, challenge)) == HandleForward(s, c, CString(text), kind)
  {
    hide HandleForward, HandleRegister, HandleHello, HandleAuthResponse, HandleLookup, GetString, SendError;
  }

  /** What the server does with an admitted message. */
  lemma AdmittedOutcome(s: Server, c: Conn, json: string, kind: string)
    requires c in s.sessions && UniqueNames(s.users) && Admits(s, c, json, kind)
    ensures
      var to := GetString(json, "to", 33).value;
      var user := FindUser(s.users, to);
      HandleForward(s, c, json, kind)
      == if user.None? || !user.value.online || user.value.conn.None? then SendError(s, c, "peer_offline")
         else Deliver(s, c, kind, s.sessions[c].username, to, user.value.conn.value, json)
  {
    hide GetString, SendError, Deliver, IndexOf, Packet.UsernameIsValid, HexToKey, CarriesKey, FindUser;
    var from := GetString(json, "from", 33).value;
    var u :| u in s.users && u.name == from && (CarriesKey(kind) ==> ClaimedKey(json) == Some(u.key));
    FindIsEntry(s.users, u);
    hide ClaimedKey;
  }

  /** ... and with any other. */
  lemma RefusedOutcome(s: Server, c: Conn, json: string, kind: string) returns (code: string)
    requires c in s.sessions && UniqueNames(s.users) && !Admits(s, c, json, kind)
    ensures HandleForward(s, c, json, kind) == SendError(s, c, code)
  {
    hide GetString, SendError, Deliver, IndexOf, Packet.UsernameIsValid, HexToKey, CarriesKey, ClaimedKey;
    var from, to, id := GetString(json, "from", 33), GetString(json, "to", 33), GetString(json, "session_id", 128);
    if !s.sessions[c].authenticated {
      code := "authentication_required";
    } else if from.None? || to.None? || id.None? || !Packet.UsernameIsValid(from.value)
      || !Packet.UsernameIsValid(to.value) || id.value == "" {
      code := "bad_signaling_message";
    } else if from.value != s.sessions[c].username {
      code := "from_mismatch";
    } else if FindUser(s.users, from.value).None? {
      code := "unknown_user";
    } else if ClaimedKey(json).None? {
      code := "bad_public_key";
    } else {
      code := "public_key_mismatch";
    }
  }

  lemma ReachedUser(s: Server, json: string, target: Conn)
    requires UniqueNames(s.users) && Reaches(s, json, target)
    ensures
      && GetString(json, "to", 33).Some?
      && var user := FindUser(s.users, GetString(json, "to", 33).value);
      user.Some? && user.value.online && user.value.conn == Some(target)
  {
    hide GetString, FindUser;
    var u :| u in s.users && Some(u.name) == GetString(json, "to", 33) && u.online && u.conn == Some(target);
    FindIsEntry(s.users, u);
  }

  // ---------------------------------------------------------------- delivery

  /** A relayable message that passes every check goes, whole, into the buffer of the connection of the user it names,
      and nothing else changes: not the sender, not the registry, nobody else's buffer. */
  lemma PassedIsDelivered(
      sodium: Crypto.Sodium, s: Server, c: Conn, text: string, challenge: Key, kind: string, target: Conn)
    requires UniqueNames(s.users) && c in s.sessions && Relayable(text, kind)
    requires Passes(s, c, CString(text), kind, target)
    ensures
      var json, to := CString(text), GetString(CString(text), "to", 33);
      && to.Some?
      && Step(sodium, s, Received(c, text, true, challenge))
         == Holding(s, target, json).(
               forwards := s.forwards + [Forward(c, kind, s.sessions[c].username, to.value, target, json,
                 s.sessions[c].issued, s.sessions[c].proof)])
  {
    hide GetString, FindUser, Reaches, Admits, Step, HandleForward, SendError, UniqueNames, Supported;
    var json := CString(text);
    RelayableIsForwarded(sodium, s, c, text, challenge, kind);
    AdmittedOutcome(s, c, json, kind);
    ReachedUser(s, json, target);
    assert |json| < MAX_JSON;
  }

  /** Any other relayable message goes nowhere: the registry, the records and every other buffer stay, and at most the
      sender is told. The sender learns that the user is offline exactly when the message was admissible and the user
      is not online, and that the peer is busy exactly when the user's buffer is taken. */
  lemma OthersGoNowhere(sodium: Crypto.Sodium, s: Server, c: Conn, text: string, challenge: Key, kind: string)
    requires UniqueNames(s.users) && c in s.sessions && Relayable(text, kind)
    requires forall target :: !Passes(s, c, CString(text), kind, target)
    ensures
      var t := Step(sodium, s, Received(c, text, true, challenge));
      && (OnlyTells(s, c, t) || t == s.(dangling := true))
      && (Admits(s, c, CString(text), kind) && (forall target :: !Reaches(s, CString(text), target)) ==>
            t == Holding(s, c, ErrorText("peer_offline")))
      && (Admits(s, c, CString(text), kind)
          && (exists target :: target in s.sessions && Reaches(s, CString(text), target)) ==>
            t == Holding(s, c, ErrorText("peer_busy")))
  {
    hide GetString, FindUser, Admits, Step, HandleForward, SendError, UniqueNames, Supported, OnlyTells, ErrorText,
      Reaches;
    var json := CString(text);
    RelayableIsForwarded(sodium, s, c, text, challenge, kind);
    if Admits(s, c, json, kind) {
      AdmittedHasTo(s, c, json, kind);
      AdmittedOutcome(s, c, json, kind);
      ErrorTells(s, c, "peer_offline");
      ErrorIsTold(s, c, "peer_offline");
      ErrorTells(s, c, "peer_busy");
      ErrorIsTold(s, c, "peer_busy");
      var user := FindUser(s.users, GetString(json, "to", 33).value);
      if user.Some? && user.value.online && user.value.conn.Some? {
        FoundReaches(s, json, user.value);
        var target := user.value.conn.value;
        assert !Passes(s, c, json, kind, target);
        assert target !in s.sessions || s.sessions[target].pending != "";
      }
      forall target: nat | Reaches(s, json, target)
        ensures user.Some? && user.value.online && user.value.conn == Some(target)
      {
        ReachedUser(s, json, target);
      }
    } else {
      var code := RefusedOutcome(s, c, json, kind);
      ErrorTells(s, c, code);
    }
  }

  lemma AdmittedHasTo(s: Server, c: Conn, json: string, kind: string)
    requires c in s.sessions && Admits(s, c, json, kind)
    ensures GetString(json, "to", 33).Some?
  {
  }

  lemma FoundReaches(s: Server, json: string, user: User)
    requires GetString(json, "to", 33).Some? && FindUser(s.users, GetString(json, "to", 33).value) == Some(user)
    requires user.online && user.conn.Some?
    ensures Reaches(s, json, user.conn.value)
  {
    hide GetString, IndexOf;
  }

  // ---------------------------------------------------------------- what is no message

  /** Fragments, over-long messages, messages without a type and messages of an unknown type change nothing; the sender
      is told. */
  lemma NoMessageIsRefused(sodium: Crypto.Sodium, s: Server, c: Conn, text: string, whole: bool, challenge: Key)
    requires c in s.sessions
    ensures
      var t := Step(sodium, s, Received(c, text, whole, challenge));
      var kind := GetString(CString(text), "type", 32);
      if |text| >= MAX_JSON || !whole then t == Holding(s, c, ErrorText("message_too_large_or_fragmented"))
      else if kind.None? then t == Holding(s, c, ErrorText("missing_type"))
      else kind.value !in ["register", "hello", "auth_response", "user_lookup"] && !Supported(kind.value) ==>
        t == Holding(s, c, ErrorText("unknown_type"))
  {
    hide GetString, HandleRegister, HandleHello, HandleAuthResponse, HandleLookup, HandleForward, Supported, ErrorText,
      SendError, Holding, Step, HandleMessage;
    if |text| >= MAX_JSON || !whole {
      ErrorIsTold(s, c, "message_too_large_or_fragmented");
      FragmentStep(sodium, s, c, text, whole, challenge);
    } else {
      ErrorIsTold(s, c, "missing_type");
      ErrorIsTold(s, c, "unknown_type");
      WholeStep(sodium, s, c, text, challenge);
      UnknownKind(sodium, s, c, CString(text), challenge);
    }
  }

  lemma FragmentStep(sodium: Crypto.Sodium, s: Server, c: Conn, text: string, whole: bool, challenge: Key)
    requires c in s.sessions && (|text| >= MAX_JSON || !whole)
    ensures
      Step(sodium, s, Received(c, text, whole, challenge)) == SendError(s, c, "message_too_large_or_fragmented")
  {
    hide SendError, HandleMessage;
  }

  lemma WholeStep(sodium: Crypto.Sodium, s: Server, c: Conn, text: string, challenge: Key)
    requires c in s.sessions && |text| < MAX_JSON
    ensures
      Step(sodium, s, Received(c, text, true, challenge)) == HandleMessage(sodium, s, c, CString(text), challenge)
  {
    hide SendError, HandleMessage;
  }

  lemma UnknownKind(sodium: Crypto.Sodium, s: Server, c: Conn, json: string, challenge: Key)
    requires c in s.sessions
    ensures
      var kind := GetString(json, "type", 32);
      && (kind.None? ==> HandleMessage(sodium, s, c, json, challenge) == SendError(s, c, "missing_type"))
      && (kind.Some? && kind.value !in ["register", "hello", "auth_response", "user_lookup"]
          && !Supported(kind.value) ==>
            HandleMessage(sodium, s, c, json, challenge) == SendError(s, c, "unknown_type"))
  {
    hide GetString, HandleRegister, HandleHello, HandleAuthResponse, HandleLookup, HandleForward, Supported, SendError;
  }

  // ---------------------------------------------------------------- every run

  lemma RegisterForwardsNothing(s: Server, c: Conn, json: string)
    requires c in s.sessions
    ensures HandleRegister(s, c, json).forwards == s.forwards
  {
    hide GetString, Render, Packet.UsernameIsValid, HexToKey, RegisterUser;
  }

  lemma HelloForwardsNothing(s: Server, c: Conn, json: string, challenge: Key)
    requires c in s.sessions
    ensures HandleHello(s, c, json, challenge).forwards == s.forwards
  {
    hide GetString, Render, Packet.UsernameIsValid, FindUser;
  }

  lemma AuthForwardsNothing(sodium: Crypto.Sodium, s: Server, c: Conn, json: string)
    requires c in s.sessions
    ensures HandleAuthResponse(sodium, s, c, json).forwards == s.forwards
  {
    hide GetString, Render, HexToSignature, FindUser, SetOnline;
  }

  lemma LookupForwardsNothing(s: Server, c: Conn, json: string)
    requires c in s.sessions
    ensures HandleLookup(s, c, json).forwards == s.forwards
  {
    hide GetString, Render, Packet.UsernameIsValid, FindUser, UserStatus;
  }

  lemma OtherKindsForwardNothing(sodium: Crypto.Sodium, s: Server, c: Conn, json: string, challenge: Key)
    requires c in s.sessions
    requires GetString(json, "type", 32).None? || !Supported(GetString(json, "type", 32).value)
    ensures HandleMessage(sodium, s, c, json, challenge).forwards == s.forwards
  {
    RegisterForwardsNothing(s, c, json);
    HelloForwardsNothing(s, c, json, challenge);
    AuthForwardsNothing(sodium, s, c, json);
    LookupForwardsNothing(s, c, json);
    hide GetString, Render, HandleForward, HandleRegister, HandleHello, HandleAuthResponse, HandleLookup, Supported;
  }

  /** An event that adds to the forwards is a relayable message that passed. */
  lemma ForwardIsPassed(sodium: Crypto.Sodium, s: Server, e: Event) returns (kind: string, target: Conn)
    requires UniqueNames(s.users) && Step(sodium, s, e).forwards != s.forwards
    ensures e.Received? && e.whole && e.conn in s.sessions && Relayable(e.text, kind)
    ensures Passes(s, e.conn, CString(e.text), kind, target)
  {
    hide HandleMessage, GetString, SendError, Passes, UniqueNames, Supported;
    target := 0;
    assert e.Received? && e.conn in s.sessions && e.whole && |e.text| < MAX_JSON by { ErrorForwardsNothing(s, e.conn); }
    var json := CString(e.text);
    var found := GetString(json, "type", 32);
    if found.None? || !Supported(found.value) {
      OtherKindsForwardNothing(sodium, s, e.conn, json, e.challenge);
      assert false;
    }
    kind := found.value;
    if forall k: nat :: !Passes(s, e.conn, json, kind, k) {
      OthersGoNowhere(sodium, s, e.conn, e.text, e.challenge, kind);
    } else {
      target :| Passes(s, e.conn, json, kind, target);
    }
  }

  lemma ErrorForwardsNothing(s: Server, c: Conn)
    ensures c in s.sessions ==> SendError(s, c, "message_too_large_or_fragmented").forwards == s.forwards
  {
    hide Render;
  }

  /** Every run: each recorded forward was delivered. At its event the source had sent exactly that text, the user it
      is for was online on the target connection, and right after it that connection's buffer held the text. */
  lemma {:induction false} ForwardsWereDelivered(sodium: Crypto.Sodium, events: seq<Event>, i: nat) returns (n: nat)
    requires i < |Run(sodium, events).forwards|
    ensures n < |events| && events[n].Received? && |Run(sodium, events[..n]).forwards| == i
    ensures
      var f := Run(sodium, events).forwards[i];
      var before, after := Run(sodium, events[..n]), Run(sodium, events[..n + 1]);
      && events[n].conn == f.source && CString(events[n].text) == f.json
      && Reaches(before, f.json, f.target) && GetString(f.json, "to", 33) == Some(f.to)
      && f.target in after.sessions && after.sessions[f.target].pending == f.json
  {
    hide Step, Genuine, Relayable, Reaches, GetString, Admits;
    var before, e := events[..|events| - 1], events[|events| - 1];
    var s, t := Run(sodium, before), Run(sodium, events);
    EveryRunIsGenuine(sodium, before);
    GenuineIsUnique(sodium, s);
    if t.forwards == s.forwards {
      n := ForwardsWereDelivered(sodium, before, i);
      assert before[..n] == events[..n] && before[..n + 1] == events[..n + 1];
    } else {
      var kind, target := ForwardIsPassed(sodium, s, e);
      PassedIsDelivered(sodium, s, e.conn, e.text, e.challenge, kind, target);
      if i < |s.forwards| {
        n := ForwardsWereDelivered(sodium, before, i);
        assert before[..n] == events[..n] && before[..n + 1] == events[..n + 1];
      } else {
        n := |events| - 1;
        assert events[..n] == before && events[..n + 1] == events;
      }
    }
  }

  lemma GenuineIsUnique(sodium: Crypto.Sodium, s: Server)
    requires Genuine(sodium, s)
    ensures UniqueNames(s.users)
  {
  }

  // ---------------------------------------------------------------- buffers

  /** A connection's buffer is as it was. */
  predicate Untouched(s: Server, t: Server, c: Conn)
    requires c in s.sessions
  {
    c in t.sessions && t.sessions[c].pending == s.sessions[c].pending
  }

  lemma RepliesTouchOwn(s: Server, c: Conn, text: string, size: nat, code: string, d: Conn)
    requires c in s.sessions && d in s.sessions && c != d
    ensures Untouched(s, SendJson(s, c, text), d) && Untouched(s, Reply(s, c, text, size), d)
    ensures Untouched(s, SendError(s, c, code), d)
  {
    hide Render;
  }

  lemma RegisterTouchesOwn(s: Server, c: Conn, json: string, d: Conn)
    requires c in s.sessions && d in s.sessions && c != d
    ensures Untouched(s, HandleRegister(s, c, json), d)
  {
    hide GetString, Render, Packet.UsernameIsValid, RegisterUser, HexToKey, SendJson, SendError, ResultName;
    var name, hex := GetString(json, "username", 33), GetString(json, "public_key", 65);
    RepliesTouchOwn(s, c, "", 0, "bad_register", d);
    if name.Some? && hex.Some? && HexToKey(hex.value).Some? {
      var (result, users) := RegisterUser(s.users, name.value, HexToKey(hex.value).value);
      RepliesTouchOwn(s, c, "", 0, ResultName(result), d);
      RepliesTouchOwn(s.(users := users), c, Render([("type", "register_ok")]), 0, "", d);
    }
  }

  lemma HelloTouchesOwn(s: Server, c: Conn, json: string, challenge: Key, d: Conn)
    requires c in s.sessions && d in s.sessions && c != d
    ensures Untouched(s, HandleHello(s, c, json, challenge), d)
  {
    hide GetString, Render, Packet.UsernameIsValid, FindUser, Reply, SendError, ChallengeFields;
    var name := GetString(json, "username", 33);
    RepliesTouchOwn(s, c, "", 0, "bad_hello", d);
    RepliesTouchOwn(s, c, "", 0, "unknown_user", d);
    if name.Some? {
      var session := s.sessions[c].(
        username := name.value, challenge := challenge, hasChallenge := true, authenticated := false,
        issued := Some(challenge), proof := None);
      RepliesTouchOwn(Update(s, c, session), c, Render(ChallengeFields(challenge)), 192, "", d);
    }
  }

  lemma AuthTouchesOwn(sodium: Crypto.Sodium, s: Server, c: Conn, json: string, d: Conn)
    requires c in s.sessions && d in s.sessions && c != d
    ensures Untouched(s, HandleAuthResponse(sodium, s, c, json), d)
  {
    hide GetString, Render, FindUser, SetOnline, HexToSignature, SendJson, SendError;
    forall code ensures Untouched(s, SendError(s, c, code), d) {
      RepliesTouchOwn(s, c, "", 0, code, d);
    }
    forall t: Server | c in t.sessions && Untouched(s, t, d)
      ensures Untouched(s, SendJson(t, c, Render([("type", "auth_ok")])), d)
    {
      RepliesTouchOwn(t, c, Render([("type", "auth_ok")]), 0, "", d);
    }
  }

  lemma LookupTouchesOwn(s: Server, c: Conn, json: string, d: Conn)
    requires c in s.sessions && d in s.sessions && c != d
    ensures Untouched(s, HandleLookup(s, c, json), d)
  {
    hide GetString, Packet.UsernameIsValid, FindUser, Reply, SendError, UserStatus;
    RepliesTouchOwn(s, c, "", 0, "authentication_required", d);
    RepliesTouchOwn(s, c, "", 0, "bad_lookup", d);
    var name := GetString(json, "username", 33);
    if name.Some? {
      var user := FindUser(s.users, name.value);
      RepliesTouchOwn(s, c, UserStatus(user, name.value), if user.None? then 160 else 320, "", d);
    }
  }

  lemma DeliverTouchesEmpty(
      s: Server, c: Conn, kind: string, from: string, to: string, target: Conn, json: string, d: Conn)
    requires c in s.sessions && d in s.sessions && c != d && s.sessions[d].pending != ""
    ensures Untouched(s, Deliver(s, c, kind, from, to, target, json), d)
  {
    RepliesTouchOwn(s, c, "", 0, "peer_busy", d);
    if target in s.sessions && target != d {
      RepliesTouchOwn(s, target, json, 0, "", d);
    }
    hide SendError, SendJson;
  }

  lemma ForwardTouchesEmpty(s: Server, c: Conn, json: string, kind: string, d: Conn)
    requires c in s.sessions && d in s.sessions && c != d && s.sessions[d].pending != ""
    ensures Untouched(s, HandleForward(s, c, json, kind), d)
  {
    hide GetString, Packet.UsernameIsValid, FindUser, ClaimedKey, SendError, Deliver, CarriesKey;
    forall code ensures Untouched(s, SendError(s, c, code), d) {
      RepliesTouchOwn(s, c, "", 0, code, d);
    }
    forall from, to, target ensures Untouched(s, Deliver(s, c, kind, from, to, target, json), d) {
      DeliverTouchesEmpty(s, c, kind, from, to, target, json, d);
    }
  }

  /** Over every event: a text in a connection's buffer stays there, unchanged, until it has been written or the
      connection is gone; only the server's answer to the connection's own message may take its place. Nobody else's
      message does. */
  lemma HeldUntilWritten(sodium: Crypto.Sodium, s: Server, e: Event, d: Conn)
    requires d in s.sessions && s.sessions[d].pending != ""
    ensures
      || Untouched(s, Step(sodium, s, e), d)
      || e == Writable(d, true) || e == Closed(d) || (e.Received? && e.conn == d)
    ensures e == Writable(d, true) ==> Step(sodium, s, e) == Holding(s, d, "")
    ensures e == Closed(d) ==> d !in Step(sodium, s, e).sessions
  {
    hide HandleRegister, HandleHello, HandleAuthResponse, HandleLookup, HandleForward, GetString, Render, CString,
      SetOffline;
    if e.Received? && e.conn in s.sessions && e.conn != d {
      var json := CString(e.text);
      RegisterTouchesOwn(s, e.conn, json, d);
      HelloTouchesOwn(s, e.conn, json, e.challenge, d);
      AuthTouchesOwn(sodium, s, e.conn, json, d);
      LookupTouchesOwn(s, e.conn, json, d);
      var kind := GetString(json, "type", 32);
      if kind.Some? {
        ForwardTouchesEmpty(s, e.conn, json, kind.value, d);
      }
    }
  }
}
