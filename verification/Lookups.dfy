/** Looking a user up: what the server says about a user and what the waiting client is told. */
module Lookups {
  import opened Daemon
  import opened JsonRoundTrip
  import opened Login
  import opened Octets
  import opened RelayDelivery
  import opened Signalling
  import Crypto
  import Json
  import Packet
  import Relay
  import RelayAuthenticity

  // ---------------------------------------------------------------- flags behind other text

  lemma FlagShift(a: string, t: string, key: string)
    requires forall i :: 0 <= i < |a| ==> !Json.At(a + t, Json.Quoted(key), i)
    ensures Json.IsTrue(a + t, key) == Json.IsTrue(t, key)
  {
    hide Json.Quoted, Json.Find, Json.SkipBlanks;
    var q := Json.Quoted(key);
    FindSkips(a + t, q, 0, |a|);
    FindShift(a, t, q, 0);
    var r := Json.Find(t, q, 0);
    if r.Some? {
      var i := r.value + |q|;
      BlanksShift(a, t, i);
      var colon := Json.SkipBlanks(t, i);
      if colon < |t| {
        assert (a + t)[|a| + colon] == t[colon];
        BlanksShift(a, t, colon + 1);
        AtShift(a, t, "true", Json.SkipBlanks(t, colon + 1));
      }
    }
  }

  /** A string field neither is a flag nor hides one, unless it spells its name. */
  lemma FlagBehindField(f: Json.Field, t: string, key: string)
    requires Plain(f.0) && Plain(f.1) && Tail(t) && Plain(key) && key != ":" && key != ","
    requires f.0 != key && f.1 != key
    ensures Json.IsTrue(Json.RenderField(f) + t, key) == Json.IsTrue(t, key)
  {
    forall i | 0 <= i < |Json.RenderField(f)|
      ensures !Json.At(Json.RenderField(f) + t, Json.Quoted(key), i)
    {
      if Json.At(Json.RenderField(f) + t, Json.Quoted(key), i) { FieldOccurrences(f, t, key, i); }
    }
    FlagShift(Json.RenderField(f), t, key);
  }

  /** A value that spells a flag's name masks the flag. */
  lemma FlagMasked(f: Json.Field, t: string)
    requires Plain(f.0) && Plain(f.1) && Tail(t) && f.0 != f.1 && f.1 != ":" && f.1 != ","
    ensures !Json.IsTrue(Json.RenderField(f) + t, f.1)
  {
    var s, n, m := Json.RenderField(f) + t, |f.0|, |f.1|;
    FieldChars(f, t);
    assert s[n + m + 5] == t[0];
    OccursAt(s, f.1, n + 3);
    forall i | 0 <= i < n + 3
      ensures !Json.At(s, Json.Quoted(f.1), i)
    {
      if Json.At(s, Json.Quoted(f.1), i) { FieldOccurrences(f, t, f.1, i); }
    }
    FindSkips(s, Json.Quoted(f.1), 0, n + 3);
    assert Json.Find(s, Json.Quoted(f.1), n + 3) == Some(n + 3) by { hide Json.RenderField; }
    assert Json.SkipBlanks(s, n + m + 5) == n + m + 5 by { hide Json.RenderField, Json.Find, Json.At; }
    hide Json.RenderField, Json.Find, Json.At, Json.SkipBlanks;
  }

  lemma FlagBehind(c: char, t: string, key: string)
    requires c != '"'
    ensures Json.IsTrue([c] + t, key) == Json.IsTrue(t, key)
  {
    NoQuoteNoKey([c] + t, key, 0);
    FlagShift([c], t, key);
    hide Json.IsTrue;
  }

  /** A flag at the beginning of the text. */
  lemma FlagHere(key: string, value: string, t: string)
    requires Plain(key) && |key| < 60 && value != "" && !Json.Blank(value[0])
    ensures Json.IsTrue(Json.Quoted(key) + ":" + value + t, key) <==> "true" <= value + t
  {
    var s := Json.Quoted(key) + ":" + value + t;
    var n := |key| + 2;
    assert s[0..n] == Json.Quoted(key) && s[n] == ':' && s[n + 1..] == value + t && s[n + 1] == value[0];
    assert Json.At(s, Json.Quoted(key), 0);
    assert Json.Find(s, Json.Quoted(key), 0) == Some(0);
    assert Json.SkipBlanks(s, n) == n && Json.SkipBlanks(s, n + 1) == n + 1;
    assert Json.At(s, "true", n + 1) <==> "true" <= s[n + 1..];
    hide Json.Find, Json.SkipBlanks, Json.At, Json.Quoted;
  }

  // ---------------------------------------------------------------- what the server says

  lemma FlagsAreTail(user: Option<Relay.User>)
    ensures Tail(Relay.StatusFlags(user))
  {
    hide BinToHex;
  }

  /** Any key of a status, past its type and its name. */
  lemma StatusFields(user: Option<Relay.User>, name: string, key: string, size: nat)
    requires Plain(name) && Plain(key) && key != ":" && key != "," && 0 < size && |Json.Quoted(key)| < 64
    ensures
      Json.GetString(Relay.UserStatus(user, name), key, size)
      == if key == "type" then (if Copies("user_status", size) then Some("user_status") else None)
         else if key == "user_status" then None
         else if key == "username" then (if Copies(name, size) then Some(name) else None)
         else if key == name then None
         else Json.GetString(Relay.StatusFlags(user), key, size)
  {
    hide Json.GetString, Json.RenderField, Relay.StatusFlags, Copies;
    FlagsAreTail(user);
    var f1: Json.Field, f2: Json.Field := ("type", "user_status"), ("username", name);
    var t2 := Json.RenderField(f2) + Relay.StatusFlags(user);
    FieldStartsQuoted(f2, Relay.StatusFlags(user));
    CommaDrops(Json.RenderField(f1) + ("," + t2), key, size);
    FieldDecides(f1, "," + t2, key, size);
    CommaDrops(t2, key, size);
    FieldDecides(f2, Relay.StatusFlags(user), key, size);
  }

  lemma FieldStartsQuoted(f: Json.Field, t: string)
    ensures Tail("," + (Json.RenderField(f) + t))
  {
  }

  lemma StatusFlag(user: Option<Relay.User>, name: string, key: string)
    requires Plain(name) && (key == "known" || key == "online")
    ensures
      Json.IsTrue(Relay.UserStatus(user, name), key)
      == (name != key && user.Some? && (key == "online" ==> user.value.online))
  {
    hide Json.IsTrue, Json.RenderField, Relay.StatusFlags;
    FlagsAreTail(user);
    var f1: Json.Field, f2: Json.Field := ("type", "user_status"), ("username", name);
    var t2 := Json.RenderField(f2) + Relay.StatusFlags(user);
    FieldStartsQuoted(f2, Relay.StatusFlags(user));
    FlagBehind('{', Json.RenderField(f1) + ("," + t2), key);
    FlagBehindField(f1, "," + t2, key);
    FlagBehind(',', t2, key);
    if name == key {
      FlagMasked(f2, Relay.StatusFlags(user));
    } else {
      FlagBehindField(f2, Relay.StatusFlags(user), key);
      FlagsRead(user, key);
    }
  }

  lemma FlagsRead(user: Option<Relay.User>, key: string)
    requires key == "known" || key == "online"
    ensures Json.IsTrue(Relay.StatusFlags(user), key) == (user.Some? && (key == "online" ==> user.value.online))
  {
    hide BinToHex, Json.IsTrue, Json.RenderField, Relay.Flag;
    var known, online := user.Some?, user.Some? && user.value.online;
    var post := if user.None? then "}" else "," + Json.RenderField(("public_key", BinToHex(user.value.key))) + "}";
    var t := Relay.Flag("online", online) + post;
    var s := Relay.Flag("known", known) + ("," + t);
    assert Relay.StatusFlags(user) == [','] + s;
    FlagBehind(',', s, key);
    if key == "known" {
      FlagReads("known", known, "," + t);
    } else {
      assert t[0] == '"' by { FlagStarts("online", online); }
      KnownIsNotOnline(known, t);
      FlagReads("online", online, post);
    }
  }

  lemma FlagStarts(key: string, value: bool)
    ensures Relay.Flag(key, value) != "" && Relay.Flag(key, value)[0] == '"'
  {
  }

  lemma FlagReads(key: string, value: bool, t: string)
    requires Plain(key) && |key| < 60
    ensures Json.IsTrue(Relay.Flag(key, value) + t, key) == value
  {
    var text := if value then "true" else "false";
    FlagHere(key, text, t);
    assert Relay.Flag(key, value) + t == Json.Quoted(key) + ":" + text + t;
    assert (text + t)[0] == text[0];
    hide Json.IsTrue, Json.Quoted;
  }

  lemma KnownIsNotOnline(known: bool, t: string)
    requires t != "" && t[0] == '"'
    ensures Json.IsTrue(Relay.Flag("known", known) + ("," + t), "online") == Json.IsTrue(t, "online")
  {
    hide Json.IsTrue;
    var a := Relay.Flag("known", known) + ",";
    assert Relay.Flag("known", known) + ("," + t) == a + t;
    forall i | 0 <= i < |a|
      ensures !Json.At(a + t, Json.Quoted("online"), i)
    {
      NoOnlineIn(a, t, known, i);
    }
    FlagShift(a, t, "online");
  }

  lemma NoOnlineIn(a: string, t: string, known: bool, i: nat)
    requires a == Relay.Flag("known", known) + "," && i < |a|
    ensures !Json.At(a + t, Json.Quoted("online"), i)
  {
    var s := a + t;
    assert s[1] == 'k' && s[7] == ':' && forall x :: 0 < x < |a| && x != 6 ==> s[x] != '"';
    if Json.At(s, Json.Quoted("online"), i) {
      QuotesAround(s, "online", i);
    }
  }

  /** A status carries the key of a user who is known, and no key of anybody else. */
  lemma StatusCarriesKey(user: Option<Relay.User>, name: string)
    requires Packet.UsernameIsValid(name)
    ensures
      Json.GetString(Relay.UserStatus(user, name), "public_key", 65)
      == if user.None? || name == "public_key" then None else Some(BinToHex(user.value.key))
  {
    hide Json.GetString, Relay.UserStatus, Relay.StatusFlags, BinToHex, Packet.UsernameIsValid;
    NameIsPlain(name);
    StatusFields(user, name, "public_key", 65);
    FlagsCarryKey(user);
  }

  /** The flags, up to the key. */
  function Flags(user: Option<Relay.User>): string {
    "," + (Relay.Flag("known", user.Some?) + ("," + Relay.Flag("online", user.Some? && user.value.online)))
  }

  lemma FlagsCarryKey(user: Option<Relay.User>)
    ensures
      Json.GetString(Relay.StatusFlags(user), "public_key", 65)
      == if user.None? then None else Some(BinToHex(user.value.key))
  {
    hide Json.GetString, BinToHex, Copies;
    if user.Some? {
      var f: Json.Field := ("public_key", BinToHex(user.value.key));
      var a, t := Flags(user) + ",", Json.RenderField(f) + "}";
      assert Relay.StatusFlags(user) == a + t by { hide Json.RenderField, Relay.Flag; }
      NoKeyInFlags(user, a, t);
      DropPrefix(a, t, "public_key", 65);
      HexIsPlain(user.value.key, 65);
      FieldDecides(f, "}", "public_key", 65);
    } else {
      var a, t := Flags(user), "}";
      assert Relay.StatusFlags(user) == a + t by { hide Relay.Flag; }
      NoKeyInFlags(user, a, t);
      DropPrefix(a, t, "public_key", 65);
      NothingIsFound();
    }
  }

  lemma NothingIsFound()
    ensures Json.GetString("}", "public_key", 65) == None
  {
  }

  lemma NoKeyInFlags(user: Option<Relay.User>, a: string, t: string)
    requires a == Flags(user) + (if user.Some? then "," else "") && t != "" && t[0] != 'p'
    ensures forall i :: 0 <= i < |a| ==> !Json.At(a + t, Json.Quoted("public_key"), i)
  {
    FlagSpells("known", user.Some?);
    FlagSpells("online", user.Some? && user.value.online);
    assert 'p' !in a by { hide Relay.Flag; }
    forall i | 0 <= i < |a|
      ensures !Json.At(a + t, Json.Quoted("public_key"), i)
    {
      NoKeyHere(a, t, i);
    }
    hide Json.At, Flags;
  }

  lemma FlagSpells(key: string, value: bool)
    requires key == "known" || key == "online"
    ensures 'p' !in Relay.Flag(key, value)
  {
  }

  lemma NoKeyHere(a: string, t: string, i: nat)
    requires i < |a| && 'p' !in a && t != "" && t[0] != 'p'
    ensures !Json.At(a + t, Json.Quoted("public_key"), i)
  {
    if Json.At(a + t, Json.Quoted("public_key"), i) {
      KeyStarts(a + t, i);
    }
  }

  lemma KeyStarts(s: string, i: nat)
    requires Json.At(s, Json.Quoted("public_key"), i)
    ensures i + 1 < |s| && s[i + 1] == 'p'
  {
    assert s[i..i + 12][1] == 'p';
  }

  // ---------------------------------------------------------------- the whole lookup

  lemma StatusIsText(user: Option<Relay.User>, name: string)
    requires Word(name) && |name| <= 32
    ensures
      var json := Relay.UserStatus(user, name);
      CString(json) == json && |json| < (if user.None? then 160 else 320)
  {
    FieldIsText(("type", "user_status"));
    FieldIsText(("username", name));
    FlagsAreText(user);
    hide Json.RenderField, Relay.StatusFlags, Word;
    CStringOfText(Relay.UserStatus(user, name));
  }

  lemma FieldIsText(f: Json.Field)
    requires Word(f.0) && Word(f.1)
    ensures '\0' !in Json.RenderField(f) && |Json.RenderField(f)| == |f.0| + |f.1| + 5
  {
    WordIsPlain(f.0);
    WordIsPlain(f.1);
    hide Word;
  }

  lemma FlagIsText(key: string, value: bool)
    requires key == "known" || key == "online"
    ensures '\0' !in Relay.Flag(key, value) && |Relay.Flag(key, value)| <= 14
  {
  }

  lemma FlagsAreText(user: Option<Relay.User>)
    ensures '\0' !in Relay.StatusFlags(user) && |Relay.StatusFlags(user)| <= if user.None? then 40 else 130
  {
    FlagIsText("known", user.Some?);
    FlagIsText("online", user.Some? && user.value.online);
    if user.Some? {
      HexIsWord(user.value.key);
      KeysAreWords();
      FieldIsText(("public_key", BinToHex(user.value.key)));
    }
    hide Relay.Flag, Json.RenderField, BinToHex, Word;
  }

  /** What a client that waits for news of a user is told: that the user is online exactly when the server knows the
      user and the user is online, and nobody was confused by the name. */
  lemma StatusIsTold(sodium: Crypto.Sodium, d: State, user: Option<Relay.User>, name: string, fd: int, env: Env)
    requires Packet.UsernameIsValid(name) && d.client == Some(fd) && d.lookupPeer == name
    ensures
      var online := user.Some? && user.value.online && name != "known" && name != "online";
      var t := Step(sodium, d, ServerMessage(Relay.UserStatus(user, name), env));
      && t.client.None? && t.log.cli == d.log.cli + [(fd, if online then UserOnline(name) else UserOffline(name))]
      && t.chat == d.chat && t.session == d.session && t.phase == d.phase && t.pending == d.pending
  {
    hide Json.GetString, Json.IsTrue, Relay.UserStatus, Packet.UsernameIsValid, Word, Step, Plain, Copies;
    var json := Relay.UserStatus(user, name);
    NameIsWord(name);
    WordIsPlain(name);
    StatusWords();
    StatusIsText(user, name);
    StatusFields(user, name, "type", 32);
    StatusFields(user, name, "username", 33);
    StatusFlag(user, name, "known");
    StatusFlag(user, name, "online");
    DaemonReads(sodium, d, json, "user_status", env);
  }

  lemma StatusWords()
    ensures Plain("type") && Plain("username") && Copies("user_status", 32)
    ensures |Json.Quoted("type")| < 64 && |Json.Quoted("username")| < 64
  {
  }

  lemma LookupWords()
    ensures Word("user_lookup") && Word("username")
  {
  }

  /** An authenticated connection that asks about a user gets that user's entry into its buffer, and nothing else
      changes. */
  lemma LookupIsAnswered(sodium: Crypto.Sodium, s: Relay.Server, c: Relay.Conn, name: string, challenge: Key)
    requires c in s.sessions && s.sessions[c].authenticated && Packet.UsernameIsValid(name)
    requires RelayAuthenticity.UniqueNames(s.users)
    ensures
      var json := Json.Render([("type", "user_lookup"), ("username", name)]);
      var t := Relay.Step(sodium, s, Relay.Received(c, json, true, challenge));
      && (forall u :: u in s.users && u.name == name ==> t == Holding(s, c, Relay.UserStatus(Some(u), name)))
      && ((forall u :: u in s.users ==> u.name != name) ==> t == Holding(s, c, Relay.UserStatus(None, name)))
  {
    hide Json.GetString, Json.Render, Relay.UserStatus, Packet.UsernameIsValid, Word, Relay.Step, Says, Relay.FindUser,
      RelayAuthenticity.UniqueNames;
    var json := Json.Render([("type", "user_lookup"), ("username", name)]);
    NameIsWord(name);
    LookupWords();
    TwoFields("user_lookup", "username", name, 44, 33);
    LookupIsHandled(sodium, s, c, json, challenge);
    var user := Relay.FindUser(s.users, name);
    StatusIsText(user, name);
    assert Relay.HandleLookup(s, c, json) == Holding(s, c, Relay.UserStatus(user, name));
    forall u | u in s.users && u.name == name
      ensures user == Some(u)
    {
      FindIsEntry(s.users, u);
    }
    if forall u :: u in s.users ==> u.name != name {
      NoEntry(s.users, name);
    }
  }

  /** Whatever a lookup says: without authentication, or without a valid name, it is refused. */
  lemma LookupIsRefused(sodium: Crypto.Sodium, s: Relay.Server, c: Relay.Conn, json: string, challenge: Key)
    requires c in s.sessions && Says(json, "user_lookup")
    ensures
      var name := Json.GetString(json, "username", 33);
      var t := Relay.Step(sodium, s, Relay.Received(c, json, true, challenge));
      if !s.sessions[c].authenticated then t == Holding(s, c, ErrorText("authentication_required"))
      else name.None? || !Packet.UsernameIsValid(name.value) ==> t == Holding(s, c, ErrorText("bad_lookup"))
  {
    hide Json.GetString, Json.Render, Packet.UsernameIsValid, ErrorText, Says, Relay.UserStatus, Relay.FindUser;
    LookupIsHandled(sodium, s, c, json, challenge);
    ErrorIsTold(s, c, "authentication_required");
    ErrorIsTold(s, c, "bad_lookup");
    hide Relay.Step, Relay.SendError;
  }

  lemma NoEntry(users: seq<Relay.User>, name: string)
    requires forall u :: u in users ==> u.name != name
    ensures Relay.FindUser(users, name) == None
  {
    hide Relay.IndexOf;
  }

  lemma LookupIsHandled(sodium: Crypto.Sodium, s: Relay.Server, c: Relay.Conn, json: string, challenge: Key)
    requires c in s.sessions && Says(json, "user_lookup")
    ensures Relay.Step(sodium, s, Relay.Received(c, json, true, challenge)) == Relay.HandleLookup(s, c, json)
  {
    ServerReads(sodium, s, c, json, "user_lookup", challenge);
    hide Json.GetString, Relay.Step, Relay.HandleLookup, Relay.HandleForward, Relay.HandleRegister, Relay.HandleHello,
      Relay.HandleAuthResponse;
  }
}
