/** What a user types is what is sealed, in order. */
module Typing {
  import opened Daemon
  import opened Octets
  import opened Pairing
  import opened Session
  import Crypto
  import Packet

  /** The lines of a command buffer. Runs of line ends separate them; a line end at the very end adds an empty line only
      when it is the first. */
  function Typed(text: string, i: nat): seq<string>
    requires i <= |text|
    decreases |text| - i
  {
    if i == |text| then []
    else
      var end := LineEnd(text, i);
      [text[i..end]] + if end == |text| then [] else Typed(text, SkipLineEnds(text, end + 1))
  }

  /** The messages that a list of lines amounts to: every valid text, up to the end of the chat. */
  function Spoken(lines: seq<string>): seq<Crypto.Item> {
    if lines == [] then []
    else if lines[0] == "CLOSE_CHAT" then [Crypto.Item([], Crypto.TAG_FINAL)]
    else
      (if SEND <= lines[0] && TextIsValid(Ascii(lines[0][|SEND|..])) then
         [Crypto.Item(Ascii(lines[0][|SEND|..]), Crypto.TAG_MESSAGE)]
       else [])
      + Spoken(lines[1..])
  }

  /** A chat that its user can type into. */
  ghost predicate Typable(sodium: Crypto.Sodium, s: State) {
    Sound(sodium, s) && s.chat.ready && s.session == Secure && s.client.Some?
  }

  lemma TypableFacts(sodium: Crypto.Sodium, s: State)
    requires Typable(sodium, s)
    ensures s.chat.active && s.chat.stream.pushOn
  {
  }

  /** A valid text is sealed whether or not its datagram leaves. */
  lemma SealsOne(sodium: Crypto.Sodium, s: State, kind: byte, item: Crypto.Item, leaves: bool)
    requires s.chat.ready && (s.session == Secure || s.session == Closing) && s.chat.stream.pushOn
    requires kind == KindOf(item.tag) && |item.text| <= TEXT_MAX
    ensures SendEncrypted(sodium, s, kind, item, leaves).0.history.sealed == s.history.sealed + [item]
  {
  }

  lemma CommandSeals(sodium: Crypto.Sodium, s: State, line: string, leaves: bool)
    requires Typable(sodium, s) && line != "CLOSE_CHAT"
    ensures
      var t := OneCommand(sodium, s, line, leaves);
      Typable(sodium, t) && t.history.sealed == s.history.sealed + Spoken([line])
  {
    hide Sound, SendEncrypted, TextIsValid, Ascii;
    TypableFacts(sodium, s);
    CommandIsSound(sodium, s, line, leaves);
    CommandKeepsSession(sodium, s, line, leaves);
    CommandKeepsClient(sodium, s, line, leaves);
    assert [line][1..] == [];
    if SEND <= line {
      var item := Crypto.Item(Ascii(line[|SEND|..]), Crypto.TAG_MESSAGE);
      if TextIsValid(item.text) {
        TextFits(item.text);
        SealsOne(sodium, s, Packet.MESSAGE, item, leaves);
        assert Spoken([line]) == [item];
      } else {
        assert Spoken([line]) == [];
      }
    } else {
      assert Spoken([line]) == [];
    }
  }

  lemma TextFits(text: Bytes)
    requires TextIsValid(text)
    ensures |text| <= TEXT_MAX
  {
  }

  lemma CommandKeepsClient(sodium: Crypto.Sodium, s: State, line: string, leaves: bool)
    requires Sound(sodium, s)
    ensures var t := OneCommand(sodium, s, line, leaves); t.client == s.client && t.chat.ready == s.chat.ready
  {
    hide Sound, SendEncrypted, TextIsValid, Ascii;
    if SEND <= line {
      SealIsSound(sodium, s, Packet.MESSAGE, Crypto.Item(Ascii(line[|SEND|..]), Crypto.TAG_MESSAGE), leaves);
    }
  }

  lemma CloseSeals(sodium: Crypto.Sodium, s: State, leaves: bool)
    requires Typable(sodium, s)
    ensures
      var t := HangUp(SendClose(sodium, s, leaves), Closed);
      && t.history.sealed == s.history.sealed + [Crypto.Item([], Crypto.TAG_FINAL)]
      && t.chat == NO_CHAT && t.client.None? && t.session == Closed
  {
  }

  lemma SpokenStep(line: string, rest: seq<string>)
    ensures
      Spoken([line] + rest)
      == if line == "CLOSE_CHAT" then [Crypto.Item([], Crypto.TAG_FINAL)] else Spoken([line]) + Spoken(rest)
  {
  }

  /** One buffer of input: its valid texts are sealed in the order typed, nothing else is, and exactly CLOSE_CHAT ends
      the chat, with the final message. */
  lemma {:induction false} TypedIsSealed(sodium: Crypto.Sodium, s: State, text: string, i: nat, n: nat, env: Env)
    requires i <= |text| && Typable(sodium, s)
    ensures Commands(sodium, s, text, i, n, env).history.sealed == s.history.sealed + Spoken(Typed(text, i))
    ensures
      var t := Commands(sodium, s, text, i, n, env);
      if "CLOSE_CHAT" in Typed(text, i) then t.chat == NO_CHAT && t.client.None? && t.session == Closed
      else Typable(sodium, t) && t.client == s.client
    decreases |text| - i
  {
    hide Typable, OneCommand, HangUp, SendClose, Spoken, Commands, Typed, LineEnd, SkipLineEnds, Sound;
    SpokenNothing();
    CommandsStep(sodium, s, text, i, n, env);
    TypedStep(text, i);
    if i < |text| {
      TypableFacts(sodium, s);
      ClientIsThere(sodium, s);
      var end := LineEnd(text, i);
      var line := text[i..end];
      var rest := if end == |text| then [] else Typed(text, SkipLineEnds(text, end + 1));
      SpokenStep(line, rest);
      if line == "CLOSE_CHAT" {
        CloseSeals(sodium, s, Flag(env.sends, n));
      } else {
        CommandSeals(sodium, s, line, Flag(env.sends, n));
        assert Sound(sodium, s) by { TypableIsSound(sodium, s); }
        CommandKeepsClient(sodium, s, line, Flag(env.sends, n));
        var next := OneCommand(sodium, s, line, Flag(env.sends, n));
        if end < |text| {
          TypedIsSealed(sodium, next, text, SkipLineEnds(text, end + 1), n + 1, env);
        }
        assert (s.history.sealed + Spoken([line])) + Spoken(rest) == s.history.sealed + (Spoken([line]) + Spoken(rest));
      }
    }
  }

  /** ... and nothing behind a NUL byte is looked at. */
  lemma BufferIsSealed(sodium: Crypto.Sodium, s: State, text: string, env: Env)
    requires Typable(sodium, s)
    ensures
      var t := Step(sodium, s, ClientInput(Command(text), env));
      var lines := Typed(CString(text), 0);
      && t.history.sealed == s.history.sealed + Spoken(lines)
      && if "CLOSE_CHAT" in lines then t.chat == NO_CHAT && t.client.None? && t.session == Closed
         else Typable(sodium, t) && t.client == s.client
  {
    TypableFacts(sodium, s);
    ClientIsThere(sodium, s);
    TypedIsSealed(sodium, s, CString(text), 0, 0, env);
    hide Typable, Spoken, Commands, Typed, CString;
  }

  lemma CommandsStep(sodium: Crypto.Sodium, s: State, text: string, i: nat, n: nat, env: Env)
    requires i <= |text|
    ensures
      Commands(sodium, s, text, i, n, env)
      == if i == |text| || s.client.None? || !s.chat.active then s
         else
           var end := LineEnd(text, i);
           var line := text[i..end];
           if line == "CLOSE_CHAT" then HangUp(SendClose(sodium, s, Flag(env.sends, n)), Closed)
           else
             var next := OneCommand(sodium, s, line, Flag(env.sends, n));
             if end == |text| then next else Commands(sodium, next, text, SkipLineEnds(text, end + 1), n + 1, env)
  {
  }

  lemma TypedStep(text: string, i: nat)
    requires i <= |text|
    ensures
      Typed(text, i)
      == if i == |text| then []
         else
           var end := LineEnd(text, i);
           [text[i..end]] + if end == |text| then [] else Typed(text, SkipLineEnds(text, end + 1))
  {
  }

  lemma SpokenNothing()
    ensures Spoken([]) == []
  {
  }

  lemma TypableIsSound(sodium: Crypto.Sodium, s: State)
    requires Typable(sodium, s)
    ensures Sound(sodium, s)
  {
  }

  lemma ClientIsThere(sodium: Crypto.Sodium, s: State)
    requires Typable(sodium, s)
    ensures s.client.Some?
  {
  }
}
