/** Known contacts are recognised: when a check of a name that has a key succeeds, over histories of checks. */
module Recognition {
  import opened Contacts
  import opened Octets
  import opened Pinning
  import opened Stdio
  import Packet

  /** A check and a load of the same file, whatever it holds: a stored key is accepted if and only if it is the one
      offered and nothing is written; without one, exactly a complete append is a success. */
  lemma CheckAgreesWithLoad(file: string, name: string, key: Key, io: Io)
    requires io.readable
    ensures
      var (loaded, stored) := Load(file, name, true);
      var (result, after, isNew) := VerifyOrPin(file, name, key, io);
      && (stored.Some? ==> (result, after, isNew) == (if stored == Some(key) then Ok else ErrMismatch, file, false))
      && (stored.None? && loaded != ErrNotFound ==> (result, after, isNew) == (loaded, file, false))
      && (loaded == ErrNotFound ==>
            && (result == Ok <==> io.writable && io.closes && io.written >= |name| + 66)
            && (result == Ok <==> isNew) && (result == Ok ==> after == file + Line(name, key)))
  {
    hide Find, Packet.UsernameIsValid, BinToHex;
  }

  lemma {:induction false} VerifiedAreNames(file: string, calls: seq<Call>, c: Contact)
    requires c in Verified(file, calls)
    ensures Packet.UsernameIsValid(c.name)
  {
    hide Packet.UsernameIsValid, VerifyOrPin;
    var before, last := calls[..|calls| - 1], calls[|calls| - 1];
    VerifiedOk(After(file, before), last.name, last.key, last.io);
    if c in Verified(file, before) {
      VerifiedAreNames(file, before, c);
    }
  }

  /** After any history on a safe file, a name that was once accepted is accepted again exactly with its first key, and
      the file is left alone; only a file that the reader now refuses stands in the way. */
  lemma KnownContactIsRecognised(file: string, calls: seq<Call>, c: Contact, key: Key, io: Io)
    requires Safe(file) && c in Verified(file, calls) && io.readable
    ensures
      var now := After(file, calls);
      VerifyOrPin(now, c.name, key, io)
      == (if Load(now, c.name, true).0 == ErrBadFile then ErrBadFile else if key == c.key then Ok else ErrMismatch,
        now, false)
  {
    hide Find, Packet.UsernameIsValid, Verified, After, Safe, Line;
    HistoryIsTrusted(file, calls);
    VerifiedAreNames(file, calls, c);
  }

  // ---------------------------------------------------------------- files that stay readable

  /** Every line parses and the last one is finished. */
  predicate InOrder(file: string) { Clean(file) && Readable(Chunks(file, LINE_MAX - 1)) }

  lemma {:induction false} NoLineForNobody(lines: seq<string>)
    requires Readable(lines)
    ensures Search(lines, "") == NotFound
  {
    if lines != [] {
      assert ParseLine(lines[0]).Some?;
      assert Readable(lines[1..]) by {
        assert forall i :: 0 <= i < |lines| - 1 ==> lines[1..][i] == lines[i + 1];
      }
      NoLineForNobody(lines[1..]);
      hide CString, ScanPair, HexToKey;
    }
  }

  lemma EndedIsClean(file: string)
    requires file != "" && file[|file| - 1] == '\n'
    ensures Clean(file)
  {
    hide Tail;
    TailShape(file, LINE_MAX - 1);
    var t := Tail(file, LINE_MAX - 1);
    assert t[|t| - 1] == file[|file| - 1];
  }

  lemma LineKeepsOrder(file: string, name: string, key: Key)
    requires InOrder(file) && Packet.UsernameIsValid(name)
    ensures InOrder(file + Line(name, key))
  {
    hide Clean, Chunks, Readable, Search, Packet.UsernameIsValid, BinToHex;
    var line := Line(name, key);
    NameLength(name);
    NoLineForNobody(Chunks(file, LINE_MAX - 1));
    assert line[..|line|] == line;
    AppendToClean(file, name, key, |line|, "");
    LineAlone(name, key, |line|, "");
    UnfoundIsReadable(Chunks(file + line, LINE_MAX - 1), "");
    EndedIsClean(file + line);
  }

  /** The write of a call is never cut short. */
  predicate Whole(c: Call) { !c.io.writable || c.io.written >= |Line(c.name, c.key)| }

  lemma {:induction false} HistoryKeepsOrder(file: string, calls: seq<Call>)
    requires InOrder(file) && forall i :: 0 <= i < |calls| ==> Whole(calls[i])
    ensures InOrder(After(file, calls))
  {
    hide InOrder, Find, Line, Packet.UsernameIsValid;
    if calls != [] {
      var before, c := calls[..|calls| - 1], calls[|calls| - 1];
      HistoryKeepsOrder(file, before);
      assert Whole(c);
      if Packet.UsernameIsValid(c.name) {
        LineKeepsOrder(After(file, before), c.name, c.key);
      }
    }
  }

  lemma OrderIsSafe(file: string, name: string)
    requires InOrder(file)
    ensures Safe(file) && Find(file, name) != BadFile
  {
    hide Clean, Chunks, Readable, Search, Extensible;
    NoLineForNobody(Chunks(file, LINE_MAX - 1));
    NotFoundIsClean(file, "", name);
  }

  /** On a file in order whose writes are whole, every check that can read the file has its answer: a name that was
      accepted before, or that the file had from the start, is accepted exactly with its key; any other name is
      accepted if its line gets written, and is then loaded with that key. */
  lemma EveryCheckIsDecided(file: string, calls: seq<Call>, name: string, key: Key, io: Io)
    requires InOrder(file) && (forall i :: 0 <= i < |calls| ==> Whole(calls[i]))
    requires Packet.UsernameIsValid(name) && io.readable && Whole(Call(name, key, io))
    ensures
      var now := After(file, calls);
      var (result, after, isNew) := VerifyOrPin(now, name, key, io);
      && (forall c :: c in Verified(file, calls) && c.name == name ==>
            (result, after, isNew) == (if key == c.key then Ok else ErrMismatch, now, false))
      && (Load(file, name, true).1.Some? ==>
            (result, after, isNew) == (if Load(file, name, true).1 == Some(key) then Ok else ErrMismatch, now, false))
      && (Load(now, name, true).0 == ErrNotFound ==>
            && (result == Ok <==> io.writable && io.closes)
            && (io.writable ==> Load(after, name, true) == (Ok, Some(key))))
  {
    hide InOrder, Find, Line, Packet.UsernameIsValid, After, Verified, VerifyOrPin, Safe;
    var now := After(file, calls);
    HistoryKeepsOrder(file, calls);
    OrderIsSafe(file, name);
    OrderIsSafe(now, name);
    CheckAgreesWithLoad(now, name, key, io);
    forall c | c in Verified(file, calls) && c.name == name
      ensures VerifyOrPin(now, name, key, io) == (if key == c.key then Ok else ErrMismatch, now, false)
    {
      KnownContactIsRecognised(file, calls, c, key, io);
    }
    if Load(file, name, true).1.Some? {
      FoundStaysFound(file, calls, name);
    }
    LineShape(name, key);
    if Load(now, name, true).0 == ErrNotFound && io.writable {
      NewLineIsLoaded(now, name, key, io);
    }
  }

  lemma NewLineIsLoaded(file: string, name: string, key: Key, io: Io)
    requires InOrder(file) && Packet.UsernameIsValid(name) && io.readable && io.writable
    requires Find(file, name) == NotFound && io.written >= |Line(name, key)|
    ensures Load(VerifyOrPin(file, name, key, io).1, name, true) == (Ok, Some(key))
  {
    hide Find, Line, Clean, Readable, Chunks, Misplaces;
    WholeLineIsFound(file, name, key);
  }

  /** A line that the file had from the start goes on being found. */
  lemma {:induction false} FoundStaysFound(file: string, calls: seq<Call>, name: string)
    requires InOrder(file) && (forall i :: 0 <= i < |calls| ==> Whole(calls[i])) && Find(file, name).Found?
    ensures Find(After(file, calls), name) == Find(file, name)
  {
    hide InOrder, Find, Line, Safe, Packet.UsernameIsValid, Reached, VerifyOrPin;
    if calls != [] {
      var before, c := calls[..|calls| - 1], calls[|calls| - 1];
      var was := After(file, before);
      FoundStaysFound(file, before, name);
      HistoryKeepsOrder(file, before);
      HistoryKeepsOrder(file, calls);
      OrderIsSafe(was, name);
      OrderIsSafe(After(file, calls), name);
      CallAppends(was, c.name, c.key, c.io);
      if After(file, calls) != was {
        AppendKeeps(was, c.name, c.key, Reached(c.name, c.key, c.io), name);
      }
    }
  }
}
