/** First key wins: what any history of verify-or-pin calls does to the contact file, torn appends included. */
module Pinning {
  import opened Octets
  import opened Stdio
  import opened Contacts
  import Packet

  // ---------------------------------------------------------------- reading an extended file

  /** The reader starts a fresh line after this text. */
  predicate Ends(line: string, max: nat) { line != "" && (line[|line| - 1] == '\n' || |line| == max) }

  lemma {:induction false} ChunkLengthAppend(file: string, x: string, max: nat)
    requires ChunkLength(file, max) < |file| || Ends(file, max)
    ensures ChunkLength(file + x, max) == ChunkLength(file, max)
  {
    if file != [] && max > 0 {
      assert (file + x)[1..] == file[1..] + x;
      if file[0] != '\n' && |file| > 1 && max > 1 {
        ChunkLengthAppend(file[1..], x, max - 1);
      }
    }
  }

  lemma ChunkWhole(file: string, max: nat)
    requires max > 0 && file != [] && |file| <= max && forall i :: 0 <= i < |file| - 1 ==> file[i] != '\n'
    ensures Chunks(file, max) == [file]
  {
    var n := ChunkLength(file, max);
    assert n == |file|;
    assert file[..n] == file && Chunks(file[n..], max) == [];
  }

  /** The text after the last line that is certainly finished. */
  function Tail(file: string, max: nat): (t: string)
    requires max > 0 && file != []
    ensures t != "" && |t| <= max && |t| <= |file|
    decreases |file|
  {
    var n := ChunkLength(file, max);
    if n == |file| then file else Tail(file[n..], max)
  }

  /** It is the end of the file and has a newline at most at its own end. */
  lemma {:induction false} TailShape(file: string, max: nat)
    requires max > 0 && file != []
    ensures var t := Tail(file, max); t == file[|file| - |t|..] && forall i :: 0 <= i < |t| - 1 ==> t[i] != '\n'
    decreases |file|
  {
    var n := ChunkLength(file, max);
    if n < |file| {
      TailShape(file[n..], max);
      hide ChunkLength;
      var k := |file| - |Tail(file, max)|;
      assert file[n..][k - n..] == file[k..];
    }
  }

  function Finished(file: string, max: nat): (r: seq<string>)
    requires max > 0 && file != []
    decreases |file|
  {
    var n := ChunkLength(file, max);
    if n == |file| then [] else [file[..n]] + Finished(file[n..], max)
  }

  function Then(first: Lookup, second: Lookup): Lookup { if first == NotFound then second else first }

  lemma SearchCons(line: string, rest: seq<string>, name: string)
    ensures
      Search([line] + rest, name)
      == match ParseLine(line)
         case None => BadFile
         case Some(c) => if c.name == name then Found(c.key) else Search(rest, name)
  {
  }

  /** A first line that the reader would finish anyway is not touched by an append. */
  lemma ChunksStep(file: string, x: string, max: nat)
    requires max > 0 && file != [] && (ChunkLength(file, max) < |file| || Ends(file, max))
    ensures var n := ChunkLength(file, max); Chunks(file + x, max) == [file[..n]] + Chunks(file[n..] + x, max)
  {
    ChunkLengthAppend(file, x, max);
    var n := ChunkLength(file, max);
    assert (file + x)[..n] == file[..n] && (file + x)[n..] == file[n..] + x;
  }

  /** Appending after a finished line adds lines. */
  lemma {:induction false} FindAppendEnds(file: string, x: string, max: nat, name: string)
    requires max > 0 && file != [] && Ends(Tail(file, max), max)
    ensures Search(Chunks(file + x, max), name) == Then(Search(Chunks(file, max), name), Search(Chunks(x, max), name))
    decreases |file|
  {
    var n := ChunkLength(file, max);
    var h, t := file[..n], file[n..];
    ChunksStep(file, x, max);
    SearchCons(h, Chunks(t + x, max), name);
    SearchCons(h, Chunks(t, max), name);
    assert Chunks(file, max) == [h] + Chunks(t, max);
    if t == [] {
      assert t + x == x && Search(Chunks(t, max), name) == NotFound;
    } else {
      FindAppendEnds(t, x, max, name);
    }
    hide Search, Chunks, ParseLine, ChunkLength, Tail;
  }

  /** Appending after an unfinished line extends that line. */
  lemma {:induction false} FindAppendOpen(file: string, x: string, max: nat, name: string)
    requires max > 0 && file != [] && !Ends(Tail(file, max), max)
    ensures
      Search(Chunks(file + x, max), name)
      == Then(Search(Finished(file, max), name), Search(Chunks(Tail(file, max) + x, max), name))
    decreases |file|
  {
    var n := ChunkLength(file, max);
    if n < |file| {
      var h, t := file[..n], file[n..];
      ChunksStep(file, x, max);
      SearchCons(h, Chunks(t + x, max), name);
      SearchCons(h, Finished(t, max), name);
      FindAppendOpen(t, x, max, name);
      assert Finished(file, max) == [h] + Finished(t, max) && Tail(file, max) == Tail(t, max);
      hide Search, Chunks, ParseLine, ChunkLength, Tail, Finished;
    } else {
      assert Finished(file, max) == [] && Tail(file, max) == file;
      assert Search(Finished(file, max), name) == NotFound;
      hide Search, Chunks;
    }
  }

  lemma {:induction false} FindSplit(file: string, max: nat, name: string)
    requires max > 0 && file != []
    ensures
      Search(Chunks(file, max), name)
      == Then(Search(Finished(file, max), name), Search([Tail(file, max)], name))
    decreases |file|
  {
    hide ParseLine;
    var n := ChunkLength(file, max);
    if n == |file| {
      ChunkWhole(file, max);
    } else {
      SearchCons(file[..n], Chunks(file[n..], max), name);
      SearchCons(file[..n], Finished(file[n..], max), name);
      FindSplit(file[n..], max, name);
      hide Search;
    }
  }

  // ---------------------------------------------------------------- parsing an extended line

  lemma {:induction false} SkipSpacesAppend(s: string, y: string)
    ensures SkipSpaces(s) != "" ==> SkipSpaces(s + y) == SkipSpaces(s) + y
    ensures SkipSpaces(s) == "" ==> SkipSpaces(s + y) == SkipSpaces(y)
  {
    if s == "" {
      assert s + y == y;
    } else if Space(s[0]) {
      SkipSpacesAppend(s[1..], y);
      assert (s + y)[1..] == s[1..] + y;
    }
  }

  lemma {:induction false} TokenAppend(s: string, y: string, max: nat)
    requires |Token(s, max)| < |s| || |Token(s, max)| == max
    ensures Token(s + y, max) == Token(s, max)
  {
    if s != "" && max > 0 && !Space(s[0]) {
      TokenAppend(s[1..], y, max - 1);
      assert (s + y)[1..] == s[1..] + y;
    }
  }

  lemma {:induction false} TokenIs(t: string, rest: string, max: nat)
    requires |t| <= max && forall i :: 0 <= i < |t| ==> !Space(t[i])
    requires rest == "" || Space(rest[0]) || |t| == max
    ensures Token(t + rest, max) == t
  {
    if t == "" {
      assert t + rest == rest;
    } else {
      TokenIs(t[1..], rest, max - 1);
      assert (t + rest)[1..] == t[1..] + rest;
    }
  }

  /** A line that names a contact stops parsing when more text is appended to it. */
  lemma ExtendedLineIsBad(line: string, y: string)
    requires ParseLine(line).Some? && '\0' !in line && '\0' !in y
    requires y != "" && !Space(y[0])
    ensures ParseLine(line + y).None?
  {
    CStringOfText(line);
    CStringOfText(line + y);
    var s := SkipSpaces(line);
    var first := Token(s, 32);
    var t := SkipSpaces(s[|first|..]);
    var second := Token(t, 64);
    assert |second| == 64;
    SkipSpacesAppend(line, y);
    assert t != "" && |first| < |s|;
    TokenAppend(s, y, 32);
    assert (s + y)[|first|..] == s[|first|..] + y;
    SkipSpacesAppend(s[|first|..], y);
    TokenAppend(t, y, 64);
    assert (t + y)[64..] == t[64..] + y;
    SkipSpacesAppend(t[64..], y);
    assert SkipSpaces(y) == y;
    hide SkipSpaces, Token, HexToKey, Packet.UsernameIsValid;
  }

  lemma NameHasNoSpace(name: string)
    requires Packet.UsernameIsValid(name)
    ensures name != "" && '\0' !in name && forall i :: 0 <= i < |name| ==> !Space(name[i]) && name[i] != '\n'
  {
  }

  /** What the parser makes of `name`, a blank and some hexadecimal digits, with or without the newline. */
  lemma ParseOwn(name: string, hex: string, end: string)
    requires Packet.UsernameIsValid(name) && 0 < |hex| <= 64 && '\0' !in hex
    requires forall i :: 0 <= i < |hex| ==> !Space(hex[i])
    requires end == "" || end == "\n"
    ensures ScanPair(CString(name + " " + hex + end), 32, 64) == Some((name, hex))
  {
    NameHasNoSpace(name);
    var line := name + " " + hex + end;
    CStringOfText(line);
    assert line == name + (" " + hex + end);
    TokenIs(name, " " + hex + end, 32);
    assert line[|name|..] == " " + hex + end;
    assert (" " + hex + end)[1..] == hex + end;
    TokenIs(hex, end, 64);
    assert (hex + end)[|hex|..] == end;
    assert SkipSpaces(end) == "";
    assert SkipSpaces(line) == line;
    assert SkipSpaces(" " + hex + end) == SkipSpaces(hex + end) == hex + end;
    hide Token, SkipSpaces;
  }

  lemma OwnLineParses(name: string, key: Key, k: nat)
    requires Packet.UsernameIsValid(name) && |Line(name, key)| - 1 <= k <= |Line(name, key)|
    ensures ParseLine(Line(name, key)[..k]) == Some(Contact(name, key))
  {
    var line, hex := Line(name, key), BinToHex(key);
    HexRoundTrip(key);
    var end := if k == |line| then "\n" else "";
    assert line[..k] == name + " " + hex + end;
    ParseOwn(name, hex, end);
    hide BinToHex, HexToBin, ScanPair;
  }

  lemma TornLineIsBad(name: string, key: Key, k: nat)
    requires Packet.UsernameIsValid(name) && 0 < k < |Line(name, key)| - 1
    ensures ParseLine(Line(name, key)[..k]) == None
  {
    var line, hex := Line(name, key), BinToHex(key);
    if k <= |name| + 1 {
      NameHasNoSpace(name);
      var first := name[..if k <= |name| then k else |name|];
      var rest := if k <= |name| then "" else " ";
      assert line[..k] == first + rest;
      CStringOfText(first + rest);
      TokenIs(first, rest, 32);
      assert (first + rest)[|first|..] == rest;
      assert SkipSpaces(first + rest) == first + rest && SkipSpaces(rest) == "" && Token("", 64) == "";
      hide Token, SkipSpaces, BinToHex;
    } else {
      var j := k - |name| - 1;
      assert line[..k] == name + " " + hex[..j] + "";
      ParseOwn(name, hex[..j], "");
      hide BinToHex, HexToBin, ScanPair;
    }
  }

  /** What the file looks like to every reader after an append that stopped after `k` characters. */
  lemma LineAlone(name: string, key: Key, k: nat, n: string)
    requires Packet.UsernameIsValid(name) && 0 < k <= |Line(name, key)|
    ensures
      Find(Line(name, key)[..k], n)
      == if k < |Line(name, key)| - 1 then BadFile else if n == name then Found(key) else NotFound
  {
    var x := Line(name, key)[..k];
    NameHasNoSpace(name);
    assert forall i :: 0 <= i < |x| - 1 ==> x[i] != '\n' by { hide BinToHex; }
    ChunkWhole(x, LINE_MAX - 1);
    if k < |Line(name, key)| - 1 {
      TornLineIsBad(name, key, k);
    } else {
      OwnLineParses(name, key, k);
    }
    SearchCons(x, [], n);
    assert [x] + [] == [x] && Search([], n) == NotFound;
    hide ParseLine, BinToHex, Chunks, Search;
  }

  predicate Clean(file: string) { file == "" || Ends(Tail(file, LINE_MAX - 1), LINE_MAX - 1) }

  /** No NUL byte where an append would continue: the file ends with a finished line, or its unfinished line is text. */
  predicate Sane(file: string) { Clean(file) || '\0' !in Tail(file, LINE_MAX - 1) }

  lemma TailStep(file: string, max: nat)
    requires max > 0 && file != ""
    ensures
      var n := ChunkLength(file, max);
      0 < n <= |file| && Tail(file, max) == if n == |file| then file else Tail(file[n..], max)
  {
  }

  /** The last line of a text is text. */
  lemma TailOfText(file: string, max: nat)
    requires max > 0 && file != "" && '\0' !in file
    ensures '\0' !in Tail(file, max)
  {
    hide Tail;
    TailShape(file, max);
    var t := Tail(file, max);
    forall i | 0 <= i < |t|
      ensures t[i] != '\0'
    {
      assert t[i] == file[|file| - |t| + i];
    }
  }

  /** Appending after a chunk that the reader would end anyway leaves that chunk alone. */
  lemma TailBeyond(file: string, x: string, max: nat)
    requires max > 0 && file != "" && x != "" && (ChunkLength(file, max) < |file| || Ends(file, max))
    ensures Tail(file + x, max) == Tail(file[ChunkLength(file, max)..] + x, max)
  {
    hide Tail, ChunkLength, Ends;
    var n := ChunkLength(file, max);
    ChunkLengthAppend(file, x, max);
    TailStep(file + x, max);
    assert (file + x)[n..] == file[n..] + x;
  }

  /** Appended text leaves no NUL in the last line. */
  lemma {:induction false} TailIsText(file: string, x: string, max: nat)
    requires max > 0 && file != "" && x != "" && '\0' !in x
    requires Ends(Tail(file, max), max) || '\0' !in Tail(file, max)
    ensures '\0' !in Tail(file + x, max)
    decreases |file|
  {
    hide Tail, ChunkLength, Ends;
    var n := ChunkLength(file, max);
    TailStep(file, max);
    if n < |file| {
      TailBeyond(file, x, max);
      TailIsText(file[n..], x, max);
    } else if Ends(file, max) {
      TailBeyond(file, x, max);
      assert file[n..] + x == x;
      TailOfText(x, max);
    } else {
      TailOfText(file + x, max);
    }
  }

  lemma SaneGrows(file: string, x: string)
    requires Sane(file) && '\0' !in x
    ensures Sane(file + x)
  {
    hide Tail;
    if x == "" {
      assert file + x == file;
    } else if file == "" {
      assert file + x == x;
      TailOfText(x, LINE_MAX - 1);
    } else {
      TailIsText(file, x, LINE_MAX - 1);
    }
  }

  lemma AppendToClean(file: string, name: string, key: Key, k: nat, n: string)
    requires Packet.UsernameIsValid(name) && 0 < k <= |Line(name, key)| && Clean(file)
    ensures Find(file + Line(name, key)[..k], n) == Then(Find(file, n), Find(Line(name, key)[..k], n))
  {
    var x := Line(name, key)[..k];
    if file == "" {
      assert file + x == x;
    } else {
      FindAppendEnds(file, x, LINE_MAX - 1, n);
    }
    hide Chunks, Tail, Line;
  }

  lemma {:induction false} SearchUnfound(lines: seq<string>, name: string, n: string)
    requires Search(lines, name) == NotFound
    ensures Search(lines, n) != BadFile
  {
    if lines != [] {
      SearchUnfound(lines[1..], name, n);
    }
    hide ParseLine;
  }

  lemma ExtendedTail(tail: string, x: string, max: nat, n: string)
    requires ParseLine(tail).Some? && '\0' !in tail && '\0' !in x && |tail| < max && '\n' !in tail
    requires x != "" && !Space(x[0])
    ensures Search(Chunks(tail + x, max), n) == BadFile
  {
    var m := ChunkLength(tail + x, max);
    assert m > |tail| by {
      assert forall i :: 0 <= i < |tail| ==> (tail + x)[i] != '\n';
    }
    var y := x[..m - |tail|];
    assert (tail + x)[..m] == tail + y;
    ExtendedLineIsBad(tail, y);
    hide ParseLine, ChunkLength;
  }

  lemma TailParses(file: string, max: nat, name: string)
    requires max > 0 && file != "" && Search(Chunks(file, max), name) == NotFound
    ensures ParseLine(Tail(file, max)).Some? && Search(Finished(file, max), name) == NotFound
  {
    FindSplit(file, max, name);
    hide ParseLine, Tail, Finished, Chunks;
  }

  lemma LineIsPlain(name: string, key: Key, k: nat)
    requires Packet.UsernameIsValid(name) && 0 < k <= |Line(name, key)|
    ensures var x := Line(name, key)[..k]; x != "" && !Space(x[0]) && '\0' !in x
  {
  }

  /** An unfinished line is text, without a newline, and shorter than the reader's buffer. */
  lemma OpenTail(file: string)
    requires !Clean(file) && Sane(file)
    ensures file != "" && !Ends(Tail(file, LINE_MAX - 1), LINE_MAX - 1)
    ensures var tail := Tail(file, LINE_MAX - 1); '\0' !in tail && '\n' !in tail && |tail| < LINE_MAX - 1
  {
    hide Tail;
    TailShape(file, LINE_MAX - 1);
    var tail := Tail(file, LINE_MAX - 1);
    assert tail[|tail| - 1] != '\n';
  }

  /** Appending to an unfinished line damages it: nobody new is found, and nobody gets another key. */
  lemma AppendToOpen(file: string, name: string, key: Key, k: nat, n: string)
    requires Packet.UsernameIsValid(name) && 0 < k <= |Line(name, key)| && !Clean(file) && Sane(file)
    requires Find(file, name) == NotFound
    ensures
      var after := Find(file + Line(name, key)[..k], n);
      && (Find(file, n) == NotFound ==> after == BadFile)
      && (Find(file, n).Found? ==> after == Find(file, n) || after == BadFile)
  {
    hide ParseLine, Chunks, Tail, Finished, Line, ChunkLength, Search, Clean, Sane;
    var max := LINE_MAX - 1;
    OpenTail(file);
    var x, tail := Line(name, key)[..k], Tail(file, max);
    LineIsPlain(name, key, k);
    TailParses(file, max, name);
    ExtendedTail(tail, x, max, n);
    FindAppendOpen(file, x, max, n);
    FindSplit(file, max, n);
    SearchUnfound(Finished(file, max), name, n);
  }

  // ---------------------------------------------------------------- unfinished lines with a NUL byte

  lemma {:induction false} CStringCut(s: string, rest: string)
    requires '\0' !in s && rest != "" && rest[0] == '\0'
    ensures CString(s + rest) == s
  {
    if s != [] {
      assert (s + rest)[1..] == s[1..] + rest;
      CStringCut(s[1..], rest);
      assert s == [s[0]] + s[1..];
    } else {
      assert s + rest == rest;
    }
  }

  /** What follows a NUL in a line is not read. */
  lemma BehindNul(line: string, y: string)
    requires '\0' in line
    ensures ParseLine(line + y) == ParseLine(line)
  {
    var c := CString(line);
    var rest := line[|c|..];
    assert line == c + rest && line + y == c + (rest + y);
    CStringCut(c, rest);
    CStringCut(c, rest + y);
    hide ScanPair, HexToKey, Packet.UsernameIsValid;
  }

  lemma {:induction false} TokenStops(s: string, max: nat)
    requires |Token(s, max)| < max && |Token(s, max)| < |s|
    ensures Space(s[|Token(s, max)|])
  {
    if !Space(s[0]) {
      TokenStops(s[1..], max - 1);
    }
  }

  /** A name, a blank and a key are at least 68 characters. */
  lemma ParsedIsLong(line: string)
    requires ParseLine(line).Some?
    ensures |CString(line)| >= 68
  {
    var s := SkipSpaces(CString(line));
    var first := Token(s, 32);
    var t := SkipSpaces(s[|first|..]);
    assert |first| >= 3 && |t| >= 64;
    if |first| < 32 {
      TokenStops(s, 32);
    }
    hide Token, CString, HexToKey, Packet.UsernameIsValid;
  }

  /** How many more characters the reader takes as part of the last line. */
  function Room(file: string): (r: nat)
    requires file != ""
  {
    LINE_MAX - 1 - |Tail(file, LINE_MAX - 1)|
  }

  lemma BlindTail(file: string)
    requires !Sane(file)
    ensures file != "" && !Ends(Tail(file, LINE_MAX - 1), LINE_MAX - 1) && Room(file) > 0
    ensures var tail := Tail(file, LINE_MAX - 1); '\0' in tail && '\n' !in tail
  {
    hide Tail;
    TailShape(file, LINE_MAX - 1);
    var tail := Tail(file, LINE_MAX - 1);
    assert tail[|tail| - 1] != '\n';
  }

  lemma BlindRoom(file: string, name: string)
    requires !Sane(file) && Find(file, name) == NotFound
    ensures 1 <= Room(file) <= 30
  {
    hide Tail, ParseLine, Chunks, Search, Finished;
    BlindTail(file);
    TailParses(file, LINE_MAX - 1, name);
    ParsedIsLong(Tail(file, LINE_MAX - 1));
    assert CString(Tail(file, LINE_MAX - 1)) != Tail(file, LINE_MAX - 1);
  }

  lemma BlindChunks(tail: string, x: string, n: string)
    requires '\0' in tail && '\n' !in tail && 0 < |tail| < LINE_MAX - 1
    requires 0 < |x| < LINE_MAX - 1 && forall i :: 0 <= i < |x| - 1 ==> x[i] != '\n'
    ensures
      var r := LINE_MAX - 1 - |tail|;
      Search(Chunks(tail + x, LINE_MAX - 1), n)
      == if |x| <= r then Search([tail], n) else Then(Search([tail], n), Search([x[r..]], n))
  {
    hide ParseLine;
    var max := LINE_MAX - 1;
    var r := max - |tail|;
    if |x| <= r {
      BehindNul(tail, x);
      ChunkWhole(tail + x, max);
      hide Chunks;
    } else {
      var one, two := tail + x[..r], x[r..];
      BehindNul(tail, x[..r]);
      assert tail + x == one + two;
      ChunkWhole(one, max);
      ChunkWhole(two, max);
      var n' := ChunkLength(one, max);
      assert n' == |one| && one[..n'] == one && one[n'..] + two == two;
      ChunksStep(one, two, max);
      hide Chunks;
      SearchCons(one, [two], n);
    }
  }

  /** What an append behind a NUL does: the characters that fit into the last line are not read, and the others are
      a line of their own. */
  lemma BlindAppend(file: string, x: string, n: string)
    requires !Sane(file) && 0 < |x| < LINE_MAX - 1 && forall i :: 0 <= i < |x| - 1 ==> x[i] != '\n'
    ensures file != ""
    ensures
      Find(file + x, n)
      == if |x| <= Room(file) then Find(file, n) else Then(Find(file, n), Search([x[Room(file)..]], n))
  {
    hide ParseLine, Chunks, Tail, Finished, ChunkLength, Search, Clean, Sane, Ends;
    BlindTail(file);
    var max := LINE_MAX - 1;
    BlindChunks(Tail(file, max), x, n);
    FindAppendOpen(file, x, max, n);
    FindSplit(file, max, n);
  }

  /** A line that lost its beginning parses exactly when it is whole from there on and what is left of the name is a
      name; it is then that name's line. */
  lemma SuffixParses(name: string, key: Key, d: nat, k: nat)
    requires Packet.UsernameIsValid(name) && 0 < d < k <= |Line(name, key)|
    ensures
      ParseLine(Line(name, key)[d..k])
      == if d + 3 <= |name| && k >= |Line(name, key)| - 1 then Some(Contact(name[d..], key)) else None
  {
    hide ParseLine, BinToHex, CString, Packet.UsernameIsValid;
    var line := Line(name, key);
    NameLength(name);
    if d + 3 <= |name| {
      var rest := name[d..];
      SuffixIsName(name, d);
      assert line[d..] == Line(rest, key) && line[d..k] == line[d..][..k - d];
      if k >= |line| - 1 {
        OwnLineParses(rest, key, k - d);
      } else {
        TornLineIsBad(rest, key, k - d);
      }
    } else if d < |name| {
      NameHasNoSpace(name);
      assert line[d..] == name[d..] + " " + (BinToHex(key) + "\n") && line[d..k] == line[d..][..k - d];
      ShortNameIsBad(name[d..], BinToHex(key) + "\n", k - d);
    } else if ParseLine(line[d..k]).Some? {
      ParsedIsLong(line[d..k]);
    }
  }

  lemma SuffixIsName(name: string, d: nat)
    requires Packet.UsernameIsValid(name) && d + 3 <= |name|
    ensures Packet.UsernameIsValid(name[d..])
  {
  }

  lemma NameLength(name: string)
    requires Packet.UsernameIsValid(name)
    ensures 3 <= |name| <= 32
  {
  }

  lemma ShortNameIsBad(name: string, rest: string, k: nat)
    requires 0 < |name| < 3 && (forall i :: 0 <= i < |name| ==> !Space(name[i]) && name[i] != '\0')
    requires 0 < k <= |name| + 1 + |rest| && '\0' !in rest
    ensures ParseLine((name + " " + rest)[..k]) == None
  {
    var first := if k <= |name| then name[..k] else name;
    var after := if k <= |name| then "" else (" " + rest)[..k - |name|];
    assert (name + " " + rest)[..k] == first + after;
    CStringOfText(first + after);
    TokenIs(first, after, 32);
    assert SkipSpaces(first + after) == first + after;
    hide Token, SkipSpaces, HexToKey;
  }

  lemma LineShape(name: string, key: Key)
    requires Packet.UsernameIsValid(name)
    ensures var x := Line(name, key); |x| == |name| + 66 < LINE_MAX - 1 && forall i :: 0 <= i < |x| - 1 ==> x[i] != '\n'
  {
    NameHasNoSpace(name);
  }

  /** The whole effect of an append of `k` characters behind a NUL. */
  lemma AppendToBlind(file: string, name: string, key: Key, k: nat, n: string)
    requires !Sane(file) && Packet.UsernameIsValid(name) && 0 < k <= |Line(name, key)|
    requires Find(file, name) == NotFound
    ensures file != "" && 1 <= Room(file) <= 30
    ensures
      Find(file + Line(name, key)[..k], n)
      == if k <= Room(file) then Find(file, n)
         else if Room(file) + 3 <= |name| && k >= |Line(name, key)| - 1
         then Then(Find(file, n), if n == name[Room(file)..] then Found(key) else NotFound)
         else Then(Find(file, n), BadFile)
  {
    hide Find, Line, Sane, ParseLine, Tail, Packet.UsernameIsValid;
    BlindRoom(file, name);
    LineShape(name, key);
    var x, r := Line(name, key)[..k], Room(file);
    BlindAppend(file, x, n);
    if k > r {
      SuffixParses(name, key, r, k);
      assert x[r..] == Line(name, key)[r..k];
      SearchCons(x[r..], [], n);
      assert [x[r..]] + [] == [x[r..]] && Search([], n) == NotFound;
    }
  }

  /** Will a whole line for the name be lost behind a NUL, its key going to what is left of the name? */
  predicate Misplaces(file: string, name: string) {
    !Sane(file) && |Tail(file, LINE_MAX - 1)| + |name| >= LINE_MAX + 2
  }

  /** The outcome of a completed append, on every file: the name is found with its key exactly when the file had no
      unfinished line. Otherwise the reader refuses the file, unless the unfinished line has a NUL byte and is long
      enough to swallow a part of the name. */
  lemma WholeLineIsFound(file: string, name: string, key: Key)
    requires Packet.UsernameIsValid(name) && Find(file, name) == NotFound
    ensures
      Find(file + Line(name, key), name)
      == if Clean(file) then Found(key) else if Misplaces(file, name) then NotFound else BadFile
  {
    hide Find, Line, Clean, Packet.UsernameIsValid;
    var line := Line(name, key);
    LineShape(name, key);
    assert line[..|line|] == line;
    if Clean(file) {
      AppendToClean(file, name, key, |line|, name);
      LineAlone(name, key, |line|, name);
    } else if Sane(file) {
      AppendToOpen(file, name, key, |line|, name);
    } else {
      AppendToBlind(file, name, key, |line|, name);
    }
  }

  /** The pins that go astray: the key of a lost line is found under the rest of its name, if that name was new. */
  lemma PinIsMisplaced(file: string, name: string, key: Key, n: string)
    requires Packet.UsernameIsValid(name) && Find(file, name) == NotFound && Misplaces(file, name)
    ensures 1 <= Room(file) && Room(file) + 3 <= |name| && Packet.UsernameIsValid(name[Room(file)..])
    ensures
      Find(file + Line(name, key), n)
      == if n == name[Room(file)..] && Find(file, n) == NotFound then Found(key) else Find(file, n)
  {
    hide Find, Line, Sane, Tail;
    var line := Line(name, key);
    LineShape(name, key);
    assert line[..|line|] == line;
    AppendToBlind(file, name, key, |line|, n);
  }

  // ---------------------------------------------------------------- files that can be trusted

  /** Some name of at least four characters can still be added. */
  ghost predicate Extensible(file: string) {
    exists n :: Packet.UsernameIsValid(n) && |n| >= 4 && Find(file, n) == NotFound
  }

  ghost predicate Safe(file: string) { Sane(file) || !Extensible(file) }

  /** A file that only takes names of three characters refuses every line that reaches beyond the unfinished one. */
  lemma AppendToFull(file: string, name: string, key: Key, k: nat, n: string)
    requires !Sane(file) && !Extensible(file)
    requires Packet.UsernameIsValid(name) && 0 < k <= |Line(name, key)| && Find(file, name) == NotFound
    ensures
      var after := Find(file + Line(name, key)[..k], n);
      after == Find(file, n) || after == Then(Find(file, n), BadFile)
    ensures k == |Line(name, key)| ==> Find(file + Line(name, key)[..k], n) == Then(Find(file, n), BadFile)
  {
    hide Find, Line, Sane, Tail;
    LineShape(name, key);
    AppendToBlind(file, name, key, k, n);
  }

  lemma SafeGrows(file: string, name: string, key: Key, k: nat)
    requires Safe(file) && Packet.UsernameIsValid(name) && 0 < k <= |Line(name, key)| && Find(file, name) == NotFound
    ensures Safe(file + Line(name, key)[..k])
  {
    hide Find, Line, Sane, Packet.UsernameIsValid;
    var after := file + Line(name, key)[..k];
    if Sane(file) {
      LineIsPlain(name, key, k);
      SaneGrows(file, Line(name, key)[..k]);
    } else if Extensible(after) {
      var n :| Packet.UsernameIsValid(n) && |n| >= 4 && Find(after, n) == NotFound;
      AppendToFull(file, name, key, k, n);
    }
  }

  // ---------------------------------------------------------------- histories of calls

  /** Every contact verified so far is still found with its key, unless the reader now refuses the file. */
  ghost predicate Agrees(file: string, verified: seq<Contact>) {
    forall c :: c in verified ==> Find(file, c.name) == Found(c.key) || Find(file, c.name) == BadFile
  }

  ghost predicate OneKeyPerName(verified: seq<Contact>) {
    forall c, d :: c in verified && d in verified && c.name == d.name ==> c.key == d.key
  }

  /** How far one call's append got. */
  function Reached(name: string, key: Key, io: Io): (k: nat)
    ensures k <= |Line(name, key)|
  {
    if io.written < |Line(name, key)| then io.written else |Line(name, key)|
  }

  /** The one way a call changes the file: a prefix of the new line, and only when every line parsed and none
      matched. */
  lemma CallAppends(file: string, name: string, key: Key, io: Io)
    ensures
      var (result, after, isNew) := VerifyOrPin(file, name, key, io);
      || after == file
      || (Packet.UsernameIsValid(name) && Find(file, name) == NotFound && Reached(name, key, io) > 0
          && after == file + Line(name, key)[..Reached(name, key, io)])
  {
  }

  /** An append, torn or whole, never changes the key that anyone is found with. */
  lemma AppendKeeps(file: string, name: string, key: Key, k: nat, n: string)
    requires Safe(file) && Packet.UsernameIsValid(name) && 0 < k <= |Line(name, key)|
    requires Find(file, name) == NotFound
    ensures
      var before, after := Find(file, n), Find(file + Line(name, key)[..k], n);
      && (before.Found? ==> after == before || after == BadFile)
      && (before == NotFound ==> after == NotFound || after == BadFile || (after == Found(key) && n == name))
  {
    hide Find, Line, Clean, Sane, Extensible;
    if Clean(file) {
      AppendToClean(file, name, key, k, n);
      LineAlone(name, key, k, n);
    } else if Sane(file) {
      AppendToOpen(file, name, key, k, n);
    } else {
      AppendToFull(file, name, key, k, n);
    }
  }

  lemma NotFoundIsClean(file: string, name: string, n: string)
    requires Find(file, name) == NotFound
    ensures Find(file, n) != BadFile
  {
    SearchUnfound(Chunks(file, LINE_MAX - 1), name, n);
    hide Chunks, Search;
  }

  /** What every history of calls keeps. */
  ghost predicate Trusted(file: string, verified: seq<Contact>) {
    Safe(file) && Agrees(file, verified) && OneKeyPerName(verified)
  }

  lemma AppendAgrees(file: string, verified: seq<Contact>, name: string, key: Key, k: nat)
    requires Safe(file) && Packet.UsernameIsValid(name) && 0 < k <= |Line(name, key)|
    requires Find(file, name) == NotFound && Agrees(file, verified)
    ensures Agrees(file + Line(name, key)[..k], verified)
  {
    hide Find, Line;
    forall c | c in verified
      ensures
        var after := Find(file + Line(name, key)[..k], c.name);
        after == Found(c.key) || after == BadFile
    {
      NotFoundIsClean(file, name, c.name);
      AppendKeeps(file, name, key, k, c.name);
    }
  }

  /** One more call keeps the file in agreement with everything verified before, and a success never contradicts it. */
  lemma CallKeepsTrust(file: string, verified: seq<Contact>, name: string, key: Key, io: Io)
    requires Trusted(file, verified)
    ensures
      var (result, after, isNew) := VerifyOrPin(file, name, key, io);
      Trusted(after, if result == Ok then verified + [Contact(name, key)] else verified)
  {
    hide VerifyOrPin, Find, Line, Reached, Safe;
    var (result, after, isNew) := VerifyOrPin(file, name, key, io);
    CallAppends(file, name, key, io);
    VerifiedOk(file, name, key, io);
    if after != file {
      SafeGrows(file, name, key, Reached(name, key, io));
      AppendAgrees(file, verified, name, key, Reached(name, key, io));
    }
    if result == Ok && Find(file, name) == NotFound {
      SafePinIsKept(file, name, key);
    }
  }

  lemma SafePinIsKept(file: string, name: string, key: Key)
    requires Safe(file) && Packet.UsernameIsValid(name) && Find(file, name) == NotFound
    ensures Find(file + Line(name, key), name) == Found(key) || Find(file + Line(name, key), name) == BadFile
  {
    hide Find, Line, Clean, Sane, Packet.UsernameIsValid;
    WholeLineIsFound(file, name, key);
    if Misplaces(file, name) {
      PinIsMisplaced(file, name, key, name);
    }
  }

  lemma VerifiedOk(file: string, name: string, key: Key, io: Io)
    ensures
      var (result, after, isNew) := VerifyOrPin(file, name, key, io);
      && (result == Ok ==> Find(file, name) == NotFound || Find(file, name) == Found(key))
      && (result == Ok && Find(file, name) == NotFound ==> after == file + Line(name, key))
      && (result == Ok ==> Packet.UsernameIsValid(name))
  {
  }

  datatype Call = Call(name: string, key: Key, io: Io)

  function After(file: string, calls: seq<Call>): string {
    if calls == [] then file
    else
      var c := calls[|calls| - 1];
      VerifyOrPin(After(file, calls[..|calls| - 1]), c.name, c.key, c.io).1
  }

  function Verified(file: string, calls: seq<Call>): seq<Contact> {
    if calls == [] then []
    else
      var before, c := calls[..|calls| - 1], calls[|calls| - 1];
      if VerifyOrPin(After(file, before), c.name, c.key, c.io).0 == Ok then Verified(file, before)
        + [Contact(c.name, c.key)]
      else Verified(file, before)
  }

  /** A history in which all successful checks of a name used one key, and a key that can be loaded for a checked name
      is that key. */
  ghost predicate Kept(file: string, calls: seq<Call>) {
    && OneKeyPerName(Verified(file, calls))
    && forall c, key ::
         c in Verified(file, calls) && Load(After(file, calls), c.name, true) == (Ok, Some(key)) ==> key == c.key
  }

  lemma {:induction false} HistoryIsTrusted(file: string, calls: seq<Call>)
    requires Safe(file)
    ensures Trusted(After(file, calls), Verified(file, calls)) && Kept(file, calls)
  {
    hide VerifyOrPin, Find, Safe;
    if calls != [] {
      var before, c := calls[..|calls| - 1], calls[|calls| - 1];
      HistoryIsTrusted(file, before);
      CallKeepsTrust(After(file, before), Verified(file, before), c.name, c.key, c.io);
    }
  }

  lemma {:induction false} TailExtends(file: string, y: string, max: nat)
    requires max > 0 && file != "" && !Ends(Tail(file, max), max) && |Tail(file, max)| + |y| <= max && '\n' !in y
    ensures Tail(file + y, max) == Tail(file, max) + y
    decreases |file|
  {
    hide Tail, ChunkLength;
    var n := ChunkLength(file, max);
    TailStep(file, max);
    if y == "" {
      assert file + y == file && Tail(file, max) + y == Tail(file, max);
    } else if n < |file| {
      TailBeyond(file, y, max);
      TailExtends(file[n..], y, max);
    } else {
      TailStep(file + y, max);
      assert '\n' !in file + y;
      assert ChunkLength(file + y, max) == |file + y|;
    }
  }

  /** A torn append behind a NUL can leave as much of the unfinished line as it likes, and is not seen. */
  lemma FilledTo(file: string, name: string, key: Key, d: nat, n: string)
    requires !Sane(file) && Packet.UsernameIsValid(name) && Find(file, name) == NotFound && file != ""
    requires 1 <= d <= Room(file)
    ensures Room(file) - d <= |Line(name, key)|
    ensures
      var after := file + Line(name, key)[..Room(file) - d];
      !Sane(after) && after != "" && Room(after) == d && Find(after, n) == Find(file, n)
  {
    hide Find, Line, Tail, Packet.UsernameIsValid;
    BlindRoom(file, name);
    BlindTail(file);
    LineShape(name, key);
    NameLength(name);
    var k := Room(file) - d;
    var y := Line(name, key)[..k];
    if k > 0 {
      AppendToBlind(file, name, key, k, n);
    } else {
      assert file + y == file;
    }
    TailExtends(file, y, LINE_MAX - 1);
    var tail := Tail(file, LINE_MAX - 1) + y;
    assert '\0' in tail && '\n' !in tail && |tail| == LINE_MAX - 1 - d;
  }

  lemma TwoKeysAreNotKept(file: string, calls: seq<Call>, name: string)
    requires Contact(name, ZERO_KEY) in Verified(file, calls) && Contact(name, ONE_KEY) in Verified(file, calls)
    ensures !Kept(file, calls)
  {
    hide Verified, After;
    assert ZERO_KEY[31] != ONE_KEY[31];
  }

  /** How a file that is not safe accepts two keys for one name: the unfinished line is filled up to one character,
      and then each pin of the name is lost. */
  lemma PinsTwice(file: string, name: string, one: Key, two: Key) returns (calls: seq<Call>)
    requires !Sane(file) && Packet.UsernameIsValid(name) && |name| >= 4 && Find(file, name) == NotFound
    ensures Contact(name, one) in Verified(file, calls) && Contact(name, two) in Verified(file, calls)
  {
    hide Find, Line, Sane, Tail, Packet.UsernameIsValid;
    BlindRoom(file, name);
    LineShape(name, one);
    LineShape(name, two);
    var r := Room(file);
    var torn, whole := Io(true, true, r - 1, true), Io(true, true, LINE_MAX, true);
    var c0, c1, c2 := Call(name, one, torn), Call(name, one, whole), Call(name, two, whole);
    calls := [c0, c1, c2];
    var file1 := file + Line(name, one)[..r - 1];
    assert calls[..2] == [c0, c1] && calls[..2][..1] == [c0] && [c0][..0] == [];
    assert After(file, []) == file && After(file, [c0]) == file1;
    FilledTo(file, name, one, 1, name);
    var file2 := file1 + Line(name, one);
    assert After(file, [c0, c1]) == file2 && VerifyOrPin(file1, name, one, whole).0 == Ok;
    PinIsMisplaced(file1, name, one, name);
    assert VerifyOrPin(file2, name, two, whole).0 == Ok;
    assert Verified(file, [c0, c1]) == Verified(file, [c0]) + [Contact(name, one)];
    assert Verified(file, calls) == Verified(file, [c0, c1]) + [Contact(name, two)];
  }

  /** First key wins, over every history of calls and whatever the appends did, exactly on the safe files. */
  lemma FirstKeyWins(file: string)
    ensures Safe(file) <==> forall calls :: Kept(file, calls)
  {
    hide Find, Sane, Kept, Packet.UsernameIsValid;
    if Safe(file) {
      forall calls ensures Kept(file, calls) { HistoryIsTrusted(file, calls); }
    } else {
      var name :| Packet.UsernameIsValid(name) && |name| >= 4 && Find(file, name) == NotFound;
      var calls := PinsTwice(file, name, ZERO_KEY, ONE_KEY);
      TwoKeysAreNotKept(file, calls, name);
    }
  }

  // ---------------------------------------------------------------- where loaded keys come from

  /** Can a pin give its key to the rest of its name? Both names must be new, and the part that is swallowed must fit
      into the unfinished line. */
  ghost predicate Misdirects(file: string) {
    && !Sane(file)
    && exists n, d: nat ::
         && Packet.UsernameIsValid(n) && 1 <= d <= Room(file) && d + 3 <= |n|
         && Find(file, n) == NotFound && Find(file, n[d..]) == NotFound
  }

  /** A line that reaches beyond the unfinished one leaves text at the end. */
  lemma OverflowIsSane(file: string, x: string)
    requires !Sane(file) && file != "" && '\0' !in x && Room(file) < |x|
    requires forall i :: 0 <= i < |x| - 1 ==> x[i] != '\n'
    ensures Sane(file + x)
  {
    hide Tail, ChunkLength;
    BlindTail(file);
    var r, max := Room(file), LINE_MAX - 1;
    var one, two := file + x[..r], x[r..];
    assert file + x == one + two;
    TailExtends(file, x[..r], max);
    TailIsText(one, two, max);
  }

  /** One append to a file that does not misdirect: found names keep their keys, and only the pinned name is new. */
  lemma AppendIsDirect(file: string, name: string, key: Key, k: nat, n: string)
    requires !Misdirects(file) && Packet.UsernameIsValid(name) && 0 < k <= |Line(name, key)|
    requires Find(file, name) == NotFound
    ensures
      var before, after := Find(file, n), Find(file + Line(name, key)[..k], n);
      && (before.Found? ==> after == before || after == BadFile)
      && (before == NotFound ==> after == NotFound || after == BadFile || (after == Found(key) && n == name))
      && (after == NotFound ==> before == NotFound)
  {
    hide Find, Line, Sane, Packet.UsernameIsValid, Tail;
    NotFoundIsClean(file, name, n);
    if Sane(file) {
      AppendKeeps(file, name, key, k, n);
    } else {
      AppendToBlind(file, name, key, k, n);
    }
  }

  lemma DirectGrows(file: string, name: string, key: Key, k: nat)
    requires !Misdirects(file) && Packet.UsernameIsValid(name) && 0 < k <= |Line(name, key)|
    requires Find(file, name) == NotFound
    ensures !Misdirects(file + Line(name, key)[..k])
  {
    hide Find, Line, Sane, Packet.UsernameIsValid, Tail;
    var x := Line(name, key)[..k];
    LineIsPlain(name, key, k);
    LineShape(name, key);
    if Sane(file) {
      SaneGrows(file, x);
    } else {
      BlindRoom(file, name);
      if k > Room(file) {
        OverflowIsSane(file, x);
      } else if k == Room(file) {
        FilledIsSane(file, x);
      } else if Misdirects(file + x) {
        var n, d: nat :| Packet.UsernameIsValid(n) && 1 <= d <= Room(file + x) && d + 3 <= |n|
          && Find(file + x, n) == NotFound && Find(file + x, n[d..]) == NotFound;
        FilledTo(file, name, key, Room(file) - k, n);
        AppendIsDirect(file, name, key, k, n);
        AppendIsDirect(file, name, key, k, n[d..]);
      }
    }
  }

  lemma FilledIsSane(file: string, x: string)
    requires !Sane(file) && file != "" && |x| == Room(file) && '\n' !in x
    ensures Sane(file + x)
  {
    hide Tail;
    BlindTail(file);
    TailExtends(file, x, LINE_MAX - 1);
  }

  ghost predicate WasOffered(file: string, calls: seq<Call>, name: string, key: Key) {
    Find(file, name) == Found(key) || exists i :: 0 <= i < |calls| && calls[i].name == name && calls[i].key == key
  }

  /** No load after these calls returns a key that the file did not start with and that no call offered for that
      name. */
  ghost predicate Sourced(file: string, calls: seq<Call>) {
    forall name, key :: Load(After(file, calls), name, true) == (Ok, Some(key)) ==> WasOffered(file, calls, name, key)
  }

  lemma {:induction false} HistoryIsDirect(file: string, calls: seq<Call>)
    requires !Misdirects(file)
    ensures !Misdirects(After(file, calls)) && forall name, key ::
        Find(After(file, calls), name) == Found(key) ==> WasOffered(file, calls, name, key)
  {
    hide VerifyOrPin, Find, Line, Reached, Misdirects;
    if calls != [] {
      var before, c := calls[..|calls| - 1], calls[|calls| - 1];
      var was, k := After(file, before), Reached(c.name, c.key, c.io);
      HistoryIsDirect(file, before);
      CallAppends(was, c.name, c.key, c.io);
      if After(file, calls) != was {
        DirectGrows(was, c.name, c.key, k);
      }
      forall name, key | Find(After(file, calls), name) == Found(key)
        ensures WasOffered(file, calls, name, key)
      {
        if After(file, calls) != was {
          AppendIsDirect(was, c.name, c.key, k, name);
          NotFoundIsClean(was, c.name, name);
        }
        if Find(was, name) == Found(key) {
          OfferedBefore(file, before, c, name, key);
          assert calls == before + [c];
        } else {
          assert calls[|calls| - 1].name == name && calls[|calls| - 1].key == key;
        }
      }
    }
  }

  lemma OfferedBefore(file: string, before: seq<Call>, c: Call, name: string, key: Key)
    requires WasOffered(file, before, name, key)
    ensures WasOffered(file, before + [c], name, key)
  {
    hide Find;
    if Find(file, name) != Found(key) {
      var i :| 0 <= i < |before| && before[i].name == name && before[i].key == key;
      assert (before + [c])[i] == before[i];
    }
  }

  /** How a misdirecting file comes to a key that nobody offered for its name. */
  lemma PinsAnother(file: string, n: string, d: nat, key: Key) returns (calls: seq<Call>)
    requires !Sane(file) && file != "" && Packet.UsernameIsValid(n) && 1 <= d <= Room(file) && d + 3 <= |n|
    requires Find(file, n) == NotFound && Find(file, n[d..]) == NotFound
    ensures Load(After(file, calls), n[d..], true) == (Ok, Some(key)) && !WasOffered(file, calls, n[d..], key)
  {
    hide Find, Line, Sane, Tail, Packet.UsernameIsValid;
    LineShape(n, key);
    NameLength(n);
    FilledTo(file, n, key, d, n);
    FilledTo(file, n, key, d, n[d..]);
    var torn, whole := Io(true, true, Room(file) - d, true), Io(true, true, LINE_MAX, true);
    var c0, c1 := Call(n, key, torn), Call(n, key, whole);
    calls := [c0, c1];
    assert calls[..1] == [c0] && [c0][..0] == [];
    BlindRoom(file, n);
    var file1 := file + Line(n, key)[..Room(file) - d];
    assert After(file, []) == file && After(file, [c0]) == file1;
    assert After(file, calls) == file1 + Line(n, key);
    PinIsMisplaced(file1, n, key, n[d..]);
    assert |n[d..]| != |n|;
  }

  /** Every key that any history loads was offered for that name or was in the file from the start, exactly on the
      files that do not misdirect. */
  lemma LoadedKeyWasOffered(file: string)
    ensures !Misdirects(file) <==> forall calls :: Sourced(file, calls)
  {
    hide Find, Sane, Packet.UsernameIsValid, WasOffered, After, Tail;
    if Misdirects(file) {
      var n, d: nat :| Packet.UsernameIsValid(n) && 1 <= d <= Room(file) && d + 3 <= |n|
        && Find(file, n) == NotFound && Find(file, n[d..]) == NotFound;
      var calls := PinsAnother(file, n, d, ZERO_KEY);
      assert !Sourced(file, calls);
    } else {
      forall calls ensures Sourced(file, calls) { HistoryIsDirect(file, calls); }
    }
  }

  /** After an append that was cut inside its line, every name that was not found before meets a refused file, unless
      all that was written is hidden behind a NUL byte. */
  lemma TornAppendIsRefused(file: string, name: string, key: Key, k: nat, n: string)
    requires Packet.UsernameIsValid(name) && 0 < k < |Line(name, key)| - 1
    requires Find(file, name) == NotFound && Find(file, n) == NotFound
    ensures
      Find(file + Line(name, key)[..k], n) == if !Sane(file) && k <= Room(file) then NotFound else BadFile
  {
    hide Find, Line, Clean, Tail, Packet.UsernameIsValid;
    if Clean(file) {
      AppendToClean(file, name, key, k, n);
      LineAlone(name, key, k, n);
    } else if Sane(file) {
      AppendToOpen(file, name, key, k, n);
    } else {
      AppendToBlind(file, name, key, k, n);
    }
  }

  // ---------------------------------------------------------------- which files are safe

  /** Can the reader make a contact of every line? */
  predicate Readable(lines: seq<string>) { forall i :: 0 <= i < |lines| ==> ParseLine(lines[i]).Some? }

  lemma {:induction false} UnfoundIsReadable(lines: seq<string>, name: string)
    requires Search(lines, name) == NotFound
    ensures Readable(lines)
  {
    hide ParseLine;
    if lines != [] {
      UnfoundIsReadable(lines[1..], name);
      assert forall i :: 0 < i < |lines| ==> lines[i] == lines[1..][i - 1];
    }
  }

  /** The names that a file has lines for. */
  function Taken(lines: seq<string>): (r: set<string>)
    ensures |r| <= |lines|
  {
    if lines == [] then {}
    else
      (match ParseLine(lines[0])
       case None => {}
       case Some(c) => {c.name})
      + Taken(lines[1..])
  }

  lemma {:induction false} UntakenIsUnfound(lines: seq<string>, name: string)
    requires Readable(lines) && name !in Taken(lines)
    ensures Search(lines, name) == NotFound
  {
    hide ParseLine;
    if lines != [] {
      assert ParseLine(lines[0]).Some?;
      UntakenIsUnfound(lines[1..], name);
    }
  }

  function Symbol(d: nat): (c: char)
    requires d < 64
    ensures Packet.NameChar(c)
  {
    if d < 10 then '0' + d as char
    else if d < 36 then 'a' + (d - 10) as char
    else if d < 62 then 'A' + (d - 36) as char
    else if d == 62 then '_'
    else '-'
  }

  function Power(width: nat): (n: nat)
    ensures n > 0
  {
    if width == 0 then 1 else 64 * Power(width - 1)
  }

  /** The i-th name of that many characters. */
  function NameOf(i: nat, width: nat): (name: string)
    ensures |name| == width && forall j :: 0 <= j < width ==> Packet.NameChar(name[j])
  {
    if width == 0 then "" else NameOf(i / 64, width - 1) + [Symbol(i % 64)]
  }

  lemma {:induction false} NamesDiffer(i: nat, j: nat, width: nat)
    requires i < Power(width) && j < Power(width) && NameOf(i, width) == NameOf(j, width)
    ensures i == j
  {
    if width > 0 {
      var a, b := NameOf(i / 64, width - 1), NameOf(j / 64, width - 1);
      assert NameOf(i, width)[..width - 1] == a && NameOf(j, width)[..width - 1] == b;
      assert NameOf(i, width)[width - 1] == Symbol(i % 64) && NameOf(j, width)[width - 1] == Symbol(j % 64);
      NamesDiffer(i / 64, j / 64, width - 1);
    }
  }

  function FirstNames(n: nat): set<string> { set i: nat | i < n :: NameOf(i, 32) }

  lemma {:induction false} NamesCount(n: nat)
    requires n <= Power(32)
    ensures |FirstNames(n)| == n
  {
    hide NameOf, Power;
    if n > 0 {
      NamesCount(n - 1);
      assert FirstNames(n) == FirstNames(n - 1) + {NameOf(n - 1, 32)};
      if NameOf(n - 1, 32) in FirstNames(n - 1) {
        var i: nat :| i < n - 1 && NameOf(i, 32) == NameOf(n - 1, 32);
        NamesDiffer(i, n - 1, 32);
      }
    }
  }

  lemma SubsetIsSmaller(a: set<string>, b: set<string>)
    requires a <= b
    ensures |a| <= |b|
  {
    assert |b| == |a| + |b - a|;
  }

  /** There are more names than lines. */
  lemma SomeNameIsNew(taken: set<string>) returns (name: string)
    requires |taken| < Power(32)
    ensures name !in taken && |name| == 32 && Packet.UsernameIsValid(name)
  {
    hide NameOf, Power;
    var n := Power(32);
    NamesCount(n);
    if FirstNames(n) <= taken {
      SubsetIsSmaller(FirstNames(n), taken);
    }
    name :| name in FirstNames(n) && name !in taken;
  }

  lemma {:induction false} FewerLinesThanCharacters(file: string, max: nat)
    requires max > 0
    ensures |Chunks(file, max)| <= |file|
    decreases |file|
  {
    if file != [] {
      FewerLinesThanCharacters(file[ChunkLength(file, max)..], max);
    }
  }

  /** Whether a file is safe can be read off it, unless it has room for a line for every name: it is safe exactly when
      its unfinished line has no NUL byte or some line of it cannot be parsed. */
  lemma SafeExactly(file: string)
    requires |file| < Power(32)
    ensures Safe(file) <==> Sane(file) || !Readable(Chunks(file, LINE_MAX - 1))
  {
    hide Power, Chunks, Sane, Readable, Taken, Search, Packet.UsernameIsValid;
    var lines := Chunks(file, LINE_MAX - 1);
    FewerLinesThanCharacters(file, LINE_MAX - 1);
    if Readable(lines) {
      var name := SomeNameIsNew(Taken(lines));
      UntakenIsUnfound(lines, name);
    } else if Extensible(file) {
      var n :| Packet.UsernameIsValid(n) && |n| >= 4 && Find(file, n) == NotFound;
      UnfoundIsReadable(lines, n);
    }
  }

  /** There are files that are not safe: one line, a NUL byte and no newline. */
  lemma NulIsUnsafe(key: Key)
    ensures !Safe("abc" + " " + BinToHex(key) + "\0")
  {
    hide ParseLine, BinToHex;
    var line := Line("abc", key);
    var s := "abc" + " " + BinToHex(key);
    var file := s + "\0";
    assert Packet.UsernameIsValid("abc") && Packet.UsernameIsValid("alice");
    OwnLineParses("abc", key, |line| - 1);
    assert line[..|line| - 1] == s;
    BehindLine(s);
    ChunkWhole(file, LINE_MAX - 1);
    SearchCons(file, [], "alice");
    assert [file] + [] == [file] && Search([], "alice") == NotFound;
    assert Find(file, "alice") == NotFound;
    assert Tail(file, LINE_MAX - 1) == file && file[|file| - 1] == '\0';
  }

  lemma BehindLine(s: string)
    requires '\0' !in s
    ensures ParseLine(s + "\0") == ParseLine(s)
  {
    CStringCut(s, "\0");
    CStringOfText(s);
    hide ScanPair, HexToKey, Packet.UsernameIsValid;
  }
}
