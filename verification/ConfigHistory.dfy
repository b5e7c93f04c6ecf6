/** The writer and the readers of the configuration file agree, over every history of updates. */
module ConfigHistory {
  import opened Octets
  import opened Stdio
  import opened Config
  import Packet

  // ---------------------------------------------------------------- lines and text

  /** A line has its only newline, if any, at its end. */
  predicate IsLine(line: string) { line != "" && forall i :: 0 <= i < |line| - 1 ==> line[i] != '\n' }

  predicate AreLines(lines: seq<string>) {
    forall i :: 0 <= i < |lines| ==> IsLine(lines[i]) && (i < |lines| - 1 ==> EndsLine(lines[i]))
  }

  predicate NoNul(lines: seq<string>) { forall i :: 0 <= i < |lines| ==> '\0' !in lines[i] }

  lemma {:induction false} ChunkOfLine(line: string, rest: string, max: nat)
    requires IsLine(line) && |line| <= max && (EndsLine(line) || rest == [])
    ensures ChunkLength(line + rest, max) == |line|
    decreases |line|
  {
    var s := line + rest;
    if |line| == 1 {
      if line[0] != '\n' {
        assert s[1..] == [];
      }
    } else {
      assert s[1..] == line[1..] + rest;
      assert IsLine(line[1..]) by { assert forall i :: 0 <= i < |line| - 2 ==> line[1..][i] == line[i + 1]; }
      ChunkOfLine(line[1..], rest, max - 1);
    }
  }

  lemma LinesCons(line: string, rest: string)
    requires IsLine(line) && (EndsLine(line) || rest == [])
    ensures Lines(line + rest) == [line] + Lines(rest)
  {
    ChunkOfLine(line, rest, |line + rest|);
    assert (line + rest)[..|line|] == line && (line + rest)[|line|..] == rest;
    hide ChunkLength;
  }

  lemma JoinNothing()
    ensures Join([]) == [] && Lines([]) == []
  {
  }

  lemma {:induction false} LinesOfJoin(lines: seq<string>)
    requires AreLines(lines)
    ensures Lines(Join(lines)) == lines
  {
    hide Lines, Join, IsLine, EndsLine;
    JoinNothing();
    if lines != [] {
      var line, rest := lines[0], lines[1..];
      assert lines == [line] + rest;
      JoinCons(line, rest);
      LinesCons(line, Join(rest));
      LinesOfJoin(rest);
    }
  }

  lemma FirstLine(file: string)
    requires file != []
    ensures
      var n := ChunkLength(file, |file|);
      && 0 < n <= |file| && IsLine(file[..n]) && (n < |file| ==> EndsLine(file[..n]))
      && Lines(file) == [file[..n]] + Lines(file[n..])
  {
  }

  lemma ConsAreLines(line: string, rest: seq<string>)
    requires IsLine(line) && AreLines(rest) && (rest == [] || EndsLine(line))
    ensures AreLines([line] + rest)
  {
  }

  lemma {:induction false} LinesAreLines(file: string)
    ensures AreLines(Lines(file))
    decreases |file|
  {
    if file != [] {
      FirstLine(file);
      var n := ChunkLength(file, |file|);
      LinesAreLines(file[n..]);
      assert n == |file| ==> Lines(file[n..]) == [];
      hide Lines, IsLine, EndsLine, AreLines;
      ConsAreLines(file[..n], Lines(file[n..]));
    }
  }

  lemma JoinCons(line: string, rest: seq<string>)
    ensures Join([line] + rest) == line + Join(rest)
  {
  }

  lemma {:induction false} JoinOfLines(file: string)
    ensures Join(Lines(file)) == file
    decreases |file|
  {
    if file != [] {
      FirstLine(file);
      var n := ChunkLength(file, |file|);
      JoinOfLines(file[n..]);
      JoinCons(file[..n], Lines(file[n..]));
      hide Lines, Join, ChunkLength, IsLine, EndsLine;
      assert file == file[..n] + file[n..];
    }
  }

  lemma {:induction false} LinesHaveNoNul(file: string)
    requires '\0' !in file
    ensures NoNul(Lines(file))
    decreases |file|
  {
    if file != [] {
      var n := ChunkLength(file, |file|);
      LinesHaveNoNul(file[n..]);
      assert Lines(file)[0] == file[..n] && Lines(file)[1..] == Lines(file[n..]);
      hide Lines, ChunkLength;
    }
  }

  lemma {:induction false} JoinAppend(a: seq<string>, b: seq<string>)
    ensures Join(a + b) == Join(a) + Join(b)
  {
    if a == [] {
      assert a + b == b;
    } else {
      assert (a + b)[1..] == a[1..] + b;
      JoinAppend(a[1..], b);
    }
  }

  // ---------------------------------------------------------------- the key test

  lemma UrlLineIsLine(url: string)
    requires UrlIsValid(url)
    ensures IsLine(UrlLine(url)) && EndsLine(UrlLine(url)) && '\0' !in UrlLine(url) && |UrlLine(url)| <= 271
    ensures HasKey(UrlLine(url), URL_KEY)
  {
    var line := UrlLine(url);
    assert line == URL_KEY + (" = \"" + url + "\"\n");
    assert forall i :: 0 <= i < |url| ==> line[14 + i] == url[i];
    assert SkipPad(line, 0) == 0;
    assert URL_KEY <= line[0..];
    assert line[10] == ' ' && line[11] == '=';
    assert SkipPad(line, 10) == SkipPad(line, 11) == 11;
  }

  lemma {:induction false} PadAppend(line: string, i: nat)
    requires i <= |line|
    ensures SkipPad(line + "\n", i) == SkipPad(line, i)
    decreases |line| - i
  {
    if i < |line| && Pad(line[i]) {
      PadAppend(line, i + 1);
    }
  }

  /** Ending an unfinished line does not change whether it has the key. */
  lemma KeyAppend(line: string)
    ensures HasKey(line + "\n", URL_KEY) <==> HasKey(line, URL_KEY)
  {
    PadAppend(line, 0);
    var i := SkipPad(line, 0);
    if URL_KEY <= line[i..] {
      assert (line + "\n")[i..] == line[i..] + "\n";
      PadAppend(line, i + 10);
    } else {
      assert (line + "\n")[i..] == line[i..] + "\n";
    }
  }

  // ---------------------------------------------------------------- the rewrite, line by line

  function Terminated(lines: seq<string>): seq<string> {
    if lines == [] || EndsLine(lines[|lines| - 1]) then lines
    else lines[..|lines| - 1] + [lines[|lines| - 1] + "\n"]
  }

  /** The lines of the file after an update. */
  function After(lines: seq<string>, url: string): seq<string> {
    if AnyUrl(lines) then Replaced(lines, url, false) else Terminated(lines) + [UrlLine(url)]
  }

  lemma ReplacedNothing(url: string, written: bool)
    ensures Replaced([], url, written) == []
  {
  }

  lemma {:induction false} ReplacedAreLines(lines: seq<string>, url: string, written: bool)
    requires AreLines(lines) && NoNul(lines) && UrlIsValid(url)
    ensures AreLines(Replaced(lines, url, written)) && NoNul(Replaced(lines, url, written))
  {
    hide HasKey, UrlLine, UrlIsValid, IsLine, EndsLine, Replaced;
    ReplacedNothing(url, written);
    ReplacedNothing(url, true);
    if lines != [] {
      var line, rest := lines[0], lines[1..];
      assert lines == [line] + rest;
      UrlLineIsLine(url);
      ReplacedCons(line, rest, url, written);
      ReplacedAreLines(rest, url, true);
      ReplacedAreLines(rest, url, written);
      ConsAreLines(UrlLine(url), Replaced(rest, url, true));
      assert [] + Replaced(rest, url, true) == Replaced(rest, url, true);
      if rest == [] || EndsLine(line) {
        ConsAreLines(line, Replaced(rest, url, written));
      }
    }
  }

  lemma {:induction false} NothingReplaced(lines: seq<string>, url: string, written: bool)
    requires NoNul(lines) && !AnyUrl(lines)
    ensures Replaced(lines, url, written) == lines
  {
    if lines != [] {
      CStringOfText(lines[0]);
      assert !HasKey(CString(lines[0]), URL_KEY);
      assert !AnyUrl(lines[1..]) by {
        assert forall i :: 0 <= i < |lines| - 1 ==> lines[1..][i] == lines[i + 1];
      }
      NothingReplaced(lines[1..], url, written);
    }
  }

  lemma TerminatedAreLines(lines: seq<string>)
    requires AreLines(lines) && NoNul(lines) && lines != []
    ensures
      var t := Terminated(lines);
      |t| == |lines| && AreLines(t) && NoNul(t) && EndsLine(t[|t| - 1])
  {
  }

  lemma JoinSnoc(lines: seq<string>, last: string)
    ensures Join(lines + [last]) == Join(lines) + last
  {
    JoinAppend(lines, [last]);
    JoinOne(last);
    hide Join;
  }

  lemma TerminatedSnoc(start: seq<string>, last: string)
    ensures Terminated(start + [last]) == start + [if EndsLine(last) then last else last + "\n"]
  {
    hide EndsLine;
    assert (start + [last])[..|start|] == start;
  }

  lemma TerminatedJoin(lines: seq<string>)
    requires lines != []
    ensures Join(Terminated(lines)) == Join(lines) + (if EndsLine(lines[|lines| - 1]) then "" else "\n")
  {
    hide Join, EndsLine, Terminated;
    var start, last := lines[..|lines| - 1], lines[|lines| - 1];
    assert lines == start + [last];
    var end := if EndsLine(last) then "" else "\n";
    TerminatedSnoc(start, last);
    JoinSnoc(start, last);
    JoinSnoc(start, last + end);
    Associate(Join(start), last, end);
    Associate(last, "", "");
  }

  lemma Associate(a: string, b: string, c: string)
    ensures (a + b) + c == a + (b + c) && a + "" == a
  {
  }

  lemma JoinOne(line: string)
    ensures Join([line]) == line
  {
  }

  lemma KeyedAt(lines: seq<string>, i: nat)
    requires i < |lines| && HasKey(CString(lines[i]), URL_KEY)
    ensures AnyUrl(lines)
  {
  }

  lemma TerminatedKeys(lines: seq<string>)
    requires NoNul(lines)
    ensures AnyUrl(Terminated(lines)) <==> AnyUrl(lines)
  {
    hide HasKey, EndsLine;
    if lines != [] && !EndsLine(lines[|lines| - 1]) {
      var n, t := |lines| - 1, Terminated(lines);
      KeyAppend(lines[n]);
      CStringOfText(lines[n]);
      CStringOfText(lines[n] + "\n");
      if AnyUrl(lines) {
        var i :| 0 <= i < |lines| && HasKey(CString(lines[i]), URL_KEY);
        assert t[i] == if i == n then lines[n] + "\n" else lines[i];
        hide AnyUrl;
        KeyedAt(t, i);
      }
      if AnyUrl(t) {
        var i :| 0 <= i < |t| && HasKey(CString(t[i]), URL_KEY);
        assert t[i] == if i == n then lines[n] + "\n" else lines[i];
        hide AnyUrl;
        KeyedAt(lines, i);
      }
    }
  }

  /** The text of an update is the updated lines, and reading it back yields them. */
  lemma UpdateIsAfter(file: string, url: string)
    requires '\0' !in file && UrlIsValid(url)
    ensures
      var after := After(Lines(file), url);
      AreLines(after) && NoNul(after) && SetUrl(file, url) == Join(after) && Lines(SetUrl(file, url)) == after
  {
    var lines := Lines(file);
    LinesAreLines(file);
    LinesHaveNoNul(file);
    AfterAreLines(lines, url);
    AfterText(lines, url);
    JoinOfLines(file);
    LinesOfJoin(After(lines, url));
    hide Lines, After, AreLines, NoNul, UrlIsValid, Replaced, AnyUrl, Join, Appended;
  }

  lemma SnocAreLines(lines: seq<string>, line: string)
    requires AreLines(lines) && IsLine(line) && (lines == [] || EndsLine(lines[|lines| - 1]))
    ensures AreLines(lines + [line])
  {
  }

  lemma AfterAreLines(lines: seq<string>, url: string)
    requires AreLines(lines) && NoNul(lines) && UrlIsValid(url)
    ensures AreLines(After(lines, url)) && NoNul(After(lines, url))
  {
    hide AnyUrl, Replaced, UrlLine, UrlIsValid, IsLine, HasKey, EndsLine, AreLines;
    UrlLineIsLine(url);
    if AnyUrl(lines) {
      ReplacedAreLines(lines, url, false);
    } else {
      if lines != [] {
        TerminatedAreLines(lines);
      }
      SnocAreLines(Terminated(lines), UrlLine(url));
    }
  }

  lemma AfterText(lines: seq<string>, url: string)
    requires NoNul(lines)
    ensures Join(After(lines, url)) == Join(Replaced(lines, url, false)) + if AnyUrl(lines) then ""
      else Appended(lines, url)
  {
    hide Join, AnyUrl, UrlLine, EndsLine, Replaced;
    if AnyUrl(lines) {
      assert Join(After(lines, url)) + "" == Join(After(lines, url));
    } else {
      NothingReplaced(lines, url, false);
      JoinAppend(Terminated(lines), [UrlLine(url)]);
      JoinOne(UrlLine(url));
      if lines != [] {
        TerminatedJoin(lines);
        CStringOfText(lines[|lines| - 1]);
        hide Terminated;
        var gap := if EndsLine(lines[|lines| - 1]) then "" else "\n";
        assert (Join(lines) + gap) + UrlLine(url) == Join(lines) + (gap + UrlLine(url));
      } else {
        assert "" + UrlLine(url) == UrlLine(url);
      }
    }
  }

  // ---------------------------------------------------------------- the last update wins

  lemma ReplacedCons(line: string, rest: seq<string>, url: string, written: bool)
    requires '\0' !in line
    ensures
      Replaced([line] + rest, url, written)
      == if HasKey(line, URL_KEY) then (if written then [] else [UrlLine(url)]) + Replaced(rest, url, true)
         else [line] + Replaced(rest, url, written)
  {
    CStringOfText(line);
    assert ([line] + rest)[1..] == rest;
    hide HasKey, UrlLine;
  }

  lemma {:induction false} ReplacedTwice(lines: seq<string>, u: string, v: string, written: bool)
    requires NoNul(lines) && UrlIsValid(u) && UrlIsValid(v)
    ensures Replaced(Replaced(lines, u, written), v, written) == Replaced(lines, v, written)
  {
    if lines != [] {
      var line, rest := lines[0], lines[1..];
      assert lines == [line] + rest;
      UrlLineIsLine(u);
      ReplacedTwice(rest, u, v, true);
      ReplacedTwice(rest, u, v, written);
      ReplacedCons(line, rest, u, written);
      ReplacedCons(line, rest, v, written);
      ReplacedCons(line, Replaced(rest, u, written), v, written);
      ReplacedCons(UrlLine(u), Replaced(rest, u, true), v, written);
      hide Replaced, HasKey, UrlLine, UrlIsValid, IsLine, EndsLine;
      if HasKey(line, URL_KEY) && written {
        assert [] + Replaced(rest, u, true) == Replaced(rest, u, true);
        assert [] + Replaced(rest, v, true) == Replaced(rest, v, true);
      }
    }
  }

  lemma AnyUrlCons(line: string, rest: seq<string>)
    requires '\0' !in line
    ensures AnyUrl([line] + rest) <==> HasKey(line, URL_KEY) || AnyUrl(rest)
  {
    hide HasKey, CString;
    CStringOfText(line);
    var all := [line] + rest;
    assert all[0] == line && all[1..] == rest;
    assert forall i :: 0 <= i < |rest| ==> all[i + 1] == rest[i];
    if AnyUrl(all) {
      var i :| 0 <= i < |all| && HasKey(CString(all[i]), URL_KEY);
      if i > 0 {
        assert all[i] == rest[i - 1];
      }
    }
  }

  /** Replacing leaves a url line when there was one. */
  lemma {:induction false} ReplacedHasUrl(lines: seq<string>, url: string)
    requires NoNul(lines) && AnyUrl(lines) && UrlIsValid(url)
    ensures AnyUrl(Replaced(lines, url, false))
  {
    assert lines != [] by { hide HasKey; }
    hide HasKey, UrlLine, Replaced, AnyUrl, IsLine, EndsLine, UrlIsValid;
    var line, rest := lines[0], lines[1..];
    assert lines == [line] + rest;
    ReplacedCons(line, rest, url, false);
    AnyUrlCons(line, rest);
    if HasKey(line, URL_KEY) {
      UrlLineIsLine(url);
      AnyUrlCons(UrlLine(url), Replaced(rest, url, true));
    } else {
      ReplacedHasUrl(rest, url);
      AnyUrlCons(line, Replaced(rest, url, false));
    }
  }

  lemma {:induction false} ReplacedAppend(a: seq<string>, line: string, url: string)
    requires NoNul(a) && !AnyUrl(a) && '\0' !in line && HasKey(line, URL_KEY)
    ensures Replaced(a + [line], url, false) == a + [UrlLine(url)]
  {
    hide HasKey, UrlLine, Replaced, AnyUrl;
    if a == [] {
      assert a + [line] == [line] + [];
      ReplacedCons(line, [], url, false);
      ReplacedNothing(url, true);
    } else {
      var first, rest := a[0], a[1..];
      assert a == [first] + rest && a + [line] == [first] + (rest + [line]);
      AnyUrlCons(first, rest);
      ReplacedCons(first, rest + [line], url, false);
      ReplacedAppend(rest, line, url);
    }
  }

  lemma AfterTwice(lines: seq<string>, u: string, v: string)
    requires AreLines(lines) && NoNul(lines) && UrlIsValid(u) && UrlIsValid(v)
    ensures After(After(lines, u), v) == After(lines, v)
  {
    UrlLineIsLine(u);
    CStringOfText(UrlLine(u));
    if AnyUrl(lines) {
      ReplacedTwice(lines, u, v, false);
      ReplacedHasUrl(lines, u);
      hide AnyUrl, Replaced, HasKey, UrlLine;
    } else {
      var t := Terminated(lines);
      assert NoNul(t) && !AnyUrl(t) by {
        TerminatedKeys(lines);
        if lines != [] { TerminatedAreLines(lines); }
        hide AnyUrl, HasKey, Replaced, UrlLine, AreLines;
      }
      ReplacedAppend(t, UrlLine(u), v);
      assert (t + [UrlLine(u)])[|t|] == UrlLine(u);
      hide AnyUrl, Replaced, HasKey, UrlLine, Terminated;
      KeyedAt(t + [UrlLine(u)], |t|);
    }
  }

  /** On any file of text, a second update erases the first completely. */
  lemma LastUpdateWins(file: string, u: string, v: string)
    requires '\0' !in file && UrlIsValid(u) && UrlIsValid(v)
    ensures SetUrl(SetUrl(file, u), v) == SetUrl(file, v)
  {
    LinesAreLines(file);
    LinesHaveNoNul(file);
    UpdateIsAfter(file, u);
    UpdateIsAfter(file, v);
    AfterTwice(Lines(file), u, v);
    TextHasNoNul(After(Lines(file), u));
    UpdateIsAfter(SetUrl(file, u), v);
    hide SetUrl, Lines, After, AreLines, UrlIsValid, Join, NoNul;
  }

  lemma {:induction false} TextHasNoNul(lines: seq<string>)
    requires NoNul(lines)
    ensures '\0' !in Join(lines)
  {
    if lines != [] {
      TextHasNoNul(lines[1..]);
    }
  }

  // ---------------------------------------------------------------- the readers

  lemma {:induction false} QuoteAppend(line: string, i: nat)
    requires i <= |line|
    ensures FindQuote(line + "\n", i) == FindQuote(line, i)
    decreases |line| - i
  {
    if i < |line| && line[i] != '"' {
      QuoteAppend(line, i + 1);
    }
  }

  /** What a chunk yields to a reader of `key`. */
  function Yield(line: string, key: string, size: nat): Option<Result<string>> {
    if Prefix(key) <= line then Some(Quoted(line, |Prefix(key)|, size)) else None
  }

  lemma YieldAppend(line: string, key: string, size: nat)
    ensures Yield(line + "\n", key, size) == Yield(line, key, size)
  {
    var p := Prefix(key);
    assert p[|p| - 1] == '"';
    if p <= line {
      QuoteAppend(line, |p|);
      assert p <= line + "\n";
      var q := FindQuote(line, |p|);
      if q.Some? {
        assert (line + "\n")[|p|..q.value] == line[|p|..q.value];
      }
    } else {
      assert p <= line + "\n" ==> |p| <= |line|;
    }
  }

  lemma ValueCons(line: string, rest: seq<string>, key: string, size: nat)
    requires '\0' !in line
    ensures
      ValueIn([line] + rest, key, size)
      == if Yield(line, key, size).Some? then Yield(line, key, size).value else ValueIn(rest, key, size)
  {
    CStringOfText(line);
    assert ([line] + rest)[1..] == rest;
  }

  /** The strict prefix of a reader never matches a line that the writer would take for another key. */
  lemma UrlYield(line: string, size: nat)
    requires Yield(line, URL_KEY, size).Some?
    ensures HasKey(line, URL_KEY)
  {
  }

  predicate OtherKey(key: string) {
    key != URL_KEY && key != "" && forall i :: 0 <= i < |key| ==> !Pad(key[i]) && key[i] != '='
  }

  lemma OtherPrefix(line: string, key: string)
    requires OtherKey(key) && Prefix(key) <= line
    ensures !HasKey(line, URL_KEY)
  {
    var p := Prefix(key);
    assert forall i :: 0 <= i < |p| ==> line[i] == p[i];
    assert line[0] == key[0];
    assert SkipPad(line, 0) == 0 && line[0..] == line;
    if |key| < 10 {
      assert line[|key|] == ' ' && URL_KEY[|key|] != ' ';
    } else if |key| > 10 {
      assert line[10] == key[10];
      assert SkipPad(line, 10) == 10;
    } else {
      assert line[..10] == key;
    }
  }

  lemma OtherYield(line: string, key: string, size: nat)
    requires OtherKey(key) && HasKey(line, URL_KEY)
    ensures Yield(line, key, size) == None
  {
    if Prefix(key) <= line {
      OtherPrefix(line, key);
    }
  }

  lemma UrlLineYields(url: string)
    requires UrlIsValid(url)
    ensures Yield(UrlLine(url), URL_KEY, URL_SIZE) == Some(Ok(url))
  {
    var line := UrlLine(url);
    assert line == Prefix(URL_KEY) + (url + "\"\n");
    assert |Prefix(URL_KEY)| == 14;
    assert forall i :: 0 <= i < |url| ==> line[14 + i] == url[i] && url[i] != '"';
    assert line[14 + |url|] == '"';
    var q := FindQuote(line, 14);
    assert q == Some(14 + |url|);
    assert line[14..14 + |url|] == url;
  }

  // ---------------------------------------------------------------- reading by lines

  /** What a line yields: the first of its chunks that starts like the setting decides. */
  function LineYield(line: string, key: string, size: nat): Option<Result<string>>
    decreases |line|
  {
    if line == [] then None
    else
      var n := ChunkLength(line, VALUE_CHUNK);
      if Yield(line[..n], key, size).Some? then Yield(line[..n], key, size) else LineYield(line[n..], key, size)
  }

  /** The first line that yields anything decides. */
  function Read(lines: seq<string>, key: string, size: nat): Result<string> {
    if lines == [] then ErrNotFound
    else if LineYield(lines[0], key, size).Some? then LineYield(lines[0], key, size).value
    else Read(lines[1..], key, size)
  }

  lemma {:induction false} FullChunk(s: string, max: nat)
    requires |s| >= max && forall i :: 0 <= i < max ==> s[i] != '\n'
    ensures ChunkLength(s, max) == max
  {
    if max > 0 {
      FullChunk(s[1..], max - 1);
    }
  }

  lemma TailIsLine(line: string, n: nat)
    requires IsLine(line) && n < |line|
    ensures IsLine(line[n..]) && (EndsLine(line[n..]) <==> EndsLine(line))
  {
    assert forall i :: 0 <= i < |line| - n - 1 ==> line[n..][i] == line[n + i];
  }

  /** The first chunk of a line does not depend on what follows. */
  lemma FirstChunk(line: string, rest: string)
    requires IsLine(line) && (EndsLine(line) || rest == [])
    ensures ChunkLength(line + rest, VALUE_CHUNK) == ChunkLength(line, VALUE_CHUNK) <= |line|
    ensures ChunkLength(line, VALUE_CHUNK) == if |line| <= VALUE_CHUNK then |line| else VALUE_CHUNK
  {
    hide ChunkLength;
    assert line + [] == line;
    if |line| <= VALUE_CHUNK {
      ChunkOfLine(line, rest, VALUE_CHUNK);
      ChunkOfLine(line, [], VALUE_CHUNK);
    } else {
      FullChunk(line, VALUE_CHUNK);
      FullChunk(line + rest, VALUE_CHUNK);
    }
  }

  lemma {:induction false} ReadCons(line: string, rest: string, key: string, size: nat)
    requires IsLine(line) && (EndsLine(line) || rest == []) && '\0' !in line
    ensures
      ValueIn(Chunks(line + rest, VALUE_CHUNK), key, size)
      == if LineYield(line, key, size).Some? then LineYield(line, key, size).value
         else ValueIn(Chunks(rest, VALUE_CHUNK), key, size)
    decreases |line|
  {
    var n := ChunkLength(line, VALUE_CHUNK);
    FirstChunk(line, rest);
    var chunk, tail := line[..n], line[n..];
    assert (line + rest)[..n] == chunk && (line + rest)[n..] == tail + rest;
    assert Chunks(line + rest, VALUE_CHUNK) == [chunk] + Chunks(tail + rest, VALUE_CHUNK);
    ValueCons(chunk, Chunks(tail + rest, VALUE_CHUNK), key, size);
    if n < |line| {
      TailIsLine(line, n);
      ReadCons(tail, rest, key, size);
    } else {
      assert tail + rest == rest;
    }
    hide ChunkLength, Chunks, ValueIn, Yield, IsLine, EndsLine;
  }

  /** The chunk reader sees the file line by line, long lines included. */
  lemma {:induction false} ReadByLines(lines: seq<string>, key: string, size: nat)
    requires AreLines(lines) && NoNul(lines)
    ensures ValueIn(Chunks(Join(lines), VALUE_CHUNK), key, size) == Read(lines, key, size)
  {
    if lines != [] {
      var line, rest := lines[0], lines[1..];
      ReadByLines(rest, key, size);
      if rest == [] { JoinNothing(); }
      ReadCons(line, Join(rest), key, size);
    }
    hide ValueIn, Chunks, LineYield, IsLine, EndsLine;
  }

  lemma ReadFirst(line: string, rest: seq<string>, key: string, size: nat)
    ensures
      Read([line] + rest, key, size)
      == if LineYield(line, key, size).Some? then LineYield(line, key, size).value else Read(rest, key, size)
  {
    assert ([line] + rest)[1..] == rest;
  }

  /** A line that fits the reader's buffer is one chunk. */
  lemma ShortYield(line: string, key: string, size: nat)
    requires IsLine(line) && |line| <= VALUE_CHUNK
    ensures LineYield(line, key, size) == Yield(line, key, size)
  {
    FirstChunk(line, []);
    assert line[..|line|] == line && line[|line|..] == [];
    hide Yield, IsLine, ChunkLength;
  }

  lemma NewlineYieldsNothing(key: string, size: nat)
    ensures LineYield("\n", key, size).None?
  {
    ShortYield("\n", key, size);
  }

  /** Ending an unfinished line does not change what it yields. */
  lemma {:induction false} LineYieldAppend(line: string, key: string, size: nat)
    requires IsLine(line) && !EndsLine(line)
    ensures LineYield(line + "\n", key, size) == LineYield(line, key, size)
    decreases |line|
  {
    var ended := line + "\n";
    assert IsLine(ended) && EndsLine(ended);
    FirstChunk(line, []);
    FirstChunk(ended, []);
    hide ChunkLength, Yield, IsLine, EndsLine;
    if |line| < VALUE_CHUNK {
      ShortYield(line, key, size);
      ShortYield(ended, key, size);
      YieldAppend(line, key, size);
    } else {
      var chunk, tail := line[..VALUE_CHUNK], line[VALUE_CHUNK..];
      assert ended[..VALUE_CHUNK] == chunk && ended[VALUE_CHUNK..] == tail + "\n";
      if tail == [] {
        assert tail + "\n" == "\n";
        NewlineYieldsNothing(key, size);
      } else {
        TailIsLine(line, VALUE_CHUNK);
        LineYieldAppend(tail, key, size);
      }
    }
  }

  lemma UrlLineReads(url: string)
    requires UrlIsValid(url)
    ensures LineYield(UrlLine(url), URL_KEY, URL_SIZE) == Some(Ok(url))
    ensures forall key, size :: OtherKey(key) ==> LineYield(UrlLine(url), key, size).None?
  {
    hide HasKey, UrlLine, UrlIsValid, IsLine, Yield, OtherKey, LineYield, EndsLine;
    UrlLineIsLine(url);
    UrlLineYields(url);
    ShortYield(UrlLine(url), URL_KEY, URL_SIZE);
    forall key, size | OtherKey(key)
      ensures LineYield(UrlLine(url), key, size).None?
    {
      ShortYield(UrlLine(url), key, size);
      OtherYield(UrlLine(url), key, size);
    }
  }

  // ---------------------------------------------------------------- loading after an update

  /** What the reader meets before the writer's url line: the first yield of a line above the first url line, or of
      any line when there is no url line. */
  function Mask(lines: seq<string>): Option<Result<string>> {
    if lines == [] || HasKey(lines[0], URL_KEY) then None
    else if LineYield(lines[0], URL_KEY, URL_SIZE).Some? then LineYield(lines[0], URL_KEY, URL_SIZE)
    else Mask(lines[1..])
  }

  lemma MaskCons(line: string, rest: seq<string>)
    ensures
      Mask([line] + rest)
      == if HasKey(line, URL_KEY) then None
         else if LineYield(line, URL_KEY, URL_SIZE).Some? then LineYield(line, URL_KEY, URL_SIZE) else Mask(rest)
  {
    assert ([line] + rest)[1..] == rest;
  }

  function Masked(mask: Option<Result<string>>, url: string): Result<string> {
    if mask.Some? then mask.value else Ok(url)
  }

  lemma {:induction false} ReplacedReads(lines: seq<string>, url: string)
    requires NoNul(lines) && AnyUrl(lines) && UrlIsValid(url)
    ensures Read(Replaced(lines, url, false), URL_KEY, URL_SIZE) == Masked(Mask(lines), url)
  {
    assert lines != [] by { hide HasKey; }
    hide HasKey, UrlLine, Replaced, AnyUrl, UrlIsValid, Read, LineYield, Mask, OtherKey;
    var line, rest := lines[0], lines[1..];
    assert lines == [line] + rest;
    ReplacedCons(line, rest, url, false);
    AnyUrlCons(line, rest);
    MaskCons(line, rest);
    if HasKey(line, URL_KEY) {
      UrlLineReads(url);
      ReadFirst(UrlLine(url), Replaced(rest, url, true), URL_KEY, URL_SIZE);
    } else {
      ReplacedReads(rest, url);
      ReadFirst(line, Replaced(rest, url, false), URL_KEY, URL_SIZE);
    }
  }

  lemma {:induction false} AppendedReads(lines: seq<string>, url: string)
    requires NoNul(lines) && !AnyUrl(lines) && UrlIsValid(url)
    ensures Read(lines + [UrlLine(url)], URL_KEY, URL_SIZE) == Masked(Mask(lines), url)
  {
    hide HasKey, UrlLine, AnyUrl, UrlIsValid, Read, LineYield, OtherKey;
    if lines == [] {
      UrlLineReads(url);
      assert lines + [UrlLine(url)] == [UrlLine(url)] + [];
      ReadFirst(UrlLine(url), [], URL_KEY, URL_SIZE);
    } else {
      var line, rest := lines[0], lines[1..];
      assert lines == [line] + rest;
      AnyUrlCons(line, rest);
      AppendedReads(rest, url);
      assert lines + [UrlLine(url)] == [line] + (rest + [UrlLine(url)]);
      ReadFirst(line, rest + [UrlLine(url)], URL_KEY, URL_SIZE);
    }
  }

  /** Ending the last line changes neither what masks an update nor what a reader finds. */
  lemma {:induction false} TerminatedReads(lines: seq<string>, key: string, size: nat)
    requires AreLines(lines) && NoNul(lines)
    ensures Mask(Terminated(lines)) == Mask(lines) && Read(Terminated(lines), key, size) == Read(lines, key, size)
  {
    hide HasKey, LineYield, IsLine, EndsLine, Mask, Read;
    if lines != [] {
      var line, rest := lines[0], lines[1..];
      assert lines == [line] + rest;
      var ended := if rest == [] && !EndsLine(line) then line + "\n" else line;
      assert Terminated(lines) == [ended] + Terminated(rest);
      TerminatedReads(rest, key, size);
      if rest == [] && !EndsLine(line) {
        KeyAppend(line);
        LineYieldAppend(line, key, size);
        LineYieldAppend(line, URL_KEY, URL_SIZE);
      }
      MaskCons(line, rest);
      MaskCons(ended, Terminated(rest));
      ReadFirst(line, rest, key, size);
      ReadFirst(ended, Terminated(rest), key, size);
    }
  }

  /** On any file of text: what loads after an update is what masks it, or else the url that was set. */
  lemma UpdateReads(file: string, url: string)
    requires '\0' !in file && UrlIsValid(url)
    ensures LoadValue(SetUrl(file, url), URL_KEY, URL_SIZE) == Masked(Mask(Lines(file)), url)
  {
    hide UrlLine, Replaced, AnyUrl, UrlIsValid, ValueIn, Chunks, Lines, AreLines, NoNul, SetUrl, Join, Terminated,
      Read, Mask;
    var lines := Lines(file);
    LinesAreLines(file);
    LinesHaveNoNul(file);
    UpdateIsAfter(file, url);
    if AnyUrl(lines) {
      ReplacedReads(lines, url);
    } else {
      TerminatedKeys(lines);
      TerminatedNoNul(lines);
      TerminatedReads(lines, URL_KEY, URL_SIZE);
      AppendedReads(Terminated(lines), url);
    }
    PrefixLength();
    ReadByLines(After(lines, url), URL_KEY, URL_SIZE);
  }

  /** An update loads exactly when nothing above the writer's url line yields another value to the reader. */
  lemma UpdateIsLoaded(file: string, url: string)
    requires '\0' !in file && UrlIsValid(url)
    ensures
      LoadValue(SetUrl(file, url), URL_KEY, URL_SIZE) == Ok(url)
      <==> Mask(Lines(file)).None? || Mask(Lines(file)) == Some(Ok(url))
  {
    UpdateReads(file, url);
    hide LoadValue, SetUrl, Mask, Lines, UrlIsValid;
  }

  /** Only a line that is too long for the reader's buffer can mask anything: its tail starts a chunk of its own. */
  lemma {:induction false} OnlyLongLinesMask(lines: seq<string>)
    requires AreLines(lines) && forall i :: 0 <= i < |lines| ==> |lines[i]| <= VALUE_CHUNK
    ensures Mask(lines).None?
  {
    if lines != [] {
      ShortYield(lines[0], URL_KEY, URL_SIZE);
      if Yield(lines[0], URL_KEY, URL_SIZE).Some? { UrlYield(lines[0], URL_SIZE); }
      hide HasKey, LineYield, Yield;
      OnlyLongLinesMask(lines[1..]);
    }
  }

  lemma TerminatedNoNul(lines: seq<string>)
    requires NoNul(lines)
    ensures NoNul(Terminated(lines))
  {
  }

  function Filler(): string { seq(VALUE_CHUNK, _ => '#') }

  lemma FillerHasNoKey(rest: string)
    ensures !HasKey(Filler() + rest, URL_KEY) && '\n' !in Filler() && '\0' !in Filler()
    ensures Yield(Filler(), URL_KEY, URL_SIZE).None?
  {
    var line := Filler() + rest;
    assert line[0] == '#' && Filler()[0] == '#' && SkipPad(line, 0) == 0;
  }

  /** Such a file: an old url behind 511 other characters of its line. The writer does not see it, the reader does. */
  lemma LongLineMasksUpdate(old': string, url: string)
    requires UrlIsValid(old') && UrlIsValid(url)
    ensures LoadValue(SetUrl(Filler() + UrlLine(old'), url), URL_KEY, URL_SIZE) == Ok(old')
  {
    hide HasKey, UrlLine, UrlIsValid, SetUrl, LoadValue, IsLine, EndsLine, Lines, Filler, Yield, Join, ChunkLength,
      OtherKey;
    var line := Filler() + UrlLine(old');
    UrlLineIsLine(old');
    FillerHasNoKey(UrlLine(old'));
    LongLineIsLine(Filler(), UrlLine(old'));
    JoinOne(line);
    assert AreLines([line]) by { ConsAreLines(line, []); assert [line] + [] == [line]; }
    LinesOfJoin([line]);
    UpdateReads(line, url);
    FillerLength();
    FirstChunk(line, []);
    assert line[..VALUE_CHUNK] == Filler() && line[VALUE_CHUNK..] == UrlLine(old');
    UrlLineReads(old');
  }

  lemma FillerLength()
    ensures |Filler()| == VALUE_CHUNK
  {
  }

  lemma PrefixLength()
    ensures |Prefix(URL_KEY)| == 14
  {
  }

  lemma LongLineIsLine(filler: string, line: string)
    requires '\n' !in filler && '\0' !in filler && IsLine(line) && EndsLine(line) && '\0' !in line
    ensures IsLine(filler + line) && EndsLine(filler + line) && '\0' !in filler + line
  {
  }

  // ---------------------------------------------------------------- other keys

  /** The lines that an update leaves alone. */
  function Others(lines: seq<string>): seq<string> {
    if lines == [] then []
    else (if HasKey(lines[0], URL_KEY) then [] else [lines[0]]) + Others(lines[1..])
  }

  lemma OthersCons(line: string, rest: seq<string>)
    ensures Others([line] + rest) == (if HasKey(line, URL_KEY) then [] else [line]) + Others(rest)
  {
    assert ([line] + rest)[1..] == rest;
  }

  lemma {:induction false} ReplacedKeepsOthers(lines: seq<string>, url: string, written: bool, key: string, size: nat)
    requires NoNul(lines) && UrlIsValid(url) && OtherKey(key)
    ensures Read(Replaced(lines, url, written), key, size) == Read(Others(lines), key, size)
  {
    hide HasKey, UrlLine, Replaced, UrlIsValid, Read, LineYield, OtherKey, Others;
    if lines == [] {
      ReplacedNothing(url, written);
      assert Others([]) == [] by { NoOthers(); }
    } else {
      var line, rest := lines[0], lines[1..];
      assert lines == [line] + rest;
      ReplacedCons(line, rest, url, written);
      OthersCons(line, rest);
      ReplacedKeepsOthers(rest, url, true, key, size);
      ReplacedKeepsOthers(rest, url, written, key, size);
      if HasKey(line, URL_KEY) {
        UrlLineReads(url);
        ReadFirst(UrlLine(url), Replaced(rest, url, true), key, size);
        assert [] + Replaced(rest, url, true) == Replaced(rest, url, true) && [] + Others(rest) == Others(rest);
      } else {
        ReadFirst(line, Replaced(rest, url, written), key, size);
        ReadFirst(line, Others(rest), key, size);
      }
    }
  }

  lemma NoOthers()
    ensures Others([]) == []
  {
  }

  lemma {:induction false} AppendedKeepsOthers(lines: seq<string>, url: string, key: string, size: nat)
    requires NoNul(lines) && !AnyUrl(lines) && UrlIsValid(url) && OtherKey(key)
    ensures Read(lines + [UrlLine(url)], key, size) == Read(lines, key, size) && Others(lines) == lines
  {
    hide HasKey, UrlLine, AnyUrl, UrlIsValid, Read, LineYield, OtherKey;
    if lines == [] {
      UrlLineReads(url);
      assert lines + [UrlLine(url)] == [UrlLine(url)] + [];
      ReadFirst(UrlLine(url), [], key, size);
    } else {
      var line, rest := lines[0], lines[1..];
      assert lines == [line] + rest;
      AnyUrlCons(line, rest);
      AppendedKeepsOthers(rest, url, key, size);
      assert lines + [UrlLine(url)] == [line] + (rest + [UrlLine(url)]);
      ReadFirst(line, rest + [UrlLine(url)], key, size);
      ReadFirst(line, rest, key, size);
    }
  }

  /** On any file of text: after an update every other setting reads as if the url lines had never been there. */
  lemma OtherSettingsRead(file: string, url: string, key: string, size: nat)
    requires '\0' !in file && UrlIsValid(url) && OtherKey(key) && |Prefix(key)| < 64
    ensures LoadValue(SetUrl(file, url), key, size) == Read(Others(Lines(file)), key, size)
  {
    hide UrlLine, Replaced, AnyUrl, UrlIsValid, ValueIn, Chunks, Lines, AreLines, NoNul, SetUrl, Join, Terminated,
      Read, Others,
      OtherKey, Prefix;
    var lines := Lines(file);
    LinesAreLines(file);
    LinesHaveNoNul(file);
    UpdateIsAfter(file, url);
    if AnyUrl(lines) {
      ReplacedKeepsOthers(lines, url, false, key, size);
    } else {
      TerminatedKeys(lines);
      TerminatedNoNul(lines);
      TerminatedReads(lines, key, size);
      AppendedKeepsOthers(Terminated(lines), url, key, size);
      AppendedKeepsOthers(lines, url, key, size);
    }
    ReadByLines(After(lines, url), key, size);
  }

  /** What a url line yields for another key before any other line does. */
  function Shadow(lines: seq<string>, key: string, size: nat): Option<Result<string>> {
    if lines == [] then None
    else if LineYield(lines[0], key, size).Some? then
      if HasKey(lines[0], URL_KEY) then LineYield(lines[0], key, size) else None
    else Shadow(lines[1..], key, size)
  }

  lemma {:induction false} ShadowDecides(lines: seq<string>, key: string, size: nat)
    ensures
      Read(lines, key, size) == if Shadow(lines, key, size).Some? then Shadow(lines, key, size).value
                                else Read(Others(lines), key, size)
  {
    if lines != [] {
      var line, rest := lines[0], lines[1..];
      ShadowDecides(rest, key, size);
      ReadFirst(line, Others(rest), key, size);
      hide HasKey, LineYield;
      assert [] + Others(rest) == Others(rest);
    }
  }

  /** An update leaves another setting as it was exactly when no url line shadows it or the shadow said the same. */
  lemma OtherSettingsStay(file: string, url: string, key: string, size: nat)
    requires '\0' !in file && UrlIsValid(url) && OtherKey(key)
    ensures
      LoadValue(SetUrl(file, url), key, size) == LoadValue(file, key, size)
      <==> (|| |Prefix(key)| >= 64
            || Shadow(Lines(file), key, size).None?
            || Shadow(Lines(file), key, size).value == Read(Others(Lines(file)), key, size))
  {
    if |Prefix(key)| < 64 {
      hide UrlLine, UrlIsValid, ValueIn, Chunks, Lines, AreLines, NoNul, SetUrl, Join, Read, Others, OtherKey,
        Prefix, Shadow;
      OtherSettingsRead(file, url, key, size);
      LinesAreLines(file);
      LinesHaveNoNul(file);
      JoinOfLines(file);
      ReadByLines(Lines(file), key, size);
      ShadowDecides(Lines(file), key, size);
    }
  }

  /** Only a url line that is too long for the reader's buffer can shadow another setting. */
  lemma {:induction false} OnlyLongLinesShadow(lines: seq<string>, key: string, size: nat)
    requires AreLines(lines) && OtherKey(key) && forall i :: 0 <= i < |lines| ==> |lines[i]| <= VALUE_CHUNK
    ensures Shadow(lines, key, size).None?
  {
    if lines != [] {
      ShortYield(lines[0], key, size);
      if HasKey(lines[0], URL_KEY) { OtherYield(lines[0], key, size); }
      hide HasKey, LineYield, Yield, OtherKey;
      OnlyLongLinesShadow(lines[1..], key, size);
    }
  }

  /** A url line of 511 characters, as far as the reader's first chunk sees it. */
  function UrlFiller(): (s: string)
    ensures |s| == VALUE_CHUNK
  {
    URL_KEY + " =" + seq(VALUE_CHUNK - 12, _ => '#')
  }

  lemma UrlFillerHasKey(rest: string)
    ensures HasKey(UrlFiller() + rest, URL_KEY) && '\n' !in UrlFiller() && '\0' !in UrlFiller()
  {
    var line := UrlFiller() + rest;
    assert line == URL_KEY + (" =" + seq(VALUE_CHUNK - 12, _ => '#') + rest);
    assert SkipPad(line, 0) == 0 && URL_KEY <= line[0..];
    assert line[10] == ' ' && line[11] == '=';
    assert SkipPad(line, 10) == SkipPad(line, 11) == 11;
  }

  lemma UsernameIsOther()
    ensures OtherKey("username") && |Prefix("username")| < 64
  {
  }

  lemma QuoteIsAt(s: string, i: nat, n: nat)
    requires i <= n < |s| && s[n] == '"' && forall x :: i <= x < n ==> s[x] != '"'
    ensures FindQuote(s, i) == Some(n)
  {
    var q := FindQuote(s, i);
    assert q.Some? && !(q.value < n) && !(n < q.value);
  }

  lemma NameLineYields(username: string, size: nat)
    requires Packet.UsernameIsValid(username) && |username| < size
    ensures LineYield(Setting("username", username), "username", size) == Some(Ok(username))
  {
    hide IsLine, EndsLine, HasKey, FindQuote;
    var line, prefix := Setting("username", username), Prefix("username");
    var n := |prefix| + |username|;
    NameLineIsLine(username);
    assert line == prefix + username + "\"\n";
    assert line[n] == '"' && line[|prefix|..n] == username && prefix <= line;
    assert forall x :: |prefix| <= x < n ==> line[x] != '"' by {
      assert forall x :: |prefix| <= x < n ==> line[x] == username[x - |prefix|];
    }
    hide Setting, Prefix, Packet.UsernameIsValid;
    QuoteIsAt(line, |prefix|, n);
    ShortYield(line, "username", size);
  }

  /** Such a file: a name behind 511 characters of a url line. The reader sees it until an update drops the line. */
  lemma LongUrlLineShadows(username: string, url: string, size: nat)
    requires Packet.UsernameIsValid(username) && |username| < size && UrlIsValid(url)
    ensures
      var file := UrlFiller() + Setting("username", username);
      && LoadValue(file, "username", size) == Ok(username)
      && LoadValue(SetUrl(file, url), "username", size) == ErrNotFound
  {
    hide HasKey, Setting, UrlIsValid, SetUrl, ValueIn, Chunks, IsLine, EndsLine, Lines, UrlFiller, Yield, Join,
      ChunkLength, OtherKey, Prefix, Packet.UsernameIsValid;
    var name := Setting("username", username);
    var line := UrlFiller() + name;
    NameLineIsLine(username);
    NameLineYields(username, size);
    UrlFillerHasKey(name);
    UrlFillerHasKey("");
    assert UrlFiller() + "" == UrlFiller();
    UsernameIsOther();
    LongLineIsLine(UrlFiller(), name);
    JoinOne(line);
    assert AreLines([line]) by { ConsAreLines(line, []); assert [line] + [] == [line]; }
    LinesOfJoin([line]);
    OtherSettingsRead(line, url, "username", size);
    assert Others([line]) == [] by { OthersCons(line, []); assert [line] + [] == [line]; }
    ReadByLines([line], "username", size);
    FirstChunk(line, []);
    assert line[..VALUE_CHUNK] == UrlFiller() && line[VALUE_CHUNK..] == name;
    OtherYield(UrlFiller(), "username", size);
  }

  // ---------------------------------------------------------------- every history

  function Standard(username: string, url: string): string { Setting("username", username) + UrlLine(url) }

  lemma NameLineIsLine(username: string)
    requires Packet.UsernameIsValid(username)
    ensures
      var line := Setting("username", username);
      && IsLine(line) && EndsLine(line) && '\0' !in line && |line| <= 46
      && !HasKey(line, URL_KEY)
  {
  }

  lemma SkipOneSpace(s: string)
    requires s != "" && !Space(s[0])
    ensures SkipSpaces(" " + s) == s
  {
  }

  lemma NameLineScans(username: string)
    requires Packet.UsernameIsValid(username)
    ensures ScanUsername(Setting("username", username)) == Some(username)
  {
    var tail := username + "\"\n";
    SpanOfName(username, "\"\n", Packet.USERNAME_MAX);
    assert Setting("username", username) == "username" + (" " + ("=" + (" " + ("\"" + tail))));
    hide NameSpan, Setting, Packet.UsernameIsValid;
    ScanSteps(tail, username);
  }

  lemma ScanSteps(tail: string, name: string)
    requires NameSpan(tail, Packet.USERNAME_MAX) == name && name != ""
    ensures ScanUsername("username" + (" " + ("=" + (" " + ("\"" + tail))))) == Some(name)
  {
    hide SkipSpaces, NameSpan;
    var b := "\"" + tail;
    var a := "=" + (" " + b);
    SkipOneSpace(a);
    SkipOneSpace(b);
    assert ("username" + (" " + a))[8..] == " " + a && a[1..] == " " + b && b[1..] == tail;
  }

  lemma {:induction false} SpanOfName(name: string, rest: string, max: nat)
    requires |name| <= max && (forall i :: 0 <= i < |name| ==> Packet.NameChar(name[i])) && rest != []
      && !Packet.NameChar(rest[0])
    ensures NameSpan(name + rest, max) == name
  {
    if name != [] {
      assert (name + rest)[1..] == name[1..] + rest;
      SpanOfName(name[1..], rest, max - 1);
    } else {
      assert name + rest == rest;
    }
  }

  lemma StandardLines(username: string, url: string)
    requires Packet.UsernameIsValid(username) && UrlIsValid(url)
    ensures
      var lines := [Setting("username", username), UrlLine(url)];
      && Standard(username, url) == Join(lines) && AreLines(lines) && NoNul(lines)
      && Lines(Standard(username, url)) == lines
  {
    NameLineIsLine(username);
    UrlLineIsLine(url);
    hide Setting, UrlLine, HasKey, UrlIsValid, IsLine, EndsLine, ScanUsername, Packet.UsernameIsValid;
    var lines := [Setting("username", username), UrlLine(url)];
    JoinOne(UrlLine(url));
    assert lines == [Setting("username", username)] + [UrlLine(url)];
    JoinCons(Setting("username", username), [UrlLine(url)]);
    assert AreLines(lines);
    LinesOfJoin(lines);
  }

  /** An update of a standard file is the standard file with the new url. */
  lemma StandardUpdate(username: string, old': string, url: string)
    requires Packet.UsernameIsValid(username) && UrlIsValid(old') && UrlIsValid(url)
    ensures SetUrl(Standard(username, old'), url) == Standard(username, url)
  {
    StandardLines(username, old');
    StandardLines(username, url);
    var name := Setting("username", username);
    NameLineIsLine(username);
    UrlLineIsLine(old');
    hide Setting, UrlLine, HasKey, UrlIsValid, IsLine, EndsLine, ScanUsername, Packet.UsernameIsValid, Lines, Join,
      Standard;
    TextHasNoNul([name, UrlLine(old')]);
    UpdateIsAfter(Standard(username, old'), url);
    CStringOfText(UrlLine(old'));
    KeyedAt([name, UrlLine(old')], 1);
    assert [name, UrlLine(old')] == [name] + ([UrlLine(old')] + []);
    ReplacedCons(name, [UrlLine(old')] + [], url, false);
    ReplacedCons(UrlLine(old'), [], url, false);
    ReplacedNothing(url, true);
    hide Replaced, SetUrl, AnyUrl;
    assert After([name, UrlLine(old')], url) == [name, UrlLine(url)];
  }

  function Updates(file: string, urls: seq<string>): string {
    if urls == [] then file else SetUrl(Updates(file, urls[..|urls| - 1]), urls[|urls| - 1])
  }

  predicate UrlChars(s: string) { forall i :: 0 <= i < |s| ==> UrlChar(s[i]) }

  lemma UrlCharsOf(a: string, b: string)
    requires UrlChars(a) && UrlChars(b)
    ensures UrlChars(a + b)
  {
  }

  lemma DefaultChars()
    ensures UrlChars("wss://") && UrlChars("pronto-chat") && UrlChars(".duckdns.org")
  {
  }

  lemma DefaultParts()
    ensures DEFAULT_URL == "wss://" + ("pronto-chat" + ".duckdns.org")
  {
  }

  lemma SecureUrl(host: string)
    requires host != "" && |host| < 240 && host[0] == 'p' && UrlChars(host) && UrlChars("wss://")
    ensures UrlIsValid("wss://" + host)
  {
    UrlCharsOf("wss://", host);
    var url := "wss://" + host;
    assert url[6..] == host && url[2] == 's';
    hide UrlChar;
  }

  lemma DefaultIsValid()
    ensures UrlIsValid(DEFAULT_URL)
  {
    hide UrlChars, UrlIsValid;
    DefaultParts();
    DefaultChars();
    UrlCharsOf("pronto-chat", ".duckdns.org");
    SecureUrl("pronto-chat" + ".duckdns.org");
  }

  lemma {:induction false} UpdatesAreStandard(username: string, urls: seq<string>)
    requires Packet.UsernameIsValid(username) && forall i :: 0 <= i < |urls| ==> UrlIsValid(urls[i])
    ensures
      Updates(Created(username), urls)
      == Standard(username, if urls == [] then DEFAULT_URL else urls[|urls| - 1])
  {
    DefaultIsValid();
    hide UrlIsValid, Packet.UsernameIsValid, SetUrl, Setting, UrlLine;
    if urls != [] {
      var before := urls[..|urls| - 1];
      UpdatesAreStandard(username, before);
      StandardUpdate(username, if before == [] then DEFAULT_URL else before[|before| - 1], urls[|urls| - 1]);
      hide Standard, Created;
    }
  }

  /** Every history: after creating a configuration and any sequence of valid updates, the url that loads is the last
      one set and the username that loads is the one created, although the two readers cut the file differently. */
  lemma HistoryIsLoaded(username: string, urls: seq<string>)
    requires Packet.UsernameIsValid(username) && forall i :: 0 <= i < |urls| ==> UrlIsValid(urls[i])
    ensures
      var file := Updates(Created(username), urls);
      && LoadValue(file, URL_KEY, URL_SIZE) == Ok(if urls == [] then DEFAULT_URL else urls[|urls| - 1])
      && LoadUsername(file) == Ok(username)
  {
    var url := if urls == [] then DEFAULT_URL else urls[|urls| - 1];
    DefaultIsValid();
    UpdatesAreStandard(username, urls);
    StandardLoads(username, url);
    hide Updates, Created, Standard, LoadValue, LoadUsername;
  }

  lemma StandardLoads(username: string, url: string)
    requires Packet.UsernameIsValid(username) && UrlIsValid(url)
    ensures LoadValue(Standard(username, url), URL_KEY, URL_SIZE) == Ok(url)
    ensures LoadUsername(Standard(username, url)) == Ok(username)
  {
    hide Setting, UrlLine, HasKey, UrlIsValid, IsLine, EndsLine, Packet.UsernameIsValid, Lines, Join, LoadValue,
      LoadUsername, SetUrl,
      Mask, Standard;
    var lines := [Setting("username", username), UrlLine(url)];
    StandardUpdate(username, url, url);
    StandardLines(username, url);
    TextHasNoNul(lines);
    NameLineIsLine(username);
    UrlLineIsLine(url);
    OnlyLongLinesMask(lines);
    UpdateIsLoaded(Standard(username, url), url);
    StandardName(username, url);
  }

  lemma StandardName(username: string, url: string)
    requires Packet.UsernameIsValid(username) && UrlIsValid(url)
    ensures LoadUsername(Standard(username, url)) == Ok(username)
  {
    hide Setting, UrlLine, HasKey, UrlIsValid, IsLine, EndsLine, ScanUsername, Packet.UsernameIsValid, ChunkLength;
    var name := Setting("username", username);
    NameLineIsLine(username);
    NameLineScans(username);
    ChunkOfLine(name, UrlLine(url), NAME_CHUNK);
    assert Standard(username, url)[..|name|] == name;
    CStringOfText(name);
  }

  /** An update is written exactly when the url is valid and there is a file; otherwise the reason is given. */
  lemma OnlyValidUpdatesAreWritten(file: Option<string>, url: string)
    ensures SetServerUrl(file, url).Ok? <==> UrlIsValid(url) && file.Some?
    ensures SetServerUrl(file, url) == ErrInvalidUrl <==> !UrlIsValid(url)
    ensures SetServerUrl(file, url) == ErrNotFound <==> UrlIsValid(url) && file.None?
    ensures
      file.Some? && UrlIsValid(url) && '\0' !in file.value && Mask(Lines(file.value)).None? ==>
        LoadValue(SetServerUrl(file, url).value, URL_KEY, URL_SIZE) == Ok(url)
  {
    if file.Some? && UrlIsValid(url) && '\0' !in file.value {
      UpdateIsLoaded(file.value, url);
    }
    hide UrlIsValid, SetUrl, LoadValue, Mask, Lines;
  }

  /** A value without its closing quote, or one too long for the caller's buffer, is an error of its own kind. */
  lemma BadValuesAreErrors(chunk: string, key: string, size: nat)
    requires Prefix(key) <= chunk
    ensures
      var n := |Prefix(key)|;
      && ('"' !in chunk[n..] ==> Yield(chunk, key, size) == Some(ErrBadFile))
      && (forall m: nat :: n <= m < |chunk| && chunk[m] == '"' && '"' !in chunk[n..m] ==>
            Yield(chunk, key, size) == Some(if m - n >= size then ErrBuffer else Ok(chunk[n..m])))
  {
    var n := |Prefix(key)|;
    var q := FindQuote(chunk, n);
    if q.Some? {
      assert chunk[n..][q.value - n] == '"';
    }
    forall m: nat | n <= m < |chunk| && chunk[m] == '"' && '"' !in chunk[n..m]
      ensures q == Some(m)
    {
      assert forall x :: n <= x < m ==> chunk[x] == chunk[n..m][x - n];
      QuoteIsAt(chunk, n, m);
    }
    hide Prefix, FindQuote;
  }
}
