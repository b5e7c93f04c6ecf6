/** The username in the configuration file: which line decides it, and that updates of the url leave it alone. */
module ConfigName {
  import opened Config
  import opened ConfigHistory
  import opened Octets
  import opened Stdio
  import Packet

  // ---------------------------------------------------------------- line by line

  /** What a chunk that scans yields. */
  function NameYield(chunk: string): Option<Result<string>> {
    match ScanUsername(chunk)
    case None => None
    case Some(name) => Some(if Packet.UsernameIsValid(name) then Ok(name) else ErrBadFile)
  }

  /** The first chunk of a line that scans. */
  function NameOfLine(line: string): Option<Result<string>>
    decreases |line|
  {
    if line == [] then None
    else
      var n := ChunkLength(line, NAME_CHUNK);
      if NameYield(line[..n]).Some? then NameYield(line[..n]) else NameOfLine(line[n..])
  }

  /** The first line that yields a name decides. */
  function FirstName(lines: seq<string>): Result<string> {
    if lines == [] then ErrBadFile
    else if NameOfLine(lines[0]).Some? then NameOfLine(lines[0]).value
    else FirstName(lines[1..])
  }

  lemma FirstOf(line: string, rest: seq<string>)
    ensures FirstName([line] + rest) == if NameOfLine(line).Some? then NameOfLine(line).value else FirstName(rest)
  {
    assert ([line] + rest)[1..] == rest;
  }

  lemma NameChunk(line: string, rest: string)
    requires IsLine(line) && (EndsLine(line) || rest == [])
    ensures ChunkLength(line + rest, NAME_CHUNK) == ChunkLength(line, NAME_CHUNK) <= |line|
    ensures ChunkLength(line, NAME_CHUNK) == if |line| <= NAME_CHUNK then |line| else NAME_CHUNK
  {
    hide ChunkLength;
    assert line + [] == line;
    if |line| <= NAME_CHUNK {
      ChunkOfLine(line, rest, NAME_CHUNK);
      ChunkOfLine(line, [], NAME_CHUNK);
    } else {
      FullChunk(line, NAME_CHUNK);
      FullChunk(line + rest, NAME_CHUNK);
    }
  }

  lemma NameCons(chunk: string, rest: seq<string>)
    requires '\0' !in chunk
    ensures NameIn([chunk] + rest) == if NameYield(chunk).Some? then NameYield(chunk).value else NameIn(rest)
  {
    CStringOfText(chunk);
    assert ([chunk] + rest)[1..] == rest;
    hide ScanUsername, Packet.UsernameIsValid;
  }

  lemma {:induction false} NameInLine(line: string, rest: string)
    requires IsLine(line) && (EndsLine(line) || rest == []) && '\0' !in line
    ensures
      NameIn(Chunks(line + rest, NAME_CHUNK))
      == if NameOfLine(line).Some? then NameOfLine(line).value else NameIn(Chunks(rest, NAME_CHUNK))
    decreases |line|
  {
    var n := ChunkLength(line, NAME_CHUNK);
    NameChunk(line, rest);
    var chunk, tail := line[..n], line[n..];
    assert (line + rest)[..n] == chunk && (line + rest)[n..] == tail + rest;
    assert Chunks(line + rest, NAME_CHUNK) == [chunk] + Chunks(tail + rest, NAME_CHUNK);
    NameCons(chunk, Chunks(tail + rest, NAME_CHUNK));
    if n < |line| {
      TailIsLine(line, n);
      NameInLine(tail, rest);
    } else {
      assert tail + rest == rest;
    }
    hide ChunkLength, Chunks, NameIn, NameYield, IsLine, EndsLine;
  }

  /** The reader of 127-character chunks finds what the first line with a name yields, wherever it stands and however
      long the lines are; without one the file is bad. */
  lemma {:induction false} NameByLines(lines: seq<string>)
    requires AreLines(lines) && NoNul(lines)
    ensures LoadUsername(Join(lines)) == FirstName(lines)
  {
    if lines != [] {
      var line, rest := lines[0], lines[1..];
      NameByLines(rest);
      if rest == [] { JoinNothing(); }
      NameInLine(line, Join(rest));
    }
    hide NameIn, Chunks, NameOfLine, IsLine, EndsLine;
  }

  /** A username line anywhere in the file is found, behind any lines that yield no name. */
  lemma {:induction false} NameIsFound(before: seq<string>, username: string, after: seq<string>)
    requires Packet.UsernameIsValid(username)
    requires forall i :: 0 <= i < |before| ==> NameOfLine(before[i]).None?
    ensures FirstName(before + [Setting("username", username)] + after) == Ok(username)
  {
    var line := Setting("username", username);
    if before == [] {
      assert before + [line] + after == [line] + after;
      FirstOf(line, after);
      NameLineIsName(username);
    } else {
      var rest := before[1..];
      assert before + [line] + after == [before[0]] + (rest + [line] + after);
      FirstOf(before[0], rest + [line] + after);
      NameIsFound(rest, username, after);
    }
    hide NameOfLine, Setting;
  }

  lemma NameLineIsName(username: string)
    requires Packet.UsernameIsValid(username)
    ensures NameOfLine(Setting("username", username)) == Some(Ok(username))
  {
    hide IsLine, EndsLine, HasKey, ScanUsername, Packet.UsernameIsValid, Setting, ChunkLength;
    var line := Setting("username", username);
    NameLineIsLine(username);
    NameLineScans(username);
    NameChunk(line, []);
    assert line[..|line|] == line;
  }

  // ---------------------------------------------------------------- updates

  /** Text that cannot be a username line: a name in front needs the word, an equals sign and a quote. */
  lemma NoWordNoName(chunk: string)
    requires !("username" <= chunk)
    ensures NameYield(chunk).None?
  {
  }

  /** A chunk of a url line, from `i` on, scans as no name. */
  lemma UrlChunkHasNoName(url: string, i: nat, n: nat)
    requires UrlIsValid(url) && i <= n <= |UrlLine(url)|
    ensures NameYield(UrlLine(url)[i..n]).None?
  {
    var line := UrlLine(url);
    var chunk := line[i..n];
    if "username" <= chunk {
      UrlLineChars(url);
      var tail := chunk[8..];
      assert forall x :: 0 <= x < |chunk| ==> chunk[x] == line[i + x];
      assert forall x :: 0 <= x < 8 ==> chunk[x] == "username"[x];
      assert i >= 14 by { WordIsInUrl(url, i); }
      assert forall x :: 0 <= x < |tail| ==> tail[x] == line[i + 8 + x];
      ScansNothing(url, i + 8, n);
    } else {
      NoWordNoName(chunk);
    }
    hide UrlLine, UrlIsValid;
  }

  lemma UrlLineChars(url: string)
    requires UrlIsValid(url)
    ensures
      var line := UrlLine(url);
      && |line| == 14 + |url| + 2 && line[..14] == "server_url = \"" && line[14..14 + |url|] == url
      && line[14 + |url|] == '"' && line[15 + |url|] == '\n'
  {
  }

  lemma WordIsInUrl(url: string, i: nat)
    requires UrlIsValid(url) && i + 8 <= |UrlLine(url)| && UrlLine(url)[i..i + 8] == "username"
    ensures i >= 14
  {
    UrlLineChars(url);
    var line := UrlLine(url);
    assert line[i] == line[i..i + 8][0] == 'u' && line[i + 1] == line[i..i + 8][1] == 's';
    assert forall x :: 0 <= x < 14 ==> line[x] == "server_url = \""[x];
    hide UrlLine, UrlIsValid;
  }

  /** Behind the word, inside a url or at its end, there is no equals sign followed by a quote and a name. */
  lemma ScansNothing(url: string, j: nat, n: nat)
    requires UrlIsValid(url) && 14 <= j <= n <= |UrlLine(url)|
    ensures
      var a := SkipSpaces(UrlLine(url)[j..n]);
      a == "" || a[0] != '=' ||
      var b := SkipSpaces(a[1..]);
      b == "" || b[0] != '"' || NameSpan(b[1..], Packet.USERNAME_MAX) == ""
  {
    UrlLineChars(url);
    var line := UrlLine(url);
    var a := SkipSpaces(line[j..n]);
    if j < 14 + |url| && j < n {
      assert line[j..n][0] == line[j] == url[j - 14];
      assert !Space(url[j - 14]);
      assert a == line[j..n];
      if a[0] == '=' && j + 1 < n {
        AfterEquals(url, j + 1, n);
        assert a[1..] == line[j + 1..n];
      }
    } else {
      EndHasNoEquals(url, j, n);
    }
    hide UrlLine, UrlIsValid, SkipSpaces, NameSpan;
  }

  lemma EndHasNoEquals(url: string, j: nat, n: nat)
    requires UrlIsValid(url) && j <= n <= |UrlLine(url)| && (14 + |url| <= j || j == n)
    ensures var a := SkipSpaces(UrlLine(url)[j..n]); a == "" || a[0] != '='
  {
    UrlLineChars(url);
    var line := UrlLine(url);
    if j < n {
      assert forall x :: 0 <= x < n - j ==> line[j..n][x] == line[j + x];
    }
    hide UrlLine, UrlIsValid;
  }

  lemma AfterEquals(url: string, j: nat, n: nat)
    requires UrlIsValid(url) && 14 < j < n <= |UrlLine(url)|
    ensures
      var b := SkipSpaces(UrlLine(url)[j..n]);
      b == "" || b[0] != '"' || NameSpan(b[1..], Packet.USERNAME_MAX) == ""
  {
    UrlLineChars(url);
    var line := UrlLine(url);
    var c := line[j..n];
    assert forall x :: 0 <= x < n - j ==> c[x] == line[j + x];
    if j < 14 + |url| {
      assert c[0] == url[j - 14] && !Space(c[0]) && c[0] != '"';
    } else if j == 14 + |url| {
      assert c[0] == '"' && !Space(c[0]) && SkipSpaces(c) == c;
      assert c[1..] == "" || c[1..][0] == '\n';
      assert !Packet.NameChar('\n');
    } else {
      assert c == "\n";
    }
    hide UrlLine, UrlIsValid;
  }

  lemma {:induction false} UrlTailHasNoName(url: string, i: nat)
    requires UrlIsValid(url) && i <= |UrlLine(url)|
    ensures NameOfLine(UrlLine(url)[i..]).None?
    decreases |UrlLine(url)| - i
  {
    hide NameYield, UrlLine, UrlIsValid, ChunkLength;
    var line := UrlLine(url);
    var tail := line[i..];
    if tail != [] {
      var n := ChunkLength(tail, NAME_CHUNK);
      assert tail[..n] == line[i..i + n] && tail[n..] == line[i + n..];
      UrlChunkHasNoName(url, i, i + n);
      UrlTailHasNoName(url, i + n);
    }
  }

  lemma {:induction false} ReplacedKeepsName(lines: seq<string>, url: string, written: bool)
    requires NoNul(lines) && UrlIsValid(url)
    ensures FirstName(Replaced(lines, url, written)) == FirstName(Others(lines))
  {
    hide HasKey, UrlLine, Replaced, UrlIsValid, FirstName, NameOfLine, Others;
    if lines == [] {
      ReplacedNothing(url, written);
      NoOthers();
    } else {
      var line, rest := lines[0], lines[1..];
      assert lines == [line] + rest;
      ReplacedCons(line, rest, url, written);
      OthersCons(line, rest);
      ReplacedKeepsName(rest, url, true);
      ReplacedKeepsName(rest, url, written);
      if HasKey(line, URL_KEY) {
        UrlTailHasNoName(url, 0);
        assert UrlLine(url)[0..] == UrlLine(url);
        FirstOf(UrlLine(url), Replaced(rest, url, true));
        assert [] + Replaced(rest, url, true) == Replaced(rest, url, true) && [] + Others(rest) == Others(rest);
      } else {
        FirstOf(line, Replaced(rest, url, written));
        FirstOf(line, Others(rest));
      }
    }
  }

  // ---------------------------------------------------------------- a newline at the end

  lemma {:induction false} SpanBeforeNewline(s: string, max: nat)
    ensures NameSpan(s + "\n", max) == NameSpan(s, max)
  {
    if s != [] && max > 0 && Packet.NameChar(s[0]) {
      assert (s + "\n")[1..] == s[1..] + "\n";
      SpanBeforeNewline(s[1..], max - 1);
    }
  }

  lemma {:induction false} SkipBeforeNewline(s: string)
    ensures SkipSpaces(s + "\n") == if SkipSpaces(s) == "" then "" else SkipSpaces(s) + "\n"
  {
    if s == [] {
      assert SkipSpaces("\n") == SkipSpaces("\n"[1..]) == "";
      assert s + "\n" == "\n";
    } else if Space(s[0]) {
      assert (s + "\n")[1..] == s[1..] + "\n";
      SkipBeforeNewline(s[1..]);
    }
  }

  lemma ScanBeforeNewline(line: string)
    ensures ScanUsername(line + "\n") == ScanUsername(line)
  {
    hide SkipSpaces, NameSpan;
    var longer := line + "\n";
    assert longer[|line|] == '\n' && '\n' !in "username";
    assert "username" <= longer <==> "username" <= line;
    if "username" <= line {
      assert longer[8..] == line[8..] + "\n";
      SkipBeforeNewline(line[8..]);
      var a := SkipSpaces(line[8..]);
      if a != "" {
        assert (a + "\n")[1..] == a[1..] + "\n";
        SkipBeforeNewline(a[1..]);
        var b := SkipSpaces(a[1..]);
        if b != "" {
          assert (b + "\n")[1..] == b[1..] + "\n";
          SpanBeforeNewline(b[1..], Packet.USERNAME_MAX);
        }
      }
    }
  }

  lemma {:induction false} NameBeforeNewline(line: string)
    requires IsLine(line) && !EndsLine(line)
    ensures NameOfLine(line + "\n") == NameOfLine(line)
    decreases |line|
  {
    hide NameYield, ChunkLength;
    var longer := line + "\n";
    assert IsLine(longer);
    NameChunk(line, []);
    NameChunk(longer, []);
    var n := ChunkLength(line, NAME_CHUNK);
    if |line| < NAME_CHUNK {
      assert longer[..|longer|] == longer && line[..|line|] == line;
      YieldBeforeNewline(line);
    } else {
      assert longer[..n] == line[..n] && longer[n..] == line[n..] + "\n";
      if n < |line| {
        TailIsLine(line, n);
        NameBeforeNewline(line[n..]);
      } else {
        assert longer[n..] == "\n";
        NewlineHasNoName();
      }
    }
  }

  lemma YieldBeforeNewline(line: string)
    ensures NameYield(line + "\n") == NameYield(line)
  {
    hide ScanUsername, Packet.UsernameIsValid;
    ScanBeforeNewline(line);
  }

  lemma NewlineHasNoName()
    ensures NameOfLine("\n").None?
  {
    NameChunk("\n", []);
    assert "\n"[..1] == "\n" && "\n"[1..] == "";
    NoWordNoName("\n");
    hide ChunkLength;
  }

  lemma {:induction false} NameInFront(lines: seq<string>, more: seq<string>, less: seq<string>)
    requires FirstName(more) == FirstName(less)
    ensures FirstName(lines + more) == FirstName(lines + less)
  {
    hide NameOfLine;
    if lines == [] {
      assert lines + more == more && lines + less == less;
    } else {
      assert lines + more == [lines[0]] + (lines[1..] + more) && lines + less == [lines[0]] + (lines[1..] + less);
      NameInFront(lines[1..], more, less);
    }
  }

  /** Ending the last line and appending a url line add no name. */
  lemma AppendedKeepsName(lines: seq<string>, url: string)
    requires AreLines(lines) && UrlIsValid(url)
    ensures FirstName(Terminated(lines) + [UrlLine(url)]) == FirstName(lines)
  {
    hide NameOfLine, UrlLine, UrlIsValid, EndsLine;
    UrlTailHasNoName(url, 0);
    assert UrlLine(url)[0..] == UrlLine(url);
    assert FirstName([]) == ErrBadFile;
    assert [UrlLine(url)] + [] == [UrlLine(url)];
    FirstOf(UrlLine(url), []);
    NameInFront(Terminated(lines), [UrlLine(url)], []);
    assert Terminated(lines) + [] == Terminated(lines) && lines + [] == lines;
    if lines != [] && !EndsLine(lines[|lines| - 1]) {
      var front, last := lines[..|lines| - 1], lines[|lines| - 1];
      assert lines == front + [last];
      NameBeforeNewline(last);
      assert [last] + [] == [last] && [last + "\n"] + [] == [last + "\n"];
      FirstOf(last, []);
      FirstOf(last + "\n", []);
      NameInFront(front, [last + "\n"], [last]);
    }
  }

  lemma {:induction false} OthersAreAll(lines: seq<string>)
    requires NoNul(lines) && !AnyUrl(lines)
    ensures Others(lines) == lines
  {
    hide HasKey, AnyUrl;
    if lines != [] {
      var line, rest := lines[0], lines[1..];
      assert lines == [line] + rest;
      AnyUrlCons(line, rest);
      OthersAreAll(rest);
    }
  }

  /** On any text file: an update of the url leaves the username as the lines that are no url lines have it, so it stays
      as it was exactly when no url line yields one first. */
  lemma UpdateKeepsName(file: string, url: string)
    requires '\0' !in file && UrlIsValid(url)
    ensures LoadUsername(file) == FirstName(Lines(file))
    ensures LoadUsername(SetUrl(file, url)) == FirstName(Others(Lines(file)))
  {
    hide UrlLine, Replaced, AnyUrl, UrlIsValid, AreLines, NoNul, SetUrl, Others, FirstName, LoadUsername, Terminated;
    var lines := Lines(file);
    LinesAreLines(file);
    LinesHaveNoNul(file);
    JoinOfLines(file);
    hide Lines, Join;
    NameByLines(lines);
    UpdateIsAfter(file, url);
    NameByLines(After(lines, url));
    if AnyUrl(lines) {
      ReplacedKeepsName(lines, url, false);
    } else {
      AppendedKeepsName(lines, url);
      OthersAreAll(lines);
    }
  }
}
