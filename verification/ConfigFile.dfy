/** The configuration file as the program reads and rewrites it (common/identity.c). */
module ConfigFile {
  import opened Config
  import opened Octets
  import opened Stdio
  import PacketBuffer

  method SkipPadFrom(line: string, start: nat) returns (cursor: nat)
    requires start <= |line|
    ensures cursor == SkipPad(line, start)
  {
    cursor := start;
    while cursor < |line| && Pad(line[cursor])
      invariant cursor <= |line| && SkipPad(line, cursor) == SkipPad(line, start)
    {
      cursor := cursor + 1;
    }
  }

  method LineHasKey(line: string, key: string) returns (has: bool)
    ensures has <==> HasKey(line, key)
  {
    var cursor := SkipPadFrom(line, 0);
    if !(key <= line[cursor..]) {
      return false;
    }
    cursor := SkipPadFrom(line, cursor + |key|);
    has := cursor < |line| && line[cursor] == '=';
  }

  method CheckUrl(url: string) returns (ok: bool)
    ensures ok <==> UrlIsValid(url)
  {
    if |url| == 0 || |url| >= URL_SIZE {
      return false;
    }
    var authority: string;
    if "ws://" <= url {
      authority := url[5..];
    } else if "wss://" <= url {
      authority := url[6..];
    } else {
      return false;
    }
    if !AuthorityStarts(authority) {
      return false;
    }
    for i := 0 to |url|
      invariant forall j :: 0 <= j < i ==> UrlChar(url[j])
    {
      if !UrlChar(url[i]) {
        return false;
      }
    }
    ok := true;
  }

  lemma AnyUrlFirst(lines: seq<string>)
    requires lines != []
    ensures AnyUrl(lines) <==> HasKey(CString(lines[0]), URL_KEY) || AnyUrl(lines[1..])
  {
  }

  function Gap(hadContent: bool, endedLine: bool): string { if hadContent && !endedLine then "\n" else "" }

  /** What is still to be written when `rest` is still to be read. */
  function Remaining(rest: string, url: string, written: bool, hadContent: bool, endedLine: bool): string
    decreases |rest|
  {
    if rest == [] then if written then "" else Gap(hadContent, endedLine) + UrlLine(url)
    else
      var n := ChunkLength(rest, |rest|);
      var line := CString(rest[..n]);
      var has := HasKey(line, URL_KEY);
      (if !has then line else if written then "" else UrlLine(url))
      + Remaining(rest[n..], url, written || has, true, EndsLine(line))
  }

  /** The rewrite: one pass over the lines that remembers whether the url was written and how the last line ended. */
  method Rewrite(file: string, url: string) returns (output: string)
    ensures output == SetUrl(file, url)
  {
    hide HasKey, UrlLine, CString, EndsLine, Remaining, SetUrl, ChunkLength, Gap;
    PassIsRewrite(file, url);
    var rest := file;
    var written, hadContent, endedLine := false, false, true;
    output := "";
    while rest != []
      invariant output + Remaining(rest, url, written, hadContent, endedLine) == SetUrl(file, url)
      decreases |rest|
    {
      RemainingStep(rest, url, written, hadContent, endedLine);
      ghost var was := output;
      var n := ChunkLength(rest, |rest|);
      var line := CString(rest[..n]);
      var has := LineHasKey(line, URL_KEY);
      var text := "";
      if has {
        if !written {
          text := UrlLine(url);
        }
        written := true;
      } else {
        text := line;
      }
      hadContent, endedLine := true, EndsLine(line);
      output := output + text;
      rest := rest[n..];
      ghost var after := Remaining(rest, url, written, hadContent, endedLine);
      assert was + (text + after) == output + after;
    }
    RemainingEnd(url, written, hadContent, endedLine);
    if !written {
      output := output + (Gap(hadContent, endedLine) + UrlLine(url));
    }
  }

  lemma RemainingEnd(url: string, written: bool, hadContent: bool, endedLine: bool)
    ensures Remaining([], url, written, hadContent, endedLine) == if written then ""
      else Gap(hadContent, endedLine) + UrlLine(url)
  {
  }

  /** The tail that a pass owes when it has not yet written the url. */
  function Owed(lines: seq<string>, url: string, hadContent: bool, endedLine: bool): string {
    if lines == [] then Gap(hadContent, endedLine) + UrlLine(url) else Appended(lines, url)
  }

  /** What a pass from a given point produces, in terms of the lines ahead. */
  function Produced(lines: seq<string>, url: string, written: bool, hadContent: bool, endedLine: bool): string {
    Join(Replaced(lines, url, written)) + if written || AnyUrl(lines) then ""
      else Owed(lines, url, hadContent, endedLine)
  }

  lemma ProducedStep(lines: seq<string>, url: string, written: bool, hadContent: bool, endedLine: bool)
    requires lines != []
    ensures
      var line := CString(lines[0]);
      var has := HasKey(line, URL_KEY);
      Produced(lines, url, written, hadContent, endedLine)
      == (if !has then line else if written then "" else UrlLine(url))
         + Produced(lines[1..], url, written || has, true, EndsLine(line))
  {
    hide HasKey, UrlLine, CString, EndsLine, Join, Replaced, AnyUrl, Owed;
    JoinReplaced(lines, url, written);
    AnyUrlFirst(lines);
    OwedLater(lines, url, hadContent, endedLine);
    var line := CString(lines[0]);
    var has := HasKey(line, URL_KEY);
    var step := if !has then line else if written then "" else UrlLine(url);
    var body := Join(Replaced(lines[1..], url, written || has));
    var tail := if written || AnyUrl(lines) then "" else Owed(lines, url, hadContent, endedLine);
    assert (step + body) + tail == step + (body + tail);
  }

  lemma {:induction false} PassProduces(rest: string, url: string, written: bool, hadContent: bool, endedLine: bool)
    ensures Remaining(rest, url, written, hadContent, endedLine)
      == Produced(Lines(rest), url, written, hadContent, endedLine)
    decreases |rest|
  {
    if rest == [] {
      assert Join(Replaced([], url, written)) == "" && !AnyUrl([]);
      hide UrlLine, Gap;
    } else {
      var n := ChunkLength(rest, |rest|);
      assert Lines(rest)[0] == rest[..n] && Lines(rest)[1..] == Lines(rest[n..]);
      hide HasKey, UrlLine, CString, EndsLine, Lines, Produced, Remaining;
      var line := CString(rest[..n]);
      PassProduces(rest[n..], url, written || HasKey(line, URL_KEY), true, EndsLine(line));
      ProducedStep(Lines(rest), url, written, hadContent, endedLine);
      RemainingStep(rest, url, written, hadContent, endedLine);
    }
  }

  lemma PassIsRewrite(file: string, url: string)
    ensures "" + Remaining(file, url, false, false, true) == SetUrl(file, url)
  {
    PassProduces(file, url, false, false, true);
    hide Remaining, UrlLine, Replaced, Join, HasKey, CString, EndsLine;
  }

  lemma RemainingStep(rest: string, url: string, written: bool, hadContent: bool, endedLine: bool)
    requires rest != []
    ensures
      var n := ChunkLength(rest, |rest|);
      var line := CString(rest[..n]);
      var has := HasKey(line, URL_KEY);
      Remaining(rest, url, written, hadContent, endedLine)
      == (if !has then line else if written then "" else UrlLine(url))
         + Remaining(rest[n..], url, written || has, true, EndsLine(line))
  {
  }

  lemma OwedLater(lines: seq<string>, url: string, hadContent: bool, endedLine: bool)
    requires lines != []
    ensures Owed(lines, url, hadContent, endedLine) == Owed(lines[1..], url, true, EndsLine(CString(lines[0])))
  {
  }

  lemma JoinReplaced(lines: seq<string>, url: string, written: bool)
    requires lines != []
    ensures
      var line := CString(lines[0]);
      Join(Replaced(lines, url, written))
      == if HasKey(line, URL_KEY) then (if written then "" else UrlLine(url)) + Join(Replaced(lines[1..], url, true))
         else line + Join(Replaced(lines[1..], url, written))
  {
    hide HasKey, UrlLine, CString;
    var rest := Replaced(lines[1..], url, true);
    assert ([UrlLine(url)] + rest)[1..] == rest && [] + rest == rest && "" + Join(rest) == Join(rest);
    var same := Replaced(lines[1..], url, written);
    assert ([CString(lines[0])] + same)[1..] == same;
  }

  method UpdateUrl(file: Option<string>, url: string) returns (result: Result<string>)
    ensures result == SetServerUrl(file, url)
  {
    var ok := CheckUrl(url);
    if !ok {
      return ErrInvalidUrl;
    }
    if file.None? {
      return ErrNotFound;
    }
    var output := Rewrite(file.value, url);
    result := Result.Ok(output);
  }

  method ReadValue(file: string, key: string, size: nat) returns (result: Result<string>)
    ensures result == LoadValue(file, key, size)
  {
    var prefix := Prefix(key);
    if |prefix| >= 64 {
      return ErrBuffer;
    }
    var rest := file;
    while rest != []
      invariant ValueIn(Chunks(rest, VALUE_CHUNK), key, size) == ValueIn(Chunks(file, VALUE_CHUNK), key, size)
      decreases |rest|
    {
      var n := ChunkLength(rest, VALUE_CHUNK);
      var line := CString(rest[..n]);
      if prefix <= line {
        var end := FindQuote(line, |prefix|);
        if end.None? {
          return ErrBadFile;
        }
        if end.value - |prefix| >= size {
          return ErrBuffer;
        }
        return Result.Ok(line[|prefix|..end.value]);
      }
      rest := rest[n..];
    }
    result := ErrNotFound;
  }

  method ReadUsername(file: string) returns (result: Result<string>)
    ensures result == LoadUsername(file)
  {
    var rest := file;
    while rest != []
      invariant NameIn(Chunks(rest, NAME_CHUNK)) == LoadUsername(file)
      decreases |rest|
    {
      var n := ChunkLength(rest, NAME_CHUNK);
      var name := ScanUsername(CString(rest[..n]));
      if name.Some? {
        var valid := PacketBuffer.CheckUsername(name.value);
        return if valid then Result.Ok(name.value) else ErrBadFile;
      }
      rest := rest[n..];
    }
    result := ErrBadFile;
  }
}
