/** The configuration file (common/identity.c): creation, the server-url rewrite and the two readers. A file is its
 text. */
module Config {
  import opened Octets
  import opened Stdio
  import Packet

  const URL_SIZE := 256
  const VALUE_CHUNK := 511
  const NAME_CHUNK := 127
  const DEFAULT_URL := "wss://pronto-chat.duckdns.org"
  const URL_KEY := "server_url"

  datatype Result<T> = Ok(value: T) | ErrNotFound | ErrBadFile | ErrBuffer | ErrInvalidUrl

  // ---------------------------------------------------------------- lines

  /** The successive results of getline: each line with its newline, the last one perhaps without. */
  function Lines(file: string): (r: seq<string>)
    decreases |file|
  {
    if file == [] then []
    else
      var n := ChunkLength(file, |file|);
      [file[..n]] + Lines(file[n..])
  }

  function Join(lines: seq<string>): string { if lines == [] then [] else lines[0] + Join(lines[1..]) }

  /** What the writer skips around a key: fewer characters than the JSON reader does. */
  predicate Pad(c: char) { c == ' ' || c == '\t' }

  function SkipPad(s: string, i: nat): (j: nat)
    requires i <= |s|
    ensures i <= j <= |s| && (j < |s| ==> !Pad(s[j])) && forall x :: i <= x < j ==> Pad(s[x])
    decreases |s| - i
  {
    if i < |s| && Pad(s[i]) then SkipPad(s, i + 1) else i
  }

  /** The tolerant test of the writer: blanks, the key, blanks, an equals sign. */
  predicate HasKey(line: string, key: string) {
    var i := SkipPad(line, 0);
    key <= line[i..] && var j := SkipPad(line, i + |key|); j < |line| && line[j] == '='
  }

  // ---------------------------------------------------------------- server urls

  predicate UrlChar(c: char) { c > ' ' && c != '\U{7F}' && c != '"' && c != '\\' }

  predicate AuthorityStarts(s: string) { s != "" && s[0] != '/' && s[0] != '?' && s[0] != '#' }

  /** `url` is a C string. */
  predicate UrlIsValid(url: string) {
    && 0 < |url| < URL_SIZE
    && (if "ws://" <= url then AuthorityStarts(url[5..]) else "wss://" <= url && AuthorityStarts(url[6..]))
    && forall i :: 0 <= i < |url| ==> UrlChar(url[i])
  }

  function Setting(key: string, value: string): string { key + " = \"" + value + "\"\n" }

  function UrlLine(url: string): string { Setting(URL_KEY, url) }

  function Created(username: string): string { Setting("username", username) + UrlLine(DEFAULT_URL) }

  // ---------------------------------------------------------------- the rewrite

  /** The lines after the rewrite: the first url line is replaced and later ones are dropped. */
  function Replaced(lines: seq<string>, url: string, written: bool): seq<string> {
    if lines == [] then []
    else
      var line := CString(lines[0]);
      if HasKey(line, URL_KEY) then (if written then [] else [UrlLine(url)]) + Replaced(lines[1..], url, true)
      else [line] + Replaced(lines[1..], url, written)
  }

  predicate AnyUrl(lines: seq<string>) { exists i :: 0 <= i < |lines| && HasKey(CString(lines[i]), URL_KEY) }

  predicate EndsLine(line: string) { line != "" && line[|line| - 1] == '\n' }

  /** What is appended when no line had the key. */
  function Appended(lines: seq<string>, url: string): string {
    (if lines != [] && !EndsLine(CString(lines[|lines| - 1])) then "\n" else "") + UrlLine(url)
  }

  function SetUrl(file: string, url: string): string {
    var lines := Lines(file);
    Join(Replaced(lines, url, false)) + if AnyUrl(lines) then "" else Appended(lines, url)
  }

  /** The operation with its error path. */
  function SetServerUrl(file: Option<string>, url: string): Result<string> {
    if !UrlIsValid(url) then ErrInvalidUrl
    else if file.None? then ErrNotFound
    else Ok(SetUrl(file.value, url))
  }

  // ---------------------------------------------------------------- the readers

  function Prefix(key: string): string { key + " = \"" }

  function FindQuote(s: string, i: nat): (r: Option<nat>)
    requires i <= |s|
    ensures r.Some? ==> i <= r.value < |s| && s[r.value] == '"' && forall x :: i <= x < r.value ==> s[x] != '"'
    ensures r.None? ==> forall x :: i <= x < |s| ==> s[x] != '"'
    decreases |s| - i
  {
    if i == |s| then None else if s[i] == '"' then Some(i) else FindQuote(s, i + 1)
  }

  /** What a chunk that starts with the prefix yields. */
  function Quoted(chunk: string, n: nat, size: nat): Result<string>
    requires n <= |chunk|
  {
    match FindQuote(chunk, n)
    case None => ErrBadFile
    case Some(end) => if end - n >= size then ErrBuffer else Ok(chunk[n..end])
  }

  function ValueIn(chunks: seq<string>, key: string, size: nat): Result<string> {
    if chunks == [] then ErrNotFound
    else
      var chunk := CString(chunks[0]);
      if Prefix(key) <= chunk then Quoted(chunk, |Prefix(key)|, size) else ValueIn(chunks[1..], key, size)
  }

  function LoadValue(file: string, key: string, size: nat): Result<string> {
    if |Prefix(key)| >= 64 then ErrBuffer else ValueIn(Chunks(file, VALUE_CHUNK), key, size)
  }

  function NameSpan(s: string, max: nat): (t: string)
    ensures t <= s && |t| <= max && forall i :: 0 <= i < |t| ==> Packet.NameChar(t[i])
  {
    if s == [] || max == 0 || !Packet.NameChar(s[0]) then [] else [s[0]] + NameSpan(s[1..], max - 1)
  }

  /** sscanf with `username = "%32[a-zA-Z0-9_-]"`: a blank in the format matches any white space. */
  function ScanUsername(line: string): Option<string> {
    if !("username" <= line) then None
    else
      var a := SkipSpaces(line[8..]);
      if a == "" || a[0] != '=' then None
      else
        var b := SkipSpaces(a[1..]);
        if b == "" || b[0] != '"' then None
        else
          var name := NameSpan(b[1..], Packet.USERNAME_MAX);
          if name == "" then None else Some(name)
  }

  function NameIn(chunks: seq<string>): Result<string> {
    if chunks == [] then ErrBadFile
    else
      match ScanUsername(CString(chunks[0]))
      case Some(name) => if Packet.UsernameIsValid(name) then Ok(name) else ErrBadFile
      case None => NameIn(chunks[1..])
  }

  function LoadUsername(file: string): Result<string> { NameIn(Chunks(file, NAME_CHUNK)) }
}
