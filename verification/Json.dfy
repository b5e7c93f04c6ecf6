/** First-occurrence field extraction and message building (json_get_string in server/main.c and daemon/main.c). */
module Json {
  import opened Octets

  predicate Blank(c: char) { c == ' ' || c == '\t' || c == '\r' || c == '\n' }

  /** `needle` occurs in `hay` at `i`. */
  predicate At(hay: string, needle: string, i: nat) {
    i + |needle| <= |hay| && hay[i..i + |needle|] == needle
  }

  /** The first occurrence of `needle` at or after `from`. */
  function Find(hay: string, needle: string, from: nat): (r: Option<nat>)
    ensures r.Some? ==> from <= r.value && At(hay, needle, r.value)
    ensures r.Some? ==> forall i :: from <= i < r.value ==> !At(hay, needle, i)
    ensures r.None? ==> forall i :: from <= i ==> !At(hay, needle, i)
    decreases |hay| - from
  {
    if At(hay, needle, from) then Some(from)
    else if from >= |hay| then None
    else Find(hay, needle, from + 1)
  }

  function SkipBlanks(s: string, i: nat): (j: nat)
    requires i <= |s|
    ensures i <= j <= |s|
    decreases |s| - i
  {
    if i < |s| && Blank(s[i]) then SkipBlanks(s, i + 1) else i
  }

  /** The characters from `i` up to the closing quote, or None at a control character, a backslash, the end or a full
      buffer. */
  function Value(s: string, i: nat, done: string, size: nat): Option<string>
    requires i <= |s|
    decreases |s| - i
  {
    if i == |s| then None
    else if s[i] == '"' then Some(done)
    else if s[i] < ' ' || s[i] == '\\' || |done| + 1 >= size then None
    else Value(s, i + 1, done + [s[i]], size)
  }

  /** The value that follows a key ending at `i`: a colon and a quoted string, with blanks before either. */
  function AfterKey(json: string, i: nat, size: nat): Option<string>
    requires i <= |json|
  {
    var colon := SkipBlanks(json, i);
    if colon == |json| || json[colon] != ':' then None
    else
      var open := SkipBlanks(json, colon + 1);
      if open == |json| || json[open] != '"' then None
      else Value(json, open + 1, "", size)
  }

  function Quoted(s: string): string { "\"" + s + "\"" }

  /** The string value of `key`, copied into a buffer of `size` bytes. */
  function GetString(json: string, key: string, size: nat): Option<string> {
    if size == 0 || |Quoted(key)| >= 64 then None
    else
      match Find(json, Quoted(key), 0)
      case None => None
      case Some(at) => AfterKey(json, at + |Quoted(key)|, size)
  }

  /** The literal `true` after the first occurrence of `key`. */
  predicate IsTrue(json: string, key: string) {
    |Quoted(key)| < 64 &&
    match Find(json, Quoted(key), 0)
    case None => false
    case Some(at) =>
      var colon := SkipBlanks(json, at + |Quoted(key)|);
      colon < |json| && json[colon] == ':' && At(json, "true", SkipBlanks(json, colon + 1))
  }

  // ---------------------------------------------------------------- building

  type Field = (string, string)

  function RenderField(f: Field): string { Quoted(f.0) + ":" + Quoted(f.1) }

  function RenderFields(fields: seq<Field>): string {
    if fields == [] then ""
    else if |fields| == 1 then RenderField(fields[0])
    else RenderField(fields[0]) + "," + RenderFields(fields[1..])
  }

  /** An object of string fields, without white space. */
  function Render(fields: seq<Field>): string { "{" + RenderFields(fields) + "}" }
}
