/** The C library's readers that the text files go through: fgets, getline and sscanf's %s. */
module Stdio {
  import opened Octets

  /** isspace in the C locale. */
  predicate Space(c: char) {
    c == ' ' || c == '\t' || c == '\n' || c == '\r' || c == '\U{0B}' || c == '\U{0C}'
  }

  /** How many characters fgets takes: up to and including a newline, at most `max`. */
  function ChunkLength(file: string, max: nat): (n: nat)
    ensures n <= |file| && n <= max
    ensures file != [] && max > 0 ==> n > 0
    ensures forall i :: 0 <= i < n - 1 ==> file[i] != '\n'
    ensures n < max && n < |file| ==> n > 0 && file[n - 1] == '\n'
  {
    if file == [] || max == 0 then 0
    else if file[0] == '\n' then 1
    else 1 + ChunkLength(file[1..], max - 1)
  }

  /** The successive results of fgets with room for `max` characters. */
  function Chunks(file: string, max: nat): (r: seq<string>)
    requires max > 0
    decreases |file|
  {
    if file == [] then []
    else
      var n := ChunkLength(file, max);
      [file[..n]] + Chunks(file[n..], max)
  }

  function SkipSpaces(s: string): (r: string)
    ensures |r| <= |s|
  {
    if s != [] && Space(s[0]) then SkipSpaces(s[1..]) else s
  }

  /** The longest prefix without white space, at most `max` characters. */
  function Token(s: string, max: nat): (t: string)
    ensures t <= s && |t| <= max
  {
    if s == [] || max == 0 || Space(s[0]) then [] else [s[0]] + Token(s[1..], max - 1)
  }

  /** Matches "%<a>s %<b>s %c" and asks for exactly two conversions. */
  function ScanPair(s: string, a: nat, b: nat): Option<(string, string)> {
    var s := SkipSpaces(s);
    var first := Token(s, a);
    var t := SkipSpaces(s[|first|..]);
    var second := Token(t, b);
    if first == "" || second == "" || SkipSpaces(t[|second|..]) != "" then None
    else Some((first, second))
  }
}
