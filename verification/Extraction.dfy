/** Field extraction on any text at all, against a description of what it looks for. */
module Extraction {
  import opened Json
  import opened JsonRoundTrip
  import opened Octets

  predicate Blanks(w: string) { forall i :: 0 <= i < |w| ==> Blank(w[i]) }

  /** The first occurrence of the quoted key, at `at`, is followed by blanks, a colon at `colon`, blanks, and `value` at
      `open`. */
  ghost predicate Spells(json: string, key: string, value: string, at: nat, colon: nat, open: nat) {
    var end := at + |Quoted(key)|;
    && At(json, Quoted(key), at) && (forall i: nat :: i < at ==> !At(json, Quoted(key), i))
    && end <= colon < open <= |json| && Blanks(json[end..colon]) && json[colon] == ':'
    && Blanks(json[colon + 1..open]) && At(json, value, open)
  }

  // ---------------------------------------------------------------- blanks

  lemma {:induction false} SkipsBlanks(s: string, i: nat)
    requires i <= |s|
    ensures
      var j := SkipBlanks(s, i);
      Blanks(s[i..j]) && (j < |s| ==> !Blank(s[j]))
    decreases |s| - i
  {
    if i < |s| && Blank(s[i]) {
      SkipsBlanks(s, i + 1);
      var j := SkipBlanks(s, i);
      assert s[i..j] == [s[i]] + s[i + 1..j];
    }
  }

  lemma {:induction false} SkipsTo(s: string, i: nat, j: nat)
    requires i <= j < |s| && Blanks(s[i..j]) && !Blank(s[j])
    ensures SkipBlanks(s, i) == j
    decreases j - i
  {
    if i < j {
      assert s[i..j][0] == s[i] && s[i + 1..j] == s[i..j][1..];
      SkipsTo(s, i + 1, j);
    }
  }

  // ---------------------------------------------------------------- values

  lemma {:induction false} ValueReads(s: string, i: nat, done: string, size: nat)
    requires i <= |s| && Value(s, i, done, size).Some? && |done| < size
    ensures
      var v := Value(s, i, done, size).value;
      && done <= v && |v| < size
      && var n := |v| - |done|;
      && i + n < |s| && s[i + n] == '"' && s[i..i + n] == v[|done|..]
      && forall x :: i <= x < i + n ==> s[x] != '"' && s[x] >= ' ' && s[x] != '\\'
    decreases |s| - i
  {
    if s[i] != '"' {
      ValueReads(s, i + 1, done + [s[i]], size);
      var v := Value(s, i, done, size).value;
      var n := |v| - |done|;
      assert s[i..i + n] == [s[i]] + s[i + 1..i + n];
      assert v[|done|..] == [s[i]] + v[|done| + 1..];
    }
  }

  /** The first occurrence is where the key is found. */
  lemma FirstIsFound(json: string, needle: string, at: nat)
    requires At(json, needle, at) && forall i :: 0 <= i < at ==> !At(json, needle, i)
    ensures Find(json, needle, 0) == Some(at)
  {
    var r := Find(json, needle, 0);
    assert r.Some? && !(r.value < at) && !(at < r.value);
  }

  lemma SpelledIsFound(json: string, key: string, value: string, at: nat, colon: nat, open: nat)
    requires Spells(json, key, value, at, colon, open) && value != "" && !Blank(value[0])
    ensures Find(json, Quoted(key), 0) == Some(at) && open < |json| && json[open] == value[0]
    ensures SkipBlanks(json, at + |Quoted(key)|) == colon && SkipBlanks(json, colon + 1) == open
  {
    FirstIsFound(json, Quoted(key), at);
    hide Find, Quoted;
    assert json[open] == json[open..open + |value|][0];
    SkipsTo(json, at + |Quoted(key)|, colon);
    SkipsTo(json, colon + 1, open);
  }

  lemma QuotedIsCopied(json: string, open: nat, v: string, size: nat)
    requires At(json, Quoted(v), open) && Plain(v) && Copies(v, size)
    ensures Value(json, open + 1, "", size) == Some(v)
  {
    QuotedChars(json, open, v);
    var close := open + 1 + |v|;
    assert json[open + 1..close] == v && "" + json[open + 1..close] == v;
    hide Value, At, Quoted;
    ValueCopies(json, open + 1, close, "", size);
  }

  lemma QuotedChars(json: string, open: nat, v: string)
    requires At(json, Quoted(v), open)
    ensures open + |v| + 1 < |json| && json[open] == '"' && json[open + 1 + |v|] == '"'
    ensures forall x :: 0 <= x < |v| ==> json[open + 1 + x] == v[x]
  {
    var q := json[open..open + |Quoted(v)|];
    assert q == Quoted(v);
    assert q[0] == json[open] && q[1 + |v|] == json[open + 1 + |v|];
    forall x | 0 <= x < |v|
      ensures json[open + 1 + x] == v[x]
    {
      assert q[1 + x] == json[open + 1 + x];
    }
  }

  /** Extraction yields a value exactly when the text spells it, quoted, behind the first occurrence of the key, and it
      can be copied: it fits, and has no control character and no backslash. */
  lemma ExtractsExactly(json: string, key: string, size: nat, v: string)
    requires 0 < size && |Quoted(key)| < 64
    ensures
      GetString(json, key, size) == Some(v)
      <==> Plain(v) && Copies(v, size)
           && exists at: nat, colon: nat, open: nat :: Spells(json, key, Quoted(v), at, colon, open)
  {
    hide GetString, Spells, Copies, Plain;
    if GetString(json, key, size) == Some(v) {
      ExtractedIsSpelled(json, key, size, v);
    }
    if Plain(v) && Copies(v, size)
      && exists at: nat, colon: nat, open: nat :: Spells(json, key, Quoted(v), at, colon, open) {
      var at: nat, colon: nat, open: nat :| Spells(json, key, Quoted(v), at, colon, open);
      SpelledIsExtracted(json, key, size, v, at, colon, open);
    }
  }

  lemma SpelledIsExtracted(json: string, key: string, size: nat, v: string, at: nat, colon: nat, open: nat)
    requires 0 < size && |Quoted(key)| < 64 && Plain(v) && Copies(v, size)
    requires Spells(json, key, Quoted(v), at, colon, open)
    ensures GetString(json, key, size) == Some(v)
  {
    hide Find, Value, SkipBlanks, Copies, Spells, Plain, At;
    SpelledIsFound(json, key, Quoted(v), at, colon, open);
    SpelledAt(json, key, Quoted(v), at, colon, open);
    QuotedIsCopied(json, open, v, size);
  }

  lemma SpelledIsTrue(json: string, key: string, at: nat, colon: nat, open: nat)
    requires |Quoted(key)| < 64 && Spells(json, key, "true", at, colon, open)
    ensures IsTrue(json, key)
  {
    hide Find, SkipBlanks, Spells, At;
    SpelledIsFound(json, key, "true", at, colon, open);
    SpelledAt(json, key, "true", at, colon, open);
  }

  lemma SpelledAt(json: string, key: string, value: string, at: nat, colon: nat, open: nat)
    requires Spells(json, key, value, at, colon, open)
    ensures At(json, value, open) && at + |Quoted(key)| <= colon < |json| && json[colon] == ':'
  {
  }

  lemma ValueIsQuoted(json: string, open: nat, size: nat, v: string)
    requires open < |json| && json[open] == '"' && 0 < size && Value(json, open + 1, "", size) == Some(v)
    ensures Plain(v) && Copies(v, size) && At(json, Quoted(v), open)
  {
    ValueReads(json, open + 1, "", size);
    hide Value, At, Plain, Copies;
    var close := open + 1 + |v|;
    assert v[|""|..] == v && json[open + 1..close] == v;
    SliceIsQuoted(json, open, close, size);
  }

  lemma SliceIsQuoted(json: string, open: nat, close: nat, size: nat)
    requires open < close < |json| && json[open] == '"' && json[close] == '"' && close - open <= size
    requires forall x :: open < x < close ==> json[x] != '"' && json[x] >= ' ' && json[x] != '\\'
    ensures var v := json[open + 1..close]; Plain(v) && Copies(v, size) && At(json, Quoted(v), open)
  {
    var v := json[open + 1..close];
    assert forall x :: 0 <= x < |v| ==> v[x] == json[open + 1 + x];
    assert json[open..close + 1] == [json[open]] + v + [json[close]];
  }

  lemma ExtractedIsSpelled(json: string, key: string, size: nat, v: string)
    requires 0 < size && |Quoted(key)| < 64 && GetString(json, key, size) == Some(v)
    ensures Plain(v) && Copies(v, size)
    ensures exists at: nat, colon: nat, open: nat :: Spells(json, key, Quoted(v), at, colon, open)
  {
    var q := Quoted(key);
    var at := Find(json, q, 0).value;
    var colon := SkipBlanks(json, at + |q|);
    var open := SkipBlanks(json, colon + 1);
    SkipsBlanks(json, at + |q|);
    SkipsBlanks(json, colon + 1);
    ValueIsQuoted(json, open, size, v);
    hide Value, SkipBlanks, Quoted, Copies;
    assert Spells(json, key, Quoted(v), at, colon, open);
  }

  /** A flag is true exactly when the text spells `true` behind the first occurrence of its name. */
  lemma TrueExactly(json: string, key: string)
    requires |Quoted(key)| < 64
    ensures
      IsTrue(json, key) <==> exists at: nat, colon: nat, open: nat :: Spells(json, key, "true", at, colon, open)
  {
    hide IsTrue, Spells;
    if IsTrue(json, key) {
      TrueIsSpelled(json, key);
    }
    if exists at: nat, colon: nat, open: nat :: Spells(json, key, "true", at, colon, open) {
      var at: nat, colon: nat, open: nat :| Spells(json, key, "true", at, colon, open);
      SpelledIsTrue(json, key, at, colon, open);
    }
  }

  lemma TrueIsSpelled(json: string, key: string)
    requires IsTrue(json, key)
    ensures exists at: nat, colon: nat, open: nat :: Spells(json, key, "true", at, colon, open)
  {
    var q := Quoted(key);
    var at := Find(json, q, 0).value;
    var colon := SkipBlanks(json, at + |q|);
    var open := SkipBlanks(json, colon + 1);
    SkipsBlanks(json, at + |q|);
    SkipsBlanks(json, colon + 1);
    hide SkipBlanks, Quoted;
    assert Spells(json, key, "true", at, colon, open);
  }
}
