/** What field extraction returns on the messages that the server and the daemons build. */
module JsonRoundTrip {
  import opened Octets
  import opened Json

  // ---------------------------------------------------------------- extraction looks only forward

  lemma AtShift(a: string, b: string, needle: string, i: nat)
    ensures At(a + b, needle, |a| + i) == At(b, needle, i)
  {
  }

  lemma {:induction false} FindShift(a: string, b: string, needle: string, i: nat)
    ensures
      var r := Find(b, needle, i);
      Find(a + b, needle, |a| + i) == if r.None? then None else Some(|a| + r.value)
    decreases |b| - i
  {
    AtShift(a, b, needle, i);
    if !At(b, needle, i) && i < |b| {
      FindShift(a, b, needle, i + 1);
    }
  }

  /** Text in which no occurrence begins can be skipped. */
  lemma {:induction false} FindSkips(hay: string, needle: string, from: nat, to: nat)
    requires from <= to <= |hay| && forall i :: from <= i < to ==> !At(hay, needle, i)
    ensures Find(hay, needle, from) == Find(hay, needle, to)
    decreases |hay| - from
  {
  }

  lemma {:induction false} BlanksShift(a: string, b: string, i: nat)
    requires i <= |b|
    ensures SkipBlanks(a + b, |a| + i) == |a| + SkipBlanks(b, i)
    decreases |b| - i
  {
    if i < |b| && Blank(b[i]) {
      BlanksShift(a, b, i + 1);
    }
  }

  lemma {:induction false} ValueShift(a: string, b: string, i: nat, done: string, size: nat)
    requires i <= |b|
    ensures Value(a + b, |a| + i, done, size) == Value(b, i, done, size)
    decreases |b| - i
  {
    if i < |b| {
      assert (a + b)[|a| + i] == b[i];
      if b[i] != '"' && !(b[i] < ' ' || b[i] == '\\' || |done| + 1 >= size) {
        ValueShift(a, b, i + 1, done + [b[i]], size);
      }
    }
  }

  lemma AfterKeyShift(a: string, b: string, i: nat, size: nat)
    requires i <= |b|
    ensures AfterKey(a + b, |a| + i, size) == AfterKey(b, i, size)
  {
    BlanksShift(a, b, i);
    var colon := SkipBlanks(b, i);
    if colon < |b| {
      BlanksShift(a, b, colon + 1);
      var open := SkipBlanks(b, colon + 1);
      if open < |b| {
        ValueShift(a, b, open + 1, "", size);
      }
    }
    hide SkipBlanks, Value;
  }

  lemma DropPrefix(a: string, b: string, key: string, size: nat)
    requires forall i :: 0 <= i < |a| ==> !At(a + b, Quoted(key), i)
    ensures GetString(a + b, key, size) == GetString(b, key, size)
  {
    hide Quoted, Find, AfterKey;
    var q := Quoted(key);
    FindSkips(a + b, q, 0, |a|);
    FindShift(a, b, q, 0);
    var r := Find(b, q, 0);
    if r.Some? {
      AfterKeyShift(a, b, r.value + |q|, size);
    }
  }

  // ---------------------------------------------------------------- one field

  predicate Plain(s: string) { '"' !in s }

  /** A value that the extraction copies whole. */
  predicate Copies(v: string, size: nat) {
    |v| < size && forall i :: 0 <= i < |v| ==> v[i] >= ' ' && v[i] != '\\'
  }

  lemma {:induction false} ValueCopies(s: string, i: nat, j: nat, done: string, size: nat)
    requires i <= j < |s| && s[j] == '"' && (forall x :: i <= x < j ==> s[x] != '"') && |done| < size
    ensures
      Value(s, i, done, size)
      == if |done| + (j - i) < size && (forall x ::
          i <= x < j ==> s[x] >= ' ' && s[x] != '\\') then Some(done + s[i..j]) else None
    decreases j - i
  {
    if i < j {
      if !(s[i] < ' ' || s[i] == '\\' || |done| + 1 >= size) {
        ValueCopies(s, i + 1, j, done + [s[i]], size);
        assert done + [s[i]] + s[i + 1..j] == done + s[i..j];
      }
    } else {
      assert done + s[i..j] == done;
    }
  }

  /** An occurrence of a quoted key lies between two consecutive quotes. */
  lemma QuotesAround(s: string, key: string, i: nat)
    requires Plain(key) && At(s, Quoted(key), i)
    ensures s[i] == '"' && s[i + |key| + 1] == '"' && s[i + 1..i + |key| + 1] == key
    ensures forall x :: i < x < i + |key| + 1 ==> s[x] != '"'
  {
    var q := s[i..i + |key| + 2];
    assert q == Quoted(key);
    assert q[0] == s[i] && q[|key| + 1] == s[i + |key| + 1];
    forall x | i < x < i + |key| + 1
      ensures s[x] == key[x - i - 1] && s[x] != '"'
    {
      assert s[x] == q[x - i] == key[x - i - 1];
    }
  }

  /** The text after a field. */
  predicate Tail(t: string) { t == "}" || (|t| >= 2 && t[0] == ',' && t[1] == '"') }

  lemma FieldChars(f: Field, t: string)
    ensures
      var s := RenderField(f) + t;
      var n, m := |f.0|, |f.1|;
      && |RenderField(f)| == n + m + 5 && |s| == n + m + 5 + |t|
      && s[0] == '"' && s[n + 1] == '"' && s[n + 2] == ':' && s[n + 3] == '"' && s[n + m + 4] == '"'
      && s[1..n + 1] == f.0 && s[n + 4..n + m + 4] == f.1 && s[n + m + 5..] == t
  {
  }

  lemma AllFieldQuotes(f: Field, t: string)
    requires Plain(f.0) && Plain(f.1)
    ensures
      forall x: nat :: x < |f.0| + |f.1| + 5 ==>
        ((RenderField(f) + t)[x] == '"' <==> x == 0 || x == |f.0| + 1 || x == |f.0| + 3 || x == |f.0| + |f.1| + 4)
  {
  }

  /** Where a quoted key can begin inside a field: at the field's key or at its value. */
  lemma FieldOccurrences(f: Field, t: string, key: string, i: nat)
    requires Plain(f.0) && Plain(f.1) && Tail(t) && Plain(key) && key != ":" && key != ","
    requires i < |RenderField(f)| && At(RenderField(f) + t, Quoted(key), i)
    ensures (i == 0 && key == f.0) || (i == |f.0| + 3 && key == f.1)
  {
    var s, n, m := RenderField(f) + t, |f.0|, |f.1|;
    FieldChars(f, t);
    QuotesAround(s, key, i);
    AllFieldQuotes(f, t);
    var e := i + |key| + 1;
    if i == 0 {
      assert e == n + 1;
    } else if i == n + 3 {
      assert e == n + m + 4;
    }
  }

  lemma OccursAt(s: string, key: string, i: nat)
    requires i + |key| + 2 <= |s| && s[i] == '"' && s[i + 1..i + |key| + 1] == key && s[i + |key| + 1] == '"'
    ensures At(s, Quoted(key), i)
  {
  }

  /** What extraction returns when the text starts with a field. */
  lemma FieldDecides(f: Field, t: string, key: string, size: nat)
    requires Plain(f.0) && Plain(f.1) && Tail(t) && Plain(key) && key != ":" && key != ","
    requires 0 < size && |Quoted(key)| < 64
    ensures
      GetString(RenderField(f) + t, key, size)
      == if f.0 == key then (if Copies(f.1, size) then Some(f.1) else None)
         else if f.1 == key then None
         else GetString(t, key, size)
  {
    FieldChars(f, t);
    if f.0 == key {
      KeyDecides(f, t, size);
    } else if f.1 == key {
      ValueDecides(f, t, size);
    } else {
      forall i | 0 <= i < |RenderField(f)|
        ensures !At(RenderField(f) + t, Quoted(key), i)
      {
        if At(RenderField(f) + t, Quoted(key), i) { FieldOccurrences(f, t, key, i); }
      }
      DropPrefix(RenderField(f), t, key, size);
    }
  }

  lemma ValueIsCopied(v: string, t: string, size: nat)
    requires Plain(v) && 0 < size
    ensures Value(v + ("\"" + t), 0, "", size) == if Copies(v, size) then Some(v) else None
  {
    var s := v + ("\"" + t);
    assert s[|v|] == '"' && forall x :: 0 <= x < |v| ==> s[x] == v[x];
    ValueCopies(s, 0, |v|, "", size);
    assert "" + s[0..|v|] == v;
    hide Value;
  }

  /** The text after a field's key yields the field's value. */
  lemma FieldValue(f: Field, t: string, size: nat)
    requires Plain(f.1) && 0 < size
    ensures
      |f.0| + 2 <= |RenderField(f) + t|
      && AfterKey(RenderField(f) + t, |f.0| + 2, size) == if Copies(f.1, size) then Some(f.1) else None
  {
    hide Copies, Value;
    var a, b := Quoted(f.0) + ":" + "\"", f.1 + ("\"" + t);
    assert RenderField(f) + t == a + b;
    ValueIsCopied(f.1, t, size);
    ValueShift(a, b, 0, "", size);
    var s, n := a + b, |f.0|;
    assert s[n + 2] == ':' && s[n + 3] == '"' && |a| == n + 4;
    hide RenderField;
  }

  lemma KeyDecides(f: Field, t: string, size: nat)
    requires Plain(f.0) && Plain(f.1) && 0 < size && |Quoted(f.0)| < 64
    ensures GetString(RenderField(f) + t, f.0, size) == if Copies(f.1, size) then Some(f.1) else None
  {
    var s := RenderField(f) + t;
    FieldChars(f, t);
    OccursAt(s, f.0, 0);
    FieldValue(f, t, size);
    assert Find(s, Quoted(f.0), 0) == Some(0) by { hide RenderField, Copies, AfterKey; }
    hide RenderField, Copies, AfterKey, Find, At;
  }

  lemma ValueDecides(f: Field, t: string, size: nat)
    requires Plain(f.0) && Plain(f.1) && Tail(t) && f.0 != f.1 && f.1 != ":" && f.1 != "," && 0 < size
      && |Quoted(f.1)| < 64
    ensures GetString(RenderField(f) + t, f.1, size) == None
  {
    var s, n, m := RenderField(f) + t, |f.0|, |f.1|;
    FieldChars(f, t);
    assert s[n + m + 5] == t[0];
    OccursAt(s, f.1, n + 3);
    forall i | 0 <= i < n + 3
      ensures !At(s, Quoted(f.1), i)
    {
      if At(s, Quoted(f.1), i) { FieldOccurrences(f, t, f.1, i); }
    }
    FindSkips(s, Quoted(f.1), 0, n + 3);
    assert Find(s, Quoted(f.1), n + 3) == Some(n + 3) by { hide RenderField; }
    assert SkipBlanks(s, n + m + 5) == n + m + 5 by { hide RenderField, Find, At; }
    hide RenderField, Find, At, SkipBlanks;
  }

  // ---------------------------------------------------------------- whole messages

  predicate AllPlain(fields: seq<Field>) {
    forall i :: 0 <= i < |fields| ==> Plain(fields[i].0) && Plain(fields[i].1)
  }

  /** What extraction returns: the value of the first field so named, unless an earlier value spells the name. */
  function Extracted(fields: seq<Field>, key: string, size: nat): Option<string> {
    if fields == [] then None
    else if fields[0].0 == key then (if Copies(fields[0].1, size) then Some(fields[0].1) else None)
    else if fields[0].1 == key then None
    else Extracted(fields[1..], key, size)
  }

  lemma NothingLeft(key: string, size: nat)
    ensures GetString("}", key, size) == None
  {
  }

  lemma RenderedTail(fields: seq<Field>)
    ensures fields != [] ==> |RenderFields(fields)| >= 1 && RenderFields(fields)[0] == '"'
    ensures Tail(if fields == [] then "}" else "," + RenderFields(fields) + "}")
  {
  }

  lemma {:induction false} FieldsRoundTrip(fields: seq<Field>, key: string, size: nat)
    requires AllPlain(fields) && Plain(key) && key != ":" && key != "," && 0 < size && |Quoted(key)| < 64
    ensures GetString(RenderFields(fields) + "}", key, size) == Extracted(fields, key, size)
  {
    if fields == [] {
      NothingLeft(key, size);
      assert "" + "}" == "}";
      hide GetString;
    } else {
      hide GetString, RenderField, Copies;
      var rest := fields[1..];
      var t := if rest == [] then "}" else "," + RenderFields(rest) + "}";
      RenderedTail(rest);
      assert RenderFields(fields) + "}" == RenderField(fields[0]) + t;
      FieldDecides(fields[0], t, key, size);
      FieldsRoundTrip(rest, key, size);
      if rest == [] {
        assert "" + "}" == "}";
      } else {
        CommaDrops(RenderFields(rest) + "}", key, size);
        assert t == "," + (RenderFields(rest) + "}");
      }
    }
  }

  lemma NoQuoteNoKey(s: string, key: string, i: nat)
    requires i < |s| && s[i] != '"'
    ensures !At(s, Quoted(key), i)
  {
  }

  lemma CommaDrops(t: string, key: string, size: nat)
    ensures GetString("," + t, key, size) == GetString(t, key, size)
    ensures GetString("{" + t, key, size) == GetString(t, key, size)
  {
    NoQuoteNoKey("," + t, key, 0);
    DropPrefix(",", t, key, size);
    NoQuoteNoKey("{" + t, key, 0);
    DropPrefix("{", t, key, size);
    hide GetString;
  }

  /** Round trip: extraction from a built message, exactly. */
  lemma MessageRoundTrip(fields: seq<Field>, key: string, size: nat)
    requires AllPlain(fields) && Plain(key) && key != ":" && key != "," && 0 < size && |Quoted(key)| < 64
    ensures GetString(Render(fields), key, size) == Extracted(fields, key, size)
  {
    FieldsRoundTrip(fields, key, size);
    CommaDrops(RenderFields(fields) + "}", key, size);
    assert Render(fields) == "{" + (RenderFields(fields) + "}");
    hide GetString, RenderFields;
  }

  // ---------------------------------------------------------------- messages as C strings in buffers

  /** No field has a NUL, so the message is the C string that the receiver sees. */
  predicate NoNuls(fields: seq<Field>) {
    forall i :: 0 <= i < |fields| ==> '\0' !in fields[i].0 && '\0' !in fields[i].1
  }

  lemma {:induction false} FieldsHaveNoNul(fields: seq<Field>)
    requires NoNuls(fields)
    ensures '\0' !in RenderFields(fields)
  {
    if fields != [] {
      assert '\0' !in RenderField(fields[0]);
      FieldsHaveNoNul(fields[1..]);
      hide RenderField;
    }
  }

  lemma MessageIsText(fields: seq<Field>)
    requires NoNuls(fields)
    ensures '\0' !in Render(fields) && CString(Render(fields)) == Render(fields)
  {
    FieldsHaveNoNul(fields);
    hide RenderFields;
    CStringOfText(Render(fields));
  }

  lemma {:induction false} FieldsFit(fields: seq<Field>, width: nat)
    requires forall i :: 0 <= i < |fields| ==> |fields[i].0| + |fields[i].1| <= width
    ensures |RenderFields(fields)| <= |fields| * (width + 6)
  {
    if fields != [] {
      FieldsFit(fields[1..], width);
      assert |RenderField(fields[0])| <= width + 5;
      assert |fields| * (width + 6) == (|fields| - 1) * (width + 6) + (width + 6);
      hide RenderField;
    }
  }

  /** The size of a message whose fields are at most so wide. */
  lemma MessageFits(fields: seq<Field>, width: nat)
    requires forall i :: 0 <= i < |fields| ==> |fields[i].0| + |fields[i].1| <= width
    ensures |Render(fields)| <= |fields| * (width + 6) + 2
  {
    FieldsFit(fields, width);
    hide RenderFields;
  }

  /** One more field at the end. */
  lemma {:induction false} FieldsAppend(fields: seq<Field>, f: Field)
    requires fields != []
    ensures |RenderFields(fields + [f])| == |RenderFields(fields)| + |f.0| + |f.1| + 6
  {
    var all := fields + [f];
    if |fields| == 1 {
      assert all[1..] == [f];
    } else {
      assert all[1..] == fields[1..] + [f];
      FieldsAppend(fields[1..], f);
    }
    hide RenderField;
    assert |RenderField(f)| == |f.0| + |f.1| + 5 by { FieldLength(f); }
  }

  lemma FieldLength(f: Field)
    ensures |RenderField(f)| == |f.0| + |f.1| + 5
  {
  }
}
