/** Field extraction with a cursor (json_get_string in server/main.c and daemon/main.c). */
module JsonCursor {
  import opened Octets
  import opened Json

  method SkipBlanksFrom(json: string, start: nat) returns (cursor: nat)
    requires start <= |json|
    ensures cursor == SkipBlanks(json, start)
  {
    cursor := start;
    while cursor < |json| && Blank(json[cursor])
      invariant cursor <= |json| && SkipBlanks(json, cursor) == SkipBlanks(json, start)
    {
      cursor := cursor + 1;
    }
  }

  /** Copies characters one by one up to the closing quote. */
  method CopyValue(json: string, start: nat, size: nat) returns (value: Option<string>)
    requires start <= |json|
    ensures value == Value(json, start, "", size)
  {
    var cursor, out := start, "";
    while cursor < |json| && json[cursor] != '"'
      invariant cursor <= |json| && Value(json, cursor, out, size) == Value(json, start, "", size)
    {
      if json[cursor] < ' ' || json[cursor] == '\\' || |out| + 1 >= size {
        return None;
      }
      out := out + [json[cursor]];
      cursor := cursor + 1;
    }
    if cursor == |json| {
      return None;
    }
    value := Some(out);
  }

  method ReadString(json: string, key: string, size: nat) returns (value: Option<string>)
    ensures value == GetString(json, key, size)
  {
    if size == 0 || |Quoted(key)| >= 64 {
      return None;
    }
    var at := Find(json, Quoted(key), 0);
    if at.None? {
      return None;
    }
    var cursor := SkipBlanksFrom(json, at.value + |Quoted(key)|);
    if cursor == |json| || json[cursor] != ':' {
      return None;
    }
    cursor := SkipBlanksFrom(json, cursor + 1);
    if cursor == |json| || json[cursor] != '"' {
      return None;
    }
    value := CopyValue(json, cursor + 1, size);
  }
}
