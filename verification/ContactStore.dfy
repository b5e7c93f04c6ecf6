/** The contact file as the daemon reads and appends to it (common/contacts.c). */
module ContactStore {
  import opened Contacts
  import opened Octets
  import opened Stdio
  import PacketBuffer

  /** Reads the file chunk by chunk and stops at the first line for the name. */
  method FindContact(file: string, name: string) returns (found: Lookup)
    ensures found == Find(file, name)
  {
    var rest := file;
    while rest != []
      invariant Search(Chunks(rest, LINE_MAX - 1), name) == Find(file, name)
      decreases |rest|
    {
      var n := ChunkLength(rest, LINE_MAX - 1);
      var contact := ParseLine(rest[..n]);
      if contact.None? {
        return BadFile;
      }
      if contact.value.name == name {
        return Found(contact.value.key);
      }
      rest := rest[n..];
    }
    found := NotFound;
  }

  /** The contact file on disk. */
  class Store {
    var file: string

    constructor (text: string)
      ensures file == text
    {
      file := text;
    }

    /** Never rewrites what is there: the file only grows, and only for a name that has no line yet. */
    method CheckOrPin(name: string, key: Key, io: Io) returns (result: Result, isNew: bool)
      modifies this
      ensures (result, file, isNew) == VerifyOrPin(old(file), name, key, io)
      ensures old(file) <= file && (file != old(file) ==> Find(old(file), name) == NotFound)
    {
      isNew := false;
      var valid := PacketBuffer.CheckUsername(name);
      if !valid {
        return ErrInvalid, false;
      }
      if !io.readable {
        return ErrIo, false;
      }
      var found := FindContact(file, name);
      match found {
        case BadFile => result := ErrBadFile;
        case Found(stored) => result := if stored == key then Ok else ErrMismatch;
        case NotFound => result, isNew := Append(name, key, io);
      }
    }

    /** One write, which may stop anywhere. */
    method Append(name: string, key: Key, io: Io) returns (result: Result, isNew: bool)
      modifies this
      ensures
        var line := Line(name, key);
        && file == (if !io.writable then old(file) else old(file) + if io.written < |line| then line[..io.written]
            else line)
        && isNew == (result == Ok)
        && result == (if io.writable && io.written >= |line| && io.closes then Ok else ErrIo)
    {
      var line := Line(name, key);
      if !io.writable {
        return ErrIo, false;
      }
      if io.written < |line| {
        file := file + line[..io.written];
        return ErrIo, false;
      }
      file := file + line;
      if !io.closes {
        return ErrIo, false;
      }
      return Ok, true;
    }

    method LoadKey(name: string, readable: bool) returns (result: Result, key: Option<Key>)
      ensures (result, key) == Load(file, name, readable)
    {
      var valid := PacketBuffer.CheckUsername(name);
      if !valid {
        return ErrInvalid, None;
      }
      if !readable {
        return ErrIo, None;
      }
      var found := FindContact(file, name);
      match found {
        case BadFile => return ErrBadFile, None;
        case Found(stored) => return Ok, Some(stored);
        case NotFound => return ErrNotFound, None;
      }
    }
  }
}
