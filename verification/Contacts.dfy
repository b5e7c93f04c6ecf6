/** The trust-on-first-use contact file (common/contacts.c). */
module Contacts {
  import opened Octets
  import opened Stdio
  import Packet

  const LINE_MAX := Packet.USERNAME_MAX + 1 + 65 + 2

  datatype Result = Ok | ErrInvalid | ErrIo | ErrBadFile | ErrMismatch | ErrNotFound

  datatype Contact = Contact(name: string, key: Key)

  function ParseLine(line: string): Option<Contact> {
    match ScanPair(CString(line), 32, 64)
    case None => None
    case Some((name, hex)) =>
      if !Packet.UsernameIsValid(name) then None
      else
        match HexToKey(hex)
        case None => None
        case Some(key) => Some(Contact(name, key))
  }

  datatype Lookup = Found(key: Key) | NotFound | BadFile

  /** The scan stops at the first line for the name and refuses the file at the first line it cannot parse. */
  function Search(lines: seq<string>, name: string): Lookup {
    if lines == [] then NotFound
    else
      match ParseLine(lines[0])
      case None => BadFile
      case Some(c) => if c.name == name then Found(c.key) else Search(lines[1..], name)
  }

  function Find(file: string, name: string): Lookup { Search(Chunks(file, LINE_MAX - 1), name) }

  function Line(name: string, key: Key): string { name + " " + BinToHex(key) + "\n" }

  /** How the file system behaves during one call. `written` is where an append stops. */
  datatype Io = Io(readable: bool, writable: bool, written: nat, closes: bool)

  /** The result, the file afterwards and whether the contact is new. */
  function VerifyOrPin(file: string, name: string, key: Key, io: Io): (Result, string, bool) {
    if !Packet.UsernameIsValid(name) then (ErrInvalid, file, false)
    else if !io.readable then (ErrIo, file, false)
    else
      match Find(file, name)
      case BadFile => (ErrBadFile, file, false)
      case Found(stored) => (if stored == key then Ok else ErrMismatch, file, false)
      case NotFound =>
        var line := Line(name, key);
        if !io.writable then (ErrIo, file, false)
        else if io.written < |line| then (ErrIo, file + line[..io.written], false)
        else if !io.closes then (ErrIo, file + line, false)
        else (Ok, file + line, true)
  }

  function Load(file: string, name: string, readable: bool): (Result, Option<Key>) {
    if !Packet.UsernameIsValid(name) then (ErrInvalid, None)
    else if !readable then (ErrIo, None)
    else
      match Find(file, name)
      case BadFile => (ErrBadFile, None)
      case Found(key) => (Ok, Some(key))
      case NotFound => (ErrNotFound, None)
  }
}
