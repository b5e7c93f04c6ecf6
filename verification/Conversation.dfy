/** Runs that exist: a whole conversation between two daemons, and the loss-free run whose first message comes too
 early. */
module Conversation {
  import opened Completion
  import opened Daemon
  import opened Network
  import opened Octets
  import opened Pairing
  import opened Session
  import Contacts
  import Crypto
  import CryptoState
  import Packet
  import Shutdown
  import Sizes

  // ---------------------------------------------------------------- a library for it

  /** Every conversation of the counting library whose messages its number can tell apart is unambiguous. */
  lemma CountingIsUnambiguous(h: History)
    requires |h.sealed| < Packet.Capacity(16)
    ensures Unambiguous(CryptoState.Counting(), h)
  {
    hide Packet.Capacity, CryptoState.Counting;
    if |h.pushes| == 1 {
      forall i: nat, j: nat | i < |h.sealed| && j <= |h.sealed| && i != j
        ensures CryptoState.Counting().open(StreamAt(h, j), Ciphertext(CryptoState.Counting(), h, i)).None?
      {
        CryptoState.OnlyItsPlaceOpens(StreamAt(h, i), h.sealed[i], StreamAt(h, j));
      }
    }
  }

  lemma {:induction false} CapacityGrows(width: nat)
    ensures Packet.Capacity(width + 1) >= 256
  {
    if width > 0 {
      CapacityGrows(width - 1);
    }
  }

  /** The premise of the runs below, about their own messages alone: pushed with this header under the key that the
      two ephemeral keys derive for the initiator, none of them opens out of place. */
  ghost predicate Apart(sodium: Crypto.Sodium, ka: Key, kb: Key, header: Nonce, items: seq<Crypto.Item>) {
    match TxKey(sodium, Crypto.Initiator, ka, kb)
    case None => true
    case Some(key) => Unambiguous(sodium, NO_HISTORY.(pushes := [(key, header)], sealed := items))
  }

  lemma CountingIsApart(ka: Key, kb: Key, header: Nonce, items: seq<Crypto.Item>)
    requires |items| <= 2
    ensures Apart(CryptoState.Counting(), ka, kb, header, items)
  {
    CapacityGrows(15);
    hide Packet.Capacity, CryptoState.Counting, Unambiguous;
    var key := TxKey(CryptoState.Counting(), Crypto.Initiator, ka, kb);
    if key.Some? {
      CountingIsUnambiguous(NO_HISTORY.(pushes := [(key.value, header)], sealed := items));
    }
  }

  /** The beginning of an unambiguous conversation is unambiguous. */
  lemma UnambiguousPrefix(sodium: Crypto.Sodium, h: History, longer: History)
    requires Unambiguous(sodium, longer) && h.pushes == longer.pushes && h.sealed <= longer.sealed
    ensures Unambiguous(sodium, h)
  {
    if |h.pushes| == 1 {
      assert forall j: nat :: j <= |h.sealed| ==> StreamAt(h, j) == StreamAt(longer, j) by {
        assert forall j: nat :: j <= |h.sealed| ==> h.sealed[..j] == longer.sealed[..j];
      }
      forall i: nat, j: nat | i < |h.sealed| && j <= |h.sealed| && i != j
        ensures sodium.open(StreamAt(h, j), Ciphertext(sodium, h, i)).None?
      {
        assert Ciphertext(sodium, h, i) == Ciphertext(sodium, longer, i);
      }
    }
  }

  /** The premise, said of the records of a run that drew those keys. */
  lemma RunIsApart(
      sodium: Crypto.Sodium, q: Pair, sid: Bytes, ka: Key, kb: Key, ha: Nonce, hb: Nonce, items: seq<Crypto.Item>)
    requires Paired(sodium, q, sid) && Drew(q.a.history, ka, ha) && Drew(q.b.history, kb, hb)
    requires Apart(sodium, ka, kb, ha, items)
    ensures Unambiguous(sodium, q.a.history.(sealed := items))
  {
    hide Good, WireFrom, KxFrom, Present, TxKey, Unambiguous;
    assert PushFrom(sodium, Crypto.Initiator, q.a.history.pushes, [ka], [kb]);
    var key := TxKey(sodium, Crypto.Initiator, ka, kb).value;
    assert q.a.history.pushes == [(key, ha)];
    UnambiguousPrefix(sodium, q.a.history.(sealed := items), NO_HISTORY.(pushes := [(key, ha)], sealed := items));
  }

  // ---------------------------------------------------------------- one more move

  lemma Goes(sodium: Crypto.Sodium, p: Pair, moves: seq<Move>, q: Pair, m: Move)
    requires Honest(sodium, p, moves) && Play(sodium, p, moves) == q && Enabled(q, m)
    requires var r := Next(sodium, q, m); Unambiguous(sodium, r.a.history) && r.b.history.sealed == []
    ensures Honest(sodium, p, moves + [m]) && Play(sodium, p, moves + [m]) == Next(sodium, q, m)
  {
    hide Next, Enabled;
    assert (moves + [m])[..|moves|] == moves;
  }

  // ---------------------------------------------------------------- speaking

  function Words(text: string): Crypto.Item { Crypto.Item(Ascii(text), Crypto.TAG_MESSAGE) }

  const FAREWELL := Crypto.Item([], Crypto.TAG_FINAL)

  /** A text that can be typed, sent and shown. */
  ghost predicate Short(text: string, peer: string) {
    && Sizes.Sendable(Ascii(text)) && '\0' !in text && '\r' !in text && '\n' !in text
    && |text| <= 4073 && |text| + |peer| <= 4085
  }

  function Said(s: State, kind: byte, item: Crypto.Item, c: Bytes): State {
    s.(chat := s.chat.(stream := s.chat.stream.(push := Crypto.Advance(s.chat.stream.push, item))),
       history := s.history.(sealed := s.history.sealed + [item], wire := s.history.wire + [Packet.Frame(kind, c)]))
  }

  lemma Seals(sodium: Crypto.Sodium, s: State, kind: byte, item: Crypto.Item)
    requires Crypto.Lawful(sodium) && s.chat.ready && (s.session == Secure || s.session == Closing)
    requires s.chat.stream.pushOn && s.chat.ice.agent && s.chat.ice.ready
    requires (kind == Packet.MESSAGE || kind == Packet.CLOSE) && |item.text| <= 4073
    ensures SendEncrypted(sodium, s, kind, item, true)
      == (Said(s, kind, item, sodium.seal(s.chat.stream.push, item)), true)
  {
    var c := sodium.seal(s.chat.stream.push, item);
    assert |c| == |item.text| + Crypto.STREAM_ABYTES;
    hide Crypto.Lawful, Packet.Frame;
  }

  lemma {:induction false} NoLineEnd(text: string, i: nat)
    requires i <= |text| && '\r' !in text && '\n' !in text
    ensures LineEnd(text, i) == |text|
    decreases |text| - i
  {
    if i < |text| {
      NoLineEnd(text, i + 1);
    }
  }

  /** The event of a client that types one line to send. */
  function Type(text: string, env: Env): Event { ClientInput(Command(SEND + text), env) }

  lemma TypedLine(text: string)
    requires '\0' !in text && '\r' !in text && '\n' !in text
    ensures
      var line := SEND + text;
      && CString(line) == line && LineEnd(line, 0) == |line| && line != "CLOSE_CHAT" && line[0..|line|] == line
      && line[|SEND|..] == text
  {
    var line := SEND + text;
    NoLineEnd(line, 0);
    assert line[0] == 'S';
  }

  lemma Speaks(sodium: Crypto.Sodium, s: State, text: string, env: Env)
    requires Crypto.Lawful(sodium) && s.chat.active && s.chat.ready && s.session == Secure && s.client.Some?
    requires s.chat.stream.pushOn && s.chat.ice.agent && s.chat.ice.ready && Flag(env.sends, 0)
    requires Short(text, "")
    ensures
      Step(sodium, s, Type(text, env))
      == Said(s, Packet.MESSAGE, Words(text), sodium.seal(s.chat.stream.push, Words(text)))
  {
    TypedLine(text);
    Seals(sodium, s, Packet.MESSAGE, Words(text));
    hide Crypto.Lawful, SendEncrypted, Said, Ascii, LineEnd, CString;
  }

  /** A client that ends its input closes the chat. */
  lemma HangsUp(sodium: Crypto.Sodium, s: State, env: Env)
    requires Crypto.Lawful(sodium) && s.chat.ready && s.client.Some?
    requires s.chat.stream.pushOn && s.chat.ice.agent && s.chat.ice.ready && Flag(env.sends, 0)
    ensures
      var t := Step(sodium, s, ClientInput(EndOfFile, env));
      && t.history.sealed == s.history.sealed + [FAREWELL]
      && t.history.wire == s.history.wire + [Packet.Frame(Packet.CLOSE, sodium.seal(s.chat.stream.push, FAREWELL))]
      && t.history.pushes == s.history.pushes
  {
    Seals(sodium, Enter(s, Closing), Packet.CLOSE, FAREWELL);
    hide Crypto.Lawful, SendEncrypted, Packet.Frame;
  }

  // ---------------------------------------------------------------- listening

  /** A datagram reaches a short queue. */
  lemma Queues(sodium: Crypto.Sodium, s: State, packet: Bytes)
    requires s.chat.ice.agent && |s.chat.ice.queue| < QUEUE_CAPACITY && |packet| <= ICE_PACKET_MAX
    ensures Step(sodium, s, Datagram(packet)) == Waiting(s, s.chat.ice.queue + [packet])
  {
  }

  function Waiting(s: State, queue: seq<Bytes>): State { s.(chat := s.chat.(ice := s.chat.ice.(queue := queue))) }

  /** A service call that works: every line reaches the client. */
  function Listening(env: Env): Env { env.(writes := seq(9, _ => true)) }

  lemma ServiceDrains(sodium: Crypto.Sodium, s: State, env: Env)
    requires s.chat.active && s.chat.ready && s.chat.cliNotified
    requires s.chat.ice.ready && !s.chat.ice.failed && !s.chat.ice.gatheringDone
    ensures Step(sodium, s, Service(env)) == Drain(sodium, s, QUEUE_CAPACITY, env)
  {
    hide Drain, ServiceIce;
    StepService(sodium, s, env);
    assert ServiceIce(sodium, s, env) == Drain(sodium, s, QUEUE_CAPACITY, env) by { ReadyService(sodium, s, env); }
  }

  lemma ReadyService(sodium: Crypto.Sodium, s: State, env: Env)
    requires s.chat.active && s.chat.ready && s.chat.cliNotified
    requires s.chat.ice.ready && !s.chat.ice.failed && !s.chat.ice.gatheringDone
    ensures ServiceIce(sodium, s, env) == Drain(sodium, s, QUEUE_CAPACITY, env)
  {
    hide Drain, Fail, ServiceSetup;
  }

  /** A ready session with a client that is in step with a push stream. */
  ghost predicate Hears(s: State, push: Crypto.Stream) {
    && s.chat.active && s.chat.ready && s.session == Secure && s.client.Some?
    && s.chat.stream.pullOn && s.chat.stream.pull == push
  }

  function Heard(s: State, text: string): State
    requires s.client.Some?
  {
    s.(chat := s.chat.(stream := s.chat.stream.(pull := Crypto.Advance(s.chat.stream.pull, Words(text)))),
       history := s.history.(accepted := s.history.accepted + [Words(text)]),
       ledger := s.ledger.(delivered := s.ledger.delivered + [Delivery(s.client.value, s.chat.peer, Ascii(text))]))
  }

  lemma Opens(sodium: Crypto.Sodium, s: State, push: Crypto.Stream, item: Crypto.Item)
    requires Crypto.Lawful(sodium) && Hears(s, push) && |item.text| <= 4073
    ensures
      Crypto.Decrypt(sodium, s.chat.stream, sodium.seal(push, item), Packet.MAX_MESSAGE_SIZE)
      == (Crypto.Ok, s.chat.stream.(pull := Crypto.Advance(push, item)), item)
    ensures Crypto.STREAM_ABYTES <= |sodium.seal(push, item)| <= 4090
  {
  }

  lemma HearsWords(sodium: Crypto.Sodium, s: State, push: Crypto.Stream, text: string)
    requires Crypto.Lawful(sodium) && Hears(s, push) && Short(text, s.chat.peer)
    ensures
      HandlePacket(sodium, s, Packet.Frame(Packet.MESSAGE, sodium.seal(push, Words(text))), true)
        == (Heard(s, text), true)
  {
    var c := sodium.seal(push, Words(text));
    Opens(sodium, s, push, Words(text));
    Sizes.LinePassesThrough(Ascii(text));
    HandleFrame(sodium, s, Packet.MESSAGE, c, true);
    hide Crypto.Lawful, Crypto.Decrypt, HandlePacket, Packet.Frame, Ascii, OneLine;
  }

  /** The end of the conversation as its other side sees it. */
  lemma HearsFarewell(sodium: Crypto.Sodium, s: State, push: Crypto.Stream)
    requires Crypto.Lawful(sodium) && Hears(s, push)
    ensures
      var (t, ok) := HandlePacket(sodium, s, Packet.Frame(Packet.CLOSE, sodium.seal(push, FAREWELL)), true);
      && ok && !t.chat.active && t.chat.ice.queue == [] && t.id == s.id && t.session == Closed && t.client.None?
      && t.history.accepted == s.history.accepted + [FAREWELL] && t.history.sealed == s.history.sealed
      && t.ledger == s.ledger && t.log.cli == s.log.cli + [(s.client.value, ChatClosed(s.chat.peer))]
  {
    var c := sodium.seal(push, FAREWELL);
    Opens(sodium, s, push, FAREWELL);
    HandleFrame(sodium, s, Packet.CLOSE, c, true);
    hide Crypto.Lawful, Crypto.Decrypt, HandlePacket, Packet.Frame;
  }

  lemma DrainsOne(sodium: Crypto.Sodium, s: State, n: nat, env: Env)
    requires n > 0 && s.chat.ice.queue != [] && 0 < |s.chat.ice.queue[0]| <= ICE_PACKET_MAX && Flag(env.writes, n)
    requires HandlePacket(sodium, Pop(s), s.chat.ice.queue[0], true).1
    ensures
      Drain(sodium, s, n, env) == Drain(sodium, HandlePacket(sodium, Pop(s), s.chat.ice.queue[0], true).0, n - 1, env)
  {
    hide Fail, HandlePacket;
  }

  lemma WaitingHears(s: State, push: Crypto.Stream, d: Bytes, queue: seq<Bytes>)
    requires Hears(s, push)
    ensures Hears(Waiting(s, queue), push) && Pop(Waiting(s, [d] + queue)) == Waiting(s, queue)
  {
    assert ([d] + queue)[1..] == queue;
  }

  /** What is the same after words were heard, and what is not. */
  lemma HeardKeeps(s: State, push: Crypto.Stream, text: string, queue: seq<Bytes>)
    requires Hears(s, push)
    ensures
      var t := Heard(Waiting(s, queue), text);
      && Hears(t, Crypto.Advance(push, Words(text))) && t.chat.ice.queue == queue && t.client == s.client
      && t.chat.peer == s.chat.peer
      && t.id == s.id && t.history.accepted == s.history.accepted + [Words(text)]
      && t.history.sealed == s.history.sealed
      && t.log == s.log && t.ledger.delivered == s.ledger.delivered
          + [Delivery(s.client.value, s.chat.peer, Ascii(text))]
  {
    hide Ascii;
  }

  lemma TakesWords(sodium: Crypto.Sodium, s: State, push: Crypto.Stream, text: string, rest: seq<Bytes>, n: nat,
      env: Env)
    requires Crypto.Lawful(sodium) && Hears(s, push) && Short(text, s.chat.peer) && n > 0 && Flag(env.writes, n)
    ensures
      var d := Packet.Frame(Packet.MESSAGE, sodium.seal(push, Words(text)));
      && |d| <= ICE_PACKET_MAX
      && Drain(sodium, Waiting(s, [d] + rest), n, env) == Drain(sodium, Heard(Waiting(s, rest), text), n - 1, env)
  {
    hide Crypto.Lawful, HandlePacket, Drain, Ascii, Heard, Hears;
    var d := Packet.Frame(Packet.MESSAGE, sodium.seal(push, Words(text)));
    Opens(sodium, s, push, Words(text));
    WaitingHears(s, push, d, rest);
    HearsWords(sodium, Waiting(s, rest), push, text);
    DrainsOne(sodium, Waiting(s, [d] + rest), n, env);
  }

  /** What hearing the farewell leaves behind. */
  ghost predicate Ended(s: State, t: State) {
    && t.id == s.id && t.history.accepted == s.history.accepted + [FAREWELL] && t.history.sealed == s.history.sealed
    && t.ledger == s.ledger && s.client.Some? && t.log.cli == s.log.cli + [(s.client.value, ChatClosed(s.chat.peer))]
  }

  lemma TakesFarewell(sodium: Crypto.Sodium, s: State, push: Crypto.Stream, n: nat, env: Env)
    requires Crypto.Lawful(sodium) && Hears(s, push) && n > 0 && Flag(env.writes, n)
    requires s.chat.ice.queue == [Packet.Frame(Packet.CLOSE, sodium.seal(push, FAREWELL))]
    ensures |s.chat.ice.queue[0]| <= ICE_PACKET_MAX && Ended(s, Drain(sodium, s, n, env))
  {
    hide Crypto.Lawful, HandlePacket, Drain;
    Opens(sodium, s, push, FAREWELL);
    var d := s.chat.ice.queue[0];
    assert Hears(Pop(s), push);
    HearsFarewell(sodium, Pop(s), push);
    DrainsOne(sodium, s, n, env);
    NothingToDrain(sodium, HandlePacket(sodium, Pop(s), d, true).0, n - 1, env);
  }

  /** Words and a farewell wait in the queue; one service call takes both. */
  lemma HearsAll(sodium: Crypto.Sodium, s: State, push: Crypto.Stream, text: string, env: Env)
    requires Crypto.Lawful(sodium) && Hears(s, push) && Short(text, s.chat.peer)
    requires s.chat.cliNotified && s.chat.ice.ready && !s.chat.ice.failed && !s.chat.ice.gatheringDone
    ensures
      var d1 := Packet.Frame(Packet.MESSAGE, sodium.seal(push, Words(text)));
      var d2 := Packet.Frame(Packet.CLOSE, sodium.seal(Crypto.Advance(push, Words(text)), FAREWELL));
      var t := Step(sodium, Waiting(s, [d1, d2]), Service(Listening(env)));
      && Ended(Heard(Waiting(s, [d2]), text), t) && |d1| <= ICE_PACKET_MAX && |d2| <= ICE_PACKET_MAX
  {
    hide Crypto.Lawful, Packet.Frame, Step, Drain, Ascii, Heard, Hears, Ended;
    var w, next := Listening(env), Crypto.Advance(push, Words(text));
    var d1 := Packet.Frame(Packet.MESSAGE, sodium.seal(push, Words(text)));
    var d2 := Packet.Frame(Packet.CLOSE, sodium.seal(next, FAREWELL));
    assert s.client.Some? && s.chat.active && s.chat.ready by { HearsFacts(s, push); }
    assert [d1] + [d2] == [d1, d2];
    ServiceDrains(sodium, Waiting(s, [d1, d2]), w);
    TakesWords(sodium, s, push, text, [d2], 8, w);
    HeardKeeps(s, push, text, [d2]);
    TakesFarewell(sodium, Heard(Waiting(s, [d2]), text), next, 7, w);
  }

  lemma HearsFacts(s: State, push: Crypto.Stream)
    requires Hears(s, push)
    ensures s.client.Some? && s.chat.active && s.chat.ready
  {
  }

  // ---------------------------------------------------------------- a whole conversation

  /** What the two sides have at the end. */
  ghost predicate Conversed(p: Pair, q: Pair, text: string)
    requires p.b.client.Some?
  {
    && q.a.history.sealed == [Words(text), FAREWELL] && q.b.history.accepted == [Words(text), FAREWELL]
    && q.b.ledger.delivered == p.b.ledger.delivered + [Delivery(p.b.client.value, p.b.chat.peer, Ascii(text))]
    && Shutdown.ToldClosed(p.b, q.b)
  }

  /** When both are encrypted and nobody has spoken, each side hears what the other pushes. */
  lemma InStep(sodium: Crypto.Sodium, p: Pair, sid: Bytes, moves: seq<Move>, q: Pair)
    requires Crypto.Lawful(sodium) && Fresh(sodium, p, sid) && Honest(sodium, p, moves) && Play(sodium, p, moves) == q
    requires BothSecure(p, q) && p.b.client.Some?
    ensures q.a.chat.stream.pushOn && Hears(q.b, q.a.chat.stream.push) && q.b.history.accepted == []
  {
    hide Crypto.Lawful, Fresh, Honest, Play, Side, Good;
    SessionsAgree(sodium, p, sid, moves);
    DeliveryIsPrefix(sodium, p, sid, moves);
    EveryPlayIsPaired(sodium, p, sid, moves);
    GoodFacts(sodium, q.a);
    GoodFacts(sodium, q.b);
    ReadyStreams(sodium, q.a);
    ReadyStreams(sodium, q.b);
  }

  lemma ReadyStreams(sodium: Crypto.Sodium, s: State)
    requires Sound(sodium, s) && s.chat.ready
    ensures s.chat.stream.pushOn && s.chat.stream.pullOn
    ensures s.chat.stream.push.items == s.history.sealed && s.chat.stream.pull.items == s.history.accepted
  {
    ReadyIsActive(sodium, s);
    hide PeerPart, HandshakePart, KeysPart, WirePart, NeverRekeys;
  }

  /** One user types a text and then leaves. */
  lemma SpeaksAndLeaves(sodium: Crypto.Sodium, p: Pair, moves: seq<Move>, q: Pair, text: string, env: Env)
    returns (more: seq<Move>, a: State)
    requires Crypto.Lawful(sodium) && Honest(sodium, p, moves) && Play(sodium, p, moves) == q
    requires Unambiguous(sodium, q.a.history.(sealed := [Words(text), FAREWELL]))
    requires Secured(q.a) && q.a.chat.stream.pushOn && q.a.client.Some? && q.b.history.sealed == [] && Short(text, "")
    ensures Honest(sodium, p, more) && Play(sodium, p, more) == Pair(a, q.b)
    ensures
      var push := q.a.chat.stream.push;
      && a.history.sealed == [Words(text), FAREWELL] && Unambiguous(sodium, a.history)
      && Packet.Frame(Packet.MESSAGE, sodium.seal(push, Words(text))) in a.history.wire
      && Packet.Frame(Packet.CLOSE, sodium.seal(Crypto.Advance(push, Words(text)), FAREWELL)) in a.history.wire
  {
    hide Crypto.Lawful, Unambiguous, Honest, Play, Step, Packet.Frame, Ascii;
    var spoken, c;
    var longer := q.a.history.(sealed := [Words(text), FAREWELL]);
    UnambiguousPrefix(sodium, q.a.history.(sealed := [Words(text)]), longer);
    more, spoken, c := Types(sodium, p, moves, q, text, env);
    var end := ClientInput(EndOfFile, env.(sends := [true]));
    HangsUp(sodium, spoken, end.env);
    a := Step(sodium, spoken, end);
    assert a.history.sealed == [Words(text), FAREWELL];
    UnambiguousPrefix(sodium, a.history, longer);
    Goes(sodium, p, more, Pair(spoken, q.b), OnA(end));
    more := more + [OnA(end)];
  }

  lemma OneArrives(sodium: Crypto.Sodium, p: Pair, moves: seq<Move>, a: State, b: State, d: Bytes)
    requires Honest(sodium, p, moves) && Play(sodium, p, moves) == Pair(a, b) && Unambiguous(sodium, a.history)
    requires b.chat.ice.agent && |b.chat.ice.queue| < QUEUE_CAPACITY && b.history.sealed == []
    requires d in a.history.wire && |d| <= ICE_PACKET_MAX
    ensures
      var more := moves + [OnB(Datagram(d))];
      Honest(sodium, p, more) && Play(sodium, p, more) == Pair(a, Waiting(b, b.chat.ice.queue + [d]))
  {
    hide Unambiguous, Honest, Play, Step;
    Queues(sodium, b, d);
    Goes(sodium, p, moves, Pair(a, b), OnB(Datagram(d)));
  }

  /** Two datagrams arrive in the order in which they were sent. */
  lemma TwoArrive(sodium: Crypto.Sodium, p: Pair, moves: seq<Move>, a: State, b: State, d1: Bytes, d2: Bytes)
    returns (more: seq<Move>)
    requires Honest(sodium, p, moves) && Play(sodium, p, moves) == Pair(a, b) && Unambiguous(sodium, a.history)
    requires b.chat.ice.agent && b.chat.ice.queue == [] && b.history.sealed == []
    requires d1 in a.history.wire && d2 in a.history.wire && |d1| <= ICE_PACKET_MAX && |d2| <= ICE_PACKET_MAX
    ensures Honest(sodium, p, more) && Play(sodium, p, more) == Pair(a, Waiting(b, [d1, d2]))
  {
    hide Unambiguous, Honest, Play;
    assert [] + [d1] == [d1] && [d1] + [d2] == [d1, d2];
    OneArrives(sodium, p, moves, a, b, d1);
    OneArrives(sodium, p, moves + [OnB(Datagram(d1))], a, Waiting(b, [d1]), d2);
    more := moves + [OnB(Datagram(d1))] + [OnB(Datagram(d2))];
  }

  /** Both datagrams cross, and one service call takes them. */
  lemma Listens(sodium: Crypto.Sodium, p: Pair, moves: seq<Move>, a: State, b: State, push: Crypto.Stream,
      text: string, env: Env)
    returns (more: seq<Move>, t: State)
    requires Crypto.Lawful(sodium) && Honest(sodium, p, moves) && Play(sodium, p, moves) == Pair(a, b)
    requires Secured(b) && Hears(b, push) && Short(text, b.chat.peer) && Unambiguous(sodium, a.history)
    requires Packet.Frame(Packet.MESSAGE, sodium.seal(push, Words(text))) in a.history.wire
    requires Packet.Frame(Packet.CLOSE, sodium.seal(Crypto.Advance(push, Words(text)), FAREWELL)) in a.history.wire
    ensures Honest(sodium, p, more) && Play(sodium, p, more) == Pair(a, t)
    ensures exists queue :: Ended(Heard(Waiting(b, queue), text), t)
  {
    hide Crypto.Lawful, Unambiguous, Honest, Play, Step, Packet.Frame, Ascii, Heard, Hears, Ended;
    var d1 := Packet.Frame(Packet.MESSAGE, sodium.seal(push, Words(text)));
    var d2 := Packet.Frame(Packet.CLOSE, sodium.seal(Crypto.Advance(push, Words(text)), FAREWELL));
    HearsFacts(b, push);
    HearsAll(sodium, b, push, text, env);
    HeardKeeps(b, push, text, [d2]);
    more := TwoArrive(sodium, p, moves, a, b, d1, d2);
    var listen := Service(Listening(env));
    t := Step(sodium, Waiting(b, [d1, d2]), listen);
    EndedSilent(Heard(Waiting(b, [d2]), text), t);
    Goes(sodium, p, more, Pair(a, Waiting(b, [d1, d2])), OnB(listen));
    more := more + [OnB(listen)];
  }

  lemma EndedSilent(s: State, t: State)
    requires Ended(s, t)
    ensures t.history.sealed == s.history.sealed
  {
  }

  /** Whenever two daemons with clients have begun a session, there is an honest run in which one user's text is sealed,
      sent, received and shown, and the close is reported at the other side. */
  lemma ConversationCompletes(
      sodium: Crypto.Sodium, p: Pair, sid: Bytes, text: string, ka: Key, kb: Key, ha: Nonce, hb: Nonce, at: nat,
      env: Env)
    returns (moves: seq<Move>)
    requires Crypto.Lawful(sodium) && Fresh(sodium, p, sid) && Apart(sodium, ka, kb, ha, [Words(text), FAREWELL])
    requires Completion.Untouched(p.a.chat) && Completion.Untouched(p.b.chat)
    requires p.a.client.Some? && p.b.client.Some? && Short(text, p.b.chat.peer)
    ensures Honest(sodium, p, moves) && Conversed(p, Play(sodium, p, moves), text)
  {
    hide Crypto.Lawful, Apart, Unambiguous, Paired, Drew, Fresh, Honest, Play, Completion.Untouched, Step,
      Packet.Frame, Ascii, Shutdown.ToldClosed, Shutdown.Calm, Heard, Hears;
    moves := SetupCompletes(sodium, p, sid, ka, kb, ha, hb, at, env);
    var q := Play(sodium, p, moves);
    InStep(sodium, p, sid, moves, q);
    EveryPlayIsPaired(sodium, p, sid, moves);
    RunIsApart(sodium, q, sid, ka, kb, ha, hb, [Words(text), FAREWELL]);
    Shutdown.EveryPlayIsCalm(sodium, p, sid, moves);
    ReportsGrow(p.b, q.b);
    var a, t;
    moves, a := SpeaksAndLeaves(sodium, p, moves, q, text, env);
    moves, t := Listens(sodium, p, moves, a, q.b, q.a.chat.stream.push, text, env);
    HearsFacts(q.b, q.a.chat.stream.push);
    var queue :| Ended(Heard(Waiting(q.b, queue), text), t);
    HeardKeeps(q.b, q.a.chat.stream.push, text, queue);
    IsTold(p.b, Heard(Waiting(q.b, queue), text), t);
    assert [] + [Words(text)] + [FAREWELL] == [Words(text), FAREWELL];
  }

  lemma ReportsGrow(s: State, t: State)
    requires Shutdown.Calm(s, t)
    ensures |s.log.cli| <= |t.log.cli|
  {
  }

  lemma IsTold(was: State, s: State, t: State)
    requires |was.log.cli| <= |s.log.cli| && s.client.Some?
    requires t.log.cli == s.log.cli + [(s.client.value, ChatClosed(s.chat.peer))]
    ensures Shutdown.ToldClosed(was, t)
  {
    assert t.log.cli[|s.log.cli|].1.ChatClosed?;
  }

  // ---------------------------------------------------------------- a message that comes too early

  /** The header and the first message wait together: the round takes both, and refuses the second. */
  lemma EarlyMessageIsRefused(
      sodium: Crypto.Sodium, s: State, mine: Nonce, theirs: Nonce, c: Bytes, secret: Key, at: nat, env: Env)
    requires Keyed(s, mine, at) && |c| <= 4090
    requires s.chat.ice.queue == [Packet.Frame(Packet.STREAM_HEADER, theirs), Packet.Frame(Packet.MESSAGE, c)]
    ensures
      var t := Step(sodium, s, Service(Working(at, secret, mine, env)));
      Wiped(t.chat) && t.log.failures == s.log.failures + [Rejected] && t.history == s.history
  {
    hide SetupRound, ServiceSetup, ServiceIce, Packet.Frame, NoteConnected, Fail, Step, Wiped;
    var w := Working(at, secret, mine, env);
    StepService(sodium, s, w);
    ServiceIsRound(sodium, s, w);
    AlreadyNoted(s, w);
    EarlyRound(sodium, s, mine, theirs, c, at, w);
    var r := SetupRound(sodium, s, w).0;
    FailWipes(r, Rejected, w);
    assert ServiceSetup(sodium, s, w) == Fail(r, Rejected, w) by { RoundFails(sodium, s, w); }
  }

  lemma RoundFails(sodium: Crypto.Sodium, s: State, env: Env)
    requires s.chat.hasRemotePk && env.clock.crypto < s.chat.cryptoDeadline
      && SetupRound(sodium, s, env).1 == Some(Rejected)
    ensures ServiceSetup(sodium, s, env) == Fail(SetupRound(sodium, s, env).0, Rejected, env)
  {
    hide SetupRound, BecomeSecure, Fail;
  }

  lemma EarlyRound(sodium: Crypto.Sodium, s: State, mine: Nonce, theirs: Nonce, c: Bytes, at: nat, env: Env)
    requires Keyed(s, mine, at) && env.clock.crypto == at && |c| <= 4090
    requires s.chat.ice.queue == [Packet.Frame(Packet.STREAM_HEADER, theirs), Packet.Frame(Packet.MESSAGE, c)]
    ensures
      var (t, failed) := SetupRound(sodium, s, env);
      failed == Some(Rejected) && t.log.failures == s.log.failures && t.history == s.history
  {
    PeerHeaderIsTaken(sodium, s, mine, theirs, at, Flag(env.writes, 0));
    var r := ReceiveHeader(Pop(s), theirs);
    var d := Packet.Frame(Packet.MESSAGE, c);
    assert r.chat.ice.queue == [d] && r.chat.ice.queue[0] == d && |d| == |c| + 6 by { hide Crypto.InitPull; }
    HandleFrame(sodium, Pop(r), Packet.MESSAGE, c, Flag(env.writes, 1));
    hide Packet.Frame, HandlePacket, StartHandshake, Crypto.InitPull;
    assert Process(sodium, r, Flag(env.writes, 1)) == (Pop(r), false);
    hide Process;
  }

  /** There is an honest run, without loss or reordering, in which the first message ends the session of its
      receiver: it was sent as soon as its sender was SECURE and reached the queue behind the header. */
  lemma FirstMessageEndsSession(
      sodium: Crypto.Sodium, p: Pair, sid: Bytes, text: string, ka: Key, kb: Key, ha: Nonce, hb: Nonce, at: nat,
      env: Env)
    returns (moves: seq<Move>)
    requires Crypto.Lawful(sodium) && Fresh(sodium, p, sid) && Apart(sodium, ka, kb, ha, [Words(text)])
    requires Completion.Untouched(p.a.chat) && Completion.Untouched(p.b.chat)
    requires p.a.client.Some? && Short(text, "")
    ensures Honest(sodium, p, moves)
    ensures
      var q := Play(sodium, p, moves);
      && q.a.session == Secure && q.a.history.sealed == [Words(text)]
      && Wiped(q.b.chat) && q.b.log.failures == p.b.log.failures + [Rejected]
  {
    assert Acquainted(sodium, p.a.id, p.b.id, sid) by { hide Good, Begun; }
    hide Crypto.Lawful, Apart, Unambiguous, Paired, Drew, Fresh, Honest, Play, Greeted, Keyed, Completion.Untouched,
      Step, Packet.Frame, Ascii, Wiped;
    moves := FirstPhase(sodium, p, sid, ka, kb, ha, hb, at, env);
    moves := SecondPhase(sodium, p, sid, moves, ka, kb, ha, hb, at, env);
    var q := Play(sodium, p, moves);
    KeyedIsSilent(q.b, hb, at);
    EveryPlayIsPaired(sodium, p, sid, moves);
    RunIsApart(sodium, q, sid, ka, kb, ha, hb, [Words(text)]);
    var a, c;
    moves, a, c := SpeaksEarly(sodium, p, sid, moves, q, text, ha, hb, ka, at, env);
    moves := HearsEarly(sodium, p, moves, a, q.b, c, ha, hb, kb, at, env);
  }

  /** The header and the message arrive together, and one service call finds both. */
  lemma HearsEarly(
      sodium: Crypto.Sodium, p: Pair, moves: seq<Move>, a: State, b: State, c: Bytes, ha: Nonce, hb: Nonce,
      kb: Key, at: nat, env: Env)
    returns (more: seq<Move>)
    requires Honest(sodium, p, moves) && Play(sodium, p, moves) == Pair(a, b) && Unambiguous(sodium, a.history)
    requires Keyed(b, hb, at) && b.chat.ice.queue == [] && |c| <= 4090
    requires Packet.Frame(Packet.STREAM_HEADER, ha) in a.history.wire
      && Packet.Frame(Packet.MESSAGE, c) in a.history.wire
    ensures Honest(sodium, p, more)
    ensures
      var q := Play(sodium, p, more);
      q.a == a && Wiped(q.b.chat) && q.b.log.failures == b.log.failures + [Rejected]
  {
    hide Unambiguous, Honest, Play, Keyed, Step, Packet.Frame, Wiped;
    var d1, d2 := Packet.Frame(Packet.STREAM_HEADER, ha), Packet.Frame(Packet.MESSAGE, c);
    KeyedIsSilent(b, hb, at);
    more := TwoArrive(sodium, p, moves, a, b, d1, d2);
    var t := Waiting(b, [d1, d2]);
    KeyedWith(b, hb, at, [d1, d2]);
    EarlyMessageIsRefused(sodium, t, hb, ha, c, kb, at, env);
    var round := Service(Working(at, kb, hb, env));
    Goes(sodium, p, more, Pair(a, t), OnB(round));
    more := more + [OnB(round)];
  }

  /** The peer's header makes one side SECURE, and its user types at once. */
  lemma SpeaksEarly(
      sodium: Crypto.Sodium, p: Pair, sid: Bytes, moves: seq<Move>, q: Pair, text: string, ha: Nonce, hb: Nonce,
      ka: Key, at: nat, env: Env)
    returns (more: seq<Move>, a: State, c: Bytes)
    requires Crypto.Lawful(sodium) && Fresh(sodium, p, sid)
    requires Unambiguous(sodium, q.a.history.(sealed := [Words(text)]))
    requires Honest(sodium, p, moves) && Play(sodium, p, moves) == q && Keyed(q.a, ha, at) && Keyed(q.b, hb, at)
    requires q.a.chat.ice.queue == [] && q.a.client.Some? && Short(text, "")
    ensures Honest(sodium, p, more) && Play(sodium, p, more) == Pair(a, q.b)
    ensures a.session == Secure && a.history.sealed == [Words(text)] && |c| <= 4090 && Unambiguous(sodium, a.history)
    ensures Packet.Frame(Packet.STREAM_HEADER, ha) in a.history.wire
      && Packet.Frame(Packet.MESSAGE, c) in a.history.wire
  {
    hide Crypto.Lawful, Unambiguous, Fresh, Honest, Play, Keyed, Step, Packet.Frame, Ascii, Paired;
    var header := Packet.Frame(Packet.STREAM_HEADER, hb);
    KeyedIsSilent(q.a, ha, at);
    KeyedIsSilent(q.b, hb, at);
    UnambiguousPrefix(sodium, q.a.history, q.a.history.(sealed := [Words(text)]));
    Arrives(sodium, q.a, header);
    Goes(sodium, p, moves, q, OnA(Datagram(header)));
    more := moves + [OnA(Datagram(header))];
    KeyedWith(q.a, ha, at, [header]);
    var waiting := Waiting(q.a, [header]);
    var round := Service(Working(at, ka, ha, env));
    ThirdService(sodium, waiting, ha, hb, ka, at, env);
    var ready := Step(sodium, waiting, round);
    Goes(sodium, p, more, Pair(waiting, q.b), OnA(round));
    more := more + [OnA(round)];
    EveryPlayIsPaired(sodium, p, sid, more);
    PairedIsSound(sodium, Pair(ready, q.b), sid);
    ReadyStreams(sodium, ready);
    more, a, c := Types(sodium, p, more, Pair(ready, q.b), text, env);
  }

  lemma PairedIsSound(sodium: Crypto.Sodium, p: Pair, sid: Bytes)
    requires Paired(sodium, p, sid)
    ensures Sound(sodium, p.a) && Sound(sodium, p.b)
  {
    hide Sound, Side, Acquainted;
  }

  lemma Types(sodium: Crypto.Sodium, p: Pair, moves: seq<Move>, q: Pair, text: string, env: Env)
    returns (more: seq<Move>, a: State, c: Bytes)
    requires Crypto.Lawful(sodium) && Honest(sodium, p, moves) && Play(sodium, p, moves) == q
    requires Unambiguous(sodium, q.a.history.(sealed := [Words(text)]))
    requires Secured(q.a) && q.a.chat.stream.pushOn && q.a.client.Some? && q.b.history.sealed == [] && Short(text, "")
    ensures Unambiguous(sodium, a.history)
    ensures c == sodium.seal(q.a.chat.stream.push, Words(text)) && |c| <= 4090
    ensures a == Said(q.a, Packet.MESSAGE, Words(text), c)
    ensures Honest(sodium, p, more) && Play(sodium, p, more) == Pair(a, q.b)
  {
    c := sodium.seal(q.a.chat.stream.push, Words(text));
    assert |c| == |text| + Crypto.STREAM_ABYTES by { hide Unambiguous, Honest, Play, Secured; }
    hide Crypto.Lawful, Unambiguous, Honest, Play, Step, Packet.Frame, Ascii;
    var w := env.(sends := [true]);
    Speaks(sodium, q.a, text, w);
    a := Step(sodium, q.a, Type(text, w));
    assert a.history.sealed == [Words(text)];
    UnambiguousPrefix(sodium, a.history, q.a.history.(sealed := [Words(text)]));
    Goes(sodium, p, moves, q, OnA(Type(text, w)));
    more := moves + [OnA(Type(text, w))];
  }

  // ---------------------------------------------------------------- two daemons that have met

  const ALICE: Crypto.Identity := Crypto.Identity("alice", ZERO_KEY, ZERO_KEY)
  const BOB: Crypto.Identity := Crypto.Identity("bobby", ONE_KEY, ONE_KEY)

  function SomeEnv(): Env {
    Env(Clock(0, 0, 0, 0, 0), [], [], None, None, true, None, true, seq(32, _ => '0'),
      Contacts.Io(true, true, 200, true))
  }

  /** A daemon with a client that has checked a peer's key and begun a session with it. */
  function Begin(id: Crypto.Identity, peer: Crypto.Identity, controlling: bool): State {
    var started := Start(id, "").(client := Some(7));
    var checked := Verify(started, peer.username, peer.public, SomeEnv().io).0;
    BeginIce(checked, peer.username, SomeEnv().sessionId, controlling, peer.public, SomeEnv()).0
  }

  lemma FirstCheckPasses(name: string, key: Key)
    requires Packet.UsernameIsValid(name)
    ensures Contacts.VerifyOrPin("", name, key, SomeEnv().io).0 == Contacts.Ok
  {
    hide Packet.UsernameIsValid, BinToHex;
    assert Contacts.Find("", name) == Contacts.NotFound;
    assert |Contacts.Line(name, key)| <= 200 by { NameIsShort(name); }
  }

  lemma NameIsShort(name: string)
    requires Packet.UsernameIsValid(name)
    ensures |name| <= 32
  {
  }

  lemma BeginsGood(sodium: Crypto.Sodium, id: Crypto.Identity, peer: Crypto.Identity, controlling: bool)
    requires Packet.UsernameIsValid(peer.username)
    ensures
      var s := Begin(id, peer, controlling);
      && Good(sodium, s) && s.id == id && Completion.Untouched(s.chat) && s.client == Some(7)
      && s.chat.peer == peer.username
      && Begun(s, peer, if controlling then Crypto.Initiator else Crypto.Responder, Ascii(SomeEnv().sessionId))
  {
    hide Sound, Packet.UsernameIsValid, Contacts.VerifyOrPin, Fail, Ascii;
    var started := Start(id, "").(client := Some(7));
    NameIsShort(peer.username);
    FirstCheckPasses(peer.username, peer.public);
    StartIsGood(sodium, id, "");
    SameCoreIsGood(sodium, Start(id, ""), started);
    VerifyIsGood(sodium, started, peer.username, peer.public, SomeEnv().io);
    var checked := Verify(started, peer.username, peer.public, SomeEnv().io).0;
    SoundFacts(sodium, checked);
    BeginIsSound(sodium, checked, peer.username, SomeEnv().sessionId, controlling, peer.public, SomeEnv());
    BeginIceIsBegun(checked, peer.username, SomeEnv().sessionId, controlling, peer, SomeEnv());
    BeginIceIsUntouched(checked, peer.username, SomeEnv().sessionId, controlling, peer.public, SomeEnv());
  }

  /** The premises of all theorems about pairs can be met together: there is a library, a pair of daemons and an
      honest run in which a text is shown and the close reported, and one in which the first message comes too early. */
  lemma ConversationsExist() returns (sodium: Crypto.Sodium, p: Pair, sid: Bytes, talk: seq<Move>, haste: seq<Move>)
    ensures Crypto.Lawful(sodium) && Fresh(sodium, p, sid) && Honest(sodium, p, talk) && Honest(sodium, p, haste)
    ensures p.b.client.Some? && Conversed(p, Play(sodium, p, talk), "hi")
    ensures Play(sodium, p, haste).b.log.failures == p.b.log.failures + [Rejected]
  {
    hide Good, Apart, Honest, Play, Conversed, Completion.Untouched, Begun, Begin, Crypto.Lawful,
      CryptoState.Counting, Fresh;
    sodium, p, sid := CryptoState.Counting(), Pair(Begin(ALICE, BOB, true), Begin(BOB, ALICE, false)),
      Ascii(SomeEnv().sessionId);
    CryptoState.LawsAreConsistent();
    CountingIsApart(ZERO_KEY, ONE_KEY, ZERO_NONCE, [Words("hi"), FAREWELL]);
    CountingIsApart(ZERO_KEY, ONE_KEY, ZERO_NONCE, [Words("hi")]);
    BeginsGood(sodium, ALICE, BOB, true);
    BeginsGood(sodium, BOB, ALICE, false);
    MetIsFresh(p, sid);
    HiIsShort();
    talk := ConversationCompletes(sodium, p, sid, "hi", ZERO_KEY, ONE_KEY, ZERO_NONCE, ZERO_NONCE, 0, SomeEnv());
    haste := FirstMessageEndsSession(sodium, p, sid, "hi", ZERO_KEY, ONE_KEY, ZERO_NONCE, ZERO_NONCE, 0, SomeEnv());
  }

  lemma MetIsFresh(p: Pair, sid: Bytes)
    requires Good(CryptoState.Counting(), p.a) && Good(CryptoState.Counting(), p.b) && p.a.id == ALICE
      && p.b.id == BOB && |sid| == 32
    requires Begun(p.a, BOB, Crypto.Initiator, sid) && Begun(p.b, ALICE, Crypto.Responder, sid)
    ensures Fresh(CryptoState.Counting(), p, sid)
  {
    hide Good, Begun;
  }

  lemma HiIsShort()
    ensures Short("hi", "") && Short("hi", "alice")
  {
    assert Ascii("hi") == [104, 105];
  }
}
