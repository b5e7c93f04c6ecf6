/**
 Two daemons in one session, and a network between them that loses, repeats and reorders datagrams but makes none up.
 */
module Network {
  import opened Octets
  import opened Daemon
  import opened Session
  import opened Pairing
  import Crypto
  import Packet

  datatype Pair = Pair(a: State, b: State)

  /** An event at one of the two daemons. */
  datatype Move = OnA(e: Event) | OnB(e: Event)

  function Next(sodium: Crypto.Sodium, p: Pair, m: Move): Pair {
    match m
    case OnA(e) => p.(a := Step(sodium, p.a, e))
    case OnB(e) => p.(b := Step(sodium, p.b, e))
  }

  function Play(sodium: Crypto.Sodium, p: Pair, moves: seq<Move>): Pair {
    if moves == [] then p
    else Next(sodium, Play(sodium, p, moves[..|moves| - 1]), moves[|moves| - 1])
  }

  ghost predicate Enabled(p: Pair, m: Move) {
    match m
    case OnA(e) => Allowed(p.a, p.b.history, e)
    case OnB(e) => Allowed(p.b, p.a.history, e)
  }

  ghost predicate Distinct(sodium: Crypto.Sodium, p: Pair) {
    Unambiguous(sodium, p.a.history) && Unambiguous(sodium, p.b.history)
  }

  /** Every move is allowed where it happens, and no ciphertext ever passes for another. */
  ghost predicate Honest(sodium: Crypto.Sodium, p: Pair, moves: seq<Move>) {
    moves == [] ||
    (var before := moves[..|moves| - 1];
     Honest(sodium, p, before)
     && Enabled(Play(sodium, p, before), moves[|moves| - 1])
     && Distinct(sodium, Play(sodium, p, moves)))
  }

  /** A session just begun, before its handshake. */
  ghost predicate Begun(s: State, peer: Crypto.Identity, role: Crypto.Role, sid: Bytes) {
    && s.chat.active && !s.chat.handshakeSent && !s.chat.headerReceived
    && s.chat.role == role && s.chat.remotePk == peer.public && Ascii(s.chat.sessionId) == sid
    && s.chat.ice.queue == [] && s.history == NO_HISTORY
  }

  ghost predicate Acquainted(sodium: Crypto.Sodium, a: Crypto.Identity, b: Crypto.Identity, sid: Bytes) {
    && Crypto.SessionIdFits(sid)
    && a.public == sodium.signPublic(a.secret) && b.public == sodium.signPublic(b.secret)
  }

  /** Both daemons have begun the session that the control server arranged: `a` asked, `b` accepted. */
  ghost predicate Fresh(sodium: Crypto.Sodium, p: Pair, sid: Bytes) {
    && Good(sodium, p.a) && Good(sodium, p.b) && Acquainted(sodium, p.a.id, p.b.id, sid)
    && Begun(p.a, p.b.id, Crypto.Initiator, sid) && Begun(p.b, p.a.id, Crypto.Responder, sid)
  }

  /** The invariant of the pair. */
  ghost predicate Paired(sodium: Crypto.Sodium, p: Pair, sid: Bytes) {
    && Good(sodium, p.a) && Good(sodium, p.b) && Acquainted(sodium, p.a.id, p.b.id, sid)
    && Side(sodium, p.a, p.b.id, Crypto.Initiator, sid, p.b.history)
    && Side(sodium, p.b, p.a.id, Crypto.Responder, sid, p.a.history)
  }

  /** A session that the daemon has just begun is one: starting ICE leaves nothing of any earlier session. */
  lemma BeginIceIsBegun(s: State, name: string, sessionId: string, controlling: bool, peer: Crypto.Identity, env: Env)
    requires BeginIce(s, name, sessionId, controlling, peer.public, env).1
    ensures
      var t := BeginIce(s, name, sessionId, controlling, peer.public, env).0;
      t.id == s.id && Begun(t, peer, if controlling then Crypto.Initiator else Crypto.Responder, Ascii(sessionId))
  {
  }

  lemma BegunIsSide(
      sodium: Crypto.Sodium, s: State, peer: Crypto.Identity, role: Crypto.Role, sid: Bytes)
    requires Begun(s, peer, role, sid)
    ensures Side(sodium, s, peer, role, sid, NO_HISTORY)
  {
  }

  lemma FreshIsPaired(sodium: Crypto.Sodium, p: Pair, sid: Bytes)
    requires Fresh(sodium, p, sid)
    ensures Paired(sodium, p, sid) && Distinct(sodium, p)
  {
    BegunIsSide(sodium, p.a, p.b.id, Crypto.Initiator, sid);
    BegunIsSide(sodium, p.b, p.a.id, Crypto.Responder, sid);
    hide Good, Side, Ascii;
  }

  /** What one side may rely on is what the other side's invariant says. */
  lemma SideIsReliable(
      sodium: Crypto.Sodium, a: State, b: State, role: Crypto.Role, sid: Bytes)
    requires role != Crypto.NoRole && Acquainted(sodium, a.id, b.id, sid)
    requires Side(sodium, b, a.id, Crypto.Opposite(role), sid, a.history) && Unambiguous(sodium, b.history)
    ensures Reliable(sodium, a.id, b.id, role, sid, a.history, b.history)
  {
  }

  lemma SideStep(
      sodium: Crypto.Sodium, a: State, b: State, role: Crypto.Role, sid: Bytes, e: Event)
    requires Crypto.Lawful(sodium) && role != Crypto.NoRole
    requires Acquainted(sodium, a.id, b.id, sid) && Unambiguous(sodium, b.history)
    requires Good(sodium, a) && Good(sodium, b) && Allowed(a, b.history, e)
    requires Side(sodium, a, b.id, role, sid, b.history)
    requires Side(sodium, b, a.id, Crypto.Opposite(role), sid, a.history)
    ensures
      var t := Step(sodium, a, e);
      && t.id == a.id && Good(sodium, t) && Grows(a.history, t.history)
      && Side(sodium, t, b.id, role, sid, b.history)
      && Side(sodium, b, t.id, Crypto.Opposite(role), sid, t.history)
  {
    hide Crypto.Lawful, Good, Side, Reliable, Taken, Grows, Step, Unambiguous, Acquainted;
    SideIsReliable(sodium, a, b, role, sid);
    StepIsGood(sodium, a, e);
    StepSide(sodium, a, b.id, role, sid, b.history, e);
    TakenSide(sodium, a, b.id, role, sid, b.history, Step(sodium, a, e));
    SideIsStable(sodium, b, a.id, Crypto.Opposite(role), sid, a.history, Step(sodium, a, e).history);
  }

  lemma NextKeeps(sodium: Crypto.Sodium, p: Pair, m: Move, sid: Bytes)
    requires Crypto.Lawful(sodium) && Paired(sodium, p, sid) && Distinct(sodium, p) && Enabled(p, m)
    ensures
      var q := Next(sodium, p, m);
      && Paired(sodium, q, sid) && q.a.id == p.a.id && q.b.id == p.b.id
      && Grows(p.a.history, q.a.history) && Grows(p.b.history, q.b.history)
  {
    hide Crypto.Lawful, Good, Side, Grows, Step, Unambiguous, Allowed;
    assert Grows(p.a.history, p.a.history) && Grows(p.b.history, p.b.history) by {
      Untouched(sodium, p.a, p.b.id, Crypto.Initiator, sid, p.b.history, true);
      Untouched(sodium, p.b, p.a.id, Crypto.Responder, sid, p.a.history, true);
    }
    match m
    case OnA(e) => SideStep(sodium, p.a, p.b, Crypto.Initiator, sid, e);
    case OnB(e) => SideStep(sodium, p.b, p.a, Crypto.Responder, sid, e);
  }

  /** Every honest run of a pair keeps the pair's invariant. */
  lemma {:induction false} EveryPlayIsPaired(sodium: Crypto.Sodium, p: Pair, sid: Bytes, moves: seq<Move>)
    requires Crypto.Lawful(sodium) && Fresh(sodium, p, sid) && Honest(sodium, p, moves)
    ensures
      var q := Play(sodium, p, moves);
      Paired(sodium, q, sid) && Distinct(sodium, q) && q.a.id == p.a.id && q.b.id == p.b.id
  {
    hide Crypto.Lawful, Fresh, Paired, Distinct, Next, Enabled;
    if moves == [] {
      FreshIsPaired(sodium, p, sid);
    } else {
      EveryPlayIsPaired(sodium, p, sid, moves[..|moves| - 1]);
      NextKeeps(sodium, Play(sodium, p, moves[..|moves| - 1]), moves[|moves| - 1], sid);
    }
  }

  // ---------------------------------------------------------------- what the users get

  /** A ready side and what its peer pushes: the same key and header, and no message out of place. */
  ghost predicate Receives(me: State, peer: State) {
    me.chat.ready && peer.chat.ready ==>
      && me.chat.keys == Crypto.Swap(peer.chat.keys)
      && me.chat.stream.pull.key == peer.chat.stream.push.key
      && me.chat.stream.pull.header == peer.chat.stream.push.header
      && me.chat.stream.pull.items <= peer.chat.stream.push.items
  }

  lemma SideReceives(sodium: Crypto.Sodium, a: State, b: State, role: Crypto.Role, sid: Bytes)
    requires Crypto.Lawful(sodium) && role != Crypto.NoRole && Acquainted(sodium, a.id, b.id, sid)
    requires Good(sodium, a) && Good(sodium, b)
    requires Unambiguous(sodium, a.history) && Unambiguous(sodium, b.history)
    requires Side(sodium, a, b.id, role, sid, b.history)
    requires Side(sodium, b, a.id, Crypto.Opposite(role), sid, a.history)
    ensures Receives(a, b)
  {
  }

  /** Key agreement: whenever both sides are ready, each receives with the key and header that the other pushes with,
      and has received a prefix of what the other has pushed. */
  lemma SessionsAgree(sodium: Crypto.Sodium, p: Pair, sid: Bytes, moves: seq<Move>)
    requires Crypto.Lawful(sodium) && Fresh(sodium, p, sid) && Honest(sodium, p, moves)
    ensures var q := Play(sodium, p, moves); Receives(q.a, q.b) && Receives(q.b, q.a)
  {
    hide Crypto.Lawful, Fresh, Honest, Play, Good, Side, Receives, Unambiguous;
    EveryPlayIsPaired(sodium, p, sid, moves);
    var q := Play(sodium, p, moves);
    SideReceives(sodium, q.a, q.b, Crypto.Initiator, sid);
    SideReceives(sodium, q.b, q.a, Crypto.Responder, sid);
  }

  /** Whatever the network loses, repeats or reorders, each side has accepted exactly a prefix of what the other has
      sealed: nothing altered, nothing twice, nothing skipped. It holds during the session and after its end. */
  lemma DeliveryIsPrefix(sodium: Crypto.Sodium, p: Pair, sid: Bytes, moves: seq<Move>)
    requires Crypto.Lawful(sodium) && Fresh(sodium, p, sid) && Honest(sodium, p, moves)
    ensures
      var q := Play(sodium, p, moves);
      q.a.history.accepted <= q.b.history.sealed && q.b.history.accepted <= q.a.history.sealed
  {
    hide Crypto.Lawful, Fresh, Honest, Play, Good, WireFrom, KxFrom, PushFrom, Present;
    EveryPlayIsPaired(sodium, p, sid, moves);
  }

  // ---------------------------------------------------------------- datagrams out of place

  /** A genuine message that is not the next one is refused. */
  lemma OutOfPlaceIsRefused(
      sodium: Crypto.Sodium, s: State, peer: Crypto.Identity, role: Crypto.Role, sid: Bytes, ph: History, j: nat,
      arrives: bool)
    requires Crypto.Lawful(sodium) && Live(sodium, s) && Side(sodium, s, peer, role, sid, ph)
    requires Reliable(sodium, s.id, peer, role, sid, s.history, ph) && s.chat.ready
    requires s.chat.ice.queue != [] && IsChatAt(sodium, ph, s.chat.ice.queue[0], j) && j != |s.history.accepted|
    ensures Process(sodium, s, arrives) == (Pop(s), false)
  {
    var d, p := s.chat.ice.queue[0], Pop(s);
    assert s.chat.headerReceived;
    PopIsLive(sodium, s);
    PopSide(sodium, s, peer, role, sid, ph);
    OnlyNextOpens(sodium, p, peer, role, sid, ph, j);
    var kind, c := KindOf(ph.sealed[j].tag), Ciphertext(sodium, ph, j);
    assert |c| <= Packet.MAX_MESSAGE_SIZE && 0 < |d| <= ICE_PACKET_MAX && d == Packet.Frame(kind, c) by {
      hide Live, Side, Reliable, Crypto.Lawful;
    }
    HandleFrame(sodium, p, kind, c, arrives);
    hide Live, Side, Reliable, Crypto.Lawful, Packet.Frame, Ciphertext, HandlePacket;
  }

  /** Reordering or repeating a message is never silent: it ends a ready session, wiped. */
  lemma OutOfPlaceEndsSession(
      sodium: Crypto.Sodium, s: State, peer: Crypto.Identity, role: Crypto.Role, sid: Bytes, ph: History, j: nat,
      env: Env)
    requires Crypto.Lawful(sodium) && Live(sodium, s) && Side(sodium, s, peer, role, sid, ph)
    requires Reliable(sodium, s.id, peer, role, sid, s.history, ph) && s.chat.ready && s.chat.ice.ready
    requires s.chat.ice.queue != [] && IsChatAt(sodium, ph, s.chat.ice.queue[0], j) && j != |s.history.accepted|
    ensures
      var t := ServiceCrypto(sodium, s, env);
      Wiped(t.chat) && t.history == s.history && t.log.failures == s.log.failures + [Rejected]
  {
    OutOfPlaceIsRefused(sodium, s, peer, role, sid, ph, j, Flag(env.writes, QUEUE_CAPACITY));
    var p := Pop(s);
    assert p.chat.active by { hide Side, Reliable, Crypto.Lawful; }
    FailWipes(p, Rejected, env);
    hide Live, Side, Reliable, Crypto.Lawful, Fail, Wiped, Process;
  }
}
