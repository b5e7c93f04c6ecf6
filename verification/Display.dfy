/** What a client is shown is what the peer said, in order. */
module Display {
  import opened Daemon
  import opened Network
  import opened Octets
  import opened Pairing
  import opened Session
  import Crypto
  import Json
  import Packet

  // ---------------------------------------------------------------- subsequences

  /** `a` is what is left of `b` when some of its elements are dropped. */
  ghost predicate Subsequence(a: seq<Bytes>, b: seq<Bytes>)
    decreases |b|
  {
    a == [] ||
    (b != [] &&
     var shorter := b[..|b| - 1];
     Subsequence(a, shorter) || (a[|a| - 1] == b[|b| - 1] && Subsequence(a[..|a| - 1], shorter)))
  }

  lemma SubsequenceMore(a: seq<Bytes>, b: seq<Bytes>, x: Bytes)
    requires Subsequence(a, b)
    ensures Subsequence(a, b + [x]) && Subsequence(a + [x], b + [x])
  {
    assert (b + [x])[..|b|] == b && (a + [x])[..|a|] == a;
  }

  lemma {:induction false} SubsequenceOfLonger(a: seq<Bytes>, b: seq<Bytes>, c: seq<Bytes>)
    requires Subsequence(a, b) && b <= c
    ensures Subsequence(a, c)
    decreases |c|
  {
    if b == c {
    } else {
      var shorter := c[..|c| - 1];
      SubsequenceOfLonger(a, b, shorter);
      SubsequenceMore(a, shorter, c[|c| - 1]);
      assert shorter + [c[|c| - 1]] == c;
    }
  }

  // ---------------------------------------------------------------- lines and messages

  /** The lines that a list of messages makes for a client. */
  function LinesOf(items: seq<Crypto.Item>): seq<Bytes> {
    if items == [] then []
    else
      var last := items[|items| - 1];
      LinesOf(items[..|items| - 1]) + if last.tag == Crypto.TAG_MESSAGE then [OneLine(last.text)] else []
  }

  lemma LinesOfMore(items: seq<Crypto.Item>, item: Crypto.Item)
    ensures LinesOf(items + [item]) == LinesOf(items)
      + if item.tag == Crypto.TAG_MESSAGE then [OneLine(item.text)] else []
  {
    assert (items + [item])[..|items|] == items;
  }

  lemma {:induction false} LinesOfPrefix(a: seq<Crypto.Item>, b: seq<Crypto.Item>)
    requires a <= b
    ensures LinesOf(a) <= LinesOf(b)
    decreases |b|
  {
    if a != b {
      LinesOfPrefix(a, b[..|b| - 1]);
    }
  }

  function Texts(lines: seq<Delivery>): (r: seq<Bytes>)
    ensures |r| == |lines|
  {
    seq(|lines|, i requires 0 <= i < |lines| => lines[i].text)
  }

  /** What was shown since there were `n` lines is a subsequence of what was accepted. */
  ghost predicate Seen(n: nat, delivered: seq<Delivery>, accepted: seq<Crypto.Item>) {
    n <= |delivered| && Subsequence(Texts(delivered[n..]), LinesOf(accepted))
  }

  lemma SeenStays(n: nat, delivered: seq<Delivery>, was: seq<Crypto.Item>, now: seq<Crypto.Item>)
    requires Seen(n, delivered, was) && was <= now
    ensures Seen(n, delivered, now)
  {
    LinesOfPrefix(was, now);
    SubsequenceOfLonger(Texts(delivered[n..]), LinesOf(was), LinesOf(now));
    hide LinesOf, Subsequence, Texts;
  }

  lemma SeenMore(n: nat, delivered: seq<Delivery>, accepted: seq<Crypto.Item>, line: Delivery, item: Crypto.Item)
    requires Seen(n, delivered, accepted) && item.tag == Crypto.TAG_MESSAGE && line.text == OneLine(item.text)
    ensures Seen(n, delivered + [line], accepted + [item])
  {
    hide Subsequence, OneLine;
    LinesOfMore(accepted, item);
    SubsequenceMore(Texts(delivered[n..]), LinesOf(accepted), line.text);
    assert (delivered + [line])[n..] == delivered[n..] + [line];
    assert Texts(delivered[n..] + [line]) == Texts(delivered[n..]) + [line.text];
  }

  // ---------------------------------------------------------------- taking datagrams

  /** Lines and messages of two states. */
  ghost predicate Unshown(s: State, t: State) {
    t.ledger.delivered == s.ledger.delivered && t.history.accepted == s.history.accepted
  }

  ghost predicate Shows(s: State, t: State) {
    forall n: nat :: Seen(n, s.ledger.delivered, s.history.accepted) ==> Seen(n, t.ledger.delivered, t.history.accepted)
  }

  lemma OpenShows(sodium: Crypto.Sodium, s: State, kind: byte, payload: Bytes, arrives: bool)
    ensures Shows(s, OpenPayload(sodium, s, kind, payload, arrives).0)
  {
    hide Seen, Crypto.Decrypt, OneLine;
    var (result, stream, item) := Crypto.Decrypt(sodium, s.chat.stream, payload, Packet.MAX_MESSAGE_SIZE);
    var t := OpenPayload(sodium, s, kind, payload, arrives).0;
    if result == Crypto.Ok {
      forall n: nat | Seen(n, s.ledger.delivered, s.history.accepted)
        ensures Seen(n, t.ledger.delivered, t.history.accepted)
      {
        assert t.history.accepted == s.history.accepted + [item];
        SeenStays(n, s.ledger.delivered, s.history.accepted, s.history.accepted + [item]);
        if t.ledger.delivered != s.ledger.delivered {
          SeenMore(n, s.ledger.delivered, s.history.accepted, t.ledger.delivered[|s.ledger.delivered|], item);
        }
      }
    }
  }

  lemma HandleShows(sodium: Crypto.Sodium, s: State, packet: Bytes, arrives: bool)
    ensures Shows(s, HandlePacket(sodium, s, packet, arrives).0)
  {
    hide Seen, Shows, OpenPayload, HandleHandshake, HandleHeader, Packet.Decode;
    var payload := packet[if |packet| < 6 then 0 else 6..];
    SetupPacketUnshown(sodium, s, payload);
    UnshownShows(s, s);
    UnshownShows(s, HandleHandshake(sodium, s, payload).0);
    UnshownShows(s, HandleHeader(s, payload).0);
    OpenShows(sodium, s, Packet.MESSAGE, payload, arrives);
    OpenShows(sodium, s, Packet.CLOSE, payload, arrives);
  }

  lemma UnshownShows(s: State, t: State)
    requires Unshown(s, t)
    ensures Shows(s, t)
  {
  }

  lemma SetupPacketUnshown(sodium: Crypto.Sodium, s: State, payload: Bytes)
    ensures Unshown(s, HandleHandshake(sodium, s, payload).0) && Unshown(s, HandleHeader(s, payload).0)
  {
    hide Crypto.Finish;
    if |payload| == Crypto.KX_MESSAGE_BYTES {
      if Crypto.Finish(sodium, s.chat.hs, payload, s.chat.keys).0 == Crypto.Ok {} else {}
    }
  }

  lemma ProcessShows(sodium: Crypto.Sodium, s: State, arrives: bool)
    ensures Shows(s, Process(sodium, s, arrives).0)
  {
    hide Shows, HandlePacket;
    UnshownShows(s, s);
    if s.chat.ice.queue != [] {
      var p := Pop(s);
      UnshownShows(s, p);
      HandleShows(sodium, p, s.chat.ice.queue[0], arrives);
      ShowsTrans(s, p, HandlePacket(sodium, p, s.chat.ice.queue[0], arrives).0);
    }
  }

  lemma ShowsTrans(s: State, m: State, t: State)
    requires Shows(s, m) && Shows(m, t)
    ensures Shows(s, t)
  {
    hide Seen;
  }

  lemma FailShows(s: State, reason: Reason, env: Env)
    ensures Shows(s, Fail(s, reason, env))
  {
    FailWipes(s, reason, env);
    hide Fail, Seen;
  }

  lemma {:induction false} DrainShows(sodium: Crypto.Sodium, s: State, n: nat, env: Env)
    ensures Shows(s, Drain(sodium, s, n, env))
    decreases n
  {
    hide Shows, Process, Fail;
    UnshownShows(s, s);
    if n > 0 {
      ProcessShows(sodium, s, Flag(env.writes, n));
      var (next, ok) := Process(sodium, s, Flag(env.writes, n));
      if ok {
        DrainShows(sodium, next, n - 1, env);
        ShowsTrans(s, next, Drain(sodium, next, n - 1, env));
      } else {
        FailShows(next, Rejected, env);
        ShowsTrans(s, next, Fail(next, Rejected, env));
      }
    }
  }

  // ---------------------------------------------------------------- every event

  lemma ServiceShows(sodium: Crypto.Sodium, s: State, env: Env)
    requires Good(sodium, s)
    ensures
      var t := ServiceIce(sodium, s, env);
      Shows(s, t) || t.ledger.delivered == s.ledger.delivered
  {
    hide Good, Sound, Shows, Fail, ApplyPendingSdp, QueueLocalSdp, NoteConnected, ServiceCrypto, SameLink, Books;
    if s.chat.active {
      GoodFacts(sodium, s);
      var s1 := ApplyPendingSdp(s, env).0;
      var s2 := QueueLocalSdp(s1, env).0;
      var s3 := NoteConnected(s2, env);
      PendingSdpIsSound(sodium, s, env);
      LocalSdpIsSound(sodium, s1, env);
      NoteConnectedIsSound(sodium, s2, env);
      ServiceLinks(s, env);
      LinkedHistory(s, s3);
      UnshownShows(s, s3);
      FailWipes(s, Timeout, env);
      FailWipes(s1, Transport, env);
      FailWipes(s2, Transport, env);
      FailWipes(s2, Timeout, env);
      CryptoShows(sodium, s3, env);
      if Shows(s3, ServiceCrypto(sodium, s3, env)) {
        ShowsTrans(s, s3, ServiceCrypto(sodium, s3, env));
      }
    }
  }

  lemma LinkedHistory(s: State, t: State)
    requires SameLink(s, t)
    ensures t.history == s.history
  {
  }

  lemma CryptoShows(sodium: Crypto.Sodium, s: State, env: Env)
    requires Sound(sodium, s) && s.chat.active && s.chat.cliNotified
    ensures
      var t := ServiceCrypto(sodium, s, env);
      Shows(s, t) || t.ledger.delivered == s.ledger.delivered
  {
    hide Sound, Shows, Drain, ServiceSetup, Books;
    if s.chat.ready {
      DrainShows(sodium, s, QUEUE_CAPACITY, env);
    } else {
      SetupIsSound(sodium, s, env);
    }
  }

  /** Events other than service calls show nothing. */
  lemma OthersShowNothing(sodium: Crypto.Sodium, s: State, e: Event)
    requires Sound(sodium, s) && !e.Service? && (e.ServerMessage? ==> !Begins(e.json))
    ensures Step(sodium, s, e).ledger.delivered == s.ledger.delivered
  {
    hide Sound, HandleReceive, OpenChat, ServiceClient, QueueBuilt, RegisterFields, Receive, Json.GetString,
      Respond, Books;
    match e
    case Established => QueueKeepsCore(s.(wsi := true, connected := true, phase := Registering),
      RegisterFields(s.id), 512);
    case ServerMessage(json, env) => MessageShowsNothing(sodium, s, CString(json), env);
    case Writeable(written) =>
    case ConnectionError => RespondKeepsCore(s.(wsi := false, connected := false), CliError(ServerUnavailable));
    case Disconnected => RespondKeepsCore(s.(wsi := false, connected := false, challenge := None),
      CliError(ServerDisconnected));
    case OpenChatCommand(fd, peer, env) => OpenChatIsSound(sodium, s, fd, peer, env);
    case ClientInput(input, env) => ClientIsSound(sodium, s, input, env);
    case GatheringDone =>
    case Connected(pair) =>
    case TransportFailed =>
    case Datagram(packet) =>
  }

  lemma MessageShowsNothing(sodium: Crypto.Sodium, s: State, json: string, env: Env)
    requires Sound(sodium, s)
    requires Json.GetString(json, "type", 32) != Some("chat_request")
      && Json.GetString(json, "type", 32) != Some("chat_accept")
    ensures HandleReceive(sodium, s, json, env).ledger.delivered == s.ledger.delivered
  {
    hide Sound, HandleUserStatus, HandleError, HandleChallenge, HandleIceCredentials, HandleChatCancel, QueueBuilt,
      HelloFields,
      Json.GetString, Books;
    CredentialsAreSound(sodium, s, json, env);
    CancelIsSound(sodium, s, json);
    StatusKeepsCore(s, json);
    ErrorKeepsCore(s, json);
    ChallengeKeepsCore(sodium, s, json);
    QueueKeepsCore(s.(phase := Greeting), HelloFields(s.id), 128);
  }

  lemma StepShows(sodium: Crypto.Sodium, s: State, e: Event, n: nat)
    requires Good(sodium, s) && (e.ServerMessage? ==> !Begins(e.json))
    requires Grows(s.history, Step(sodium, s, e).history) && Seen(n, s.ledger.delivered, s.history.accepted)
    ensures var t := Step(sodium, s, e); Seen(n, t.ledger.delivered, t.history.accepted)
  {
    hide Good, Sound, Seen, ServiceIce, Begins;
    GoodFacts(sodium, s);
    var t := Step(sodium, s, e);
    if e.Service? {
      ServiceShows(sodium, s, e.env);
    } else {
      OthersShowNothing(sodium, s, e);
    }
    if t.ledger.delivered == s.ledger.delivered {
      SeenStays(n, s.ledger.delivered, s.history.accepted, t.history.accepted);
    }
  }

  // ---------------------------------------------------------------- whole conversations

  /** What `me` has shown since `was`. */
  function ShownSince(was: State, me: State): seq<Bytes>
    requires |was.ledger.delivered| <= |me.ledger.delivered|
  {
    Texts(me.ledger.delivered[|was.ledger.delivered|..])
  }

  lemma NothingSeen(s: State)
    ensures Seen(|s.ledger.delivered|, s.ledger.delivered, s.history.accepted)
  {
    assert s.ledger.delivered[|s.ledger.delivered|..] == [];
  }

  lemma {:induction false} EveryPlayShows(sodium: Crypto.Sodium, p: Pair, sid: Bytes, moves: seq<Move>)
    requires Crypto.Lawful(sodium) && Fresh(sodium, p, sid) && Honest(sodium, p, moves)
    ensures
      var q := Play(sodium, p, moves);
      && Seen(|p.a.ledger.delivered|, q.a.ledger.delivered, q.a.history.accepted)
      && Seen(|p.b.ledger.delivered|, q.b.ledger.delivered, q.b.history.accepted)
  {
    hide Crypto.Lawful, Fresh, Seen, Step, Distinct, Good, Side, Begins, Grows;
    if moves == [] {
      NothingSeen(p.a);
      NothingSeen(p.b);
    } else {
      var before, m := moves[..|moves| - 1], moves[|moves| - 1];
      EveryPlayShows(sodium, p, sid, before);
      EveryPlayIsPaired(sodium, p, sid, before);
      var q := Play(sodium, p, before);
      NextKeeps(sodium, q, m, sid);
      assert m.e.ServerMessage? ==> !Begins(m.e.json) by { assert Enabled(q, m); }
      match m {
        case OnA(e) => StepShows(sodium, q.a, e, |p.a.ledger.delivered|);
        case OnB(e) => StepShows(sodium, q.b, e, |p.b.ledger.delivered|);
      }
    }
  }

  /** In every honest run, the lines a client is shown in the session are a subsequence of the lines of the messages
      that the peer sealed: only what the peer said, in the order said, nothing twice. */
  lemma ShownIsSaid(sodium: Crypto.Sodium, p: Pair, sid: Bytes, moves: seq<Move>)
    requires Crypto.Lawful(sodium) && Fresh(sodium, p, sid) && Honest(sodium, p, moves)
    ensures
      var q := Play(sodium, p, moves);
      && |p.a.ledger.delivered| <= |q.a.ledger.delivered| && |p.b.ledger.delivered| <= |q.b.ledger.delivered|
      && Subsequence(ShownSince(p.a, q.a), LinesOf(q.b.history.sealed))
      && Subsequence(ShownSince(p.b, q.b), LinesOf(q.a.history.sealed))
  {
    hide Crypto.Lawful, Fresh, Honest, Play, LinesOf, Subsequence, Texts;
    EveryPlayShows(sodium, p, sid, moves);
    DeliveryIsPrefix(sodium, p, sid, moves);
    var q := Play(sodium, p, moves);
    SeenStays(|p.a.ledger.delivered|, q.a.ledger.delivered, q.a.history.accepted, q.b.history.sealed);
    SeenStays(|p.b.ledger.delivered|, q.b.ledger.delivered, q.b.history.accepted, q.a.history.sealed);
  }
}
