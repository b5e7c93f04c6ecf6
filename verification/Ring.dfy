/** The receive ring of the ICE transport (daemon/ice.c): eight slots of raw memory that behave as a drop-oldest
 queue. */
module Ring {
  import opened Octets
  import Daemon

  const CAPACITY := Daemon.QUEUE_CAPACITY
  const PACKET_MAX := Daemon.ICE_PACKET_MAX

  datatype Result = Ok | ErrBuffer

  /** Where the k-th queued packet lies when the oldest is in slot `head`. */
  function SlotOf(head: nat, k: nat): (i: nat)
    ensures i < CAPACITY
  {
    (head + k) % CAPACITY
  }

  /** Is slot `i` inside the window of `count` slots that starts at `head`? */
  predicate InWindow(head: nat, count: nat, i: nat) { exists k: nat :: k < count && SlotOf(head, k) == i }

  lemma SlotsDiffer(head: nat, j: nat, k: nat)
    requires j < k < CAPACITY
    ensures SlotOf(head, j) != SlotOf(head, k)
  {
  }

  lemma SlotShifts(head: nat, k: nat)
    requires head < CAPACITY
    ensures SlotOf(SlotOf(head, 1), k) == SlotOf(head, k + 1)
  {
  }

  /** Moving the window on loses only the oldest slot. */
  lemma WindowAdvanced(head: nat, count: nat, i: nat)
    requires head < CAPACITY && 0 < count <= CAPACITY && i != head
    ensures InWindow(head, count, i) ==> InWindow(SlotOf(head, 1), count - 1, i)
  {
    if InWindow(head, count, i) {
      var k: nat :| k < count && SlotOf(head, k) == i;
      SlotShifts(head, k - 1);
    }
  }

  lemma WindowExtended(head: nat, count: nat, i: nat)
    ensures InWindow(head, count, i) || i == SlotOf(head, count) ==> InWindow(head, count + 1, i)
  {
  }

  // ---------------------------------------------------------------- a drop-oldest queue

  /** What may happen to the queue: a packet arrives, or the daemon takes the oldest one. */
  datatype Op = Arrive(packet: Bytes) | TakeOldest

  /** The queue and the packets that have left it, oldest first; `taken` tells those handed out from those dropped. */
  datatype Trace = Trace(queue: seq<Bytes>, gone: seq<Bytes>, taken: seq<bool>)

  function Happen(t: Trace, op: Op): Trace {
    match op
    case Arrive(packet) =>
      var queue := Daemon.Receive(Daemon.NO_ICE.(queue := t.queue), packet).queue;
      if |packet| <= PACKET_MAX && |t.queue| >= CAPACITY then
        Trace(queue, t.gone + [t.queue[0]], t.taken + [false])
      else t.(queue := queue)
    case TakeOldest =>
      if t.queue == [] then t else Trace(t.queue[1..], t.gone + [t.queue[0]], t.taken + [true])
  }

  function HappenAll(t: Trace, ops: seq<Op>): Trace {
    if ops == [] then t else Happen(HappenAll(t, ops[..|ops| - 1]), ops[|ops| - 1])
  }

  /** The packet that an operation brings, if it fits a slot. */
  function Fitting(op: Op): seq<Bytes> { if op.Arrive? && |op.packet| <= PACKET_MAX then [op.packet] else [] }

  /** The packets that arrived and fit a slot. */
  function Arrivals(ops: seq<Op>): seq<Bytes> {
    if ops == [] then []
    else Arrivals(ops[..|ops| - 1]) + Fitting(ops[|ops| - 1])
  }

  lemma HappenKeeps(t: Trace, op: Op)
    requires |t.queue| <= CAPACITY
    ensures var u := Happen(t, op); u.gone + u.queue == t.gone + t.queue + Fitting(op) && |u.queue| <= CAPACITY
  {
    if t.queue != [] {
      assert t.queue == [t.queue[0]] + t.queue[1..];
    }
  }

  /** Over any interleaving of arrivals and takes nothing is lost, invented or reordered: what has left the queue,
      followed by what waits in it, is exactly what arrived, in order. Packets leave oldest first, whether taken or
      dropped. */
  lemma {:induction false} FirstInFirstOut(ops: seq<Op>)
    ensures
      var t := HappenAll(Trace([], [], []), ops);
      t.gone + t.queue == Arrivals(ops) && |t.taken| == |t.gone| && |t.queue| <= CAPACITY
  {
    if ops != [] {
      var before, op := ops[..|ops| - 1], ops[|ops| - 1];
      FirstInFirstOut(before);
      HappenKeeps(HappenAll(Trace([], [], []), before), op);
      assert |Happen(HappenAll(Trace([], [], []), before), op).taken|
        == |Happen(HappenAll(Trace([], [], []), before), op).gone|;
      hide Happen;
    }
  }

  /** A packet is dropped only by the arrival of another while eight are waiting. */
  lemma DroppedOnlyWhenFull(t: Trace, op: Op)
    requires |t.taken| == |t.gone|
    ensures
      var u := Happen(t, op);
      |u.gone| == |t.gone| + 1 && !u.taken[|t.taken|] <==> Fitting(op) != [] && |t.queue| >= CAPACITY
  {
  }

  /** The transport session: its flags and its receive ring. */
  class Transport {
    const slots: array2<byte>
    const lens: array<nat>
    var head: nat
    var count: nat
    var agent: bool
    var gatheringDone: bool
    var ready: bool
    var failed: bool
    var pairKnown: bool
    var pairRelayed: bool

    /** Every byte outside the queued packets is zero. */
    ghost predicate Clean()
      requires slots.Length0 == CAPACITY && slots.Length1 == PACKET_MAX && lens.Length == CAPACITY
      reads this`head, this`count, slots, lens
    {
      && (forall i: nat :: i < CAPACITY && !InWindow(head, count, i) ==> lens[i] == 0)
      && (forall i: nat, j: nat :: i < CAPACITY && lens[i] <= j < PACKET_MAX ==> slots[i, j] == 0)
    }

    ghost predicate Valid()
      reads this`head, this`count, slots, lens
    {
      && slots.Length0 == CAPACITY && slots.Length1 == PACKET_MAX && lens.Length == CAPACITY
      && head < CAPACITY && count <= CAPACITY
      && (forall i: nat :: i < CAPACITY ==> lens[i] <= PACKET_MAX)
      && Clean()
    }

    ghost function Packet(i: nat): (p: Bytes)
      requires slots.Length0 == CAPACITY && slots.Length1 == PACKET_MAX && lens.Length == CAPACITY
      requires i < CAPACITY && lens[i] <= PACKET_MAX
      reads slots, lens
      ensures |p| == lens[i]
    {
      var n := lens[i];
      seq(n, j requires 0 <= j < n reads slots => slots[i, j])
    }

    /** The queue that the ring stands for, oldest first. */
    ghost function Contents(): (q: seq<Bytes>)
      requires Valid()
      reads this`head, this`count, slots, lens
      ensures |q| == count
    {
      var first, n := head, count;
      seq(n, k requires 0 <= k < n && lens[SlotOf(first, k)] <= PACKET_MAX reads slots,
        lens => Packet(SlotOf(first, k)))
    }

    /** The session as the daemon's machine sees it. */
    ghost function Value(): Daemon.Ice
      requires Valid()
      reads this, slots, lens
    {
      Daemon.Ice(agent, gatheringDone, ready, failed, pairKnown, pairRelayed, Contents())
    }

    constructor ()
      ensures Valid() && fresh(slots) && fresh(lens) && Value() == Daemon.NO_ICE
    {
      slots := new byte[CAPACITY, PACKET_MAX]((i, j) => 0);
      lens := new nat[CAPACITY](i => 0);
      head, count := 0, 0;
      agent, gatheringDone, ready, failed, pairKnown, pairRelayed := false, false, false, false, false, false;
    }

    /** The agent is there: callbacks may come. */
    method Open()
      requires Valid()
      modifies this`agent
      ensures Valid() && Value() == old(Value()).(agent := true)
    {
      agent := true;
    }

    method SetGathered()
      requires Valid()
      modifies this`gatheringDone
      ensures Valid() && Value() == old(Value()).(gatheringDone := true)
    {
      gatheringDone := true;
    }

    method SetConnected(pair: Option<bool>)
      requires Valid()
      modifies this`ready, this`pairKnown, this`pairRelayed
      ensures
        && Valid()
        && Value() == if pair.None? then old(Value()).(ready := true)
                      else old(Value()).(ready := true, pairKnown := true, pairRelayed := pair.value)
    {
      ready := true;
      if pair.Some? {
        pairKnown, pairRelayed := true, pair.value;
      }
    }

    method SetFailed()
      requires Valid()
      modifies this`failed
      ensures Valid() && Value() == old(Value()).(failed := true)
    {
      failed := true;
    }

    /** Closes the session: every flag and every byte becomes zero. */
    method Close()
      requires Valid()
      modifies this, slots, lens
      ensures Valid() && Value() == Daemon.NO_ICE
      ensures forall i: nat, j: nat :: i < CAPACITY && j < PACKET_MAX ==> slots[i, j] == 0
    {
      for i := 0 to CAPACITY
        invariant slots.Length0 == CAPACITY && slots.Length1 == PACKET_MAX && lens.Length == CAPACITY
        invariant forall a: nat :: a < i ==> lens[a] == 0
        invariant forall a: nat, j: nat :: a < i && j < PACKET_MAX ==> slots[a, j] == 0
      {
        Zero(i, PACKET_MAX);
        lens[i] := 0;
      }
      head, count := 0, 0;
      agent, gatheringDone, ready, failed, pairKnown, pairRelayed := false, false, false, false, false, false;
    }

    /** Wipes the first `n` bytes of a slot. */
    method Zero(i: nat, n: nat)
      requires slots.Length0 == CAPACITY && slots.Length1 == PACKET_MAX && i < CAPACITY && n <= PACKET_MAX
      modifies slots
      ensures forall j: nat :: j < n ==> slots[i, j] == 0
      ensures forall a: nat, j: nat :: a < CAPACITY && j < PACKET_MAX && !(a == i && j < n) ==>
          slots[a, j] == old(slots[a, j])
    {
      for k := 0 to n
        invariant forall j: nat :: j < k ==> slots[i, j] == 0
        invariant forall a: nat, j: nat :: a < CAPACITY && j < PACKET_MAX && !(a == i && j < k) ==>
            slots[a, j] == old(slots[a, j])
      {
        slots[i, k] := 0;
      }
    }

    /** Copies a packet into a slot. */
    method Store(i: nat, packet: Bytes)
      requires slots.Length0 == CAPACITY && slots.Length1 == PACKET_MAX && i < CAPACITY && |packet| <= PACKET_MAX
      modifies slots
      ensures forall j: nat :: j < |packet| ==> slots[i, j] == packet[j]
      ensures forall a: nat, j: nat :: a < CAPACITY && j < PACKET_MAX && !(a == i && j < |packet|) ==>
          slots[a, j] == old(slots[a, j])
    {
      for k := 0 to |packet|
        invariant forall j: nat :: j < k ==> slots[i, j] == packet[j]
        invariant forall a: nat, j: nat :: a < CAPACITY && j < PACKET_MAX && !(a == i && j < k) ==>
            slots[a, j] == old(slots[a, j])
      {
        slots[i, k] := packet[k];
      }
    }

    /** Wipes and forgets the oldest packet. */
    method DropOldest()
      requires Valid() && count > 0
      modifies this`head, this`count, slots, lens
      ensures Valid() && Value() == old(Value()).(queue := old(Contents())[1..])
    {
      ghost var was := Contents();
      assert SlotOf(head, 1) == (head + 1) % CAPACITY && SlotOf(head, 0) == head;
      hide SlotOf;
      Zero(head, lens[head]);
      lens[head] := 0;
      head := (head + 1) % CAPACITY;
      count := count - 1;
      forall i: nat | i < CAPACITY && !InWindow(head, count, i)
        ensures lens[i] == 0
      {
        if i != old(head) {
          WindowAdvanced(old(head), old(count), i);
        }
      }
      forall k: nat | k < count
        ensures SlotOf(head, k) == SlotOf(old(head), k + 1) && SlotOf(head, k) != old(head)
      {
        SlotShifts(old(head), k);
        SlotsDiffer(old(head), 0, k + 1);
      }
      forall k: nat | k < count
        ensures Contents()[k] == was[1..][k]
      {
        assert was[k + 1] == old(Packet(SlotOf(head, k + 1)));
      }
    }

    /** Puts a packet behind the newest. */
    method Append(packet: Bytes)
      requires Valid() && count < CAPACITY && |packet| <= PACKET_MAX
      modifies this`count, slots, lens
      ensures Valid() && Value() == old(Value()).(queue := old(Contents()) + [packet])
    {
      ghost var was := Contents();
      var i := (head + count) % CAPACITY;
      assert i == SlotOf(head, count);
      hide SlotOf;
      Store(i, packet);
      lens[i] := |packet|;
      count := count + 1;
      forall x: nat | x < CAPACITY && !InWindow(head, count, x)
        ensures lens[x] == 0
      {
        WindowExtended(head, old(count), x);
      }
      forall k: nat | k < old(count)
        ensures SlotOf(head, k) != i
      {
        SlotsDiffer(head, k, old(count));
      }
      forall k: nat | k < count
        ensures Contents()[k] == (was + [packet])[k]
      {
        if k < old(count) {
          assert was[k] == old(Packet(SlotOf(head, k)));
        }
      }
    }

    /** What the transport does with a datagram is what the daemon's queue does. */
    method Receive(packet: Bytes)
      requires Valid()
      modifies this`head, this`count, this`failed, slots, lens
      ensures Valid() && Value() == Daemon.Receive(old(Value()), packet)
    {
      if |packet| > PACKET_MAX {
        failed := true;
        return;
      }
      if count >= CAPACITY {
        DropOldest();
      }
      Append(packet);
    }

    /** Hands out the oldest packet, if it fits. */
    method Take(size: nat) returns (result: Result, packet: Bytes)
      requires Valid()
      modifies this`head, this`count, slots, lens
      ensures Valid()
      ensures
        var queue := old(Contents());
        && (result == Ok <==> queue == [] || |queue[0]| <= size)
        && packet == (if queue != [] && result == Ok then queue[0] else [])
        && Value() == if queue != [] && result == Ok then old(Value()).(queue := queue[1..]) else old(Value())
    {
      if count == 0 {
        return Ok, [];
      }
      var n := lens[head];
      if size < n {
        return ErrBuffer, [];
      }
      packet := [];
      for j := 0 to n
        invariant |packet| == j && forall x: nat :: x < j ==> packet[x] == slots[head, x]
      {
        packet := packet + [slots[head, j]];
      }
      assert packet == Packet(head) == Contents()[0];
      DropOldest();
      result := Ok;
    }
  }
}
