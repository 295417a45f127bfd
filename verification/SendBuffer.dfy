/** The send buffer as it runs: 31-bit numbers, an ordered set of lost numbers, a
    retransmission queue and a running byte count. */
module SendBuffers {
  import opened SeqNumbers
  import opened Packets
  import opened LossCompression
  import opened SendModel

  // Microseconds.
  const SYN: int := 10_000

  datatype Rtt = Rtt(mean: int, variance: int)

  datatype AckResult =
    | AckAction(received: nat, recovered: nat, sendAck2: Option<U32>)
    | SendBufferEmpty
    | InvalidAck
    | InvalidFullAck
    | FullAckOverflow

  /** `a` is later than `b` on the wrapping 32-bit clock. */
  predicate Later(a: TimeStamp, b: TimeStamp) {
    0 < (a - b) % U32_RANGE < 0x8000_0000
  }

  function Deadline(t: TimeStamp, span: int): TimeStamp {
    (t + span) % U32_RANGE
  }

  // The retransmission timeout backs off with every transmission.
  function RtoSpan(rtt: Rtt, transmitCount: int): int {
    var constant := rtt.mean + 4 * rtt.variance + 2 * SYN;
    if transmitCount == 0 then constant else transmitCount * constant + SYN
  }

  /** `a` is before `b` on it; at exactly half the range each is before the other. */
  predicate Before(a: TimeStamp, b: TimeStamp) {
    0x8000_0000 <= (a - b) % U32_RANGE
  }

  /** Which packets are too late to be worth sending. */
  function LateTest(now: TimeStamp, latencyWindow: U32): DataPacket -> bool {
    (p: DataPacket) => Later(now, Deadline(p.timestamp, latencyWindow))
  }

  /** Within half the range of the clock, late is late and due is due. */
  lemma {:induction false} ClockIsTime(now: int, t: int, span: int, latencyWindow: U32, p: DataPacket)
    requires p.timestamp == t % U32_RANGE
    ensures -0x8000_0000 <= now - (t + latencyWindow) < 0x8000_0000 ==>
              (LateTest(now % U32_RANGE, latencyWindow)(p) <==> t + latencyWindow < now)
    ensures -0x8000_0000 < now - (t + span) <= 0x8000_0000 ==>
              (Before(Deadline(t % U32_RANGE, span), now % U32_RANGE) <==> t + span < now)
  {
    hide Deadline, Later, Before;
    WrappedSum(t, latencyWindow);
    WrappedSum(t, span);
    if -0x8000_0000 <= now - (t + latencyWindow) < 0x8000_0000 { LaterIsLater(now, t + latencyWindow); }
    if -0x8000_0000 < now - (t + span) <= 0x8000_0000 { BeforeIsBefore(t + span, now); }
  }

  lemma {:induction false} LaterIsLater(a: int, b: int)
    requires -0x8000_0000 <= a - b < 0x8000_0000
    ensures Later(a % U32_RANGE, b % U32_RANGE) <==> b < a
  {
    WrappedDifference(a, b);
  }

  lemma {:induction false} BeforeIsBefore(a: int, b: int)
    requires -0x8000_0000 <= a - b < 0x8000_0000
    ensures Before(a % U32_RANGE, b % U32_RANGE) <==> a < b
  {
    WrappedDifference(a, b);
  }

  lemma {:induction false} WrappedSum(t: int, span: int)
    ensures Deadline(t % U32_RANGE, span) == (t + span) % U32_RANGE
  {
  }

  lemma {:induction false} WrappedDifference(a: int, b: int)
    ensures (a % U32_RANGE - b % U32_RANGE) % U32_RANGE == (a - b) % U32_RANGE
  {
  }

  /** The first timeout is the round trip with its margin, and every transmission after the
      second adds as much again. */
  lemma {:induction false} TimeoutBacksOff(rtt: Rtt, k: nat)
    ensures RtoSpan(rtt, 0) == rtt.mean + 4 * rtt.variance + 20_000
    ensures RtoSpan(rtt, 1) == RtoSpan(rtt, 0) + 10_000
    ensures 0 < k ==> RtoSpan(rtt, k + 1) == RtoSpan(rtt, k) + RtoSpan(rtt, 0)
  {
  }

  // ---- The retransmission queue ----

  /** Each transmitted number with its deadline; the queue is ordered by deadline, then
      by number. */
  type RtoQueue = map<SeqNumber, TimeStamp>

  // Transmitting a packet sets its timer.
  function TimerSet(q: RtoQueue, now: TimeStamp, rtt: Rtt, tx: Tx, n: int): RtoQueue
    requires tx.base <= n < tx.End()
  {
    q[Wire(n) := Deadline(now, RtoSpan(rtt, tx.entries[n - tx.base].transmitCount))]
  }

  predicate Sooner(q: RtoQueue, a: SeqNumber, b: SeqNumber)
    requires a in q && b in q
  {
    Before(q[a], q[b]) || (q[a] == q[b] && Precedes(a, b))
  }

  predicate IsTop(q: RtoQueue, k: SeqNumber) {
    k in q && forall m | m in q :: m == k || (Sooner(q, k, m) && !Sooner(q, m, k))
  }

  /** The order is a strict order on the entries, as it is when all deadlines and all
      numbers lie within half their range. */
  ghost predicate Ordered(q: RtoQueue) {
    && (forall a, b | a in q && b in q :: a != b ==> Sooner(q, a, b) != Sooner(q, b, a))
    && (forall a, b, c | a in q && b in q && c in q :: a != c && Sooner(q, a, b) && Sooner(q, b, c) ==> Sooner(q, a, c))
  }

  lemma {:induction false} TopAmong(q: RtoQueue, s: set<SeqNumber>) returns (k: SeqNumber)
    requires Ordered(q) && s != {} && s <= q.Keys
    ensures k in s && forall m | m in s :: m == k || (Sooner(q, k, m) && !Sooner(q, m, k))
  {
    hide Sooner;
    k := Member(s);
    var rest := s - {k};
    assert s == rest + {k};
    if rest != {} {
      var t := TopAmong(q, rest);
      if Sooner(q, t, k) { k := t; }
    }
  }

  /** An ordered queue has exactly one entry on top. */
  lemma {:induction false} OrderedHasTop(q: RtoQueue) returns (k: SeqNumber)
    requires Ordered(q) && q != map[]
    ensures IsTop(q, k) && forall m :: IsTop(q, m) ==> m == k
  {
    assert q.Keys == {} ==> q == map[];
    k := TopAmong(q, q.Keys);
    hide Sooner;
  }

  /** Sooner is sooner, when deadlines are within half their range and numbers within half
      of theirs. */
  lemma {:induction false} SoonerIsOrder(q: RtoQueue, start: TimeStamp, base: int, a: SeqNumber, b: SeqNumber)
    requires a in q && b in q
    requires (q[a] - start) % U32_RANGE < 0x8000_0000 && (q[b] - start) % U32_RANGE < 0x8000_0000
    requires Distance(a, Wire(base)) < MAX_DIFF && Distance(b, Wire(base)) < MAX_DIFF
    ensures var s, t := (q[a] - start) % U32_RANGE, (q[b] - start) % U32_RANGE;
            Sooner(q, a, b) <==> s < t || (s == t && Distance(a, Wire(base)) < Distance(b, Wire(base)))
  {
  }

  /** Which is how a queue is ordered. */
  lemma {:induction false} WindowIsOrdered(q: RtoQueue, start: TimeStamp, base: int)
    requires forall k | k in q :: (q[k] - start) % U32_RANGE < 0x8000_0000 && Distance(k, Wire(base)) < MAX_DIFF
    ensures Ordered(q)
  {
    forall a, b | a in q && b in q
      ensures var s, t := (q[a] - start) % U32_RANGE, (q[b] - start) % U32_RANGE;
              Sooner(q, a, b) <==> s < t || (s == t && Distance(a, Wire(base)) < Distance(b, Wire(base)))
    {
      SoonerIsOrder(q, start, base, a, b);
    }
    assert forall a, b | a in q && b in q :: Distance(a, Wire(base)) == Distance(b, Wire(base)) ==> a == b;
    hide Sooner, Distance, Wire;
  }

  /** What the queue may have resent: the number on top, if it is due and still buffered;
      and nothing if it is not. */
  ghost predicate RtoPicks(q: RtoQueue, tx: Tx, now: TimeStamp, due: Option<int>) {
    match due
    case Some(n) =>
      && tx.base <= n < tx.End() && Wire(n) in q && Before(q[Wire(n)], now)
      && forall k :: IsTop(q, k) ==> k == Wire(n)
    case None => forall k :: IsTop(q, k) ==> !(Before(q[k], now) && Buffered(tx, k))
  }

  /** The entry on top decides: its packet is resent if it is due and still buffered, and
      otherwise nothing is, whatever else is due. */
  lemma {:induction false} TopDecides(q: RtoQueue, tx: Tx, k: SeqNumber, now: TimeStamp, due: Option<int>)
    requires Numbered(tx) && IsTop(q, k) && RtoPicks(q, tx, now, due)
    ensures due == if Before(q[k], now) && Buffered(tx, k) then Some(PositionOf(tx, k)) else None
  {
    if due.Some? {
      WireDistance(due.value, tx.base);
    }
  }

  /** No packet of these positions has the number. */
  ghost predicate Outside(k: SeqNumber, lo: int, hi: int) {
    forall n | lo <= n < hi :: Wire(n) != k
  }

  lemma {:induction false} OutsideIsUnbuffered(tx: Tx, k: SeqNumber)
    requires Numbered(tx)
    ensures Outside(k, tx.base, tx.End()) <==> !Buffered(tx, k)
  {
    WireAt(k, tx.base);
    forall n | tx.base <= n < tx.End() && Wire(n) == k ensures Buffered(tx, k) {
      WireDistance(n, tx.base);
    }
    hide Wire, Distance;
    if Buffered(tx, k) { assert Wire(PositionOf(tx, k)) == k; }
  }

  /** Evicting or giving up a packet leaves its entry in the queue without a packet. */
  lemma {:induction false} EvictedIsStale(tx: Tx, capacity: nat, p: DataPacket)
    requires Numbered(tx) && |tx.entries| + 1 < MAX_DIFF && p.seqNumber == Wire(tx.End())
    ensures Evicts(tx, capacity) ==> !Buffered(Push(tx, capacity, p), Wire(tx.base))
  {
  }

  lemma {:induction false} GivenUpIsStale(tx: Tx, c: nat, n: int)
    requires Numbered(tx) && c <= |tx.entries| && tx.base <= n < tx.base + c
    ensures !Buffered(DropFront(tx, c), Wire(n))
  {
  }

  /** And setting the timer of another packet to a later deadline leaves it on top. */
  lemma {:induction false} TopStays(q: RtoQueue, k: SeqNumber, m: SeqNumber, d: TimeStamp)
    requires IsTop(q, k) && m != k && Before(q[k], d) && !Before(d, q[k])
    ensures IsTop(q[m := d], k)
  {
    hide Precedes, Before;
    var q' := q[m := d];
    forall i | i in q' ensures i == k || (Sooner(q', k, i) && !Sooner(q', i, k)) {
      if i != k && i != m { assert Sooner(q, k, i) && !Sooner(q, i, k); }
    }
  }

  lemma {:induction false} TopStaysWithout(q: RtoQueue, k: SeqNumber, s: set<SeqNumber>)
    requires IsTop(q, k) && k !in s
    ensures IsTop(q - s, k)
  {
    hide Precedes, Before;
    forall i | i in q - s ensures i == k || (Sooner(q - s, k, i) && !Sooner(q - s, i, k)) {
      assert i == k || (Sooner(q, k, i) && !Sooner(q, i, k));
    }
  }

  ghost function WireSet(s: set<int>): set<SeqNumber> {
    set l | l in s :: Wire(l)
  }

  ghost function WireRange(from: int, to: int): set<SeqNumber> {
    set n | from <= n < to :: Wire(n)
  }

  lemma {:induction false} WireRangePlus(from: int, to: int)
    requires from <= to
    ensures WireRange(from, to + 1) == WireRange(from, to) + {Wire(to)}
  {
    hide Wire;
  }

  lemma {:induction false} WireSetMinus(s: set<int>, x: int, lo: int)
    requires Spans(s, lo) && x in s
    ensures WireSet(s - {x}) == WireSet(s) - {Wire(x)} && |WireSet(s)| == |WireSet(s - {x})| + 1
  {
    forall l | l in s && Wire(l) == Wire(x) ensures l == x { WireInjective(l, x); }
    hide Wire;
  }

  predicate IsFirst(s: set<SeqNumber>, k: SeqNumber) {
    forall y | y in s :: y == k || Precedes(k, y)
  }

  /** On a list that spans less than half the number space the first is the least. */
  lemma {:induction false} FirstIsLeast(lost: set<int>, base: int, s: SeqNumber) returns (l: int)
    requires Spans(lost, base) && s in WireSet(lost)
    requires (exists k | k in WireSet(lost) :: IsFirst(WireSet(lost), k)) ==> IsFirst(WireSet(lost), s)
    ensures l in lost && Wire(l) == s && forall k | k in lost :: l <= k
  {
    hide Wire, Precedes;
    l :| l in lost && Wire(l) == s;
    var m := LeastExists(lost);
    LeastPrecedes(lost, m, base);
    assert Wire(m) in WireSet(lost) && IsFirst(WireSet(lost), Wire(m));
    NotBefore(l, m);
  }

  /** What is left of the lost positions has all from `n` on; `count` have gone. */
  ghost predicate Tracks(was: set<int>, lost: set<int>, n: int, count: nat) {
    lost <= was && KeepFrom(was, n) <= lost && count == |was - lost|
  }

  lemma {:induction false} TrackingStarts(was: set<int>, n: int)
    ensures Tracks(was, was, n, 0)
  {
    assert was - was == {};
  }

  lemma {:induction false} TrackingStep(was: set<int>, lost: set<int>, n: int, count: nat, l: int)
    requires Tracks(was, lost, n, count) && l in lost && l < n
    ensures Tracks(was, lost - {l}, n, count + 1)
  {
    assert was - (lost - {l}) == (was - lost) + {l};
  }

  lemma {:induction false} TrackingEnds(was: set<int>, lost: set<int>, n: int, count: nat, least: Option<int>)
    requires Tracks(was, lost, n, count)
    requires if least.Some? then n <= least.value && forall k | k in lost :: least.value <= k else lost == {}
    ensures lost == KeepFrom(was, n)
  {
  }

  lemma {:induction false} LeastExists(s: set<int>) returns (m: int)
    requires s != {}
    ensures m in s && forall k | k in s :: m <= k
  {
    m := Member(s);
    var rest := s - {m};
    assert s == rest + {m};
    if rest != {} {
      var m' := LeastExists(rest);
      m := if m' < m then m' else m;
    }
  }

  lemma {:induction false} SomeWire(s: set<int>) returns (w: SeqNumber)
    requires s != {}
    ensures w in WireSet(s)
  {
    var m := Member(s);
    w := Wire(m);
  }

  class SendBuffer {
    const latencyWindow: U32
    const flowWindowSize: nat
    const maxBufferSize: nat
    var buffer: seq<SendBufferEntry>
    var bufferLenBytes: nat
    var nextSend: SeqNumber
    var nextFullAck: U32
    var lostList: set<SeqNumber>
    var rtt: Rtt
    var rtoQueue: RtoQueue
    ghost var tx: Tx
    ghost var discarded: nat

    /** What holds whatever was pushed, acknowledged, reported or dropped: the buffer is
        numbered with the loss list behind its front, and the byte count is the size of
        what is buffered plus the size of everything ever given up as too late, which is
        never subtracted. */
    ghost predicate Counted()
      reads this
    {
      && maxBufferSize + 1 < MAX_DIFF
      && Tracked(tx)
      && (|buffer| <= maxBufferSize || |buffer| == 1)
      && buffer == tx.entries
      && nextSend == Wire(tx.next)
      && lostList == WireSet(tx.lost)
      && bufferLenBytes == SumBytes(buffer) + discarded
    }

    ghost predicate LostTracked()
      reads this
    {
      lostList == WireSet(tx.lost) && Spans(tx.lost, tx.base)
    }

    constructor (initSeqNum: SeqNumber, maxFlowSize: nat, sendBufferSize: nat, latencyWindow: U32)
      requires sendBufferSize + 1 < MAX_DIFF
      ensures Counted() && tx == Tx(initSeqNum, [], initSeqNum, {}) && discarded == 0
      ensures flowWindowSize == maxFlowSize && maxBufferSize == sendBufferSize && this.latencyWindow == latencyWindow
      ensures rtoQueue == map[] && nextFullAck == 1 && rtt == Rtt(10_000, 1_000)
    {
      this.latencyWindow, flowWindowSize, maxBufferSize := latencyWindow, maxFlowSize, sendBufferSize;
      buffer, bufferLenBytes, nextSend, nextFullAck, lostList := [], 0, initSeqNum, 1, {};
      rtt, rtoQueue := Rtt(10_000, 1_000), map[];
      tx, discarded := Tx(initSeqNum, [], initSeqNum, {}), 0;
    }

    /** The first number on the loss list is that of the least lost position. */
    method FirstLost() returns (r: Option<SeqNumber>, ghost l: int)
      requires LostTracked()
      ensures r.None? <==> tx.lost == {}
      ensures r.Some? ==> r.value in lostList && l in tx.lost && r.value == Wire(l) && forall k | k in tx.lost :: l <= k
    {
      hide Wire, Precedes, Compare, SumBytes, IsFirst;
      l := 0;
      if lostList == {} {
        if tx.lost != {} { var _ := SomeWire(tx.lost); }
        return None, 0;
      }
      ghost var someWire := Member(lostList);
      var s :| s in lostList && ((exists k | k in lostList :: IsFirst(lostList, k)) ==> IsFirst(lostList, s));
      l := FirstIsLeast(tx.lost, tx.base, s);
      return Some(s), l;
    }

    method PopLostList() returns (r: Option<SeqNumber>, ghost l: int)
      requires LostTracked()
      modifies this`lostList, this`tx
      ensures LostTracked()
      ensures r.None? <==> old(tx).lost == {}
      ensures r.None? ==> tx == old(tx) && lostList == old(lostList)
      ensures r.Some? ==>
                && l in old(tx).lost && r.value == Wire(l) && (forall k | k in old(tx).lost :: l <= k)
                && tx == old(tx).(lost := old(tx).lost - {l}) && lostList == old(lostList) - {r.value}
    {
      hide Wire, SumBytes;
      r, l := FirstLost();
      if r.Some? {
        WireSetMinus(tx.lost, l, tx.base);
        lostList := lostList - {r.value};
        tx := tx.(lost := tx.lost - {l});
      }
    }

    // Lost numbers leave from the front of the list up to `end`; a drop also checks that
    // they are not before its first number.
    method PopLostBefore(first: Option<SeqNumber>, end: SeqNumber, ghost n: int) returns (count: nat)
      requires LostTracked() && Limits(first, end, n)
      modifies this`lostList, this`tx
      ensures LostTracked() && tx == old(tx).(lost := KeepFrom(old(tx).lost, n))
      ensures count == |old(tx).lost - tx.lost|
    {
      hide Wire, Precedes, KeepFrom, WireSet;
      count := 0;
      ghost var was := tx;
      RangeIsWindow(tx.lost, tx.base, n - tx.base);
      TrackingStarts(was.lost, n);
      var least, l := FirstLost();
      while least.Some? && (first.Some? ==> !Precedes(least.value, first.value)) && Precedes(least.value, end)
        invariant LostTracked() && tx == was.(lost := tx.lost) && Tracks(was.lost, tx.lost, n, count)
        invariant least.None? <==> tx.lost == {}
        invariant least.Some? ==> l in tx.lost && least.value == Wire(l) && forall k | k in tx.lost :: l <= k
        decreases |tx.lost|
      {
        TrackingStep(was.lost, tx.lost, n, count, l);
        ghost var l';
        least, l' := PopLostList();
        count := count + 1;
        least, l := FirstLost();
      }
      TrackingEnds(was.lost, tx.lost, n, count, if least.Some? then Some(l) else None);
    }

    ghost predicate Limits(first: Option<SeqNumber>, end: SeqNumber, n: int)
      reads this
    {
      end == Wire(n) && tx.base <= n < tx.base + MAX_DIFF && (first.Some? ==> first.value == Wire(tx.base))
    }

    /** The oldest packet makes room when the buffer is full, whether it was sent or not. */
    method PushData(packet: DataPacket) returns (dropped: Option<nat>)
      requires Counted() && packet.seqNumber == Wire(tx.End())
      modifies this`buffer, this`bufferLenBytes, this`lostList, this`tx
      ensures Counted() && discarded == old(discarded)
      ensures tx == Push(old(tx), maxBufferSize, packet)
      ensures dropped == if Evicts(old(tx), maxBufferSize) then Some(old(buffer)[0].packet.WireSize()) else None
    {
      hide Wire, Tracked;
      ghost var was := tx;
      PushTracked(tx, maxBufferSize, packet);
      dropped := None;
      if maxBufferSize <= |buffer| && buffer != [] {
        var size := EvictFront();
        dropped := Some(size);
      }
      SumBytesAppend(buffer, SendBufferEntry(packet, 0));
      bufferLenBytes := bufferLenBytes + packet.WireSize();
      buffer := buffer + [SendBufferEntry(packet, 0)];
      tx := Push(was, maxBufferSize, packet);
    }

    method EvictFront() returns (size: nat)
      requires Counted() && buffer != []
      modifies this`buffer, this`bufferLenBytes, this`lostList, this`tx
      ensures size == old(buffer)[0].packet.WireSize() && buffer == old(buffer)[1..]
      ensures bufferLenBytes == SumBytes(buffer) + discarded
      ensures tx == old(tx).(lost := old(tx).lost - {old(tx).base}) && lostList == WireSet(tx.lost)
    {
      hide Wire;
      var entry := buffer[0];
      assert entry.packet.seqNumber == Wire(tx.base + 0);
      var first, l := FirstLost();
      if first.Some? && Wire(l) == Wire(tx.base) { WireInjective(l, tx.base); }
      if first == Some(entry.packet.seqNumber) {
        var _, l' := PopLostList();
      } else {
        assert tx.base !in tx.lost;
        assert tx.lost - {tx.base} == tx.lost;
      }
      bufferLenBytes := bufferLenBytes - entry.packet.WireSize();
      buffer := buffer[1..];
      return entry.packet.WireSize();
    }

    /** Transmits the packet with that number, if it is buffered: marks it as sent and
        sets its retransmission timer. */
    method SendPacket(now: TimeStamp, seqNumber: SeqNumber) returns (r: Option<DataPacket>)
      requires Counted()
      modifies this`buffer, this`rtoQueue, this`tx
      ensures Counted()
      ensures r.Some? <==> Buffered(old(tx), seqNumber)
      ensures r.None? ==> tx == old(tx) && buffer == old(buffer) && rtoQueue == old(rtoQueue)
      ensures r.Some? ==>
                var n := PositionOf(old(tx), seqNumber);
                && tx == SendAt(old(tx), n) && r.value == old(buffer)[n - old(tx).base].packet
                && rtoQueue == TimerSet(old(rtoQueue), now, rtt, old(tx), n)
    {
      hide Wire, Distance, SumBytes, RtoSpan, Deadline;
      if buffer == [] { return None; }
      assert buffer[0].packet.seqNumber == Wire(tx.base + 0);
      WireAt(seqNumber, tx.base);
      var index := Distance(seqNumber, buffer[0].packet.seqNumber);
      if |buffer| <= index { return None; }
      var entry := buffer[index];
      rtoQueue := rtoQueue[seqNumber := Deadline(now, RtoSpan(rtt, entry.transmitCount))];
      SumBytesUpdate(buffer, index, entry.Sent());
      buffer := buffer[index := entry.Sent()];
      tx := SendAt(tx, PositionOf(tx, seqNumber));
      return Some(entry.packet);
    }

    method SendNextPacket(now: TimeStamp) returns (r: Option<DataPacket>)
      requires Counted()
      modifies this`buffer, this`rtoQueue, this`tx, this`nextSend
      ensures Counted()
      ensures r.Some? <==> Buffered(old(tx), Wire(old(tx).next))
      ensures r.None? ==> tx == old(tx) && rtoQueue == old(rtoQueue)
      ensures r.Some? ==>
                var n := PositionOf(old(tx), Wire(old(tx).next));
                && tx == SendAt(old(tx), n).(next := old(tx).next + 1)
                && r.value == old(buffer)[n - old(tx).base].packet
                && rtoQueue == TimerSet(old(rtoQueue), now, rtt, old(tx), n)
    {
      hide Wire, Add, SumBytes, Distance, TimerSet;
      r := SendPacket(now, nextSend);
      if r.Some? {
        WireAdd(tx.next, 1);
        nextSend := Add(nextSend, 1);
        tx := tx.(next := tx.next + 1);
      }
    }

    method SendNext16nPacket(now: TimeStamp) returns (r: Option<DataPacket>)
      requires Counted()
      modifies this`buffer, this`rtoQueue, this`tx, this`nextSend
      ensures Counted()
      ensures r.Some? <==> Wire(old(tx).next) % 16 == 0 && Buffered(old(tx), Wire(old(tx).next))
      ensures r.None? ==> tx == old(tx) && rtoQueue == old(rtoQueue)
      ensures r.Some? ==>
                var n := PositionOf(old(tx), Wire(old(tx).next));
                && tx == SendAt(old(tx), n).(next := old(tx).next + 1)
                && r.value == old(buffer)[n - old(tx).base].packet
                && rtoQueue == TimerSet(old(rtoQueue), now, rtt, old(tx), n)
    {
      hide Wire, Distance, TimerSet, SumBytes;
      if nextSend % 16 == 0 {
        r := SendNextPacket(now);
      } else {
        r := None;
      }
    }

    /** The first number on the loss list is sent again. The source stops if it is not
        buffered. */
    method SendNextLostPacket(now: TimeStamp) returns (r: Option<DataPacket>, stops: bool, ghost l: int)
      requires Counted()
      modifies this`buffer, this`rtoQueue, this`tx, this`lostList
      ensures Counted()
      ensures r.None? && !stops <==> old(tx).lost == {}
      ensures r.None? && !stops ==> tx == old(tx) && rtoQueue == old(rtoQueue)
      ensures r.Some? || stops ==> l in old(tx).lost && (forall k | k in old(tx).lost :: l <= k) && old(tx).base <= l
      ensures stops ==> r.None? && old(tx).End() <= l
      ensures r.Some? ==>
                && l < old(tx).End()
                && tx == SendAt(old(tx), l).(lost := old(tx).lost - {l})
                && r.value == old(buffer)[l - old(tx).base].packet
                && rtoQueue == TimerSet(old(rtoQueue), now, rtt, old(tx), l)
    {
      hide Wire, SumBytes, Distance, RtoSpan, Deadline;
      r, stops := None, false;
      ghost var was := tx;
      var lost;
      lost, l := PopLostList();
      if lost.Some? {
        WireDistance(l, was.base);
        r := SendPacket(now, lost.value);
        stops := r.None?;
      }
    }

    /** Looks at the entry on top of the queue only. Where the order of the entries is not
        an order, any of them may be on top. */
    method SendNextRtoPacket(now: TimeStamp) returns (r: Option<DataPacket>, ghost due: Option<int>)
      requires Counted()
      modifies this`buffer, this`rtoQueue, this`tx
      ensures Counted()
      ensures RtoPicks(old(rtoQueue), old(tx), now, due) && (r.Some? <==> due.Some?)
      ensures r.None? ==> tx == old(tx) && rtoQueue == old(rtoQueue)
      ensures r.Some? ==>
                && tx == SendAt(old(tx), due.value)
                && r.value == old(buffer)[due.value - old(tx).base].packet
                && rtoQueue == TimerSet(old(rtoQueue), now, rtt, old(tx), due.value)
    {
      hide Wire, Before, Deadline, Distance, SumBytes, RtoSpan, IsTop, TimerSet;
      r, due := None, None;
      if rtoQueue == map[] {
        NoTop(rtoQueue);
        return;
      }
      ghost var k := Member(rtoQueue.Keys);
      var top :| top in rtoQueue && ((exists k | k in rtoQueue :: IsTop(rtoQueue, k)) ==> IsTop(rtoQueue, top));
      TopIsUnique(rtoQueue, top);
      if Before(rtoQueue[top], now) {
        WireAt(top, tx.base);
        ghost var n := PositionOf(tx, top);
        r := SendPacket(now, top);
        if r.Some? { due := Some(n); }
      }
    }

    /** Gives up every packet that is too late and the rest of the last one's message.
        The byte count keeps the size of what is given up. */
    method DropTooLatePackets(now: TimeStamp) returns (r: Option<(SeqNumber, SeqNumber)>, ghost c: nat)
      requires Counted()
      modifies this`buffer, this`tx, this`lostList, this`nextSend, this`discarded
      ensures Counted()
      ensures r.None? <==> old(buffer) == [] || !LateTest(now, latencyWindow)(old(buffer)[0].packet)
      ensures r.None? ==> tx == old(tx) && discarded == old(discarded)
      ensures r.Some? ==>
                && 0 < c == DropScan(old(buffer), old(buffer)[0].packet.messageNumber, LateTest(now, latencyWindow))
                && c <= |old(buffer)| && tx == DropFront(old(tx), c)
                && r.value == (Wire(old(tx).base), Wire(old(tx).base + c))
                && discarded == old(discarded) + SumBytes(old(buffer)[..c])
    {
      hide Wire, SumBytes, Later;
      c := 0;
      if buffer == [] || !LateTest(now, latencyWindow)(buffer[0].packet) { return None, 0; }
      var count := ScanTooLate(now);
      c := count;
      r := GiveUpFront(count);
    }

    method ScanTooLate(now: TimeStamp) returns (count: nat)
      requires buffer != [] && LateTest(now, latencyWindow)(buffer[0].packet)
      ensures 0 < count <= |buffer|
      ensures count == DropScan(buffer, buffer[0].packet.messageNumber, LateTest(now, latencyWindow))
    {
      hide Later;
      ghost var late := LateTest(now, latencyWindow);
      var message := buffer[0].packet.messageNumber;
      ghost var m0 := message;
      count := 0;
      while count < |buffer| && (LateTest(now, latencyWindow)(buffer[count].packet)
          || buffer[count].packet.messageNumber == message)
        invariant count <= |buffer|
        invariant DropScan(buffer, m0, late) == count + DropScan(buffer[count..], message, late)
        invariant count == 0 ==> message == m0
      {
        if LateTest(now, latencyWindow)(buffer[count].packet) { message := buffer[count].packet.messageNumber; }
        assert buffer[count..][1..] == buffer[count + 1..];
        count := count + 1;
      }
    }

    method GiveUpFront(c: nat) returns (r: Option<(SeqNumber, SeqNumber)>)
      requires Counted() && 0 < c <= |buffer|
      modifies this`buffer, this`tx, this`lostList, this`nextSend, this`discarded
      ensures Counted() && tx == DropFront(old(tx), c)
      ensures r == Some((Wire(old(tx).base), Wire(old(tx).base + c)))
      ensures discarded == old(discarded) + SumBytes(old(buffer)[..c])
    {
      hide Wire, SumBytes, Precedes, KeepFrom, WireSet;
      ghost var was := tx;
      var first, end, count := FrontRange(c);
      SumBytesSplit(buffer, count);
      DropFrontTracked(was, c);
      discarded := discarded + SumBytes(buffer[..count]);
      buffer := buffer[count..];
      var _ := PopLostBefore(Some(first), end, was.base + c);
      if Precedes(nextSend, end) { nextSend := end; }
      tx := DropFront(was, c);
      return Some((first, end));
    }

    method FrontRange(c: nat) returns (first: SeqNumber, end: SeqNumber, count: nat)
      requires Counted() && 0 < c <= |buffer|
      ensures first == Wire(tx.base) && end == Wire(tx.base + c) && count == c
    {
      hide Wire, Add, SumBytes, Distance;
      first := buffer[0].packet.seqNumber;
      var last := buffer[c - 1].packet.seqNumber;
      assert first == Wire(tx.base + 0) && last == Wire(tx.base + (c - 1));
      WireAdd(tx.base + (c - 1), 1);
      WireDistance(tx.base + (c - 1), tx.base);
      end := Add(last, 1);
      count := Distance(last, first) + 1;
    }

    /** Sent once more, unacknowledged, when the connection is closing. */
    method FlushOnClose(shouldDrain: bool) returns (r: Option<DataPacket>)
      requires Counted()
      modifies this`buffer, this`rtoQueue, this`tx, this`bufferLenBytes
      ensures old(tx.base !in tx.lost) ==> Counted()
      ensures r.Some? <==> shouldDrain && |old(buffer)| == 1
      ensures r.None? ==> tx == old(tx) && rtoQueue == old(rtoQueue)
      ensures r.Some? ==>
                && r.value == old(buffer)[0].packet && tx == old(tx).(base := old(tx).base + 1, entries := [])
                && rtoQueue == old(rtoQueue) - {Wire(old(tx).base)}
    {
      hide Wire;
      if !(shouldDrain && |buffer| == 1) { return None; }
      var p := buffer[0].packet;
      assert p.seqNumber == Wire(tx.base + 0);
      rtoQueue := rtoQueue - {p.seqNumber};
      assert buffer[1..] == [] && SumBytes(buffer) == p.WireSize() + SumBytes(buffer[1..]);
      bufferLenBytes := bufferLenBytes - p.WireSize();
      buffer := [];
      tx := tx.(base := tx.base + 1, entries := []);
      return Some(p);
    }

    /** An acknowledgement frees exactly the packets below it, and only if it stands for
        a position between the front and the next to send. The source stops when the
        number of a full acknowledgement cannot be counted on. */
    method UpdateLargestAckedSeqNumber(ack: SeqNumber, fullAck: Option<U32>, newRtt: Option<Rtt>) returns (r: AckResult)
      requires Counted()
      modifies this
      ensures Counted() && discarded == old(discarded)
      ensures r == SendBufferEmpty <==> old(buffer) == []
      ensures r == InvalidAck <==> old(buffer) != [] && !AcceptsAck(old(tx), ack)
      ensures r == InvalidFullAck <==> AcceptsAck(old(tx), ack) && fullAck.Some? && fullAck.value < old(nextFullAck)
      ensures r == FullAckOverflow <==> AcceptsAck(old(tx), ack) && fullAck == Some(U32_RANGE - 1)
      ensures !r.AckAction? ==>
                && tx == old(tx) && bufferLenBytes == old(bufferLenBytes)
                && nextFullAck == old(nextFullAck) && rtoQueue == old(rtoQueue)
      ensures rtt == if AcceptsAck(old(tx), ack) && newRtt.Some? then newRtt.value else old(rtt)
      ensures r.AckAction? ==>
                && tx == Acknowledge(old(tx), ack)
                && r == AckAction(FreedBy(old(tx), ack), |old(tx).lost - tx.lost|, fullAck)
                && nextFullAck == (if fullAck.Some? then fullAck.value + 1 else old(nextFullAck))
                && rtoQueue == old(rtoQueue) - WireRange(old(tx).base, tx.base)
    {
      hide Wire, SumBytes, Compare, Nearest, FreedBy, Acknowledge, Tracked, WireSet, WireRange;
      if buffer == [] { return SendBufferEmpty; }
      FrontNumber(tx);
      if Precedes(ack, buffer[0].packet.seqNumber) || Compare(ack, nextSend) == Greater {
        return InvalidAck;
      }
      if newRtt.Some? { rtt := newRtt.value; }
      if fullAck.Some? {
        if fullAck.value < nextFullAck { return InvalidFullAck; }
        if fullAck.value == U32_RANGE - 1 { return FullAckOverflow; }
        nextFullAck := fullAck.value + 1;
      }
      var recovered, received := ReleaseBefore(ack);
      return AckAction(received, recovered, fullAck);
    }

    method ReleaseBefore(ack: SeqNumber) returns (recovered: nat, received: nat)
      requires Counted() && AcceptsAck(tx, ack)
      modifies this`buffer, this`bufferLenBytes, this`tx, this`lostList, this`rtoQueue
      ensures Counted() && received == FreedBy(old(tx), ack) && tx == Acknowledge(old(tx), ack)
      ensures recovered == |old(tx).lost - tx.lost|
      ensures rtoQueue == old(rtoQueue) - WireRange(old(tx).base, tx.base)
    {
      hide Wire, SumBytes, Precedes, Nearest, KeepFrom, WireSet, FreedBy, WireRange, AcceptsAck;
      ghost var was, a := tx, Nearest(ack, tx.base);
      AcceptedIsAhead(tx, ack);
      AckSafe(tx, ack);
      recovered := PopLostBefore(None, ack, a);
      FreedKeeps(was, tx, ack);
      KeptFrom(was.lost, a);
      received := PopFrontBefore(ack, a);
    }

    // The lost numbers below the acknowledged one are gone already.
    method PopFrontBefore(ack: SeqNumber, ghost a: int) returns (received: nat)
      requires Counted() && a == Nearest(ack, tx.base) && tx.base <= a && forall l | l in tx.lost :: a <= l
      modifies this`buffer, this`bufferLenBytes, this`tx, this`rtoQueue
      ensures Counted() && received == FreedBy(old(tx), ack)
      ensures tx == old(tx).(base := old(tx).base + received, entries := old(tx).entries[received..])
      ensures rtoQueue == old(rtoQueue) - WireRange(old(tx).base, tx.base)
    {
      hide Wire, SumBytes, Precedes, Nearest, FreedBy, WireRange, WireSet;
      ghost var was := tx;
      received := 0;
      NoRange(was.base);
      FrontPrecedes(was, ack, 0);
      while buffer != [] && Precedes(buffer[0].packet.seqNumber, ack)
        invariant Counted() && received <= FreedBy(was, ack)
        invariant tx == was.(base := was.base + received, entries := was.entries[received..])
        invariant rtoQueue == old(rtoQueue) - WireRange(was.base, tx.base)
        invariant received < |was.entries| ==>
                    (Precedes(was.entries[received].packet.seqNumber, ack) <==> received < FreedBy(was, ack))
        decreases |buffer|
      {
        WireRangePlus(was.base, tx.base);
        FreedIsBelow(was, ack);
        PopFront();
        received := received + 1;
        FrontPrecedes(was, ack, received);
      }
    }

    method PopFront()
      requires Counted() && buffer != [] && tx.base !in tx.lost
      modifies this`buffer, this`bufferLenBytes, this`tx, this`rtoQueue
      ensures Counted()
      ensures tx == old(tx).(base := old(tx).base + 1, entries := old(tx).entries[1..])
      ensures rtoQueue == old(rtoQueue) - {Wire(old(tx).base)}
    {
      hide Wire;
      var p := buffer[0].packet;
      assert p.seqNumber == Wire(tx.base + 0);
      TailNumbered(tx, 1);
      rtoQueue := rtoQueue - {p.seqNumber};
      bufferLenBytes := bufferLenBytes - p.WireSize();
      buffer := buffer[1..];
      tx := tx.(base := tx.base + 1, entries := tx.entries[1..]);
    }

    method NextLoss(n: SeqNumber) returns (loss: Loss)
      requires Counted()
      modifies this`lostList, this`tx
      ensures Counted() && tx == AddLoss(old(tx), n) && loss == Classify(old(tx), n)
    {
      hide Wire, SumBytes, Precedes, Nearest;
      if buffer != [] { assert buffer[0].packet.seqNumber == Wire(tx.base + 0); }
      if !Precedes(n, nextSend) { return Ignored; }
      if buffer == [] || Precedes(n, buffer[0].packet.seqNumber) { return DroppedLoss; }
      AddedIsAhead(tx, n);
      WireSetPlus(tx.lost, Nearest(n, tx.base));
      lostList := lostList + {n};
      tx := AddLoss(tx, n);
      return Added;
    }

    /** Adds a report to the loss list and tells the caller, in maximal ranges, what
        became of every number in it. None where the source stops, on a report that is
        not well formed. */
    method AddToLossList(nak: seq<U32>) returns (r: Option<seq<LossRange>>)
      requires Counted()
      modifies this`lostList, this`tx
      ensures Counted() && (r.None? <==> Decompress(nak).None?)
      ensures r.None? ==> tx == old(tx) && lostList == old(lostList)
      ensures r.Some? ==>
                var list := Decompress(nak).value;
                && Flatten(r.value) == Verdicts(old(tx), list) && Maximal(r.value)
                && tx == AddLosses(old(tx), list) && lostList == old(lostList) + AddedOf(old(tx), list)
    {
      hide Wire, Add, SumBytes, Classify, Decompress, AddLosses, Flatten, Verdicts;
      var words := DecompressAll(nak);
      if words.None? { return None; }
      var list := words.value;
      ghost var was := tx;
      NoLosses(was);
      var ranges := [];
      ghost var done := 0;
      var read, first := Read(list, 0, was);
      while first.Some?
        invariant done <= |list| && Peeked(list, done, was, read, first)
        invariant Flatten(ranges) == Verdicts(was, list[..done]) && Maximal(ranges)
        invariant ranges != [] && first.Some? ==>
                    !Joins(ranges[|ranges| - 1], LossRange(first.value.0, first.value.1, 0))
        decreases |list| - done
      {
        var range;
        range, read, first, done := NextRange(list, done, was, read, first.value.0, first.value.1);
        MaximalAppend(ranges, range);
        ranges := ranges + [range];
      }
      assert list[..done] == list;
      AddedNumbers(was, list);
      return Some(ranges);
    }

    /** The iterator has read one number past the `done` it has reported, if there is one. */
    ghost predicate Peeked(list: seq<SeqNumber>, done: nat, was: Tx, read: nat, first: Option<(Loss, SeqNumber)>)
      reads this
      requires done <= |list|
    {
      && Counted()
      && read == (if done < |list| then done + 1 else done)
      && tx == AddLosses(was, list[..read])
      && first == if done < |list| then Some((Classify(was, list[done]), list[done])) else None
    }

    method Read(list: seq<SeqNumber>, done: nat, ghost was: Tx) returns (read: nat, first: Option<(Loss, SeqNumber)>)
      requires done <= |list| && Counted() && tx == AddLosses(was, list[..done])
      modifies this`lostList, this`tx
      ensures Peeked(list, done, was, read, first)
    {
      hide Wire, Add, SumBytes, Classify, AddLosses;
      if done == |list| { return done, None; }
      AddNext(was, list, done);
      var loss := NextLoss(list[done]);
      return done + 1, Some((loss, list[done]));
    }

    method NextRange(list: seq<SeqNumber>, ghost done: nat, ghost was: Tx, read: nat, loss: Loss, start: SeqNumber)
      returns (range: LossRange, read': nat, first: Option<(Loss, SeqNumber)>, ghost done': nat)
      requires done < |list| && Peeked(list, done, was, read, Some((loss, start)))
      modifies this`lostList, this`tx
      ensures done < done' <= |list| && Peeked(list, done', was, read', first)
      ensures range.loss == loss && range.start == start
      ensures Verdicts(was, list[..done']) == Verdicts(was, list[..done]) + range.Expand()
      ensures first.Some? ==> !Joins(range, LossRange(first.value.0, first.value.1, 0))
    {
      hide Wire, Add, SumBytes, Classify, Verdicts, AddLosses;
      AddOne(start, 0);
      done' := done + 1;
      var end := Add(start, 1);
      read', first := Read(list, read, was);
      while first.Some? && first.value.0 == loss && first.value.1 == end
        invariant done < done' <= |list| && done' - done < MODULUS && Peeked(list, done', was, read', first)
        invariant end == Add(start, done' - done)
        invariant RunAt(was, list, done, done' - done, loss, start)
        decreases |list| - done'
      {
        AddOne(start, done' - done);
        end := Add(first.value.1, 1);
        done' := done' + 1;
        RunExpands(was, list, done, done' - done, loss, start);
        read', first := Read(list, read', was);
      }
      RunExpands(was, list, done, done' - done, loss, start);
      range := LossRange(loss, start, end);
    }
  }

  lemma {:induction false} NoTop(q: RtoQueue)
    requires q == map[]
    ensures forall k :: !IsTop(q, k)
  {
  }

  lemma {:induction false} TopIsUnique(q: RtoQueue, top: SeqNumber)
    requires top in q && ((exists k | k in q :: IsTop(q, k)) ==> IsTop(q, top))
    ensures forall k :: IsTop(q, k) ==> k == top
  {
    hide Sooner;
    forall k | IsTop(q, k) ensures k == top {
      assert IsTop(q, top);
    }
  }

  lemma {:induction false} AddOne(a: SeqNumber, k: nat)
    requires k < MODULUS
    ensures Add(a, 0) == a && Add(Add(a, k), 1) == Add(a, k + 1)
  {
  }

  lemma {:induction false} NoLosses(tx: Tx)
    ensures AddLosses(tx, []) == tx && Flatten([]) == Verdicts(tx, [])
  {
  }

  lemma {:induction false} WireSetPlus(s: set<int>, x: int)
    ensures WireSet(s + {x}) == WireSet(s) + {Wire(x)}
  {
  }

  lemma {:induction false} FrontNumber(tx: Tx)
    requires Tracked(tx) && tx.entries != []
    ensures tx.entries[0].packet.seqNumber == Wire(tx.base)
  {
    hide Wire;
    assert tx.entries[0].packet.seqNumber == Wire(tx.base + 0);
  }

  lemma {:induction false} KeptFrom(lost: set<int>, a: int)
    ensures forall l | l in KeepFrom(lost, a) :: a <= l
  {
  }

  lemma {:induction false} FreedIsBelow(tx: Tx, ack: SeqNumber)
    requires tx.base <= Nearest(ack, tx.base)
    ensures tx.base + FreedBy(tx, ack) <= Nearest(ack, tx.base)
  {
    hide Nearest;
  }

  lemma {:induction false} FreedKeeps(tx: Tx, tx': Tx, ack: SeqNumber)
    requires tx' == tx.(lost := tx'.lost)
    ensures FreedBy(tx', ack) == FreedBy(tx, ack)
  {
  }

  lemma {:induction false} FrontPrecedes(tx: Tx, ack: SeqNumber, i: nat)
    requires Numbered(tx) && i <= |tx.entries| && tx.base <= Nearest(ack, tx.base)
    ensures FreedBy(tx, ack) <= |tx.entries|
    ensures i < |tx.entries| ==> (Precedes(tx.entries[i].packet.seqNumber, ack) <==> i < FreedBy(tx, ack))
  {
    if i < |tx.entries| { FreedPrecede(tx, ack, i); }
  }

  lemma {:induction false} NoRange(from: int)
    ensures WireRange(from, from) == {}
  {
  }

  ghost function AddedOf(tx: Tx, list: seq<SeqNumber>): set<SeqNumber> {
    set n | n in list && Classify(tx, n) == Added
  }

  lemma {:induction false} AddedNumbers(tx: Tx, list: seq<SeqNumber>)
    ensures WireSet(AddLosses(tx, list).lost) == WireSet(tx.lost) + AddedOf(tx, list)
  {
    AddLossesExact(tx, list);
    hide AddLosses, Classify, Precedes, Compare;
    var lost := AddLosses(tx, list).lost;
    forall n | n in AddedOf(tx, list) ensures n in WireSet(lost) {
      assert Nearest(n, tx.base) in lost;
      assert Wire(Nearest(n, tx.base)) == n;
    }
    hide Wire, Nearest;
  }

  lemma {:induction false} WireAt(a: SeqNumber, base: int)
    ensures Wire(base + Distance(a, Wire(base))) == a
  {
  }

  /** On the loss list, modular range tests are integer range tests. */
  lemma {:induction false} RangeIsWindow(lost: set<int>, base: int, c: nat)
    requires Spans(lost, base) && c < MAX_DIFF
    ensures forall l | l in lost ::
            !Precedes(Wire(l), Wire(base)) && (Precedes(Wire(l), Wire(base + c)) <==> l < base + c)
  {
    forall l | l in lost ensures !Precedes(Wire(l), Wire(base))
        && (Precedes(Wire(l), Wire(base + c)) <==> l < base + c) {
      WindowOrder(l, base);
      WindowOrder(l, base + c);
    }
  }

  lemma {:induction false} LeastPrecedes(s: set<int>, m: int, lo: int)
    requires Spans(s, lo) && m in s && forall k | k in s :: m <= k
    ensures forall y | y in WireSet(s) :: y == Wire(m) || Precedes(Wire(m), y)
  {
    forall k | k in s ensures Wire(k) == Wire(m) || Precedes(Wire(m), Wire(k)) {
      WindowOrder(m, k);
    }
  }

  lemma {:induction false} NotBefore(l: int, m: int)
    requires -MAX_DIFF < l - m < MAX_DIFF && m <= l
    requires Wire(l) == Wire(m) || Precedes(Wire(l), Wire(m))
    ensures l == m
  {
    WindowOrder(l, m);
    WindowOrder(m, l);
  }
}
