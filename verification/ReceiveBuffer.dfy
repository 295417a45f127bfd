/** The receive buffer as it runs: 31-bit numbers, a deque of slots and an
    incrementally maintained acknowledgement point. */
module ReceiveBuffers {
  import opened SeqNumbers
  import opened Packets
  import opened ReceiveModel
  import opened LossCompression

  datatype PushResult =
    | Stored(lrsn: SeqNumber, recovered: bool)
    | StoredWithLoss(nak: seq<U32>)
    | BufferFull
    | PacketTooEarly(available: nat, required: nat)
    | PacketTooLate
    | DiscardedDuplicate

  datatype PopResult =
    | NoMessage
    | Message(releaseTime: int, payload: seq<Byte>)
    | TooLatePackets(first: SeqNumber, end: SeqNumber, delay: int)

  /** What the caller is told about packet `n`. */
  ghost predicate Answers(rx: Rx, rx': Rx, capacity: nat, n: int, r: PushResult) {
    match r
    case Stored(lrsn, recovered) =>
      && lrsn == Wire(rx'.Lrsn())
      && (if recovered then Fills(rx, n) else n == rx.Next() && Fits(rx, capacity, n))
    case StoredWithLoss(nak) =>
      && rx.Next() < n && Fits(rx, capacity, n)
      && nak == Compress(Enumerate(Wire(rx.Next()), n - rx.Next()))
    case BufferFull => n == rx.Next() && |rx.slots| == capacity
    case PacketTooEarly(available, required) =>
      rx.Next() < n && !Fits(rx, capacity, n) && available == capacity - |rx.slots| && required == n - rx.Next() + 1
    case PacketTooLate => n < rx.base
    case DiscardedDuplicate => rx.base <= n < rx.Next() && !Fills(rx, n)
  }

  /** The index of a number in the buffer, clamped to it; the subtraction is raw. */
  function ClampedIndex(a: SeqNumber, seqno0: SeqNumber, len: nat): (i: nat)
    ensures i <= len
  {
    var d := SaturatingSub(a, seqno0);
    if d < len then d else len
  }

  /** For numbers in the buffer's half-space window the clamped index is the clamped
      position exactly when the number lies on the buffer's side of the wrap. */
  lemma {:induction false} ClampExact(n: int, base: int, len: nat)
    requires -MAX_DIFF <= n - base < MAX_DIFF && len < MAX_DIFF
    ensures var i := ClampedIndex(Wire(n), Wire(base), len);
            i == (if n < base then 0 else if n - base < len then n - base else len)
            <==> len == 0 || n / MODULUS == base / MODULUS
  {
  }

  /** Position 2^31 is one past 2^31 - 1, but its raw index is 0. */
  lemma {:induction false} ClampAcrossTheWrapIsZero()
    ensures ClampedIndex(Wire(MODULUS), Wire(MODULUS - 1), 2) == 0
  {
  }

  /** Both ends of a range lie on one side of the wrap; and if that is not the buffer's
      side, no slot of the buffer is in the range. */
  predicate OnOneSide(first: int, end: int, base: int, len: nat) {
    len == 0 || (first / MODULUS == end / MODULUS
      && (base / MODULUS < first / MODULUS ==> first == end || base + len <= first))
  }

  predicate Within(n: int, first: int, end: int) {
    first <= n < end
  }

  /** The raw indices of a range select exactly the slots at its positions if and only if
      its ends lie on one side of the wrap. */
  lemma {:induction false} DropIsExact(first: int, end: int, base: int, len: nat)
    requires base - MAX_DIFF <= first <= end < base + MAX_DIFF && len < MAX_DIFF
    ensures var i, j := ClampedIndex(Wire(first), Wire(base), len), ClampedIndex(Wire(end), Wire(base), len);
            (i <= j && forall n | 0 <= n < len :: Within(n, i, j) <==> Within(base + n, first, end))
            <==> OnOneSide(first, end, base, len)
  {
    RawIndex(first, base, len);
    RawIndex(end, base, len);
    hide Wire, ClampedIndex;
    var i, j := ClampedIndex(Wire(first), Wire(base), len), ClampedIndex(Wire(end), Wire(base), len);
    if i <= j && !OnOneSide(first, end, base, len) {
      var n := if base < first then first - base else 0;
      assert Within(base + n, first, end) && !Within(n, i, j);
    }
  }

  /** The source stops on a range whose raw indices run backwards; here is exactly when
      they do not. */
  lemma {:induction false} DropIsDefined(first: int, end: int, base: int, len: nat)
    requires base - MAX_DIFF <= first <= end < base + MAX_DIFF && len < MAX_DIFF
    ensures ClampedIndex(Wire(first), Wire(base), len) <= ClampedIndex(Wire(end), Wire(base), len)
            <==> len == 0 || first / MODULUS == end / MODULUS || if first / MODULUS < base / MODULUS
              then base + len <= end else first <= base
  {
    RawIndex(first, base, len);
    RawIndex(end, base, len);
    hide Wire, ClampedIndex;
  }

  /** Before the buffer's side of the wrap every number clamps to the end of the buffer,
      after it to the start. */
  lemma {:induction false} RawIndex(n: int, base: int, len: nat)
    requires -MAX_DIFF <= n - base < MAX_DIFF && len < MAX_DIFF
    ensures var i := ClampedIndex(Wire(n), Wire(base), len);
            i == if n / MODULUS < base / MODULUS then len
                 else if base / MODULUS < n / MODULUS then 0
                 else if n < base then 0 else if n - base < len then n - base else len
  {
  }

  /** An honest request for packets 2^31 - 2 to 1 of a buffer that starts at 2^31 - 5. */
  lemma {:induction false} DropAcrossTheWrapStops()
    ensures ClampedIndex(MODULUS - 2, MODULUS - 5, 10) == 3 && ClampedIndex(2, MODULUS - 5, 10) == 0
  {
  }

  /** Where the slots and their first number are after giving up the first `c`. */
  function AfterDrop(seqno0: SeqNumber, s: Slots, c: nat): (SeqNumber, Slots)
    requires 0 < c <= |s| < MAX_DIFF && s[c - 1].Number() == Add(seqno0, c - 1)
  {
    var end := Add(s[c - 1].Number(), 1);
    var count := SaturatingSub(end, seqno0);
    (end, s[if count <= |s| then count else |s|..])
  }

  /** Giving up late packets keeps slots and numbers together exactly when the dropped
      range does not reach the end of the number space. */
  lemma {:induction false} DropKeepsNumbering(base: int, s: Slots, c: nat)
    requires Rx(base, s).Numbered() && 0 < c <= |s| < MAX_DIFF
    requires s[c - 1].Number() == Add(Wire(base), c - 1)
    ensures var (seqno0', s') := AfterDrop(Wire(base), s, c);
            && seqno0' == Wire(base + c)
            && (Rx(base + c, s').Numbered() <==> Wire(base) + c < MODULUS)
            && (Wire(base) + c < MODULUS ==> s' == s[c..])
            && (MODULUS <= Wire(base) + c ==> s' == s)
  {
    var w := Wire(base);
    assert SaturatingSub(Add(Add(w, c - 1), 1), w) == if w + c < MODULUS then c else 0;
    WireAdd(base, c);
    assert Add(Add(w, c - 1), 1) == Add(w, c);
    WireInjectiveIn(base, base + c);
    hide Wire, Add, SaturatingSub;
    if w + c < MODULUS {
      AdvanceSafe(Rx(base, s), |s|, c);
    } else {
      assert s[0].Number() == Wire(base + 0) && s[0..] == s;
    }
  }

  /** A drop that reaches the end of the number space: the slot of packet 2^31 - 1
      stays behind while the buffer's first number moves on to 0. */
  lemma {:induction false} DropAtTheWrapLeavesItsPacketBehind(p: DataPacket)
    requires p.seqNumber == MODULUS - 1
    ensures AfterDrop(MODULUS - 1, [Received(p)], 1) == (0, [Received(p)])
  {
  }

  class ReceiveBuffer {
    const timing: Timing
    const maxBufferSize: nat
    var lrsn: SeqNumber
    var seqno0: SeqNumber
    var buffer: Slots
    var lastRelease: Option<int>
    ghost var base: int

    ghost function Model(): Rx
      reads this
    {
      Rx(base, buffer)
    }

    ghost predicate Valid()
      reads this
    {
      && maxBufferSize < MAX_DIFF
      && WellFormed(Model(), maxBufferSize)
      && seqno0 == Wire(base)
      && lrsn == Wire(Model().Lrsn())
    }

    constructor (timing: Timing, initSeqNum: SeqNumber, maxBufferSize: nat)
      requires maxBufferSize < MAX_DIFF
      ensures Valid() && Model() == Rx(initSeqNum, []) && Model().Lrsn() == initSeqNum
      ensures this.timing == timing && this.maxBufferSize == maxBufferSize && lastRelease == None
    {
      this.timing, this.maxBufferSize, lastRelease := timing, maxBufferSize, None;
      lrsn, seqno0, buffer, base := initSeqNum, initSeqNum, [], initSeqNum;
    }

    method NextPacketDsn() returns (n: SeqNumber)
      requires Valid()
      ensures n == Wire(Model().Next())
    {
      WireAdd(base, |buffer|);
      n := Add(seqno0, |buffer|);
    }

    /** Any 31-bit number may arrive; it is taken as the packet closest to the next
        expected one. */
    method PushPacket(now: int, data: DataPacket) returns (r: PushResult)
      requires Valid()
      modifies this
      ensures Valid()
      ensures var n := Nearest(data.seqNumber, old(Model()).Next());
              Model() == Push(old(Model()), maxBufferSize, now, n, data)
                && Answers(old(Model()), Model(), maxBufferSize, n, r)
    {
      hide Wire, Add, Distance, Push, Answers, WellFormed;
      ghost var n := Nearest(data.seqNumber, Model().Next());
      var next := NextPacketDsn();
      CompareIsOrder(data.seqNumber, Model().Next());
      match Compare(data.seqNumber, next) {
        case Equal => r := AppendNext(now, data);
        case Greater => r := AppendWithLoss(now, data, next, n);
        case Less => r := RecoverData(now, data, n);
      }
    }

    method AppendNext(ghost now: int, data: DataPacket) returns (r: PushResult)
      requires Valid() && data.seqNumber == Wire(Model().Next())
      modifies this
      ensures Valid() && Model() == Push(old(Model()), maxBufferSize, now, old(Model()).Next(), data)
      ensures Answers(old(Model()), Model(), maxBufferSize, old(Model()).Next(), r)
    {
      hide Wire, Add;
      if maxBufferSize - |buffer| == 0 {
        return BufferFull;
      }
      PushSafe(Model(), maxBufferSize, now, Model().Next(), data);
      AppendData(data);
      assert old(buffer) + [] == old(buffer);
      return Stored(lrsn, false);
    }

    method AppendWithLoss(now: int, data: DataPacket, next: SeqNumber, ghost n: int) returns (r: PushResult)
      requires Valid() && next == Wire(Model().Next()) && data.seqNumber == Wire(n)
      requires Model().Next() < n < Model().Next() + MAX_DIFF
      modifies this
      ensures Valid() && Model() == Push(old(Model()), maxBufferSize, now, n, data)
      ensures Answers(old(Model()), Model(), maxBufferSize, n, r)
    {
      hide Wire, Add, Compress, Enumerate, TryFromRange;
      var lostCount := Distance(data.seqNumber, next);
      WindowOrder(n, Model().Next());
      var available := maxBufferSize - |buffer|;
      var required := lostCount + 1;
      if available < required {
        return PacketTooEarly(available, required);
      }
      RangeIsItsEnumeration(next, data.seqNumber);
      var nak := TryFromRange(next, data.seqNumber);
      AppendLostPackets(now, next, lostCount);
      AppendData(data);
      return StoredWithLoss(nak.value);
    }

    method AppendLostPackets(now: int, first: SeqNumber, count: nat)
      requires Valid() && first == Wire(Model().Next()) && |buffer| + count <= maxBufferSize
      modifies this`buffer
      ensures Valid() && buffer == old(buffer) + LostRun(old(Model()).Next(), count, now)
    {
      hide Wire, Add;
      ghost var rx := Model();
      for i := 0 to count
        invariant buffer == rx.slots + LostRun(rx.Next(), i, now)
      {
        WireAdd(rx.Next(), i);
        buffer := buffer + [Lost(Add(first, i), now, 2)];
      }
      assert forall i | 0 <= i < FirstGap(rx.slots) :: buffer[i] == rx.slots[i];
      GapUnique(buffer, FirstGap(rx.slots));
    }

    method AppendData(data: DataPacket)
      requires Valid() && data.seqNumber == Wire(Model().Next()) && |buffer| < maxBufferSize
      modifies this`buffer, this`lrsn
      ensures Valid() && buffer == old(buffer) + [Received(data)]
    {
      hide Wire, Add;
      ghost var rx := Model();
      WireInjectiveIn(rx.Lrsn(), rx.Next());
      if lrsn == data.seqNumber {
        WireAdd(rx.Lrsn(), 1);
        lrsn := Add(data.seqNumber, 1);
      }
      buffer := buffer + [Received(data)];
      GapUnique(buffer, if FirstGap(rx.slots) == |rx.slots| then |rx.slots| + 1 else FirstGap(rx.slots));
    }

    method RecoverData(ghost now: int, data: DataPacket, ghost n: int) returns (r: PushResult)
      requires Valid() && data.seqNumber == Wire(n) && n < Model().Next() <= n + MAX_DIFF
      modifies this
      ensures Valid() && Model() == Push(old(Model()), maxBufferSize, now, n, data)
      ensures Answers(old(Model()), Model(), maxBufferSize, n, r)
    {
      hide Wire, Add, Distance;
      ghost var rx := Model();
      WindowOrder(n, base);
      if Precedes(data.seqNumber, seqno0) {
        return PacketTooLate;
      }
      var index := Distance(data.seqNumber, seqno0);
      if !buffer[index].Lost? {
        return DiscardedDuplicate;
      }
      PushSafe(rx, maxBufferSize, now, n, data);
      WireInjectiveIn(rx.Lrsn(), n);
      var first := lrsn == data.seqNumber;
      buffer := buffer[index := Received(data)];
      if first {
        RecalculateLrsn(index);
      } else {
        GapUnique(buffer, FirstGap(rx.slots));
      }
      return Stored(lrsn, true);
    }

    method RecalculateLrsn(start: nat)
      requires start <= |buffer| < MODULUS
      requires forall i | 0 <= i < start :: buffer[i].Received?
      modifies this`lrsn
      ensures seqno0 == Wire(base) && Model().Numbered() ==> lrsn == Wire(Model().Lrsn())
    {
      hide Wire, Add;
      var i := start;
      while i < |buffer| && buffer[i].Received?
        invariant start <= i <= |buffer|
        invariant forall j | 0 <= j < i :: buffer[j].Received?
      {
        i := i + 1;
      }
      GapUnique(buffer, i);
      WireAdd(base, |buffer|);
      lrsn := if i < |buffer| then buffer[i].Number() else Add(seqno0, |buffer|);
    }

    /** Releases the message at the front when it is whole and due, or gives up on late
        packets. Release times never go back. Giving up leaves a valid buffer exactly when the range it drops does
        not reach the end of the number space. */
    method PopNextMessage(now: int, clock: Clock) returns (r: PopResult)
      requires Valid()
      modifies this
      ensures var s := old(buffer);
              match DecidePop(s, now, clock, timing)
              case Wait => Valid() && Model() == old(Model()) && r == NoMessage && lastRelease == old(lastRelease)
              case Release(c) =>
                && IsMessage(s, c) && Valid() && Model() == Advance(old(Model()), c)
                && r == Message(ReleaseTime(old(lastRelease), clock(s[0].data.timestamp)), Payloads(s[..c]))
                && lastRelease == Some(r.releaseTime)
              case GiveUp(c) =>
                && c <= |s| && FirstHeld(s) < c
                && r == TooLatePackets(Wire(old(base)), Wire(old(base) + c), Delay(s, now, clock, timing))
                && lastRelease == old(lastRelease)
                && (Valid() <==> old(seqno0) + c < MODULUS)
                && (Valid() ==> Model() == Advance(old(Model()), c))
    {
      PopIsInRange(buffer, now, clock, timing);
      if buffer == [] || !buffer[0].Received? {
        r := DropTooLatePackets(now, clock);
        return;
      }
      if now < clock(buffer[0].data.timestamp) + timing.latency {
        return NoMessage;
      }
      var count := NextMessagePacketCount(buffer);
      if count.None? {
        r := DropTooLatePackets(now, clock);
        return;
      }
      var time := MonotonicInstant(clock(buffer[0].data.timestamp));
      r := ReleaseMessage(time, count.value);
    }

    method MonotonicInstant(instant: int) returns (time: int)
      modifies this`lastRelease
      ensures time == ReleaseTime(old(lastRelease), instant) && lastRelease == Some(time)
    {
      if lastRelease.Some? && lastRelease.value >= instant { return lastRelease.value; }
      lastRelease := Some(instant);
      return instant;
    }

    method ReleaseMessage(time: int, c: nat) returns (r: PopResult)
      requires Valid() && IsMessage(buffer, c)
      modifies this`seqno0, this`base, this`buffer
      ensures Valid() && Model() == Advance(old(Model()), c) && r == Message(time, Payloads(old(buffer)[..c]))
    {
      hide Wire, Add, Payloads;
      AdvanceSafe(Model(), maxBufferSize, c);
      GapAfter(buffer, c);
      hide FirstGap, WellFormed;
      SinglePayload(buffer[..1]);
      WireAdd(base, c);
      seqno0 := Add(seqno0, c);
      base := base + c;
      if c == 1 {
        r := Message(time, buffer[0].data.payload);
        buffer := buffer[1..];
      } else {
        var bytes := Concatenate(buffer[..c]);
        r := Message(time, bytes);
        buffer := buffer[c..];
      }
    }

    method Concatenate(s: Slots) returns (bytes: seq<Byte>)
      requires forall i | 0 <= i < |s| :: s[i].Received?
      ensures bytes == Payloads(s)
    {
      bytes := [];
      for i := 0 to |s|
        invariant bytes == Payloads(s[..i])
      {
        assert s[..i + 1][..i] == s[..i];
        bytes := bytes + s[i].data.payload;
      }
      assert s[..|s|] == s;
    }

    method DropTooLatePackets(now: int, clock: Clock) returns (r: PopResult)
      requires Valid()
      modifies this`seqno0, this`base, this`buffer, this`lrsn
      ensures var s := old(buffer);
              match DecideDrop(s, now, clock, timing)
              case Wait => Valid() && Model() == old(Model()) && r == NoMessage
              case Release(_) => false
              case GiveUp(c) =>
                && FirstHeld(s) < c <= |s|
                && r == TooLatePackets(Wire(old(base)), Wire(old(base) + c), Delay(s, now, clock, timing))
                && (Valid() <==> old(seqno0) + c < MODULUS)
                && (Valid() ==> Model() == Advance(old(Model()), c))
    {
      hide Wire, Add, LateCount, WellFormed, FirstGap;
      if !timing.dropTooLate {
        return NoMessage;
      }
      var c := LateCount(buffer, clock, now - timing.latency - timing.tolerance);
      if c == 0 {
        return NoMessage;
      }
      var delay := Delay(buffer, now, clock, timing);
      r := Discard(c, delay);
    }

    method Discard(c: nat, delay: int) returns (r: PopResult)
      requires Valid() && 0 < c <= |buffer| && buffer[c - 1].Received?
      modifies this`seqno0, this`base, this`buffer, this`lrsn
      ensures r == TooLatePackets(Wire(old(base)), Wire(old(base) + c), delay)
      ensures Valid() <==> old(seqno0) + c < MODULUS
      ensures Valid() ==> Model() == Advance(old(Model()), c)
    {
      hide Wire, Add, AfterDrop, Compare;
      var begin := seqno0;
      WireAdd(base, c - 1);
      DropKeepsNumbering(base, buffer, c);
      var (end, rest) := AfterDrop(seqno0, buffer, c);
      seqno0, buffer := end, rest;
      base := base + c;
      RecalculateLrsn(0);
      return TooLatePackets(begin, end, delay);
    }

    /** The lost slots whose report is due, in order; each is reported again later. */
    method PrepareLossList(now: int, rtt: int) returns (r: Option<seq<U32>>)
      requires Valid()
      modifies this`buffer
      ensures Valid() && Model() == Feedback(old(Model()), now, rtt)
      ensures var due := ReadyNumbers(old(buffer), now, rtt);
              Ascending(due) && r == (if due == [] then None else Some(Compress(due)))
    {
      hide Wire, Add, Precedes, Ascending, Compress;
      ghost var rx := Model();
      var list := CollectLosses(now, rtt);
      KeepsGaps(rx, Model(), maxBufferSize);
      ghost var last := ReadyAscending(rx, |rx.slots|, now, rtt);
      assert rx.slots[..|rx.slots|] == rx.slots;
      var words := CompressAll(list);
      CompressEmpty(list);
      r := if words == [] then None else Some(words);
    }

    method CollectLosses(now: int, rtt: int) returns (list: seq<SeqNumber>)
      requires Valid()
      modifies this`buffer
      ensures buffer == Feedback(old(Model()), now, rtt).slots
      ensures list == ReadyNumbers(old(buffer), now, rtt)
    {
      hide Wire, Add;
      ghost var s := buffer;
      list := [];
      var i := FirstGap(buffer);
      NoneReady(s, i, now, rtt);
      while i < |buffer|
        invariant FirstGap(s) <= i <= |buffer| == |s|
        invariant list == ReadyNumbers(s[..i], now, rtt)
        invariant forall j | 0 <= j < |s| :: buffer[j] == if j < i then FedBack(s[j], now, rtt) else s[j]
      {
        assert s[..i + 1][..i] == s[..i];
        if ReadyForFeedback(buffer[i], now, rtt) {
          list := list + [buffer[i].lostNumber];
          buffer := buffer[i := buffer[i].(k := buffer[i].k + 1, feedbackTime := now)];
        }
        i := i + 1;
      }
      assert s[..|s|] == s;
    }

    /** A peer's drop request, for any two numbers; None where the source stops, because
        the indices run backwards. */
    method DropPackets(first: SeqNumber, end: SeqNumber) returns (count: Option<nat>)
      requires Valid()
      modifies this`buffer
      ensures Valid() && |buffer| == |old(buffer)|
      ensures var i, j := ClampedIndex(first, seqno0, |buffer|), ClampedIndex(end, seqno0, |buffer|);
              if j < i then count.None? && buffer == old(buffer)
              else Model() == DropRange(old(Model()), i, j) && count == Some(LostCount(old(buffer)[i..j]))
      ensures var a, b := Nearest(first, base), Nearest(end, base);
              a <= b && OnOneSide(a, b, base, |buffer|) ==>
                && count.Some?
                && forall k | 0 <= k < |buffer| ::
                     buffer[k] == if Within(base + k, a, b) then DropUnreceived(old(buffer)[k]) else old(buffer)[k]
    {
      hide Wire, Add, SaturatingSub, LostCount, Nearest;
      ghost var rx := Model();
      ghost var a, b := Nearest(first, base), Nearest(end, base);
      if a <= b { DropIsExact(a, b, base, |buffer|); }
      var firstIdx := ClampedIndex(first, seqno0, |buffer|);
      var lastIdx := ClampedIndex(end, seqno0, |buffer|);
      hide ClampedIndex, OnOneSide;
      if lastIdx < firstIdx { return None; }
      var n := MarkDropped(firstIdx, lastIdx);
      KeepsGaps(rx, Model(), maxBufferSize);
      if a <= b && OnOneSide(a, b, base, |rx.slots|) {
        forall k | 0 <= k < |rx.slots|
          ensures buffer[k] == if Within(base + k, a, b) then DropUnreceived(rx.slots[k]) else rx.slots[k]
        {
          assert Within(k, firstIdx, lastIdx) <==> Within(base + k, a, b);
        }
      }
      return Some(n);
    }

    method MarkDropped(firstIdx: nat, lastIdx: nat) returns (count: nat)
      requires firstIdx <= lastIdx <= |buffer|
      modifies this`buffer
      ensures buffer == DropRange(old(Model()), firstIdx, lastIdx).slots
      ensures count == LostCount(old(buffer)[firstIdx..lastIdx])
    {
      ghost var s := buffer;
      count := 0;
      for i := firstIdx to lastIdx
        invariant |buffer| == |s|
        invariant forall j | 0 <= j < |s| :: buffer[j] == if firstIdx <= j < i then DropUnreceived(s[j]) else s[j]
        invariant count == LostCount(s[firstIdx..i])
      {
        assert s[firstIdx..i + 1][..i - firstIdx] == s[firstIdx..i];
        if buffer[i].Lost? {
          buffer := buffer[i := Dropped(buffer[i].lostNumber)];
          count := count + 1;
        }
      }
    }
  }

  lemma {:induction false} WireInjectiveIn(n: int, m: int)
    requires -MODULUS < n - m < MODULUS
    ensures Wire(n) == Wire(m) <==> n == m
  {
  }

  lemma {:induction false} GapAfter(s: Slots, c: nat)
    requires c <= |s| && forall i | 0 <= i < c :: s[i].Received?
    ensures FirstGap(s[c..]) == FirstGap(s) - c
  {
    GapUnique(s, c + FirstGap(s[c..]));
  }

  lemma {:induction false} SinglePayload(s: Slots)
    requires |s| == 1 && s[0].Received?
    ensures Payloads(s) == s[0].data.payload
  {
    assert s[..0] == [];
    assert Payloads(s[..0]) == [];
  }

  lemma {:induction false} NoneReady(s: Slots, i: nat, now: int, rtt: int)
    requires i <= FirstGap(s)
    ensures ReadyNumbers(s[..i], now, rtt) == []
  {
    if i > 0 {
      NoneReady(s, i - 1, now, rtt);
      assert s[..i][..i - 1] == s[..i - 1];
    }
  }

  /** The numbers due for a report are in ascending order, so compressing them never
      meets a number out of order. */
  lemma {:induction false} ReadyAscending(rx: Rx, i: nat, now: int, rtt: int) returns (last: int)
    requires rx.Numbered() && i <= |rx.slots| < MAX_DIFF
    ensures var l := ReadyNumbers(rx.slots[..i], now, rtt);
            Ascending(l) && rx.base - 1 <= last < rx.base + i && (l != [] ==> l[|l| - 1] == Wire(last))
  {
    hide Wire, Precedes, Compare;
    last := rx.base - 1;
    if i > 0 {
      last := ReadyAscending(rx, i - 1, now, rtt);
      assert rx.slots[..i][..i - 1] == rx.slots[..i - 1];
      if ReadyForFeedback(rx.slots[i - 1], now, rtt) {
        AscendingNext(ReadyNumbers(rx.slots[..i - 1], now, rtt), last, rx.base + i - 1);
        last := rx.base + i - 1;
      } else {
        assert ReadyNumbers(rx.slots[..i], now, rtt) == ReadyNumbers(rx.slots[..i - 1], now, rtt);
      }
    }
  }

  lemma {:induction false} AscendingNext(l: seq<SeqNumber>, last: int, n: int)
    requires Ascending(l) && (l != [] ==> l[|l| - 1] == Wire(last))
    requires last < n <= last + MAX_DIFF
    ensures Ascending(l + [Wire(n)])
  {
    WindowOrder(last, n);
    AscendingAppend(l, Wire(n));
  }

  lemma {:induction false} CompressEmpty(l: seq<SeqNumber>)
    ensures Compress(l) == [] <==> l == []
  {
  }
}
