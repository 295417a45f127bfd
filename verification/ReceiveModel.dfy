/** The receive buffer on unbounded packet positions: what each operation of the
    buffer means when sequence numbers never wrap. */
module ReceiveModel {
  import opened SeqNumbers
  import opened Packets
  import opened TimeSpans

  datatype BufferPacket =
    | Lost(lostNumber: SeqNumber, feedbackTime: int, k: int)
    | Received(data: DataPacket)
    | Dropped(droppedNumber: SeqNumber)
  {
    function Number(): SeqNumber {
      match this
      case Lost(n, _, _) => n
      case Received(d) => d.seqNumber
      case Dropped(n) => n
    }
  }

  type Slots = seq<BufferPacket>

  /** `base` is the position of the first slot; the rest follow on. */
  datatype Rx = Rx(base: int, slots: Slots) {
    function Next(): int {
      base + |slots|
    }

    /** The cumulative acknowledgement point. */
    function Lrsn(): int {
      base + FirstGap(slots)
    }

    ghost predicate Numbered() {
      |slots| <= MODULUS && forall i | 0 <= i < |slots| :: slots[i].Number() == Wire(base + i)
    }

    predicate HasReceived(n: int) {
      base <= n < Next() && slots[n - base].Received?
    }
  }

  function FirstGap(s: Slots): (g: nat)
    ensures g <= |s|
    ensures forall i | 0 <= i < g :: s[i].Received?
    ensures g < |s| ==> !s[g].Received?
  {
    if s == [] || !s[0].Received? then 0 else 1 + FirstGap(s[1..])
  }

  // ---- Arrival ----

  function LostRun(first: int, count: nat, now: int): Slots {
    seq(count, i => Lost(Wire(first + i), now, 2))
  }

  predicate Fits(rx: Rx, capacity: nat, n: int) {
    n + 1 - rx.base <= capacity
  }

  predicate Fills(rx: Rx, n: int) {
    rx.base <= n < rx.Next() && rx.slots[n - rx.base].Lost?
  }

  /** Packet number `n` arrives: it extends the buffer, marking what it skipped as
      lost, or fills a slot known to be lost, or is discarded. */
  function Push(rx: Rx, capacity: nat, now: int, n: int, data: DataPacket): Rx
    requires capacity < MAX_DIFF
  {
    if rx.Next() <= n then
      if Fits(rx, capacity, n)
      then rx.(slots := rx.slots + LostRun(rx.Next(), n - rx.Next(), now) + [Received(data)])
      else rx
    else if Fills(rx, n) then rx.(slots := rx.slots[n - rx.base := Received(data)])
    else rx
  }

  // ---- Release ----

  predicate InMessage(p: BufferPacket, m: MsgNumber) {
    p.Received? && p.data.messageNumber == m
  }

  // The fold that looks for the end of the message at the front.
  function CountFold(s: Slots, m: MsgNumber, count: nat, done: bool): Option<nat> {
    if s == [] || !InMessage(s[0], m) then
      if done then Some(count) else None
    else if done then CountFold(s[1..], m, count, done)
    else if count == 0 && !s[0].data.messageLoc.first then None
    else CountFold(s[1..], m, count + 1, s[0].data.messageLoc.last)
  }

  function NextMessagePacketCount(s: Slots): Option<nat> {
    if s == [] || !s[0].Received? then None
    else CountFold(s, s[0].data.messageNumber, 0, false)
  }

  /** The first `c` slots hold exactly one whole message. */
  ghost predicate IsMessage(s: Slots, c: nat) {
    && 1 <= c <= |s|
    && s[0].Received?
    && s[0].data.messageLoc.first
    && (forall i | 0 <= i < c :: InMessage(s[i], s[0].data.messageNumber))
    && (forall i | 0 <= i < c :: s[i].data.messageLoc.last <==> i == c - 1)
  }

  function Payloads(s: Slots): seq<Byte>
    requires forall i | 0 <= i < |s| :: s[i].Received?
  {
    if s == [] then [] else Payloads(s[..|s| - 1]) + s[|s| - 1].data.payload
  }

  /** The first `c` slots leave the buffer. */
  function Advance(rx: Rx, c: nat): Rx
    requires c <= |rx.slots|
  {
    Rx(rx.base + c, rx.slots[c..])
  }

  // ---- Giving up on late packets ----

  // Instants are in microseconds.
  type Clock = TimeStamp -> int

  predicate StillTooLate(p: BufferPacket, clock: Clock, threshold: int) {
    p.Received? ==> clock(p.data.timestamp) <= threshold || !p.data.messageLoc.first
  }

  function LatePrefix(s: Slots, clock: Clock, threshold: int): (c: nat)
    ensures c <= |s|
    ensures forall i | 0 <= i < c :: StillTooLate(s[i], clock, threshold)
    ensures c < |s| ==> !StillTooLate(s[c], clock, threshold)
  {
    if s == [] || !StillTooLate(s[0], clock, threshold) then 0
    else 1 + LatePrefix(s[1..], clock, threshold)
  }

  function LastReceivedEnd(s: Slots): (c: nat)
    ensures c <= |s|
    ensures 0 < c ==> s[c - 1].Received?
    ensures forall i | c <= i < |s| :: !s[i].Received?
  {
    if s == [] then 0
    else if s[|s| - 1].Received? then |s|
    else LastReceivedEnd(s[..|s| - 1])
  }

  /** How many slots a too-late drop gives up: up to the last packet held before the
      first start of a message that is still on time. */
  function LateCount(s: Slots, clock: Clock, threshold: int): (c: nat)
    ensures c <= |s|
    ensures 0 < c ==> s[c - 1].Received?
  {
    LastReceivedEnd(s[..LatePrefix(s, clock, threshold)])
  }

  function FirstHeld(s: Slots): (i: nat)
    ensures i <= |s|
    ensures i < |s| ==> s[i].Received?
    ensures forall j | 0 <= j < i :: !s[j].Received?
  {
    if s == [] || s[0].Received? then 0 else 1 + FirstHeld(s[1..])
  }

  /** How long the first packet that is held has been due, in microseconds. */
  function Delay(s: Slots, now: int, clock: Clock, t: Timing): int
    requires FirstHeld(s) < |s|
  {
    FromInterval(clock(s[FirstHeld(s)].data.timestamp) + t.latency, now)
  }

  /** Release times never go back, even when the clock is adjusted. */
  function ReleaseTime(last: Option<int>, instant: int): (time: int)
    ensures instant <= time && (last.Some? ==> last.value <= time)
    ensures time == instant || Some(time) == last
  {
    if last.Some? && last.value >= instant then last.value else instant
  }

  datatype PopAction = Wait | Release(count: nat) | GiveUp(count: nat)

  datatype Timing = Timing(latency: int, tolerance: int, dropTooLate: bool)

  function DecideDrop(s: Slots, now: int, clock: Clock, t: Timing): (a: PopAction)
    ensures a.GiveUp? ==> 0 < a.count <= |s|
  {
    var c := LateCount(s, clock, now - t.latency - t.tolerance);
    if !t.dropTooLate || c == 0 then Wait else GiveUp(c)
  }

  /** What asking for the next message does. */
  function DecidePop(s: Slots, now: int, clock: Clock, t: Timing): PopAction {
    if s == [] || !s[0].Received? then DecideDrop(s, now, clock, t)
    else if now < clock(s[0].data.timestamp) + t.latency then Wait
    else
      match NextMessagePacketCount(s)
      case Some(c) => Release(c)
      case None => DecideDrop(s, now, clock, t)
  }

  // ---- Peer drop requests and loss reports ----

  function DropUnreceived(p: BufferPacket): BufferPacket {
    if p.Lost? then Dropped(p.lostNumber) else p
  }

  function DropRange(rx: Rx, first: nat, end: nat): Rx
    requires first <= end <= |rx.slots|
  {
    rx.(slots := seq(|rx.slots|, i requires 0 <= i < |rx.slots| =>
          if first <= i < end then DropUnreceived(rx.slots[i]) else rx.slots[i]))
  }

  predicate ReadyForFeedback(p: BufferPacket, now: int, rtt: int) {
    p.Lost? && now > p.feedbackTime + Signed32(rtt * p.k)
  }

  function FedBack(p: BufferPacket, now: int, rtt: int): BufferPacket {
    if ReadyForFeedback(p, now, rtt) then p.(k := p.k + 1, feedbackTime := now) else p
  }

  function Feedback(rx: Rx, now: int, rtt: int): Rx {
    rx.(slots := seq(|rx.slots|, i requires 0 <= i < |rx.slots| => FedBack(rx.slots[i], now, rtt)))
  }

  function ReadyNumbers(s: Slots, now: int, rtt: int): seq<SeqNumber> {
    if s == [] then []
    else
      ReadyNumbers(s[..|s| - 1], now, rtt) +
      (if ReadyForFeedback(s[|s| - 1], now, rtt) then [s[|s| - 1].lostNumber] else [])
  }

  function LostCount(s: Slots): nat {
    if s == [] then 0 else LostCount(s[..|s| - 1]) + (if s[|s| - 1].Lost? then 1 else 0)
  }

  // ---- Properties ----

  ghost predicate WellFormed(rx: Rx, capacity: nat) {
    rx.Numbered() && |rx.slots| <= capacity < MAX_DIFF
  }

  lemma {:induction false} GapUnique(s: Slots, g: nat)
    requires g <= |s|
    requires forall i | 0 <= i < g :: s[i].Received?
    requires g < |s| ==> !s[g].Received?
    ensures g == FirstGap(s)
  {
  }

  /** Everything below the acknowledgement point and not yet released is held. */
  lemma {:induction false} BelowLrsnIsHeld(rx: Rx, n: int)
    requires rx.base <= n < rx.Lrsn()
    ensures rx.HasReceived(n)
  {
  }

  /** If every slot held before is held after, and the window only moved over held
      or skipped slots, then the acknowledgement point did not move back. */
  lemma {:induction false} LrsnMonotone(rx: Rx, rx': Rx)
    requires rx.base <= rx'.base
    requires rx.Next() <= rx'.Next()
    requires forall n | rx'.base <= n && rx.HasReceived(n) :: rx'.HasReceived(n)
    ensures rx.Lrsn() <= rx'.Lrsn()
  {
    assert forall n | rx'.base <= n < rx.Lrsn() :: rx.HasReceived(n);
    assert !rx'.HasReceived(rx'.Lrsn());
  }

  /** Arrival keeps the buffer well formed, never moves the acknowledgement point
      back, forgets nothing, and stores at most the packet that arrived. */
  lemma {:induction false} PushSafe(rx: Rx, capacity: nat, now: int, n: int, data: DataPacket)
    requires WellFormed(rx, capacity) && data.seqNumber == Wire(n)
    ensures var rx' := Push(rx, capacity, now, n, data);
            && WellFormed(rx', capacity)
            && rx'.base == rx.base
            && rx.Lrsn() <= rx'.Lrsn()
            && (forall i :: rx.HasReceived(i) ==> rx'.HasReceived(i) && rx'.slots[i - rx.base] == rx.slots[i - rx.base])
            && (forall i :: rx'.HasReceived(i) && !rx.HasReceived(i) ==>
                 i == n && rx'.slots[n - rx.base] == Received(data))
  {
    hide Wire;
    LrsnMonotone(rx, Push(rx, capacity, now, n, data));
  }

  /** What arrival does, slot by slot. The packet takes its slot exactly if that is lost, or
      lies past the end and within the capacity; whatever it skips becomes lost; and every
      other slot stays as it is. */
  lemma {:induction false} PushExact(rx: Rx, capacity: nat, now: int, n: int, data: DataPacket)
    requires capacity < MAX_DIFF
    ensures var rx' := Push(rx, capacity, now, n, data);
            var taken := if n < rx.Next() then rx.base <= n && rx.slots[n - rx.base].Lost? else n < rx.base + capacity;
            && rx'.base == rx.base
            && (if taken then rx.base <= n < rx'.Next() && rx'.slots[n - rx.base] == Received(data) else rx' == rx)
            && rx'.Next() == (if taken && rx.Next() <= n then n + 1 else rx.Next())
            && (forall k | |rx.slots| <= k < |rx'.slots| :: rx.base + k != n ==>
                  rx'.slots[k] == Lost(Wire(rx.base + k), now, 2))
            && (forall k | 0 <= k < |rx.slots| :: rx.base + k != n ==> rx'.slots[k] == rx.slots[k])
  {
    hide Wire;
    var rx' := Push(rx, capacity, now, n, data);
    forall k | |rx.slots| <= k < |rx'.slots| && rx.base + k != n
      ensures rx'.slots[k] == Lost(Wire(rx.base + k), now, 2)
    {
      assert rx'.slots[k] == LostRun(rx.Next(), n - rx.Next(), now)[k - |rx.slots|];
    }
  }

  /** So a lost packet that arrives again closes its gap, and the acknowledgement point moves
      on past it if it was the first. */
  lemma {:induction false} RecoveryClosesGap(rx: Rx, capacity: nat, now: int, n: int, data: DataPacket)
    requires capacity < MAX_DIFF && rx.base <= n < rx.Next() && rx.slots[n - rx.base].Lost?
    ensures var rx' := Push(rx, capacity, now, n, data);
            && (forall i :: rx'.HasReceived(i) <==> rx.HasReceived(i) || i == n)
            && (n == rx.Lrsn() ==> n < rx'.Lrsn())
  {
    hide Wire;
    PushExact(rx, capacity, now, n, data);
    var rx' := Push(rx, capacity, now, n, data);
    hide Push;
    forall i ensures rx'.HasReceived(i) <==> rx.HasReceived(i) || i == n {
      if rx.base <= i < rx.Next() && i != n { assert rx'.slots[i - rx.base] == rx.slots[i - rx.base]; }
    }
    if n == rx.Lrsn() {
      forall i | 0 <= i <= n - rx.base ensures rx'.slots[i].Received? { assert rx'.HasReceived(rx.base + i); }
    }
  }

  lemma {:induction false} CountFoldDone(s: Slots, m: MsgNumber, count: nat)
    ensures CountFold(s, m, count, true) == Some(count)
  {
    if s != [] && InMessage(s[0], m) {
      CountFoldDone(s[1..], m, count);
    }
  }

  lemma {:induction false} CountFoldFinds(s: Slots, m: MsgNumber, count: nat, c: nat)
    requires count == 0 ==> s != [] && InMessage(s[0], m) && s[0].data.messageLoc.first
    ensures CountFold(s, m, count, false) == Some(count + c) <==>
            && 1 <= c <= |s|
            && (forall i | 0 <= i < c :: InMessage(s[i], m))
            && (forall i | 0 <= i < c :: s[i].data.messageLoc.last <==> i == c - 1)
  {
    if s == [] || !InMessage(s[0], m) {
    } else if s[0].data.messageLoc.last {
      CountFoldDone(s[1..], m, count + 1);
    } else if 1 <= c {
      CountFoldFinds(s[1..], m, count + 1, c - 1);
      assert forall i | 1 <= i < |s| :: s[i] == s[1..][i - 1];
    } else {
      CountFoldGrows(s[1..], m, count + 1);
    }
  }

  lemma {:induction false} CountFoldGrows(s: Slots, m: MsgNumber, count: nat)
    requires 0 < count
    ensures var r := CountFold(s, m, count, false); r.Some? ==> count < r.value
  {
    if s == [] || !InMessage(s[0], m) {
    } else if s[0].data.messageLoc.last {
      CountFoldDone(s[1..], m, count + 1);
    } else {
      CountFoldGrows(s[1..], m, count + 1);
    }
  }

  lemma {:induction false} PopIsInRange(s: Slots, now: int, clock: Clock, t: Timing)
    ensures var a := DecidePop(s, now, clock, t);
            && (a.Release? ==> IsMessage(s, a.count))
            && (a.GiveUp? ==> 0 < a.count <= |s|)
  {
    var a := DecidePop(s, now, clock, t);
    if a.Release? {
      CountIsMessage(s, a.count);
    }
  }

  /** What the fold looks for, in terms of the packets alone. */
  lemma {:induction false} MessageExactly(s: Slots, c: nat)
    ensures NextMessagePacketCount(s) == Some(c) <==>
            && 0 < c <= |s| && (forall i | 0 <= i < c :: s[i].Received?)
            && s[0].data.messageLoc.first && s[c - 1].data.messageLoc.last
            && (forall i | 0 <= i < c - 1 :: !s[i].data.messageLoc.last)
            && (forall i | 0 <= i < c :: s[i].data.messageNumber == s[0].data.messageNumber)
  {
    CountIsMessage(s, c);
    hide CountFold;
  }

  /** When a message is released: exactly when it is whole at the front and its time has
      come, latency included. */
  lemma {:induction false} ReleasedExactlyWhenDue(s: Slots, now: int, clock: Clock, t: Timing, c: nat)
    ensures DecidePop(s, now, clock, t) == Release(c) <==>
            IsMessage(s, c) && clock(s[0].data.timestamp) + t.latency <= now
  {
    CountIsMessage(s, c);
  }

  /** The front can not be released: nothing is held there, or what is there is due but not
      whole. */
  ghost predicate Blocked(s: Slots, now: int, clock: Clock, t: Timing) {
    || s == [] || !s[0].Received?
    || (clock(s[0].data.timestamp) + t.latency <= now && forall k :: !IsMessage(s, k))
  }

  /** No message starts on time among the slots: latency and tolerance have passed for each
      first packet that is held. */
  ghost predicate NoneOnTime(s: Slots, now: int, clock: Clock, t: Timing) {
    forall i | 0 <= i < |s| ::
      s[i].Received? && s[i].data.messageLoc.first ==>
        clock(s[i].data.timestamp) + t.latency + t.tolerance <= now
  }

  /** When packets are given up, and how many: exactly when that is switched on, the front
      is blocked, and they are the longest prefix that ends in a held packet and has no
      message start still on time. */
  lemma {:induction false} GivenUpExactlyWhenLate(s: Slots, now: int, clock: Clock, t: Timing, c: nat)
    ensures DecidePop(s, now, clock, t) == GiveUp(c) <==>
            && t.dropTooLate && Blocked(s, now, clock, t)
            && 0 < c <= |s| && s[c - 1].Received? && NoneOnTime(s[..c], now, clock, t)
            && (forall k | c < k <= |s| && s[k - 1].Received? :: !NoneOnTime(s[..k], now, clock, t))
  {
    hide CountFold;
    if forall k :: !IsMessage(s, k) {
      if NextMessagePacketCount(s).Some? { CountIsMessage(s, NextMessagePacketCount(s).value); }
    } else {
      var k :| IsMessage(s, k);
      CountIsMessage(s, k);
    }
    LateCountExact(s, now, clock, t, c);
    hide LateCount, NoneOnTime, IsMessage, NextMessagePacketCount;
  }

  lemma {:induction false} LateCountExact(s: Slots, now: int, clock: Clock, t: Timing, c: nat)
    ensures 0 < c && LateCount(s, clock, now - t.latency - t.tolerance) == c <==>
            && 0 < c <= |s| && s[c - 1].Received? && NoneOnTime(s[..c], now, clock, t)
            && (forall k | c < k <= |s| && s[k - 1].Received? :: !NoneOnTime(s[..k], now, clock, t))
  {
    var threshold := now - t.latency - t.tolerance;
    var d := LateCount(s, clock, threshold);
    LatePrefixIs(s, now, clock, t, d);
    forall k | d < k <= |s| && s[k - 1].Received? ensures !NoneOnTime(s[..k], now, clock, t) {
      LateCountMaximal(s, clock, threshold, k);
      var i :| 0 <= i < k && !StillTooLate(s[i], clock, threshold);
      assert s[..k][i] == s[i];
    }
    hide LateCount, NoneOnTime;
  }

  lemma {:induction false} LatePrefixIs(s: Slots, now: int, clock: Clock, t: Timing, d: nat)
    requires d == LateCount(s, clock, now - t.latency - t.tolerance)
    ensures NoneOnTime(s[..d], now, clock, t)
  {
    var p := LatePrefix(s, clock, now - t.latency - t.tolerance);
    assert d <= p;
    forall i | 0 <= i < d ensures StillTooLate(s[..d][i], clock, now - t.latency - t.tolerance) {
      assert s[..d][i] == s[i];
    }
  }

  /** The fold answers `c` exactly when the first `c` slots are one whole message. */
  lemma {:induction false} CountIsMessage(s: Slots, c: nat)
    ensures NextMessagePacketCount(s) == Some(c) <==> IsMessage(s, c)
  {
    if s != [] && s[0].Received? && s[0].data.messageLoc.first {
      CountFoldFinds(s, s[0].data.messageNumber, 0, c);
    }
  }

  /** A too-late drop reaches as far as it can: any longer prefix that ends in a held
      packet contains a message start that is still on time. */
  lemma {:induction false} LateCountMaximal(s: Slots, clock: Clock, threshold: int, c: nat)
    requires LateCount(s, clock, threshold) < c <= |s| && s[c - 1].Received?
    ensures exists i | 0 <= i < c :: !StillTooLate(s[i], clock, threshold)
  {
    var p := LatePrefix(s, clock, threshold);
    assert forall i | LateCount(s, clock, threshold) <= i < p :: !s[..p][i].Received?;
    assert p < c;
    assert !StillTooLate(s[p], clock, threshold);
  }

  /** Leaving from the front keeps the numbering and never moves the acknowledgement
      point back. */
  lemma {:induction false} AdvanceSafe(rx: Rx, capacity: nat, c: nat)
    requires WellFormed(rx, capacity) && c <= |rx.slots|
    ensures var rx' := Advance(rx, c);
            && WellFormed(rx', capacity)
            && rx'.Next() == rx.Next()
            && rx.Lrsn() <= rx'.Lrsn()
            && (forall i :: rx'.HasReceived(i) <==> rx.HasReceived(i) && rx'.base <= i)
  {
    hide Wire;
    LrsnMonotone(rx, Advance(rx, c));
  }

  /** What a drop request does, slot by slot: lost slots in its range are dropped under their
      number, and every other slot stays as it is. */
  lemma {:induction false} DropRangeExact(rx: Rx, first: nat, end: nat, i: nat)
    requires first <= end <= |rx.slots| && i < |rx.slots|
    ensures var rx' := DropRange(rx, first, end);
            && rx'.base == rx.base && |rx'.slots| == |rx.slots|
            && rx'.slots[i] ==
               if first <= i < end && rx.slots[i].Lost? then Dropped(rx.slots[i].lostNumber) else rx.slots[i]
  {
  }

  /** What a loss report does, slot by slot: a lost slot whose backoff has passed is set to
      wait longer from now on, and every other slot stays as it is. */
  lemma {:induction false} FeedbackExact(rx: Rx, now: int, rtt: int, i: nat)
    requires i < |rx.slots|
    ensures var rx' := Feedback(rx, now, rtt);
            var p := rx.slots[i];
            && rx'.base == rx.base && |rx'.slots| == |rx.slots|
            && rx'.slots[i] ==
               if p.Lost? && p.feedbackTime + Signed32(rtt * p.k) < now then Lost(p.lostNumber, now, p.k + 1) else p
  {
  }

  /** Which numbers a loss report holds: exactly those of lost slots whose backoff has
      passed. */
  lemma {:induction false} ReadyNumbersExact(s: Slots, now: int, rtt: int, n: SeqNumber)
    ensures n in ReadyNumbers(s, now, rtt) <==>
            exists i | 0 <= i < |s| ::
              s[i].Lost? && s[i].lostNumber == n && s[i].feedbackTime + Signed32(rtt * s[i].k) < now
  {
    hide Signed32;
    if s != [] {
      var m := |s| - 1;
      ReadyNumbersExact(s[..m], now, rtt, n);
      assert s[..m] + [s[m]] == s;
      assert forall i | 0 <= i < m :: s[..m][i] == s[i];
    }
  }

  /** Each of them is in it as often as there are such slots. */
  lemma {:induction false} ReadyNumbersCount(s: Slots, now: int, rtt: int, n: SeqNumber)
    ensures multiset(ReadyNumbers(s, now, rtt))[n] == DueSlots(s, now, rtt, n)
  {
    hide Signed32;
    if s != [] {
      ReadyNumbersCount(s[..|s| - 1], now, rtt, n);
    }
  }

  /** How many slots a drop request is said to have dropped: as many as were lost. */
  lemma {:induction false} LostCountExact(s: Slots)
    ensures LostCount(s) == |set i | 0 <= i < |s| && s[i].Lost?|
  {
    var lost := set i | 0 <= i < |s| && s[i].Lost?;
    if s != [] {
      var m := |s| - 1;
      LostCountExact(s[..m]);
      var before := set i | 0 <= i < |s[..m]| && s[..m][i].Lost?;
      assert lost == if s[m].Lost? then before + {m} else before;
    }
  }

  // How many slots are due for a report of the number.
  function DueSlots(s: Slots, now: int, rtt: int, n: SeqNumber): nat {
    if s == [] then 0
    else
      var p := s[|s| - 1];
      DueSlots(s[..|s| - 1], now, rtt, n) +
      (if p.Lost? && p.lostNumber == n && p.feedbackTime + Signed32(rtt * p.k) < now then 1 else 0)
  }

  /** Dropping and reporting change no held slot, so the acknowledgement point stays. */
  lemma {:induction false} KeepsGaps(rx: Rx, rx': Rx, capacity: nat)
    requires WellFormed(rx, capacity)
    requires rx'.base == rx.base && |rx'.slots| == |rx.slots|
    requires forall i | 0 <= i < |rx.slots| ::
               rx'.slots[i] == rx.slots[i]
                 || (rx.slots[i].Lost? && !rx'.slots[i].Received? && rx'.slots[i].Number() == rx.slots[i].Number())
    ensures WellFormed(rx', capacity) && rx'.Lrsn() == rx.Lrsn()
    ensures forall i :: rx'.HasReceived(i) <==> rx.HasReceived(i)
  {
    GapUnique(rx'.slots, FirstGap(rx.slots));
  }
}
