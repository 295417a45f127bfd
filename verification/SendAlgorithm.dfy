/** The sending algorithm of section 6.1 of draft-gg-udt-03, run once per SND event. */
module SendAlgorithms {
  import opened SeqNumbers
  import opened Packets
  import opened SendModel
  import opened SendBuffers

  datatype SenderAction =
    | Send(packet: DataPacket)
    | RetransmitRto(packet: DataPacket)
    | RetransmitNak(packet: DataPacket)
    | Drop(first: SeqNumber, end: SeqNumber)
    | WaitForInput
    | WaitForAck(unacked: int)

  /** The action tells the caller what the turn did. */
  ghost predicate Reports(tx: Tx, window: nat, step: TxStep, a: SenderAction) {
    match step
    case SendNew => Packet(tx, step) != [] && a == Send(Packet(tx, step)[0])
    case SendProbe => Packet(tx, step) != [] && a == Send(Packet(tx, step)[0])
    case ResendLost(_) => Packet(tx, step) != [] && a == RetransmitNak(Packet(tx, step)[0])
    case ResendDue(_) => Packet(tx, step) != [] && a == RetransmitRto(Packet(tx, step)[0])
    case GiveUp(c) => a == Drop(Wire(tx.base), Wire(tx.base + c))
    case Flush => Packet(tx, step) != [] && a == Send(Packet(tx, step)[0])
    case Idle => a == if window < tx.Unacked() then WaitForAck(tx.Unacked()) else WaitForInput
  }

  /** What stays the same during one SND event. */
  datatype Conditions = Conditions(window: nat, drain: bool, now: TimeStamp, latencyWindow: U32, rtt: Rtt)

  /** The buffer, the retransmission queue, how many more packets may be sent, and whether
      a new packet was just sent. */
  datatype Sending = Sending(tx: Tx, queue: RtoQueue, budget: nat, probe: bool)

  predicate FrontIsLate(c: Conditions, tx: Tx) {
    tx.entries != [] && LateTest(c.now, c.latencyWindow)(tx.entries[0].packet)
  }

  /** Nothing is late, lost or due, and no packet can be sent: the window is full, or there
      is no next packet and none is to be flushed. */
  ghost predicate NothingToDo(c: Conditions, tx: Tx, queue: RtoQueue) {
    && !FrontIsLate(c, tx) && tx.lost == {} && RtoPicks(queue, tx, c.now, None)
    && (c.window < tx.Unacked() || (!Buffered(tx, Wire(tx.next)) && !(c.drain && |tx.entries| == 1)))
  }

  predicate ProbeIsNext(s: Sending) {
    s.probe && Buffered(s.tx, Wire(s.tx.next)) && Wire(s.tx.next) % 16 == 0
  }

  /** Which step comes next: the probe, then what is too late, then lost packets in order,
      then the packet whose timer ran out, then new packets within the flow window. */
  ghost predicate Chosen(c: Conditions, s: Sending, step: TxStep) {
    if ProbeIsNext(s) then step == SendProbe
    else if s.budget == 0 then step == Idle
    else if FrontIsLate(c, s.tx) then
      step == GiveUp(DropScan(s.tx.entries, s.tx.entries[0].packet.messageNumber, LateTest(c.now, c.latencyWindow)))
    else if s.tx.lost != {} then step.ResendLost?
    else if step.ResendDue? then RtoPicks(s.queue, s.tx, c.now, Some(step.due))
    else
      && RtoPicks(s.queue, s.tx, c.now, None)
      && step == if c.window < s.tx.Unacked() then Idle
                 else if Buffered(s.tx, Wire(s.tx.next)) then SendNew
                 else if c.drain && |s.tx.entries| == 1 then Flush
                 else Idle
  }

  /** What could be done in a state, leaving aside what is more urgent. */
  ghost predicate Possible(c: Conditions, s: Sending, step: TxStep) {
    match step
    case SendProbe => s.probe && Buffered(s.tx, Wire(s.tx.next)) && Wire(s.tx.next) % 16 == 0
    case GiveUp(n) => 0 < s.budget && s.tx.entries != [] && LateTest(c.now, c.latencyWindow)(s.tx.entries[0].packet)
    case ResendLost(l) => 0 < s.budget && l in s.tx.lost && forall k | k in s.tx.lost :: l <= k
    case ResendDue(n) =>
      && 0 < s.budget && s.tx.base <= n < s.tx.End() && IsTop(s.queue, Wire(n)) && Before(s.queue[Wire(n)], c.now)
    case SendNew => 0 < s.budget && Buffered(s.tx, Wire(s.tx.next)) && s.tx.Unacked() <= c.window
    case Flush => 0 < s.budget && c.drain && |s.tx.entries| == 1 && s.tx.Unacked() <= c.window
    case Idle => true
  }

  // The smaller, the more urgent.
  function Urgency(step: TxStep): nat {
    match step
    case SendProbe => 0
    case GiveUp(_) => 1
    case ResendLost(_) => 2
    case ResendDue(_) => 3
    case SendNew => 4
    case Flush => 5
    case Idle => 6
  }

  /** What is chosen is possible, and nothing possible is more urgent. */
  lemma {:induction false} MostUrgentFirst(c: Conditions, s: Sending, step: TxStep, other: TxStep)
    requires Numbered(s.tx) && Ordered(s.queue) && Enabled(s.tx, c.window, s.probe, step) && Chosen(c, s, step)
    ensures Possible(c, s, step)
    ensures Possible(c, s, other) ==> Urgency(step) <= Urgency(other)
  {
    if step.ResendDue? {
      var k := OrderedHasTop(s.queue);
    }
    if other.ResendDue? && s.tx.base <= other.due < s.tx.End() {
      WireDistance(other.due, s.tx.base);
    }
    hide Wire, LateTest, Before, Sooner, Ordered, Distance;
  }

  /** Where the source stops: the first lost number is next, and it is not buffered. */
  ghost predicate Stuck(c: Conditions, s: Sending) {
    && !ProbeIsNext(s) && 0 < s.budget && !FrontIsLate(c, s.tx)
    && exists l | l in s.tx.lost :: s.tx.End() <= l && forall k | k in s.tx.lost :: l <= k
  }

  /** Nothing to do is nothing possible but to wait. */
  lemma {:induction false} NothingIsPossible(c: Conditions, tx: Tx, queue: RtoQueue)
    requires Numbered(tx)
    ensures NothingToDo(c, tx, queue) <==>
            forall step :: Possible(c, Sending(tx, queue, 1, false), step) ==> step == Idle
  {
    var s := Sending(tx, queue, 1, false);
    if NothingToDo(c, tx, queue) {
      forall step | Possible(c, s, step) ensures step == Idle {
        if step.ResendDue? { WireDistance(step.due, tx.base); }
        hide Wire, LateTest, Before, Sooner, Distance;
      }
    } else {
      hide Wire, LateTest, Before, Sooner, Distance;
      var step := SomethingToDo(c, tx, queue);
    }
  }

  lemma {:induction false} FoundAt(tx: Tx, k: SeqNumber)
    requires Buffered(tx, k)
    ensures tx.base <= PositionOf(tx, k) < tx.End() && Wire(PositionOf(tx, k)) == k
  {
    hide Wire, Distance;
    WireAt(k, tx.base);
  }

  lemma {:induction false} SomethingToDo(c: Conditions, tx: Tx, queue: RtoQueue) returns (step: TxStep)
    requires Numbered(tx) && !NothingToDo(c, tx, queue)
    ensures step != Idle && Possible(c, Sending(tx, queue, 1, false), step)
  {
    hide Wire, LateTest, Before, Sooner, Distance, PositionOf;
    if FrontIsLate(c, tx) {
      step := GiveUp(0);
    } else if tx.lost != {} {
      var l := LeastExists(tx.lost);
      step := ResendLost(l);
    } else if !RtoPicks(queue, tx, c.now, None) {
      var k :| IsTop(queue, k) && Before(queue[k], c.now) && Buffered(tx, k);
      FoundAt(tx, k);
      step := ResendDue(PositionOf(tx, k));
    } else if Buffered(tx, Wire(tx.next)) {
      step := SendNew;
    } else {
      step := Flush;
    }
  }

  /** In every state with an ordered queue there is a next step, or the source stops, and
      never both. */
  lemma {:induction false} NextStepExists(c: Conditions, s: Sending) returns (step: TxStep)
    requires Tracked(s.tx) && Ordered(s.queue)
    ensures Stuck(c, s) || (Enabled(s.tx, c.window, s.probe, step) && Chosen(c, s, step))
    ensures Stuck(c, s) ==> forall other :: !(Enabled(s.tx, c.window, s.probe, other) && Chosen(c, s, other))
  {
    hide Wire, LateTest, Before, Sooner, Ordered, Distance;
    step := Idle;
    if ProbeIsNext(s) {
      step := SendProbe;
    } else if s.budget != 0 && FrontIsLate(c, s.tx) {
      step := GiveUp(DropScan(s.tx.entries, s.tx.entries[0].packet.messageNumber, LateTest(c.now, c.latencyWindow)));
    } else if s.budget != 0 && s.tx.lost != {} {
      var l := LeastExists(s.tx.lost);
      step := ResendLost(l);
    } else if s.budget != 0 {
      step := UnlostStep(c, s);
    }
  }

  lemma {:induction false} UnlostStep(c: Conditions, s: Sending) returns (step: TxStep)
    requires Numbered(s.tx) && Ordered(s.queue) && s.tx.lost == {}
    requires !ProbeIsNext(s) && s.budget != 0 && !FrontIsLate(c, s.tx)
    ensures Enabled(s.tx, c.window, s.probe, step) && Chosen(c, s, step)
  {
    hide Wire, LateTest, Before, Sooner, Ordered, Distance, PositionOf;
    if RtoPicks(s.queue, s.tx, c.now, None) {
      step := if c.window < s.tx.Unacked() then Idle
              else if Buffered(s.tx, Wire(s.tx.next)) then SendNew
              else if c.drain && |s.tx.entries| == 1 then Flush
              else Idle;
    } else {
      var k :| IsTop(s.queue, k) && Before(s.queue[k], c.now) && Buffered(s.tx, k);
      FoundAt(s.tx, k);
      var top := OrderedHasTop(s.queue);
      step := ResendDue(PositionOf(s.tx, k));
    }
  }

  /** It never is while the buffer is in order. */
  lemma {:induction false} NeverStuckInOrder(c: Conditions, s: Sending)
    requires TxInv(s.tx)
    ensures !Stuck(c, s)
  {
    hide Wire, LateTest;
  }

  /** The smallest failing case: room for one packet, two pushed and none sent, and a report
      of 2^30. */
  lemma {:induction false} StuckExample(c: Conditions, e: SendBufferEntry, p: DataPacket, queue: RtoQueue, budget: nat)
    requires e.packet.seqNumber == 0 && p.seqNumber == 1 && 0 < budget
    requires !LateTest(c.now, c.latencyWindow)(p)
    ensures var tx := AddLosses(Push(Tx(0, [e], 0, {}), 1, p), [MAX_DIFF]);
            Tracked(tx) && Stuck(c, Sending(tx, queue, budget, false))
  {
    EvictingUnsentBreaks(e, p);
    var e' := SendBufferEntry(p, 0);
    var tx := Tx(1, [e'], 0, {});
    OvertakenSenderAddsUnbuffered(e');
    AddLossesExact(tx, [MAX_DIFF]);
    assert [MAX_DIFF][..0] == [] && AddLosses(tx, []) == tx;
    var tx' := AddLosses(tx, [MAX_DIFF]);
    assert tx' == AddLoss(tx, MAX_DIFF) && Nearest(MAX_DIFF, 1) == MAX_DIFF;
    assert tx'.lost == {MAX_DIFF};
    assert MAX_DIFF in tx'.lost;
  }

  /** What a step does: waiting uses up the budget, every transmission one of it, and each
      transmission but the last flush sets a timer. */
  ghost function After(c: Conditions, s: Sending, step: TxStep): Sending
    requires Enabled(s.tx, c.window, s.probe, step)
  {
    var n := Transmits(s.tx, step);
    Sending(
      Apply(s.tx, c.window, s.probe, step),
      if step == Flush then s.queue - {Wire(s.tx.base)}
      else if n.Some? then TimerSet(s.queue, c.now, c.rtt, s.tx, n.value)
      else s.queue,
      if step == Idle then 0 else if n.Some? && 0 < s.budget then s.budget - 1 else s.budget,
      step == SendNew)
  }

  class SenderAlgorithmIterator {
    const buffer: SendBuffer
    const now: TimeStamp
    const shouldDrain: bool
    var packetsToSend: nat
    var attempt16nPacket: bool

    ghost predicate Valid()
      reads this, buffer
    {
      buffer.Counted()
    }

    constructor (buffer: SendBuffer, now: TimeStamp, packetsToSend: nat, shouldDrain: bool)
      requires buffer.Counted()
      ensures Valid() && this.buffer == buffer && this.packetsToSend == packetsToSend && !attempt16nPacket
      ensures this.now == now && this.shouldDrain == shouldDrain
    {
      this.buffer, this.now, this.shouldDrain := buffer, now, shouldDrain;
      this.packetsToSend, attempt16nPacket := packetsToSend, false;
    }

    ghost function Given(): Conditions
      reads buffer
    {
      Conditions(buffer.flowWindowSize, shouldDrain, now, buffer.latencyWindow, buffer.rtt)
    }

    ghost function State(): Sending
      reads this, buffer
    {
      Sending(buffer.tx, buffer.rtoQueue, packetsToSend, attempt16nPacket)
    }

    /** What the iterator leaves alone. */
    twostate predicate Frame()
      reads this, buffer
    {
      buffer.rtt == old(buffer.rtt) && buffer.nextFullAck == old(buffer.nextFullAck)
    }

    /** What one call of `Next` did. */
    twostate predicate Turned(step: TxStep)
      reads this, buffer
    {
      && Enabled(old(buffer.tx), buffer.flowWindowSize, old(attempt16nPacket), step)
      && Chosen(Given(), old(State()), step)
      && State() == After(Given(), old(State()), step)
    }

    /** One turn; the source may stop. */
    method Next() returns (r: Option<SenderAction>, stops: bool, ghost step: TxStep)
      requires Valid()
      modifies this, buffer
      ensures Valid() && Frame() && (stops <==> Stuck(Given(), old(State())))
      ensures !stops ==> Turned(step)
      ensures r.None? ==> step == Idle
      ensures r.Some? ==> !stops && Reports(old(buffer.tx), buffer.flowWindowSize, step, r.value)
    {
      hide Wire, LateTest, RtoPicks, DropScan, TimerSet, KeepFrom, SumBytes, Tracked;
      stops, step := false, Idle;
      if attempt16nPacket {
        var probe := Probe();
        if probe.Some? { return Some(Send(probe.value)), false, SendProbe; }
      }
      if packetsToSend == 0 { return None, false, Idle; }
      r, stops, step := Turn();
    }

    // The next packet goes out right after a new one if its number is a multiple of 16.
    method Probe() returns (r: Option<DataPacket>)
      requires Valid() && attempt16nPacket
      modifies this, buffer
      ensures Valid() && Frame()
      ensures r.Some? <==> ProbeIsNext(old(State()))
      ensures r.Some? ==> Turned(SendProbe) && Reports(old(buffer.tx), buffer.flowWindowSize, SendProbe, Send(r.value))
      ensures r.None? ==> State() == old(State()).(probe := false)
    {
      hide Wire, LateTest, RtoPicks, DropScan, TimerSet, KeepFrom, SumBytes;
      attempt16nPacket := false;
      r := buffer.SendNext16nPacket(now);
      if r.Some? {
        packetsToSend := if packetsToSend == 0 then 0 else packetsToSend - 1;
      }
    }

    method Turn() returns (r: Option<SenderAction>, stops: bool, ghost step: TxStep)
      requires Valid() && packetsToSend > 0 && !attempt16nPacket
      modifies this, buffer
      ensures Valid() && Frame() && (stops <==> Stuck(Given(), old(State())))
      ensures stops ==> r.None? && step == Idle
      ensures !stops ==> Turned(step) && r.Some? && Reports(old(buffer.tx), buffer.flowWindowSize, step, r.value)
    {
      hide Wire, KeepFrom, Tracked, DropScan, SumBytes, LateTest, RtoPicks, Deadline, RtoSpan;
      stops, step := false, Idle;
      var late, c := buffer.DropTooLatePackets(now);
      if late.Some? {
        return Some(Drop(late.value.0, late.value.1)), false, GiveUp(c);
      }
      r, stops, step := Resend();
    }

    method Resend() returns (r: Option<SenderAction>, stops: bool, ghost step: TxStep)
      requires Valid() && packetsToSend > 0 && !attempt16nPacket && !FrontIsLate(Given(), buffer.tx)
      modifies this, buffer
      ensures Valid() && Frame() && (stops <==> Stuck(Given(), old(State())))
      ensures stops ==> r.None? && step == Idle
      ensures !stops ==> Turned(step) && r.Some? && Reports(old(buffer.tx), buffer.flowWindowSize, step, r.value)
    {
      hide Wire, KeepFrom, Tracked, LateTest, SumBytes, DropScan, TimerSet, IsTop, Buffered;
      r, stops, step := None, false, Idle;
      var lost, stopped, l := buffer.SendNextLostPacket(now);
      if stopped { return None, true, Idle; }
      if lost.Some? {
        packetsToSend := packetsToSend - 1;
        return Some(RetransmitNak(lost.value)), false, ResendLost(l);
      }
      r, step := Expire();
    }

    // No lost packet: one whose timer ran out.
    method Expire() returns (r: Option<SenderAction>, ghost step: TxStep)
      requires Valid() && packetsToSend > 0 && !attempt16nPacket
      requires !FrontIsLate(Given(), buffer.tx) && buffer.tx.lost == {}
      modifies this, buffer
      ensures Valid() && Frame() && Turned(step)
      ensures r.Some? && Reports(old(buffer.tx), buffer.flowWindowSize, step, r.value)
    {
      hide Wire, KeepFrom, Tracked, LateTest, SumBytes, DropScan, TimerSet, IsTop, Buffered;
      step := Idle;
      var expired, due := buffer.SendNextRtoPacket(now);
      if expired.Some? {
        packetsToSend := packetsToSend - 1;
        return Some(RetransmitRto(expired.value)), ResendDue(due.value);
      }
      r, step := SendFresh();
    }

    // No packet to send again: a new one, if the flow window allows it.
    method SendFresh() returns (r: Option<SenderAction>, ghost step: TxStep)
      requires Valid() && packetsToSend > 0 && !attempt16nPacket
      requires !FrontIsLate(Given(), buffer.tx) && buffer.tx.lost == {}
      requires RtoPicks(buffer.rtoQueue, buffer.tx, now, None)
      modifies this, buffer
      ensures Valid() && Frame() && Turned(step)
      ensures r.Some? && Reports(old(buffer.tx), buffer.flowWindowSize, step, r.value)
    {
      hide Wire, Distance, KeepFrom, LateTest, SumBytes, RtoPicks, DropScan, TimerSet;
      step := Idle;
      var unacked := NumberOfUnackedPackets();
      if unacked > buffer.flowWindowSize {
        packetsToSend := 0;
        return Some(WaitForAck(unacked)), step;
      }
      var packet := buffer.SendNextPacket(now);
      if packet.Some? {
        attempt16nPacket := true;
        packetsToSend := packetsToSend - 1;
        return Some(Send(packet.value)), SendNew;
      }
      var flushed := buffer.FlushOnClose(shouldDrain);
      if flushed.Some? {
        packetsToSend := packetsToSend - 1;
        return Some(Send(flushed.value)), Flush;
      }
      packetsToSend := 0;
      return Some(WaitForInput), step;
    }

    method NumberOfUnackedPackets() returns (n: int)
      requires Valid()
      ensures n == buffer.tx.Unacked()
    {
      hide Wire, Distance, SumBytes;
      if buffer.buffer == [] { return 0; }
      assert buffer.buffer[0].packet.seqNumber == Wire(buffer.tx.base + 0);
      n := Distance(buffer.nextSend, buffer.buffer[0].packet.seqNumber);
    }
  }

  /** The state after some steps and what they transmitted; None unless each of them was
      the step to take. */
  ghost function Run(c: Conditions, s: Sending, steps: seq<TxStep>): Option<(Sending, seq<DataPacket>)> {
    if steps == [] then Some((s, []))
    else
      var before := Run(c, s, steps[..|steps| - 1]);
      var step := steps[|steps| - 1];
      if before.Some? && Takes(c, before.value.0, step)
      then Some((After(c, before.value.0, step), before.value.1 + Packet(before.value.0.tx, step)))
      else None
  }

  ghost predicate Takes(c: Conditions, s: Sending, step: TxStep) {
    Enabled(s.tx, c.window, s.probe, step) && Chosen(c, s, step)
  }

  ghost function Packet(tx: Tx, step: TxStep): seq<DataPacket> {
    var n := Transmits(tx, step);
    if n.Some? && tx.base <= n.value < tx.End() then [tx.entries[n.value - tx.base].packet] else []
  }

  lemma {:induction false} RunStep(c: Conditions, s: Sending, steps: seq<TxStep>, step: TxStep)
    requires var r := Run(c, s, steps); r.Some? && Takes(c, r.value.0, step)
    ensures var (t, sent) := Run(c, s, steps).value;
            Run(c, s, steps + [step]) == Some((After(c, t, step), sent + Packet(t.tx, step)))
  {
    hide Enabled, Chosen, After, Packet;
    assert (steps + [step])[..|steps|] == steps;
  }

  lemma {:induction false} NothingRun(c: Conditions, s: Sending)
    ensures Run(c, s, []) == Some((s, []))
  {
  }

  /** What a run of steps keeps in any state: the numbering, and every packet that stays;
      and everything transmitted is a packet of the buffer it started with. */
  lemma {:induction false} RunKeeps(c: Conditions, s: Sending, steps: seq<TxStep>)
    requires Tracked(s.tx) && Run(c, s, steps).Some?
    ensures var (t, sent) := Run(c, s, steps).value;
            && Tracked(t.tx) && SameStream(s.tx, t.tx)
            && forall p | p in sent :: InBuffer(s.tx, p)
  {
    hide Tracked, After, SameStream, Takes, Packet, InBuffer;
    if steps == [] {
      SameIsSame(s.tx);
    } else {
      var before, step := steps[..|steps| - 1], steps[|steps| - 1];
      RunKeeps(c, s, before);
      StepKeeps(s.tx, c, Run(c, s, before).value.0, step);
    }
  }

  // How often a number was transmitted.
  function Times(sent: seq<DataPacket>, k: SeqNumber): nat {
    if sent == [] then 0
    else Times(sent[..|sent| - 1], k) + if sent[|sent| - 1].seqNumber == k then 1 else 0
  }

  lemma {:induction false} TimesNext(sent: seq<DataPacket>, ps: seq<DataPacket>, k: SeqNumber)
    requires |ps| <= 1
    ensures Times(sent + ps, k) == Times(sent, k) + if |ps| == 1 && ps[0].seqNumber == k then 1 else 0
  {
    if ps == [] {
      assert sent + ps == sent;
    } else {
      assert (sent + ps)[..|sent|] == sent;
    }
  }

  /** Over a run of steps, each packet that stays was transmitted as often as its count says,
      and is marked if it was transmitted at all. */
  lemma {:induction false} RunCountsEach(c: Conditions, s: Sending, steps: seq<TxStep>, n: int)
    requires Tracked(s.tx) && Run(c, s, steps).Some?
    requires var t := Run(c, s, steps).value.0; t.tx.base <= n < t.tx.End()
    ensures var (t, sent) := Run(c, s, steps).value;
            && s.tx.base <= t.tx.base && t.tx.End() == s.tx.End()
            && var e, e' := s.tx.entries[n - s.tx.base], t.tx.entries[n - t.tx.base];
               && e'.transmitCount == e.transmitCount + Times(sent, Wire(n))
               && (e'.packet.retransmitted <==> e.packet.retransmitted || 0 < Times(sent, Wire(n)))
  {
    hide Tracked, After, Takes, Packet, Wire;
    if steps != [] {
      var before, step := steps[..|steps| - 1], steps[|steps| - 1];
      var (u, sent) := Run(c, s, before).value;
      RunKeeps(c, s, before);
      StepCountsEach(c, u, step, n);
      RunCountsEach(c, s, before, n);
      TimesNext(sent, Packet(u.tx, step), Wire(n));
    }
  }

  lemma {:induction false} StepCountsEach(c: Conditions, s: Sending, step: TxStep, n: int)
    requires Tracked(s.tx) && Takes(c, s, step)
    requires var t := After(c, s, step); t.tx.base <= n < t.tx.End()
    ensures var t, ps := After(c, s, step), Packet(s.tx, step);
            && s.tx.base <= t.tx.base && t.tx.End() == s.tx.End() && |ps| <= 1
            && var e, e' := s.tx.entries[n - s.tx.base], t.tx.entries[n - t.tx.base];
               if |ps| == 1 && ps[0].seqNumber == Wire(n)
               then e'.packet.retransmitted && e'.transmitCount == e.transmitCount + 1
               else e' == e
  {
    StepSafe(s.tx, c.window, s.probe, step);
    TransmissionIsCounted(s.tx, c.window, s.probe, step, n);
    var m := Transmits(s.tx, step);
    if m.Some? {
      WireDistance(n, s.tx.base);
      WireDistance(m.value, s.tx.base);
    }
    hide Chosen, Enabled, SendModel.Apply, Wire, Distance, TimerSet, Transmits;
  }

  /** And in order, the order and the flow bound. */
  lemma {:induction false} RunInOrder(c: Conditions, s: Sending, steps: seq<TxStep>)
    requires TxInv(s.tx) && FlowInv(s.tx, c.window, s.probe) && Run(c, s, steps).Some?
    ensures var t := Run(c, s, steps).value.0; TxInv(t.tx) && FlowInv(t.tx, c.window, t.probe)
  {
    hide TxInv, FlowInv, After, Takes, Packet;
    if steps != [] {
      var before, step := steps[..|steps| - 1], steps[|steps| - 1];
      RunInOrder(c, s, before);
      TakenInOrder(c, Run(c, s, before).value.0, step);
    }
  }

  lemma {:induction false} TakenInOrder(c: Conditions, s: Sending, step: TxStep)
    requires TxInv(s.tx) && FlowInv(s.tx, c.window, s.probe) && Takes(c, s, step)
    ensures var s' := After(c, s, step); TxInv(s'.tx) && FlowInv(s'.tx, c.window, s'.probe)
  {
    hide Chosen, Enabled, Apply, TxInv, FlowInv;
    StepInOrder(s.tx, c.window, s.probe, step);
  }

  /** How far a run of steps gets. It is as many packets ahead as it used up its budget; or
      it sent one more, whose number is a multiple of 16; or it fell short, and then there
      is nothing left to do. */
  lemma {:induction false} RunCounts(c: Conditions, s: Sending, steps: seq<TxStep>)
    requires Tracked(s.tx) && Run(c, s, steps).Some?
    ensures var (t, sent) := Run(c, s, steps).value;
            || |sent| + t.budget == s.budget
            || (t.budget == 0 && !t.probe && |sent| == s.budget + 1 && sent[s.budget].seqNumber % 16 == 0)
            || (t.budget == 0 && !t.probe && |sent| < s.budget && NothingToDo(c, t.tx, t.queue))
  {
    hide Tracked, After, Takes, Packet, NothingToDo;
    if steps != [] {
      var before, step := steps[..|steps| - 1], steps[|steps| - 1];
      RunCounts(c, s, before);
      RunKeeps(c, s, before);
      var t := Run(c, s, before).value.0;
      Progress(c, t, step);
      if t.budget == 0 && !t.probe { HaltedIsIdle(c, t, step); }
    }
  }

  lemma {:induction false} HaltedIsIdle(c: Conditions, s: Sending, step: TxStep)
    requires Takes(c, s, step) && s.budget == 0 && !s.probe
    ensures step == Idle
  {
  }

  /** One SND event, in any state: takes the steps that come next and sends what they
      transmit. It stops short of the periods that elapsed only if there is nothing to do,
      or where the source stops, and sends at most one packet more, whose number is then a
      multiple of 16. */
  method OnSndEvent(buffer: SendBuffer, now: TimeStamp, elapsedPeriods: nat, shouldDrain: bool)
    returns (sent: seq<DataPacket>, ok: bool, ghost steps: seq<TxStep>, ghost end: Sending)
    requires buffer.Counted()
    modifies buffer
    ensures buffer.Counted() && buffer.rtt == old(buffer.rtt) && buffer.nextFullAck == old(buffer.nextFullAck)
    ensures var c := Conditions(buffer.flowWindowSize, shouldDrain, now, buffer.latencyWindow, buffer.rtt);
            && Run(c, Sending(old(buffer.tx), old(buffer.rtoQueue), elapsedPeriods, false), steps) == Some((end, sent))
            && (ok ==> end == Sending(buffer.tx, buffer.rtoQueue, 0, false))
            && (ok && |sent| < elapsedPeriods ==> NothingToDo(c, buffer.tx, buffer.rtoQueue))
            && (!ok ==> Stuck(c, end))
    ensures |sent| <= elapsedPeriods + 1
    ensures |sent| == elapsedPeriods + 1 ==> sent[elapsedPeriods].seqNumber % 16 == 0
    ensures SameStream(old(buffer.tx), end.tx) && forall p | p in sent :: InBuffer(old(buffer.tx), p)
    ensures TxInv(old(buffer.tx)) && FlowInv(old(buffer.tx), buffer.flowWindowSize, false) ==>
              ok && TxInv(buffer.tx) && FlowInv(buffer.tx, buffer.flowWindowSize, false)
  {
    hide Wire, KeepFrom, RtoPicks, LateTest, DropScan, SumBytes, InBuffer, Run, After, SameStream, NothingToDo;
    hide TxInv, FlowInv, Stuck;
    var it := new SenderAlgorithmIterator(buffer, now, elapsedPeriods, shouldDrain);
    ghost var start := it.State();
    sent, ok, steps, end := RunToEnd(it);
    RunKeeps(it.Given(), start, steps);
    RunCounts(it.Given(), start, steps);
    if TxInv(start.tx) && FlowInv(start.tx, buffer.flowWindowSize, false) {
      RunInOrder(it.Given(), start, steps);
      NeverStuckInOrder(it.Given(), end);
    }
  }

  // Calls `Next` until it returns nothing or a reason to wait.
  method RunToEnd(it: SenderAlgorithmIterator)
    returns (sent: seq<DataPacket>, ok: bool, ghost steps: seq<TxStep>, ghost end: Sending)
    requires it.Valid()
    modifies it, it.buffer
    ensures it.Valid() && it.buffer.rtt == old(it.buffer.rtt) && it.buffer.nextFullAck == old(it.buffer.nextFullAck)
    ensures Run(it.Given(), old(it.State()), steps) == Some((end, sent))
    ensures ok ==> end == it.State() && end.budget == 0 && !end.probe
    ensures !ok ==> Stuck(it.Given(), end)
  {
    hide Wire, KeepFrom, Run, After, RtoPicks, LateTest, DropScan, SumBytes, Stuck;
    sent, ok, steps := [], true, [];
    ghost var start := it.State();
    end := start;
    NothingRun(it.Given(), start);
    while true
      invariant it.Valid()
      invariant it.buffer.rtt == old(it.buffer.rtt) && it.buffer.nextFullAck == old(it.buffer.nextFullAck)
      invariant ok && end == it.State() && Run(it.Given(), start, steps) == Some((end, sent))
      decreases it.packetsToSend, it.attempt16nPacket, |it.buffer.buffer|
    {
      ghost var s := it.State();
      var action, stops, step := it.Next();
      if stops {
        ok := false;
        return;
      }
      RunStep(it.Given(), start, steps, step);
      Progress(it.Given(), s, step);
      steps, end := steps + [step], it.State();
      assert sent + [] == sent;
      match action {
        case None => return;
        case Some(Send(p)) => sent := sent + [p];
        case Some(RetransmitNak(p)) => sent := sent + [p];
        case Some(RetransmitRto(p)) => sent := sent + [p];
        case Some(Drop(_, _)) =>
        case Some(WaitForInput) => return;
        case Some(WaitForAck(_)) => return;
      }
    }
  }

  /** What a step leaves for the next one. */
  lemma {:induction false} Progress(c: Conditions, s: Sending, step: TxStep)
    requires Takes(c, s, step) && Tracked(s.tx)
    ensures var s' := After(c, s, step);
            && (step == Idle ==>
                  s'.tx == s.tx && s'.queue == s.queue && s'.budget == 0 && !s'.probe && Packet(s.tx, step) == [])
            && (step == Idle && 0 < s.budget ==> NothingToDo(c, s.tx, s.queue))
            && (step.GiveUp? ==>
                  && s'.budget == s.budget && !s'.probe
                  && |s'.tx.entries| < |s.tx.entries| && Packet(s.tx, step) == [])
            && (Transmits(s.tx, step).Some? ==>
                  && |Packet(s.tx, step)| == 1
                  && s'.budget == (if s.budget == 0 then 0 else s.budget - 1)
                  && (s.budget == 0 ==> s.probe && !s'.probe && Packet(s.tx, step)[0].seqNumber % 16 == 0))
  {
    hide RtoPicks, LateTest, DropScan;
    if step == SendProbe {
      var n := PositionOf(s.tx, Wire(s.tx.next));
      WireAt(Wire(s.tx.next), s.tx.base);
      assert s.tx.entries[n - s.tx.base].packet.seqNumber == Wire(s.tx.base + (n - s.tx.base));
    }
    hide Wire, TimerSet, KeepFrom;
  }

  /** The same packets, less some from the front. */
  ghost predicate SameStream(tx: Tx, tx': Tx) {
    && tx'.End() == tx.End() && tx.base <= tx'.base
    && forall n | tx'.base <= n < tx'.End() :: tx'.At(n) == tx.At(n)
  }

  lemma {:induction false} SameIsSame(tx: Tx)
    ensures SameStream(tx, tx)
  {
  }

  /** The packet is in the buffer, but for its retransmission mark. */
  ghost predicate InBuffer(tx: Tx, p: DataPacket) {
    exists n | tx.base <= n < tx.End() :: p.Content() == tx.At(n)
  }

  lemma {:induction false} StepKeeps(tx: Tx, c: Conditions, s: Sending, step: TxStep)
    requires Tracked(s.tx) && Takes(c, s, step) && SameStream(tx, s.tx)
    ensures var s' := After(c, s, step);
            && Tracked(s'.tx) && SameStream(tx, s'.tx)
            && forall p | p in Packet(s.tx, step) :: InBuffer(tx, p)
  {
    StepSafe(s.tx, c.window, s.probe, step);
    hide Chosen, Enabled, Apply, Tracked;
    var tx' := After(c, s, step).tx;
    forall n | tx'.base <= n < tx'.End() ensures tx'.At(n) == tx.At(n) {
      assert tx'.At(n) == s.tx.At(n);
    }
    forall p | p in Packet(s.tx, step) ensures InBuffer(tx, p) {
      var n := Transmits(s.tx, step).value;
      assert p.Content() == s.tx.At(n) == tx.At(n);
    }
  }

  // ---- A queue that is blocked ----

  /** Strictly later on the wrapping clock, and by less than half of it. */
  predicate After32(a: TimeStamp, b: TimeStamp) {
    Before(a, b) && !Before(b, a)
  }

  /** Every timer that these steps set runs out later than this. */
  ghost predicate TimersLater(c: Conditions, s: Sending, steps: seq<TxStep>, deadline: TimeStamp) {
    steps != [] ==>
      var before, step := steps[..|steps| - 1], steps[|steps| - 1];
      var r := Run(c, s, before);
      && TimersLater(c, s, before, deadline)
      && (r.Some? ==> TimerLater(c, r.value.0, step, deadline))
  }

  ghost predicate TimerLater(c: Conditions, s: Sending, step: TxStep, deadline: TimeStamp) {
    var n := Transmits(s.tx, step);
    step != Flush && n.Some? && s.tx.base <= n.value < s.tx.End() ==>
      After32(deadline, Deadline(c.now, RtoSpan(c.rtt, s.tx.entries[n.value - s.tx.base].transmitCount)))
  }

  /** An entry on top whose packet is gone stays there and keeps every other packet from
      being resent by its timer, as long as the timers that are set run out later. */
  lemma {:induction false} StaleTopStays(c: Conditions, s: Sending, steps: seq<TxStep>, k: SeqNumber)
    requires Tracked(s.tx) && Run(c, s, steps).Some?
    requires IsTop(s.queue, k) && Outside(k, s.tx.base, s.tx.End()) && TimersLater(c, s, steps, s.queue[k])
    ensures var t := Run(c, s, steps).value.0;
            IsTop(t.queue, k) && t.queue[k] == s.queue[k] && forall step | step in steps :: !step.ResendDue?
  {
    hide Tracked, Takes, After, Packet, IsTop, Outside, SameStream, TimerLater, InBuffer;
    if steps != [] {
      var before, step := steps[..|steps| - 1], steps[|steps| - 1];
      StaleTopStays(c, s, before, k);
      RunKeeps(c, s, before);
      var t := Run(c, s, before).value.0;
      Shrinks(s.tx, t.tx, k);
      StaleTopStep(c, t, step, k);
      assert steps == before + [step];
    }
  }

  lemma {:induction false} Shrinks(tx: Tx, tx': Tx, k: SeqNumber)
    requires SameStream(tx, tx') && Outside(k, tx.base, tx.End())
    ensures Outside(k, tx'.base, tx'.End())
  {
  }

  lemma {:induction false} StaleTopStep(c: Conditions, s: Sending, step: TxStep, k: SeqNumber)
    requires Tracked(s.tx) && Takes(c, s, step)
    requires IsTop(s.queue, k) && Outside(k, s.tx.base, s.tx.End()) && TimerLater(c, s, step, s.queue[k])
    ensures var t := After(c, s, step); IsTop(t.queue, k) && t.queue[k] == s.queue[k] && !step.ResendDue?
  {
    StaleIsNotResent(c, s, step, k);
    TransmitsFromBuffer(c, s, step, k);
    hide *;
    StaleTopQueue(c, s, step, k);
  }

  lemma {:induction false} StaleIsNotResent(c: Conditions, s: Sending, step: TxStep, k: SeqNumber)
    requires Tracked(s.tx) && Takes(c, s, step) && IsTop(s.queue, k) && Outside(k, s.tx.base, s.tx.End())
    ensures !step.ResendDue?
  {
    OutsideIsUnbuffered(s.tx, k);
    hide Wire, LateTest, DropScan, RtoPicks, IsTop, Before, Buffered, Outside;
    if step.ResendDue? { TopDecides(s.queue, s.tx, k, c.now, Some(step.due)); }
  }

  lemma {:induction false} TransmitsFromBuffer(c: Conditions, s: Sending, step: TxStep, k: SeqNumber)
    requires Tracked(s.tx) && Takes(c, s, step) && Outside(k, s.tx.base, s.tx.End())
    ensures var n := Transmits(s.tx, step);
            n.Some? ==> s.tx.base <= n.value < s.tx.End() && Wire(n.value) != k
  {
    StepSafe(s.tx, c.window, s.probe, step);
    hide Wire, Chosen, Enabled, Apply, Tracked;
  }

  lemma {:induction false} StaleTopQueue(c: Conditions, s: Sending, step: TxStep, k: SeqNumber)
    requires Enabled(s.tx, c.window, s.probe, step) && IsTop(s.queue, k) && TimerLater(c, s, step, s.queue[k])
    requires var n := Transmits(s.tx, step);
             n.Some? ==> s.tx.base <= n.value < s.tx.End() && Wire(n.value) != k
    ensures var t := After(c, s, step); IsTop(t.queue, k) && t.queue[k] == s.queue[k]
  {
    assert k in s.queue;
    hide Wire, KeepFrom, IsTop, Before, RtoSpan, Deadline, Apply, Enabled;
    var n := Transmits(s.tx, step);
    if step == Flush {
      TopStaysWithout(s.queue, k, {Wire(s.tx.base)});
    } else if n.Some? {
      TopStays(s.queue, k, Wire(n.value),
        Deadline(c.now, RtoSpan(c.rtt, s.tx.entries[n.value - s.tx.base].transmitCount)));
    }
  }

  /** How it comes to that: packets 7 and 8 are sent, 7 is too late two milliseconds on and
      is given up, and its entry stays on top of that of packet 8. */
  lemma {:induction false} StaleTopExample(c: Conditions, a: SendBufferEntry, b: SendBufferEntry)
    requires c == Conditions(10, false, 0, 1_000, Rtt(10_000, 1_000))
    requires a.transmitCount == b.transmitCount == 0 && a.packet.messageNumber != b.packet.messageNumber
    requires a.packet.seqNumber == 7 && a.packet.timestamp == 0
    requires b.packet.seqNumber == 8 && b.packet.timestamp == 5_000
    ensures var q: RtoQueue := map[7 := 34_000, 8 := 34_000];
            var sent, left := Tx(7, [a.Sent(), b.Sent()], 9, {}), Tx(8, [b.Sent()], 9, {});
            && Run(c, Sending(Tx(7, [a, b], 7, {}), map[], 2, false), [SendNew, SendNew, Idle])
               == Some((Sending(sent, q, 0, false), [a.packet, b.packet]))
            && Run(c.(now := 2_000), Sending(sent, q, 1, false), [GiveUp(1), Idle])
               == Some((Sending(left, q, 0, false), []))
            && IsTop(q, 7) && Outside(7, left.base, left.End()) && Buffered(left, 8)
  {
    ExampleSends(c, a, b);
    ExampleGivesUp(c.(now := 2_000), a.Sent(), b.Sent());
  }

  lemma {:induction false} ExampleSends(c: Conditions, a: SendBufferEntry, b: SendBufferEntry)
    requires c == Conditions(10, false, 0, 1_000, Rtt(10_000, 1_000))
    requires a.transmitCount == b.transmitCount == 0
    requires a.packet.seqNumber == 7 && a.packet.timestamp == 0 && b.packet.seqNumber == 8
    ensures Run(c, Sending(Tx(7, [a, b], 7, {}), map[], 2, false), [SendNew, SendNew, Idle])
            == Some((Sending(Tx(7, [a.Sent(), b.Sent()], 9, {}), map[7 := 34_000, 8 := 34_000], 0, false),
              [a.packet, b.packet]))
  {
    var s0 := Sending(Tx(7, [a, b], 7, {}), map[], 2, false);
    var s1 := Sending(Tx(7, [a.Sent(), b], 8, {}), map[7 := 34_000], 1, true);
    var s2 := Sending(Tx(7, [a.Sent(), b.Sent()], 9, {}), map[7 := 34_000, 8 := 34_000], 0, true);
    ExampleFirst(c, a, b);
    ExampleSecond(c, a, b);
    ExampleWaits(c, s2);
    hide Takes, After;
    NothingRun(c, s0);
    RunStep(c, s0, [], SendNew);
    RunStep(c, s0, [SendNew], SendNew);
    RunStep(c, s0, [SendNew, SendNew], Idle);
    assert [] + [SendNew] == [SendNew] && [SendNew] + [SendNew] == [SendNew, SendNew];
    assert [SendNew, SendNew] + [Idle] == [SendNew, SendNew, Idle];
    hide Run;
    assert Packet(s0.tx, SendNew) == [a.packet] && Packet(s1.tx, SendNew) == [b.packet] && Packet(s2.tx, Idle) == [];
    assert [] + [a.packet] + [b.packet] + [] == [a.packet, b.packet];
  }

  lemma {:induction false} ExampleFirst(c: Conditions, a: SendBufferEntry, b: SendBufferEntry)
    requires c == Conditions(10, false, 0, 1_000, Rtt(10_000, 1_000))
    requires a.transmitCount == 0 && a.packet.timestamp == 0
    ensures var s := Sending(Tx(7, [a, b], 7, {}), map[], 2, false);
            Takes(c, s, SendNew) && After(c, s, SendNew)
              == Sending(Tx(7, [a.Sent(), b], 8, {}), map[7 := 34_000], 1, true)
  {
  }

  lemma {:induction false} ExampleWaits(c: Conditions, s: Sending)
    requires !Buffered(s.tx, Wire(s.tx.next)) && s.budget == 0
    ensures Takes(c, s, Idle) && After(c, s, Idle) == s.(probe := false)
  {
  }

  lemma {:induction false} ExampleSecond(c: Conditions, a: SendBufferEntry, b: SendBufferEntry)
    requires c == Conditions(10, false, 0, 1_000, Rtt(10_000, 1_000))
    requires b.transmitCount == 0 && a.packet.timestamp == 0
    ensures var s := Sending(Tx(7, [a.Sent(), b], 8, {}), map[7 := 34_000], 1, true);
            && Takes(c, s, SendNew)
            && After(c, s, SendNew) == Sending(Tx(7, [a.Sent(), b.Sent()], 9, {}), map[7 := 34_000, 8 := 34_000], 0,
               true)
  {
    var q: RtoQueue := map[7 := 34_000];
    assert q[7] == 34_000 && !Before(q[7], 0);
    forall k | IsTop(q, k) ensures !(Before(q[k], c.now) && Buffered(Tx(7, [a.Sent(), b], 8, {}), k)) {
      assert k in q;
    }
  }

  lemma {:induction false} ExampleGivesUp(c: Conditions, a: SendBufferEntry, b: SendBufferEntry)
    requires c == Conditions(10, false, 2_000, 1_000, Rtt(10_000, 1_000))
    requires a.packet.messageNumber != b.packet.messageNumber
    requires a.packet.timestamp == 0 && b.packet.seqNumber == 8 && b.packet.timestamp == 5_000
    ensures var q: RtoQueue := map[7 := 34_000, 8 := 34_000];
            var left := Tx(8, [b], 9, {});
            && Run(c, Sending(Tx(7, [a, b], 9, {}), q, 1, false), [GiveUp(1), Idle])
               == Some((Sending(left, q, 0, false), []))
            && IsTop(q, 7) && Outside(7, left.base, left.End()) && Buffered(left, 8)
  {
    hide Takes, After, IsTop, Outside, Buffered, Packet, Run;
    var q: RtoQueue := map[7 := 34_000, 8 := 34_000];
    var s0, s1 := Sending(Tx(7, [a, b], 9, {}), q, 1, false), Sending(Tx(8, [b], 9, {}), q, 1, false);
    ExampleDrop(c, a, b, q);
    ExampleBlocked(c, b, q);
    NothingRun(c, s0);
    RunStep(c, s0, [], GiveUp(1));
    NothingSent(s0.tx, GiveUp(1));
    assert [] + [GiveUp(1)] == [GiveUp(1)];
    assert Run(c, s0, [GiveUp(1)]) == Some((s1, []));
    RunStep(c, s0, [GiveUp(1)], Idle);
    NothingSent(s1.tx, Idle);
    assert [GiveUp(1)] + [Idle] == [GiveUp(1), Idle];
  }

  lemma {:induction false} NothingSent(tx: Tx, step: TxStep)
    requires step.GiveUp? || step == Idle
    ensures [] + Packet(tx, step) == []
  {
  }

  lemma {:induction false} ExampleDrop(c: Conditions, a: SendBufferEntry, b: SendBufferEntry, q: RtoQueue)
    requires c == Conditions(10, false, 2_000, 1_000, Rtt(10_000, 1_000))
    requires a.packet.messageNumber != b.packet.messageNumber
    requires a.packet.timestamp == 0 && b.packet.timestamp == 5_000
    ensures var s := Sending(Tx(7, [a, b], 9, {}), q, 1, false);
            Takes(c, s, GiveUp(1)) && After(c, s, GiveUp(1)) == Sending(Tx(8, [b], 9, {}), q, 1, false)
  {
    ExampleScan(a, b);
    assert [a, b][1..] == [b] && KeepFrom({}, 8) == {};
  }

  lemma {:induction false} ExampleBlocked(c: Conditions, b: SendBufferEntry, q: RtoQueue)
    requires c == Conditions(10, false, 2_000, 1_000, Rtt(10_000, 1_000)) && b.packet.timestamp == 5_000
    requires q == map[7 := 34_000, 8 := 34_000]
    ensures var left := Tx(8, [b], 9, {});
            var s := Sending(left, q, 1, false);
            && Takes(c, s, Idle) && After(c, s, Idle) == s.(budget := 0)
            && IsTop(q, 7) && Outside(7, left.base, left.End()) && Buffered(left, 8)
  {
    var left := Tx(8, [b], 9, {});
    assert q[7] == q[8] == 34_000 && Precedes(7, 8) && !Precedes(8, 7);
    assert IsTop(q, 7);
    forall k | IsTop(q, k) ensures !(Before(q[k], c.now) && Buffered(left, k)) {
      assert k in q;
    }
  }

  lemma {:induction false} ExampleScan(a: SendBufferEntry, b: SendBufferEntry)
    requires a.packet.messageNumber != b.packet.messageNumber && a.packet.timestamp == 0 && b.packet.timestamp == 5_000
    ensures LateTest(2_000, 1_000)(a.packet) && !LateTest(2_000, 1_000)(b.packet)
    ensures DropScan([a, b], a.packet.messageNumber, LateTest(2_000, 1_000)) == 1
  {
    assert [a, b][1..] == [b];
    assert DropScan([b], a.packet.messageNumber, LateTest(2_000, 1_000)) == 0;
  }
}
