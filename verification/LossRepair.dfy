/** A packet is lost on the way, reported, and sent again: runs in which that happens still
    deliver. */
module LossRepair {
  import opened SeqNumbers
  import opened Packets
  import opened Streams
  import opened LossCompression
  import S = SendModel
  import R = ReceiveModel
  import opened Deliveries

  /** Two packets go out and only the second arrives. The receiver reports the number it
      missed, and the packet it missed is sent again. */
  function RepairSteps(n: int, p: DataPacket, q: DataPacket, now: int): seq<Step> {
    [Push, Push, Transmit(S.SendNew), Transmit(S.SendNew)] +
    [ReceiveData(n + 1, q, now), ReceiveNak(Enumerate(Wire(n), 1)), Transmit(S.ResendLost(n))] +
    [ReceiveData(n, p.(retransmitted := true), now), SendAck, ReceiveAck(n + 2)]
  }

  function Entry(p: DataPacket): S.SendBufferEntry {
    S.SendBufferEntry(p, 0)
  }

  ghost predicate NextTwo(c: Config, s: State, n: int, p: DataPacket, q: DataPacket)
    requires c.Valid()
  {
    && 0 <= n - c.src.init && n + 2 - c.src.init <= |Made(c, s)|
    && p == Made(c, s)[n - c.src.init] && q == Made(c, s)[n + 1 - c.src.init]
  }

  lemma {:induction false} PushesTwo(c: Config, s: State, n: int, p: DataPacket, q: DataPacket) returns (t: State)
    requires c.Valid() && NextTwo(c, s, n, p, q) && s.tx == S.Tx(n, [], n, {}) && 2 <= c.sendCapacity
    ensures CanStep(c, s, Push) && CanStep(c, Apply(c, s, Push), Push) && t == Apply(c, Apply(c, s, Push), Push)
    ensures t == s.(tx := S.Tx(n, [Entry(p), Entry(q)], n, {}))
  {
    hide Stream, Wire;
    var s1 := Apply(c, s, Push);
    assert [] + [Entry(p)] == [Entry(p)];
    assert s1 == s.(tx := S.Tx(n, [Entry(p)], n, {}));
    t := Apply(c, s1, Push);
    assert [Entry(p)] + [Entry(q)] == [Entry(p), Entry(q)];
  }

  /** Both are sent. */
  lemma {:induction false} SendsTwo(c: Config, s: State, n: int, p: DataPacket, q: DataPacket) returns (t: State)
    requires c.Valid() && s.tx == S.Tx(n, [Entry(p), Entry(q)], n, {}) && 1 <= c.flowWindow
    ensures CanStep(c, s, Transmit(S.SendNew))
    ensures CanStep(c, Apply(c, s, Transmit(S.SendNew)), Transmit(S.SendNew))
    ensures t == Apply(c, Apply(c, s, Transmit(S.SendNew)), Transmit(S.SendNew))
    ensures t == s.(tx := S.Tx(n, [Entry(p).Sent(), Entry(q).Sent()], n + 2, {}), probe := true,
                    sent := s.sent + {n} + {n + 1})
  {
    WireDistance(n, n);
    WireDistance(n + 1, n);
    hide Wire, Distance;
    var s1 := Apply(c, s, Transmit(S.SendNew));
    assert s.tx.entries[0 := Entry(p).Sent()] == [Entry(p).Sent(), Entry(q)];
    assert s1 == s.(tx := S.Tx(n, [Entry(p).Sent(), Entry(q)], n + 1, {}), probe := true, sent := s.sent + {n});
    t := Apply(c, s1, Transmit(S.SendNew));
    assert s1.tx.entries[1 := Entry(q).Sent()] == [Entry(p).Sent(), Entry(q).Sent()];
  }

  /** The second arrives first: the slot of the first is lost. */
  lemma {:induction false} MissesFirst(c: Config, s: State, n: int, q: DataPacket, now: int) returns (t: State)
    requires c.Valid() && n + 1 in s.sent && n == s.rx.Next() && |s.rx.slots| + 2 <= c.recvCapacity
    requires 0 <= n + 1 - c.src.init < |Made(c, s)| && q == Made(c, s)[n + 1 - c.src.init]
    ensures CanStep(c, s, ReceiveData(n + 1, q, now)) && t == Apply(c, s, ReceiveData(n + 1, q, now))
    ensures t == s.(rx := s.rx.(slots := s.rx.slots + [R.Lost(Wire(n), now, 2), R.Received(q)]), received := t.received)
  {
    StreamNumbered(c.src, s.messages, n + 1 - c.src.init);
    UnwrapExact(n + 1, n);
    hide Stream, Wire, Nearest;
    t := Apply(c, s, ReceiveData(n + 1, q, now));
    assert R.LostRun(n, 1, now) == [R.Lost(Wire(n), now, 2)];
    assert s.rx.slots + R.LostRun(n, 1, now) + [R.Received(q)]
        == s.rx.slots + [R.Lost(Wire(n), now, 2), R.Received(q)];
  }

  /** The report puts the first on the loss list, and the next turn sends it again. */
  lemma {:induction false} ResendsFirst(c: Config, s: State, n: int, p: DataPacket, q: DataPacket) returns (t: State)
    requires c.Valid() && s.tx == S.Tx(n, [Entry(p).Sent(), Entry(q).Sent()], n + 2, {})
    ensures var report := ReceiveNak(Enumerate(Wire(n), 1));
            && CanStep(c, s, report) && CanStep(c, Apply(c, s, report), Transmit(S.ResendLost(n)))
            && t == Apply(c, Apply(c, s, report), Transmit(S.ResendLost(n)))
    ensures t == s.(tx := S.Tx(n, [Entry(p).Sent().Sent(), Entry(q).Sent()], n + 2, {}), probe := false,
                    sent := s.sent + {n})
  {
    ReportAdds(s.tx, n);
    hide Wire, S.AddLosses;
    var s1 := Apply(c, s, ReceiveNak(Enumerate(Wire(n), 1)));
    t := Apply(c, s1, Transmit(S.ResendLost(n)));
    assert s1.tx.entries[0 := Entry(p).Sent().Sent()] == [Entry(p).Sent().Sent(), Entry(q).Sent()];
    assert {n} - {n} == {};
  }

  lemma {:induction false} ReportAdds(tx: S.Tx, n: int)
    requires tx.base == n && tx.entries != [] && n < tx.next < n + MAX_DIFF && tx.lost == {}
    ensures S.AddLosses(tx, Enumerate(Wire(n), 1)) == tx.(lost := {n})
  {
    UnwrapExact(n, n);
    WindowOrder(n, tx.next);
    WindowOrder(n, n);
    hide Nearest, Precedes;
    var ns := Enumerate(Wire(n), 1);
    assert ns == [Wire(n)];
    hide Wire;
    assert ns[..0] == [] && S.AddLosses(tx, []) == tx;
    assert {} + {n} == {n};
  }

  /** The packet sent again fills the slot it was missing from. */
  lemma {:induction false} FillsGap(c: Config, s: State, n: int, p: DataPacket, q: DataPacket, now: int,
                                    held: R.Slots) returns (t: State)
    requires c.Valid() && n in s.sent && |held| + 2 < MAX_DIFF
    requires s.rx == R.Rx(n - |held|, held + [R.Lost(Wire(n), now, 2), R.Received(q)])
    requires 0 <= n - c.src.init < |Made(c, s)| && p == Made(c, s)[n - c.src.init]
    ensures var again := ReceiveData(n, p.(retransmitted := true), now);
            CanStep(c, s, again) && t == Apply(c, s, again)
    ensures t == s.(rx := R.Rx(n - |held|, held + [R.Received(p.(retransmitted := true)), R.Received(q)]),
                    received := t.received)
  {
    StreamNumbered(c.src, s.messages, n - c.src.init);
    UnwrapExact(n, n + 2);
    hide Stream, Wire, Nearest;
    var again := p.(retransmitted := true);
    t := Apply(c, s, ReceiveData(n, again, now));
    assert s.rx.slots[|held| := R.Received(again)] == held + [R.Received(again), R.Received(q)];
  }

  /** One acknowledgement frees both. */
  lemma {:induction false} FreesTwo(c: Config, s: State, n: int) returns (t: State)
    requires c.Valid() && s.tx.base == n && s.tx.next == n + 2 && |s.tx.entries| == 2 && s.tx.lost == {}
    requires n + 2 == s.rx.Next() && forall i | 0 <= i < |s.rx.slots| :: s.rx.slots[i].Received?
    ensures CanStep(c, s, SendAck) && CanStep(c, Apply(c, s, SendAck), ReceiveAck(n + 2))
    ensures t == Apply(c, Apply(c, s, SendAck), ReceiveAck(n + 2))
    ensures CaughtUp(t) && t.messages == s.messages && t.log == s.log && t.rx == s.rx
  {
    UnwrapExact(n + 2, n);
    WindowOrder(n + 2, n);
    WindowOrder(n + 2, n + 2);
    hide Stream, Wire, Nearest;
    t := Apply(c, Apply(c, s, SendAck), ReceiveAck(n + 2));
    assert S.AcceptsAck(s.tx, Wire(n + 2)) && S.FreedBy(s.tx, Wire(n + 2)) == 2;
    assert s.tx.entries[2..] == [];
  }

  /** Two more packets of the stream go from end to end, the first of them lost once. */
  lemma {:induction false} LossIsRepaired(c: Config, steps: seq<Step>, n: int, p: DataPacket, q: DataPacket, now: int)
    requires c.Valid() && Execute(c, steps).Some? && 2 <= c.sendCapacity && 1 <= c.flowWindow
    requires var s := Execute(c, steps).value;
             CaughtUp(s) && n == s.rx.Next() && NextTwo(c, s, n, p, q) && |s.rx.slots| + 2 <= c.recvCapacity
    ensures var s := Execute(c, steps).value;
            var r := Execute(c, steps + RepairSteps(n, p, q, now));
            && r.Some? && CaughtUp(r.value) && r.value.messages == s.messages && r.value.log == s.log
            && r.value.rx.base == s.rx.base && |r.value.rx.slots| == |s.rx.slots| + 2
  {
    hide Execute, Apply, CanStep, Stream, Wire, Enumerate;
    var s := Execute(c, steps).value;
    var s1 := PushesTwo(c, s, n, p, q);
    var s2 := SendsTwo(c, s1, n, p, q);
    var s3 := MissesFirst(c, s2, n, q, now);
    var s4 := ResendsFirst(c, s3, n, p, q);
    var s5 := FillsGap(c, s4, n, p, q, now, s.rx.slots);
    var s6 := FreesTwo(c, s5, n);
    var again := p.(retransmitted := true);
    TwoSteps(c, steps, Push, Push);
    var a := steps + [Push, Push];
    TwoSteps(c, a, Transmit(S.SendNew), Transmit(S.SendNew));
    var b := a + [Transmit(S.SendNew), Transmit(S.SendNew)];
    NextStep(c, b, ReceiveData(n + 1, q, now));
    var d := b + [ReceiveData(n + 1, q, now)];
    TwoSteps(c, d, ReceiveNak(Enumerate(Wire(n), 1)), Transmit(S.ResendLost(n)));
    var e := d + [ReceiveNak(Enumerate(Wire(n), 1)), Transmit(S.ResendLost(n))];
    NextStep(c, e, ReceiveData(n, again, now));
    var f := e + [ReceiveData(n, again, now)];
    TwoSteps(c, f, SendAck, ReceiveAck(n + 2));
    assert f + [SendAck, ReceiveAck(n + 2)] == steps + RepairSteps(n, p, q, now);
  }

  lemma {:induction false} TwoSteps(c: Config, steps: seq<Step>, x: Step, y: Step)
    requires c.Valid() && Execute(c, steps).Some? && CanStep(c, Execute(c, steps).value, x)
    requires CanStep(c, Apply(c, Execute(c, steps).value, x), y)
    ensures Execute(c, steps + [x, y]) == Some(Apply(c, Apply(c, Execute(c, steps).value, x), y))
  {
    hide Execute, Apply, CanStep;
    NextStep(c, steps, x);
    NextStep(c, steps + [x], y);
    assert steps + [x] + [y] == steps + [x, y];
  }

  /** A message is delivered whole although a packet of it was lost on the way: its first
      packet is lost, missed, reported and sent again, and then the message is released. */
  lemma {:induction false} MessageSurvivesLoss(c: Config, steps: seq<Step>, m: Submission, now: int, clock: R.Clock)
    returns (more: seq<Step>)
    requires c.Valid() && Execute(c, steps).Some? && Delivered(c, Execute(c, steps).value)
    requires 2 <= c.sendCapacity && 1 <= c.flowWindow && clock(m.timestamp) + c.timing.latency <= now
    requires var ms := Execute(c, steps).value.messages;
             2 <= |Stream(c.src, ms + [m])| - |Stream(c.src, ms)| <= c.recvCapacity
    ensures var s := Execute(c, steps).value;
            var r := Execute(c, steps + more);
            && r.Some? && Delivered(c, r.value) && r.value.messages == s.messages + [m]
            && r.value.log == s.log + [Released(c.src.init + |Made(c, s)|, c.src.init + |Made(c, r.value)|, m.data)]
    ensures var n := Execute(c, steps).value.rx.Next();
            exists i | 0 <= i < |more| :: more[i] == Transmit(S.ResendLost(n))
  {
    hide Execute, Stream, Inv, Start, R.DecidePop, RepairSteps, PacketSteps;
    var s := Execute(c, steps).value;
    NextStep(c, steps, Submit(m));
    var one := steps + [Submit(m)];
    var made := Stream(c.src, s.messages + [m]);
    var n, count := s.rx.Next(), |made| - |Stream(c.src, s.messages)|;
    StreamStarts(c.src, s.messages, m);
    hide Apply, CanStep;
    var p, q := made[n - c.src.init], made[n + 1 - c.src.init];
    LossIsRepaired(c, one, n, p, q, now);
    var two := one + RepairSteps(n, p, q, now);
    PacketsGetThrough(c, two, n + 2, count - 2, now);
    var three := two + PacketSteps(made, c.src.init, n + 2, count - 2, now);
    var t := Execute(c, three).value;
    assert Held(c, t, |s.messages|);
    HeldMessageIsReleased(c, three, |s.messages|, now, clock);
    RunSafe(c, three);
    HeldIsEmptied(c, t, |s.messages|, now, clock);
    NextStep(c, three, Pop(now, clock));
    more := [Submit(m)] + RepairSteps(n, p, q, now) + PacketSteps(made, c.src.init, n + 2, count - 2, now)
      + [Pop(now, clock)];
    assert steps + more == three + [Pop(now, clock)];
    RepairResends(n, p, q, now);
    assert more[7] == RepairSteps(n, p, q, now)[6];
  }

  lemma {:induction false} RepairResends(n: int, p: DataPacket, q: DataPacket, now: int)
    ensures var r := RepairSteps(n, p, q, now); |r| == 10 && r[6] == Transmit(S.ResendLost(n))
  {
  }
}
