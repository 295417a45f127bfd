/** A sender and the connection it is part of: whatever the sender does is what the sending
    end of the connection may do, so all that holds of every run of the connection holds
    with that sender in it. */
module SenderSteps {
  import opened SeqNumbers
  import opened Packets
  import opened Streams
  import opened SendModel
  import opened SendBuffers
  import opened SendAlgorithms
  import opened Senders
  import opened LossCompression
  import D = Deliveries
  import T = Timers

  /** The connection's sending end is this sender. */
  ghost predicate Linked(c: D.Config, d: D.State, setup: Config, s: State) {
    && setup.src == c.src && setup.window == c.flowWindow && setup.size == c.sendCapacity
    && d.messages == s.submissions && d.tx == s.tx && !d.probe
  }

  /** The packet is one that may arrive at the receiver. */
  ghost predicate OnNetwork(c: D.Config, d: D.State, p: DataPacket)
    requires c.Valid()
  {
    exists n | n in d.sent ::
      0 <= n - c.src.init < |D.Made(c, d)| && p.Content() == D.Made(c, d)[n - c.src.init]
  }

  // ---- An SND event ----

  ghost function Transmissions(steps: seq<TxStep>): seq<D.Step> {
    seq(|steps|, i requires 0 <= i < |steps| => D.Transmit(steps[i]))
  }

  /** Each step of an SND event is a step of the connection. */
  lemma {:induction false} EventSteps(c: D.Config, run: seq<D.Step>, given: Conditions, s: Sending, steps: seq<TxStep>)
    requires c.Valid() && D.Execute(c, run).Some? && given.window == c.flowWindow && Run(given, s, steps).Some?
    requires var d := D.Execute(c, run).value; d.tx == s.tx && d.probe == s.probe
    ensures var d := D.Execute(c, run).value;
            var r := D.Execute(c, run + Transmissions(steps));
            var (t, sent) := Run(given, s, steps).value;
            && r.Some? && r.value == d.(tx := t.tx, probe := t.probe, sent := r.value.sent)
            && forall p | p in sent :: OnNetwork(c, r.value, p)
    decreases |steps|
  {
    hide D.Execute, Takes, After, Packet, OnNetwork, D.CanStep, D.Apply;
    if steps == [] {
      assert run + Transmissions(steps) == run;
    } else {
      var before, step := steps[..|steps| - 1], steps[|steps| - 1];
      EventSteps(c, run, given, s, before);
      var so := run + Transmissions(before);
      assert run + Transmissions(steps) == so + [D.Transmit(step)];
      D.RunSafe(c, so);
      TransmitStep(c, D.Execute(c, so).value, given, Run(given, s, before).value.0, step);
      D.NextStep(c, so, D.Transmit(step));
      forall p | p in Run(given, s, before).value.1
        ensures OnNetwork(c, D.Apply(c, D.Execute(c, so).value, D.Transmit(step)), p)
      {
        StaysOnNetwork(c, D.Execute(c, so).value, step, p);
      }
    }
  }

  lemma {:induction false} TransmitStep(c: D.Config, d: D.State, given: Conditions, s: Sending, step: TxStep)
    requires c.Valid() && D.Inv(c, d) && given.window == c.flowWindow
    requires d.tx == s.tx && d.probe == s.probe && Takes(given, s, step)
    ensures D.CanStep(c, d, D.Transmit(step))
    ensures var d' := D.Apply(c, d, D.Transmit(step));
            var s' := After(given, s, step);
            && d' == d.(tx := s'.tx, probe := s'.probe, sent := d'.sent)
            && forall p | p in Packet(s.tx, step) :: OnNetwork(c, d', p)
  {
    hide D.Inv, Tracked, Chosen, SendModel.Enabled, SendModel.Apply, TimerSet, Stream, OnNetwork;
    TransmitApplies(c, d, given, s, step);
    hide D.CanStep, D.Apply, Takes, After;
    BufferIsStream(c, d);
    forall p | p in Packet(s.tx, step) ensures OnNetwork(c, D.Apply(c, d, D.Transmit(step)), p) {
      SentIsOnNetwork(c, D.Apply(c, d, D.Transmit(step)), s.tx, Transmits(s.tx, step).value, p);
    }
  }

  lemma {:induction false} TransmitApplies(c: D.Config, d: D.State, given: Conditions, s: Sending, step: TxStep)
    requires c.Valid() && given.window == c.flowWindow && d.tx == s.tx && d.probe == s.probe && Takes(given, s, step)
    ensures D.CanStep(c, d, D.Transmit(step))
    ensures var d' := D.Apply(c, d, D.Transmit(step));
            var s' := After(given, s, step);
            && d' == d.(tx := s'.tx, probe := s'.probe, sent := d'.sent)
            && (Transmits(s.tx, step).Some? ==> Transmits(s.tx, step).value in d'.sent)
  {
    hide Chosen, SendModel.Enabled, SendModel.Apply, TimerSet, Stream;
  }

  lemma {:induction false} SentIsOnNetwork(c: D.Config, d: D.State, tx: Tx, n: int, p: DataPacket)
    requires c.Valid() && n in d.sent && tx.base <= n < tx.End() && p == tx.entries[n - tx.base].packet
    requires c.src.init <= tx.base && tx.End() <= c.src.init + |D.Made(c, d)|
    requires tx.At(n) == D.Made(c, d)[n - c.src.init]
    ensures OnNetwork(c, d, p)
  {
    hide Stream;
  }

  lemma {:induction false} BufferIsStream(c: D.Config, d: D.State)
    requires c.Valid() && D.Inv(c, d)
    ensures c.src.init <= d.tx.base && d.tx.End() <= c.src.init + |D.Made(c, d)|
    ensures Tracked(d.tx) && forall n | d.tx.base <= n < d.tx.End() :: d.tx.At(n) == D.Made(c, d)[n - c.src.init]
  {
    hide Wire, Stream, D.Covers, D.GaveUpOn, D.RxOk, D.Releases, Tracked;
  }

  lemma {:induction false} StaysOnNetwork(c: D.Config, d: D.State, step: TxStep, p: DataPacket)
    requires c.Valid() && D.CanStep(c, d, D.Transmit(step)) && OnNetwork(c, d, p)
    ensures OnNetwork(c, D.Apply(c, d, D.Transmit(step)), p)
  {
    hide Stream, SendModel.Enabled, SendModel.Apply;
    var n :| n in d.sent && 0 <= n - c.src.init < |D.Made(c, d)| && p.Content() == D.Made(c, d)[n - c.src.init];
    assert n in D.Apply(c, d, D.Transmit(step)).sent;
  }

  // ---- A message ----

  ghost function Pushes(k: nat): seq<D.Step> {
    seq(k, i => D.Push)
  }

  /** Submitting a message and pushing its first `i` packets. */
  lemma {:induction false} MessageSteps(
    c: D.Config, run: seq<D.Step>, setup: Config, s: State, m: Submission, added: seq<DataPacket>, i: nat)
    requires c.Valid() && D.Execute(c, run).Some? && Sound(setup)
    requires Inv(setup, s) && Linked(c, D.Execute(c, run).value, setup, s)
    requires i <= |added|
    requires Stream(c.src, s.submissions + [m]) == Stream(c.src, s.submissions) + added
    ensures var d := D.Execute(c, run).value;
            D.Execute(c, run + [D.Submit(m)] + Pushes(i))
            == Some(d.(messages := s.submissions + [m], tx := PushAll(s.tx, setup.size, added[..i])))
    decreases i
  {
    hide D.Execute, Stream, PushAll, D.CanStep, D.Apply, Inv;
    if i == 0 {
      SubmitStep(c, run, setup, s, m);
      assert run + [D.Submit(m)] + Pushes(0) == run + [D.Submit(m)] && added[..0] == [];
    } else {
      MessageSteps(c, run, setup, s, m, added, i - 1);
      var so := run + [D.Submit(m)] + Pushes(i - 1);
      assert run + [D.Submit(m)] + Pushes(i) == so + [D.Push];
      D.RunSafe(c, so);
      PushStep(c, D.Execute(c, so).value, setup, s, m, added, i - 1);
      D.NextStep(c, so, D.Push);
    }
  }

  lemma {:induction false} SubmitStep(c: D.Config, run: seq<D.Step>, setup: Config, s: State, m: Submission)
    requires c.Valid() && D.Execute(c, run).Some? && Sound(setup)
    requires Inv(setup, s) && Linked(c, D.Execute(c, run).value, setup, s)
    ensures D.Execute(c, run + [D.Submit(m)])
            == Some(D.Execute(c, run).value.(messages := s.submissions + [m], tx := PushAll(s.tx, setup.size, [])))
  {
    hide D.Execute, Stream, PushAll, Buffers;
    PushNone(s.tx, setup.size);
    D.NextStep(c, run, D.Submit(m));
  }

  lemma {:induction false} PushStep(
    c: D.Config, d: D.State, setup: Config, s: State, m: Submission, added: seq<DataPacket>, i: nat)
    requires c.Valid() && D.Inv(c, d) && Sound(setup) && Inv(setup, s)
    requires setup.size == c.sendCapacity && setup.src == c.src
    requires i < |added|
    requires Stream(c.src, s.submissions + [m]) == Stream(c.src, s.submissions) + added
    requires d.messages == s.submissions + [m] && d.tx == PushAll(s.tx, setup.size, added[..i])
    ensures D.CanStep(c, d, D.Push) && D.Apply(c, d, D.Push) == d.(tx := PushAll(s.tx, setup.size, added[..i + 1]))
  {
    hide D.Inv, Stream, PushAll, Capacity, Evicts, SendModel.Push, Tracked;
    BufferIsStream(c, d);
    BufferEndsStream(s.tx, c.src.init, Stream(c.src, s.submissions));
    hide Buffers;
    PushNext(s.tx, setup.size, added, i);
    PushAllEnd(s.tx, setup.size, added[..i]);
  }

  // ---- Every input ----

  lemma {:induction false} AckSteps(c: D.Config, run: seq<D.Step>, setup: Config, s: State, input: Input, a: int)
    returns (more: seq<D.Step>)
    requires c.Valid() && D.Execute(c, run).Some? && Sound(setup)
    requires Inv(setup, s) && Linked(c, D.Execute(c, run).value, setup, s)
    requires input.Acked? && Wire(a) == input.ack
    requires a in D.Execute(c, run).value.acks && D.InWindow(a, s.tx.base)
    ensures var r := D.Execute(c, run + more);
            r.Some? && Linked(c, r.value, setup, Acknowledged(s, input.ack, input.fullAck, input.rtt))
  {
    hide D.Execute, Stream, Nearest, AcceptsAck, Acknowledge, FreedBy, Wire, WireRange, Buffers, Tracked;
    var t := Acknowledged(s, input.ack, input.fullAck, input.rtt);
    if t.tx == s.tx {
      more := [];
      assert run + [] == run;
    } else {
      more := [D.ReceiveAck(a)];
      D.NextStep(c, run, D.ReceiveAck(a));
    }
  }

  /** From any state that the connection can reach, any input to its sender, however it is
      answered, takes the connection through steps of its own to a state that agrees with
      the sender again, and everything sent is then on the network. Acknowledgements are
      those the receiver sent, within half the number space. */
  lemma {:induction false} SenderTakesConnectionSteps(
    c: D.Config, run: seq<D.Step>, setup: Config, s: State, input: Input, steps: seq<TxStep>, a: int)
    returns (more: seq<D.Step>)
    requires c.Valid() && D.Execute(c, run).Some? && Sound(setup)
    requires Inv(setup, s) && Linked(c, D.Execute(c, run).value, setup, s)
    requires Step(setup, s, input, steps).Some?
    requires input.Acked? ==> Wire(a) == input.ack && a in D.Execute(c, run).value.acks && D.InWindow(a, s.tx.base)
    ensures var r := D.Execute(c, run + more);
            var (t, out) := Step(setup, s, input, steps).value;
            r.Some? && Linked(c, r.value, setup, t) && forall p | p in out :: OnNetwork(c, r.value, p)
  {
    hide D.Execute, Stream, Acknowledged, AddLosses, Decompress, Run, PushAll, OnNetwork, Inv, Wire, Stuck;
    match input {
      case Data(timestamp, data) =>
        var m := Submission(timestamp, data);
        StreamExtends(c.src, s.submissions, m);
        var before, after := Stream(c.src, s.submissions), Stream(c.src, s.submissions + [m]);
        var added := after[|before|..];
        assert after == before + added && added[..|added|] == added;
        MessageSteps(c, run, setup, s, m, added, |added|);
        more := [D.Submit(m)] + Pushes(|added|);
        assert run + more == run + [D.Submit(m)] + Pushes(|added|);
      case Acked(_, _, _) =>
        more := AckSteps(c, run, setup, s, input, a);
      case Nak(words) =>
        more := [D.ReceiveNak(Decompress(words).value)];
        D.NextStep(c, run, D.ReceiveNak(Decompress(words).value));
      case Poll(now, timestamp, shouldDrain) =>
        more := Transmissions(steps);
        PollSteps(c, run, setup, s, input, steps);
    }
  }

  lemma {:induction false} PollSteps(
    c: D.Config, run: seq<D.Step>, setup: Config, s: State, input: Input, steps: seq<TxStep>)
    requires c.Valid() && D.Execute(c, run).Some? && Linked(c, D.Execute(c, run).value, setup, s)
    requires input.Poll? && Polled(setup, s, input.now, input.timestamp, input.shouldDrain, steps).Some?
    ensures var r := D.Execute(c, run + Transmissions(steps));
            var (t, out) := Polled(setup, s, input.now, input.timestamp, input.shouldDrain, steps).value;
            r.Some? && Linked(c, r.value, setup, t) && forall p | p in out :: OnNetwork(c, r.value, p)
  {
    hide D.Execute, Run, OnNetwork, Stream;
    var due := T.Due(s.last, setup.period, input.now);
    if due.Some? {
      EventSteps(c, run, Given(setup, s, input.timestamp, input.shouldDrain), Sending(s.tx, s.queue, due.value, false),
        steps);
    } else {
      assert run + Transmissions(steps) == run;
    }
  }
}
