/** Both ends of a connection and the network between them: what holds in every state
    that a run can reach, whatever the network loses, repeats or reorders. */
module Deliveries {
  import opened SeqNumbers
  import opened Packets
  import opened Splits
  import opened Streams
  import S = SendModel
  import R = ReceiveModel
  import opened ReceiveBuffers

  datatype Config = Config(src: Source, flowWindow: nat, sendCapacity: nat, recvCapacity: nat, timing: R.Timing) {
    predicate Valid() {
      0 < src.size && sendCapacity + 1 < MAX_DIFF && recvCapacity < MAX_DIFF
    }
  }

  /** What the receiving application sees, in order. */
  datatype Event =
    | Released(first: int, end: int, payload: seq<Byte>)
    | TooLate(first: int, end: int)

  /** `sent` and `acks` are everything ever put on the network: any of it may arrive any
      number of times, in any order, or never. `received` records the
      positions ever stored, and all that acknowledgements have freed is below `freedTo`. */
  datatype State = State(
    messages: seq<Submission>,
    tx: S.Tx,
    probe: bool,
    sent: set<int>,
    rx: R.Rx,
    acks: set<int>,
    received: set<int>,
    freedTo: int,
    log: seq<Event>)

  ghost function Initial(c: Config): State {
    State([], S.Tx(c.src.init, [], c.src.init, {}), false, {}, R.Rx(c.src.init, []), {}, {}, c.src.init, [])
  }

  datatype Step =
    | Submit(message: Submission)
    | Push
    | Transmit(turn: S.TxStep)
    | ReceiveNak(numbers: seq<SeqNumber>)
    | ReceiveData(n: int, packet: DataPacket, now: int)
    | Pop(now: int, clock: R.Clock)
    | ReceiveDropRequest(first: SeqNumber, end: SeqNumber)
    | SendNak(now: int, rtt: int)
    | SendAck
    | ReceiveAck(ack: int)

  predicate InWindow(n: int, anchor: int) {
    -MAX_DIFF <= n - anchor < MAX_DIFF
  }

  function DropIndex(rx: R.Rx, n: SeqNumber): (i: nat)
    ensures i <= |rx.slots|
  {
    ClampedIndex(n, Wire(rx.base), |rx.slots|)
  }

  function Made(c: Config, s: State): seq<DataPacket>
    requires c.Valid()
  {
    Stream(c.src, s.messages)
  }

  /** When a step can be taken. What arrives was sent within half the number space of
      where the other end stands; a too-late drop does not reach the end of the number
      space; the indices of a drop request do not run backwards. */
  ghost predicate CanStep(c: Config, s: State, step: Step)
    requires c.Valid()
  {
    match step
    case Submit(_) => true
    case Push => 0 <= s.tx.End() - c.src.init < |Made(c, s)|
    case Transmit(turn) => S.Enabled(s.tx, c.flowWindow, s.probe, turn)
    case ReceiveNak(_) => true
    case ReceiveData(n, p, _) =>
      && n in s.sent && InWindow(n, s.rx.Next())
      && 0 <= n - c.src.init < |Made(c, s)| && p.Content() == Made(c, s)[n - c.src.init]
    case Pop(now, clock) =>
      var a := R.DecidePop(s.rx.slots, now, clock, c.timing);
      a.GiveUp? ==> Wire(s.rx.base) + a.count < MODULUS
    case ReceiveDropRequest(first, end) => DropIndex(s.rx, first) <= DropIndex(s.rx, end)
    case SendNak(_, _) => true
    case SendAck => true
    case ReceiveAck(a) => a in s.acks && InWindow(a, s.tx.base)
  }

  /** Both ends work on wire numbers only: the receiver unwraps a number next to the one
      it expects, the sender next to the front of its buffer. */
  ghost function Apply(c: Config, s: State, step: Step): State
    requires c.Valid() && CanStep(c, s, step)
  {
    match step
    case Submit(m) => s.(messages := s.messages + [m])
    case Push => s.(tx := S.Push(s.tx, c.sendCapacity, Made(c, s)[s.tx.End() - c.src.init]))
    case Transmit(turn) =>
      var n := S.Transmits(s.tx, turn);
      s.(tx := S.Apply(s.tx, c.flowWindow, s.probe, turn),
         probe := turn == S.SendNew,
         sent := if n.Some? then s.sent + {n.value} else s.sent)
    case ReceiveNak(numbers) => s.(tx := S.AddLosses(s.tx, numbers))
    case ReceiveData(_, p, now) =>
      var m := Nearest(p.seqNumber, s.rx.Next());
      var rx' := R.Push(s.rx, c.recvCapacity, now, m, p);
      s.(rx := rx', received := s.received + set n: int | rx'.base <= n < rx'.Next() && rx'.HasReceived(n))
    case Pop(now, clock) => ApplyPop(c, s, R.DecidePop(s.rx.slots, now, clock, c.timing))
    case ReceiveDropRequest(first, end) => s.(rx := R.DropRange(s.rx, DropIndex(s.rx, first), DropIndex(s.rx, end)))
    case SendNak(now, rtt) => s.(rx := R.Feedback(s.rx, now, rtt))
    case SendAck => s.(acks := s.acks + {s.rx.Lrsn()})
    case ReceiveAck(a) =>
      if S.AcceptsAck(s.tx, Wire(a))
      then s.(tx := S.Acknowledge(s.tx, Wire(a)), freedTo := s.tx.base + S.FreedBy(s.tx, Wire(a)))
      else s
  }

  ghost function ApplyPop(c: Config, s: State, a: R.PopAction): State {
    var base := s.rx.base;
    match a
    case Wait => s
    case Release(k) =>
      if R.IsMessage(s.rx.slots, k)
      then s.(rx := R.Advance(s.rx, k), log := s.log + [Released(base, base + k, R.Payloads(s.rx.slots[..k]))])
      else s
    case GiveUp(k) =>
      if k <= |s.rx.slots| then s.(rx := R.Advance(s.rx, k), log := s.log + [TooLate(base, base + k)]) else s
  }

  // ---- The invariant ----

  /** The sender buffers a stretch of the stream. */
  ghost predicate TxOk(c: Config, ps: seq<DataPacket>, tx: S.Tx) {
    && S.Tracked(tx)
    && c.src.init <= tx.base && tx.End() <= c.src.init + |ps|
    && (|tx.entries| <= c.sendCapacity || |tx.entries| == 1)
    && forall n | tx.base <= n < tx.End() :: tx.At(n) == ps[n - c.src.init]
  }

  /** What the receiver holds at a position is what the sender put there. */
  ghost predicate RxOk(c: Config, ps: seq<DataPacket>, rx: R.Rx) {
    && R.WellFormed(rx, c.recvCapacity)
    && c.src.init <= rx.base && rx.Next() <= c.src.init + |ps|
    && forall n | rx.HasReceived(n) :: rx.slots[n - rx.base].data.Content() == ps[n - c.src.init]
  }

  /** Events follow one another without gap or overlap from `from` to `to`. */
  ghost predicate Covers(log: seq<Event>, from: int, to: int) {
    if log == [] then from == to
    else
      var e := log[|log| - 1];
      e.first < e.end == to && Covers(log[..|log| - 1], from, e.first)
  }

  ghost predicate GaveUpOn(log: seq<Event>, n: int) {
    exists e | e in log :: e.TooLate? && e.first <= n < e.end
  }

  /** The event released message `j`, all of it and nothing else. */
  ghost predicate Releases(c: Config, ms: seq<Submission>, e: Event, j: nat)
    requires c.Valid()
  {
    && j < |ms| && e.Released?
    && e.first == c.src.init + Start(c.src, ms, j)
    && e.end == c.src.init + Start(c.src, ms, j + 1)
    && e.payload == ms[j].data
  }

  ghost predicate Inv(c: Config, s: State)
    requires c.Valid()
  {
    var ps := Made(c, s);
    && TxOk(c, ps, s.tx)
    && RxOk(c, ps, s.rx)
    && (forall n | n in s.sent :: c.src.init <= n < c.src.init + |ps|)
    && (forall n | s.rx.HasReceived(n) :: n in s.received)
    && s.received <= s.sent
    && Covers(s.log, c.src.init, s.rx.base)
    && (forall n | c.src.init <= n < s.rx.base :: n in s.received || GaveUpOn(s.log, n))
    && (forall a | a in s.acks :: a <= s.rx.Lrsn())
    && c.src.init <= s.freedTo <= s.tx.base && s.freedTo <= s.rx.Lrsn()
    && (forall e | e in s.log && e.Released? :: exists j :: Releases(c, s.messages, e, j))
    && (forall e | e in s.log :: e.end - e.first <= c.recvCapacity)
  }

  // ---- Every step keeps it ----

  lemma {:induction false} InitialInv(c: Config)
    requires c.Valid()
    ensures Inv(c, Initial(c))
  {
    hide Wire;
    assert Made(c, Initial(c)) == [];
  }

  lemma {:induction false} SubmitKeepsReleases(c: Config, ms: seq<Submission>, m: Submission, e: Event, j: nat)
    requires c.Valid() && Releases(c, ms, e, j)
    ensures Releases(c, ms + [m], e, j)
  {
    hide Stream;
    var ms' := ms + [m];
    assert ms'[..j] == ms[..j] && ms'[..j + 1] == ms[..j + 1];
  }

  lemma {:induction false} SubmitSafe(c: Config, s: State, m: Submission)
    requires c.Valid() && Inv(c, s)
    ensures Inv(c, Apply(c, s, Submit(m)))
  {
    hide Wire, Split, Stream, S.Tracked, R.WellFormed, R.FirstGap, Covers;
    var s' := Apply(c, s, Submit(m));
    var ms' := s.messages + [m];
    assert ms'[..|s.messages|] == s.messages && ms'[..|ms'|] == ms';
    StreamGrows(c.src, ms', |s.messages|, |ms'|);
    assert Made(c, s) <= Made(c, s');
    forall e | e in s'.log && e.Released? ensures exists j :: Releases(c, s'.messages, e, j) {
      var j :| Releases(c, s.messages, e, j);
      SubmitKeepsReleases(c, s.messages, m, e, j);
    }
  }

  lemma {:induction false} PushSafe(c: Config, s: State)
    requires c.Valid() && Inv(c, s) && CanStep(c, s, Push)
    ensures Inv(c, Apply(c, s, Push))
  {
    hide Wire, Split, Stream, R.WellFormed, R.FirstGap, Covers, GaveUpOn, Releases;
    var n := s.tx.End() - c.src.init;
    var p := Made(c, s)[n];
    StreamNumbered(c.src, s.messages, n);
    S.PushTracked(s.tx, c.sendCapacity, p);
    var tx' := S.Push(s.tx, c.sendCapacity, p);
    forall n | tx'.base <= n < tx'.End() ensures tx'.At(n) == Made(c, s)[n - c.src.init] {
      if n < s.tx.End() { assert s.tx.At(n) == Made(c, s)[n - c.src.init]; }
    }
  }

  lemma {:induction false} TransmitSafe(c: Config, s: State, turn: S.TxStep)
    requires c.Valid() && Inv(c, s) && CanStep(c, s, Transmit(turn))
    ensures Inv(c, Apply(c, s, Transmit(turn)))
  {
    hide Wire, Split, Stream, R.WellFormed, R.FirstGap, Covers, GaveUpOn, Releases, S.Tracked;
    S.StepSafe(s.tx, c.flowWindow, s.probe, turn);
  }

  lemma {:induction false} ReceiveNakSafe(c: Config, s: State, numbers: seq<SeqNumber>)
    requires c.Valid() && Inv(c, s)
    ensures Inv(c, Apply(c, s, ReceiveNak(numbers)))
  {
    hide Wire, Split, Stream, R.WellFormed, R.FirstGap, Covers, GaveUpOn, Releases;
    S.AddLossesExact(s.tx, numbers);
    var tx' := S.AddLosses(s.tx, numbers);
    assert forall n | tx'.base <= n < tx'.End() :: tx'.At(n) == s.tx.At(n);
  }

  /** Storing at most one more packet of the stream. */
  lemma {:induction false} StoreKeepsInv(c: Config, s: State, rx': R.Rx, n: int, p: DataPacket, received': set<int>)
    requires c.Valid() && Inv(c, s) && n in s.sent && p.Content() == Made(c, s)[n - c.src.init]
    requires R.WellFormed(rx', c.recvCapacity) && rx'.base == s.rx.base && s.rx.Lrsn() <= rx'.Lrsn()
    requires rx'.Next() == s.rx.Next() || rx'.Next() == n + 1
    requires forall i | s.rx.HasReceived(i) ::
             rx'.HasReceived(i) && rx'.slots[i - s.rx.base] == s.rx.slots[i - s.rx.base]
    requires forall i | rx'.HasReceived(i) && !s.rx.HasReceived(i) ::
             i == n && rx'.slots[n - s.rx.base] == R.Received(p)
    requires forall i | i in received' :: i in s.received || rx'.HasReceived(i)
    requires forall i | i in s.received || rx'.HasReceived(i) :: i in received'
    ensures Inv(c, s.(rx := rx', received := received'))
  {
    hide Wire, Split, Stream, R.FirstGap, R.WellFormed, Covers, GaveUpOn, Releases, S.Tracked;
    forall m | rx'.HasReceived(m)
        ensures rx'.slots[m - rx'.base].data.Content() == Made(c, s)[m - c.src.init] && m in s.sent {
      if s.rx.HasReceived(m) { assert m in s.received; }
    }
    assert forall i | i in received' :: i in s.sent;
  }

  /** The receiver takes a packet of the stream for the position it was made for. */
  lemma {:induction false} ArrivesAs(c: Config, s: State, n: int, p: DataPacket, now: int)
    requires c.Valid() && Inv(c, s) && CanStep(c, s, ReceiveData(n, p, now))
    ensures p.seqNumber == Wire(n) && Nearest(p.seqNumber, s.rx.Next()) == n && R.WellFormed(s.rx, c.recvCapacity)
  {
    StreamNumbered(c.src, s.messages, n - c.src.init);
    assert p.seqNumber == p.Content().seqNumber;
    UnwrapExact(n, s.rx.Next());
    hide Wire, Stream, Nearest, TxOk, Covers, GaveUpOn, Releases, R.WellFormed;
  }

  lemma {:induction false} ReceiveDataSafe(c: Config, s: State, n: int, p: DataPacket, now: int)
    requires c.Valid() && Inv(c, s) && CanStep(c, s, ReceiveData(n, p, now))
    ensures Inv(c, Apply(c, s, ReceiveData(n, p, now)))
    ensures s.rx.Lrsn() <= Apply(c, s, ReceiveData(n, p, now)).rx.Lrsn()
  {
    hide Wire, Stream, R.FirstGap, R.WellFormed, R.Push, Nearest, Inv;
    ArrivesAs(c, s, n, p, now);
    R.PushSafe(s.rx, c.recvCapacity, now, n, p);
    PushEnd(s.rx, c.recvCapacity, now, n, p);
    var s' := Apply(c, s, ReceiveData(n, p, now));
    assert s' == s.(rx := s'.rx, received := s'.received);
    StoreKeepsInv(c, s, s'.rx, n, p, s'.received);
  }

  lemma {:induction false} PushEnd(rx: R.Rx, capacity: nat, now: int, n: int, p: DataPacket)
    requires capacity < MAX_DIFF
    ensures var rx' := R.Push(rx, capacity, now, n, p); rx'.Next() == rx.Next() || rx'.Next() == n + 1
  {
    hide Wire;
  }

  lemma {:induction false} CoversNext(log: seq<Event>, from: int, e: Event)
    requires Covers(log, from, e.first) && e.first < e.end
    ensures Covers(log + [e], from, e.end)
  {
    assert (log + [e])[..|log|] == log;
  }

  lemma {:induction false} GaveUpStays(log: seq<Event>, e: Event, n: int)
    ensures GaveUpOn(log, n) ==> GaveUpOn(log + [e], n)
    ensures e.TooLate? && e.first <= n < e.end ==> GaveUpOn(log + [e], n)
  {
    if GaveUpOn(log, n) {
      var x :| x in log && x.TooLate? && x.first <= n < x.end;
      assert x in log + [e];
    }
    assert e in log + [e];
  }

  /** Leaving the buffer from the front, with the event that says so. */
  lemma {:induction false} AdvanceKeepsInv(c: Config, s: State, k: nat, e: Event)
    requires c.Valid() && Inv(c, s) && 0 < k <= |s.rx.slots|
    requires e.first == s.rx.base && e.end == s.rx.base + k
    requires e.Released? ==> (forall i | 0 <= i < k :: s.rx.slots[i].Received?) && exists j ::
             Releases(c, s.messages, e, j)
    ensures Inv(c, s.(rx := R.Advance(s.rx, k), log := s.log + [e]))
    ensures s.rx.Lrsn() <= R.Advance(s.rx, k).Lrsn()
  {
    hide Wire, Split, Stream, Covers, GaveUpOn, Releases, S.Tracked;
    R.AdvanceSafe(s.rx, c.recvCapacity, k);
    hide R.FirstGap, R.WellFormed;
    CoversNext(s.log, c.src.init, e);
    var log' := s.log + [e];
    forall n | c.src.init <= n < s.rx.base + k ensures n in s.received || GaveUpOn(log', n) {
      GaveUpStays(s.log, e, n);
      if s.rx.base <= n && e.Released? { assert s.rx.slots[n - s.rx.base].Received?; assert s.rx.HasReceived(n); }
    }
  }

  /** The slots released together are a whole message of the stream. */
  lemma {:induction false} ReleaseIsMessage(c: Config, s: State, k: nat) returns (j: nat)
    requires c.Valid() && Inv(c, s) && R.IsMessage(s.rx.slots, k)
    ensures Releases(c, s.messages, Released(s.rx.base, s.rx.base + k, R.Payloads(s.rx.slots[..k])), j)
  {
    hide Wire, Split, Stream, Covers, GaveUpOn, S.TxInv, S.FlowInv, R.FirstGap, R.WellFormed, R.Payloads, Bytes;
    var ps := Made(c, s);
    var n := s.rx.base - c.src.init;
    forall i | 0 <= i < k ensures s.rx.slots[i].data.Content() == ps[n + i] {
      assert s.rx.HasReceived(s.rx.base + i);
    }
    FramedSlots(s.rx.slots, k, ps, n);
    j := FramedIsMessage(c.src, s.messages, n, k);
    var run := ps[n..n + k];
    assert forall i | 0 <= i < k :: run[i] == ps[n + i];
    PayloadsAreBytes(s.rx.slots[..k], ps[n..n + k]);
  }

  lemma {:induction false} FramedSlots(slots: R.Slots, k: nat, ps: seq<DataPacket>, n: nat)
    requires R.IsMessage(slots, k) && n + k <= |ps|
    requires forall i | 0 <= i < k :: slots[i].data.Content() == ps[n + i]
    ensures Framed(ps, n, k)
  {
    assert slots[0].data.Content() == ps[n + 0];
    forall i | n <= i < n + k ensures ps[i].messageLoc.last <==> i == n + k - 1 {
      assert slots[i - n].data.Content() == ps[n + (i - n)];
    }
  }

  lemma {:induction false} PayloadsAreBytes(slots: R.Slots, ps: seq<DataPacket>)
    requires |slots| == |ps| && forall i | 0 <= i < |ps| :: slots[i].Received? && slots[i].data.Content() == ps[i]
    ensures R.Payloads(slots) == Bytes(ps)
  {
    if ps != [] {
      PayloadsAreBytes(slots[..|ps| - 1], ps[..|ps| - 1]);
    }
  }

  lemma {:induction false} PopSafe(c: Config, s: State, now: int, clock: R.Clock)
    requires c.Valid() && Inv(c, s) && CanStep(c, s, Pop(now, clock))
    ensures Inv(c, Apply(c, s, Pop(now, clock)))
    ensures s.rx.Lrsn() <= Apply(c, s, Pop(now, clock)).rx.Lrsn()
  {
    R.PopIsInRange(s.rx.slots, now, clock, c.timing);
    hide Wire, Inv, R.DecidePop, R.Payloads, R.FirstGap;
    match R.DecidePop(s.rx.slots, now, clock, c.timing) {
      case Wait =>
      case Release(k) =>
        var j := ReleaseIsMessage(c, s, k);
        AdvanceKeepsInv(c, s, k, Released(s.rx.base, s.rx.base + k, R.Payloads(s.rx.slots[..k])));
      case GiveUp(k) =>
        AdvanceKeepsInv(c, s, k, TooLate(s.rx.base, s.rx.base + k));
    }
  }

  lemma {:induction false} SlotsSafe(c: Config, s: State, rx': R.Rx)
    requires c.Valid() && Inv(c, s)
    requires rx'.base == s.rx.base && |rx'.slots| == |s.rx.slots|
    requires forall i | 0 <= i < |s.rx.slots| ::
               rx'.slots[i] == s.rx.slots[i] ||
               (s.rx.slots[i].Lost? && !rx'.slots[i].Received? && rx'.slots[i].Number() == s.rx.slots[i].Number())
    ensures Inv(c, s.(rx := rx')) && rx'.Lrsn() == s.rx.Lrsn()
  {
    hide Wire, Split, Stream, Covers, GaveUpOn, Releases, S.Tracked;
    R.KeepsGaps(s.rx, rx', c.recvCapacity);
    hide R.FirstGap, R.WellFormed;
  }

  lemma {:induction false} FreeKeepsTx(c: Config, ps: seq<DataPacket>, tx: S.Tx, ack: SeqNumber)
    requires TxOk(c, ps, tx) && S.AcceptsAck(tx, ack)
    ensures TxOk(c, ps, S.Acknowledge(tx, ack))
    ensures tx.base <= S.Acknowledge(tx, ack).base == tx.base + S.FreedBy(tx, ack)
  {
    hide Wire, S.Tracked, Nearest, S.AcceptsAck;
    S.AckSafe(tx, ack);
  }

  lemma {:induction false} ReceiveAckSafe(c: Config, s: State, a: int)
    requires c.Valid() && Inv(c, s) && CanStep(c, s, ReceiveAck(a))
    ensures Inv(c, Apply(c, s, ReceiveAck(a)))
  {
    UnwrapExact(a, s.tx.base);
    hide Wire, Stream, Nearest, S.AcceptsAck, S.FreedBy, S.Acknowledge;
    hide Covers, GaveUpOn, Releases, R.FirstGap, TxOk, RxOk;
    if S.AcceptsAck(s.tx, Wire(a)) {
      FreeKeepsTx(c, Made(c, s), s.tx, Wire(a));
      S.AcceptedIsAhead(s.tx, Wire(a));
      FrontIsFromInit(c, s);
    }
  }

  lemma {:induction false} FrontIsFromInit(c: Config, s: State)
    requires c.Valid() && Inv(c, s)
    ensures c.src.init <= s.tx.base
  {
    hide Wire, Stream, Covers, GaveUpOn, Releases, R.FirstGap, RxOk, S.Tracked;
  }

  lemma {:induction false} SendAckSafe(c: Config, s: State)
    requires c.Valid() && Inv(c, s)
    ensures Inv(c, Apply(c, s, SendAck))
  {
    hide Wire, Stream, Covers, GaveUpOn, Releases, R.FirstGap, TxOk, RxOk;
  }

  /** Every step keeps the invariant and never moves the acknowledgement point back. */
  lemma {:induction false} StepSafe(c: Config, s: State, step: Step)
    requires c.Valid() && Inv(c, s) && CanStep(c, s, step)
    ensures Inv(c, Apply(c, s, step)) && s.rx.Lrsn() <= Apply(c, s, step).rx.Lrsn()
  {
    hide Wire, Stream, Inv, R.FirstGap, R.DecidePop;
    match step {
      case Submit(m) => SubmitSafe(c, s, m);
      case Push => PushSafe(c, s);
      case Transmit(turn) => TransmitSafe(c, s, turn);
      case ReceiveNak(numbers) => ReceiveNakSafe(c, s, numbers);
      case ReceiveData(n, p, now) => ReceiveDataSafe(c, s, n, p, now);
      case Pop(now, clock) => PopSafe(c, s, now, clock);
      case ReceiveDropRequest(first, end) =>
        SlotsSafe(c, s, R.DropRange(s.rx, DropIndex(s.rx, first), DropIndex(s.rx, end)));
      case SendNak(now, rtt) => SlotsSafe(c, s, R.Feedback(s.rx, now, rtt));
      case SendAck => SendAckSafe(c, s);
      case ReceiveAck(a) => ReceiveAckSafe(c, s, a);
    }
  }

  // ---- Runs ----

  /** The state a run ends in, if each of its steps can be taken. */
  ghost function Execute(c: Config, steps: seq<Step>): Option<State>
    requires c.Valid()
  {
    if steps == [] then Some(Initial(c))
    else
      var before := Execute(c, steps[..|steps| - 1]);
      var step := steps[|steps| - 1];
      if before.Some? && CanStep(c, before.value, step) then Some(Apply(c, before.value, step)) else None
  }

  lemma {:induction false} RunSafe(c: Config, steps: seq<Step>)
    requires c.Valid()
    ensures Execute(c, steps).Some? ==> Inv(c, Execute(c, steps).value)
  {
    hide Wire, Inv, Apply, CanStep, Initial;
    if steps == [] {
      InitialInv(c);
    } else {
      var before := Execute(c, steps[..|steps| - 1]);
      RunSafe(c, steps[..|steps| - 1]);
      if before.Some? && CanStep(c, before.value, steps[|steps| - 1]) {
        StepSafe(c, before.value, steps[|steps| - 1]);
      }
    }
  }

  lemma {:induction false} CoversOrder(log: seq<Event>, from: int, to: int, i: nat, k: nat)
    requires Covers(log, from, to) && i < k < |log|
    ensures from <= log[i].first < log[i].end <= log[k].first < log[k].end <= to
  {
    var n := |log| - 1;
    CoversBounds(log, from, to);
    if k < n {
      CoversOrder(log[..n], from, log[n].first, i, k);
    } else {
      CoversEnd(log[..n], from, log[n].first, i);
    }
  }

  lemma {:induction false} CoversEnd(log: seq<Event>, from: int, to: int, i: nat)
    requires Covers(log, from, to) && i < |log|
    ensures from <= log[i].first < log[i].end <= to
  {
    var n := |log| - 1;
    CoversBounds(log[..n], from, log[n].first);
    if i < n {
      CoversEnd(log[..n], from, log[n].first, i);
    }
  }

  lemma {:induction false} CoversBounds(log: seq<Event>, from: int, to: int)
    requires Covers(log, from, to)
    ensures from <= to
  {
    if log != [] {
      CoversBounds(log[..|log| - 1], from, log[|log| - 1].first);
    }
  }

  /** The message an event released. */
  ghost function MessageOf(c: Config, s: State, e: Event): nat
    requires c.Valid()
  {
    if exists j: nat :: Releases(c, s.messages, e, j) then var j: nat :| Releases(c, s.messages, e, j); j else 0
  }

  lemma {:induction false} ReleasedMessage(c: Config, s: State, i: nat)
    requires c.Valid() && Inv(c, s) && i < |s.log| && s.log[i].Released?
    ensures Releases(c, s.messages, s.log[i], MessageOf(c, s, s.log[i]))
  {
    hide Wire, Stream, Covers, GaveUpOn, TxOk, RxOk, Releases, R.FirstGap;
    assert s.log[i] in s.log;
  }

  lemma {:induction false} LaterIsLater(c: Config, s: State, i: nat, k: nat, ji: nat, jk: nat)
    requires c.Valid() && Covers(s.log, c.src.init, s.rx.base) && i < k < |s.log|
    requires Releases(c, s.messages, s.log[i], ji) && Releases(c, s.messages, s.log[k], jk)
    ensures ji < jk
  {
    CoversOrder(s.log, c.src.init, s.rx.base, i, k);
    hide Wire, Stream, Covers;
    if jk < ji + 1 { StreamGrows(c.src, s.messages, jk, ji + 1); }
  }

  /** End-to-end integrity: in every run there is one numbering of the releases by
      submitted messages. Each release is exactly that message, byte for byte, from its
      first packet to its last, and later releases have strictly later messages: so no
      message is released twice, even if it is equal to another. */
  lemma {:induction false} MessagesArriveWholeInOrderOnce(c: Config, steps: seq<Step>) returns (message: seq<nat>)
    requires c.Valid() && Execute(c, steps).Some?
    ensures var s := Execute(c, steps).value;
            && |message| == |s.log|
            && (forall i | 0 <= i < |s.log| && s.log[i].Released? :: Releases(c, s.messages, s.log[i], message[i]))
            && (forall i, k | 0 <= i < k < |s.log| && s.log[i].Released? && s.log[k].Released? ::
               message[i] < message[k])
  {
    var s := Execute(c, steps).value;
    RunSafe(c, steps);
    assert Covers(s.log, c.src.init, s.rx.base);
    hide Wire, Stream, Execute, Inv, Covers, Releases, MessageOf;
    message := seq(|s.log|, i requires 0 <= i < |s.log| => MessageOf(c, s, s.log[i]));
    forall i | 0 <= i < |s.log| && s.log[i].Released? ensures Releases(c, s.messages, s.log[i], message[i]) {
      ReleasedMessage(c, s, i);
    }
    forall i, k | 0 <= i < k < |s.log| && s.log[i].Released? && s.log[k].Released? ensures message[i] < message[k] {
      LaterIsLater(c, s, i, k, message[i], message[k]);
    }
  }

  /** Conservation: the ranges released and the ranges given up follow one another from
      the initial number to the front of the receive buffer, in order, without gap or
      overlap. */
  lemma {:induction false} EveryNumberIsReleasedOrGivenUpOnce(c: Config, steps: seq<Step>, n: int)
    requires c.Valid() && Execute(c, steps).Some?
    ensures var s := Execute(c, steps).value;
            c.src.init <= n < s.rx.base <==> exists i | 0 <= i < |s.log| :: s.log[i].first <= n < s.log[i].end
    ensures var s := Execute(c, steps).value;
            forall i, k | 0 <= i < k < |s.log| :: s.log[i].first < s.log[i].end <= s.log[k].first < s.log[k].end
  {
    hide *;
    var s := Execute(c, steps).value;
    RunSafe(c, steps);
    LogCovers(c, s);
    CoversEach(s.log, c.src.init, s.rx.base, n);
    forall i, k | 0 <= i < k < |s.log| ensures s.log[i].first < s.log[i].end <= s.log[k].first < s.log[k].end {
      CoversOrder(s.log, c.src.init, s.rx.base, i, k);
    }
  }

  lemma {:induction false} LogCovers(c: Config, s: State)
    requires c.Valid() && Inv(c, s)
    ensures Covers(s.log, c.src.init, s.rx.base)
  {
    hide Wire, Stream, Covers, GaveUpOn, TxOk, RxOk, Releases, R.FirstGap;
  }

  lemma {:induction false} CoversEach(log: seq<Event>, from: int, to: int, n: int)
    requires Covers(log, from, to)
    ensures from <= n < to <==> exists i | 0 <= i < |log| :: log[i].first <= n < log[i].end
  {
    if log != [] {
      var k := |log| - 1;
      CoversEach(log[..k], from, log[k].first, n);
      CoversBounds(log[..k], from, log[k].first);
      if from <= n < log[k].first {
        var i :| 0 <= i < |log[..k]| && log[..k][i].first <= n < log[..k][i].end;
        assert log[i].first <= n < log[i].end;
      }
      forall i | 0 <= i < |log| && log[i].first <= n < log[i].end ensures from <= n < to {
        CoversEnd(log, from, to, i);
      }
      if log[k].first <= n < to { assert log[k].first <= n < log[k].end; }
    }
  }

  /** Acknowledgement safety: in every run no acknowledgement on the network is ahead of
      the receiver, and every packet the sender has freed on an acknowledgement was
      stored by the receiver or given up as too late. */
  lemma {:induction false} AcknowledgedIsReceivedOrGivenUp(c: Config, steps: seq<Step>, n: int)
    requires c.Valid() && Execute(c, steps).Some?
    ensures var s := Execute(c, steps).value;
            && (forall a | a in s.acks :: a <= s.rx.Lrsn())
            && (c.src.init <= n < s.freedTo ==> n in s.received || GaveUpOn(s.log, n))
  {
    var s := Execute(c, steps).value;
    RunSafe(c, steps);
    hide Wire, Stream, Execute, GaveUpOn, TxOk, RxOk, Covers;
    if s.rx.base <= n < s.freedTo {
      R.BelowLrsnIsHeld(s.rx, n);
    }
  }

  /** The acknowledgement point never moves back, however a run goes on. */
  lemma {:induction false} AckPointNeverMovesBack(c: Config, steps: seq<Step>, more: seq<Step>)
    requires c.Valid() && Execute(c, steps + more).Some?
    ensures Execute(c, steps).Some? && Execute(c, steps).value.rx.Lrsn() <= Execute(c, steps + more).value.rx.Lrsn()
    decreases |more|
  {
    hide Wire, Inv, Apply, CanStep, R.FirstGap;
    if more == [] {
      assert steps + more == steps;
    } else {
      var all := steps + more;
      var but := more[..|more| - 1];
      assert all[..|all| - 1] == steps + but;
      AckPointNeverMovesBack(c, steps, but);
      RunSafe(c, steps + but);
      StepSafe(c, Execute(c, steps + but).value, all[|all| - 1]);
    }
  }

  /** Every push of the run that evicts, evicts a packet that was sent. */
  ghost predicate EvictsOnlySent(c: Config, steps: seq<Step>)
    requires c.Valid()
  {
    steps != [] ==>
      var before := Execute(c, steps[..|steps| - 1]);
      && EvictsOnlySent(c, steps[..|steps| - 1])
      && (before.Some? && steps[|steps| - 1] == Push && S.Evicts(before.value.tx, c.sendCapacity) ==>
            before.value.tx.base < before.value.tx.next)
  }

  ghost predicate SenderInOrder(c: Config, s: State) {
    S.TxInv(s.tx) && S.FlowInv(s.tx, c.flowWindow, s.probe)
  }

  /** A step keeps the sender in order exactly unless it evicts a packet that was never
      sent. */
  lemma {:induction false} StepInOrder(c: Config, s: State, step: Step)
    requires c.Valid() && Inv(c, s) && CanStep(c, s, step) && SenderInOrder(c, s)
    ensures SenderInOrder(c, Apply(c, s, step)) <==>
            !(step == Push && S.Evicts(s.tx, c.sendCapacity) && s.tx.base == s.tx.next)
  {
    match step {
      case Push => PushInOrder(c, s);
      case Transmit(turn) =>
        hide Wire, Stream, Inv, S.TxInv, S.FlowInv, S.Enabled, S.Apply, S.Transmits;
        S.StepInOrder(s.tx, c.flowWindow, s.probe, turn);
      case ReceiveNak(numbers) =>
        S.AddLossesExact(s.tx, numbers);
        hide Wire, Stream, Inv, S.TxInv, S.AddLosses;
      case ReceiveAck(a) =>
        hide Wire, Stream, Inv, S.TxInv, S.FlowInv, S.AcceptsAck, Nearest, S.Acknowledge;
        if S.AcceptsAck(s.tx, Wire(a)) { S.AckInOrder(s.tx, c.flowWindow, s.probe, Wire(a)); }
      case _ => hide Wire, Stream, Inv, S.TxInv, S.FlowInv, R.DecidePop, R.Push;
    }
  }

  lemma {:induction false} PushInOrder(c: Config, s: State)
    requires c.Valid() && Inv(c, s) && CanStep(c, s, Push) && SenderInOrder(c, s)
    ensures SenderInOrder(c, Apply(c, s, Push)) <==> !(S.Evicts(s.tx, c.sendCapacity) && s.tx.base == s.tx.next)
  {
    hide Wire, Split, Stream, R.WellFormed, R.FirstGap, Covers, GaveUpOn, Releases, S.TxInv;
    var n := s.tx.End() - c.src.init;
    StreamNumbered(c.src, s.messages, n);
    S.PushSafe(s.tx, c.sendCapacity, Made(c, s)[n]);
    NextFromFront(s.tx);
  }

  lemma {:induction false} NextFromFront(tx: S.Tx)
    requires S.TxInv(tx)
    ensures tx.base <= tx.next
  {
  }

  /** Sender safety: in every run that evicts only packets that were sent, the loss list
      holds only buffered packets that were sent, and no more than the flow window plus two
      are unacknowledged. */
  lemma {:induction false} SenderStaysInBounds(c: Config, steps: seq<Step>)
    requires c.Valid() && Execute(c, steps).Some? && EvictsOnlySent(c, steps)
    ensures var s := Execute(c, steps).value;
            && SenderInOrder(c, s)
            && s.tx.base <= s.tx.next <= s.tx.End()
            && (forall l | l in s.tx.lost :: s.tx.base <= l < s.tx.next)
            && s.tx.Unacked() <= c.flowWindow + 2
  {
    hide Wire, Stream, Inv, Apply, CanStep, SenderInOrder, Distance;
    if steps == [] {
      StartsInOrder(c);
    } else {
      var before := steps[..|steps| - 1];
      SenderStaysInBounds(c, before);
      RunSafe(c, before);
      StepInOrder(c, Execute(c, before).value, steps[|steps| - 1]);
    }
    InOrderBounds(c, Execute(c, steps).value);
  }

  lemma {:induction false} StartsInOrder(c: Config)
    requires c.Valid()
    ensures SenderInOrder(c, Initial(c))
  {
    hide Wire;
  }

  lemma {:induction false} InOrderBounds(c: Config, s: State)
    requires SenderInOrder(c, s)
    ensures s.tx.base <= s.tx.next <= s.tx.End() && s.tx.Unacked() <= c.flowWindow + 2
    ensures forall l | l in s.tx.lost :: s.tx.base <= l < s.tx.next
  {
    S.NextInOrder(s.tx);
    hide Wire, Distance;
  }

  /** Slots that hold all packets of one message are one message to the receiver. */
  lemma {:induction false} HeldIsMessage(
    slots: R.Slots, k: nat, ps: seq<DataPacket>, size: nat, e: Envelope, n: int, data: seq<Byte>)
    requires k == |ps| <= |slots| && Carries(ps, size, e, n, true, data)
    requires forall i | 0 <= i < k :: slots[i].Received? && slots[i].data.Content() == ps[i]
    ensures R.IsMessage(slots, k) && slots[0].data.timestamp == e.timestamp
  {
    hide Wire, Bytes;
    forall i | 0 <= i < k
      ensures R.InMessage(slots[i], e.messageNumber) && (slots[i].data.messageLoc.last <==> i == k - 1)
    {
      assert WellPlaced(ps[i], size, e, n + i, i == 0, i == k - 1);
    }
    assert WellPlaced(ps[0], size, e, n + 0, true, 0 == k - 1);
  }

  /** Message `j` is next and the receiver holds all of its packets. */
  ghost predicate Held(c: Config, s: State, j: nat)
    requires c.Valid()
  {
    && j < |s.messages| && s.rx.base == c.src.init + Start(c.src, s.messages, j)
    && forall n | s.rx.base <= n < c.src.init + Start(c.src, s.messages, j + 1) :: s.rx.HasReceived(n)
  }

  lemma {:induction false} HeldSlots(c: Config, s: State, j: nat) returns (k: nat)
    requires c.Valid() && Inv(c, s) && Held(c, s, j)
    ensures k == Start(c.src, s.messages, j + 1) - Start(c.src, s.messages, j)
    ensures R.IsMessage(s.rx.slots, k) && s.rx.slots[0].data.timestamp == s.messages[j].timestamp
  {
    hide Inv, Stream, Start, Carries, R.IsMessage, DataPacket.Content;
    var a, b := Start(c.src, s.messages, j), Start(c.src, s.messages, j + 1);
    MessageInStream(c.src, s.messages, j);
    k := b - a;
    var ps := Made(c, s)[a..b];
    assert Carries(ps, c.src.size, EnvelopeOf(c.src, s.messages, j), c.src.init + a, true, s.messages[j].data);
    forall i | 0 <= i < k ensures i < |s.rx.slots| && s.rx.slots[i].Received? && s.rx.slots[i].data.Content() == ps[i] {
      HoldsStream(c, s, s.rx.base + i);
    }
    assert k == |ps| && s.rx.HasReceived(s.rx.base + (k - 1));
    hide Held;
    HeldIsMessage(s.rx.slots, k, ps, c.src.size, EnvelopeOf(c.src, s.messages, j), c.src.init + a, s.messages[j].data);
  }

  lemma {:induction false} HoldsStream(c: Config, s: State, n: int)
    requires c.Valid() && Inv(c, s) && s.rx.HasReceived(n)
    ensures 0 <= n - c.src.init < |Made(c, s)| && s.rx.slots[n - s.rx.base].data.Content() == Made(c, s)[n - c.src.init]
  {
    hide Wire, Stream, Covers, GaveUpOn, TxOk, Releases, R.FirstGap, R.WellFormed;
  }

  lemma {:induction false} SameMessage(c: Config, ms: seq<Submission>, i: nat, j: nat)
    requires c.Valid() && i < |ms| && j < |ms| && Start(c.src, ms, i) == Start(c.src, ms, j)
    ensures i == j
  {
    hide Start, Stream;
    if i < j {
      StreamGrows(c.src, ms, i, j);
    } else if j < i {
      StreamGrows(c.src, ms, j, i);
    }
  }

  lemma {:induction false} MessageIsReleased(slots: R.Slots, k: nat, now: int, clock: R.Clock, t: R.Timing)
    requires R.IsMessage(slots, k) && clock(slots[0].data.timestamp) + t.latency <= now
    ensures R.DecidePop(slots, now, clock, t) == R.Release(k)
  {
    R.CountIsMessage(slots, k);
    hide R.NextMessagePacketCount;
  }

  lemma {:induction false} HeldIsReleased(c: Config, s: State, j: nat, now: int, clock: R.Clock)
    requires c.Valid() && Inv(c, s) && Held(c, s, j)
    requires clock(s.messages[j].timestamp) + c.timing.latency <= now
    ensures CanStep(c, s, Pop(now, clock))
    ensures var e := Released(s.rx.base, c.src.init + Start(c.src, s.messages, j + 1), s.messages[j].data);
            Apply(c, s, Pop(now, clock)).log == s.log + [e]
  {
    var k := HeldSlots(c, s, j);
    MessageIsReleased(s.rx.slots, k, now, clock, c.timing);
    var i := ReleaseIsMessage(c, s, k);
    SameMessage(c, s.messages, i, j);
    hide Wire, Stream, Start, Inv, R.DecidePop, R.IsMessage, R.Payloads;
  }

  /** Progress: in every run, once the next message is held whole and its time has come,
      asking for it releases exactly it. */
  lemma {:induction false} HeldMessageIsReleased(c: Config, steps: seq<Step>, j: nat, now: int, clock: R.Clock)
    requires c.Valid() && Execute(c, steps).Some?
    requires var s := Execute(c, steps).value;
             Held(c, s, j) && clock(s.messages[j].timestamp) + c.timing.latency <= now
    ensures var s := Execute(c, steps).value;
            && CanStep(c, s, Pop(now, clock))
            && var e := Released(s.rx.base, c.src.init + Start(c.src, s.messages, j + 1), s.messages[j].data);
               Apply(c, s, Pop(now, clock)).log == s.log + [e]
  {
    hide *;
    RunSafe(c, steps);
    HeldIsReleased(c, Execute(c, steps).value, j, now, clock);
  }

  /** And only then: asking releases message `j` exactly when it is next, held whole and
      due. */
  lemma {:induction false} ReleasedExactlyWhenHeldAndDue(
    c: Config, steps: seq<Step>, j: nat, now: int, clock: R.Clock)
    requires c.Valid() && Execute(c, steps).Some?
    requires var s := Execute(c, steps).value; j < |s.messages| && CanStep(c, s, Pop(now, clock))
    ensures var s := Execute(c, steps).value;
            var e := Released(c.src.init + Start(c.src, s.messages, j), c.src.init + Start(c.src, s.messages, j + 1),
                              s.messages[j].data);
            Apply(c, s, Pop(now, clock)).log == s.log + [e] <==>
            Held(c, s, j) && clock(s.messages[j].timestamp) + c.timing.latency <= now
  {
    hide Execute, Inv, Stream, Apply, CanStep, Held, Releases, Start;
    var s := Execute(c, steps).value;
    RunSafe(c, steps);
    if Held(c, s, j) && clock(s.messages[j].timestamp) + c.timing.latency <= now {
      HeldStarts(c, s, j);
      HeldIsReleased(c, s, j, now, clock);
    }
    var e := Released(c.src.init + Start(c.src, s.messages, j), c.src.init + Start(c.src, s.messages, j + 1),
                      s.messages[j].data);
    if Apply(c, s, Pop(now, clock)).log == s.log + [e] {
      var i := ReleaseIsDue(c, s, now, clock, e);
      ReleasesAt(c, s.messages, e, i);
      SameMessage(c, s.messages, i, j);
    }
  }

  lemma {:induction false} HeldStarts(c: Config, s: State, j: nat)
    requires c.Valid() && Held(c, s, j)
    ensures j < |s.messages| && s.rx.base == c.src.init + Start(c.src, s.messages, j)
  {
  }

  lemma {:induction false} ReleasesAt(c: Config, ms: seq<Submission>, e: Event, j: nat)
    requires c.Valid() && Releases(c, ms, e, j)
    ensures j < |ms| && e.first == c.src.init + Start(c.src, ms, j)
  {
    hide Start;
  }

  /** A message that is released was held whole, and its time had come. */
  lemma {:induction false} ReleaseIsDue(c: Config, s: State, now: int, clock: R.Clock, e: Event) returns (j: nat)
    requires c.Valid() && Inv(c, s) && CanStep(c, s, Pop(now, clock)) && e.Released?
    requires Apply(c, s, Pop(now, clock)).log == s.log + [e]
    ensures Releases(c, s.messages, e, j) && Held(c, s, j)
    ensures clock(s.messages[j].timestamp) + c.timing.latency <= now
  {
    hide Inv, Stream, Start, R.Payloads, R.IsMessage, R.DecidePop;
    var k := PopReleases(c, s, now, clock, e);
    j := ReleaseIsMessage(c, s, k);
    IsMessageHeld(s.rx, k);
    var k' := HeldSlots(c, s, j);
  }

  lemma {:induction false} PopReleases(c: Config, s: State, now: int, clock: R.Clock, e: Event) returns (k: nat)
    requires c.Valid() && CanStep(c, s, Pop(now, clock)) && e.Released?
    requires Apply(c, s, Pop(now, clock)).log == s.log + [e]
    ensures R.IsMessage(s.rx.slots, k) && e == Released(s.rx.base, s.rx.base + k, R.Payloads(s.rx.slots[..k]))
    ensures s.rx.slots[0].Received? && clock(s.rx.slots[0].data.timestamp) + c.timing.latency <= now
  {
    hide R.DecidePop, R.Payloads, R.IsMessage;
    var a := R.DecidePop(s.rx.slots, now, clock, c.timing);
    var log' := Apply(c, s, Pop(now, clock)).log;
    assert log'[|s.log|] == e && |log'| == |s.log| + 1;
    assert a.Release?;
    k := a.count;
    R.ReleasedExactlyWhenDue(s.rx.slots, now, clock, c.timing, k);
    IsMessageHeld(s.rx, k);
    assert s.rx.HasReceived(s.rx.base);
  }

  lemma {:induction false} IsMessageHeld(rx: R.Rx, k: nat)
    requires R.IsMessage(rx.slots, k)
    ensures 0 < k <= |rx.slots| && forall n | rx.base <= n < rx.base + k :: rx.HasReceived(n)
  {
    forall n | rx.base <= n < rx.base + k ensures rx.HasReceived(n) {
      assert rx.slots[n - rx.base].Received?;
    }
  }

  /** What one step may do to the log and to the list of messages. */
  lemma {:induction false} StepLogs(c: Config, s: State, step: Step)
    requires c.Valid() && CanStep(c, s, step)
    ensures var s' := Apply(c, s, step);
            && s'.messages == (if step.Submit? then s.messages + [step.message] else s.messages)
            && (s'.log == s.log || (step.Pop? && |s'.log| == |s.log| + 1 && s'.log == s.log + [s'.log[|s.log|]]))
  {
    hide Wire, Stream, Made, R.DecidePop, R.Push, R.IsMessage, R.Payloads, S.Enabled, S.Apply, S.Transmits, S.Push;
  }

  /** Timing, over whole runs: every release was made by a step at or after the time of its
      message plus the latency, as the clock of that step has it. */
  lemma {:induction false} ReleasedOnTime(c: Config, steps: seq<Step>, i: nat) returns (t: nat, j: nat)
    requires c.Valid() && Execute(c, steps).Some?
    requires var s := Execute(c, steps).value; i < |s.log| && s.log[i].Released?
    ensures t < |steps| && steps[t].Pop? && Execute(c, steps[..t]).Some?
    ensures var s := Execute(c, steps).value;
            && Execute(c, steps[..t]).value.log == s.log[..i] && Releases(c, s.messages, s.log[i], j)
            && steps[t].clock(s.messages[j].timestamp) + c.timing.latency <= steps[t].now
  {
    hide Inv, Stream, Apply, CanStep, Held, Releases;
    var n := |steps| - 1;
    var b, s, step := Execute(c, steps[..n]).value, Execute(c, steps).value, steps[n];
    StepLogs(c, b, step);
    if i < |b.log| {
      t, j := ReleasedOnTime(c, steps[..n], i);
      assert steps[..n][..t] == steps[..t];
      ReleasesAt(c, b.messages, b.log[i], j);
      if step.Submit? { SubmitKeepsReleases(c, b.messages, step.message, b.log[i], j); }
    } else {
      t := n;
      RunSafe(c, steps[..n]);
      j := ReleaseIsDue(c, b, step.now, step.clock, s.log[i]);
      ReleasesAt(c, b.messages, s.log[i], j);
    }
  }

  lemma {:induction false} NextStep(c: Config, steps: seq<Step>, step: Step)
    requires c.Valid() && Execute(c, steps).Some? && CanStep(c, Execute(c, steps).value, step)
    ensures Execute(c, steps + [step]) == Some(Apply(c, Execute(c, steps).value, step))
  {
    hide CanStep, Apply, Initial;
    assert (steps + [step])[..|steps|] == steps;
  }

  // ---- Every list of messages can be delivered ----

  /** The sender has nothing buffered, and the receiver holds everything sent. */
  ghost predicate CaughtUp(s: State) {
    && s.tx == S.Tx(s.rx.Next(), [], s.rx.Next(), {})
    && forall i | 0 <= i < |s.rx.slots| :: s.rx.slots[i].Received?
  }

  function OnePacket(n: int, p: DataPacket, now: int): seq<Step> {
    [Push, Transmit(S.SendNew), ReceiveData(n, p, now), SendAck, ReceiveAck(n + 1)]
  }

  /** One more packet of the stream goes from end to end. */
  lemma {:induction false} PacketGetsThrough(c: Config, steps: seq<Step>, n: int, p: DataPacket, now: int)
    requires c.Valid() && Execute(c, steps).Some?
    requires var s := Execute(c, steps).value;
             && CaughtUp(s) && n == s.rx.Next() && 0 <= n - c.src.init < |Made(c, s)| && p == Made(c, s)[n - c.src.init]
             && |s.rx.slots| < c.recvCapacity
    ensures var s := Execute(c, steps).value;
            var r := Execute(c, steps + OnePacket(n, p, now));
            && r.Some? && CaughtUp(r.value) && r.value.messages == s.messages && r.value.log == s.log
            && r.value.rx == s.rx.(slots := s.rx.slots + [R.Received(p)])
  {
    hide Execute, Apply, CanStep, Stream;
    var s := Execute(c, steps).value;
    var s1 := SendsOne(c, s, n, p);
    var s2 := TakesOne(c, s1, n, p, now);
    var s3 := FreesOne(c, s2, n, p);
    NextStep(c, steps, Push);
    NextStep(c, steps + [Push], Transmit(S.SendNew));
    var two := steps + [Push] + [Transmit(S.SendNew)];
    NextStep(c, two, ReceiveData(n, p, now));
    var three := two + [ReceiveData(n, p, now)];
    NextStep(c, three, SendAck);
    NextStep(c, three + [SendAck], ReceiveAck(n + 1));
    assert three + [SendAck] + [ReceiveAck(n + 1)] == steps + OnePacket(n, p, now);
  }

  lemma {:induction false} SendsOne(c: Config, s: State, n: int, p: DataPacket) returns (t: State)
    requires c.Valid() && CaughtUp(s) && n == s.rx.Next()
    requires 0 <= n - c.src.init < |Made(c, s)| && p == Made(c, s)[n - c.src.init]
    ensures CanStep(c, s, Push) && CanStep(c, Apply(c, s, Push), Transmit(S.SendNew))
    ensures t == Apply(c, Apply(c, s, Push), Transmit(S.SendNew))
    ensures t == s.(tx := S.Tx(n, [S.SendBufferEntry(p, 0).Sent()], n + 1, {}), probe := true, sent := s.sent + {n})
  {
    hide Stream, Wire;
    var e := S.SendBufferEntry(p, 0);
    assert [] + [e] == [e];
    var s1 := Apply(c, s, Push);
    assert s1 == s.(tx := S.Tx(n, [e], n, {}));
    assert S.PositionOf(s1.tx, Wire(n)) == n;
    t := Apply(c, s1, Transmit(S.SendNew));
    assert [e][0 := e.Sent()] == [e.Sent()];
  }

  lemma {:induction false} TakesOne(c: Config, s: State, n: int, p: DataPacket, now: int) returns (t: State)
    requires c.Valid() && n in s.sent && n == s.rx.Next() && |s.rx.slots| < c.recvCapacity
    requires 0 <= n - c.src.init < |Made(c, s)| && p == Made(c, s)[n - c.src.init]
    ensures CanStep(c, s, ReceiveData(n, p, now)) && t == Apply(c, s, ReceiveData(n, p, now))
    ensures t == s.(rx := s.rx.(slots := s.rx.slots + [R.Received(p)]), received := t.received)
  {
    StreamNumbered(c.src, s.messages, n - c.src.init);
    UnwrapExact(n, n);
    hide Stream, Wire, Nearest;
    t := Apply(c, s, ReceiveData(n, p, now));
    assert s.rx.slots + R.LostRun(n, 0, now) + [R.Received(p)] == s.rx.slots + [R.Received(p)];
  }

  lemma {:induction false} FreesOne(c: Config, s: State, n: int, p: DataPacket) returns (t: State)
    requires c.Valid() && s.tx.base == n && s.tx.next == n + 1 && |s.tx.entries| == 1 && s.tx.lost == {}
    requires n + 1 == s.rx.Next() && forall i | 0 <= i < |s.rx.slots| :: s.rx.slots[i].Received?
    ensures CanStep(c, s, SendAck) && CanStep(c, Apply(c, s, SendAck), ReceiveAck(n + 1))
    ensures t == Apply(c, Apply(c, s, SendAck), ReceiveAck(n + 1))
    ensures CaughtUp(t) && t.messages == s.messages && t.log == s.log && t.rx == s.rx
  {
    UnwrapExact(n + 1, n);
    WindowOrder(n + 1, n);
    hide Stream, Wire, Nearest;
    t := Apply(c, Apply(c, s, SendAck), ReceiveAck(n + 1));
    assert S.AcceptsAck(s.tx, Wire(n + 1)) && S.FreedBy(s.tx, Wire(n + 1)) == 1;
    assert s.tx.entries[1..] == [];
  }

  /** The steps that take `count` packets of the stream from end to end. */
  function PacketSteps(made: seq<DataPacket>, init: int, n: int, count: nat, now: int): seq<Step>
    requires 0 <= n - init && n - init + count <= |made|
  {
    if count == 0 then []
    else PacketSteps(made, init, n, count - 1, now) + OnePacket(n + count - 1, made[n - init + count - 1], now)
  }

  lemma {:induction false} PacketsGetThrough(c: Config, steps: seq<Step>, n: int, count: nat, now: int)
    requires c.Valid() && Execute(c, steps).Some?
    requires var s := Execute(c, steps).value;
             && CaughtUp(s) && n == s.rx.Next() && 0 <= n - c.src.init && n - c.src.init + count <= |Made(c, s)|
             && |s.rx.slots| + count <= c.recvCapacity
    ensures var s := Execute(c, steps).value;
            var r := Execute(c, steps + PacketSteps(Made(c, s), c.src.init, n, count, now));
            && r.Some? && CaughtUp(r.value) && r.value.messages == s.messages && r.value.log == s.log
            && r.value.rx.base == s.rx.base && |r.value.rx.slots| == |s.rx.slots| + count
    decreases count
  {
    hide Execute, CaughtUp, Stream, Made, OnePacket;
    var s := Execute(c, steps).value;
    if count == 0 {
      assert steps + [] == steps;
    } else {
      PacketsGetThrough(c, steps, n, count - 1, now);
      var so := steps + PacketSteps(Made(c, s), c.src.init, n, count - 1, now);
      SameMade(c, s, Execute(c, so).value);
      var p := Made(c, s)[n - c.src.init + count - 1];
      PacketGetsThrough(c, so, n + count - 1, p, now);
      assert so + OnePacket(n + count - 1, p, now) == steps + PacketSteps(Made(c, s), c.src.init, n, count, now);
    }
  }

  lemma {:induction false} SameMade(c: Config, s: State, s': State)
    requires c.Valid() && s'.messages == s.messages
    ensures Made(c, s') == Made(c, s)
  {
  }

  /** The receiver holds nothing and has released everything. */
  ghost predicate Delivered(c: Config, s: State)
    requires c.Valid()
  {
    CaughtUp(s) && s.rx == R.Rx(c.src.init + |Made(c, s)|, [])
  }

  /** A message goes from end to end, in as many packets as it takes. */
  lemma {:induction false} MessageGetsThrough(c: Config, steps: seq<Step>, m: Submission, now: int, clock: R.Clock)
    returns (more: seq<Step>)
    requires c.Valid() && Execute(c, steps).Some? && Delivered(c, Execute(c, steps).value)
    requires clock(m.timestamp) + c.timing.latency <= now
    requires var ms := Execute(c, steps).value.messages;
             |Stream(c.src, ms + [m])| - |Stream(c.src, ms)| <= c.recvCapacity
    ensures var s := Execute(c, steps).value;
            var r := Execute(c, steps + more);
            && r.Some? && Delivered(c, r.value) && r.value.messages == s.messages + [m]
            && r.value.log == s.log + [Released(c.src.init + |Made(c, s)|, c.src.init + |Made(c, r.value)|, m.data)]
  {
    hide Execute, Stream, Inv, Start, R.DecidePop;
    var s := Execute(c, steps).value;
    NextStep(c, steps, Submit(m));
    var one := steps + [Submit(m)];
    var n, count := s.rx.Next(), |Stream(c.src, s.messages + [m])| - |Stream(c.src, s.messages)|;
    StreamStarts(c.src, s.messages, m);
    hide Apply, CanStep;
    PacketsGetThrough(c, one, n, count, now);
    var two := one + PacketSteps(Stream(c.src, s.messages + [m]), c.src.init, n, count, now);
    var t := Execute(c, two).value;
    assert Held(c, t, |s.messages|);
    HeldMessageIsReleased(c, two, |s.messages|, now, clock);
    RunSafe(c, two);
    HeldIsEmptied(c, t, |s.messages|, now, clock);
    NextStep(c, two, Pop(now, clock));
    more := [Submit(m)] + PacketSteps(Stream(c.src, s.messages + [m]), c.src.init, n, count, now) + [Pop(now, clock)];
    assert steps + more == two + [Pop(now, clock)];
  }

  lemma {:induction false} StreamStarts(src: Source, ms: seq<Submission>, m: Submission)
    requires 0 < src.size
    ensures Stream(src, ms) <= Stream(src, ms + [m])
    ensures Start(src, ms + [m], |ms|) == |Stream(src, ms)| && Start(src, ms + [m], |ms| + 1) == |Stream(src, ms + [m])|
  {
    hide Stream;
    StreamGrows(src, ms + [m], |ms|, |ms| + 1);
    assert (ms + [m])[..|ms|] == ms && (ms + [m])[..|ms| + 1] == ms + [m];
  }

  /** Releasing the one message that is held empties the receive buffer. */
  lemma {:induction false} HeldIsEmptied(c: Config, s: State, j: nat, now: int, clock: R.Clock)
    requires c.Valid() && Inv(c, s) && Held(c, s, j) && clock(s.messages[j].timestamp) + c.timing.latency <= now
    requires s.rx.Next() == c.src.init + Start(c.src, s.messages, j + 1)
    ensures CanStep(c, s, Pop(now, clock))
    ensures var t := Apply(c, s, Pop(now, clock));
            t == s.(rx := R.Rx(s.rx.Next(), []), log := t.log)
  {
    var k := HeldSlots(c, s, j);
    MessageIsReleased(s.rx.slots, k, now, clock, c.timing);
    hide Wire, Stream, Start, Inv, R.DecidePop, R.IsMessage, R.Payloads;
    assert s.rx.slots[k..] == [];
  }

  /** And runs do deliver: any list of messages is released, one after the other and each
      whole, if each of them fits the receive buffer. */
  lemma {:induction false} MessagesGetThrough(c: Config, ms: seq<Submission>, now: int, clock: R.Clock)
    returns (steps: seq<Step>)
    requires c.Valid()
    requires forall j | 0 <= j < |ms| ::
               clock(ms[j].timestamp) + c.timing.latency <= now
               && Start(c.src, ms, j + 1) - Start(c.src, ms, j) <= c.recvCapacity
    ensures Execute(c, steps).Some? && Delivered(c, Execute(c, steps).value)
    ensures var s := Execute(c, steps).value;
            && s.messages == ms && |s.log| == |ms|
            && forall j | 0 <= j < |ms| ::
                 s.log[j] == Released(c.src.init + Start(c.src, ms, j), c.src.init + Start(c.src, ms, j + 1),
                   ms[j].data)
    decreases |ms|
  {
    hide Stream, Start, Delivered, Execute;
    if ms == [] {
      NothingDelivered(c);
      steps := [];
    } else {
      var n := |ms| - 1;
      StartsInFront(c.src, ms);
      forall j | 0 <= j < n
        ensures clock(ms[..n][j].timestamp) + c.timing.latency <= now
        ensures Start(c.src, ms[..n], j + 1) - Start(c.src, ms[..n], j) <= c.recvCapacity
      {
        assert ms[..n][j] == ms[j];
        assert Start(c.src, ms, j + 1) - Start(c.src, ms, j) <= c.recvCapacity;
        assert Start(c.src, ms[..n], j + 1) == Start(c.src, ms, j + 1)
            && Start(c.src, ms[..n], j) == Start(c.src, ms, j);
      }
      var before := MessagesGetThrough(c, ms[..n], now, clock);
      StreamStarts(c.src, ms[..n], ms[n]);
      assert ms[..n] + [ms[n]] == ms;
      var more := MessageGetsThrough(c, before, ms[n], now, clock);
      steps := before + more;
    }
  }

  lemma {:induction false} NothingDelivered(c: Config)
    requires c.Valid()
    ensures Execute(c, []) == Some(Initial(c)) && Delivered(c, Initial(c))
  {
  }

  lemma {:induction false} StartsInFront(src: Source, ms: seq<Submission>)
    requires 0 < src.size && ms != []
    ensures forall j | 0 <= j <= |ms| - 1 :: Start(src, ms[..|ms| - 1], j) == Start(src, ms, j)
  {
    hide Stream;
    forall j | 0 <= j <= |ms| - 1 ensures Start(src, ms[..|ms| - 1], j) == Start(src, ms, j) {
      assert ms[..|ms| - 1][..j] == ms[..j];
    }
  }

  /** No others can be: whatever a run releases fits the receive buffer. */
  lemma {:induction false} ReleasedFits(c: Config, steps: seq<Step>, i: nat, j: nat)
    requires c.Valid() && Execute(c, steps).Some?
    requires var s := Execute(c, steps).value; i < |s.log| && Releases(c, s.messages, s.log[i], j)
    ensures var ms := Execute(c, steps).value.messages; Start(c.src, ms, j + 1) - Start(c.src, ms, j) <= c.recvCapacity
  {
    hide Wire, Stream, Execute, Start, Covers, GaveUpOn, TxOk, RxOk, R.FirstGap;
    RunSafe(c, steps);
    assert Execute(c, steps).value.log[i] in Execute(c, steps).value.log;
  }
}
