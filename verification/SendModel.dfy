/** The send buffer on unbounded packet positions. */
module SendModel {
  import opened SeqNumbers
  import opened Packets

  datatype SendBufferEntry = SendBufferEntry(packet: DataPacket, transmitCount: int) {
    function Sent(): SendBufferEntry {
      SendBufferEntry(packet.(retransmitted := true), transmitCount + 1)
    }
  }

  /** `entries` hold positions `base` to `End()`; those below `next` were sent at least
      once, and those in `lost` are to be sent again. */
  datatype Tx = Tx(base: int, entries: seq<SendBufferEntry>, next: int, lost: set<int>) {
    function End(): int {
      base + |entries|
    }

    function At(n: int): DataPacket
      requires base <= n < End()
    {
      entries[n - base].packet.Content()
    }

    // The distance of the numbers, which is that of the positions while they are in order.
    function Unacked(): int {
      if entries == [] then 0 else Distance(Wire(next), Wire(base))
    }
  }

  /** The packets in the buffer carry consecutive numbers. */
  ghost predicate Numbered(tx: Tx) {
    && |tx.entries| < MAX_DIFF
    && (forall i | 0 <= i < |tx.entries| :: tx.entries[i].packet.seqNumber == Wire(tx.base + i))
  }

  ghost predicate Spans(s: set<int>, lo: int) {
    forall l | l in s :: lo <= l < lo + MAX_DIFF
  }

  /** What every operation keeps, whatever is pushed, acknowledged, reported or dropped: and
      every lost number lies from the front on, within half the number space. */
  ghost predicate Tracked(tx: Tx) {
    Numbered(tx) && Spans(tx.lost, tx.base)
  }

  /** What holds while only packets are evicted that were sent: and every lost number is
      buffered and was sent, and the next number to send lies between the front of the
      buffer and one past its back. */
  ghost predicate TxInv(tx: Tx) {
    && Numbered(tx)
    && tx.base <= tx.next <= tx.End()
    && (forall l | l in tx.lost :: tx.base <= l < tx.next)
  }

  // The first position from the front on that has the number.
  function PositionOf(tx: Tx, k: SeqNumber): (n: int)
    ensures tx.base <= n
  {
    tx.base + Distance(k, Wire(tx.base))
  }

  /** The number is the number of a packet in the buffer. */
  predicate Buffered(tx: Tx, k: SeqNumber) {
    PositionOf(tx, k) < tx.End()
  }

  /** In order, the next number stands for the next position, which is buffered unless it is
      one past the back. */
  lemma {:induction false} NextInOrder(tx: Tx)
    requires TxInv(tx)
    ensures PositionOf(tx, Wire(tx.next)) == tx.next && (Buffered(tx, Wire(tx.next)) <==> tx.next < tx.End())
    ensures tx.Unacked() == if tx.entries == [] then 0 else tx.next - tx.base
  {
    WireDistance(tx.next, tx.base);
  }

  function KeepFrom(lost: set<int>, n: int): set<int> {
    set l | l in lost && n <= l
  }

  // ---- Pushing ----

  predicate Evicts(tx: Tx, capacity: nat) {
    capacity <= |tx.entries| && tx.entries != []
  }

  function Push(tx: Tx, capacity: nat, p: DataPacket): Tx {
    var e := SendBufferEntry(p, 0);
    if Evicts(tx, capacity)
    then Tx(tx.base + 1, tx.entries[1..] + [e], tx.next, tx.lost - {tx.base})
    else tx.(entries := tx.entries + [e])
  }

  /** A push keeps the invariant exactly when the packet it evicts, if any, was sent. */
  lemma {:induction false} PushSafe(tx: Tx, capacity: nat, p: DataPacket)
    requires TxInv(tx) && |tx.entries| + 1 < MAX_DIFF && p.seqNumber == Wire(tx.End())
    ensures TxInv(Push(tx, capacity, p)) <==> Evicts(tx, capacity) ==> tx.base < tx.next
    ensures Push(tx, capacity, p).End() == tx.End() + 1
  {
    PushNumbered(tx, capacity, p);
    hide Wire;
  }

  /** Whatever it evicts, a push keeps the numbering and the loss list behind the front. */
  lemma {:induction false} PushTracked(tx: Tx, capacity: nat, p: DataPacket)
    requires Tracked(tx) && |tx.entries| + 1 < MAX_DIFF && p.seqNumber == Wire(tx.End())
    ensures Tracked(Push(tx, capacity, p)) && Push(tx, capacity, p).End() == tx.End() + 1
  {
    PushNumbered(tx, capacity, p);
    hide Wire, Numbered;
  }

  lemma {:induction false} PushNumbered(tx: Tx, capacity: nat, p: DataPacket)
    requires Numbered(tx) && |tx.entries| + 1 < MAX_DIFF && p.seqNumber == Wire(tx.End())
    ensures Numbered(Push(tx, capacity, p)) && Push(tx, capacity, p).End() == tx.End() + 1
  {
    hide Wire;
    var tx' := Push(tx, capacity, p);
    if Evicts(tx, capacity) {
      forall i | 0 <= i < |tx'.entries| ensures tx'.entries[i].packet.seqNumber == Wire(tx'.base + i) {
        assert i < |tx.entries| - 1 ==> tx'.entries[i] == tx.entries[i + 1];
      }
    }
  }

  /** The smallest failing push: room for one packet, and the one there was never sent. */
  lemma {:induction false} EvictingUnsentBreaks(e: SendBufferEntry, p: DataPacket)
    requires e.packet.seqNumber == 0 && p.seqNumber == 1
    ensures var tx := Tx(0, [e], 0, {});
            TxInv(tx) && Push(tx, 1, p) == Tx(1, [SendBufferEntry(p, 0)], 0, {}) && !TxInv(Push(tx, 1, p))
  {
    assert [e][1..] + [SendBufferEntry(p, 0)] == [SendBufferEntry(p, 0)];
  }

  /** What the code does once the front has overtaken the next number to send: the next
      number is not found in the buffer, and the distance that is compared with the flow
      window looks larger than half the number space. So no new packet goes out. */
  lemma {:induction false} OvertakenSenderStalls(tx: Tx)
    requires Numbered(tx) && tx.entries != [] && tx.next < tx.base < tx.next + MAX_DIFF
    ensures !Buffered(tx, Wire(tx.next)) && MAX_DIFF < tx.Unacked()
  {
  }

  /** Until the front is given up as too late, which moves the next number on to it. */
  lemma {:induction false} DropReleasesStalled(tx: Tx, c: nat)
    requires Numbered(tx) && tx.next < tx.base <= tx.base + c < tx.next + MAX_DIFF && c <= |tx.entries|
    ensures Precedes(Wire(tx.next), Wire(tx.base + c)) && DropFront(tx, c).next == DropFront(tx, c).base
    ensures tx.lost == {} ==> TxInv(DropFront(tx, c))
  {
    WindowOrder(tx.next, tx.base + c);
    hide Wire;
  }

  /** Meanwhile a report may add a number that is not buffered: after the smallest failing
      push, 2^30 is one. */
  lemma {:induction false} OvertakenSenderAddsUnbuffered(e: SendBufferEntry)
    requires e.packet.seqNumber == 1
    ensures var tx := Tx(1, [e], 0, {});
            Numbered(tx) && Classify(tx, MAX_DIFF) == Added && !Buffered(tx, MAX_DIFF)
  {
  }

  // ---- Acknowledgements ----

  predicate AcceptsAck(tx: Tx, ack: SeqNumber) {
    tx.entries != [] && !Precedes(ack, Wire(tx.base)) && Compare(ack, Wire(tx.next)) != Greater
  }

  /** Whatever number an acknowledgement carries, it is accepted exactly when it stands
      for a position between the front and the next to send. */
  lemma {:induction false} AcceptedAckIsInWindow(tx: Tx, ack: SeqNumber)
    requires TxInv(tx) && tx.entries != []
    ensures AcceptsAck(tx, ack) <==> tx.base <= Nearest(ack, tx.base) <= tx.next
  {
    var a := Nearest(ack, tx.base);
    CompareIsOrder(ack, tx.base);
    if tx.base <= a {
      WindowOrder(a, tx.next);
    }
  }

  /** How many packets leave the front for an accepted acknowledgement, in any state. */
  function FreedBy(tx: Tx, ack: SeqNumber): (c: nat)
    ensures c <= |tx.entries|
  {
    var a := Nearest(ack, tx.base);
    if a <= tx.base then 0 else if a - tx.base < |tx.entries| then a - tx.base else |tx.entries|
  }

  /** It is as many as precede the acknowledged number. */
  lemma {:induction false} FreedPrecede(tx: Tx, ack: SeqNumber, i: nat)
    requires Numbered(tx) && i < |tx.entries| && tx.base <= Nearest(ack, tx.base)
    ensures Precedes(tx.entries[i].packet.seqNumber, ack) <==> i < FreedBy(tx, ack)
  {
    var a := Nearest(ack, tx.base);
    assert tx.entries[i].packet.seqNumber == Wire(tx.base + i);
    WindowOrder(tx.base + i, a);
  }

  /** Packets leave from the front, and lost numbers with them. */
  function Acknowledge(tx: Tx, ack: SeqNumber): Tx {
    var c := FreedBy(tx, ack);
    tx.(base := tx.base + c, entries := tx.entries[c..], lost := KeepFrom(tx.lost, Nearest(ack, tx.base)))
  }

  lemma {:induction false} AcceptedIsAhead(tx: Tx, ack: SeqNumber)
    requires AcceptsAck(tx, ack)
    ensures tx.base <= Nearest(ack, tx.base) && tx.base + FreedBy(tx, ack) <= Nearest(ack, tx.base)
  {
    CompareIsOrder(ack, tx.base);
  }

  /** In any state, freeing keeps the numbering and every packet not freed. */
  lemma {:induction false} AckSafe(tx: Tx, ack: SeqNumber)
    requires Tracked(tx) && AcceptsAck(tx, ack)
    ensures var tx' := Acknowledge(tx, ack);
            && Tracked(tx') && tx'.End() == tx.End() && tx'.next == tx.next && tx.base <= tx'.base
            && (forall n | tx'.base <= n < tx'.End() :: tx'.At(n) == tx.At(n))
  {
    hide Wire, Nearest, AcceptsAck;
    AcceptedIsAhead(tx, ack);
    TailNumbered(tx, FreedBy(tx, ack));
    hide Numbered;
  }

  lemma {:induction false} TailNumbered(tx: Tx, c: nat)
    requires Numbered(tx) && c <= |tx.entries|
    ensures Numbered(tx.(base := tx.base + c, entries := tx.entries[c..]))
  {
    hide Wire;
    forall i | 0 <= i < |tx.entries| - c ensures tx.entries[c..][i].packet.seqNumber == Wire(tx.base + c + i) {
      assert tx.entries[c + i].packet.seqNumber == Wire(tx.base + (c + i));
    }
  }

  // ---- Loss reports ----

  datatype Loss = Added | DroppedLoss | Ignored

  function Classify(tx: Tx, n: SeqNumber): Loss {
    if !Precedes(n, Wire(tx.next)) then Ignored
    else if tx.entries == [] || Precedes(n, Wire(tx.base)) then DroppedLoss
    else Added
  }

  /** Whatever numbers a report carries, those added to the loss list stand for
      buffered packets that were sent, and all such numbers are added. */
  lemma {:induction false} AddedIsBuffered(tx: Tx, n: SeqNumber)
    requires TxInv(tx)
    ensures Classify(tx, n) == Added <==> tx.base <= Nearest(n, tx.base) < tx.next
  {
    var l := Nearest(n, tx.base);
    CompareIsOrder(n, tx.base);
    if tx.base <= l {
      WindowOrder(l, tx.next);
    } else if tx.base < tx.next && tx.entries == [] {
      assert false;
    }
  }

  lemma {:induction false} AddedIsAhead(tx: Tx, n: SeqNumber)
    requires Classify(tx, n) == Added
    ensures tx.base <= Nearest(n, tx.base) < tx.base + MAX_DIFF
  {
    CompareIsOrder(n, tx.base);
  }

  function AddLoss(tx: Tx, n: SeqNumber): Tx {
    if Classify(tx, n) == Added then tx.(lost := tx.lost + {Nearest(n, tx.base)}) else tx
  }

  function AddLosses(tx: Tx, ns: seq<SeqNumber>): Tx {
    if ns == [] then tx else AddLoss(AddLosses(tx, ns[..|ns| - 1]), ns[|ns| - 1])
  }

  /** A report changes nothing but the loss list, which grows by exactly the numbers
      classified as added. */
  lemma {:induction false} AddLossesExact(tx: Tx, ns: seq<SeqNumber>)
    ensures var tx' := AddLosses(tx, ns);
            && (TxInv(tx) ==> TxInv(tx')) && (Tracked(tx) ==> Tracked(tx'))
            && tx' == tx.(lost := tx'.lost)
            && forall l :: l in tx'.lost <==> l in tx.lost || exists n | n in ns ::
               Classify(tx, n) == Added && l == Nearest(n, tx.base)
  {
    if ns != [] {
      var n := ns[|ns| - 1];
      AddLossesExact(tx, ns[..|ns| - 1]);
      if TxInv(tx) { AddedIsBuffered(tx, n); }
      if Classify(tx, n) == Added { AddedIsAhead(tx, n); }
      hide Nearest, Precedes, Wire;
      assert ns == ns[..|ns| - 1] + [n];
      assert forall m :: m in ns <==> m in ns[..|ns| - 1] || m == n;
    }
  }

  // Each reported number with its verdict.
  function Verdicts(tx: Tx, ns: seq<SeqNumber>): seq<(Loss, SeqNumber)> {
    seq(|ns|, i requires 0 <= i < |ns| => (Classify(tx, ns[i]), ns[i]))
  }

  /** A maximal run of reported numbers with one verdict; `end` is exclusive. */
  datatype LossRange = LossRange(loss: Loss, start: SeqNumber, end: SeqNumber) {
    function Expand(): seq<(Loss, SeqNumber)> {
      seq(Distance(end, start), i requires 0 <= i < Distance(end, start) => (loss, Add(start, i)))
    }
  }

  function Flatten(rs: seq<LossRange>): seq<(Loss, SeqNumber)> {
    if rs == [] then [] else Flatten(rs[..|rs| - 1]) + rs[|rs| - 1].Expand()
  }

  predicate Joins(a: LossRange, b: LossRange) {
    a.loss == b.loss && a.end == b.start
  }

  /** No two neighbouring ranges could have been one. */
  ghost predicate Maximal(rs: seq<LossRange>) {
    forall i, j | 0 <= i < j < |rs| && j == i + 1 :: !Joins(rs[i], rs[j])
  }

  /** Numbers counting up with one verdict do not run round the whole number space. */
  lemma {:induction false} RunIsShort(tx: Tx, start: SeqNumber, count: nat, loss: Loss)
    requires count <= MODULUS
    requires forall i | 0 <= i < count :: Classify(tx, Add(start, i)) == loss
    ensures count < MODULUS
  {
    var next := Wire(tx.next);
    var last := Back(next, 1);
    var i, j := Distance(next, start), Distance(last, start);
    assert Add(start, i) == next && Add(start, j) == last;
    assert Classify(tx, next) == Ignored && Classify(tx, last) != Ignored;
    assert i < count ==> Classify(tx, Add(start, i)) == loss;
    assert j < count ==> Classify(tx, Add(start, j)) == loss;
  }

  lemma {:induction false} AddNext(tx: Tx, ns: seq<SeqNumber>, i: nat)
    requires i < |ns|
    ensures AddLoss(AddLosses(tx, ns[..i]), ns[i]) == AddLosses(tx, ns[..i + 1])
    ensures Classify(AddLosses(tx, ns[..i]), ns[i]) == Classify(tx, ns[i])
  {
    AddLossesExact(tx, ns[..i]);
    assert ns[..i + 1][..i] == ns[..i];
  }

  lemma {:induction false} MaximalAppend(rs: seq<LossRange>, r: LossRange)
    requires Maximal(rs) && (rs != [] ==> !Joins(rs[|rs| - 1], r))
    ensures Maximal(rs + [r])
    ensures Flatten(rs + [r]) == Flatten(rs) + r.Expand()
  {
    hide Add, Distance;
    assert (rs + [r])[..|rs|] == rs;
    forall i, j | 0 <= i < j < |rs| + 1 && j == i + 1 ensures !Joins((rs + [r])[i], (rs + [r])[j]) {
      if j == |rs| { assert (rs + [r])[i] == rs[|rs| - 1]; }
    }
  }

  /** `count` numbers from index `at` count up from `start` with one verdict. */
  predicate RunAt(tx: Tx, ns: seq<SeqNumber>, at: nat, count: nat, loss: Loss, start: SeqNumber)
    requires at + count <= |ns| && count <= MODULUS
  {
    0 < count ==>
      && RunAt(tx, ns, at, count - 1, loss, start)
      && ns[at + count - 1] == Add(start, count - 1)
      && Classify(tx, ns[at + count - 1]) == loss
  }

  lemma {:induction false} RunAtEach(
    tx: Tx, ns: seq<SeqNumber>, at: nat, count: nat, loss: Loss, start: SeqNumber, i: nat)
    requires at + count <= |ns| && count <= MODULUS && i < count
    requires RunAt(tx, ns, at, count, loss, start)
    ensures ns[at + i] == Add(start, i) && Classify(tx, Add(start, i)) == loss
  {
    hide Add, Classify;
    if i < count - 1 {
      RunAtEach(tx, ns, at, count - 1, loss, start, i);
    }
  }

  /** A run with one verdict reads back from its range. */
  lemma {:induction false} RunExpands(tx: Tx, ns: seq<SeqNumber>, at: nat, count: nat, loss: Loss, start: SeqNumber)
    requires at + count <= |ns| && count <= MODULUS && RunAt(tx, ns, at, count, loss, start)
    ensures count < MODULUS
    ensures Verdicts(tx, ns[..at + count])
            == Verdicts(tx, ns[..at]) + LossRange(loss, start, Add(start, count)).Expand()
  {
    forall i | 0 <= i < count ensures Classify(tx, Add(start, i)) == loss {
      RunAtEach(tx, ns, at, count, loss, start, i);
    }
    RunIsShort(tx, start, count, loss);
    assert Distance(Add(start, count), start) == count;
    hide Classify, Add, Distance, RunAt;
    var all := Verdicts(tx, ns[..at]) + LossRange(loss, start, Add(start, count)).Expand();
    forall i | 0 <= i < at + count ensures Verdicts(tx, ns[..at + count])[i] == all[i] {
      if at <= i { RunAtEach(tx, ns, at, count, loss, start, i - at); }
    }
  }

  // ---- Sending ----

  function SendAt(tx: Tx, n: int): Tx
    requires tx.base <= n < tx.End()
  {
    tx.(entries := tx.entries[n - tx.base := tx.entries[n - tx.base].Sent()])
  }

  // The next number to send moves on to the front if it precedes it.
  function DropFront(tx: Tx, c: nat): Tx
    requires c <= |tx.entries|
  {
    var base := tx.base + c;
    Tx(base, tx.entries[c..], if Precedes(Wire(tx.next), Wire(base)) then base else tx.next, KeepFrom(tx.lost, base))
  }

  lemma {:induction false} DropFrontTracked(tx: Tx, c: nat)
    requires Tracked(tx) && c <= |tx.entries|
    ensures Tracked(DropFront(tx, c))
  {
    TailNumbered(tx, c);
    hide Wire, Numbered, Precedes;
  }

  /** In order, the next position to send is then the later of itself and the front. */
  lemma {:induction false} DropFrontSafe(tx: Tx, c: nat)
    requires TxInv(tx) && c <= |tx.entries|
    ensures TxInv(DropFront(tx, c))
    ensures DropFront(tx, c).next == if tx.next < tx.base + c then tx.base + c else tx.next
  {
    WindowOrder(tx.next, tx.base + c);
    TailNumbered(tx, c);
    hide Wire, Numbered, Precedes;
  }

  /** One turn of the sending algorithm. */
  datatype TxStep =
    | SendNew
    | SendProbe
    | ResendLost(lost: int)
    | ResendDue(due: int)
    | GiveUp(count: nat)
    | Flush
    | Idle

  ghost predicate Enabled(tx: Tx, window: nat, probe: bool, step: TxStep) {
    match step
    case SendNew => Buffered(tx, Wire(tx.next)) && tx.Unacked() <= window
    case SendProbe => probe && Buffered(tx, Wire(tx.next)) && Wire(tx.next) % 16 == 0
    case ResendLost(l) => l in tx.lost && (forall k | k in tx.lost :: l <= k) && tx.base <= l < tx.End()
    case ResendDue(n) => tx.base <= n < tx.End()
    case GiveUp(c) => 0 < c <= |tx.entries|
    case Flush => |tx.entries| == 1 && tx.lost == {} && !Buffered(tx, Wire(tx.next))
    case Idle => true
  }

  ghost function Apply(tx: Tx, window: nat, probe: bool, step: TxStep): Tx
    requires Enabled(tx, window, probe, step)
  {
    match step
    case SendNew => SendAt(tx, PositionOf(tx, Wire(tx.next))).(next := tx.next + 1)
    case SendProbe => SendAt(tx, PositionOf(tx, Wire(tx.next))).(next := tx.next + 1)
    case ResendLost(l) => SendAt(tx, l).(lost := tx.lost - {l})
    case ResendDue(n) => SendAt(tx, n)
    case GiveUp(c) => DropFront(tx, c)
    case Flush => tx.(base := tx.base + 1, entries := [])
    case Idle => tx
  }

  /** Which position a turn transmits. */
  function Transmits(tx: Tx, step: TxStep): Option<int> {
    match step
    case SendNew => Some(PositionOf(tx, Wire(tx.next)))
    case SendProbe => Some(PositionOf(tx, Wire(tx.next)))
    case ResendLost(l) => Some(l)
    case ResendDue(n) => Some(n)
    case Flush => Some(tx.base)
    case GiveUp(_) => None
    case Idle => None
  }

  /** No more than the window plus two are unacknowledged: one because the check comes
      before the send, one for the probe packet that follows unchecked. */
  predicate FlowInv(tx: Tx, window: nat, probe: bool) {
    tx.next - tx.base <= window + (if probe then 1 else 2)
  }

  /** In any state, every turn keeps the numbering and every packet that stays, and transmits
      only what is in the buffer. */
  lemma {:induction false} StepSafe(tx: Tx, window: nat, probe: bool, step: TxStep)
    requires Tracked(tx) && Enabled(tx, window, probe, step)
    ensures var tx' := Apply(tx, window, probe, step);
            && Tracked(tx') && tx'.End() == tx.End() && tx.base <= tx'.base
            && (Transmits(tx, step).Some? ==> tx.base <= Transmits(tx, step).value < tx.End())
            && (forall n | tx'.base <= n < tx'.End() :: tx'.At(n) == tx.At(n))
  {
    hide Wire, Distance, Precedes;
    if step.GiveUp? { DropFrontTracked(tx, step.count); }
  }

  /** A transmission is counted, and marks the packet for the next time; every other entry
      stays as it is. */
  lemma {:induction false} TransmissionIsCounted(tx: Tx, window: nat, probe: bool, step: TxStep, n: int)
    requires Enabled(tx, window, probe, step)
    requires var tx' := Apply(tx, window, probe, step); tx.base <= tx'.base <= n < tx'.End() == tx.End()
    ensures var tx' := Apply(tx, window, probe, step);
            var e, e' := tx.entries[n - tx.base], tx'.entries[n - tx'.base];
            && e'.packet.Content() == e.packet.Content()
            && (if Transmits(tx, step) == Some(n)
                then e'.packet.retransmitted && e'.transmitCount == e.transmitCount + 1
                else e' == e)
  {
    hide Wire, Distance, Precedes;
  }

  /** In order, every turn also keeps the order and the flow bound; new packets go out one
      after the other, each once; and what was lost stays so until it is sent again. */
  lemma {:induction false} StepInOrder(tx: Tx, window: nat, probe: bool, step: TxStep)
    requires TxInv(tx) && FlowInv(tx, window, probe) && Enabled(tx, window, probe, step)
    ensures var tx' := Apply(tx, window, probe, step);
            && TxInv(tx') && FlowInv(tx', window, step == SendNew)
            && (if step == SendNew || step == SendProbe
                then Transmits(tx, step) == Some(tx.next) && tx'.next == tx.next + 1
                else tx'.next == if tx.next < tx'.base && step.GiveUp? then tx'.base else tx.next)
            && tx'.lost == if step.ResendLost? then tx.lost - {step.lost} else KeepFrom(tx.lost, tx'.base)
  {
    hide Wire, Distance, Precedes;
    NextInOrder(tx);
    if step.GiveUp? { DropFrontSafe(tx, step.count); }
  }

  /** In order, an acknowledgement that is accepted frees exactly the packets below the
      position it stands for, and keeps the order and the flow bound. */
  lemma {:induction false} AckInOrder(tx: Tx, window: nat, probe: bool, ack: SeqNumber)
    requires TxInv(tx) && FlowInv(tx, window, probe) && AcceptsAck(tx, ack)
    ensures var a := Nearest(ack, tx.base);
            && tx.base <= a <= tx.next && tx.base + FreedBy(tx, ack) == a
            && TxInv(Acknowledge(tx, ack)) && FlowInv(Acknowledge(tx, ack), window, probe)
  {
    AcceptedAckIsInWindow(tx, ack);
    hide Wire, Nearest, AcceptsAck;
    TailNumbered(tx, FreedBy(tx, ack));
  }

  // ---- Too-late packets ----

  /** How many packets go when the front is too late: all late ones, and with the last
      of them the rest of its message. */
  function DropScan(ps: seq<SendBufferEntry>, m: MsgNumber, late: DataPacket -> bool): (c: nat)
    ensures c <= |ps|
  {
    if ps == [] then 0
    else if late(ps[0].packet) then 1 + DropScan(ps[1..], ps[0].packet.messageNumber, late)
    else if ps[0].packet.messageNumber == m then 1 + DropScan(ps[1..], m, late)
    else 0
  }

  /** The drop never stops inside a message and leaves an on-time packet in front. */
  lemma {:induction false} DropScanWholeMessages(ps: seq<SendBufferEntry>, m: MsgNumber, late: DataPacket -> bool)
    ensures var c := DropScan(ps, m, late);
            c < |ps| ==>
              && !late(ps[c].packet)
              && ps[c].packet.messageNumber != (if c == 0 then m else ps[c - 1].packet.messageNumber)
  {
    if ps != [] {
      if late(ps[0].packet) {
        DropScanWholeMessages(ps[1..], ps[0].packet.messageNumber, late);
      } else if ps[0].packet.messageNumber == m {
        DropScanWholeMessages(ps[1..], m, late);
      }
    }
  }

  /** And it takes nothing else: every packet given up is late, or belongs to the message of
      the packet given up before it. */
  lemma {:induction false} DropScanOnlyLate(ps: seq<SendBufferEntry>, m: MsgNumber, late: DataPacket -> bool, i: nat)
    requires i < DropScan(ps, m, late)
    ensures late(ps[i].packet)
            || ps[i].packet.messageNumber == (if i == 0 then m else ps[i - 1].packet.messageNumber)
  {
    if i > 0 {
      var m' := if late(ps[0].packet) then ps[0].packet.messageNumber else m;
      DropScanOnlyLate(ps[1..], m', late, i - 1);
    }
  }

  /** So each packet given up is late or of the message of a late one in front of it. */
  lemma {:induction false} GivenUpWithLate(ps: seq<SendBufferEntry>, late: DataPacket -> bool, i: nat) returns (k: nat)
    requires ps != [] && late(ps[0].packet) && i < DropScan(ps, ps[0].packet.messageNumber, late)
    ensures k <= i && late(ps[k].packet) && ps[k].packet.messageNumber == ps[i].packet.messageNumber
  {
    DropScanOnlyLate(ps, ps[0].packet.messageNumber, late, i);
    if late(ps[i].packet) {
      k := i;
    } else {
      k := GivenUpWithLate(ps, late, i - 1);
    }
  }

  // ---- Byte accounting ----

  function SumBytes(es: seq<SendBufferEntry>): nat {
    if es == [] then 0 else es[0].packet.WireSize() + SumBytes(es[1..])
  }

  lemma {:induction false} SumBytesSplit(es: seq<SendBufferEntry>, c: nat)
    requires c <= |es|
    ensures SumBytes(es) == SumBytes(es[..c]) + SumBytes(es[c..])
  {
    if c == 0 {
      assert es[..0] == [] && es[0..] == es;
    } else {
      SumBytesSplit(es[1..], c - 1);
      assert es[..c][1..] == es[1..][..c - 1] && es[1..][c - 1..] == es[c..];
    }
  }

  lemma {:induction false} SumBytesAppend(es: seq<SendBufferEntry>, e: SendBufferEntry)
    ensures SumBytes(es + [e]) == SumBytes(es) + e.packet.WireSize()
  {
    SumBytesSplit(es + [e], |es|);
    assert (es + [e])[..|es|] == es && (es + [e])[|es|..] == [e];
    assert [e][1..] == [] && SumBytes([e]) == e.packet.WireSize() + SumBytes([e][1..]);
  }

  lemma {:induction false} SumBytesUpdate(es: seq<SendBufferEntry>, i: nat, e: SendBufferEntry)
    requires i < |es| && e.packet.WireSize() == es[i].packet.WireSize()
    ensures SumBytes(es[i := e]) == SumBytes(es)
  {
    if i > 0 {
      SumBytesUpdate(es[1..], i - 1, e);
      assert es[i := e][1..] == es[1..][i - 1 := e];
    } else {
      assert es[i := e][1..] == es[1..];
    }
  }
}
