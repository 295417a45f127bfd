/** The sending half of a connection: messages in, packets out, at the pace of the SND
    timer. */
module Senders {
  import opened SeqNumbers
  import opened Packets
  import opened Splits
  import opened Streams
  import opened Encapsulations
  import opened LossCompression
  import opened SendModel
  import opened SendBuffers
  import opened SendAlgorithms
  import T = Timers

  /** What a connection hands to its sender. */
  datatype Input =
    | Data(timestamp: TimeStamp, data: seq<Byte>)
    | Acked(ack: SeqNumber, fullAck: Option<U32>, rtt: Option<Rtt>)
    | Nak(words: seq<U32>)
    | Poll(now: int, timestamp: TimeStamp, shouldDrain: bool)

  /** What a sender is set up with. */
  datatype Config = Config(src: Source, window: nat, size: nat, latencyWindow: U32, period: nat)

  /** What was submitted, the buffer, the retransmission queue, the round-trip time, the
      next full acknowledgement and where the SND timer stands. */
  datatype State = State(submissions: seq<Submission>, tx: Tx, queue: RtoQueue, rtt: Rtt, nextFullAck: U32, last: int)

  predicate Sound(c: Config) {
    0 < c.src.size && 0 < c.period && c.size + 1 < MAX_DIFF
  }

  function Capacity(size: nat): nat {
    if size == 0 then 1 else size
  }

  // ---- What the inputs do ----

  // New packets go in at the back; what the buffer has no room for leaves at the front.
  function PushAll(tx: Tx, size: nat, ps: seq<DataPacket>): Tx {
    var all := tx.entries + Unsent(ps);
    var out := if |all| <= Capacity(size) then 0 else |all| - Capacity(size);
    Tx(tx.base + out, all[out..], tx.next, KeepFrom(tx.lost, tx.base + out))
  }

  function Unsent(ps: seq<DataPacket>): (es: seq<SendBufferEntry>)
    ensures |es| == |ps|
  {
    seq(|ps|, i requires 0 <= i < |ps| => SendBufferEntry(ps[i], 0))
  }

  // The packets that a message adds to the stream are pushed.
  function Submitted(c: Config, s: State, m: Submission): State
    requires Sound(c)
  {
    var before, after := Stream(c.src, s.submissions), Stream(c.src, s.submissions + [m]);
    StreamExtends(c.src, s.submissions, m);
    s.(submissions := s.submissions + [m], tx := PushAll(s.tx, c.size, after[|before|..]))
  }

  // An acknowledgement that is accepted brings the round-trip time; unless its full
  // number is an old one, it also frees the front of the buffer.
  ghost function Acknowledged(s: State, ack: SeqNumber, fullAck: Option<U32>, rtt: Option<Rtt>): State {
    if !AcceptsAck(s.tx, ack) then s
    else
      var timed := s.(rtt := if rtt.Some? then rtt.value else s.rtt);
      if fullAck.Some? && (fullAck.value < s.nextFullAck || fullAck.value == U32_RANGE - 1) then timed
      else
        timed.(tx := Acknowledge(s.tx, ack),
               queue := s.queue - WireRange(s.tx.base, s.tx.base + FreedBy(s.tx, ack)),
               nextFullAck := if fullAck.Some? then fullAck.value + 1 else s.nextFullAck)
  }

  function Given(c: Config, s: State, timestamp: TimeStamp, shouldDrain: bool): Conditions {
    Conditions(c.window, shouldDrain, timestamp, c.latencyWindow, s.rtt)
  }

  // What the steps of an SND event come to.
  ghost function Event(c: Config, s: State, elapsed: nat, timestamp: TimeStamp, shouldDrain: bool, steps: seq<TxStep>)
    : Option<(Sending, seq<DataPacket>)>
  {
    Run(Given(c, s, timestamp, shouldDrain), Sending(s.tx, s.queue, elapsed, false), steps)
  }

  // An SND event takes steps until its budget is used up; None if these are not they.
  ghost function Fired(c: Config, s: State, elapsed: nat, timestamp: TimeStamp, shouldDrain: bool, steps: seq<TxStep>)
    : Option<(State, seq<DataPacket>)>
  {
    var r := Event(c, s, elapsed, timestamp, shouldDrain, steps);
    if r.Some? && r.value.0.budget == 0 && !r.value.0.probe
    then Some((s.(tx := r.value.0.tx, queue := r.value.0.queue), r.value.1))
    else None
  }

  // A poll moves the timer on by the periods it counts, and fires if there are any.
  ghost function Polled(c: Config, s: State, now: int, timestamp: TimeStamp, shouldDrain: bool, steps: seq<TxStep>)
    : Option<(State, seq<DataPacket>)>
  {
    var due := T.Due(s.last, c.period, now);
    if due.None? then if steps == [] then Some((s, [])) else None
    else Fired(c, s.(last := s.last + c.period * due.value), due.value, timestamp, shouldDrain, steps)
  }

  /** Where the source stops: on a malformed loss report, on a full acknowledgement number
      that cannot be counted up, and where a lost number comes up that is not buffered. */
  ghost predicate Halts(c: Config, s: State, input: Input, steps: seq<TxStep>) {
    match input
    case Data(_, _) => false
    case Acked(ack, fullAck, _) => AcceptsAck(s.tx, ack) && fullAck == Some(U32_RANGE - 1)
    case Nak(words) => Decompress(words).None?
    case Poll(now, timestamp, shouldDrain) =>
      var due := T.Due(s.last, c.period, now);
      && due.Some? && Event(c, s, due.value, timestamp, shouldDrain, steps).Some?
      && Stuck(Given(c, s, timestamp, shouldDrain), Event(c, s, due.value, timestamp, shouldDrain, steps).value.0)
  }

  /** What was sent by then. */
  ghost function Partial(c: Config, s: State, input: Input, steps: seq<TxStep>): seq<DataPacket>
    requires Halts(c, s, input, steps)
  {
    if input.Poll?
    then Event(c, s, T.Due(s.last, c.period, input.now).value, input.timestamp, input.shouldDrain, steps).value.1
    else []
  }

  /** One input: the new state and what is sent. Only a poll takes steps. */
  ghost function Step(c: Config, s: State, input: Input, steps: seq<TxStep>): Option<(State, seq<DataPacket>)>
    requires Sound(c)
  {
    if Halts(c, s, input, steps) || (!input.Poll? && steps != []) then None
    else match input
      case Data(timestamp, data) => Some((Submitted(c, s, Submission(timestamp, data)), []))
      case Acked(ack, fullAck, rtt) => Some((Acknowledged(s, ack, fullAck, rtt), []))
      case Nak(words) => Some((s.(tx := AddLosses(s.tx, Decompress(words).value)), []))
      case Poll(now, timestamp, shouldDrain) => Polled(c, s, now, timestamp, shouldDrain, steps)
  }

  /** Any number of inputs, each with the steps it took. */
  ghost function Fold(
    c: Config, s: State, inputs: seq<Input>, traces: seq<seq<TxStep>>): Option<(State, seq<DataPacket>)>
    requires Sound(c) && |inputs| == |traces|
    decreases |inputs|
  {
    if inputs == [] then Some((s, []))
    else
      var n := |inputs| - 1;
      var before := Fold(c, s, inputs[..n], traces[..n]);
      if before.None? then None
      else
        var after := Step(c, before.value.0, inputs[n], traces[n]);
        if after.None? then None else Some((after.value.0, before.value.1 + after.value.1))
  }

  // ---- What every run keeps ----

  /** The buffer holds a stretch of the stream, up to its end. */
  ghost predicate Buffers(tx: Tx, init: int, made: seq<DataPacket>) {
    && init <= tx.base && tx.End() == init + |made|
    && forall n | tx.base <= n < tx.End() :: tx.At(n) == made[n - init]
  }

  /** The buffer is numbered, within its capacity, and holds the end of the stream. */
  ghost predicate Inv(c: Config, s: State)
    requires Sound(c)
  {
    && Tracked(s.tx) && |s.tx.entries| <= Capacity(c.size)
    && Buffers(s.tx, c.src.init, Stream(c.src, s.submissions))
  }

  /** It is in order and within the flow bound. */
  ghost predicate InOrder(c: Config, s: State) {
    TxInv(s.tx) && FlowInv(s.tx, c.window, false)
  }

  /** A message so far ahead of what was sent that packets leave the buffer unsent. */
  predicate Overruns(c: Config, s: State, input: Input)
    requires Sound(c)
  {
    && input.Data?
    && s.tx.next + Capacity(c.size)
       < c.src.init + |Stream(c.src, s.submissions + [Submission(input.timestamp, input.data)])|
  }

  /** Nothing is left to send at this time. */
  ghost predicate Quiet(c: Config, s: State, timestamp: TimeStamp, shouldDrain: bool) {
    NothingToDo(Given(c, s, timestamp, shouldDrain), s.tx, s.queue)
  }

  /** One input keeps the invariant, and what it sends are packets of the stream. It keeps
      the order exactly when no packet leaves unsent. */
  lemma {:induction false} StepKeepsInv(c: Config, s: State, input: Input, steps: seq<TxStep>)
    requires Sound(c) && Inv(c, s) && Step(c, s, input, steps).Some?
    ensures var (t, out) := Step(c, s, input, steps).value;
            && Inv(c, t) && Stream(c.src, s.submissions) <= Stream(c.src, t.submissions)
            && (InOrder(c, s) ==> (InOrder(c, t) <==> !Overruns(c, s, input)))
            && forall p | p in out :: p.Content() in Stream(c.src, t.submissions)
  {
    hide Inv, InOrder, Stream, Decompress, AddLosses, Submitted, Acknowledged, Fired, Event, Stuck;
    match input {
      case Data(timestamp, data) => SubmittedKeeps(c, s, Submission(timestamp, data));
      case Acked(ack, fullAck, rtt) => AcknowledgedKeeps(c, s, ack, fullAck, rtt);
      case Nak(words) => ReportedKeeps(c, s, Decompress(words).value);
      case Poll(now, timestamp, shouldDrain) =>
        var due := T.Due(s.last, c.period, now);
        if due.Some? {
          var s' := s.(last := s.last + c.period * due.value);
          MovedKeeps(c, s, s');
          FiredKeeps(c, s', due.value, timestamp, shouldDrain, steps);
        }
    }
  }

  /** A poll sends at most one packet more than the periods it counts, and fewer only if
      then nothing is left to send. */
  lemma {:induction false} PollCounts(
    c: Config, s: State, now: int, timestamp: TimeStamp, shouldDrain: bool, steps: seq<TxStep>)
    requires Sound(c) && Inv(c, s) && Polled(c, s, now, timestamp, shouldDrain, steps).Some?
    ensures var (t, out) := Polled(c, s, now, timestamp, shouldDrain, steps).value;
            var due := T.Due(s.last, c.period, now);
            && t.last == s.last + c.period * T.Count(due)
            && |out| <= T.Count(due) + (if due.Some? then 1 else 0)
            && (|out| < T.Count(due) ==> Quiet(c, t, timestamp, shouldDrain))
  {
    hide Run, Tracked, Buffers, NothingToDo, Stream, T.Due;
    var due := T.Due(s.last, c.period, now);
    if due.Some? {
      RunCounts(Given(c, s, timestamp, shouldDrain), Sending(s.tx, s.queue, due.value, false), steps);
    }
  }

  /** Every run, whatever the sender is handed and whenever it is polled: the invariant
      holds at its end, every packet sent is a packet of the stream, and no more were sent
      than periods counted and SND events. */
  lemma {:induction false} EveryRunIsSafe(c: Config, s: State, inputs: seq<Input>, traces: seq<seq<TxStep>>)
    requires Sound(c) && Inv(c, s) && |inputs| == |traces| && Fold(c, s, inputs, traces).Some?
    ensures var (t, out) := Fold(c, s, inputs, traces).value;
            && Inv(c, t) && (forall p | p in out :: p.Content() in Stream(c.src, t.submissions))
            && t.last == T.Last(s.last, c.period, PollTimes(inputs))
            && |out| <= T.Total(s.last, c.period, PollTimes(inputs)) + T.Events(s.last, c.period, PollTimes(inputs))
    decreases |inputs|
  {
    hide Inv, Step, Stream, T.Last, T.Total, T.Events, T.Due;
    if inputs == [] {
      NothingPolled(s.last, c.period);
    } else {
      var n := |inputs| - 1;
      EveryRunIsSafe(c, s, inputs[..n], traces[..n]);
      var t := Fold(c, s, inputs[..n], traces[..n]).value.0;
      StepKeepsInv(c, t, inputs[n], traces[n]);
      StepCounts(c, t, inputs[n], traces[n]);
      PollNext(s.last, c.period, inputs);
    }
  }

  /** So no more packets were sent by the last poll than whole periods elapsed and SND
      events, if the clock does not run backwards. */
  lemma {:induction false} EveryRunKeepsPace(c: Config, s: State, inputs: seq<Input>, traces: seq<seq<TxStep>>)
    requires Sound(c) && Inv(c, s) && |inputs| == |traces| && Fold(c, s, inputs, traces).Some?
    requires PollTimes(inputs) != [] && T.Forward(s.last, PollTimes(inputs))
    ensures var polls := PollTimes(inputs);
            |Fold(c, s, inputs, traces).value.1|
            <= T.Elapsed(s.last, c.period, polls[|polls| - 1]) + T.Events(s.last, c.period, polls)
  {
    hide Inv, Fold, T.Total, T.Events, T.Elapsed, T.Forward, PollTimes;
    EveryRunIsSafe(c, s, inputs, traces);
    T.TotalIsBounded(s.last, c.period, PollTimes(inputs));
  }

  /** No message of the run overruns the buffer. */
  ghost predicate NeverOverruns(c: Config, s: State, inputs: seq<Input>, traces: seq<seq<TxStep>>)
    requires Sound(c) && |inputs| == |traces|
    decreases |inputs|
  {
    inputs != [] ==>
      var n := |inputs| - 1;
      var r := Fold(c, s, inputs[..n], traces[..n]);
      NeverOverruns(c, s, inputs[..n], traces[..n]) && (r.Some? ==> !Overruns(c, r.value.0, inputs[n]))
  }

  /** Then the sender stays in order, with at most the window and two packets under way, and
      no poll stops it. */
  lemma {:induction false} RunStaysInOrder(
    c: Config, s: State, inputs: seq<Input>, traces: seq<seq<TxStep>>, poll: Input, steps: seq<TxStep>)
    requires Sound(c) && Inv(c, s) && InOrder(c, s) && |inputs| == |traces| && Fold(c, s, inputs, traces).Some?
    requires NeverOverruns(c, s, inputs, traces) && poll.Poll?
    ensures var t := Fold(c, s, inputs, traces).value.0;
            InOrder(c, t) && t.tx.Unacked() <= c.window + 2 && !Halts(c, t, poll, steps)
    decreases |inputs|
  {
    hide Inv, InOrder, Step, Stream, Halts, Overruns;
    if inputs != [] {
      var n := |inputs| - 1;
      RunStaysInOrder(c, s, inputs[..n], traces[..n], poll, steps);
      EveryRunIsSafe(c, s, inputs[..n], traces[..n]);
      StepKeepsInv(c, Fold(c, s, inputs[..n], traces[..n]).value.0, inputs[n], traces[n]);
    }
    OrderedGoesOn(c, Fold(c, s, inputs, traces).value.0, poll, steps);
  }

  lemma {:induction false} OrderedGoesOn(c: Config, s: State, poll: Input, steps: seq<TxStep>)
    requires InOrder(c, s) && poll.Poll?
    ensures !Halts(c, s, poll, steps) && s.tx.Unacked() <= c.window + 2
  {
    hide Run, TxInv, FlowInv, Stuck;
    var due := T.Due(s.last, c.period, poll.now);
    if due.Some? && Event(c, s, due.value, poll.timestamp, poll.shouldDrain, steps).Some? {
      var given := Given(c, s, poll.timestamp, poll.shouldDrain);
      RunInOrder(given, Sending(s.tx, s.queue, due.value, false), steps);
      NeverStuckInOrder(given, Event(c, s, due.value, poll.timestamp, poll.shouldDrain, steps).value.0);
    }
    UnackedInOrder(s.tx, c.window);
  }

  lemma {:induction false} UnackedInOrder(tx: Tx, window: nat)
    requires TxInv(tx) && FlowInv(tx, window, false)
    ensures tx.Unacked() <= window + 2
  {
    NextInOrder(tx);
    hide Wire, Distance;
  }

  /** No poll leaves the sender with nothing to send. */
  ghost predicate AlwaysBusy(c: Config, s: State, inputs: seq<Input>, traces: seq<seq<TxStep>>)
    requires Sound(c) && |inputs| == |traces|
    decreases |inputs|
  {
    inputs != [] ==>
      var n := |inputs| - 1;
      var r := Fold(c, s, inputs, traces);
      && AlwaysBusy(c, s, inputs[..n], traces[..n])
      && (r.Some? && inputs[n].Poll? ==> !Quiet(c, r.value.0, inputs[n].timestamp, inputs[n].shouldDrain))
  }

  /** And it sends no fewer than the periods counted, as long as it always has something to
      send. */
  lemma {:induction false} BusyRunKeepsUp(c: Config, s: State, inputs: seq<Input>, traces: seq<seq<TxStep>>)
    requires Sound(c) && Inv(c, s) && |inputs| == |traces| && Fold(c, s, inputs, traces).Some?
    requires AlwaysBusy(c, s, inputs, traces)
    ensures T.Total(s.last, c.period, PollTimes(inputs)) <= |Fold(c, s, inputs, traces).value.1|
    decreases |inputs|
  {
    hide Inv, Step, Stream, T.Last, T.Total, T.Events, T.Due, Quiet;
    if inputs == [] {
      NothingPolled(s.last, c.period);
    } else {
      var n := |inputs| - 1;
      BusyRunKeepsUp(c, s, inputs[..n], traces[..n]);
      EveryRunIsSafe(c, s, inputs[..n], traces[..n]);
      StepCounts(c, Fold(c, s, inputs[..n], traces[..n]).value.0, inputs[n], traces[n]);
      PollNext(s.last, c.period, inputs);
    }
  }

  lemma {:induction false} StepCounts(c: Config, s: State, input: Input, steps: seq<TxStep>)
    requires Sound(c) && Inv(c, s) && Step(c, s, input, steps).Some?
    ensures var (t, out) := Step(c, s, input, steps).value;
            var due := if input.Poll? then T.Due(s.last, c.period, input.now) else None;
            && t.last == s.last + c.period * T.Count(due)
            && |out| <= T.Count(due) + (if due.Some? then 1 else 0)
            && (input.Poll? && |out| < T.Count(due) ==> Quiet(c, t, input.timestamp, input.shouldDrain))
  {
    hide Inv, Polled, Stream, T.Due, Quiet;
    if input.Poll? {
      PollCounts(c, s, input.now, input.timestamp, input.shouldDrain, steps);
    }
  }

  // ---- The polls among the inputs ----

  function Times(input: Input): seq<int> {
    if input.Poll? then [input.now] else []
  }

  function PollTimes(inputs: seq<Input>): seq<int> {
    if inputs == [] then [] else PollTimes(inputs[..|inputs| - 1]) + Times(inputs[|inputs| - 1])
  }

  lemma {:induction false} NothingPolled(start: int, period: nat)
    ensures T.Last(start, period, []) == start && T.Total(start, period, []) == 0 && T.Events(start, period, []) == 0
  {
  }

  lemma {:induction false} PollNext(start: int, period: nat, inputs: seq<Input>)
    requires inputs != []
    ensures var n := |inputs| - 1;
            var before, after := PollTimes(inputs[..n]), PollTimes(inputs);
            var due := if inputs[n].Poll? then T.Due(T.Last(start, period, before), period, inputs[n].now) else None;
            && T.Last(start, period, after) == T.Last(start, period, before) + period * T.Count(due)
            && T.Total(start, period, after) == T.Total(start, period, before) + T.Count(due)
            && T.Events(start, period, after) == T.Events(start, period, before) + if due.Some? then 1 else 0
  {
    hide T.Last, T.Total, T.Events, T.Due;
    var n := |inputs| - 1;
    if inputs[n].Poll? {
      T.OnePoll(start, period, PollTimes(inputs[..n]), inputs[n].now);
    } else {
      assert PollTimes(inputs[..n]) + [] == PollTimes(inputs[..n]);
    }
  }

  // ---- What each input keeps ----

  lemma {:induction false} StreamExtends(src: Source, ms: seq<Submission>, m: Submission)
    requires 0 < src.size
    ensures Stream(src, ms) < Stream(src, ms + [m])
  {
    hide Stream;
    StreamGrows(src, ms + [m], |ms|, |ms| + 1);
    assert (ms + [m])[..|ms|] == ms && (ms + [m])[..|ms| + 1] == ms + [m];
  }

  lemma {:induction false} MovedKeeps(c: Config, s: State, s': State)
    requires Sound(c) && Inv(c, s) && s' == s.(last := s'.last)
    ensures Inv(c, s') && (InOrder(c, s') <==> InOrder(c, s))
  {
  }

  lemma {:induction false} SubmittedKeeps(c: Config, s: State, m: Submission)
    requires Sound(c) && Inv(c, s)
    ensures Inv(c, Submitted(c, s, m)) && Stream(c.src, s.submissions) <= Stream(c.src, Submitted(c, s, m).submissions)
    ensures InOrder(c, s) ==> (InOrder(c, Submitted(c, s, m)) <==> !Overruns(c, s, Data(m.timestamp, m.data)))
  {
    hide Tracked, TxInv, FlowInv, Stream, PushAll, Buffers;
    var before, after := Stream(c.src, s.submissions), Stream(c.src, s.submissions + [m]);
    StreamExtends(c.src, s.submissions, m);
    forall i | 0 <= i < |after| ensures after[i].seqNumber == Wire(c.src.init + i) && after[i].Content() == after[i] {
      StreamNumbered(c.src, s.submissions + [m], i);
    }
    hide Wire;
    PushAllKeeps(c, s.tx, before, after);
    if InOrder(c, s) { PushAllInOrder(c, s.tx, before, after); }
  }

  ghost predicate MadeInOrder(init: int, made: seq<DataPacket>) {
    forall i | 0 <= i < |made| :: made[i].seqNumber == Wire(init + i) && made[i].Content() == made[i]
  }

  /** Pushing the rest of a stream keeps the numbering and the stream. */
  lemma {:induction false} PushAllKeeps(c: Config, tx: Tx, before: seq<DataPacket>, after: seq<DataPacket>)
    requires Sound(c) && Tracked(tx) && |tx.entries| <= Capacity(c.size)
    requires before <= after && MadeInOrder(c.src.init, after) && Buffers(tx, c.src.init, before)
    ensures var tx' := PushAll(tx, c.size, after[|before|..]);
            Tracked(tx') && |tx'.entries| <= Capacity(c.size) && Buffers(tx', c.src.init, after)
  {
    hide Wire, Unsent, PushAll, Capacity, MadeInOrder, Tracked, Buffers, Numbered;
    var tx' := PushAll(tx, c.size, after[|before|..]);
    PushAllSpan(c, tx, before, after);
    forall n | tx'.base <= n < tx'.End() ensures Holds(tx', n, c.src.init, after) {
      PushedAt(tx, c.size, c.src.init, before, after, n);
    }
    HoldsStream(tx', c.src.init, after);
  }

  /** And the order, exactly if no packet leaves unsent. */
  lemma {:induction false} PushAllInOrder(c: Config, tx: Tx, before: seq<DataPacket>, after: seq<DataPacket>)
    requires Sound(c) && TxInv(tx) && FlowInv(tx, c.window, false) && |tx.entries| <= Capacity(c.size)
    requires before <= after && Buffers(tx, c.src.init, before)
    requires Tracked(PushAll(tx, c.size, after[|before|..]))
    ensures var tx' := PushAll(tx, c.size, after[|before|..]);
            TxInv(tx') && FlowInv(tx', c.window, false) <==> c.src.init + |after| <= tx.next + Capacity(c.size)
  {
    hide Wire, Numbered;
  }

  /** The position has its number and its packet of the stream. */
  ghost predicate Holds(tx: Tx, n: int, init: int, made: seq<DataPacket>) {
    tx.base <= n < tx.End() ==>
      tx.entries[n - tx.base].packet.seqNumber == Wire(n) && 0 <= n - init < |made| && tx.At(n) == made[n - init]
  }

  lemma {:induction false} HoldsStream(tx: Tx, init: int, made: seq<DataPacket>)
    requires init <= tx.base <= tx.End() == init + |made| && |tx.entries| < MAX_DIFF && Spans(tx.lost, tx.base)
    requires forall n | tx.base <= n < tx.End() :: Holds(tx, n, init, made)
    ensures Tracked(tx) && Buffers(tx, init, made)
  {
    hide Wire;
    forall i | 0 <= i < |tx.entries| ensures tx.entries[i].packet.seqNumber == Wire(tx.base + i) {
      assert Holds(tx, tx.base + i, init, made);
    }
    forall n | tx.base <= n < tx.End() ensures tx.At(n) == made[n - init] {
      assert Holds(tx, n, init, made);
    }
  }

  lemma {:induction false} PushAllSpan(c: Config, tx: Tx, before: seq<DataPacket>, after: seq<DataPacket>)
    requires Sound(c) && Tracked(tx) && |tx.entries| <= Capacity(c.size)
    requires before <= after && Buffers(tx, c.src.init, before)
    ensures var tx' := PushAll(tx, c.size, after[|before|..]);
            && c.src.init <= tx.base <= tx'.base <= tx'.End() == c.src.init + |after|
            && |tx'.entries| <= Capacity(c.size) < MAX_DIFF && Spans(tx'.lost, tx'.base)
  {
    hide Wire, Numbered;
  }

  lemma {:induction false} PushedAt(
    tx: Tx, size: nat, init: int, before: seq<DataPacket>, after: seq<DataPacket>, n: int)
    requires Tracked(tx) && before <= after && MadeInOrder(init, after) && Buffers(tx, init, before)
    requires var tx' := PushAll(tx, size, after[|before|..]); tx'.base <= n < tx'.End()
    ensures Holds(PushAll(tx, size, after[|before|..]), n, init, after)
  {
    hide Wire, Capacity, KeepFrom;
    var tx' := PushAll(tx, size, after[|before|..]);
    assert tx'.entries[n - tx'.base] == (tx.entries + Unsent(after[|before|..]))[n - tx.base];
    if n < tx.End() {
      assert tx.At(n) == before[n - init];
      assert tx.entries[n - tx.base].packet.seqNumber == Wire(tx.base + (n - tx.base));
    } else {
      assert after[|before|..][n - tx.End()] == after[n - init];
      assert after[n - init].seqNumber == Wire(init + (n - init));
    }
  }

  /** The acknowledgement stands for a position that it can acknowledge. */
  ghost predicate InFlight(tx: Tx, ack: SeqNumber) {
    tx.entries != [] && tx.base <= Nearest(ack, tx.base) <= tx.next
  }

  /** What an acknowledgement does, in order. Exactly what lies below the position it stands
      for leaves the buffer, the loss list and the retransmission queue, unless that is no
      position under way or its full number is an old one; and then nothing does. */
  lemma {:induction false} AcknowledgedExactly(s: State, ack: SeqNumber, fullAck: Option<U32>, rtt: Option<Rtt>)
    requires TxInv(s.tx) && fullAck != Some(U32_RANGE - 1)
    ensures var t, a := Acknowledged(s, ack, fullAck, rtt), Nearest(ack, s.tx.base);
            && t.submissions == s.submissions && t.last == s.last && t.tx.next == s.tx.next
            && t.rtt == (if InFlight(s.tx, ack) && rtt.Some? then rtt.value else s.rtt)
            && (if InFlight(s.tx, ack) && (fullAck.Some? ==> s.nextFullAck <= fullAck.value)
                then
                  && t.tx.base == a && t.tx.entries == s.tx.entries[a - s.tx.base..]
                  && (forall l :: l in t.tx.lost <==> l in s.tx.lost && a <= l)
                  && (forall k :: k in t.queue <==> k in s.queue && forall n | s.tx.base <= n < a :: k != Wire(n))
                  && (forall k | k in t.queue :: t.queue[k] == s.queue[k])
                  && t.nextFullAck == if fullAck.Some? then fullAck.value + 1 else s.nextFullAck
                else t.tx == s.tx && t.queue == s.queue && t.nextFullAck == s.nextFullAck)
  {
    if s.tx.entries != [] { AcceptedAckIsInWindow(s.tx, ack); }
    hide AcceptsAck, Nearest, Wire, Numbered;
  }

  /** On which acknowledgements and reports the source stops, in order: a full number that
      cannot be counted up, for a position under way, and words that are not well formed. */
  lemma {:induction false} StopsExactly(c: Config, s: State, input: Input)
    requires Sound(c) && TxInv(s.tx) && !input.Poll?
    ensures Step(c, s, input, []).None? <==>
            || (input.Acked? && InFlight(s.tx, input.ack) && input.fullAck == Some(0xFFFF_FFFF))
            || (input.Nak? && Decompress(input.words).None?)
  {
    if input.Acked? && s.tx.entries != [] { AcceptedAckIsInWindow(s.tx, input.ack); }
    hide AcceptsAck, Nearest, Wire, Numbered, Stream, Decompress, Submitted, Acknowledged;
  }

  lemma {:induction false} AcknowledgedKeeps(
    c: Config, s: State, ack: SeqNumber, fullAck: Option<U32>, rtt: Option<Rtt>)
    requires Sound(c) && Inv(c, s)
    ensures var s' := Acknowledged(s, ack, fullAck, rtt);
            Inv(c, s') && (InOrder(c, s) ==> InOrder(c, s')) && s'.submissions == s.submissions
  {
    hide Stream, WireRange, Wire, Buffers, Tracked, TxInv, FlowInv, KeepFrom, AcceptsAck, Nearest, FreedBy, Acknowledge;
    if AcceptsAck(s.tx, ack) {
      AckKeeps(s.tx, ack, c.src.init, Stream(c.src, s.submissions));
      if InOrder(c, s) { AckInOrder(s.tx, c.window, false, ack); }
    }
  }

  lemma {:induction false} AckKeeps(tx: Tx, ack: SeqNumber, init: int, made: seq<DataPacket>)
    requires Tracked(tx) && Buffers(tx, init, made) && AcceptsAck(tx, ack)
    ensures var tx' := Acknowledge(tx, ack);
            Tracked(tx') && Buffers(tx', init, made) && |tx'.entries| <= |tx.entries|
  {
    hide Wire, Nearest, AcceptsAck, Tracked, KeepFrom;
    AckSafe(tx, ack);
    var tx' := Acknowledge(tx, ack);
    forall n | tx'.base <= n < tx'.End() ensures tx'.At(n) == made[n - init] {
      assert tx'.At(n) == tx.At(n);
    }
  }

  lemma {:induction false} ReportedKeeps(c: Config, s: State, list: seq<SeqNumber>)
    requires Sound(c) && Inv(c, s)
    ensures var s' := s.(tx := AddLosses(s.tx, list)); Inv(c, s') && (InOrder(c, s) ==> InOrder(c, s'))
  {
    AddLossesExact(s.tx, list);
    hide AddLosses, Stream, Tracked, TxInv;
    var tx' := AddLosses(s.tx, list);
    forall n | tx'.base <= n < tx'.End() ensures tx'.At(n) == Stream(c.src, s.submissions)[n - c.src.init] {
      assert tx'.At(n) == s.tx.At(n);
    }
  }

  /** Whatever steps an SND event takes, it sends packets of the stream. */
  lemma {:induction false} EventKeeps(
    c: Config, s: State, elapsed: nat, timestamp: TimeStamp, shouldDrain: bool, steps: seq<TxStep>)
    requires Sound(c) && Inv(c, s) && Event(c, s, elapsed, timestamp, shouldDrain, steps).Some?
    ensures var (t, out) := Event(c, s, elapsed, timestamp, shouldDrain, steps).value;
            && Inv(c, s.(tx := t.tx, queue := t.queue))
            && (InOrder(c, s) && !t.probe ==> InOrder(c, s.(tx := t.tx, queue := t.queue)))
            && |out| <= elapsed + 1 && forall p | p in out :: p.Content() in Stream(c.src, s.submissions)
  {
    hide Run, Tracked, TxInv, FlowInv, Stream, Buffers, SameStream, InBuffer, NothingToDo;
    var given, start := Given(c, s, timestamp, shouldDrain), Sending(s.tx, s.queue, elapsed, false);
    var r := Run(given, start, steps).value;
    RunKeeps(given, start, steps);
    RunCounts(given, start, steps);
    if InOrder(c, s) { RunInOrder(given, start, steps); }
    SameBuffers(s.tx, r.0.tx, c.src.init, Stream(c.src, s.submissions));
    forall p | p in r.1 ensures p.Content() in Stream(c.src, s.submissions) {
      InBufferInStream(s.tx, c.src.init, Stream(c.src, s.submissions), p);
    }
  }

  lemma {:induction false} FiredKeeps(
    c: Config, s: State, elapsed: nat, timestamp: TimeStamp, shouldDrain: bool, steps: seq<TxStep>)
    requires Sound(c) && Inv(c, s) && Fired(c, s, elapsed, timestamp, shouldDrain, steps).Some?
    ensures var (t, out) := Fired(c, s, elapsed, timestamp, shouldDrain, steps).value;
            && Inv(c, t) && (InOrder(c, s) ==> InOrder(c, t)) && t.submissions == s.submissions
            && forall p | p in out :: p.Content() in Stream(c.src, s.submissions)
  {
    hide Event, Inv, InOrder, Stream;
    EventKeeps(c, s, elapsed, timestamp, shouldDrain, steps);
  }

  lemma {:induction false} SameBuffers(tx: Tx, tx': Tx, init: int, made: seq<DataPacket>)
    requires Buffers(tx, init, made) && SameStream(tx, tx')
    ensures Buffers(tx', init, made) && |tx'.entries| <= |tx.entries|
  {
    forall n | tx'.base <= n < tx'.End() ensures tx'.At(n) == made[n - init] {
      assert tx'.At(n) == tx.At(n);
    }
  }

  lemma {:induction false} InBufferInStream(tx: Tx, init: int, made: seq<DataPacket>, p: DataPacket)
    requires Buffers(tx, init, made) && InBuffer(tx, p)
    ensures p.Content() in made
  {
    var n :| tx.base <= n < tx.End() && p.Content() == tx.At(n);
    assert tx.At(n) == made[n - init];
  }

  // ---- A retransmission queue that is blocked ----

  /** Every timer set in this run runs out later than this. */
  ghost predicate AllTimersLater(c: Config, s: State, inputs: seq<Input>, traces: seq<seq<TxStep>>, deadline: TimeStamp)
    requires Sound(c) && |inputs| == |traces|
    decreases |inputs|
  {
    inputs != [] ==>
      var n := |inputs| - 1;
      var r := Fold(c, s, inputs[..n], traces[..n]);
      && AllTimersLater(c, s, inputs[..n], traces[..n], deadline)
      && (r.Some? ==> InputTimersLater(c, r.value.0, inputs[n], traces[n], deadline))
  }

  ghost predicate InputTimersLater(c: Config, s: State, input: Input, steps: seq<TxStep>, deadline: TimeStamp) {
    input.Poll? ==>
      var due := T.Due(s.last, c.period, input.now);
      due.Some? ==>
        TimersLater(Given(c, s, input.timestamp, input.shouldDrain), Sending(s.tx, s.queue, due.value, false), steps,
          deadline)
  }

  /** An entry on top of the queue whose packet left the buffer: over every further run it
      stays on top and nothing is resent by its timer, until the numbers of the stream come
      round to it or a timer runs out before it on the wrapping clock. */
  lemma {:induction false} BlockedQueueStaysBlocked(
    c: Config, s: State, inputs: seq<Input>, traces: seq<seq<TxStep>>, k: SeqNumber)
    requires Sound(c) && Inv(c, s) && |inputs| == |traces| && Fold(c, s, inputs, traces).Some?
    requires IsTop(s.queue, k) && Outside(k, s.tx.base, Fold(c, s, inputs, traces).value.0.tx.End())
    requires AllTimersLater(c, s, inputs, traces, s.queue[k])
    ensures var t := Fold(c, s, inputs, traces).value.0;
            && s.tx.base <= t.tx.base && IsTop(t.queue, k) && t.queue[k] == s.queue[k]
            && forall i | 0 <= i < |traces| :: forall step | step in traces[i] :: !step.ResendDue?
    decreases |inputs|
  {
    hide Inv, Step, Stream, IsTop, InputTimersLater, Outside;
    if inputs != [] {
      var n := |inputs| - 1;
      var t := Fold(c, s, inputs[..n], traces[..n]).value.0;
      EveryRunIsSafe(c, s, inputs[..n], traces[..n]);
      InputGrows(c, t, inputs[n], traces[n]);
      Narrower(k, s.tx.base, s.tx.base, t.tx.End(), Fold(c, s, inputs, traces).value.0.tx.End());
      BlockedQueueStaysBlocked(c, s, inputs[..n], traces[..n], k);
      Narrower(k, s.tx.base, t.tx.base, t.tx.End(), Fold(c, s, inputs, traces).value.0.tx.End());
      BlockedInput(c, t, inputs[n], traces[n], k);
      forall i | 0 <= i < |traces| ensures forall step | step in traces[i] :: !step.ResendDue? {
        if i < n { assert traces[..n][i] == traces[i]; }
      }
    }
  }

  lemma {:induction false} Narrower(k: SeqNumber, lo: int, lo': int, hi': int, hi: int)
    requires Outside(k, lo, hi) && lo <= lo' && hi' <= hi
    ensures Outside(k, lo', hi')
  {
  }

  /** The buffer only moves forward. */
  lemma {:induction false} InputGrows(c: Config, s: State, input: Input, steps: seq<TxStep>)
    requires Sound(c) && Inv(c, s) && Step(c, s, input, steps).Some?
    ensures var tx' := Step(c, s, input, steps).value.0.tx; s.tx.base <= tx'.base && s.tx.End() <= tx'.End()
  {
    hide Stream, Decompress, Run, Tracked, KeepFrom, Buffers, Unsent, Stuck;
    match input {
      case Data(_, _) =>
      case Acked(_, _, _) =>
      case Nak(words) =>
        AddLossesExact(s.tx, Decompress(words).value);
      case Poll(now, timestamp, shouldDrain) =>
        var due := T.Due(s.last, c.period, now);
        if due.Some? {
          RunKeeps(Given(c, s, timestamp, shouldDrain), Sending(s.tx, s.queue, due.value, false), steps);
        }
    }
  }

  lemma {:induction false} BlockedInput(c: Config, s: State, input: Input, steps: seq<TxStep>, k: SeqNumber)
    requires Sound(c) && Inv(c, s) && Step(c, s, input, steps).Some?
    requires IsTop(s.queue, k) && Outside(k, s.tx.base, s.tx.End()) && InputTimersLater(c, s, input, steps, s.queue[k])
    ensures var t := Step(c, s, input, steps).value.0;
            IsTop(t.queue, k) && t.queue[k] == s.queue[k] && forall step | step in steps :: !step.ResendDue?
  {
    assert k in s.queue;
    hide Stream, Decompress, Run, Tracked, KeepFrom, Buffers, Unsent;
    hide IsTop, AddLosses, AcceptsAck, TimersLater, Wire, Nearest;
    hide Stuck;
    match input {
      case Data(_, _) =>
      case Acked(ack, _, _) =>
        TopStaysWithout(s.queue, k, WireRange(s.tx.base, s.tx.base + FreedBy(s.tx, ack)));
      case Nak(_) =>
      case Poll(now, timestamp, shouldDrain) =>
        var due := T.Due(s.last, c.period, now);
        if due.Some? {
          StaleTopStays(Given(c, s, timestamp, shouldDrain), Sending(s.tx, s.queue, due.value, false), steps, k);
        }
    }
  }

  // ---- Pushing packet by packet ----

  lemma {:induction false} BufferEndsStream(tx: Tx, init: int, made: seq<DataPacket>)
    requires Buffers(tx, init, made)
    ensures tx.End() == init + |made|
  {
  }

  lemma {:induction false} PushNone(tx: Tx, size: nat)
    requires Tracked(tx) && |tx.entries| <= Capacity(size)
    ensures PushAll(tx, size, []) == tx
  {
    hide Wire;
    assert tx.entries + Unsent([]) == tx.entries;
    assert KeepFrom(tx.lost, tx.base) == tx.lost;
  }

  lemma {:induction false} PushAllEnd(tx: Tx, size: nat, ps: seq<DataPacket>)
    requires |tx.entries| <= Capacity(size)
    ensures var tx' := PushAll(tx, size, ps);
            |tx'.entries| <= Capacity(size) && tx'.next == tx.next && tx'.End() == tx.End() + |ps|
  {
    hide KeepFrom, Unsent, Capacity;
  }

  /** Pushing one by one comes to the same. */
  lemma {:induction false} PushNext(tx: Tx, size: nat, ps: seq<DataPacket>, i: nat)
    requires |tx.entries| <= Capacity(size) && i < |ps|
    ensures PushAll(tx, size, ps[..i + 1]) == Push(PushAll(tx, size, ps[..i]), size, ps[i])
  {
    hide KeepFrom, Unsent, Capacity;
    var all, e := tx.entries + Unsent(ps[..i]), SendBufferEntry(ps[i], 0);
    UnsentGrows(ps, i);
    assert tx.entries + (Unsent(ps[..i]) + [e]) == all + [e];
    RoomFor(size);
    if |all| < Capacity(size) {
      ShiftAppended(all, e, 0);
    } else {
      ShiftAppended(all, e, |all| - Capacity(size));
      ShiftKept(tx, |all| - Capacity(size));
    }
  }

  lemma {:induction false} UnsentGrows(ps: seq<DataPacket>, i: nat)
    requires i < |ps|
    ensures Unsent(ps[..i + 1]) == Unsent(ps[..i]) + [SendBufferEntry(ps[i], 0)]
  {
  }

  lemma {:induction false} RoomFor(size: nat)
    ensures 0 < Capacity(size) && size <= Capacity(size) && (Capacity(size) <= 1 || size == Capacity(size))
  {
  }

  lemma {:induction false} ShiftAppended(all: seq<SendBufferEntry>, e: SendBufferEntry, out: nat)
    requires out <= |all|
    ensures (all + [e])[out..] == all[out..] + [e]
    ensures out < |all| ==> (all + [e])[out + 1..] == all[out..][1..] + [e]
  {
  }

  lemma {:induction false} ShiftKept(tx: Tx, out: nat)
    ensures KeepFrom(tx.lost, tx.base + out + 1) == KeepFrom(tx.lost, tx.base + out) - {tx.base + out}
  {
  }

  class Sender {
    const encapsulation: Encapsulation
    const sendBuffer: SendBuffer
    const snd: T.Timer

    ghost function Setup(): Config
      reads snd
    {
      Config(encapsulation.Src(), sendBuffer.flowWindowSize, sendBuffer.maxBufferSize, sendBuffer.latencyWindow,
        snd.period)
    }

    ghost function Current(): State
      reads encapsulation, sendBuffer, snd
    {
      State(encapsulation.submissions, sendBuffer.tx, sendBuffer.rtoQueue, sendBuffer.rtt, sendBuffer.nextFullAck,
        snd.last)
    }

    ghost predicate Valid()
      reads encapsulation, sendBuffer, snd
    {
      encapsulation.Valid() && sendBuffer.Counted() && Sound(Setup()) && Inv(Setup(), Current())
    }

    constructor (remoteSocketId: SocketId, maxPacketSize: nat, initSeqNum: SeqNumber, maxFlowSize: nat,
      sendBufferSize: nat,
                 latencyWindow: U32, now: int, period: nat)
      requires 0 < maxPacketSize && sendBufferSize + 1 < MAX_DIFF
      ensures Valid() && fresh(encapsulation) && fresh(sendBuffer) && fresh(snd)
      ensures Setup() == Config(Source(initSeqNum, maxPacketSize, remoteSocketId), maxFlowSize, sendBufferSize,
              latencyWindow,
                                if period < T.MIN_PERIOD then T.MIN_PERIOD else period)
      ensures Current() == State([], Tx(initSeqNum, [], initSeqNum, {}), map[], Rtt(10_000, 1_000), 1, now)
    {
      encapsulation := new Encapsulation(remoteSocketId, maxPacketSize, initSeqNum);
      sendBuffer := new SendBuffer(initSeqNum, maxFlowSize, sendBufferSize, latencyWindow);
      snd := new T.Timer(now, period);
    }

    /** A message goes into the buffer packet by packet; what there is no room for leaves at
        the front, sent or not. */
    method HandleData(timestamp: TimeStamp, data: seq<Byte>)
      requires Valid()
      modifies encapsulation, sendBuffer
      ensures Valid() && Current() == Submitted(Setup(), old(Current()), Submission(timestamp, data))
    {
      hide Wire, Stream, Tracked, SumBytes, Carries, Push, PushAll, Capacity, Buffers, InOrder, Overruns;
      ghost var c, s, m := Setup(), Current(), Submission(timestamp, data);
      BufferEndsStream(s.tx, c.src.init, encapsulation.Made());
      var packets := encapsulation.Encapsulate(timestamp, data);
      ghost var all := encapsulation.Made();
      PushPackets(packets, |all| - |packets|);
      assert all[|all| - |packets|..] == packets;
      SubmittedKeeps(c, s, m);
    }

    method PushPackets(packets: seq<DataPacket>, ghost at: nat)
      requires encapsulation.Valid() && sendBuffer.Counted()
      requires |sendBuffer.tx.entries| <= Capacity(sendBuffer.maxBufferSize)
      requires at + |packets| == |encapsulation.Made()| && encapsulation.Made()[at..] == packets
      requires sendBuffer.tx.End() == encapsulation.init + at
      modifies sendBuffer
      ensures sendBuffer.Counted() && sendBuffer.tx == PushAll(old(sendBuffer.tx), sendBuffer.maxBufferSize, packets)
      ensures sendBuffer.rtoQueue == old(sendBuffer.rtoQueue) && sendBuffer.rtt == old(sendBuffer.rtt)
      ensures sendBuffer.nextFullAck == old(sendBuffer.nextFullAck)
    {
      hide Wire, Stream, Tracked, SumBytes, Push, PushAll, Capacity;
      ghost var was := sendBuffer.tx;
      PushNone(was, sendBuffer.maxBufferSize);
      assert packets[..0] == [];
      for i := 0 to |packets|
        invariant sendBuffer.Counted() && sendBuffer.tx == PushAll(was, sendBuffer.maxBufferSize, packets[..i])
        invariant sendBuffer.tx.End() == was.End() + i
        invariant sendBuffer.rtoQueue == old(sendBuffer.rtoQueue) && sendBuffer.rtt == old(sendBuffer.rtt)
        invariant sendBuffer.nextFullAck == old(sendBuffer.nextFullAck)
      {
        StreamNumbered(encapsulation.Src(), encapsulation.submissions, at + i);
        assert packets[i] == encapsulation.Made()[at + i];
        PushNext(was, sendBuffer.maxBufferSize, packets, i);
        PushAllEnd(was, sendBuffer.maxBufferSize, packets[..i + 1]);
        var _ := sendBuffer.PushData(packets[i]);
      }
      assert packets[..|packets|] == packets;
    }

    /** None where the source stops. */
    method HandleAck(ack: SeqNumber, fullAck: Option<U32>, rtt: Option<Rtt>) returns (r: Option<AckResult>)
      requires Valid()
      modifies sendBuffer
      ensures Valid() && Current() == Acknowledged(old(Current()), ack, fullAck, rtt)
      ensures r.None? <==> Halts(Setup(), old(Current()), Acked(ack, fullAck, rtt), [])
      ensures r.Some? && r.value.AckAction? <==>
              && AcceptsAck(old(sendBuffer.tx), ack)
              && (fullAck.Some? ==> old(sendBuffer.nextFullAck) <= fullAck.value < U32_RANGE - 1)
    {
      hide Wire, Stream, Nearest, SumBytes, Precedes, Compare, Buffers;
      hide FlowInv, TxInv, Tracked, FreedBy, WireRange, Acknowledge;
      AcknowledgedKeeps(Setup(), Current(), ack, fullAck, rtt);
      AcknowledgedBase(sendBuffer.tx, ack);
      var action := sendBuffer.UpdateLargestAckedSeqNumber(ack, fullAck, rtt);
      return if action == FullAckOverflow then None else Some(action);
    }

    /** None where the source stops. */
    method HandleNak(words: seq<U32>) returns (r: Option<seq<LossRange>>)
      requires Valid()
      modifies sendBuffer
      ensures r.None? <==> Halts(Setup(), old(Current()), Nak(words), [])
      ensures r.None? ==> Current() == old(Current())
      ensures Valid()
      ensures r.Some? ==>
                var list := Decompress(words).value;
                && Current() == old(Current()).(tx := AddLosses(old(sendBuffer.tx), list))
                && Flatten(r.value) == Verdicts(old(sendBuffer.tx), list) && Maximal(r.value)
    {
      hide Wire, Stream, SumBytes, Decompress, Verdicts, Flatten, AddLosses, Inv, Tracked, Maximal;
      ghost var s := Current();
      r := sendBuffer.AddToLossList(words);
      if r.Some? { ReportedKeeps(Setup(), s, Decompress(words).value); }
    }

    /** One SND event; the answer is no where the source stops. */
    method OnSnd(timestamp: TimeStamp, elapsed: nat, shouldDrain: bool)
      returns (out: seq<DataPacket>, ok: bool, ghost steps: seq<TxStep>)
      requires Valid()
      modifies sendBuffer
      ensures ok ==>
                && Valid()
                && Fired(Setup(), old(Current()), elapsed, timestamp, shouldDrain, steps) == Some((Current(), out))
      ensures ok && |out| < elapsed ==> Quiet(Setup(), Current(), timestamp, shouldDrain)
      ensures !ok ==>
                var r := Event(Setup(), old(Current()), elapsed, timestamp, shouldDrain, steps);
                r.Some? && Stuck(Given(Setup(), old(Current()), timestamp, shouldDrain), r.value.0) && out == r.value.1
      ensures |out| <= elapsed + 1 && forall p | p in out :: p.Content() in encapsulation.Made()
    {
      hide Wire, Stream, SumBytes, SameStream, Run, NothingToDo, Tracked, TxInv, FlowInv, InBuffer, Buffers, Stuck;
      ghost var c, s := Setup(), Current();
      ghost var end;
      out, ok, steps, end := OnSndEvent(sendBuffer, timestamp, elapsed, shouldDrain);
      EventKeeps(c, s, elapsed, timestamp, shouldDrain, steps);
    }

    /** Polls the SND timer; the answer is no where the source stops. */
    method CheckTimers(now: int, timestamp: TimeStamp, shouldDrain: bool)
      returns (out: seq<DataPacket>, ok: bool, ghost steps: seq<TxStep>)
      requires Valid()
      modifies sendBuffer, snd`last
      ensures ok ==>
                && Valid()
                && Polled(Setup(), old(Current()), now, timestamp, shouldDrain, steps) == Some((Current(), out))
      ensures ok <==> !Halts(Setup(), old(Current()), Poll(now, timestamp, shouldDrain), steps)
      ensures !ok ==> out == Partial(Setup(), old(Current()), Poll(now, timestamp, shouldDrain), steps)
    {
      hide Inv, Run, Stream, SumBytes, Tracked, Wire, T.Due, Quiet;
      out, ok, steps := [], true, [];
      ghost var s := Current();
      var elapsed := snd.CheckExpired(now);
      if elapsed.Some? {
        MovedKeeps(Setup(), s, Current());
        out, ok, steps := OnSnd(timestamp, elapsed.value, shouldDrain);
      }
    }

    /** One input; the answer is no where the source stops. */
    method Handle(input: Input) returns (out: seq<DataPacket>, ok: bool, ghost steps: seq<TxStep>)
      requires Valid()
      modifies encapsulation, sendBuffer, snd`last
      ensures ok <==> !Halts(Setup(), old(Current()), input, steps)
      ensures ok ==> Valid() && Step(Setup(), old(Current()), input, steps) == Some((Current(), out))
      ensures !ok ==> out == Partial(Setup(), old(Current()), input, steps)
    {
      hide Inv, Polled, Submitted, Acknowledged, AddLosses, Stream, SumBytes, Tracked, Wire, Decompress, Event, Stuck;
      out, ok, steps := [], true, [];
      match input {
        case Data(timestamp, data) => HandleData(timestamp, data);
        case Acked(ack, fullAck, rtt) =>
          var r := HandleAck(ack, fullAck, rtt);
          ok := r.Some?;
        case Nak(words) =>
          var r := HandleNak(words);
          ok := r.Some?;
        case Poll(now, timestamp, shouldDrain) => out, ok, steps := CheckTimers(now, timestamp, shouldDrain);
      }
    }

    /** Any run of a sender. It goes on to the first input at which the source stops, or to
        the end, and until then its state and what it sends are those of the inputs one
        after the other; so all that holds of such runs holds of it. */
    method Serve(inputs: seq<Input>)
      returns (out: seq<DataPacket>, ok: bool, ghost traces: seq<seq<TxStep>>, ghost at: State, ghost last: seq<TxStep>)
      requires Valid()
      modifies encapsulation, sendBuffer, snd`last
      ensures var served := |traces|;
              && served <= |inputs| && Fold(Setup(), old(Current()), inputs[..served], traces).Some?
              && var (end, sent) := Fold(Setup(), old(Current()), inputs[..served], traces).value;
                 && at == end && (ok <==> served == |inputs|)
                 && (ok ==> Valid() && Current() == at && out == sent)
                 && (!ok ==>
                       && Halts(Setup(), at, inputs[served], last)
                       && out == sent + Partial(Setup(), at, inputs[served], last))
      ensures forall p | p in out :: p.Content() in Stream(encapsulation.Src(), at.submissions)
      ensures var polls := PollTimes(inputs[..|traces| + if ok then 0 else 1]);
              polls != [] && T.Forward(old(snd.last), polls) ==>
                |out| <= T.Elapsed(old(snd.last), snd.period, polls[|polls| - 1])
                  + T.Events(old(snd.last), snd.period, polls)
    {
      hide Inv, Step, Fold, Halts, PollTimes, Stream, SumBytes, Tracked, Wire, T.Forward, T.Elapsed, T.Events;
      ghost var c, s := Setup(), Current();
      out, ok, traces, at, last := [], true, [], s, [];
      NothingServed(c, s, inputs);
      var i := 0;
      while ok && i < |inputs|
        invariant |traces| <= |inputs| && c == Setup()
        invariant Fold(c, s, inputs[..|traces|], traces).Some? && Fold(c, s, inputs[..|traces|], traces).value.0 == at
        invariant if ok
                  then i == |traces| && Valid() && Current() == at
                      && out == Fold(c, s, inputs[..|traces|], traces).value.1
                  else |traces| < |inputs| && Halts(c, at, inputs[|traces|], last)
                       && out == Fold(c, s, inputs[..|traces|], traces).value.1 + Partial(c, at, inputs[|traces|], last)
        decreases |inputs| - i, ok
      {
        var packets;
        ghost var steps;
        packets, ok, steps := Handle(inputs[i]);
        out := out + packets;
        if ok {
          ServeNext(c, s, inputs, traces, steps);
          traces, at := traces + [steps], Current();
          i := i + 1;
        } else {
          last := steps;
        }
      }
      EveryServedRunIsPaced(c, s, inputs, traces, last, ok);
    }
  }

  lemma {:induction false} AcknowledgedBase(tx: Tx, ack: SeqNumber)
    ensures Acknowledge(tx, ack).base == tx.base + FreedBy(tx, ack)
  {
  }

  /** What was sent when the source stops, with what came before. */
  lemma {:induction false} EveryServedRunIsPaced(
    c: Config, s: State, inputs: seq<Input>, traces: seq<seq<TxStep>>, last: seq<TxStep>, ok: bool)
    requires Sound(c) && Inv(c, s) && |traces| <= |inputs| && Fold(c, s, inputs[..|traces|], traces).Some?
    requires !ok ==>
               && |traces| < |inputs|
               && Halts(c, Fold(c, s, inputs[..|traces|], traces).value.0, inputs[|traces|], last)
    ensures var (at, sent) := Fold(c, s, inputs[..|traces|], traces).value;
            var out := sent + if ok then [] else Partial(c, at, inputs[|traces|], last);
            var polls := PollTimes(inputs[..|traces| + if ok then 0 else 1]);
            && (forall p | p in out :: p.Content() in Stream(c.src, at.submissions))
            && |out| <= T.Total(s.last, c.period, polls) + T.Events(s.last, c.period, polls)
            && (polls != [] && T.Forward(s.last, polls) ==>
                  |out| <= T.Elapsed(s.last, c.period, polls[|polls| - 1]) + T.Events(s.last, c.period, polls))
  {
    hide Inv, Fold, Stream, T.Total, T.Events, T.Elapsed, T.Forward, T.Due, T.Last, Halts, Partial;
    var (at, sent) := Fold(c, s, inputs[..|traces|], traces).value;
    EveryRunIsSafe(c, s, inputs[..|traces|], traces);
    if !ok {
      PartialCounts(c, at, inputs[|traces|], last);
      assert inputs[..|traces| + 1][..|traces|] == inputs[..|traces|];
      PollNext(s.last, c.period, inputs[..|traces| + 1]);
    }
    var polls := PollTimes(inputs[..|traces| + if ok then 0 else 1]);
    if polls != [] && T.Forward(s.last, polls) { T.TotalIsBounded(s.last, c.period, polls); }
  }

  lemma {:induction false} PartialCounts(c: Config, s: State, input: Input, steps: seq<TxStep>)
    requires Sound(c) && Inv(c, s) && Halts(c, s, input, steps)
    ensures var due := if input.Poll? then T.Due(s.last, c.period, input.now) else None;
            && |Partial(c, s, input, steps)| <= T.Count(due) + (if due.Some? then 1 else 0)
            && forall p | p in Partial(c, s, input, steps) :: p.Content() in Stream(c.src, s.submissions)
  {
    hide Inv, Event, Stream, T.Due, Stuck, Decompress, AcceptsAck;
    if input.Poll? {
      EventKeeps(c, s, T.Due(s.last, c.period, input.now).value, input.timestamp, input.shouldDrain, steps);
    }
  }

  lemma {:induction false} NothingServed(c: Config, s: State, inputs: seq<Input>)
    requires Sound(c)
    ensures Fold(c, s, inputs[..0], []) == Some((s, []))
  {
  }

  lemma {:induction false} ServeNext(
    c: Config, s: State, inputs: seq<Input>, traces: seq<seq<TxStep>>, steps: seq<TxStep>)
    requires Sound(c) && |traces| < |inputs| && Fold(c, s, inputs[..|traces|], traces).Some?
    requires Step(c, Fold(c, s, inputs[..|traces|], traces).value.0, inputs[|traces|], steps).Some?
    ensures var (t, out) := Fold(c, s, inputs[..|traces|], traces).value;
            var (t', sent) := Step(c, t, inputs[|traces|], steps).value;
            Fold(c, s, inputs[..|traces| + 1], traces + [steps]) == Some((t', out + sent))
  {
    hide Step;
    assert inputs[..|traces| + 1][..|traces|] == inputs[..|traces|];
    assert (traces + [steps])[..|traces|] == traces;
  }
}
