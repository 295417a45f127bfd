/** The receiver's history of full acknowledgements: how they are numbered, when they
    expire, and how an ACK2 is matched to the one it answers. */
module AckHistories {
  import opened SeqNumbers
  import opened Packets
  import opened TimeSpans

  const LIGHT_ACK_PACKET_INTERVAL: U32 := 64

  datatype AckHistoryEntry = AckHistoryEntry(dsn: SeqNumber, ack: U32, departure: int)

  type Entries = seq<AckHistoryEntry>

  /** Entries carry consecutive numbers, and the positions they acknowledge, each taken
      next to the one before, never go back. */
  ghost predicate InOrder(es: Entries, at: seq<int>) {
    && |at| == |es|
    && (forall i | 0 <= i < |es| :: es[i].ack == es[0].ack + i)
    && (forall i | 0 <= i < |es| :: es[i].dsn == Wire(at[i]))
    && (forall i, j | 0 <= i < j < |at| && j == i + 1 :: at[j] == Nearest(es[j].dsn, at[i]))
    && (forall i, j | 0 <= i < j < |at| :: at[i] <= at[j])
  }

  // The index is computed from the number, not searched for.
  function Lookup(es: Entries, n: U32): Option<AckHistoryEntry> {
    if es == [] || n > es[|es| - 1].ack || n < es[0].ack then None
    else
      var index := n - es[0].ack;
      if index < |es| then Some(es[index]) else None
  }

  /** The computed index finds the entry with that number whenever there is one. */
  lemma {:induction false} LookupIsSearch(es: Entries, at: seq<int>, n: U32, e: AckHistoryEntry)
    requires InOrder(es, at)
    ensures Lookup(es, n) == Some(e) <==> e in es && e.ack == n
    ensures Lookup(es, n).None? <==> forall i | 0 <= i < |es| :: es[i].ack != n
  {
    hide Wire, Nearest;
    if es != [] {
      assert es[|es| - 1].ack == es[0].ack + (|es| - 1);
      if es[0].ack <= n <= es[|es| - 1].ack {
        assert es[n - es[0].ack].ack == n;
      }
    }
  }

  predicate Expired(e: AckHistoryEntry, now: int, window: int) {
    now > e.departure + window
  }

  /** What is left of the history: expired entries go from the front, but never the
      newest one. */
  function Unexpired(es: Entries, now: int, window: int): (r: Entries)
    ensures es != [] ==> r != [] && r[|r| - 1] == es[|es| - 1]
  {
    if |es| > 1 && Expired(es[0], now, window) then Unexpired(es[1..], now, window) else es
  }

  function Twice(rtt: int): int {
    Signed32(rtt * 2)
  }

  /** Why no new full acknowledgement is sent for `dsn`. */
  predicate TooRecent(last: AckHistoryEntry, now: int, rtt: int, dsn: SeqNumber) {
    Precedes(dsn, last.dsn) || (dsn == last.dsn && FromInterval(last.departure, now) < Twice(rtt))
  }

  /** Exactly what is left: the history without its longest expired prefix, as far as that
      leaves the newest entry. */
  lemma {:induction false} UnexpiredExact(es: Entries, now: int, window: int)
    ensures var r := Unexpired(es, now, window);
            && |r| <= |es| && r == es[|es| - |r|..]
            && (forall i | 0 <= i < |es| - |r| :: es[i].departure + window < now)
            && (1 < |r| ==> now <= r[0].departure + window)
  {
    if |es| > 1 && Expired(es[0], now, window) {
      UnexpiredExact(es[1..], now, window);
      forall i | 0 < i < |es| - |Unexpired(es, now, window)| ensures es[i].departure + window < now {
        assert es[i] == es[1..][i - 1];
      }
    }
  }

  /** In positions and times within range: nothing before the newest acknowledgement is
      acknowledged, and the same point again only after two round trips. */
  lemma {:induction false} TooRecentExact(last: AckHistoryEntry, now: int, rtt: int, at: int, n: int)
    requires last.dsn == Wire(at) && -MAX_DIFF <= n - at < MAX_DIFF
    requires 0 <= now - last.departure < 0x8000_0000 && 0 <= rtt < 0x4000_0000
    ensures TooRecent(last, now, rtt, Wire(n)) <==> n < at || (n == at && now - last.departure < 2 * rtt)
  {
    WindowOrder(n, at);
    SpanIsDifference(last.departure, now);
    hide Wire, Compare;
  }

  lemma {:induction false} TailInOrder(es: Entries, at: seq<int>)
    requires InOrder(es, at) && es != []
    ensures InOrder(es[1..], at[1..])
  {
    hide Wire, Nearest;
    var t, at' := es[1..], at[1..];
    forall i, j | 0 <= i < j < |at'| && j == i + 1 ensures at'[j] == Nearest(t[j].dsn, at'[i]) {
      assert at[j + 1] == Nearest(es[j + 1].dsn, at[i + 1]);
    }
  }

  /** A number that does not precede the newest stands for a position not before it. */
  lemma {:induction false} AppendInOrder(es: Entries, at: seq<int>, e: AckHistoryEntry)
    requires InOrder(es, at)
    requires es != [] ==> e.ack == es[|es| - 1].ack + 1 && !Precedes(e.dsn, es[|es| - 1].dsn)
    ensures InOrder(es + [e], at + [NextAt(at, e.dsn)])
    ensures at != [] ==> at[|at| - 1] <= NextAt(at, e.dsn)
  {
    if es == [] {
      WireOfWire(e.dsn, 0);
    } else {
      CompareIsOrder(e.dsn, at[|at| - 1]);
    }
    hide Precedes, Wire, Nearest;
    var t, at' := es + [e], at + [NextAt(at, e.dsn)];
    forall i, j | 0 <= i < j < |at'| && j == i + 1 ensures at'[j] == Nearest(t[j].dsn, at'[i]) {
      if j < |es| { assert at[j] == Nearest(es[j].dsn, at[i]); }
    }
  }

  lemma {:induction false} LengthsAgree(es: Entries, at: seq<int>)
    requires InOrder(es, at)
    ensures |at| == |es|
  {
  }

  ghost function NextAt(at: seq<int>, dsn: SeqNumber): (n: int)
    ensures Wire(n) == dsn
  {
    if at == [] then dsn else Nearest(dsn, at[|at| - 1])
  }

  datatype FullAck =
    | NotDue
    | Issued(ack: U32, dsn: SeqNumber)
    | Overflows

  class AckHistoryWindow {
    const latency: int
    var lastAckDsn: SeqNumber
    var largestAck2Dsn: SeqNumber
    var buffer: Entries
    ghost var at: seq<int>
    ghost var issued: nat

    ghost predicate Valid()
      reads this
    {
      InOrder(buffer, at) && if buffer == [] then issued == 0 else buffer[|buffer| - 1].ack == issued
    }

    constructor (latency: int, initialDsn: SeqNumber)
      ensures Valid() && issued == 0 && lastAckDsn == initialDsn
      ensures largestAck2Dsn == initialDsn && this.latency == latency
    {
      this.latency, lastAckDsn, largestAck2Dsn, buffer, at, issued := latency, initialDsn, initialDsn, [], [], 0;
    }

    method CalculateAck2Rtt(now: int, ack: U32) returns (r: Option<int>)
      requires Valid()
      modifies this`largestAck2Dsn
      ensures Valid()
      ensures r.None? <==> forall i | 0 <= i < |buffer| :: buffer[i].ack != ack
      ensures r.None? ==> largestAck2Dsn == old(largestAck2Dsn)
      ensures r.Some? ==> exists e ::
              e in buffer && e.ack == ack && largestAck2Dsn == e.dsn && r.value == FromInterval(e.departure, now)
    {
      var found := Lookup(buffer, ack);
      LookupIsSearch(buffer, at, ack, if found.Some? then found.value else AckHistoryEntry(0, 0, 0));
      if found.None? { return None; }
      largestAck2Dsn := found.value.dsn;
      return Some(FromInterval(found.value.departure, now));
    }

    /** Acknowledgements are numbered 1, 2, 3, ... for the life of the history, as far as 32
        bits go; each acknowledges a position not before that of the one before it. */
    method NextFullAck(now: int, rtt: int, dsn: SeqNumber) returns (r: FullAck)
      requires Valid()
      modifies this`lastAckDsn, this`buffer, this`at, this`issued
      ensures Valid()
      ensures r == NotDue <==>
                old(largestAck2Dsn) == dsn
                  || (old(buffer) != [] && TooRecent(old(buffer)[|old(buffer)| - 1], now, rtt, dsn))
      ensures r == NotDue ==> buffer == old(buffer) && issued == old(issued) && lastAckDsn == old(lastAckDsn)
      ensures r == Overflows <==> r != NotDue && old(issued) == U32_RANGE - 1
      ensures r == Overflows ==>
                issued == old(issued) && lastAckDsn == old(lastAckDsn)
                  && buffer == Unexpired(old(buffer), now, latency + Twice(rtt))
      ensures r.Issued? ==>
                && r == Issued(old(issued) + 1, dsn)
                && issued == old(issued) + 1
                && lastAckDsn == dsn
                && buffer == Unexpired(old(buffer), now, latency + Twice(rtt)) + [AckHistoryEntry(dsn, issued, now)]
                && at != [] && at[|at| - 1] == NextAt(old(at), dsn)
                && (old(at) != [] ==> old(at)[|old(at)| - 1] <= at[|at| - 1])
    {
      hide Precedes, Wire, Nearest, Unexpired, InOrder;
      if largestAck2Dsn == dsn { return NotDue; }
      if buffer != [] && TooRecent(buffer[|buffer| - 1], now, rtt, dsn) { return NotDue; }
      hide TooRecent;
      r := Issue(now, latency + Twice(rtt), dsn);
    }

    method Issue(now: int, window: int, dsn: SeqNumber) returns (r: FullAck)
      requires Valid() && (buffer != [] ==> !Precedes(dsn, buffer[|buffer| - 1].dsn))
      modifies this`lastAckDsn, this`buffer, this`at, this`issued
      ensures Valid() && r != NotDue && (r == Overflows <==> old(issued) == U32_RANGE - 1)
      ensures r == Overflows ==>
                issued == old(issued) && lastAckDsn == old(lastAckDsn) && buffer == Unexpired(old(buffer), now, window)
      ensures r.Issued? ==>
                && r == Issued(issued, dsn) && issued == old(issued) + 1 && lastAckDsn == dsn
                && buffer == Unexpired(old(buffer), now, window) + [AckHistoryEntry(dsn, issued, now)]
                && at != [] && at[|at| - 1] == NextAt(old(at), dsn)
                && (old(at) != [] ==> old(at)[|old(at)| - 1] <= at[|at| - 1])
    {
      hide Precedes, Wire, Nearest, Unexpired, InOrder;
      LengthsAgree(buffer, at);
      DropExpired(now, window);
      if buffer != [] && buffer[|buffer| - 1].ack == U32_RANGE - 1 { return Overflows; }
      var ack := if buffer == [] then 1 else buffer[|buffer| - 1].ack + 1;
      lastAckDsn := dsn;
      AppendInOrder(buffer, at, AckHistoryEntry(dsn, ack, now));
      buffer, at := buffer + [AckHistoryEntry(dsn, ack, now)], at + [NextAt(at, dsn)];
      issued := issued + 1;
      return Issued(ack, dsn);
    }

    method DropExpired(now: int, window: int)
      requires Valid()
      modifies this`buffer, this`at
      ensures Valid() && buffer == Unexpired(old(buffer), now, window)
      ensures |at| == |buffer| && (at == [] <==> old(at) == []) && (at != [] ==> at[|at| - 1] == old(at)[|old(at)| - 1])
    {
      hide InOrder;
      LengthsAgree(buffer, at);
      while |buffer| > 1 && Expired(buffer[0], now, window)
        invariant InOrder(buffer, at) && |at| == |buffer|
        invariant buffer == [] <==> old(buffer) == []
        invariant buffer != [] ==>
                    buffer[|buffer| - 1] == old(buffer)[|old(buffer)| - 1] && at[|at| - 1] == old(at)[|old(at)| - 1]
        invariant Unexpired(buffer, now, window) == Unexpired(old(buffer), now, window)
        decreases |buffer|
      {
        TailInOrder(buffer, at);
        buffer, at := buffer[1..], at[1..];
      }
    }

    /** A light acknowledgement is due once the number stands for a position 64 or more
        past the last one. */
    method NextLightAck(dsn: SeqNumber) returns (r: Option<SeqNumber>)
      requires Valid()
      modifies this`lastAckDsn
      ensures Valid()
      ensures var due := old(lastAckDsn) + LIGHT_ACK_PACKET_INTERVAL;
              r == if due <= Nearest(dsn, due) then Some(dsn) else None
      ensures lastAckDsn == if r.Some? then dsn else old(lastAckDsn)
    {
      WireAdd(lastAckDsn, LIGHT_ACK_PACKET_INTERVAL);
      WireOfWire(lastAckDsn, 0);
      CompareIsOrder(dsn, lastAckDsn + LIGHT_ACK_PACKET_INTERVAL);
      if Precedes(dsn, Add(lastAckDsn, LIGHT_ACK_PACKET_INTERVAL)) { return None; }
      lastAckDsn := dsn;
      return Some(dsn);
    }
  }
}
