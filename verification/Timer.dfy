/** Periodic timers and the pace they give to sending. Times are in nanoseconds. */
module Timers {
  import opened SeqNumbers
  import opened Packets
  import opened Arithmetic

  const MIN_PERIOD: nat := 1_000

  /** How many whole periods are due, truncated to 32 bits, if any. */
  function Due(last: int, period: nat, now: int): Option<U32> {
    if period == 0 then Some(1)
    else if now >= last + period then Some(((now - last) / period) % U32_RANGE)
    else None
  }

  function Count(due: Option<U32>): nat {
    if due.Some? then due.value else 0
  }

  /** A timer expires exactly when a period has passed, and while the count fits 32 bits it
      is the number of whole periods: less than one is left over. */
  lemma {:induction false} DueExactly(last: int, period: nat, now: int)
    requires 0 < period
    ensures Due(last, period, now).None? <==> now < last + period
    ensures last + period <= now && now - last < period * U32_RANGE ==>
              var n := Due(last, period, now).value;
              1 <= n && last + period * n <= now < last + period * (n + 1)
  {
    if last + period <= now && now - last < period * U32_RANGE {
      var q, r := (now - last) / period, (now - last) % period;
      assert now - last == period * q + r;
      assert period * (q + 1) == period * q + period;
      assert q < U32_RANGE;
      DivBound(now - last, period, 1);
    }
  }

  class Timer {
    var period: nat
    var last: int

    constructor (now: int, period: nat)
      ensures last == now && this.period == if period < MIN_PERIOD then MIN_PERIOD else period
    {
      last, this.period := now, if period < MIN_PERIOD then MIN_PERIOD else period;
    }

    method Reset(now: int)
      modifies this`last
      ensures last == now
    {
      last := now;
    }

    method SetPeriod(period: nat)
      modifies this`period
      ensures this.period == period
    {
      this.period := period;
    }

    method CheckExpired(now: int) returns (r: Option<U32>)
      modifies this`last
      ensures r == Due(old(last), period, now)
      ensures last == if period == 0 then old(last) else old(last) + period * Count(r)
    {
      if period == 0 { return Some(1); }
      if now >= last + period {
        var elapsed := now - last;
        var elapsedPeriods: U32 := (elapsed / period) % U32_RANGE;
        last := last + period * elapsedPeriods;
        return Some(elapsedPeriods);
      }
      return None;
    }
  }

  // ---- Any polling schedule at a fixed period ----

  function Before(polls: seq<int>): seq<int>
    requires polls != []
  {
    polls[..|polls| - 1]
  }

  /** Where the timer stands after the polls. */
  function Last(start: int, period: nat, polls: seq<int>): int
    decreases |polls|, 1
  {
    if polls == [] then start
    else Last(start, period, Before(polls)) + period * Count(LastDue(start, period, polls))
  }

  /** What the last poll returns. */
  function LastDue(start: int, period: nat, polls: seq<int>): Option<U32>
    requires polls != []
    decreases |polls|, 0
  {
    Due(Last(start, period, Before(polls)), period, polls[|polls| - 1])
  }

  /** What the polls have returned in total. */
  function Total(start: int, period: nat, polls: seq<int>): nat {
    if polls == [] then 0 else Total(start, period, Before(polls)) + Count(LastDue(start, period, polls))
  }

  /** How many polls found the timer expired. */
  function Events(start: int, period: nat, polls: seq<int>): nat {
    if polls == [] then 0
    else Events(start, period, Before(polls)) + if LastDue(start, period, polls).Some? then 1 else 0
  }

  /** The clock does not run backwards. */
  predicate Forward(start: int, polls: seq<int>) {
    polls == [] ||
      (Forward(start, Before(polls)) && (if |polls| == 1 then start else polls[|polls| - 2]) <= polls[|polls| - 1])
  }

  lemma {:induction false} LastIsTotal(start: int, period: nat, polls: seq<int>)
    ensures Last(start, period, polls) == start + period * Total(start, period, polls)
  {
    hide Due;
    if polls != [] {
      LastIsTotal(start, period, Before(polls));
      var a, b := Total(start, period, Before(polls)), Count(LastDue(start, period, polls));
      assert period * (a + b) == period * a + period * b;
    }
  }

  lemma {:induction false} NotAhead(last: int, period: nat, now: int)
    requires 0 < period && last <= now
    ensures last + period * Count(Due(last, period, now)) <= now
  {
    if now >= last + period {
      var q := (now - last) / period;
      assert now - last == period * q + (now - last) % period;
      assert period * (q % U32_RANGE) <= period * q;
    }
  }

  lemma {:induction false} TimerNotAhead(start: int, period: nat, polls: seq<int>)
    requires 0 < period && Forward(start, polls)
    ensures Last(start, period, polls) <= if polls == [] then start else polls[|polls| - 1]
  {
    hide Due;
    if polls != [] {
      TimerNotAhead(start, period, Before(polls));
      NotAhead(Last(start, period, Before(polls)), period, polls[|polls| - 1]);
    }
  }

  /** After any schedule of polls the counts add up to the whole periods elapsed,
      exactly when the last poll did not overflow its 32-bit count. */
  lemma {:induction false} CountsAddUp(start: int, period: nat, polls: seq<int>)
    requires 0 < period && polls != [] && Forward(start, polls)
    ensures var now := polls[|polls| - 1];
            Total(start, period, polls) == (now - start) / period
            <==> (now - Last(start, period, Before(polls))) / period < U32_RANGE
  {
    LastIsTotal(start, period, Before(polls));
    TimerNotAhead(start, period, Before(polls));
    hide Due;
    OnePollExact(start, period, Total(start, period, Before(polls)), polls[|polls| - 1]);
  }

  lemma {:induction false} OnePollExact(start: int, period: nat, before: nat, now: int)
    requires 0 < period && start + period * before <= now
    ensures var last := start + period * before;
            before + Count(Due(last, period, now)) == (now - start) / period <==> (now - last) / period < U32_RANGE
  {
    var last := start + period * before;
    var q := (now - last) / period;
    DivShift(now - last, period, before);
    assert now - last + period * before == now - start;
    if now < last + period {
      DivIs(now - last, period, 0);
    }
  }

  /** The whole periods elapsed. */
  function Elapsed(start: int, period: nat, now: int): int
    requires 0 < period
  {
    (now - start) / period
  }

  /** The counts never get ahead of the clock. */
  lemma {:induction false} TotalIsBounded(start: int, period: nat, polls: seq<int>)
    requires 0 < period && polls != [] && Forward(start, polls)
    ensures Total(start, period, polls) <= Elapsed(start, period, polls[|polls| - 1])
  {
    LastIsTotal(start, period, polls);
    TimerNotAhead(start, period, polls);
    hide Due, Last, Total;
    DivBound(polls[|polls| - 1] - start, period, Total(start, period, polls));
  }

  lemma {:induction false} OnePoll(start: int, period: nat, polls: seq<int>, now: int)
    ensures var due := Due(Last(start, period, polls), period, now);
            && Last(start, period, polls + [now]) == Last(start, period, polls) + period * Count(due)
            && Total(start, period, polls + [now]) == Total(start, period, polls) + Count(due)
            && Events(start, period, polls + [now]) == Events(start, period, polls) + if due.Some? then 1 else 0
  {
    hide Due;
    assert Before(polls + [now]) == polls;
  }
}
