/** Signed spans of time, in 32 bits of microseconds. Arithmetic on them wraps. */
module TimeSpans {
  import opened SeqNumbers
  import opened Arithmetic

  // Two's complement in 32 bits.
  function Signed32(n: int): (r: int)
    ensures -0x8000_0000 <= r < 0x8000_0000
  {
    var w := n % U32_RANGE;
    if w < 0x8000_0000 then w else w - U32_RANGE
  }

  // Each way round a difference of times is cut to 32 bits, and then its sign is set.
  function FromInterval(begin: int, end: int): int {
    if begin <= end then Signed32(end - begin) else Signed32(-Signed32(begin - end))
  }

  /** A time span is the difference exactly when 32 bits hold it, and agrees with it in the
      last 32 bits always. */
  lemma {:induction false} SpanIsDifference(begin: int, end: int)
    ensures FromInterval(begin, end) == end - begin <==> -0x8000_0000 <= end - begin < 0x8000_0000
    ensures FromInterval(begin, end) == Signed32(end - begin)
  {
    SignedFits(end - begin);
    SignedNegates(begin - end);
    hide Signed32;
  }

  lemma {:induction false} SignedFits(n: int)
    ensures Signed32(n) == n <==> -0x8000_0000 <= n < 0x8000_0000
  {
  }

  lemma {:induction false} SignedNegates(n: int)
    ensures Signed32(-Signed32(n)) == Signed32(-n)
  {
    var k := if Signed32(n) < 0 then n / U32_RANGE + 1 else n / U32_RANGE;
    assert -Signed32(n) == -n + U32_RANGE * k;
    hide Signed32;
    SignedWraps(-n, k);
  }

  lemma {:induction false} SignedWraps(n: int, k: int)
    ensures Signed32(n + U32_RANGE * k) == Signed32(n)
  {
    ModShift(n, U32_RANGE, k);
  }
}
