/** 31-bit wrapping sequence numbers: the arithmetic the wire uses, and its agreement
    with unbounded integers inside a window of half the number space. */
module SeqNumbers {

  const MODULUS: int := 0x8000_0000
  const MAX_DIFF: int := 0x4000_0000
  const U32_RANGE: int := 0x1_0000_0000

  type SeqNumber = n: int | 0 <= n < MODULUS
  type U32 = n: int | 0 <= n < U32_RANGE

  datatype Ordering = Less | Equal | Greater

  /** The wire number of an unbounded position. */
  function Wire(n: int): SeqNumber {
    n % MODULUS
  }

  /** The low 31 bits of a 32-bit word. */
  function Truncate(u: U32): SeqNumber {
    if u < MODULUS then u else u - MODULUS
  }

  // The source adds in 32 bits with wrap-around and then reduces to 31 bits.
  function Add(a: SeqNumber, k: U32): SeqNumber {
    Truncate(if a + k < U32_RANGE then a + k else a + k - U32_RANGE)
  }

  function Back(a: SeqNumber, k: U32): SeqNumber
    requires k <= a + MODULUS
  {
    if a < k then MODULUS - (k - a) else a - k
  }

  function Distance(a: SeqNumber, b: SeqNumber): SeqNumber
  {
    if a >= b then a - b else MODULUS - (b - a)
  }

  function Compare(a: SeqNumber, b: SeqNumber): Ordering {
    var diff := Distance(a, b);
    if diff == 0 then Equal else if diff < MAX_DIFF then Greater else Less
  }

  predicate Precedes(a: SeqNumber, b: SeqNumber) {
    Compare(a, b) == Less
  }

  // Raw, not modular.
  function SaturatingSub(a: SeqNumber, b: SeqNumber): nat {
    if a < b then 0 else a - b
  }

  /** The position with wire number `a` that is closest to `anchor`. */
  function Nearest(a: SeqNumber, anchor: int): (n: int)
    ensures Wire(n) == a
    ensures -MAX_DIFF <= n - anchor < MAX_DIFF
  {
    var d := Distance(a, Wire(anchor));
    if d < MAX_DIFF then anchor + d else anchor + d - MODULUS
  }

  /** A receiver that unwraps a wire number next to its own position recovers the
      sender's unbounded number exactly when the two are in one half-space window. */
  lemma UnwrapExact(n: int, anchor: int)
    ensures Nearest(Wire(n), anchor) == n <==> -MAX_DIFF <= n - anchor < MAX_DIFF
  {
    var m := Nearest(Wire(n), anchor);
    assert (m - n) % MODULUS == 0;
  }

  /** Modular order is the order of the unwrapped positions. */
  lemma CompareIsOrder(a: SeqNumber, anchor: int)
    ensures var n := Nearest(a, anchor);
            Compare(a, Wire(anchor)) == (if n == anchor then Equal else if n < anchor then Less else Greater)
  {
  }

  /** Modular order and distance agree with integers inside a window. */
  lemma WindowOrder(n: int, m: int)
    requires -MAX_DIFF <= n - m < MAX_DIFF
    ensures Compare(Wire(n), Wire(m)) == (if n == m then Equal else if n < m then Less else Greater)
    ensures m <= n ==> Distance(Wire(n), Wire(m)) == n - m
  {
    UnwrapExact(n, m);
    CompareIsOrder(Wire(n), m);
  }

  /** Numbers are ordered one way round or the other except at exactly half the space,
      where both comparisons answer Less. */
  lemma OrderIsAntisymmetric(a: SeqNumber, b: SeqNumber)
    requires a != b
    ensures (Precedes(a, b) != Precedes(b, a)) <==> Distance(a, b) != MAX_DIFF
  {
  }

  lemma WireDistance(n: int, m: int)
    requires 0 <= n - m < MODULUS
    ensures Distance(Wire(n), Wire(m)) == n - m
  {
  }

  lemma WireOfWire(n: int, k: int)
    ensures Wire(Wire(n) + k) == Wire(n + k)
    ensures 0 <= n < MODULUS ==> Wire(n) == n
  {
  }

  lemma WireInjective(n: int, m: int)
    requires Wire(n) == Wire(m) && -MODULUS < n - m < MODULUS
    ensures n == m
  {
  }

  lemma WireAdd(n: int, k: U32)
    ensures Add(Wire(n), k) == Wire(n + k)
    ensures k <= MODULUS ==> Back(Wire(n), k) == Wire(n - k)
  {
  }
}
