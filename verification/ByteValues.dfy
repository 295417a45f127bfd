/** Bytes as numbers, and mixing one byte into another. */
module ByteValues {
  import opened Packets

  function OfInt(n: int): Byte
    requires 0 <= n < 256
  {
    n as Byte
  }

  function ToInt(b: Byte): (n: int)
    ensures 0 <= n < 256
  {
    b as int
  }

  lemma {:induction false} NextByte(b: Byte)
    ensures ToInt(b) < 255 ==> ToInt(b + 1) == ToInt(b) + 1
  {
  }

  lemma {:induction false} ByteFor(n: int) returns (b: Byte)
    requires 0 <= n < 256
    ensures ToInt(b) == n
  {
    if n == 0 {
      b := 0;
    } else {
      b := ByteFor(n - 1);
      NextByte(b);
      b := b + 1;
    }
  }

  lemma {:induction false} OfToInt(b: Byte)
    ensures OfInt(ToInt(b)) == b
  {
  }

  lemma {:induction false} ToOfInt(n: int)
    requires 0 <= n < 256
    ensures ToInt(OfInt(n)) == n
  {
    hide ToInt, OfInt;
    var b := ByteFor(n);
    OfToInt(b);
  }

  lemma {:induction false} SameByte(x: Byte, y: Byte)
    requires ToInt(x) == ToInt(y)
    ensures x == y
  {
    hide ToInt, OfInt;
    OfToInt(x);
    OfToInt(y);
  }

  function Xor(x: Byte, y: Byte): Byte {
    x ^ y
  }

  lemma {:induction false} XorTwice(x: Byte, y: Byte)
    ensures Xor(Xor(x, y), y) == x
  {
  }

  lemma {:induction false} XorLaws(x: Byte)
    ensures Xor(x, 0) == x && Xor(0, x) == x && Xor(x, x) == 0
  {
  }

  lemma {:induction false} XorJoins(a: Byte, x: Byte, y: Byte)
    ensures Xor(Xor(a, x), y) == Xor(a, Xor(x, y))
  {
  }

  lemma {:induction false} XorInjective(a: Byte, x: Byte, y: Byte)
    requires Xor(a, x) == Xor(a, y)
    ensures x == y
  {
  }

  lemma {:induction false} LowBit(x: Byte)
    ensures x & 1 == 0 <==> ToInt(x) % 2 == 0
  {
  }

  lemma {:induction false} SetLowBit(x: Byte)
    requires x & 1 == 0
    ensures Xor(1, x) == x + 1 && Xor(x, x + 1) == 1
  {
  }

  /** Mixing the low bit into an even byte is adding one. */
  lemma {:induction false} EvenByte(e: nat)
    requires e % 2 == 0 && e < 255
    ensures Xor(1, OfInt(e)) == OfInt(e + 1) && Xor(OfInt(e), OfInt(e + 1)) == 1
  {
    hide Xor, OfInt, ToInt;
    var x := OfInt(e);
    ToOfInt(e);
    ToOfInt(e + 1);
    LowBit(x);
    SetLowBit(x);
    NextByte(x);
    SameByte(x + 1, OfInt(e + 1));
  }
}
