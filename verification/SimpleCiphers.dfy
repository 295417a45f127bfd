/** What key wrapping computes under two simple ciphers. */
module SimpleCiphers {
  import opened Packets
  import opened ByteValues
  import opened Arithmetic
  import opened KeyWraps

  const IDENTITY: BlockCipher := BlockCipher(b => b, b => b)

  // All counters up to `t`, exclusively or-ed.
  function Folding(t: nat): nat {
    match t % 4
    case 0 => t
    case 1 => 1
    case 2 => t + 1
    case _ => 0
  }

  lemma {:induction false} EvenCounter(t: nat)
    requires t % 2 == 0
    ensures Xor(1, CounterByte(t, 1)) == CounterByte(t + 1, 1)
    ensures Xor(CounterByte(t, 1), CounterByte(t + 1, 1)) == 1
  {
    hide Xor, OfInt;
    var e := t % 256;
    assert e % 2 == 0 && (t + 1) % 256 == e + 1 && t / 1 == t && (t + 1) / 1 == t + 1;
    EvenByte(e);
  }

  lemma {:induction false} FoldingStep(t: nat)
    requires 0 < t
    ensures (t % 2 == 0 && Folding(t - 1) == 0 && Folding(t) == t)
            || (t % 2 == 1 && Folding(t - 1) == t - 1 && Folding(t) == 1)
            || (t % 2 == 0 && Folding(t - 1) == 1 && Folding(t) == t + 1)
            || (t % 2 == 1 && Folding(t - 1) == t && Folding(t) == 0)
  {
    assert (t - 1) % 4 == if t % 4 == 0 then 3 else t % 4 - 1;
  }

  lemma {:induction false} FoldsLowByte(t: nat)
    requires 0 < t
    ensures Xor(CounterByte(Folding(t - 1), 1), CounterByte(t, 1)) == CounterByte(Folding(t), 1)
  {
    hide Xor, CounterByte, Folding;
    FoldingStep(t);
    XorLaws(CounterByte(t, 1));
    SmallCounters();
    if t % 2 == 0 { EvenCounter(t); } else { EvenCounter(t - 1); }
  }

  lemma {:induction false} SmallCounters()
    ensures CounterByte(0, 1) == 0 && CounterByte(1, 1) == 1
    ensures CounterByte(0, 0x100) == CounterByte(1, 0x100) == 0
    ensures CounterByte(0, 0x1_0000) == CounterByte(1, 0x1_0000) == 0
    ensures CounterByte(0, 0x100_0000) == CounterByte(1, 0x100_0000) == 0
  {
    assert OfInt(0) == 0 && OfInt(1) == 1;
    hide OfInt;
  }

  /** Above the low byte, an even counter and the next have the same bytes. */
  lemma {:induction false} SameHighBytes(e: nat)
    requires e % 2 == 0
    ensures CounterByte(e + 1, 0x100) == CounterByte(e, 0x100)
    ensures CounterByte(e + 1, 0x1_0000) == CounterByte(e, 0x1_0000)
    ensures CounterByte(e + 1, 0x100_0000) == CounterByte(e, 0x100_0000)
  {
    hide OfInt;
    EvenQuotient(e, 0x80);
    EvenQuotient(e, 0x8000);
    EvenQuotient(e, 0x80_0000);
  }

  lemma {:induction false} EvenQuotient(e: nat, half: nat)
    requires e % 2 == 0 && 0 < half
    ensures (e + 1) / (2 * half) == e / (2 * half)
  {
    var m := e / 2;
    var q, r := m / half, m % half;
    assert m == q * half + r;
    assert q * (2 * half) == 2 * (q * half);
    DivIs(2 * m, 2 * half, q);
    DivIs(2 * m + 1, 2 * half, q);
  }

  lemma {:induction false} FoldsHighByte(t: nat, scale: nat)
    requires 0 < t && 0 < scale && CounterByte(0, scale) == CounterByte(1, scale) == 0
    requires if t % 2 == 0 then CounterByte(t + 1, scale) == CounterByte(t, scale)
             else CounterByte(t - 1, scale) == CounterByte(t, scale)
    ensures Xor(CounterByte(Folding(t - 1), scale), CounterByte(t, scale)) == CounterByte(Folding(t), scale)
  {
    hide Xor, CounterByte, Folding;
    FoldingStep(t);
    XorLaws(CounterByte(t, scale));
  }

  function CounterBytes(t: nat): seq<Byte> {
    [CounterByte(t, 0x100_0000), CounterByte(t, 0x1_0000), CounterByte(t, 0x100), CounterByte(t, 1)]
  }

  lemma {:induction false} MixFolds(a: seq<Byte>, t: nat)
    requires |a| == 8 && 0 < t
    ensures MixCounter(MixCounter(a, Folding(t - 1)), t) == MixCounter(a, Folding(t))
  {
    hide MixCounter, Folded, CounterByte, Xor, Folding;
    var f, g := Folding(t - 1), Folding(t);
    MixIsFolded(a, f);
    MixIsFolded(MixCounter(a, f), t);
    MixIsFolded(a, g);
    SmallCounters();
    if t % 2 == 0 { SameHighBytes(t); } else { SameHighBytes(t - 1); }
    FoldsLowByte(t);
    FoldsHighByte(t, 0x100);
    FoldsHighByte(t, 0x1_0000);
    FoldsHighByte(t, 0x100_0000);
    FoldTwice(a, CounterBytes(f), CounterBytes(t), CounterBytes(g));
  }

  lemma {:induction false} ForwardUnderIdentity(s: Registers, n: nat, t: nat)
    requires 0 < n && Sized(s, n) && Permutation(IDENTITY)
    ensures Forward(IDENTITY, s, n, t) == Registers(MixCounter(s.a, Folding(t)), s.r)
  {
    hide MixCounter, Permutation;
    if t == 0 {
      MixNothing(s.a);
    } else {
      ForwardUnderIdentity(s, n, t - 1);
      MixFolds(s.a, t);
      hide Folding;
      var i := (t - 1) % n;
      var b := MixCounter(s.a, Folding(t - 1)) + Block(s.r, i);
      assert b[..8] == MixCounter(s.a, Folding(t - 1)) && b[8..] == Block(s.r, i);
      assert SetBlock(s.r, i, Block(s.r, i)) == s.r;
    }
  }

  lemma {:induction false} MixNothing(a: seq<Byte>)
    requires |a| == 8
    ensures MixCounter(a, 0) == a
  {
    SmallCounters();
    XorLaws(a[7]);
    hide Xor, CounterByte;
  }

  /** Under the identity, wrapping leaves the data as it is and the vector with all its
      counters: six for each block of eight bytes. */
  lemma {:induction false} WrappedUnderIdentity(iv: seq<Byte>, data: seq<Byte>)
    requires |iv| == 8 && WholeBlocks(data)
    ensures Permutation(IDENTITY)
    ensures var n := |data| / 8;
            Wrapped(IDENTITY, iv, data) == MixCounter(iv, if n % 2 == 0 then 6 * n else 6 * n + 1) + data
  {
    hide Permutation, MixCounter, Folding, Forward;
    IdentityIsPermutation();
    var n := |data| / 8;
    ForwardUnderIdentity(Registers(iv, data), n, 6 * n);
    SixForEach(n);
  }

  lemma {:induction false} SixForEach(n: nat)
    ensures Folding(6 * n) == if n % 2 == 0 then 6 * n else 6 * n + 1
  {
  }

  lemma {:induction false} IdentityIsPermutation()
    ensures Permutation(IDENTITY)
  {
  }

  /** Sixteen bytes take twelve steps. */
  lemma {:induction false} SixteenBytesUnderIdentity(data: seq<Byte>)
    requires |data| == 16
    ensures Permutation(IDENTITY)
    ensures Wrapped(IDENTITY, DEFAULT_IV, data) == [0xA6, 0xA6, 0xA6, 0xA6, 0xA6, 0xA6, 0xA6, 0xAA] + data
  {
    hide Permutation;
    WrappedUnderIdentity(DEFAULT_IV, data);
    assert CounterByte(12, 1) == 12;
  }

  const EXCHANGE: BlockCipher := BlockCipher(
    (b: seq<Byte>) => if |b| == 16 then b[8..] + b[..8] else b,
    (b: seq<Byte>) => if |b| == 16 then b[8..] + b[..8] else b)

  lemma {:induction false} ExchangeIsPermutation()
    ensures Permutation(EXCHANGE)
  {
    forall b: seq<Byte> | |b| == 16
      ensures |EXCHANGE.encrypt(b)| == 16 && EXCHANGE.decrypt(EXCHANGE.encrypt(b)) == b
    {
      assert EXCHANGE.encrypt(b) == b[8..] + b[..8];
    }
  }

  lemma {:induction false} ExchangeRound(s: Registers, n: nat, t: nat, i: nat)
    requires 0 < t <= n && Sized(s, n) && i < n && Permutation(EXCHANGE)
    ensures Forward(EXCHANGE, s, n, t).a == MixCounter(Block(s.r, t - 1), t)
    ensures Block(Forward(EXCHANGE, s, n, t).r, i)
            == if i == 0 then s.a else if i < t then MixCounter(Block(s.r, i - 1), i) else Block(s.r, i)
    decreases t
  {
    hide Permutation, MixCounter, Mix, SetBlock, Block;
    ModIs(0, n, t - 1);
    if t == 1 {
      NoSteps(EXCHANGE, s, n);
      ExchangeStep(s, 0, 1, i);
    } else {
      ExchangeRound(s, n, t - 1, t - 1);
      ExchangeRound(s, n, t - 1, i);
      ExchangeStep(Forward(EXCHANGE, s, n, t - 1), t - 1, t, i);
    }
  }

  lemma {:induction false} ExchangeStep(s: Registers, k: nat, t: nat, i: nat)
    requires |s.a| == 8 && 8 * k + 8 <= |s.r| && 8 * i + 8 <= |s.r| && Permutation(EXCHANGE)
    ensures Mix(EXCHANGE, s, k, t).a == MixCounter(Block(s.r, k), t)
    ensures Block(Mix(EXCHANGE, s, k, t).r, i) == if i == k then s.a else Block(s.r, i)
  {
    hide Permutation, MixCounter;
    var b := s.a + Block(s.r, k);
    var e := EXCHANGE.encrypt(b);
    assert e == b[8..] + b[..8];
    assert e[..8] == Block(s.r, k) && e[8..] == s.a;
  }

  /** Under the cipher that exchanges the halves of a block, each step moves the register
      into the next block and the block into the register: so the first round visits the
      blocks in order and moves each of them, with its counter, one further. */
  lemma {:induction false} RoundUnderExchange(s: Registers, n: nat, t: nat, i: nat)
    requires 0 < t <= n && Sized(s, n) && i < n
    ensures Permutation(EXCHANGE)
    ensures Forward(EXCHANGE, s, n, t).a == MixCounter(Block(s.r, t - 1), t)
    ensures Block(Forward(EXCHANGE, s, n, t).r, i)
            == if i == 0 then s.a else if i < t then MixCounter(Block(s.r, i - 1), i) else Block(s.r, i)
  {
    hide *;
    ExchangeIsPermutation();
    ExchangeRound(s, n, t, i);
  }
}
