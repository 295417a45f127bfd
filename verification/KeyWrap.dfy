/** AES key wrapping (sections 2.2.1 and 2.2.2 of RFC 3394), over any block cipher. */
module KeyWraps {
  import opened Packets
  import opened ByteValues
  import opened Arithmetic

  /** A keyed block cipher; only its inverse property matters here. */
  datatype BlockCipher = BlockCipher(encrypt: seq<Byte> -> seq<Byte>, decrypt: seq<Byte> -> seq<Byte>)

  ghost predicate Permutation(c: BlockCipher) {
    forall b: seq<Byte> | |b| == 16 ::
      && |c.encrypt(b)| == 16 && |c.decrypt(b)| == 16
      && c.decrypt(c.encrypt(b)) == b && c.encrypt(c.decrypt(b)) == b
  }

  const DEFAULT_IV: seq<Byte> := [0xA6, 0xA6, 0xA6, 0xA6, 0xA6, 0xA6, 0xA6, 0xA6]

  /** The register and the blocks of eight bytes that it is mixed with. */
  datatype Registers = Registers(a: seq<Byte>, r: seq<Byte>)

  ghost predicate Sized(s: Registers, n: nat) {
    |s.a| == 8 && |s.r| == 8 * n
  }

  function CounterByte(t: nat, scale: nat): Byte
    requires 0 < scale
  {
    OfInt((t / scale) % 256)
  }

  // The counter is mixed into the low byte, and into three more once it outgrows it.
  function MixCounter(a: seq<Byte>, t: nat): (r: seq<Byte>)
    requires |a| == 8
    ensures |r| == 8
  {
    var low := a[7 := Xor(a[7], CounterByte(t, 1))];
    if t > 0xff then
      low[6 := Xor(low[6], CounterByte(t, 0x100))]
         [5 := Xor(low[5], CounterByte(t, 0x1_0000))]
         [4 := Xor(low[4], CounterByte(t, 0x100_0000))]
    else low
  }

  lemma {:induction false} MixTwice(a: seq<Byte>, t: nat)
    requires |a| == 8
    ensures MixCounter(MixCounter(a, t), t) == a
  {
    hide CounterByte, Xor;
    XorTwice(a[7], CounterByte(t, 1));
    XorTwice(a[6], CounterByte(t, 0x100));
    XorTwice(a[5], CounterByte(t, 0x1_0000));
    XorTwice(a[4], CounterByte(t, 0x100_0000));
  }

  // The register with a byte mixed into each of its last four.
  function Folded(a: seq<Byte>, x4: Byte, x5: Byte, x6: Byte, x7: Byte): (r: seq<Byte>)
    requires |a| == 8
    ensures |r| == 8
  {
    a[..4] + [Xor(a[4], x4), Xor(a[5], x5), Xor(a[6], x6), Xor(a[7], x7)]
  }

  lemma {:induction false} MixIsFolded(a: seq<Byte>, t: nat)
    requires |a| == 8
    ensures MixCounter(a, t)
            == Folded(a, CounterByte(t, 0x100_0000), CounterByte(t, 0x1_0000), CounterByte(t, 0x100), CounterByte(t, 1))
  {
    hide Xor, CounterByte;
    if t <= 0xff {
      NoCounter(t, 0x100);
      NoCounter(t, 0x1_0000);
      NoCounter(t, 0x100_0000);
      XorLaws(a[4]);
      XorLaws(a[5]);
      XorLaws(a[6]);
    }
  }

  lemma {:induction false} NoCounter(t: nat, scale: nat)
    requires t < scale
    ensures CounterByte(t, scale) == 0
  {
    assert t / scale == 0;
  }

  /** Which bytes of the register the counter goes into: the last four, most significant
      first, whatever its size. */
  lemma {:induction false} MixCounterBytes(a: seq<Byte>, t: nat)
    requires |a| == 8
    ensures var r := MixCounter(a, t);
            && r[..4] == a[..4]
            && r[4] == a[4] ^ ((t / 0x100_0000) % 256) as Byte
            && r[5] == a[5] ^ ((t / 0x1_0000) % 256) as Byte
            && r[6] == a[6] ^ ((t / 0x100) % 256) as Byte
            && r[7] == a[7] ^ (t % 256) as Byte
  {
    MixIsFolded(a, t);
    hide MixCounter;
    assert t / 1 == t;
  }

  lemma {:induction false} FoldTwice(a: seq<Byte>, x: seq<Byte>, y: seq<Byte>, z: seq<Byte>)
    requires |a| == 8 && |x| == |y| == |z| == 4
    requires forall i | 0 <= i < 4 :: Xor(x[i], y[i]) == z[i]
    ensures Folded(Folded(a, x[0], x[1], x[2], x[3]), y[0], y[1], y[2], y[3]) == Folded(a, z[0], z[1], z[2], z[3])
  {
    hide Xor;
    forall i | 0 <= i < 4 ensures Xor(Xor(a[4 + i], x[i]), y[i]) == Xor(a[4 + i], z[i]) {
      XorJoins(a[4 + i], x[i], y[i]);
    }
    var once := Folded(a, x[0], x[1], x[2], x[3]);
    assert once[..4] == a[..4];
    assert once[4] == Xor(a[4 + 0], x[0]) && once[5] == Xor(a[4 + 1], x[1]);
    assert once[6] == Xor(a[4 + 2], x[2]) && once[7] == Xor(a[4 + 3], x[3]);
    assert Xor(once[4], y[0]) == Xor(a[4 + 0], z[0]) && Xor(once[5], y[1]) == Xor(a[4 + 1], z[1]);
    assert Xor(once[6], y[2]) == Xor(a[4 + 2], z[2]) && Xor(once[7], y[3]) == Xor(a[4 + 3], z[3]);
  }

  function Block(r: seq<Byte>, i: nat): seq<Byte>
    requires 8 * i + 8 <= |r|
  {
    r[8 * i..8 * i + 8]
  }

  function SetBlock(r: seq<Byte>, i: nat, b: seq<Byte>): (r': seq<Byte>)
    requires 8 * i + 8 <= |r| && |b| == 8
    ensures |r'| == |r|
  {
    r[..8 * i] + b + r[8 * i + 8..]
  }

  lemma {:induction false} SetBlockLaws(r: seq<Byte>, i: nat, b: seq<Byte>)
    requires 8 * i + 8 <= |r| && |b| == 8
    ensures Block(SetBlock(r, i, b), i) == b
    ensures SetBlock(SetBlock(r, i, b), i, Block(r, i)) == r
  {
    var r' := SetBlock(r, i, b);
    assert r'[..8 * i] == r[..8 * i] && r'[8 * i + 8..] == r[8 * i + 8..];
    assert r == r[..8 * i] + Block(r, i) + r[8 * i + 8..];
  }

  /** Step `t` of wrapping: encrypt the register with block `i` and mix the counter in. */
  ghost function Mix(c: BlockCipher, s: Registers, i: nat, t: nat): (s': Registers)
    requires Permutation(c) && |s.a| == 8 && 8 * i + 8 <= |s.r|
    ensures |s'.a| == 8 && |s'.r| == |s.r|
  {
    var b := c.encrypt(s.a + Block(s.r, i));
    Registers(MixCounter(b[..8], t), SetBlock(s.r, i, b[8..]))
  }

  ghost function Unmix(c: BlockCipher, s: Registers, i: nat, t: nat): (s': Registers)
    requires Permutation(c) && |s.a| == 8 && 8 * i + 8 <= |s.r|
    ensures |s'.a| == 8 && |s'.r| == |s.r|
  {
    var b := c.decrypt(MixCounter(s.a, t) + Block(s.r, i));
    Registers(b[..8], SetBlock(s.r, i, b[8..]))
  }

  lemma {:induction false} UnmixUndoesMix(c: BlockCipher, s: Registers, i: nat, t: nat)
    requires Permutation(c) && |s.a| == 8 && 8 * i + 8 <= |s.r|
    ensures Unmix(c, Mix(c, s, i, t), i, t) == s
  {
    hide MixCounter;
    var b := c.encrypt(s.a + Block(s.r, i));
    MixTwice(b[..8], t);
    SetBlockLaws(s.r, i, b[8..]);
    hide SetBlock;
    assert b[..8] + b[8..] == b;
    assert (s.a + Block(s.r, i))[..8] == s.a && (s.a + Block(s.r, i))[8..] == Block(s.r, i);
  }

  lemma {:induction false} MixUndoesUnmix(c: BlockCipher, s: Registers, i: nat, t: nat)
    requires Permutation(c) && |s.a| == 8 && 8 * i + 8 <= |s.r|
    ensures Mix(c, Unmix(c, s, i, t), i, t) == s
  {
    hide MixCounter;
    MixTwice(s.a, t);
    var m := MixCounter(s.a, t) + Block(s.r, i);
    var b := c.decrypt(m);
    SetBlockLaws(s.r, i, b[8..]);
    hide SetBlock;
    assert b[..8] + b[8..] == b;
    assert m[..8] == MixCounter(s.a, t) && m[8..] == Block(s.r, i);
  }

  /** The first `t` of the steps over `n` blocks; step `t` works on block `(t - 1) % n`. */
  ghost function Forward(c: BlockCipher, s: Registers, n: nat, t: nat): (s': Registers)
    requires Permutation(c) && 0 < n && Sized(s, n)
    ensures Sized(s', n)
  {
    if t == 0 then s else Mix(c, Forward(c, s, n, t - 1), (t - 1) % n, t)
  }

  /** Undoing steps `t` down to 1. */
  ghost function Backward(c: BlockCipher, s: Registers, n: nat, t: nat): (s': Registers)
    requires Permutation(c) && 0 < n && Sized(s, n)
    ensures Sized(s', n)
    decreases t
  {
    if t == 0 then s else Backward(c, Unmix(c, s, (t - 1) % n, t), n, t - 1)
  }

  lemma {:induction false} BackwardUndoesForward(c: BlockCipher, s: Registers, n: nat, t: nat)
    requires Permutation(c) && 0 < n && Sized(s, n)
    ensures Backward(c, Forward(c, s, n, t), n, t) == s
  {
    hide Mix, Unmix;
    if t > 0 {
      UnmixUndoesMix(c, Forward(c, s, n, t - 1), (t - 1) % n, t);
      BackwardUndoesForward(c, s, n, t - 1);
    }
  }

  lemma {:induction false} ForwardUndoesBackward(c: BlockCipher, s: Registers, n: nat, t: nat)
    requires Permutation(c) && 0 < n && Sized(s, n)
    ensures Forward(c, Backward(c, s, n, t), n, t) == s
    decreases t
  {
    hide Mix, Unmix;
    if t > 0 {
      var s' := Unmix(c, s, (t - 1) % n, t);
      ForwardUndoesBackward(c, s', n, t - 1);
      MixUndoesUnmix(c, s, (t - 1) % n, t);
    }
  }

  // ---- Wrapping and unwrapping whole keys ----

  ghost predicate WholeBlocks(data: seq<Byte>) {
    |data| % 8 == 0 && |data| >= 8
  }

  ghost function Wrapped(c: BlockCipher, iv: seq<Byte>, data: seq<Byte>): (w: seq<Byte>)
    requires Permutation(c) && |iv| == 8 && WholeBlocks(data)
    ensures |w| == |data| + 8
  {
    var n := |data| / 8;
    var s := Forward(c, Registers(iv, data), n, 6 * n);
    s.a + s.r
  }

  ghost function Unwrapped(c: BlockCipher, wrapped: seq<Byte>): (s: Registers)
    requires Permutation(c) && WholeBlocks(wrapped) && |wrapped| >= 16
    ensures |s.a| == 8 && |s.r| == |wrapped| - 8
  {
    var n := |wrapped| / 8 - 1;
    Backward(c, Registers(wrapped[..8], wrapped[8..]), n, 6 * n)
  }

  /** Unwrapping gives back the vector and the data that were wrapped; and whatever
      unwraps to them was wrapped from them. */
  lemma {:induction false} UnwrapUndoesWrap(c: BlockCipher, iv: seq<Byte>, data: seq<Byte>, wrapped: seq<Byte>)
    requires Permutation(c) && |iv| == 8 && WholeBlocks(data)
    requires WholeBlocks(wrapped) && |wrapped| >= 16
    ensures Unwrapped(c, wrapped) == Registers(iv, data) <==> wrapped == Wrapped(c, iv, data)
  {
    hide Forward, Backward;
    var n := |data| / 8;
    var s := Registers(iv, data);
    if wrapped == Wrapped(c, iv, data) {
      var f := Forward(c, s, n, 6 * n);
      BackwardUndoesForward(c, s, n, 6 * n);
      assert wrapped[..8] == f.a && wrapped[8..] == f.r;
    }
    if Unwrapped(c, wrapped) == s {
      var w := Registers(wrapped[..8], wrapped[8..]);
      ForwardUndoesBackward(c, w, n, 6 * n);
      assert wrapped == w.a + w.r;
    }
  }

  // ---- The loops ----

  method AesWrap(c: BlockCipher, iv: Option<seq<Byte>>, out: array<Byte>, input: seq<Byte>)
    requires Permutation(c) && WholeBlocks(input) && out.Length == |input| + 8
    requires iv.Some? ==> |iv.value| == 8
    modifies out
    ensures out[..] == Wrapped(c, if iv.Some? then iv.value else DEFAULT_IV, input)
  {
    hide Permutation, MixCounter, Forward;
    forall k | 0 <= k < |input| { out[8 + k] := input[k]; }
    var a := if iv.Some? then iv.value else DEFAULT_IV;
    ghost var n := |input| / 8;
    ghost var s := Registers(a, input);
    assert out[8..] == input;
    NoSteps(c, s, n);
    var t := 1;
    for j := 0 to 6
      invariant |a| == 8 && t == j * n + 1
      invariant Registers(a, out[8..]) == Forward(c, s, n, t - 1)
    {
      a, t := WrapRound(c, a, out, t, n, j, s);
      assert j * n + n == (j + 1) * n;
    }
    forall k | 0 <= k < 8 { out[k] := a[k]; }
    assert out[..] == a + out[8..];
  }

  lemma {:induction false} NoSteps(c: BlockCipher, s: Registers, n: nat)
    requires Permutation(c) && 0 < n && Sized(s, n)
    ensures Forward(c, s, n, 0) == s && Backward(c, s, n, 0) == s
  {
  }

  method WrapRound(
    c: BlockCipher, a: seq<Byte>, out: array<Byte>, t: nat, ghost n: nat, ghost j: nat, ghost s: Registers)
    returns (a': seq<Byte>, t': nat)
    requires Permutation(c) && 0 < n && Sized(s, n) && out.Length == 8 * n + 8 && |a| == 8
    requires t == j * n + 1 && Registers(a, out[8..]) == Forward(c, s, n, t - 1)
    modifies out
    ensures |a'| == 8 && t' == j * n + n + 1 && Registers(a', out[8..]) == Forward(c, s, n, t' - 1)
  {
    hide Permutation, MixCounter, Mix, Unmix;
    a', t' := a, t;
    var i := 0;
    ghost var q := 0;
    while i < out.Length - 8
      invariant i == 8 * q && q <= n && |a'| == 8
      invariant t' == j * n + q + 1
      invariant Registers(a', out[8..]) == Forward(c, s, n, t' - 1)
    {
      ModIs(j, n, q);
      a' := WrapStep(c, a', out, i, q, t');
      i := i + 8;
      q := q + 1;
      t' := t' + 1;
    }
  }

  method WrapStep(c: BlockCipher, a: seq<Byte>, out: array<Byte>, i: nat, ghost q: nat, t: nat) returns (a': seq<Byte>)
    requires Permutation(c) && |a| == 8 && i == 8 * q && 8 + i + 8 <= out.Length
    modifies out
    ensures |a'| == 8 && Registers(a', out[8..]) == Mix(c, Registers(a, old(out[8..])), q, t)
  {
    hide MixCounter;
    ghost var r := out[8..];
    var block := a + out[8 + i..8 + i + 8];
    assert block == a + Block(r, q);
    var b := c.encrypt(block);
    a' := MixCounter(b[..8], t);
    PutBlock(out, 8 + i, b[8..]);
    assert out[8..] == SetBlock(r, q, b[8..]);
  }

  method PutBlock(out: array<Byte>, at: nat, b: seq<Byte>)
    requires at + 8 <= out.Length && |b| == 8
    modifies out
    ensures out[..] == old(out[..at]) + b + old(out[at + 8..])
  {
    forall k | 0 <= k < 8 { out[at + k] := b[k]; }
  }

  method AesUnwrap(c: BlockCipher, out: array<Byte>, input: seq<Byte>) returns (iv: seq<Byte>)
    requires Permutation(c) && WholeBlocks(input) && |input| > 16 && out.Length == |input| - 8
    modifies out
    ensures Registers(iv, out[..]) == Unwrapped(c, input)
  {
    hide Permutation, MixCounter, Backward;
    var inlen := |input| - 8;
    ghost var n := inlen / 8;
    var a := input[..8];
    forall k | 0 <= k < inlen { out[k] := input[8 + k]; }
    assert out[..] == input[8..];
    ghost var all := Unwrapped(c, input);
    var t := 6 * (inlen / 8);
    for j := 0 to 6
      invariant |a| == 8 && t == (6 - j) * n
      invariant all == Backward(c, Registers(a, out[..]), n, t)
    {
      assert (6 - j) * n == (5 - j) * n + n;
      a, t := UnwrapRound(c, a, out, t, n, 5 - j);
    }
    NoSteps(c, Registers(a, out[..]), n);
    iv := a;
  }

  method UnwrapRound(c: BlockCipher, a: seq<Byte>, out: array<Byte>, t: nat, ghost n: nat, ghost j: nat)
    returns (a': seq<Byte>, t': nat)
    requires Permutation(c) && 0 < n && out.Length == 8 * n && |a| == 8 && t == j * n + n
    modifies out
    ensures |a'| == 8 && t' == t - n
    ensures Backward(c, Registers(a', out[..]), n, t') == Backward(c, Registers(a, old(out[..])), n, t)
  {
    hide Permutation, MixCounter, Mix, Unmix;
    a', t' := a, t;
    var rOffset := out.Length;
    ghost var q := n;
    while rOffset > 0
      invariant rOffset == 8 * q && 0 <= q <= n && |a'| == 8
      invariant t' == t - n + q
      invariant Backward(c, Registers(a', out[..]), n, t') == Backward(c, Registers(a, old(out[..])), n, t)
    {
      rOffset := rOffset - 8;
      q := q - 1;
      ModIs(j, n, q);
      a' := UnwrapStep(c, a', out, rOffset, q, t');
      t' := t' - 1;
    }
  }

  method UnwrapStep(c: BlockCipher, a: seq<Byte>, out: array<Byte>, i: nat, ghost q: nat, t: nat)
    returns (a': seq<Byte>)
    requires Permutation(c) && |a| == 8 && i == 8 * q && i + 8 <= out.Length
    modifies out
    ensures |a'| == 8 && Registers(a', out[..]) == Unmix(c, Registers(a, old(out[..])), q, t)
  {
    hide MixCounter;
    ghost var r := out[..];
    var block := MixCounter(a, t) + out[i..i + 8];
    assert block == MixCounter(a, t) + Block(r, q);
    var b := c.decrypt(block);
    a' := b[..8];
    PutBlock(out, i, b[8..]);
    assert out[..] == SetBlock(r, q, b[8..]);
  }
}
