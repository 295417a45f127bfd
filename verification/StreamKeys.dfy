/** Stream encryption keys: wrapping them for the peer, and ciphering payloads. */
module StreamKeys {
  import opened SeqNumbers
  import opened Packets
  import opened ByteValues
  import opened KeyWraps

  type Key = seq<Byte>

  datatype KeySize = Unspecified | AES128 | AES192 | AES256 {
    function AsUsize(): nat {
      match this
      case Unspecified => 16
      case AES128 => 16
      case AES192 => 24
      case AES256 => 32
    }
  }

  datatype KeySettings = KeySettings(keySize: KeySize, passphrase: seq<Byte>)

  datatype StreamEncryptionKeys = StreamEncryptionKeys(salt: seq<Byte>, even: Option<Key>, odd: Option<Key>) {
    function GetKey(sek: DataEncryption): Option<Key> {
      match sek
      case Even => even
      case Odd => odd
      case Clear => None
    }

    function KeyBytes(): seq<Byte> {
      (if even.Some? then even.value else []) + (if odd.Some? then odd.value else [])
    }

    ghost predicate Fit(size: KeySize) {
      && |salt| == 16
      && (even.Some? || odd.Some?)
      && (even.Some? ==> |even.value| == size.AsUsize())
      && (odd.Some? ==> |odd.value| == size.AsUsize())
    }
  }

  /** Fields that every message carries with the same value are left out. */
  datatype KeyingMaterial = KeyingMaterial(evenFlag: bool, oddFlag: bool, salt: seq<Byte>, wrappedKeys: seq<Byte>) {
    // One key for each flag.
    function KeyLength(size: nat): nat {
      (if evenFlag then size else 0) + (if oddFlag then size else 0)
    }
  }

  datatype UnwrapResult =
    | Keys(keys: StreamEncryptionKeys)
    | InvalidSaltLength
    | InvalidKeyFlags
    | InvalidInitializationVector
    | Unreadable

  /** The key-encrypting cipher derived from a passphrase and the end of the salt, and the
      key stream of a key and an initialization vector. */
  datatype Crypto = Crypto(
    kek: (KeySettings, seq<Byte>) -> BlockCipher,
    keyStream: (Key, seq<Byte>, nat) -> Byte)
  {
    ghost predicate Sound() {
      forall ks: KeySettings, s: seq<Byte> :: Permutation(kek(ks, s))
    }

    function Kek(ks: KeySettings, salt: seq<Byte>): BlockCipher {
      kek(ks, if |salt| < 8 then salt else salt[|salt| - 8..])
    }
  }

  // ---- Wrapping ----

  ghost function Wrapping(x: Crypto, ks: KeySettings, k: StreamEncryptionKeys): KeyingMaterial
    requires x.Sound() && k.Fit(ks.keySize)
  {
    KeyingMaterial(k.even.Some?, k.odd.Some?, k.salt, Wrapped(x.Kek(ks, k.salt), DEFAULT_IV, k.KeyBytes()))
  }

  /** The source stops on material that flags no key and has the length of none. */
  predicate Readable(km: KeyingMaterial) {
    |km.salt| == 16 && !km.evenFlag && !km.oddFlag ==> |km.wrappedKeys| != 8
  }

  ghost function Unwrapping(x: Crypto, ks: KeySettings, km: KeyingMaterial): UnwrapResult
    requires x.Sound()
  {
    var size := ks.keySize.AsUsize();
    if |km.salt| != 16 then InvalidSaltLength
    else if km.KeyLength(size) + 8 != |km.wrappedKeys| then InvalidKeyFlags
    else if !Readable(km) then Unreadable
    else
      var u := Unwrapped(x.Kek(ks, km.salt), km.wrappedKeys);
      if u.a != DEFAULT_IV then InvalidInitializationVector
      else
        Keys(StreamEncryptionKeys(km.salt,
                                  if km.evenFlag then Some(u.r[..size]) else None,
                                  if km.oddFlag then Some(u.r[|u.r| - size..]) else None))
  }

  /** Material unwraps to exactly the keys it was wrapped from. */
  lemma {:induction false} UnwrapsToWrapped(x: Crypto, ks: KeySettings, k: StreamEncryptionKeys, km: KeyingMaterial)
    requires x.Sound() && k.Fit(ks.keySize)
    ensures Unwrapping(x, ks, km) == Keys(k) <==> km == Wrapping(x, ks, k)
  {
    hide Permutation, Wrapped, Unwrapped;
    var size := ks.keySize.AsUsize();
    var data := k.KeyBytes();
    var c := x.Kek(ks, k.salt);
    if km.KeyLength(size) + 8 == |km.wrappedKeys| && km.salt == k.salt
       && km.evenFlag == k.even.Some? && km.oddFlag == k.odd.Some? {
      UnwrapUndoesWrap(c, DEFAULT_IV, data, km.wrappedKeys);
      var u := Unwrapped(c, km.wrappedKeys);
      assert |u.r| == |data|;
      assert u.r == data <==>
               && (k.even.Some? ==> k.even.value == u.r[..size])
               && (k.odd.Some? ==> k.odd.value == u.r[|u.r| - size..]) by {
        if k.even.Some? && k.odd.Some? {
          assert u.r == u.r[..size] + u.r[size..];
          assert data[..size] == k.even.value && data[size..] == k.odd.value;
        }
      }
    }
  }

  lemma {:induction false} UnwrappedFit(x: Crypto, ks: KeySettings, km: KeyingMaterial)
    requires x.Sound() && Unwrapping(x, ks, km).Keys?
    ensures var k := Unwrapping(x, ks, km).keys;
            (k.even.Some? || k.odd.Some?) && k.Fit(ks.keySize)
  {
    hide Permutation;
  }

  lemma {:induction false} WrappingInjective(
    x: Crypto, ks: KeySettings, k: StreamEncryptionKeys, k': StreamEncryptionKeys)
    requires x.Sound() && k.Fit(ks.keySize) && k'.Fit(ks.keySize)
    ensures Wrapping(x, ks, k) == Wrapping(x, ks, k') ==> k == k'
  {
    hide Unwrapping;
    UnwrapsToWrapped(x, ks, k, Wrapping(x, ks, k));
    UnwrapsToWrapped(x, ks, k', Wrapping(x, ks, k));
  }

  lemma {:induction false} UnreadableExactly(x: Crypto, ks: KeySettings, km: KeyingMaterial)
    requires x.Sound()
    ensures Unwrapping(x, ks, km) == Unreadable <==> !Readable(km)
  {
    hide Permutation, Unwrapped;
  }

  method WrapWith(x: Crypto, ks: KeySettings, k: StreamEncryptionKeys) returns (km: KeyingMaterial)
    requires x.Sound() && k.Fit(ks.keySize)
    ensures km == Wrapping(x, ks, k)
  {
    hide Permutation, Wrapped;
    var keys := k.KeyBytes();
    var out := new Byte[|keys| + 8];
    AesWrap(x.Kek(ks, k.salt), None, out, keys);
    km := KeyingMaterial(k.even.Some?, k.odd.Some?, k.salt, out[..]);
  }

  /** Unreadable where the source stops. */
  method UnwrapFrom(x: Crypto, ks: KeySettings, km: KeyingMaterial) returns (r: UnwrapResult)
    requires x.Sound()
    ensures r == Unwrapping(x, ks, km)
    ensures r == Unreadable <==> !Readable(km)
  {
    hide Permutation, Unwrapped;
    var size := ks.keySize.AsUsize();
    if |km.salt| != 16 { return InvalidSaltLength; }
    if km.KeyLength(size) + 8 != |km.wrappedKeys| { return InvalidKeyFlags; }
    if |km.wrappedKeys| == 8 { return Unreadable; }
    var keys := new Byte[|km.wrappedKeys| - 8];
    var iv := AesUnwrap(x.Kek(ks, km.salt), keys, km.wrappedKeys);
    if iv != DEFAULT_IV { return InvalidInitializationVector; }
    var even := if km.evenFlag then Some(keys[..size]) else None;
    var odd := if km.oddFlag then Some(keys[keys.Length - size..]) else None;
    return Keys(StreamEncryptionKeys(km.salt, even, odd));
  }

  // ---- Ciphering ----

  // The first fourteen bytes of the salt, with the packet number mixed into the last four.
  function StreamIv(salt: seq<Byte>, n: SeqNumber): seq<Byte>
    requires |salt| == 16
  {
    salt[..10]
    + [Xor(salt[10], CounterByte(n, 0x100_0000)), Xor(salt[11], CounterByte(n, 0x1_0000)),
       Xor(salt[12], CounterByte(n, 0x100)), Xor(salt[13], CounterByte(n, 1))]
    + [0, 0]
  }

  /** Which bytes of the vector are the salt's and where the packet number goes in. */
  lemma {:induction false} StreamIvBytes(salt: seq<Byte>, n: SeqNumber)
    requires |salt| == 16
    ensures var iv := StreamIv(salt, n);
            && |iv| == 16 && iv[..10] == salt[..10] && iv[14] == iv[15] == 0
            && iv[10] == salt[10] ^ ((n / 0x100_0000) % 256) as Byte
            && iv[11] == salt[11] ^ ((n / 0x1_0000) % 256) as Byte
            && iv[12] == salt[12] ^ ((n / 0x100) % 256) as Byte
            && iv[13] == salt[13] ^ (n % 256) as Byte
  {
    assert n / 1 == n;
  }

  lemma {:induction false} CounterByteInjective(n: nat, m: nat, scale: nat)
    requires 0 < scale && CounterByte(n, scale) == CounterByte(m, scale)
    ensures (n / scale) % 256 == (m / scale) % 256
  {
    hide OfInt, ToInt;
    ToOfInt((n / scale) % 256);
    ToOfInt((m / scale) % 256);
  }

  lemma {:induction false} SameDigits(n: SeqNumber, m: SeqNumber)
    requires (n / 0x100_0000) % 256 == (m / 0x100_0000) % 256 && (n / 0x1_0000) % 256 == (m / 0x1_0000) % 256
    requires (n / 0x100) % 256 == (m / 0x100) % 256 && n % 256 == m % 256
    ensures n == m
  {
    Digits(n);
    Digits(m);
  }

  lemma {:induction false} Digits(n: SeqNumber)
    ensures n == (((n / 0x100_0000) % 256 * 256 + (n / 0x1_0000) % 256) * 256 + (n / 0x100) % 256) * 256 + n % 256
  {
    assert n / 0x1_0000 == n / 0x100_0000 * 256 + (n / 0x1_0000) % 256;
    assert n / 0x100 == n / 0x1_0000 * 256 + (n / 0x100) % 256;
  }

  /** No two packet numbers share a vector: under one key and salt each packet has its own. */
  lemma {:induction false} StreamIvInjective(salt: seq<Byte>, n: SeqNumber, m: SeqNumber)
    requires |salt| == 16
    ensures StreamIv(salt, n) == StreamIv(salt, m) <==> n == m
  {
    hide Xor, CounterByte;
    if StreamIv(salt, n) == StreamIv(salt, m) {
      var v, w := StreamIv(salt, n), StreamIv(salt, m);
      assert v[10] == w[10] && v[11] == w[11] && v[12] == w[12] && v[13] == w[13];
      XorInjective(salt[10], CounterByte(n, 0x100_0000), CounterByte(m, 0x100_0000));
      XorInjective(salt[11], CounterByte(n, 0x1_0000), CounterByte(m, 0x1_0000));
      XorInjective(salt[12], CounterByte(n, 0x100), CounterByte(m, 0x100));
      XorInjective(salt[13], CounterByte(n, 1), CounterByte(m, 1));
      CounterByteInjective(n, m, 0x100_0000);
      CounterByteInjective(n, m, 0x1_0000);
      CounterByteInjective(n, m, 0x100);
      CounterByteInjective(n, m, 1);
      assert n / 1 == n && m / 1 == m;
      SameDigits(n, m);
    }
  }

  /** The vector of one packet under one salt. */
  lemma {:induction false} KnownStreamIv()
    ensures StreamIv([0x87, 0x64, 0x7F, 0x8A, 0x23, 0x61, 0xFB, 0x1A, 0x9E, 0x69, 0x2D, 0xE5, 0x76, 0x98, 0x59, 0x49],
                     709_520_665)
            == [0x87, 0x64, 0x7F, 0x8A, 0x23, 0x61, 0xFB, 0x1A, 0x9E, 0x69, 0x07, 0xAF, 0x1B, 0x81, 0, 0]
  {
    hide CounterByte;
    KnownCounter();
    assert Xor(0x2D, 0x2A) == 0x07 && Xor(0xE5, 0x4A) == 0xAF && Xor(0x76, 0x6D) == 0x1B && Xor(0x98, 0x19) == 0x81;
    hide Xor;
  }

  lemma {:induction false} KnownCounter()
    ensures CounterByte(709_520_665, 0x100_0000) == 0x2A && CounterByte(709_520_665, 0x1_0000) == 0x4A
    ensures CounterByte(709_520_665, 0x100) == 0x6D && CounterByte(709_520_665, 1) == 0x19
  {
    hide OfInt;
    KnownBytes();
    assert 709_520_665 / 0x100_0000 == 0x2A && 709_520_665 / 0x1_0000 == 0x2A4A && 709_520_665 / 0x100 == 0x2A4A6D;
  }

  lemma {:induction false} KnownBytes()
    ensures OfInt(0x2A) == 0x2A && OfInt(0x4A) == 0x4A && OfInt(0x6D) == 0x6D && OfInt(0x19) == 0x19
  {
  }

  /** Packets of a stream share a vector only if they are a whole turn of the number space
      apart. */
  lemma {:induction false} VectorsRepeatAfterTurn(salt: seq<Byte>, n: int, m: int)
    requires |salt| == 16
    ensures StreamIv(salt, Wire(n)) == StreamIv(salt, Wire(m)) <==> (n - m) % MODULUS == 0
  {
    hide StreamIv;
    StreamIvInjective(salt, Wire(n), Wire(m));
  }

  function ApplyKeyStream(x: Crypto, key: Key, iv: seq<Byte>, data: seq<Byte>): seq<Byte> {
    seq(|data|, i requires 0 <= i < |data| => Xor(data[i], x.keyStream(key, iv, i)))
  }

  /** Enciphering and deciphering are the same operation. */
  function Cipher(
    x: Crypto, k: StreamEncryptionKeys, sek: DataEncryption, n: SeqNumber, data: seq<Byte>): Option<seq<Byte>>
    requires |k.salt| == 16
  {
    var key := k.GetKey(sek);
    if key.None? then None else Some(ApplyKeyStream(x, key.value, StreamIv(k.salt, n), data))
  }

  /** What ciphering does to each byte: the byte of the key stream at its place, for the
      flagged key and the vector of the packet, is mixed in. There is a result exactly if
      there is such a key. */
  lemma {:induction false} CipherBytes(
    x: Crypto, k: StreamEncryptionKeys, sek: DataEncryption, n: SeqNumber, data: seq<Byte>)
    requires |k.salt| == 16
    ensures var key := match sek case Clear => None case Even => k.even case Odd => k.odd;
            var r := Cipher(x, k, sek, n, data);
            && (r.Some? <==> key.Some?)
            && (r.Some? ==> |r.value| == |data| && forall i | 0 <= i < |data| ::
                  r.value[i] == data[i] ^ x.keyStream(key.value, StreamIv(k.salt, n), i))
  {
  }

  /** The key-encrypting cipher depends on no more of the salt than its last eight bytes. */
  lemma {:induction false} KekOfSaltEnd(x: Crypto, ks: KeySettings, start: seq<Byte>, end: seq<Byte>)
    requires |end| == 8
    ensures x.Kek(ks, start + end) == x.kek(ks, end)
  {
    assert (start + end)[|start|..] == end;
  }

  /** Whoever holds the same key and salt reads what was enciphered. */
  lemma {:induction false} CipherTwice(
    x: Crypto, k: StreamEncryptionKeys, k': StreamEncryptionKeys, sek: DataEncryption, n: SeqNumber, data: seq<Byte>)
    requires |k.salt| == 16 && k.salt == k'.salt && k.GetKey(sek) == k'.GetKey(sek) && k.GetKey(sek).Some?
    ensures Cipher(x, k', sek, n, Cipher(x, k, sek, n, data).value) == Some(data)
  {
    hide Xor, StreamIv;
    var key, iv := k.GetKey(sek).value, StreamIv(k.salt, n);
    forall i | 0 <= i < |data| ensures Xor(Xor(data[i], x.keyStream(key, iv, i)), x.keyStream(key, iv, i)) == data[i] {
      XorTwice(data[i], x.keyStream(key, iv, i));
    }
    var once := ApplyKeyStream(x, key, iv, data);
    assert ApplyKeyStream(x, key, iv, once) == data;
  }
}
