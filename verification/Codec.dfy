/** The wire form of data packets (section 3.1 of draft-sharabayko-srt) and of extension
    strings (section 3.2.1.3 of draft-sharabayko-mops-srt-01). */
module Codec {
  import opened SeqNumbers
  import opened Packets
  import opened ByteValues

  datatype ParseError = NotEnoughData | ControlPacket | BadDataEncryption | StreamTypeNotUtf8

  datatype ParseResult<T> = Ok(value: T) | Err(error: ParseError)

  // ---- Bytes and words ----

  /** Big-endian. */
  function WordBytes(n: U32): (b: seq<Byte>)
    ensures |b| == 4
  {
    var h := n / 256;
    var g := h / 256;
    [OfInt(g / 256), OfInt(g % 256), OfInt(h % 256), OfInt(n % 256)]
  }

  function WordOf(b: seq<Byte>): U32
    requires |b| == 4
  {
    FromDigits(ToInt(b[0]), ToInt(b[1]), ToInt(b[2]), ToInt(b[3]))
  }

  function FromDigits(a: int, b: int, c: int, d: int): U32
    requires 0 <= a < 256 && 0 <= b < 256 && 0 <= c < 256 && 0 <= d < 256
  {
    ((a * 256 + b) * 256 + c) * 256 + d
  }

  lemma {:induction false} WordRoundTrip(n: U32)
    ensures WordOf(WordBytes(n)) == n
  {
    hide OfInt, ToInt;
    var h := n / 256;
    var g := h / 256;
    ToOfInt(g / 256);
    ToOfInt(g % 256);
    ToOfInt(h % 256);
    ToOfInt(n % 256);
  }

  lemma {:induction false} BytesRoundTrip(b: seq<Byte>)
    requires |b| == 4
    ensures WordBytes(WordOf(b)) == b
  {
    hide OfInt, ToInt;
    OfToInt(b[0]);
    OfToInt(b[1]);
    OfToInt(b[2]);
    OfToInt(b[3]);
    var g := ToInt(b[0]) * 256 + ToInt(b[1]);
    var h := g * 256 + ToInt(b[2]);
    assert g / 256 == ToInt(b[0]) && g % 256 == ToInt(b[1]);
    assert h / 256 == g && h % 256 == ToInt(b[2]);
    assert WordOf(b) / 256 == h && WordOf(b) % 256 == ToInt(b[3]);
  }

  lemma {:induction false} TopBit(b: seq<Byte>)
    requires |b| == 4
    ensures MODULUS <= WordOf(b) <==> 0x80 <= b[0]
  {
    HalfByte(b[0]);
    hide ToInt;
  }

  lemma {:induction false} HalfByte(b: Byte)
    ensures 128 <= ToInt(b) <==> 0x80 <= b
  {
  }

  class Buf {
    var bytes: seq<Byte>

    constructor (bytes: seq<Byte>)
      ensures this.bytes == bytes
    {
      this.bytes := bytes;
    }

    method PutU32(n: U32)
      modifies this
      ensures bytes == old(bytes) + WordBytes(n)
    {
      bytes := bytes + WordBytes(n);
    }

    method GetU32() returns (n: U32)
      requires 4 <= |bytes|
      modifies this
      ensures n == WordOf(old(bytes[..4])) && bytes == old(bytes[4..])
    {
      n := WordOf(bytes[..4]);
      bytes := bytes[4..];
    }
  }

  // ---- Data packets ----

  function Bit(b: bool, weight: nat): nat {
    if b then weight else 0
  }

  // Six flag bits above the 26 bits of the message number.
  function Flags(p: DataPacket): nat {
    var encryption := match p.encryption case Clear => 0 case Even => 2 case Odd => 4;
    Bit(p.messageLoc.first, 32) + Bit(p.messageLoc.last, 16) + Bit(p.inOrderDelivery, 8) + encryption
      + Bit(p.retransmitted, 1)
  }

  function SecondWord(p: DataPacket): U32 {
    p.messageNumber + 0x400_0000 * Flags(p)
  }

  function Serialized(p: DataPacket): seq<Byte> {
    WordBytes(p.seqNumber) + WordBytes(SecondWord(p)) + WordBytes(p.timestamp) + WordBytes(p.destSockId) + p.payload
  }

  predicate BitSet(flags: nat, weight: nat)
    requires 0 < weight
  {
    flags / weight % 2 == 1
  }

  function EncryptionOf(flags: nat): ParseResult<DataEncryption> {
    match flags / 2 % 4
    case 0 => Ok(Clear)
    case 1 => Ok(Even)
    case 2 => Ok(Odd)
    case _ => Err(BadDataEncryption)
  }

  /** A packet from its four header words. */
  function FromWords(w1: U32, w2: U32, w3: U32, w4: U32, payload: seq<Byte>): ParseResult<DataPacket> {
    var flags := w2 / 0x400_0000;
    match EncryptionOf(flags)
    case Err(e) => Err(e)
    case Ok(encryption) =>
      Ok(DataPacket(Truncate(w1), PacketLocation(BitSet(flags, 32), BitSet(flags, 16)), BitSet(flags, 8), encryption,
                    BitSet(flags, 1), w2 % 0x400_0000, w3, w4, payload))
  }

  /** A control packet is left to another parser. */
  function Parsed(b: seq<Byte>): ParseResult<DataPacket> {
    if |b| < 16 then Err(NotEnoughData)
    else if MODULUS <= WordOf(b[..4]) then Err(ControlPacket)
    else FromWords(WordOf(b[..4]), WordOf(b[4..8]), WordOf(b[8..12]), WordOf(b[12..16]), b[16..])
  }

  lemma {:induction false} FlagsRoundTrip(p: DataPacket)
    ensures var flags := Flags(p);
            && BitSet(flags, 32) == p.messageLoc.first && BitSet(flags, 16) == p.messageLoc.last
            && BitSet(flags, 8) == p.inOrderDelivery && EncryptionOf(flags) == Ok(p.encryption)
            && BitSet(flags, 1) == p.retransmitted
  {
    var r, e := Bit(p.retransmitted, 1), match p.encryption case Clear => 0 case Even => 1 case Odd => 2;
    var b := 4 * Bit(p.messageLoc.first, 1) + 2 * Bit(p.messageLoc.last, 1) + Bit(p.inOrderDelivery, 1);
    var a := 4 * b + e;
    assert Flags(p) == 2 * a + r;
    assert Flags(p) / 2 == a && Flags(p) / 8 == b && Flags(p) / 16 == b / 2 && Flags(p) / 32 == b / 4;
    hide Flags;
  }

  lemma {:induction false} PacketRoundTrip(p: DataPacket)
    ensures FromWords(p.seqNumber, SecondWord(p), p.timestamp, p.destSockId, p.payload) == Ok(p)
  {
    FlagsRoundTrip(p);
    hide Flags, BitSet, EncryptionOf;
    assert SecondWord(p) / 0x400_0000 == Flags(p) && SecondWord(p) % 0x400_0000 == p.messageNumber;
  }

  /** Parsing undoes serializing, for every packet. */
  lemma {:induction false} ParseUndoesSerialize(p: DataPacket)
    ensures Parsed(Serialized(p)) == Ok(p)
  {
    hide WordOf, WordBytes, FromWords, SecondWord;
    var b := Serialized(p);
    assert b[..4] == WordBytes(p.seqNumber) && b[4..8] == WordBytes(SecondWord(p));
    assert b[8..12] == WordBytes(p.timestamp) && b[12..16] == WordBytes(p.destSockId) && b[16..] == p.payload;
    WordRoundTrip(p.seqNumber);
    WordRoundTrip(SecondWord(p));
    WordRoundTrip(p.timestamp);
    WordRoundTrip(p.destSockId);
    PacketRoundTrip(p);
  }

  /** Four bytes as a number, most significant first. */
  function BigEndian(b: seq<Byte>, at: nat): int
    requires at + 4 <= |b|
  {
    (b[at] as int) * 0x100_0000 + (b[at + 1] as int) * 0x1_0000 + (b[at + 2] as int) * 0x100 + (b[at + 3] as int)
  }

  lemma {:induction false} WordIsBigEndian(b: seq<Byte>, at: nat, n: U32)
    requires at + 4 <= |b| && b[at..at + 4] == WordBytes(n)
    ensures BigEndian(b, at) == n
  {
    hide OfInt, WordBytes;
    WordRoundTrip(n);
    var w := b[at..at + 4];
    assert w[0] == b[at] && w[1] == b[at + 1] && w[2] == b[at + 2] && w[3] == b[at + 3];
  }

  /** Where each field of a packet is in its wire form. */
  lemma {:induction false} HeaderLayout(p: DataPacket)
    ensures var b := Serialized(p);
            && |b| == 16 + |p.payload| && b[16..] == p.payload
            && BigEndian(b, 0) == p.seqNumber && BigEndian(b, 8) == p.timestamp && BigEndian(b, 12) == p.destSockId
            && BigEndian(b, 4) == p.messageNumber
               + (if p.messageLoc.first then 0x8000_0000 else 0) + (if p.messageLoc.last then 0x4000_0000 else 0)
               + (if p.inOrderDelivery then 0x2000_0000 else 0)
               + (match p.encryption case Clear => 0 case Even => 0x800_0000 case Odd => 0x1000_0000)
               + (if p.retransmitted then 0x400_0000 else 0)
  {
    hide WordBytes, BigEndian;
    var b := Serialized(p);
    WordIsBigEndian(b, 0, p.seqNumber);
    WordIsBigEndian(b, 4, SecondWord(p));
    WordIsBigEndian(b, 8, p.timestamp);
    WordIsBigEndian(b, 12, p.destSockId);
  }

  lemma {:induction false} FlagsAreBits(flags: nat)
    requires flags < 64
    ensures flags == Bit(BitSet(flags, 32), 32) + Bit(BitSet(flags, 16), 16) + Bit(BitSet(flags, 8), 8)
                     + 2 * (flags / 2 % 4) + Bit(BitSet(flags, 1), 1)
  {
    var a := flags / 2;
    var b := flags / 8;
    assert flags == 2 * a + flags % 2 && a == 4 * b + a % 4;
    assert b == 4 * (b / 4) + 2 * (b / 2 % 2) + b % 2;
    assert flags / 16 == b / 2 && flags / 32 == b / 4;
  }

  lemma {:induction false} WordsRoundTrip(w1: U32, w2: U32, w3: U32, w4: U32, payload: seq<Byte>)
    requires w1 < MODULUS
    ensures FromWords(w1, w2, w3, w4, payload).Ok? <==> w2 / 0x400_0000 / 2 % 4 != 3
    ensures var p := FromWords(w1, w2, w3, w4, payload);
            p.Ok? ==>
              && p.value.seqNumber == w1 && SecondWord(p.value) == w2
              && p.value.timestamp == w3 && p.value.destSockId == w4 && p.value.payload == payload
  {
    var flags := w2 / 0x400_0000;
    FlagsAreBits(flags);
    hide BitSet, Bit;
  }

  /** Exactly the buffers with a header, a clear control bit and not both encryption bits
      set are read as data packets, and then serializing undoes parsing. */
  lemma {:induction false} SerializeUndoesParse(b: seq<Byte>)
    ensures Parsed(b).Ok? <==> 16 <= |b| && WordOf(b[..4]) < MODULUS && WordOf(b[4..8]) / 0x400_0000 / 2 % 4 != 3
    ensures Parsed(b).Ok? ==> Serialized(Parsed(b).value) == b
  {
    if 16 <= |b| && WordOf(b[..4]) < MODULUS {
      WordsRoundTrip(WordOf(b[..4]), WordOf(b[4..8]), WordOf(b[8..12]), WordOf(b[12..16]), b[16..]);
      hide WordOf, WordBytes, SecondWord, FromWords;
      SlicesRoundTrip(b);
    }
  }

  lemma {:induction false} SlicesRoundTrip(b: seq<Byte>)
    requires 16 <= |b|
    ensures WordBytes(WordOf(b[..4])) + WordBytes(WordOf(b[4..8])) + WordBytes(WordOf(b[8..12]))
            + WordBytes(WordOf(b[12..16])) + b[16..] == b
  {
    hide WordOf, WordBytes;
    BytesRoundTrip(b[..4]);
    BytesRoundTrip(b[4..8]);
    BytesRoundTrip(b[8..12]);
    BytesRoundTrip(b[12..16]);
  }

  method Serialize(p: DataPacket, into: Buf)
    modifies into
    ensures into.bytes == old(into.bytes) + Serialized(p)
  {
    hide WordBytes, SecondWord;
    into.PutU32(p.seqNumber);
    into.PutU32(SecondWord(p));
    into.PutU32(p.timestamp);
    into.PutU32(p.destSockId);
    into.bytes := into.bytes + p.payload;
  }

  /** For any buffer, the checks of the packet parser and then the data parser. On success
      the buffer is used up. */
  method Parse(buf: Buf) returns (r: ParseResult<DataPacket>)
    modifies buf
    ensures r == Parsed(old(buf.bytes)) && (r.Ok? ==> buf.bytes == [])
    ensures |old(buf.bytes)| < 16 || r == Err(ControlPacket) ==> buf.bytes == old(buf.bytes)
  {
    if |buf.bytes| < 16 { return Err(NotEnoughData); }
    TopBit(buf.bytes[..4]);
    hide WordOf, EncryptionOf, BitSet;
    ghost var b := buf.bytes;
    if 0x80 <= buf.bytes[0] { return Err(ControlPacket); }
    assert b[4..][..4] == b[4..8] && b[8..][..4] == b[8..12] && b[12..][..4] == b[12..16];
    var first := buf.GetU32();
    var second := buf.GetU32();
    assert buf.bytes == b[8..];
    var flags := second / 0x400_0000;
    var encryption := EncryptionOf(flags);
    if encryption.Err? { return Err(encryption.error); }
    var timestamp := buf.GetU32();
    assert buf.bytes == b[12..];
    var destSockId := buf.GetU32();
    assert buf.bytes == b[16..];
    r := Ok(DataPacket(Truncate(first), PacketLocation(BitSet(flags, 32), BitSet(flags, 16)), BitSet(flags, 8),
      encryption.value,
                       BitSet(flags, 1), second % 0x400_0000, timestamp, destSockId, buf.bytes));
    buf.bytes := [];
  }

  // ---- Strings ----

  // A string is its bytes; each word of four is reversed, the last one padded with zeros.
  function Words(s: seq<Byte>): (b: seq<Byte>)
    ensures |b| == 4 * ((|s| + 3) / 4)
  {
    if |s| >= 4 then [s[3], s[2], s[1], s[0]] + Words(s[4..])
    else if |s| == 3 then [0, s[2], s[1], s[0]]
    else if |s| == 2 then [0, 0, s[1], s[0]]
    else if |s| == 1 then [0, 0, 0, s[0]]
    else []
  }

  function LastWord(b: seq<Byte>): seq<Byte>
    requires |b| == 4
  {
    if b[0] != 0 then [b[3], b[2], b[1], b[0]]
    else if b[1] != 0 then [b[3], b[2], b[1]]
    else if b[2] != 0 then [b[3], b[2]]
    else [b[3]]
  }

  function Text(b: seq<Byte>): seq<Byte>
    requires 0 < |b| && |b| % 4 == 0
  {
    if |b| > 4 then [b[3], b[2], b[1], b[0]] + Text(b[4..]) else LastWord(b)
  }

  /** A string is read back exactly when its padding cannot be mistaken for part of it:
      it ends in a nonzero byte, or its last word holds one byte. */
  lemma {:induction false} TextUndoesWords(s: seq<Byte>)
    requires s != []
    ensures Text(Words(s)) == s <==> s[|s| - 1] != 0 || |s| % 4 == 1
  {
    if |s| > 4 {
      hide Words, Text;
      TextUndoesWords(s[4..]);
      FirstWord(s);
      SamePrefix(s, Text(Words(s[4..])));
      SameEnd(s, s[4..]);
    } else {
      OneWord(s);
    }
  }

  lemma {:induction false} SamePrefix(s: seq<Byte>, t: seq<Byte>)
    requires |s| > 4
    ensures s[..4] + t == s <==> t == s[4..]
  {
    assert s == s[..4] + s[4..];
    assert (s[..4] + t)[4..] == t;
  }

  lemma {:induction false} SameEnd(s: seq<Byte>, t: seq<Byte>)
    requires |s| > 4 && t == s[4..]
    ensures t[|t| - 1] == s[|s| - 1] && |t| % 4 == |s| % 4
  {
  }

  lemma {:induction false} FirstWord(s: seq<Byte>)
    requires |s| > 4
    ensures Text(Words(s)) == s[..4] + Text(Words(s[4..]))
  {
    assert Words(s)[4..] == Words(s[4..]);
    hide Words;
  }

  lemma {:induction false} OneWord(s: seq<Byte>)
    requires 1 <= |s| <= 4
    ensures Text(Words(s)) == s <==> s[|s| - 1] != 0 || |s| % 4 == 1
  {
    var b := Words(s);
    assert |s| == 4 ==> b == [s[3], s[2], s[1], s[0]];
    assert |b| == 4 && Text(b) == LastWord(b);
    hide Words, Text;
  }

  /** Where each byte of a string goes: its word's bytes are in reverse order. */
  lemma {:induction false} WordsReverse(s: seq<Byte>, w: nat, j: nat)
    requires 4 * w + 3 < |Words(s)| && j < 4
    ensures Words(s)[4 * w + 3 - j] == if 4 * w + j < |s| then s[4 * w + j] else 0
  {
    if w > 0 {
      WordsReverse(s[4..], w - 1, j);
    }
  }

  /** The smallest string that is not read back: an A and a NUL. */
  lemma {:induction false} TrailingNulIsLost()
    ensures Words([65, 0]) == [0, 0, 0, 65] && Text(Words([65, 0])) == [65]
  {
  }

  /** The other way round nothing is lost. */
  lemma {:induction false} WordsUndoesText(b: seq<Byte>)
    requires 0 < |b| && |b| % 4 == 0
    ensures Words(Text(b)) == b
  {
    if |b| > 4 {
      WordsUndoesText(b[4..]);
      assert Text(b)[4..] == Text(b[4..]);
    } else {
      assert Words([b[3], b[2], b[1], b[0]]) == [b[0], b[1], b[2], b[3]] + Words([b[3], b[2], b[1], b[0]][4..]);
    }
  }

  method StringToLeBytes(s: seq<Byte>, into: Buf)
    modifies into
    ensures into.bytes == old(into.bytes) + Words(s)
  {
    var i := 0;
    while i + 4 <= |s|
      invariant 0 <= i <= |s|
      invariant into.bytes + Words(s[i..]) == old(into.bytes) + Words(s)
    {
      assert s[i..][4..] == s[i + 4..];
      ghost var before := into.bytes;
      into.bytes := into.bytes + [s[i + 3], s[i + 2], s[i + 1], s[i]];
      assert into.bytes + Words(s[i + 4..]) == before + Words(s[i..]);
      i := i + 4;
    }
    var rest := s[i..];
    if |rest| == 3 {
      into.bytes := into.bytes + [0, rest[2], rest[1], rest[0]];
    } else if |rest| == 2 {
      into.bytes := into.bytes + [0, 0, rest[1], rest[0]];
    } else if |rest| == 1 {
      into.bytes := into.bytes + [0, 0, 0, rest[0]];
    }
  }

  /** None where the source stops, on an empty buffer. */
  method LeBytesToString(buf: Buf, utf8: seq<Byte> -> bool) returns (r: Option<ParseResult<seq<Byte>>>)
    modifies buf
    ensures var b := old(buf.bytes);
            r == if b == [] then None
                 else if |b| % 4 != 0 then Some(Err(NotEnoughData))
                 else if utf8(Text(b)) then Some(Ok(Text(b)))
                 else Some(Err(StreamTypeNotUtf8))
  {
    if |buf.bytes| % 4 != 0 { return Some(Err(NotEnoughData)); }
    if buf.bytes == [] { return None; }
    var text := [];
    while |buf.bytes| > 4
      invariant 0 < |buf.bytes| && |buf.bytes| % 4 == 0
      invariant text + Text(buf.bytes) == Text(old(buf.bytes))
    {
      ghost var before, done := buf.bytes, text;
      var b := buf.bytes[..4];
      buf.bytes := buf.bytes[4..];
      text := text + [b[3], b[2], b[1], b[0]];
      assert text + Text(buf.bytes) == done + Text(before);
    }
    var b := buf.bytes;
    buf.bytes := [];
    text := text + LastWord(b);
    return Some(if utf8(text) then Ok(text) else Err(StreamTypeNotUtf8));
  }
}
