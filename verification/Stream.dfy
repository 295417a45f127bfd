/** The sequence of packets that a sequence of submitted messages becomes. */
module Streams {
  import opened SeqNumbers
  import opened Packets
  import opened Splits

  datatype Submission = Submission(timestamp: TimeStamp, data: seq<Byte>)

  datatype Source = Source(init: SeqNumber, size: nat, destSockId: SocketId)

  /** Messages are numbered from 0 and wrap at 26 bits. */
  function EnvelopeOf(src: Source, ms: seq<Submission>, j: nat): Envelope
    requires j < |ms|
  {
    Envelope(src.destSockId, j % 0x400_0000, ms[j].timestamp)
  }

  function Stream(src: Source, ms: seq<Submission>): seq<DataPacket>
    requires 0 < src.size
  {
    if ms == [] then []
    else
      var j := |ms| - 1;
      var before := Stream(src, ms[..j]);
      before + Split(src.size, EnvelopeOf(src, ms, j), src.init + |before|, true, ms[j].data)
  }

  /** Where message `j` starts; where the stream ends for `j == |ms|`. */
  function Start(src: Source, ms: seq<Submission>, j: nat): nat
    requires 0 < src.size && j <= |ms|
  {
    |Stream(src, ms[..j])|
  }

  lemma {:induction false} StreamStep(src: Source, ms: seq<Submission>, j: nat)
    requires 0 < src.size && j < |ms|
    ensures var before := Stream(src, ms[..j]);
            Stream(src, ms[..j + 1])
              == before + Split(src.size, EnvelopeOf(src, ms, j), src.init + |before|, true, ms[j].data)
  {
    hide Split;
    assert ms[..j + 1][..j] == ms[..j];
  }

  /** Later submissions only extend the stream. */
  lemma {:induction false} StreamGrows(src: Source, ms: seq<Submission>, i: nat, j: nat)
    requires 0 < src.size && i <= j <= |ms|
    ensures Stream(src, ms[..i]) <= Stream(src, ms[..j])
    ensures i < j ==> Start(src, ms, i) < Start(src, ms, j)
    decreases j - i
  {
    hide Split;
    if i < j {
      StreamGrows(src, ms, i, j - 1);
      StreamStep(src, ms, j - 1);
      SplitCarries(src.size, EnvelopeOf(src, ms, j - 1), src.init + Start(src, ms, j - 1), true, ms[j - 1].data);
    }
  }

  /** Packet `n` of the stream carries number `init + n`. */
  lemma {:induction false} StreamNumbered(src: Source, ms: seq<Submission>, n: nat)
    requires 0 < src.size && n < |Stream(src, ms)|
    ensures Stream(src, ms)[n].seqNumber == Wire(src.init + n)
    ensures Stream(src, ms)[n].Content() == Stream(src, ms)[n]
    decreases |ms|
  {
    hide Wire, Split;
    var j := |ms| - 1;
    var before := Stream(src, ms[..j]);
    if n < |before| {
      StreamNumbered(src, ms[..j], n);
    } else {
      SplitNumbered(src.size, EnvelopeOf(src, ms, j), src.init + |before|, true, ms[j].data, n - |before|);
    }
  }

  lemma {:induction false} SplitNumbered(size: nat, e: Envelope, n: int, first: bool, data: seq<Byte>, i: nat)
    requires 0 < size && i < |Split(size, e, n, first, data)|
    ensures var p := Split(size, e, n, first, data)[i]; p.seqNumber == Wire(n + i) && p.Content() == p
    decreases |data|
  {
    hide Wire;
    if i > 0 {
      SplitNumbered(size, e, n + 1, false, data[size..], i - 1);
    }
  }

  lemma {:induction false} StreamEndsWithLast(src: Source, ms: seq<Submission>)
    requires 0 < src.size && ms != []
    ensures var s := Stream(src, ms); s != [] && s[|s| - 1].messageLoc.last
  {
    hide Split, Wire;
    var j := |ms| - 1;
    var before := Stream(src, ms[..j]);
    var e := EnvelopeOf(src, ms, j);
    SplitCarries(src.size, e, src.init + |before|, true, ms[j].data);
    var ps := Split(src.size, e, src.init + |before|, true, ms[j].data);
    assert WellPlaced(ps[|ps| - 1], src.size, e, src.init + |before| + (|ps| - 1), |ps| == 1, true);
  }

  /** A stretch of the stream that opens with a first packet and closes with the first
      last packet after it. */
  ghost predicate Framed(s: seq<DataPacket>, n: nat, c: nat)
    ensures Framed(s, n, c) ==> 1 <= c && n + c <= |s|
  {
    && 1 <= c && n + c <= |s|
    && s[n].messageLoc.first
    && forall i | n <= i < n + c :: s[i].messageLoc.last <==> i == n + c - 1
  }

  lemma {:induction false} FramedInFront(before: seq<DataPacket>, ps: seq<DataPacket>, n: nat, c: nat)
    requires Framed(before + ps, n, c) && n + c <= |before|
    ensures Framed(before, n, c) && (before + ps)[n..n + c] == before[n..n + c]
  {
    var s := before + ps;
    assert forall i | n <= i < n + c :: before[i] == s[i];
  }

  lemma {:induction false} FramedInBack(
    before: seq<DataPacket>, ps: seq<DataPacket>, n: nat, c: nat, size: nat, e: Envelope, at: int, data: seq<Byte>)
    requires Framed(before + ps, n, c) && |before| < n + c
    requires before != [] ==> before[|before| - 1].messageLoc.last
    requires Carries(ps, size, e, at, true, data)
    ensures n == |before| && c == |ps| && (before + ps)[n..n + c] == ps
  {
    hide Wire, Bytes;
    var s := before + ps;
    assert before != [] ==> s[|before| - 1] == before[|before| - 1];
    assert |before| <= n;
    assert s[n] == ps[n - |before|];
    assert WellPlaced(ps[n - |before|], size, e, at + (n - |before|), n == |before|, n - |before| == |ps| - 1);
    assert s[n + c - 1] == ps[c - 1];
    assert WellPlaced(ps[c - 1], size, e, at + (c - 1), c == 1, c == |ps|);
  }

  /** Such a stretch is exactly one submitted message: never part of one, never parts
      of two. */
  lemma {:induction false} FramedIsMessage(src: Source, ms: seq<Submission>, n: nat, c: nat) returns (j: nat)
    requires 0 < src.size && Framed(Stream(src, ms), n, c)
    ensures j < |ms| && n == Start(src, ms, j) && n + c == Start(src, ms, j + 1)
    ensures Bytes(Stream(src, ms)[n..n + c]) == ms[j].data
    decreases |ms|
  {
    hide Split, Wire, Bytes, Framed, WellPlaced;
    j := |ms| - 1;
    var e := EnvelopeOf(src, ms, j);
    var before := Stream(src, ms[..j]);
    var ps := Split(src.size, e, src.init + |before|, true, ms[j].data);
    if n + c <= |before| {
      FramedInFront(before, ps, n, c);
      var k := FramedIsMessage(src, ms[..j], n, c);
      assert ms[..j][..k] == ms[..k] && ms[..j][..k + 1] == ms[..k + 1];
      j := k;
    } else {
      SplitCarries(src.size, e, src.init + |before|, true, ms[j].data);
      if j > 0 { StreamEndsWithLast(src, ms[..j]); }
      FramedInBack(before, ps, n, c, src.size, e, src.init + |before|, ms[j].data);
      assert ms[..j + 1] == ms;
    }
  }

  /** The stretch of the stream that message `j` became. */
  lemma {:induction false} MessageInStream(src: Source, ms: seq<Submission>, j: nat)
    requires 0 < src.size && j < |ms|
    ensures var a, b := Start(src, ms, j), Start(src, ms, j + 1);
            && a < b <= |Stream(src, ms)|
            && Carries(Stream(src, ms)[a..b], src.size, EnvelopeOf(src, ms, j), src.init + a, true, ms[j].data)
  {
    hide Split, Stream, Carries;
    var before := Stream(src, ms[..j]);
    var ps := Split(src.size, EnvelopeOf(src, ms, j), src.init + |before|, true, ms[j].data);
    StreamStep(src, ms, j);
    SplitCarries(src.size, EnvelopeOf(src, ms, j), src.init + |before|, true, ms[j].data);
    StreamGrows(src, ms, j, j + 1);
    StreamGrows(src, ms, j + 1, |ms|);
    assert ms[..|ms|] == ms;
    var a, b := |before|, |before| + |ps|;
    assert Stream(src, ms)[..b] == before + ps;
    assert Stream(src, ms)[a..b] == Stream(src, ms)[..b][a..];
    assert (before + ps)[a..] == ps;
  }
}
