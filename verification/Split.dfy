/** Splitting messages into packets. */
module Splits {
  import opened SeqNumbers
  import opened Packets

  /** What all packets of one message share. */
  datatype Envelope = Envelope(destSockId: SocketId, messageNumber: MsgNumber, timestamp: TimeStamp)

  function NewPacket(e: Envelope, n: SeqNumber, first: bool, last: bool, payload: seq<Byte>): DataPacket {
    DataPacket(n, PacketLocation(first, last), false, Clear, false, e.messageNumber, e.timestamp, e.destSockId, payload)
  }

  /** The packets of one message, the first of them number `n`. */
  function Split(size: nat, e: Envelope, n: int, first: bool, data: seq<Byte>): seq<DataPacket>
    requires 0 < size
    decreases |data|
  {
    if |data| > size
    then [NewPacket(e, Wire(n), first, false, data[..size])] + Split(size, e, n + 1, false, data[size..])
    else [NewPacket(e, Wire(n), first, true, data)]
  }

  function Bytes(ps: seq<DataPacket>): seq<Byte> {
    if ps == [] then [] else Bytes(ps[..|ps| - 1]) + ps[|ps| - 1].payload
  }

  lemma {:induction false} BytesCons(p: DataPacket, ps: seq<DataPacket>)
    ensures Bytes([p] + ps) == p.payload + Bytes(ps)
  {
    if ps == [] {
      assert [p] + ps == [p] && [p][..0] == [];
      assert Bytes([p][..0]) == [];
    } else {
      BytesCons(p, ps[..|ps| - 1]);
      assert ([p] + ps)[..|ps|] == [p] + ps[..|ps| - 1];
    }
  }

  predicate WellPlaced(p: DataPacket, size: nat, e: Envelope, n: int, first: bool, last: bool) {
    && p.seqNumber == Wire(n)
    && p.messageNumber == e.messageNumber
    && p.timestamp == e.timestamp
    && p.destSockId == e.destSockId
    && p.encryption == Clear && !p.inOrderDelivery && !p.retransmitted
    && p.messageLoc == PacketLocation(first, last)
    && (if last then |p.payload| <= size && (first || p.payload != []) else |p.payload| == size)
  }

  /** `ps` carries exactly the message `data`: consecutive numbers, one packet marked
      first, one marked last, every packet but the last full, the last not empty unless the
      message is, and the payloads in order give the message back. */
  ghost predicate Carries(ps: seq<DataPacket>, size: nat, e: Envelope, n: int, first: bool, data: seq<Byte>) {
    && ps != []
    && (forall i | 0 <= i < |ps| :: WellPlaced(ps[i], size, e, n + i, first && i == 0, i == |ps| - 1))
    && Bytes(ps) == data
  }

  lemma {:induction false} SplitCarries(size: nat, e: Envelope, n: int, first: bool, data: seq<Byte>)
    requires 0 < size && (first || data != [])
    ensures Carries(Split(size, e, n, first, data), size, e, n, first, data)
    decreases |data|
  {
    hide Wire, Bytes;
    if |data| > size {
      var p := NewPacket(e, Wire(n), first, false, data[..size]);
      var rest := Split(size, e, n + 1, false, data[size..]);
      SplitCarries(size, e, n + 1, false, data[size..]);
      BytesCons(p, rest);
      assert data == data[..size] + data[size..];
      forall i | 0 <= i < |rest| + 1
        ensures WellPlaced(([p] + rest)[i], size, e, n + i, first && i == 0, i == |rest|)
      {
        if i > 0 { assert WellPlaced(rest[i - 1], size, e, n + 1 + (i - 1), false, i == |rest|); }
      }
    } else {
      var p := NewPacket(e, Wire(n), first, true, data);
      BytesCons(p, []);
      assert [p] + [] == [p] && Bytes([]) == [] by { NoBytes(); }
    }
  }

  lemma {:induction false} NoBytes()
    ensures Bytes([]) == []
  {
  }
}
