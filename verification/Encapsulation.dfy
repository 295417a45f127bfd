/** The object that turns submitted messages into the stream of packets. */
module Encapsulations {
  import opened SeqNumbers
  import opened Packets
  import opened Splits
  import opened Streams

  class Encapsulation {
    const remoteSocketId: SocketId
    const maxPacketSize: nat
    var nextMessageNumber: MsgNumber
    var nextSequenceNumber: SeqNumber
    ghost const init: SeqNumber
    ghost var submissions: seq<Submission>

    ghost function Src(): Source {
      Source(init, maxPacketSize, remoteSocketId)
    }

    /** Everything made so far. */
    ghost function Made(): seq<DataPacket>
      requires 0 < maxPacketSize
      reads this
    {
      Stream(Src(), submissions)
    }

    ghost predicate Valid()
      reads this
    {
      && 0 < maxPacketSize
      && nextSequenceNumber == Wire(init + |Made()|)
      && nextMessageNumber == |submissions| % 0x400_0000
    }

    constructor (remoteSocketId: SocketId, maxPacketSize: nat, initSeqNum: SeqNumber)
      requires 0 < maxPacketSize
      ensures Valid() && init == initSeqNum && submissions == []
      ensures this.maxPacketSize == maxPacketSize && this.remoteSocketId == remoteSocketId
    {
      this.remoteSocketId, this.maxPacketSize := remoteSocketId, maxPacketSize;
      nextMessageNumber, nextSequenceNumber, init, submissions := 0, initSeqNum, initSeqNum, [];
    }

    /** The packets of a message are what it adds to the stream. */
    method Encapsulate(timestamp: TimeStamp, data: seq<Byte>) returns (packets: seq<DataPacket>)
      requires Valid()
      modifies this
      ensures Valid() && submissions == old(submissions) + [Submission(timestamp, data)]
      ensures Made() == old(Made()) + packets
      ensures Carries(packets, maxPacketSize, Envelope(remoteSocketId, |old(submissions)| % 0x400_0000, timestamp),
                      init + |old(Made())|, true, data)
    {
      hide Wire, Add, Stream, Carries;
      ghost var start := init + |Made()|;
      ghost var position := start;
      var e := Envelope(remoteSocketId, nextMessageNumber, timestamp);
      nextMessageNumber := NextMessageNumber(nextMessageNumber);
      packets := [];
      var remaining := data;
      var location := PacketLocation(true, false);
      while !location.last
        invariant position == start + |packets| && nextSequenceNumber == Wire(position)
        invariant location.last ==>
                    packets == Split(maxPacketSize, e, start, true, data)
        invariant !location.last ==>
                    packets + Split(maxPacketSize, e, position, location.first, remaining)
                    == Split(maxPacketSize, e, start, true, data)
        invariant submissions == old(submissions) && nextMessageNumber == NextMessageNumber(old(nextMessageNumber))
        decreases if location.last then 0 else 1 + |remaining|
      {
        var payload: seq<Byte>;
        var messageLoc;
        if |remaining| > maxPacketSize {
          payload, remaining := remaining[..maxPacketSize], remaining[maxPacketSize..];
          messageLoc := location;
          location := PacketLocation(false, false);
        } else {
          payload, remaining := remaining, [];
          location := location.(last := true);
          messageLoc := location;
        }
        packets := packets + [NewPacket(e, nextSequenceNumber, messageLoc.first, messageLoc.last, payload)];
        WireAdd(position, 1);
        nextSequenceNumber := Add(nextSequenceNumber, 1);
        position := position + 1;
      }
      submissions := submissions + [Submission(timestamp, data)];
      assert submissions[..|submissions| - 1] == old(submissions) && submissions[..|submissions|] == submissions;
      StreamStep(Src(), submissions, |submissions| - 1);
      SplitCarries(maxPacketSize, e, start, true, data);
    }
  }
}
