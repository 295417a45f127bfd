/** Data packets and the values that travel with them. */
module Packets {
  import opened SeqNumbers

  type Byte = bv8
  type MsgNumber = n: int | 0 <= n < 0x400_0000
  type TimeStamp = U32
  type SocketId = U32

  datatype Option<+T> = None | Some(value: T)

  datatype PacketLocation = PacketLocation(first: bool, last: bool)

  datatype DataEncryption = Clear | Even | Odd

  datatype DataPacket = DataPacket(
    seqNumber: SeqNumber,
    messageLoc: PacketLocation,
    inOrderDelivery: bool,
    encryption: DataEncryption,
    retransmitted: bool,
    messageNumber: MsgNumber,
    timestamp: TimeStamp,
    destSockId: SocketId,
    payload: seq<Byte>)
  {
    /** What stays the same when the packet is sent again. */
    function Content(): DataPacket {
      this.(retransmitted := false)
    }

    // 20 bytes of IPv4, 8 of UDP and 16 of SRT header.
    function WireSize(): nat {
      44 + |payload|
    }
  }

  lemma {:induction false} Member<T>(s: set<T>) returns (m: T)
    requires s != {}
    ensures m in s
  {
    if forall x :: x in s ==> x !in s { assert false; }
    m :| m in s;
  }

  function NextMessageNumber(m: MsgNumber): MsgNumber {
    (m + 1) % 0x400_0000
  }
}
