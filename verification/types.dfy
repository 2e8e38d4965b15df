/** Value types shared by the controller, the transport and the bridge. */
module Types {
  /** uint8_t. */
  type Byte = x: int | 0 <= x < 256

  /** uint32_t; differences of clock readings wrap. */
  type U32 = x: int | 0 <= x < 0x1_0000_0000

  function Elapsed(now: U32, since: U32): (ms: U32)
  {
    (now - since) % 0x1_0000_0000
  }

  const PACKET_SIZE: nat := 513

  /** One DMX packet: the start code and 512 slots. */
  type Packet = p: seq<Byte> | |p| == PACKET_SIZE witness ZeroPacket()

  function ZeroPacket(): seq<Byte>
  {
    seq(PACKET_SIZE, _ => 0)
  }

  datatype Option<+T> = None | Some(value: T) {
    predicate IsFailure() { None? }

    function PropagateFailure<U>(): Option<U>
      requires None?
    {
      None
    }

    function Extract(): T
      requires Some?
    {
      value
    }
  }
}
