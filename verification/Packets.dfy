/** What travels over redis: pushed requests forwards, acknowledgements back. */
module Packets {
  type Address = string

  /** The payload of a stream entry. Anything that is not a push message is
      skipped by a listener. */
  datatype Payload =
    | Push(id: nat, reverse: Address, message: int)
    | OtherPayload(tag: int)

  /** A packet on the reverse channel: data (an ack or anything else) or the
      marker that closes the channel. */
  datatype Packet =
    | Ack(id: nat, status: bool)
    | OtherData(tag: int)
    | Close
}
