/** Bytes and buffers of the wire protocols. */
module Octets {
  type Byte = b: int | 0 <= b < 256

  type Packet = seq<Byte>
}
