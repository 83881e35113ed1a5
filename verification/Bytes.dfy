/** Bytes, as the storage, scanner and codec see them. */
module Bytes {
  newtype byte = b: int | 0 <= b < 256
  type bytes = seq<byte>
}
