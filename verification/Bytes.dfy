/** Raw bytes, as the payloads of the other modules carry them. */
module RawBytes {
  newtype byte = x: int | 0 <= x < 256
}
