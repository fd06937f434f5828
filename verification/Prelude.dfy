/** Small shared vocabulary: optional values, bytes, recording identifiers and 64-bit counters. */
module Prelude {

  datatype Option<+T> = None | Some(value: T)

  /** One octet of a file, a message or a digest. */
  newtype byte = x: int | 0 <= x < 256

  /** Identifier of one recording attempt (a lower-case UUID string). */
  type Id = string

  const TWO_64 := 0x1_0000_0000_0000_0000

  /** A 64-bit generation counter bumped by one: it wraps. */
  function Following(generation: nat): (next: nat)
    ensures generation + 1 < TWO_64 ==> next == generation + 1
  {
    (generation + 1) % TWO_64
  }
}
