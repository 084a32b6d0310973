/** Small shared vocabulary: options, file contents, and an idealised BLAKE3. */
module Wrappers {
  datatype Option<+T> = None | Some(value: T)

  type Byte = x: int | 0 <= x < 256
  type Bytes = seq<Byte>

  const U32_MAX: nat := 0xFFFF_FFFF
  const U64_MAX: nat := 0xFFFF_FFFF_FFFF_FFFF

  // BLAKE3 is idealised as an injective function: a digest is the bytes absorbed.
  datatype Digest = Digest(absorbed: Bytes)

  function Min(a: int, b: int): int {
    if a <= b then a else b
  }
}
