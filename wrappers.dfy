/** Optional values and results with an error, as the Swift and Kotlin sources use `T?` and `throws`. */
module Wrappers {

  datatype Option<+T> = None | Some(value: T)

  datatype Result<+T, +E> = Success(value: T) | Failure(error: E)
}

/** Byte strings, as Swift's `Data` and Kotlin's `ByteArray` hold them. */
module Binary {

  type Byte = b: int | 0 <= b < 256

  type Bytes = seq<Byte>

  // Splitting `q * n + r` by `n` gives back `q` and `r`, for the powers of two that split
  // a byte or a code point into bit fields.

  lemma DivMod4(q: int, r: int)
    requires 0 <= r < 4
    ensures (q * 4 + r) / 4 == q && (q * 4 + r) % 4 == r
  {
  }

  lemma DivMod16(q: int, r: int)
    requires 0 <= r < 16
    ensures (q * 16 + r) / 16 == q && (q * 16 + r) % 16 == r
  {
  }

  lemma DivMod64(q: int, r: int)
    requires 0 <= r < 64
    ensures (q * 64 + r) / 64 == q && (q * 64 + r) % 64 == r
  {
  }

  lemma DivMod4096(q: int, r: int)
    requires 0 <= r < 4096
    ensures (q * 4096 + r) / 4096 == q && (q * 4096 + r) % 4096 == r
  {
  }

  lemma DivMod262144(q: int, r: int)
    requires 0 <= r < 262144
    ensures (q * 262144 + r) / 262144 == q && (q * 262144 + r) % 262144 == r
  {
  }
}
