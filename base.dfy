/** Shared vocabulary: the optional value the Rust code returns as `Option<T>`,
    and the bounds of the Rust integer types that the parsers check against. */
module Base {

  /** Rust's `Option<T>`. */
  datatype Option<+T> = None | Some(value: T)

  /** Rust's `Result<T, E>`. */
  datatype Result<+T, +E> = Ok(value: T) | Err(error: E)

  /** `u64::MAX`; `usize` is taken to be 64 bits wide. */
  const U64Max: nat := 0xFFFF_FFFF_FFFF_FFFF

  /** `i64::MIN` and `i64::MAX`. */
  const I64Min: int := -0x8000_0000_0000_0000
  const I64Max: int := 0x7FFF_FFFF_FFFF_FFFF

  /** A value that fits in a `u64`. */
  predicate IsU64(n: int) {
    0 <= n <= U64Max
  }
}
