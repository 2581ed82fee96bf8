// Shared vocabulary: optional values, results, and the machine integer ranges.
module Prelude {

  datatype Option<+T> = None | Some(value: T)

  datatype Result<+T, +E> = Ok(value: T) | Err(error: E) {
    predicate IsFailure() {
      Err?
    }

    function PropagateFailure<U>(): Result<U, E>
      requires Err?
    {
      Err(error)
    }

    function Extract(): T
      requires Ok?
    {
      value
    }
  }

  const TWO_8: int := 0x100
  const TWO_32: int := 0x1_0000_0000
  const TWO_63: int := 0x8000_0000_0000_0000
  const TWO_64: int := 0x1_0000_0000_0000_0000
  const TWO_127: int := 0x8000_0000_0000_0000_0000_0000_0000_0000
  const TWO_128: int := 0x1_0000_0000_0000_0000_0000_0000_0000_0000

  type u8 = n: nat | n < TWO_8
  type u32 = n: nat | n < TWO_32
  type u64 = n: nat | n < TWO_64
  type u128 = n: nat | n < TWO_128
  type i64 = n: int | -TWO_63 <= n < TWO_63

  type bytes = seq<u8>
}
