/** Shared value types: optional values, results, instants and 64-bit integers. */
module Values {

  datatype Option<+T> = None | Some(value: T)

  datatype Result<+T, +E> = Success(value: T) | Failure(error: E)

  // A chain and one of its networks.
  datatype Scope = Scope(chain: string, network: string)

  // Go's `int64`. Sums are computed as mathematical integers and then wrapped.
  const TWO_TO_63: int := 0x8000_0000_0000_0000

  type int64 = x: int | -TWO_TO_63 <= x < TWO_TO_63

  // The value a 64-bit two's complement register holds after an arithmetic step.
  function Wrap64(x: int): (w: int64)
    ensures -TWO_TO_63 <= x < TWO_TO_63 ==> w == x
    ensures (x - w) % (2 * TWO_TO_63) == 0
  {
    (x + TWO_TO_63) % (2 * TWO_TO_63) - TWO_TO_63
  }

  // Go's `int32`.
  const TWO_TO_31: int := 0x8000_0000

  type int32 = x: int | -TWO_TO_31 <= x < TWO_TO_31

  function Wrap32(x: int): (w: int32)
    ensures -TWO_TO_31 <= x < TWO_TO_31 ==> w == x
    ensures (x - w) % (2 * TWO_TO_31) == 0
  {
    (x + TWO_TO_31) % (2 * TWO_TO_31) - TWO_TO_31
  }

  // Go's `uint32`, and bytes.
  const TWO_TO_32: int := 0x1_0000_0000

  type uint32 = x: int | 0 <= x < TWO_TO_32

  type byte = x: int | 0 <= x < 256

  // Instants count from Go's zero `time.Time`, for which `IsZero` holds.
  type Time = int

  const ZERO_TIME: Time := 0
}
