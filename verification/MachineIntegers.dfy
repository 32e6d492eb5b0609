/** The integer widths the source computes in. */
module MachineIntegers {
  const INT64_MAX: int := 0x7FFF_FFFF_FFFF_FFFF
  const UINT64_MAX: int := 0xFFFF_FFFF_FFFF_FFFF

  /** Every operation on these values is checked to stay inside int64. */
  newtype Int64 = x: int | -0x8000_0000_0000_0000 <= x <= 0x7FFF_FFFF_FFFF_FFFF

  newtype UInt64 = x: int | 0 <= x <= 0xFFFF_FFFF_FFFF_FFFF

  // The same ranges as constraints on mathematical integers, for stored fields.
  type Long = x: int | -0x8000_0000_0000_0000 <= x <= 0x7FFF_FFFF_FFFF_FFFF
  type ULong = x: int | 0 <= x <= 0xFFFF_FFFF_FFFF_FFFF
  type UInt = x: int | 0 <= x <= 0xFFFF_FFFF
}
