/** Value types shared by every layer: Java's nullable references, its
    fixed-width boxed integers, `LocalDateTime` and `BigDecimal`. */
module Values {

  /** A nullable Java reference: `None` is `null`. */
  datatype Option<+T> = None | Some(value: T)

  /** The value of a Java `Long`. */
  type Int64 = x: int | -0x8000_0000_0000_0000 <= x <= 0x7FFF_FFFF_FFFF_FFFF

  /** The value of a Java `Integer`. */
  type Int32 = x: int | -0x8000_0000 <= x <= 0x7FFF_FFFF

  /** A `LocalDateTime`, as its position on the time line (a count of
      nanoseconds from a fixed origin). Only its order and equality are used. */
  type Timestamp = int

  /** A `BigDecimal` (unscaled value and scale). Prices are carried from the
      store to the response and never computed with. */
  datatype Decimal = Decimal(unscaled: int, scale: Int32)
}
