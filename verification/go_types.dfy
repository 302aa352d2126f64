/** The fixed-width Go integer types the models share. */
module GoTypes {

  /** Go's byte (uint8). */
  newtype byte = x: int | 0 <= x < 0x100

  /** Go's int64 (also Go's int on the 64-bit platforms the engine runs on). */
  newtype int64 = x: int | -0x8000_0000_0000_0000 <= x < 0x8000_0000_0000_0000
}
