/** Fixed-width unsigned integers of the header, and the non-zero integer
    types whose constructor refuses zero. */
module Ints {
  import opened Wrappers

  type u8 = x: int | 0 <= x < 0x100
  type u16 = x: int | 0 <= x < 0x1_0000

  /** `NonZeroU8`: an 8-bit value that is never zero. */
  type NonZeroU8 = x: int | 1 <= x < 0x100 witness 1
  /** `NonZeroU16`: a 16-bit value that is never zero. */
  type NonZeroU16 = x: int | 1 <= x < 0x1_0000 witness 1

  /** `NonZeroU16::new`: `Some` of the value exactly when it is not zero. */
  function NonZeroU16New(v: u16): (r: Option<NonZeroU16>)
    ensures r.Some? <==> v != 0
    ensures r.Some? ==> r.value == v
  {
    if v == 0 then None else Some(v)
  }
}
