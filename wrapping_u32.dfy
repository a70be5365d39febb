/**
 * `WrappingU32`: an unsigned 32-bit value whose addition wraps around
 * modulo 2^32.
 *
 * The `Add` implementation adds the two fields with Rust's plain `+`, which
 * panics on overflow in a debug build (the profile `cargo test` uses) and
 * wraps only in a release build, while the module's test adds `u32::MAX`
 * and expects the wrapped value. `AddAsWritten` models the debug-build
 * behaviour and `TestOverflowsAsWritten` shows the test input overflowing;
 * `Add` is the wrapping addition the test asks for, used by the rest of
 * the model.
 */
module Wrapping {
  import opened Wrappers

  const MODULUS: int := 0x1_0000_0000
  const U32_MAX: int := 0xFFFF_FFFF

  type U32 = x: int | 0 <= x < 0x1_0000_0000

  datatype WrappingU32 = WrappingU32(value: U32)

  /** `WrappingU32::new`. */
  function New(value: U32): (w: WrappingU32)
    ensures w.value == value
  {
    WrappingU32(value)
  }

  /** `impl Add for WrappingU32`, with the wrap-around the test expects. */
  function Add(a: WrappingU32, b: WrappingU32): (r: WrappingU32)
    ensures a.value + b.value < MODULUS ==> r.value == a.value + b.value
    ensures a.value + b.value >= MODULUS ==> r.value == a.value + b.value - MODULUS
  {
    WrappingU32((a.value + b.value) % MODULUS)
  }

  /** The addition as written, in a debug build: `None` stands for the overflow panic. */
  function AddAsWritten(a: WrappingU32, b: WrappingU32): (r: Option<WrappingU32>)
    ensures r.None? <==> a.value + b.value > U32_MAX
    ensures r.Some? ==> r.value.value == a.value + b.value
  {
    if a.value + b.value <= U32_MAX then Some(WrappingU32(a.value + b.value)) else None
  }

  /** Where the plain `+` does not overflow, it agrees with the wrapping addition. */
  lemma AsWrittenAgreesWithoutOverflow(a: WrappingU32, b: WrappingU32)
    requires a.value + b.value <= U32_MAX
    ensures AddAsWritten(a, b) == Some(Add(a, b))
  {
  }

  /** The test's last addition, `104 + u32::MAX`, overflows: the debug build panics. */
  lemma TestOverflowsAsWritten()
    ensures AddAsWritten(New(42), New(31)) == Some(New(73))
    ensures AddAsWritten(New(73), New(31)) == Some(New(104))
    ensures AddAsWritten(New(104), New(U32_MAX)) == None
  {
  }

  /** `x + y + y + z == WrappingU32::new(103)` with the test's values. */
  lemma TestOps()
    ensures Add(Add(Add(New(42), New(31)), New(31)), New(U32_MAX)) == New(103)
  {
  }

  lemma AddCommutes(a: WrappingU32, b: WrappingU32)
    ensures Add(a, b) == Add(b, a)
  {
  }

  lemma AddZeroIdentity(a: WrappingU32)
    ensures Add(a, New(0)) == a && Add(New(0), a) == a
  {
  }

  lemma AddAssociates(a: WrappingU32, b: WrappingU32, c: WrappingU32)
    ensures Add(Add(a, b), c) == Add(a, Add(b, c))
  {
  }

  /** Adding `u32::MAX` wraps to subtracting one, as the test relies on. */
  lemma AddMaxIsPredecessor(a: WrappingU32)
    requires a.value >= 1
    ensures Add(a, New(U32_MAX)).value == a.value - 1
  {
  }
}
