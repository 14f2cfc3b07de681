/**
 * One-bit and multi-bit fields of a 32-bit register value, named by their
 * masks, as read and written by the generated accessors of the register
 * types (`field()` / `with_field(v)`).
 */
module Bits {
  /** A one-bit field: whether the bits of `mask` are set in `x`. */
  function Flag(x: bv32, mask: bv32): bool {
    x & mask != 0
  }

  /** `x` with the bits of `mask` all set (`v`) or all cleared (`!v`). */
  function WithFlag(x: bv32, mask: bv32, v: bool): bv32
  {
    if v then x | mask else x & !mask
  }

  /** Writing a field changes no bit outside its mask. */
  lemma WithFlagFrame(x: bv32, mask: bv32, v: bool)
    ensures WithFlag(x, mask, v) & !mask == x & !mask
  {
  }

  /** Writing one field leaves a field with a disjoint mask as it was. */
  lemma WithFlagDisjoint(x: bv32, mask: bv32, other: bv32, v: bool)
    requires mask & other == 0
    ensures WithFlag(x, mask, v) & other == x & other
  {
  }

  /** Writing one field leaves a one-bit field with a disjoint mask as it was. */
  lemma FlagOfDisjoint(x: bv32, mask: bv32, other: bv32, v: bool)
    requires mask & other == 0
    ensures Flag(WithFlag(x, mask, v), other) == Flag(x, other)
  {
    WithFlagDisjoint(x, mask, other, v);
  }

  /** Two different single-bit masks share no bit. */
  lemma OneBitsDisjoint(a: bv32, b: bv32)
    requires a != 0 && a & (a - 1) == 0
    requires b != 0 && b & (b - 1) == 0
    requires a != b
    ensures a & b == 0
  {
  }

  /** A one-bit field reads back what was written to it. */
  lemma FlagOfWithFlag(x: bv32, mask: bv32, v: bool)
    requires mask != 0
    ensures Flag(WithFlag(x, mask, v), mask) == v
  {
  }

  /** Two values that agree on the bits of `keep` agree on every part of `keep`. */
  lemma MaskAgrees(x: bv32, y: bv32, keep: bv32, mask: bv32)
    requires x & keep == y & keep && mask & keep == mask
    ensures x & mask == y & mask
  {
  }

  /** Two values that agree on the bits of `keep` agree on every one-bit field inside `keep`. */
  lemma FlagAgrees(x: bv32, y: bv32, keep: bv32, mask: bv32)
    requires x & keep == y & keep && mask & keep == mask
    ensures Flag(x, mask) == Flag(y, mask)
  {
    MaskAgrees(x, y, keep, mask);
  }
}
