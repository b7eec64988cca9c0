/**
 * Bit-level vocabulary for 32-bit peripheral registers: single bits, the
 * read-modify-write updates the drivers apply with `|=`, `&= ~` and `^=`,
 * and the 1-bit and 2-bit per-pin fields of the GPIO configuration registers.
 *
 * Bit positions are `bv32` values below 32, as in C, where a shift by 32 or
 * more is undefined.
 */
module Bits {

  /** Bit `i` of the register value `w` is 1. */
  predicate Bit(w: bv32, i: bv32)
    requires i < 32
  {
    w & (1 << i) != 0
  }

  /** `w | (1 << b)`: the effect of `REG |= (1 << b)`. */
  function SetBit(w: bv32, b: bv32): (r: bv32)
    requires b < 32
    ensures Bit(r, b)
  {
    w | (1 << b)
  }

  /** `w & ~(1 << b)`: the effect of `REG &= ~(1 << b)`. */
  function ClearBit(w: bv32, b: bv32): (r: bv32)
    requires b < 32
    ensures !Bit(r, b)
  {
    w & !(1 << b)
  }

  /** `w ^ (1 << b)`: the effect of `REG ^= (1 << b)`. */
  function FlipBit(w: bv32, b: bv32): (r: bv32)
    requires b < 32
    ensures Bit(r, b) == !Bit(w, b)
  {
    w ^ (1 << b)
  }

  lemma SetBitFrame(w: bv32, b: bv32)
    requires b < 32
    ensures forall i :: i < 32 && i != b ==> Bit(SetBit(w, b), i) == Bit(w, i)
  {
  }

  lemma ClearBitFrame(w: bv32, b: bv32)
    requires b < 32
    ensures forall i :: i < 32 && i != b ==> Bit(ClearBit(w, b), i) == Bit(w, i)
  {
  }

  lemma FlipBitFrame(w: bv32, b: bv32)
    requires b < 32
    ensures forall i :: i < 32 && i != b ==> Bit(FlipBit(w, b), i) == Bit(w, i)
  {
  }

  lemma SetBitIdempotent(w: bv32, b: bv32)
    requires b < 32
    ensures SetBit(SetBit(w, b), b) == SetBit(w, b)
  {
  }

  lemma ClearBitIdempotent(w: bv32, b: bv32)
    requires b < 32
    ensures ClearBit(ClearBit(w, b), b) == ClearBit(w, b)
  {
  }

  /** Clearing a bit undoes setting it: every other bit is as it was before. */
  lemma ClearAfterSet(w: bv32, b: bv32)
    requires b < 32
    ensures ClearBit(SetBit(w, b), b) == ClearBit(w, b)
  {
  }

  lemma FlipBitTwice(w: bv32, b: bv32)
    requires b < 32
    ensures FlipBit(FlipBit(w, b), b) == w
  {
  }

  /** The 1-bit field of `w` at bit `lo`, as the value 0 or 1. */
  function Field1(w: bv32, lo: bv32): (r: bv32)
    requires lo < 32
    ensures r == if Bit(w, lo) then 1 else 0
  {
    (w >> lo) & 1
  }

  /** The 2-bit field of `w` at bits `lo` and `lo + 1`, as a value 0 to 3. */
  function Field2(w: bv32, lo: bv32): (r: bv32)
    requires lo <= 30
    ensures r == (if Bit(w, lo + 1) then 2 else 0) + (if Bit(w, lo) then 1 else 0)
  {
    (w >> lo) & 3
  }

  /** Clear the 1-bit field at `lo`, then OR in `v & 1` there. */
  function Insert1(w: bv32, lo: bv32, v: bv32): (r: bv32)
    requires lo < 32
    ensures Field1(r, lo) == v & 1
  {
    (w & !(1 << lo)) | ((v & 1) << lo)
  }

  /** Clear the 2-bit field at `lo`, then OR in `v & 3` there. */
  function Insert2(w: bv32, lo: bv32, v: bv32): (r: bv32)
    requires lo <= 30
    ensures Field2(r, lo) == v & 3
  {
    (w & !(3 << lo)) | ((v & 3) << lo)
  }

  /** Whatever `v` is, only bit `lo` can change. */
  lemma Insert1Frame(w: bv32, lo: bv32, v: bv32)
    requires lo < 32
    ensures forall i :: i < 32 && i != lo ==> Bit(Insert1(w, lo, v), i) == Bit(w, i)
  {
  }

  /** Whatever `v` is, only bits `lo` and `lo + 1` can change. */
  lemma Insert2Frame(w: bv32, lo: bv32, v: bv32)
    requires lo <= 30
    ensures forall i :: i < 32 && i != lo && i != lo + 1 ==> Bit(Insert2(w, lo, v), i) == Bit(w, i)
  {
  }

  /** Only the low bit of `v` matters: a wider value is truncated to the field. */
  lemma Insert1Truncates(w: bv32, lo: bv32, v: bv32)
    requires lo < 32
    ensures Insert1(w, lo, v) == Insert1(w, lo, v & 1)
  {
  }

  /** Only the two low bits of `v` matter: a wider value is truncated to the field. */
  lemma Insert2Truncates(w: bv32, lo: bv32, v: bv32)
    requires lo <= 30
    ensures Insert2(w, lo, v) == Insert2(w, lo, v & 3)
  {
  }

  lemma Insert1Idempotent(w: bv32, lo: bv32, v: bv32)
    requires lo < 32
    ensures Insert1(Insert1(w, lo, v), lo, v) == Insert1(w, lo, v)
  {
  }

  lemma Insert2Idempotent(w: bv32, lo: bv32, v: bv32)
    requires lo <= 30
    ensures Insert2(Insert2(w, lo, v), lo, v) == Insert2(w, lo, v)
  {
  }
}
