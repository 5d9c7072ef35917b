/**
 * C#'s `int`: a 32-bit two's-complement integer whose `+` is unchecked by
 * default, so a sum that leaves the range wraps around modulo 2^32. Every
 * incrementor in this model adds with `Add` below.
 */
module Int32Math {

  const Modulus: int := 0x1_0000_0000
  const MinValue: int := -0x8000_0000
  const MaxValue: int := 0x7FFF_FFFF

  newtype Int32 = x: int | -0x8000_0000 <= x < 0x8000_0000

  /** `x` is representable as an `int` without wrapping. */
  predicate Fits(x: int) {
    MinValue <= x <= MaxValue
  }

  /** `x` and `y` are equal modulo 2^32. */
  predicate Congruent(x: int, y: int) {
    (x - y) % Modulus == 0
  }

  /** `r` is what C#'s unchecked `a + b` may yield: the sum modulo 2^32. */
  predicate IsUncheckedSum(r: Int32, a: Int32, b: Int32) {
    Congruent(r as int, a as int + b as int)
  }

  /** C#'s unchecked `a + b` on two `int` operands. */
  function Add(a: Int32, b: Int32): (r: Int32)
    ensures IsUncheckedSum(r, a, b)
    ensures Fits(a as int + b as int) ==> r as int == a as int + b as int
    ensures a as int + b as int > MaxValue ==> r < 0 && b > 0
    ensures a as int + b as int < MinValue ==> r >= 0 && b < 0
  {
    var sum := a as int + b as int;
    if sum > MaxValue then (sum - Modulus) as Int32
    else if sum < MinValue then (sum + Modulus) as Int32
    else sum as Int32
  }

  /** Inside the range of `int` each residue modulo 2^32 has one representative. */
  lemma CongruentUnique(r: Int32, r': Int32, x: int)
    requires Congruent(r as int, x) && Congruent(r' as int, x)
    ensures r == r'
  {
  }

  /** So `IsUncheckedSum` pins the result down, and it is the exact sum when that fits. */
  lemma UncheckedSumIsAdd(r: Int32, a: Int32, b: Int32)
    requires IsUncheckedSum(r, a, b)
    ensures r == Add(a, b)
    ensures Fits(a as int + b as int) ==> r as int == a as int + b as int
  {
    CongruentUnique(r, Add(a, b), a as int + b as int);
  }
}
