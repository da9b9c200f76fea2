/**
 * CompareSizesByArea.compare: orders sizes by area. The products are taken
 * in JVM `Long` arithmetic (64-bit, wrapping), which is modelled explicitly
 * here, and the sign of the difference is returned.
 */
module CompareSizesByArea {
  import opened Sizes

  const LONG_MIN: int := -0x8000_0000_0000_0000
  const LONG_MAX: int := 0x7fff_ffff_ffff_ffff
  const LONG_MODULUS: int := 0x1_0000_0000_0000_0000

  /** Reduces an exact value into the `Long` range, as JVM arithmetic wraps around. */
  function ToLong(x: int): (r: int)
    ensures LONG_MIN <= r <= LONG_MAX
    ensures (x - r) % LONG_MODULUS == 0
    ensures LONG_MIN <= x <= LONG_MAX ==> r == x
  {
    if LONG_MIN <= x <= LONG_MAX then x
    else
      var m := x % LONG_MODULUS;
      if m <= LONG_MAX then m else m - LONG_MODULUS
  }

  /** Reduces an exact value into the `Int` range (32-bit wrap-around). */
  function ToInt(x: int): (r: Int32)
    ensures (x - r) % 0x1_0000_0000 == 0
  {
    var m := x % 0x1_0000_0000;
    if m < 0x8000_0000 then m else m - 0x1_0000_0000
  }

  /** `Long.signum`. */
  function Signum(x: int): (r: int)
    ensures r == -1 || r == 0 || r == 1
    ensures r < 0 <==> x < 0
    ensures r == 0 <==> x == 0
  {
    if x < 0 then -1 else if x == 0 then 0 else 1
  }

  /**
   * `compare(lhs, rhs)`: `lhs.width.toLong() * lhs.height - rhs.width.toLong() * rhs.height`,
   * then its sign. Because the widths are widened to `Long` before each
   * product, no step overflows and the result is the sign of the exact area
   * difference for every pair of sizes.
   */
  function Compare(lhs: Size, rhs: Size): (r: int)
    ensures r == -1 || r == 0 || r == 1
    ensures r == Signum(Area(lhs) - Area(rhs))
  {
    ProductFitsInLong(lhs.width, lhs.height);
    ProductFitsInLong(rhs.width, rhs.height);
    Signum(ToLong(ToLong(lhs.width * lhs.height) - ToLong(rhs.width * rhs.height)))
  }

  /** The same comparison with the products left in 32-bit `Int`, as it would be without the cast. */
  function CompareWithoutCast(lhs: Size, rhs: Size): (r: int)
    ensures r == -1 || r == 0 || r == 1
  {
    Signum(ToInt(ToInt(lhs.width * lhs.height) - ToInt(rhs.width * rhs.height)))
  }

  lemma MulMonotone(a: int, b: int, c: int, d: int)
    requires 0 <= a <= c && 0 <= b <= d
    ensures a * b <= c * d
  {
  }

  /** The product of two `Int`s lies well inside the `Long` range. */
  lemma ProductFitsInLong(x: int, y: int)
    requires -0x8000_0000 <= x < 0x8000_0000 && -0x8000_0000 <= y < 0x8000_0000
    ensures -0x3fff_ffff_8000_0000 <= x * y <= 0x4000_0000_0000_0000
  {
    if x >= 0 && y >= 0 {
      MulMonotone(x, y, 0x7fff_ffff, 0x7fff_ffff);
    } else if x < 0 && y < 0 {
      MulMonotone(-x, -y, 0x8000_0000, 0x8000_0000);
      assert x * y == (-x) * (-y);
    } else if x < 0 {
      MulMonotone(-x, y, 0x8000_0000, 0x7fff_ffff);
      assert x * y == -((-x) * y);
    } else {
      MulMonotone(x, -y, 0x7fff_ffff, 0x8000_0000);
      assert x * y == -(x * (-y));
    }
  }

  /** The comparator orders by area: negative, zero or positive exactly as area(lhs) is below, equal to or above area(rhs). */
  lemma CompareMatchesArea(lhs: Size, rhs: Size)
    ensures Compare(lhs, rhs) < 0 <==> Area(lhs) < Area(rhs)
    ensures Compare(lhs, rhs) == 0 <==> Area(lhs) == Area(rhs)
    ensures Compare(lhs, rhs) > 0 <==> Area(lhs) > Area(rhs)
  {
  }

  lemma CompareReflexive(s: Size)
    ensures Compare(s, s) == 0
  {
  }

  /** sgn(compare(a, b)) == -sgn(compare(b, a)), the first law of `Comparator`. */
  lemma CompareAntisymmetric(a: Size, b: Size)
    ensures Compare(a, b) == -Compare(b, a)
  {
  }

  /** Transitivity of the non-strict order, so the comparator is a total preorder. */
  lemma CompareTransitive(a: Size, b: Size, c: Size)
    requires Compare(a, b) <= 0 && Compare(b, c) <= 0
    ensures Compare(a, c) <= 0
  {
  }

  /** compare(x, y) > 0 and compare(y, z) > 0 imply compare(x, z) > 0, the second law of `Comparator`. */
  lemma CompareStrictlyTransitive(a: Size, b: Size, c: Size)
    requires Compare(a, b) > 0 && Compare(b, c) > 0
    ensures Compare(a, c) > 0
  {
  }

  /** compare(x, y) == 0 implies sgn(compare(x, z)) == sgn(compare(y, z)), the third law of `Comparator`. */
  lemma CompareSubstitutable(a: Size, b: Size, c: Size)
    requires Compare(a, b) == 0
    ensures Compare(a, c) == Compare(b, c)
  {
  }

  /** Any two sizes are comparable one way or the other. */
  lemma CompareTotal(a: Size, b: Size)
    ensures Compare(a, b) <= 0 || Compare(b, a) <= 0
  {
  }

  /** Without the widening the 32-bit product of a 46341 x 46341 size wraps negative and it sorts below 1 x 1. */
  lemma CastIsNeeded()
    ensures CompareWithoutCast(Size(46341, 46341), Size(1, 1)) == -1
    ensures Compare(Size(46341, 46341), Size(1, 1)) == 1
  {
  }
}
