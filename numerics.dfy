/** The numeric primitives the engine relies on: float division, the natural
    logarithm and truncation to an integer. Arithmetic is exact over `real`;
    `math.log` is a parameter `ln` constrained only by the laws in `IsLog`. */
module Numerics {
  import opened Wrappers

  /** The laws of the natural logarithm the proofs use. Nothing else about
      `ln` is known to the model. */
  ghost predicate IsLog(ln: real -> real) {
    && ln(1.0) == 0.0
    && (forall x: real, y: real :: x > 0.0 && x * y == 1.0 ==> ln(y) == -ln(x))
    && (forall x: real :: x > 0.0 && x != 1.0 ==> 1.0 - 1.0 / x < ln(x) < x - 1.0)
  }

  /** The sign of ln(x) is the sign of x - 1 (derived from the bounds). */
  lemma LnSign(x: real, ln: real -> real)
    requires IsLog(ln)
    requires x > 0.0
    ensures ln(x) > 0.0 <==> x > 1.0
    ensures ln(x) < 0.0 <==> x < 1.0
    ensures ln(x) == 0.0 <==> x == 1.0
  {
    if x > 1.0 {
      assert 1.0 / x < 1.0;
      assert 1.0 - 1.0 / x < ln(x);
    } else if x < 1.0 {
      assert ln(x) < x - 1.0;
    }
  }

  /** The reciprocal law: if x·y = 1 with x > 0, then ln(y) = −ln(x). */
  lemma LnReciprocal(x: real, y: real, ln: real -> real)
    requires IsLog(ln)
    requires x > 0.0 && x * y == 1.0
    ensures y > 0.0 && ln(y) == -ln(x)
  {
    ProductSign(x, y);
  }

  /** Sign of a product of two reals. */
  lemma ProductSign(x: real, y: real)
    ensures x >= 0.0 && y >= 0.0 ==> x * y >= 0.0
    ensures x > 0.0 && y > 0.0 ==> x * y > 0.0
    ensures x > 0.0 && y < 0.0 ==> x * y < 0.0
    ensures x < 0.0 && y > 0.0 ==> x * y < 0.0
    ensures x < 0.0 && y < 0.0 ==> x * y > 0.0
    ensures x == 0.0 || y == 0.0 ==> x * y == 0.0
  {
  }

  /** Python's `x / y` on floats: raises ZeroDivisionError when y is 0. */
  function Div(x: real, y: real): (r: Result<real>)
    ensures r.Ok? <==> y != 0.0
    ensures r.Ok? ==> r.value * y == x
    ensures r.Err? ==> r.fault == ZeroDivision
  {
    if y == 0.0 then Err(ZeroDivision) else Ok(x / y)
  }

  /** Python's `math.log(x)`: raises a math domain error when x <= 0. */
  function Log(x: real, ln: real -> real): (r: Result<real>)
    ensures r.Ok? <==> x > 0.0
    ensures r.Ok? ==> r.value == ln(x)
    ensures r.Err? ==> r.fault == MathDomain
  {
    if x <= 0.0 then Err(MathDomain) else Ok(ln(x))
  }

  /** Python's `int(x)` on a float: truncation toward zero. */
  function Trunc(x: real): (r: int)
    ensures 0.0 <= x ==> 0 <= r && r as real <= x < r as real + 1.0
    ensures x < 0.0 ==> r <= 0 && r as real - 1.0 < x <= r as real
  {
    if x >= 0.0 then x.Floor else -((-x).Floor)
  }

  /** Truncation and Dafny's floor agree on non-negative values and differ by one on
      negative non-integers. */
  lemma TruncVersusFloor(x: real)
    ensures 0.0 <= x ==> Trunc(x) == x.Floor
    ensures x < 0.0 && x != x.Floor as real ==> Trunc(x) == x.Floor + 1
  {
  }
}
