/**
 * Scalar helpers the Euler-angle code relies on: the constant pi from <cmath>
 * and kindr::common::floatingPointModulo from kindr/common/common.hpp.
 * Angles are exact reals; pi is an arbitrary positive constant, so nothing
 * proved here depends on its numeric value.
 */
module Common {

  type Positive = r: real | r > 0.0 witness 1.0

  /** M_PI from <cmath>, left abstract: every proof uses only that it is positive. */
  const AbstractPi: Positive

  /** pi as a plain real, so that -PI and PI / 2.0 are ordinary real expressions. */
  const PI: real := AbstractPi

  /** One full turn, 2*pi. */
  function Turn(): (t: real)
    ensures t > 0.0
  {
    2.0 * PI
  }

  /** q is a whole number. */
  predicate IsWhole(q: real)
  {
    q.Floor as real == q
  }

  /** a and b differ by a whole number of turns, so they name the same direction. */
  predicate SameAngle(a: real, b: real)
  {
    IsWhole((a - b) / Turn())
  }

  lemma ScaleBounds(m: real, d: real)
    requires m > 0.0 && 0.0 <= d < 1.0
    ensures 0.0 <= m * d < m
  {
  }

  lemma Residual(x: real, m: real, k: int, d: real)
    requires m > 0.0
    requires d == x / m - k as real
    ensures (x - m * d) / m == k as real
    ensures ((x - m * d) / m).Floor == k
  {
    assert m * (x / m) == x;
    assert x - m * d == m * (k as real);
  }

  /**
   * floatingPointModulo(x, m) for a positive modulus m: x - m * floor(x / m),
   * written as m times the fractional part of x / m. The result lies in [0, m)
   * and differs from x by a whole multiple of m, which is all the wrapping in
   * getUnique relies on.
   */
  function FloatingPointModulo(x: real, m: real): (r: real)
    requires m > 0.0
    ensures 0.0 <= r < m
    ensures IsWhole((x - r) / m)
  {
    var k := (x / m).Floor;
    var d := x / m - k as real;
    ScaleBounds(m, d);
    Residual(x, m, k, d);
    m * d
  }

  /**
   * The wrapping applied to each angle at the start of getUnique:
   * floatingPointModulo(a + pi, 2 pi) - pi, which lands in [-pi, pi) and names
   * the same direction as a.
   */
  function WrapAngle(a: real): (r: real)
    ensures -PI <= r < PI
    ensures SameAngle(a, r)
  {
    var m := FloatingPointModulo(a + PI, Turn());
    assert a - (m - PI) == (a + PI) - m;
    m - PI
  }

  lemma WholeFloor(k: int)
    ensures (k as real).Floor == k
  {
  }

  lemma WholeStrictlyInsideUnitIsZero(q: real)
    requires IsWhole(q) && -1.0 < q < 1.0
    ensures q == 0.0
  {
  }

  lemma QuotientBounds(d: real, t: real)
    requires t > 0.0 && -t < d < t
    ensures -1.0 < d / t < 1.0
  {
    assert d == t * (d / t);
  }

  lemma ZeroQuotient(d: real, t: real)
    requires t > 0.0 && d / t == 0.0
    ensures d == 0.0
  {
    assert d == t * (d / t);
  }

  /** Two angles in the same half-open turn [-pi, pi) that name the same direction are equal. */
  lemma {:induction false} SameAngleInPrincipalRange(a: real, b: real)
    requires -PI <= a < PI && -PI <= b < PI
    requires SameAngle(a, b)
    ensures a == b
  {
    QuotientBounds(a - b, Turn());
    WholeStrictlyInsideUnitIsZero((a - b) / Turn());
    ZeroQuotient(a - b, Turn());
  }

  /** Wrapping an angle that is already in [-pi, pi) leaves it unchanged. */
  lemma {:induction false} WrapAngleFixesPrincipal(a: real)
    requires -PI <= a < PI
    ensures WrapAngle(a) == a
  {
    SameAngleInPrincipalRange(a, WrapAngle(a));
  }

  lemma WholeSum(p: real, q: real)
    requires IsWhole(p) && IsWhole(q)
    ensures IsWhole(p + q)
  {
    WholeFloor(p.Floor + q.Floor);
  }

  lemma WholeNeg(q: real)
    requires IsWhole(q)
    ensures IsWhole(-q)
  {
    WholeFloor(-q.Floor);
  }

  lemma QuotientSum(d: real, e: real, t: real)
    requires t > 0.0
    ensures (d + e) / t == d / t + e / t
  {
  }

  lemma {:induction false} SameAngleSymmetric(a: real, b: real)
    requires SameAngle(a, b)
    ensures SameAngle(b, a)
  {
    assert (b - a) / Turn() == -((a - b) / Turn());
    WholeNeg((a - b) / Turn());
  }

  lemma {:induction false} SameAngleTransitive(a: real, b: real, c: real)
    requires SameAngle(a, b) && SameAngle(b, c)
    ensures SameAngle(a, c)
  {
    QuotientSum(a - b, b - c, Turn());
    assert a - c == (a - b) + (b - c);
    WholeSum((a - b) / Turn(), (b - c) / Turn());
  }

  /** Adding a whole turn does not change the direction an angle names. */
  lemma {:induction false} SameAngleFullTurn(a: real)
    ensures SameAngle(a + Turn(), a)
  {
    assert (a + Turn() - a) / Turn() == 1.0;
    WholeFloor(1);
  }

  /**
   * Moving an angle by pi in either direction gives the same direction:
   * this is why getUnique may pick yaw - pi or yaw + pi by the sign of yaw.
   */
  lemma {:induction false} HalfTurnEitherWay(a: real, w: real)
    requires SameAngle(a, w)
    ensures SameAngle(a + PI, w + PI)
    ensures SameAngle(a + PI, w - PI)
  {
    assert (a + PI) - (w + PI) == a - w;
    SameAngleFullTurn(w - PI);
    assert w - PI + Turn() == w + PI;
    SameAngleSymmetric(w + PI, w - PI);
    SameAngleTransitive(a + PI, w + PI, w - PI);
  }

  /**
   * Reflecting an angle about pi/2 (p -> pi - p) respects SameAngle, and
   * -(p + pi) is the same reflection one turn lower.
   */
  lemma {:induction false} ReflectAngle(a: real, w: real)
    requires SameAngle(a, w)
    ensures SameAngle(PI - a, PI - w)
    ensures SameAngle(PI - a, -(w + PI))
  {
    assert (PI - a) - (PI - w) == -(a - w);
    assert -(a - w) / Turn() == -((a - w) / Turn());
    WholeNeg((a - w) / Turn());
    SameAngleFullTurn(-(w + PI));
    assert -(w + PI) + Turn() == PI - w;
    SameAngleSymmetric(PI - w, -(w + PI));
    SameAngleTransitive(PI - a, PI - w, -(w + PI));
  }

  lemma {:induction false} SameAngleReflexive(a: real)
    ensures SameAngle(a, a)
  {
    assert (a - a) / Turn() == 0.0;
    WholeFloor(0);
  }

  lemma QuotientOpenUnit(d: real, t: real)
    requires 0.0 < d < t
    ensures 0.0 < d / t < 1.0
  {
    QuotientBounds(d, t);
    assert d == t * (d / t);
  }

  /** Angles that differ by strictly between zero and one turn name different directions. */
  lemma {:induction false} DifferentWithinOneTurn(a: real, b: real)
    requires 0.0 < a - b < Turn()
    ensures !SameAngle(a, b)
  {
    QuotientOpenUnit(a - b, Turn());
  }
}
