/**
 * Go's integer quotient written out on unbounded integers: Dafny's own `/`
 * is Euclidean, Go's truncates toward zero.
 */
module GoArith {

  function Abs(x: int): nat {
    if x < 0 then -x else x
  }

  /**
   * Go's `a / b` on `int`: the quotient truncated toward zero. The remainder
   * `a - q * b` is smaller than `b` in magnitude and, when not zero, has the
   * sign of `a` (the Go specification's definition of `/` and `%`).
   */
  function Quo(a: int, b: int): (q: int)
    requires b != 0
    ensures Abs(a - q * b) < Abs(b)
    ensures a - q * b == 0 || (a - q * b > 0 <==> a > 0)
  {
    if a >= 0 && b > 0 then
      QuoCase(a, b, a, b);
      a / b
    else if a < 0 && b < 0 then
      QuoCase(a, b, -a, -b);
      (-a) / (-b)
    else if a >= 0 then
      QuoCase(a, b, a, -b);
      -(a / (-b))
    else
      QuoCase(a, b, -a, b);
      -((-a) / b)
  }

  /** The division facts for one sign case, with `x = |a|` and `y = |b|`. */
  lemma QuoCase(a: int, b: int, x: nat, y: nat)
    requires b != 0 && x == Abs(a) && y == Abs(b)
    ensures var q := if (a < 0) == (b < 0) then x / y else -(x / y);
      a - q * b == (if a < 0 then -(x % y) else x % y)
  {
    var f: int, rem: int := x / y, x % y;
    assert x == f * y + rem;
    if a >= 0 && b > 0 {
      assert a - f * b == rem;
    } else if a < 0 && b < 0 {
      assert a - f * b == -rem;
    } else if a >= 0 {
      assert (-f) * b == f * y;
      assert a - (-f) * b == rem;
    } else {
      assert (-f) * b == -(f * y);
      assert a - (-f) * b == -rem;
    }
  }

  /** Multiplying by a non-negative factor keeps the order. */
  lemma MulMonotone(x: int, y: int, s: int)
    requires x <= y && s >= 0
    ensures x * s <= y * s
  {
    assert y * s - x * s == (y - x) * s;
  }

  /** Cancelling a common positive factor from a strict inequality between products. */
  lemma LessByPositiveFactor(x: int, y: int, s: int)
    requires s > 0 && x * s < y * s
    ensures x < y
  {
    if y <= x {
      MulMonotone(y, x, s);
      assert false;
    }
  }

  /** Cancelling a common negative factor, which flips the inequality. */
  lemma LessByNegativeFactor(x: int, y: int, s: int)
    requires s < 0 && x * s > y * s
    ensures x < y
  {
    LessByPositiveFactor(x, y, -s);
  }
}
