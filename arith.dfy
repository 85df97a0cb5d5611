/**
 * Facts about real division and multiplication by a positive factor, each
 * stated on its own so that the solver proves it without any surrounding
 * definitions in view.
 */
module Arith {

  lemma DivideThenScale(a: real, s: real)
    requires s > 0.0
    ensures a / s * s == a
  {
  }

  lemma ScaleThenDivide(a: real, s: real)
    requires s > 0.0
    ensures a * s / s == a
  {
  }

  lemma DivideMonotone(a: real, b: real, s: real)
    requires s > 0.0 && a <= b
    ensures a / s <= b / s
  {
  }

  lemma ScaleMonotone(a: real, b: real, s: real)
    requires s > 0.0 && a <= b
    ensures a * s <= b * s
  {
  }

  lemma ScaleStrictlyMonotone(a: real, b: real, s: real)
    requires s > 0.0 && a < b
    ensures a * s < b * s
  {
  }

  lemma DivideBelowOne(d: real, s: real)
    requires s > 0.0 && d < 1.0
    ensures d / s < 1.0 / s
  {
  }

  lemma DivideDifference(a: real, b: real, s: real)
    requires s > 0.0
    ensures (a - b) / s == a / s - b / s
  {
  }

  /** A non-negative part of a positive whole is between 0 and 100 percent of it. */
  lemma PercentOfWhole(a: real, w: real)
    requires w > 0.0 && 0.0 <= a <= w
    ensures 0.0 <= 100.0 * a / w <= 100.0
  {
    DivideMonotone(a, w, w);
    DivideMonotone(0.0, a, w);
  }

  /** A quotient of non-negative by positive is non-negative. */
  lemma QuotientNonNegative(a: real, w: real)
    requires w > 0.0 && a >= 0.0
    ensures a / w >= 0.0
  {
  }

  /** A relative change above c is a level above (1 + c) times the base. */
  lemma RelativeChangeAbove(last: real, base: real, c: real)
    requires base > 0.0
    ensures (last - base) / base > c <==> last > base * (1.0 + c)
  {
    DivideThenScale(last - base, base);
    if (last - base) / base > c {
      ScaleStrictlyMonotone(c, (last - base) / base, base);
    } else {
      ScaleMonotone((last - base) / base, c, base);
    }
  }

  /** Over a negative base, a relative change above c is a level below (1 + c) times the base. */
  lemma RelativeChangeAboveNegativeBase(last: real, base: real, c: real)
    requires base < 0.0
    ensures (last - base) / base > c <==> last < base * (1.0 + c)
  {
    var q := (last - base) / base;
    assert q * base == last - base;
    if q > c {
      assert (q - c) * base < 0.0;
    } else {
      assert (c - q) * base <= 0.0;
    }
  }
}
