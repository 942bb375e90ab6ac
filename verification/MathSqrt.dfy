/** The integer square root of the motion library. */
module MathSqrt {

  const MAX_INT := 0x7fff_ffff
  const MAX_ROOT := 46340

  /** A square that fits a signed 32-bit integer. */
  function Square(a: int): (s: int)
    requires 0 <= a <= MAX_ROOT
    ensures 0 <= s <= MAX_INT
  {
    SquareMonotone(a, MAX_ROOT);
    a * a
  }

  lemma SquareMonotone(a: int, b: int)
    requires 0 <= a <= b
    ensures a * a <= b * b
    ensures a < b ==> a * a < b * b
  {
    assert b * b - a * a == (b - a) * (b + a);
  }

  function Abs(x: int): (y: int) {
    if x < 0 then -x else x
  }

  /** No root in range has a square nearer to x. */
  ghost predicate Nearest(r: int, x: int) {
    && 0 <= r <= MAX_ROOT
    && forall s :: 0 <= s <= MAX_ROOT ==> Abs(x - Square(r)) <= Abs(x - Square(s))
  }

  /** Between neighbours whose squares enclose x, the nearer one is nearest of all. */
  lemma NeighbourNearest(bottom: int, top: int, x: int)
    requires 0 <= bottom < top <= MAX_ROOT && top - bottom <= 1
    requires Square(bottom) <= x <= Square(top)
    ensures Nearest(if Abs(x - Square(top)) < Abs(x - Square(bottom)) then top else bottom, x)
  {
    forall s | 0 <= s <= MAX_ROOT
      ensures Square(s) <= Square(bottom) || Square(top) <= Square(s)
    {
      if s <= bottom { SquareMonotone(s, bottom); } else { SquareMonotone(top, s); }
    }
  }

  lemma ExactNearest(r: int, x: int)
    requires 0 <= r <= MAX_ROOT && (Square(r) == x || (r == MAX_ROOT && Square(r) <= x))
    ensures Nearest(r, x)
  {
    forall s | 0 <= s <= MAX_ROOT
      ensures Square(s) <= Square(MAX_ROOT)
    {
      SquareMonotone(s, MAX_ROOT);
    }
  }

  /** Finds the root by a galloping search and then bisection; no product overflows. */
  method Sqrt(x: int) returns (r: int)
    requires 0 <= x <= MAX_INT
    ensures Nearest(r, x)
  {
    if x == 0 {
      ExactNearest(0, 0);
      return 0;
    }
    var top, bottom := 1, 0;
    while Square(top) < x
      invariant 0 <= bottom < top <= MAX_ROOT
      invariant Square(bottom) < x
      decreases MAX_ROOT - top
    {
      bottom := top;
      top := top * 2;
      if top > MAX_ROOT {
        top := MAX_ROOT;
        break;
      }
    }
    if x >= Square(top) {
      ExactNearest(top, x);
      return top;
    }
    while top - bottom > 1
      invariant 0 <= bottom < top <= MAX_ROOT
      invariant Square(bottom) < x < Square(top)
      decreases top - bottom
    {
      var mid := (top - bottom) / 2 + bottom;
      var sqr := Square(mid);
      if sqr == x {
        ExactNearest(mid, x);
        return mid;
      } else if sqr < x {
        bottom := mid;
      } else {
        top := mid;
      }
    }
    var topDiff := Abs(x - Square(top));
    var botDiff := Abs(x - Square(bottom));
    NeighbourNearest(bottom, top, x);
    if topDiff < botDiff {
      return top;
    }
    return bottom;
  }
}
