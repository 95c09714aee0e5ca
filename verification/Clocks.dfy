/**
 The order of two uncertain clock readings (src/modules/mod_clocks.c), over the
 bounds of their intervals and without rounding.
 */
module Clocks {
  /** The instants that a reading may stand for. */
  datatype Interval = Interval(min: real, max: real)

  predicate Wide(t: Interval) { t.min < t.max }

  function Width(t: Interval): real { t.max - t.min }

  // ----- the program -----

  function ProbIsBefore(t1: Interval, t2: Interval): real
    requires Wide(t1) && Wide(t2)
  {
    if t2.max < t1.min then 0.0
    else if t1.max < t2.min then 1.0
    else if t2.min < t1.min && t1.min <= t2.max && t2.max < t1.max then Case3(t1.min, t1.max, t2.min, t2.max)
    else if t1.min <= t2.min && t2.min < t2.max && t2.max <= t1.max then Case4(t1.min, t1.max, t2.min, t2.max)
    else if t1.min < t2.min && t2.min <= t1.max && t1.max < t2.max then Case5(t1.min, t1.max, t2.min, t2.max)
    else if t2.min <= t1.min && t1.min < t1.max && t1.max <= t2.max then Case6(t1.min, t1.max, t2.min, t2.max)
    else -1.0
  }

  /** t2 starts and ends earlier. */
  function Case3(a: real, b: real, c: real, d: real): real
    requires a < b && c < d
  {
    Product(b - a, d - c);
    (0.5 * d * d + 0.5 * a * a - d * a) / ((b - a) * (d - c))
  }

  /** t2 lies in t1. */
  function Case4(a: real, b: real, c: real, d: real): real
    requires a < b && c < d
  {
    Product(b - a, d - c);
    (c - a) / (b - a) + (0.5 * d * d + 0.5 * c * c - d * c) / ((b - a) * (d - c))
  }

  /** t2 starts and ends later. */
  function Case5(a: real, b: real, c: real, d: real): real
    requires a < b && c < d
  {
    Product(b - a, d - c);
    (c - a) / (b - a) + (d * b - d * c + 0.5 * c * c - 0.5 * b * b) / ((b - a) * (d - c))
  }

  /** t1 lies in t2. */
  function Case6(a: real, b: real, c: real, d: real): real
    requires a < b && c < d
  {
    Product(b - a, d - c);
    (d * b - d * a + 0.5 * a * a - 0.5 * b * b) / ((b - a) * (d - c))
  }

  function ProbIsBeforeFast(t1: Interval, t2: Interval): real
    requires Wide(t1) && Wide(t2)
  {
    if t2.max < t1.min then 0.0
    else if t1.max < t2.min then 1.0
    else (t2.max - t1.min) / (t1.max - t1.min + t2.max - t2.min)
  }

  lemma Product(x: real, y: real)
    requires x > 0.0 && y > 0.0
    ensures x * y > 0.0
  {
  }

  // ----- the probability -----

  /** Half the square of the positive part of z: the area of {x < y} in a corner. */
  function Corner(z: real): real { if z > 0.0 then 0.5 * z * z else 0.0 }

  /** The area of {x < y} for x in t1 and y in t2, by inclusion and exclusion. */
  function AreaBefore(t1: Interval, t2: Interval): real { Area(t1.min, t1.max, t2.min, t2.max) }

  function Area(a: real, b: real, c: real, d: real): real {
    Corner(d - a) - Corner(d - b) - Corner(c - a) + Corner(c - b)
  }

  /** A share of the rectangle, as an area; a name for the product keeps the case
      analysis below free of arithmetic. */
  function ShareOf(p: real, a: real, b: real, c: real, d: real): real { p * ((b - a) * (d - c)) }

  lemma Divide(n: real, d: real)
    requires d != 0.0
    ensures n / d * d == n
  {
  }

  lemma Quotient(n: real, w: real, v: real)
    requires w > 0.0 && v > 0.0
    ensures w * v > 0.0 && n / (w * v) * (w * v) == n
  {
    Product(w, v);
    Divide(n, w * v);
  }

  lemma SumOver(x: real, n: real, w: real, v: real)
    requires w > 0.0 && v > 0.0 && w * v > 0.0
    ensures (x / w + n / (w * v)) * (w * v) == x * v + n
  {
    Divide(x, w);
    Divide(n, w * v);
    assert x / w * (w * v) == x / w * w * v;
  }

  lemma CornerRight(z: real)
    requires z >= 0.0
    ensures Corner(z) == 0.5 * z * z
  {
  }

  lemma CornerLeft(z: real)
    requires z <= 0.0
    ensures Corner(z) == 0.0
  {
  }

  /** The six cases are exhaustive, and each computes the share of the area. */
  lemma ExactArea(t1: Interval, t2: Interval)
    requires Wide(t1) && Wide(t2)
    ensures ProbIsBefore(t1, t2) * (Width(t1) * Width(t2)) == AreaBefore(t1, t2)
  {
    hide ProbIsBefore, Area;
    ExactShare(t1, t2);
  }

  lemma ExactShare(t1: Interval, t2: Interval)
    requires Wide(t1) && Wide(t2)
    ensures ShareOf(ProbIsBefore(t1, t2), t1.min, t1.max, t2.min, t2.max) == Area(t1.min, t1.max, t2.min, t2.max)
  {
    hide ShareOf, Area, Case3, Case4, Case5, Case6;
    var a, b, c, d := t1.min, t1.max, t2.min, t2.max;
    if d < a {
      CornersLeft(a, b, c, d);
    } else if b < c {
      CornersRight(a, b, c, d);
    } else if c < a && d < b {
      AreaOverlapLeft(a, b, c, d);
    } else if a <= c && d <= b {
      AreaInside(a, b, c, d);
    } else if a < c && b < d {
      AreaOverlapRight(a, b, c, d);
    } else {
      AreaOutside(a, b, c, d);
    }
  }

  lemma CornersLeft(a: real, b: real, c: real, d: real)
    requires a < b && c < d && d < a
    ensures Area(a, b, c, d) == ShareOf(0.0, a, b, c, d)
  {
  }

  lemma CornersRight(a: real, b: real, c: real, d: real)
    requires a < b && c < d && b < c
    ensures Area(a, b, c, d) == ShareOf(1.0, a, b, c, d)
  {
    hide Corner;
    CornerRight(d - a);
    CornerRight(d - b);
    CornerRight(c - a);
    CornerRight(c - b);
    Apart(a, b, c, d);
  }

  lemma AreaOverlapLeft(a: real, b: real, c: real, d: real)
    requires a < b && c < d && c < a <= d < b
    ensures ShareOf(Case3(a, b, c, d), a, b, c, d) == Area(a, b, c, d)
  {
    hide Corner;
    CornerRight(d - a);
    CornerLeft(d - b);
    CornerLeft(c - a);
    CornerLeft(c - b);
    Quotient(0.5 * d * d + 0.5 * a * a - d * a, b - a, d - c);
  }

  lemma AreaInside(a: real, b: real, c: real, d: real)
    requires a < b && c < d && a <= c && d <= b
    ensures ShareOf(Case4(a, b, c, d), a, b, c, d) == Area(a, b, c, d)
  {
    hide Corner;
    Product(b - a, d - c);
    CornerRight(d - a);
    CornerLeft(d - b);
    CornerRight(c - a);
    CornerLeft(c - b);
    SumOver(c - a, 0.5 * d * d + 0.5 * c * c - d * c, b - a, d - c);
    Inside(a, b, c, d);
  }

  lemma AreaOverlapRight(a: real, b: real, c: real, d: real)
    requires a < b && c < d && a < c <= b < d
    ensures ShareOf(Case5(a, b, c, d), a, b, c, d) == Area(a, b, c, d)
  {
    hide Corner;
    Product(b - a, d - c);
    CornerRight(d - a);
    CornerRight(d - b);
    CornerRight(c - a);
    CornerLeft(c - b);
    SumOver(c - a, d * b - d * c + 0.5 * c * c - 0.5 * b * b, b - a, d - c);
    Overlap(a, b, c, d);
  }

  lemma AreaOutside(a: real, b: real, c: real, d: real)
    requires a < b && c < d && c <= a && b <= d
    ensures ShareOf(Case6(a, b, c, d), a, b, c, d) == Area(a, b, c, d)
  {
    hide Corner;
    CornerRight(d - a);
    CornerRight(d - b);
    CornerLeft(c - a);
    CornerLeft(c - b);
    Quotient(d * b - d * a + 0.5 * a * a - 0.5 * b * b, b - a, d - c);
    Outside(a, b, c, d);
  }

  lemma Apart(a: real, b: real, c: real, d: real)
    ensures 0.5 * (d - a) * (d - a) - 0.5 * (d - b) * (d - b) - 0.5 * (c - a) * (c - a) + 0.5 * (c - b) * (c - b)
            == (b - a) * (d - c)
  {
  }

  lemma Inside(a: real, b: real, c: real, d: real)
    ensures (c - a) * (d - c) + (0.5 * d * d + 0.5 * c * c - d * c) == 0.5 * (d - a) * (d - a) - 0.5 * (c - a) * (c - a)
  {
  }

  lemma Overlap(a: real, b: real, c: real, d: real)
    ensures (c - a) * (d - c) + (d * b - d * c + 0.5 * c * c - 0.5 * b * b)
            == 0.5 * (d - a) * (d - a) - 0.5 * (d - b) * (d - b) - 0.5 * (c - a) * (c - a)
  {
  }

  lemma Outside(a: real, b: real, c: real, d: real)
    ensures d * b - d * a + 0.5 * a * a - 0.5 * b * b == 0.5 * (d - a) * (d - a) - 0.5 * (d - b) * (d - b)
  {
  }

  lemma Half(z: real, y: real)
    requires y == -z
    ensures Corner(z) + Corner(y) == 0.5 * z * z
  {
    hide Corner;
    if z >= 0.0 {
      CornerRight(z);
      CornerLeft(y);
    } else {
      CornerLeft(z);
      CornerRight(-z);
    }
  }

  /** Either order covers the rectangle. */
  lemma AreasAdd(t1: Interval, t2: Interval)
    ensures AreaBefore(t1, t2) + AreaBefore(t2, t1) == Width(t1) * Width(t2)
  {
    var a, b, c, d := t1.min, t1.max, t2.min, t2.max;
    hide Corner;
    Half(d - a, a - d);
    Half(d - b, b - d);
    Half(c - a, a - c);
    Half(c - b, b - c);
    Apart(a, b, c, d);
  }

  /** Corners grow faster the further right they are. */
  lemma CornerConvex(x: real, y: real, h: real)
    requires x <= y && h >= 0.0
    ensures Corner(x + h) - Corner(x) <= Corner(y + h) - Corner(y)
  {
    hide Corner;
    if x >= 0.0 {
      CornerGrowth(x, h);
      CornerGrowth(y, h);
      Monotone(x, y, h);
    } else {
      CornerLeft(x);
      if y >= 0.0 {
        CornerGrowth(y, h);
        Monotone(0.0, y, h);
        CornerMonotone(x + h, h);
        CornerRight(h);
      } else {
        CornerLeft(y);
        CornerMonotone(x + h, y + h);
      }
    }
  }

  lemma CornerGrowth(x: real, h: real)
    requires x >= 0.0 && h >= 0.0
    ensures Corner(x + h) - Corner(x) == x * h + 0.5 * h * h
  {
    hide Corner;
    CornerRight(x);
    CornerRight(x + h);
  }

  lemma CornerMonotone(x: real, y: real)
    requires x <= y
    ensures Corner(x) <= Corner(y)
  {
    if x > 0.0 {
      Square(x, y);
    }
  }

  lemma Monotone(x: real, y: real, h: real)
    requires x <= y && h >= 0.0
    ensures x * h <= y * h
  {
  }

  lemma Square(x: real, y: real)
    requires 0.0 <= x <= y
    ensures 0.5 * x * x <= 0.5 * y * y
  {
    Monotone(x, y, x);
    Monotone(x, y, y);
  }

  lemma AreaPositive(t1: Interval, t2: Interval)
    requires Wide(t1) && Wide(t2)
    ensures AreaBefore(t1, t2) >= 0.0
  {
    hide Corner;
    CornerConvex(t2.min - t1.max, t2.min - t1.min, t2.max - t2.min);
  }

  lemma Cancel(p: real, q: real, k: real)
    requires k > 0.0
    ensures (p * k <= q * k) <==> p <= q
    ensures (p * k == q * k) <==> p == q
  {
    if p < q {
      assert (q - p) * k > 0.0;
    } else if p > q {
      assert (p - q) * k > 0.0;
    }
  }

  /** Two shares p and q of k, of sizes x and y that add up to k. */
  lemma Shares(p: real, q: real, k: real, x: real, y: real)
    requires k > 0.0 && p * k == x && q * k == y && x + y == k && x >= 0.0 && y >= 0.0
    ensures 0.0 <= p <= 1.0 && p + q == 1.0 && (p >= q <==> x >= y)
  {
    SharesOrder(q, p, k, y, x);
    Distribute(p, q, k);
    Cancel(p + q, 1.0, k);
    Cancel(0.0, p, k);
    Cancel(0.0, q, k);
  }

  lemma SharesOrder(p: real, q: real, k: real, x: real, y: real)
    requires k > 0.0 && p * k == x && q * k == y
    ensures p <= q <==> x <= y
  {
    Cancel(p, q, k);
  }

  lemma Distribute(p: real, q: real, k: real)
    ensures (p + q) * k == p * k + q * k
  {
  }

  lemma ExactShares(t1: Interval, t2: Interval)
    requires Wide(t1) && Wide(t2)
    ensures var p, q := ProbIsBefore(t1, t2), ProbIsBefore(t2, t1);
            0.0 <= p <= 1.0 && p + q == 1.0 && (p >= q <==> AreaBefore(t1, t2) >= AreaBefore(t2, t1))
  {
    hide ProbIsBefore, AreaBefore;
    var k := Width(t1) * Width(t2);
    Product(Width(t1), Width(t2));
    ExactArea(t1, t2);
    ExactArea(t2, t1);
    AreasAdd(t1, t2);
    AreaPositive(t1, t2);
    AreaPositive(t2, t1);
    assert Width(t2) * Width(t1) == k;
    Shares(ProbIsBefore(t1, t2), ProbIsBefore(t2, t1), k, AreaBefore(t1, t2), AreaBefore(t2, t1));
  }

  /** The exact form is a probability, never the error value -1, and the two orders of
      any two intervals, touching and equal ones included, add up to one. */
  lemma ExactIsProbability(t1: Interval, t2: Interval)
    requires Wide(t1) && Wide(t2)
    ensures 0.0 <= ProbIsBefore(t1, t2) <= 1.0
    ensures ProbIsBefore(t1, t2) + ProbIsBefore(t2, t1) == 1.0
  {
    hide ProbIsBefore, AreaBefore;
    ExactShares(t1, t2);
  }

  // ----- the decision -----

  /** The midpoint of t2 does not precede that of t1. */
  predicate MidpointsInOrder(t1: Interval, t2: Interval) { t1.min + t1.max <= t2.min + t2.max }

  function Odd(z: real): real { Corner(z) - Corner(-z) }

  /** For m > 0 the sum grows with the distance t of both arguments from m / 2. */
  function Spread(m: real, t: real): real { Odd(m + t) + Odd(m - t) }

  lemma OddRight(z: real)
    requires z >= 0.0
    ensures Odd(z) == 0.5 * z * z && Odd(-z) == -(0.5 * z * z)
  {
  }

  lemma SpreadIs(m: real, t: real)
    requires m >= 0.0 && t >= 0.0
    ensures Spread(m, t) == if t <= m then m * m + t * t else 2.0 * m * t
  {
    hide Odd;
    OddRight(m + t);
    if t <= m {
      OddRight(m - t);
    } else {
      OddRight(t - m);
      assert -(t - m) == m - t;
    }
  }

  lemma SquareLess(x: real, y: real)
    requires 0.0 <= x < y
    ensures x * x < y * y
  {
    Product(y - x, y + x);
    assert y * y - x * x == (y - x) * (y + x);
  }

  lemma SpreadGrows(m: real, r: real, s: real)
    requires m > 0.0 && 0.0 <= r < s
    ensures Spread(m, r) < Spread(m, s)
  {
    hide Spread;
    SpreadIs(m, r);
    SpreadIs(m, s);
    if s <= m {
      SquareLess(r, s);
    } else if r > m {
      Product(m, s - r);
      assert 2.0 * m * s - 2.0 * m * r == 2.0 * (m * (s - r));
    } else {
      Product(m, s - m);
      assert 2.0 * m * s - 2.0 * m * m == 2.0 * (m * (s - m));
      Square(r, m);
    }
  }

  lemma SpreadEven(m: real, t: real)
    ensures Spread(m, -t) == Spread(m, t)
  {
  }

  /** The difference of the two areas, from the midpoints and the widths. */
  lemma Difference(t1: Interval, t2: Interval)
    ensures var m := 0.5 * (t2.min + t2.max - t1.min - t1.max);
            AreaBefore(t1, t2) - AreaBefore(t2, t1)
            == Spread(m, 0.5 * (Width(t1) + Width(t2))) - Spread(m, 0.5 * (Width(t2) - Width(t1)))
  {
    var m := 0.5 * (t2.min + t2.max - t1.min - t1.max);
    var s, r := 0.5 * (Width(t1) + Width(t2)), 0.5 * (Width(t2) - Width(t1));
    assert m + s == t2.max - t1.min && m - s == t2.min - t1.max;
    assert m + r == t2.max - t1.max && m - r == t2.min - t1.min;
  }

  lemma LaterIsLarger(t1: Interval, t2: Interval)
    requires Wide(t1) && Wide(t2) && t1.min + t1.max < t2.min + t2.max
    ensures AreaBefore(t1, t2) > AreaBefore(t2, t1)
  {
    var m := 0.5 * (t2.min + t2.max - t1.min - t1.max);
    var s, r := 0.5 * (Width(t1) + Width(t2)), 0.5 * (Width(t2) - Width(t1));
    Difference(t1, t2);
    if r >= 0.0 {
      SpreadGrows(m, r, s);
    } else {
      SpreadEven(m, r);
      SpreadGrows(m, -r, s);
    }
  }

  lemma SameMidpoint(t1: Interval, t2: Interval)
    requires t1.min + t1.max == t2.min + t2.max
    ensures AreaBefore(t1, t2) == AreaBefore(t2, t1)
  {
    Difference(t1, t2);
  }

  /** The exact form decides by the midpoints. */
  lemma ExactDecides(t1: Interval, t2: Interval)
    requires Wide(t1) && Wide(t2)
    ensures ProbIsBefore(t1, t2) >= 0.5 <==> MidpointsInOrder(t1, t2)
  {
    hide ProbIsBefore, AreaBefore;
    ExactShares(t1, t2);
    if t1.min + t1.max < t2.min + t2.max {
      LaterIsLarger(t1, t2);
    } else if t1.min + t1.max > t2.min + t2.max {
      LaterIsLarger(t2, t1);
    } else {
      SameMidpoint(t1, t2);
    }
  }

  lemma FastShare(x: real, y: real)
    requires x >= 0.0 && y >= 0.0 && x + y > 0.0
    ensures 0.0 <= x / (x + y) <= 1.0 && x / (x + y) + y / (x + y) == 1.0
    ensures x / (x + y) >= 0.5 <==> x >= y
  {
    var p, q, k := x / (x + y), y / (x + y), x + y;
    Divide(x, k);
    Divide(y, k);
    Cancel(0.0, p, k);
    Cancel(p, 1.0, k);
    Cancel(p + q, 1.0, k);
    Cancel(0.5, p, k);
  }

  /** The fast form is a probability too, complementary, and takes the same decision as
      the exact form. */
  lemma FastDecides(t1: Interval, t2: Interval)
    requires Wide(t1) && Wide(t2)
    ensures 0.0 <= ProbIsBeforeFast(t1, t2) <= 1.0
    ensures ProbIsBeforeFast(t1, t2) + ProbIsBeforeFast(t2, t1) == 1.0
    ensures ProbIsBeforeFast(t1, t2) >= 0.5 <==> MidpointsInOrder(t1, t2)
    ensures ProbIsBeforeFast(t1, t2) >= 0.5 <==> ProbIsBefore(t1, t2) >= 0.5
  {
    ExactDecides(t1, t2);
    if t1.min <= t2.max && t2.min <= t1.max {
      var x, y := t2.max - t1.min, t1.max - t2.min;
      FastShare(x, y);
      assert t1.max - t1.min + t2.max - t2.min == x + y;
      assert t2.max - t2.min + t1.max - t1.min == x + y;
    }
  }
}
