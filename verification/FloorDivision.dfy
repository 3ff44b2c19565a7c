/** The facts about floor(x / d) that linear accrual rests on. */
module FloorDivision {

  lemma FloorBounds(x: int, d: int)
    requires d > 0
    ensures (x / d) * d <= x < (x / d) * d + d
  {
  }

  lemma ProductMonotone(a: int, x: int, y: int)
    requires a >= 0
    requires x <= y
    ensures a * x <= a * y
  {
  }

  /** Comparing multiples of d up to less than d compares the multipliers. */
  lemma CancelFactor(p: int, q: int, d: int)
    requires d > 0
    requires p * d < q * d + d
    ensures p <= q
  {
    if p >= q + 1 {
      ProductMonotone(d, q + 1, p);
      assert false;
    }
  }

  /** floor(x / d) is the only q with q·d <= x < (q + 1)·d. */
  lemma FloorUnique(x: int, d: int, q: int)
    requires d > 0
    requires q * d <= x < q * d + d
    ensures x / d == q
  {
    FloorBounds(x, d);
    CancelFactor(x / d, q, d);
    CancelFactor(q, x / d, d);
  }

  lemma FloorMonotone(x: int, y: int, d: int)
    requires d > 0
    requires x <= y
    ensures x / d <= y / d
  {
    FloorBounds(x, d);
    FloorBounds(y, d);
    CancelFactor(x / d, y / d, d);
  }

  lemma Distribute(a: int, b: int, d: int)
    ensures (a + b) * d == a * d + b * d
  {
  }

  /** floor((x + y) / d) exceeds floor(x / d) by floor(y / d) or by ceil(y / d). */
  lemma FloorOfSum(x: int, y: int, d: int)
    requires d > 0
    ensures y / d <= (x + y) / d - x / d <= (y + d - 1) / d
  {
    var a, b, c, u := x / d, y / d, (x + y) / d, (y + d - 1) / d;
    FloorBounds(x, d);
    FloorBounds(y, d);
    FloorBounds(x + y, d);
    FloorBounds(y + d - 1, d);
    Distribute(a, b, d);
    CancelFactor(a + b, c, d);
    Distribute(a, u, d);
    CancelFactor(c, a + u, d);
  }

  /** A share of `total` taken at `part` of `whole` is at most `total`, and
      reaches it only when the part is the whole. */
  lemma Share(total: int, part: int, whole: int)
    requires total > 0
    requires 0 <= part <= whole
    requires whole > 0
    ensures 0 <= total * part / whole <= total
    ensures total * part / whole == total <==> part == whole
  {
    ProductMonotone(total, 0, part);
    ProductMonotone(total, part, whole);
    FloorMonotone(0, total * part, whole);
    FloorMonotone(total * part, total * whole, whole);
    FloorUnique(total * whole, whole, total);
    if part < whole {
      ProductMonotone(total, part, whole - 1);
      FloorBounds(total * part, whole);
      CancelFactor(total * part / whole, total - 1, whole);
    }
  }

  /** Dividing first never gives more than multiplying first. */
  lemma DivideFirstIsLower(total: int, part: int, whole: int)
    requires whole > 0
    requires part >= 0
    ensures (total / whole) * part <= total * part / whole
  {
    var q := total / whole;
    FloorBounds(total, whole);
    ProductMonotone(part, q * whole, total);
    assert part * (q * whole) == (q * part) * whole;
    FloorMonotone((q * part) * whole, total * part, whole);
    FloorUnique((q * part) * whole, whole, q * part);
  }
}
