/**
 * Shared helpers of the terrain demo (PeaksAndValleys/js/Utils.js): the folding
 * `clamp`, which moves a value by whole periods into a half-open range, and the
 * closed-rectangle test `contains`.
 *
 * Grid rows and columns are whole numbers in every caller, so `clamp` is modelled
 * on `int`.
 */
module Utils {

  /**
   * The value `clamp` computes, written as its two loops are: below the range add
   * the period, above it subtract the period, inside it stop.
   */
  function Wrap(val: int, low: int, high: int): (r: int)
    requires low < high
    ensures low <= r < high
    decreases (if val < low then low - val else 0), (if val >= high then val - high + 1 else 0)
  {
    if val < low then Wrap(val + (high - low), low, high)
    else if val >= high then Wrap(val - (high - low), low, high)
    else val
  }

  /** Euclidean division is unique: a quotient and a remainder in `[0, d)` are the ones. */
  lemma DivModUnique(a: int, d: int, q: int, m: int)
    requires 0 < d && 0 <= m < d
    requires a == q * d + m
    ensures a / d == q && a % d == m
  {
    var t := a / d - q;
    assert t * d == m - a % d by {
      assert a / d * d - q * d == t * d;
    }
    assert t == 0;
  }

  /** Adding one period leaves the remainder alone. */
  lemma ModShift(a: int, d: int)
    requires 0 < d
    ensures (a + d) % d == a % d
  {
    DivModUnique(a + d, d, a / d + 1, a % d);
  }

  /** Folding is the remainder of `val - low` by the period, shifted back by `low`. */
  lemma {:induction false} WrapIsRemainder(val: int, low: int, high: int)
    requires low < high
    ensures Wrap(val, low, high) == low + (val - low) % (high - low)
    decreases (if val < low then low - val else 0), (if val >= high then val - high + 1 else 0)
  {
    var d := high - low;
    if val < low {
      WrapIsRemainder(val + d, low, high);
      ModShift(val - low, d);
    } else if val >= high {
      WrapIsRemainder(val - d, low, high);
      ModShift(val - d - low, d);
    } else {
      DivModUnique(val - low, d, 0, val - low);
    }
  }

  /**
   * Any value of `[low, high)` that differs from `val` by a whole number of periods
   * is the folded value.
   */
  lemma WrapUnique(val: int, low: int, high: int, r: int, k: int)
    requires low < high
    requires low <= r < high
    requires r == val + k * (high - low)
    ensures r == Wrap(val, low, high)
  {
    var d := high - low;
    WrapIsRemainder(val, low, high);
    assert val - low == (-k) * d + (r - low);
    DivModUnique(val - low, d, -k, r - low);
  }

  /** Folding ignores whole periods: shifting the input by `n` periods changes nothing. */
  lemma WrapPeriodic(val: int, low: int, high: int, n: int)
    requires low < high
    ensures Wrap(val + n * (high - low), low, high) == Wrap(val, low, high)
  {
    var d := high - low;
    var r := Wrap(val, low, high);
    WrapIsRemainder(val, low, high);
    var q := (val - low) / d;
    assert r == val - q * d;
    assert r == (val + n * d) + (-q - n) * d;
    WrapUnique(val + n * d, low, high, r, -q - n);
  }

  /** The folded value is congruent to `val` modulo the period. */
  lemma WrapCongruent(val: int, low: int, high: int)
    requires low < high
    ensures (Wrap(val, low, high) - val) % (high - low) == 0
  {
    var d := high - low;
    var q := (val - low) / d;
    WrapIsRemainder(val, low, high);
    assert Wrap(val, low, high) - val == (-q) * d + 0;
    DivModUnique(Wrap(val, low, high) - val, d, -q, 0);
  }

  /** Values already in range are left alone, so folding twice is folding once. */
  lemma WrapIdempotent(val: int, low: int, high: int)
    requires low < high
    ensures low <= val < high ==> Wrap(val, low, high) == val
    ensures Wrap(Wrap(val, low, high), low, high) == Wrap(val, low, high)
  {
  }

  /** With `low == 0` the fold is Euclidean remainder, negative inputs included. */
  lemma WrapIsEuclideanMod(val: int, n: int)
    requires 0 < n
    ensures Wrap(val, 0, n) == val % n
  {
    WrapIsRemainder(val, 0, n);
  }

  /**
   * `Utils.clamp`: two loops that add or subtract the period until `val` lands in
   * `[low, high)`. When `high <= low` one of the loops never stops for any `val`,
   * so `low < high` is exactly what a caller needs for the call to return.
   */
  method Clamp(val: int, low: int, high: int) returns (r: int)
    requires low < high
    ensures low <= r < high
    ensures (r - val) % (high - low) == 0
    ensures low <= val < high ==> r == val
    ensures r == low + (val - low) % (high - low)
    ensures r == Wrap(val, low, high)
  {
    var d := high - low;
    r := val;
    while r < low
      invariant Wrap(r, low, high) == Wrap(val, low, high)
      decreases low - r
    {
      r := r + d;
    }
    while r >= high
      invariant low <= r
      invariant Wrap(r, low, high) == Wrap(val, low, high)
      decreases r - low
    {
      r := r - d;
    }
    WrapCongruent(val, low, high);
    WrapIsRemainder(val, low, high);
  }

  /** A rectangle `[x, y, width, height]` as the callers pass it. */
  datatype Rect = Rect(x: real, y: real, width: real, height: real)

  /** A point `[x, y]`. */
  datatype Point = Point(x: real, y: real)

  /**
   * `Utils.contains`: four early-return comparisons. The edges belong to the
   * rectangle.
   */
  function Contains(rect: Rect, point: Point): (inside: bool)
    ensures inside <==> rect.x <= point.x <= rect.x + rect.width
                        && rect.y <= point.y <= rect.y + rect.height
  {
    if point.x < rect.x then false
    else if point.x > rect.x + rect.width then false
    else if point.y < rect.y then false
    else if point.y > rect.y + rect.height then false
    else true
  }

  /** A rectangle with a negative width or height contains no point. */
  lemma NegativeRectIsEmpty(rect: Rect, point: Point)
    requires rect.width < 0.0 || rect.height < 0.0
    ensures !Contains(rect, point)
  {
  }
}
