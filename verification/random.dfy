/**
 * The backend's uses of `Math.random()`. A draw is modelled as the exact
 * fraction `num / den` in [0, 1); the binary64 rounding of the products and
 * sums built from it is not modelled.
 */
module Random {

  /** One value of `Math.random()`, as the fraction `num / den`. */
  datatype Draw = Draw(num: nat, den: nat) {
    predicate Valid() {
      num < den
    }
  }

  /** `Math.floor(r * n)` for a draw `r`: the integer part of `n` times the draw. */
  function Scale(d: Draw, n: nat): (r: nat)
    requires d.Valid()
    ensures r * d.den <= d.num * n < (r + 1) * d.den
    ensures n > 0 ==> r < n
  {
    var a := d.num * n;
    var r := a / d.den;
    DivFloor(a, d.den);
    assert n > 0 ==> r < n by {
      if n > 0 {
        ScaleBelow(d.num, d.den, n, r);
      }
    }
    r
  }

  /** A floor of `num * n / den` with `num < den` stays below `n`. */
  lemma ScaleBelow(num: nat, den: nat, n: nat, r: nat)
    requires num < den && 0 < n
    requires r * den <= num * n
    ensures r < n
  {
    assert num * n < den * n;
  }

  /** Multiplying both sides of `a <= b` by a non-negative `c`. */
  lemma MulMono(a: int, b: int, c: nat)
    requires a <= b
    ensures a * c <= b * c
  {
  }

  /** Integer division by a positive divisor rounds down. */
  lemma DivFloor(a: nat, b: nat)
    requires b > 0
    ensures (a / b) * b <= a < (a / b + 1) * b
  {
  }

  /**
   * `(r * 1.5 + 3.5).toFixed(1)` in tenths: the nearest tenth of
   * `3.5 + 1.5 * num / den`, a tie going to the larger one.
   */
  function RatingTenths(d: Draw): (t: int)
    requires d.Valid()
    ensures -(d.den as int) <= 2 * (35 * d.den + 15 * d.num) - t * (2 * d.den) < d.den
    ensures 35 <= t <= 50
  {
    var a := 71 * d.den + 30 * d.num;
    var t := a / (2 * d.den);
    DivFloor(a, 2 * d.den);
    RatingRange(d.num, d.den, t);
    t
  }

  /** A nearest tenth of a value in [3.5, 5.0) lies in [3.5, 5.0]. */
  lemma RatingRange(num: nat, den: nat, t: int)
    requires num < den
    requires t * (2 * den) <= 71 * den + 30 * num < (t + 1) * (2 * den)
    ensures -(den as int) <= 2 * (35 * den + 15 * num) - t * (2 * den) < den
    ensures 35 <= t <= 50
  {
    var m := 2 * den;
    assert (t + 1) * m == t * m + m;
    if t >= 51 {
      MulMono(51, t, m);
    }
    if t <= 34 {
      MulMono(t + 1, 35, m);
    }
  }

  /** `Math.floor(r * 500) + 50`: a review count. */
  function ReviewCount(d: Draw): (c: int)
    requires d.Valid()
    ensures c - 50 == Scale(d, 500)
    ensures 50 <= c <= 549
  {
    Scale(d, 500) + 50
  }

  /**
   * Both ends of the rating range occur, so 3.5 and 5.0 are both shown; the
   * witnesses have power-of-two denominators, as every double in [0, 1) does.
   */
  lemma RatingEndsReached()
    ensures RatingTenths(Draw(0, 1)) == 35
    ensures RatingTenths(Draw(1023, 1024)) == 50
  {
  }

  /** The review range is [50, 549]: 549 occurs and 550 does not. */
  lemma ReviewEndsReached()
    ensures ReviewCount(Draw(0, 1)) == 50
    ensures ReviewCount(Draw(1023, 1024)) == 549
  {
  }
}
