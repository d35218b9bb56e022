/**
 * The display helpers of the business card (`BusinessCard`): the rating's
 * colour tier, the row of five stars and the review-count label. A rating is
 * an integer number of tenths.
 */
module Card {

  datatype Tier = Green | Yellow | Orange

  /** The tiers in increasing order. */
  function Rank(t: Tier): nat {
    match t
    case Orange => 0
    case Yellow => 1
    case Green => 2
  }

  /** The CSS classes `getRatingColor` returns for a tier. */
  function TierClass(t: Tier): string {
    match t
    case Green => "text-green-600 dark:text-green-400"
    case Yellow => "text-yellow-600 dark:text-yellow-400"
    case Orange => "text-orange-600 dark:text-orange-400"
  }

  /** The tier of `getRatingColor`: at least 4.5 is green, at least 4.0 yellow, anything lower orange. */
  function RatingTier(tenths: int): (t: Tier)
    ensures Rank(t) == (if tenths >= 40 then 1 else 0) + (if tenths >= 45 then 1 else 0)
  {
    if tenths >= 45 then Green
    else if tenths >= 40 then Yellow
    else Orange
  }

  /** `getRatingColor(rating)`. */
  function RatingColor(tenths: int): (c: string)
    ensures c == TierClass(RatingTier(tenths))
    ensures tenths >= 45 <==> c == "text-green-600 dark:text-green-400"
    ensures 40 <= tenths < 45 <==> c == "text-yellow-600 dark:text-yellow-400"
    ensures tenths < 40 <==> c == "text-orange-600 dark:text-orange-400"
  {
    TierClass(RatingTier(tenths))
  }

  /** A higher rating never gets a lower tier. */
  lemma RatingTierMonotone(a: int, b: int)
    requires a <= b
    ensures Rank(RatingTier(a)) <= Rank(RatingTier(b))
  {
  }

  /** Every tier occurs for ratings the backend produces. */
  lemma BackendRatingsReachEveryTier()
    ensures RatingTier(35) == Orange && RatingTier(40) == Yellow && RatingTier(45) == Green
  {
  }

  /** `Math.floor(rating)` for a rating in tenths. */
  function FloorRating(tenths: int): (n: int)
    ensures n * 10 <= tenths < n * 10 + 10
  {
    tenths / 10
  }

  /** The five stars of the rating card: star `i` is filled when `i < Math.floor(rating)`. */
  function Stars(tenths: int): (row: seq<bool>)
    ensures |row| == 5
    ensures forall i :: 0 <= i < 5 ==> (row[i] <==> i * 10 + 10 <= tenths)
  {
    var n := FloorRating(tenths);
    var row := seq(5, i requires 0 <= i => i < n);
    assert forall i :: 0 <= i < 5 ==> row[i] == (i < n);
    row
  }

  /** The number of `true` entries of `row`. */
  function CountFilled(row: seq<bool>): nat
    decreases |row|
  {
    if |row| == 0 then 0 else (if row[0] then 1 else 0) + CountFilled(row[1..])
  }

  function Clamp(n: int, lo: int, hi: int): int
    requires lo <= hi
  {
    if n < lo then lo else if n > hi then hi else n
  }

  /** A row whose first `k` entries are filled and the rest empty has `k` filled. */
  lemma {:induction false} CountPrefix(row: seq<bool>, k: nat)
    requires k <= |row|
    requires forall i :: 0 <= i < |row| ==> (row[i] <==> i < k)
    ensures CountFilled(row) == k
    decreases |row|
  {
    if |row| > 0 {
      var tail := row[1..];
      if k > 0 {
        assert forall i :: 0 <= i < |tail| ==> (tail[i] <==> i < k - 1) by {
          forall i | 0 <= i < |tail| ensures tail[i] <==> i < k - 1 {
            assert tail[i] == row[i + 1];
          }
        }
        CountPrefix(tail, k - 1);
      } else {
        assert forall i :: 0 <= i < |tail| ==> (tail[i] <==> i < 0) by {
          forall i | 0 <= i < |tail| ensures tail[i] <==> i < 0 {
            assert tail[i] == row[i + 1];
          }
        }
        CountPrefix(tail, 0);
      }
    }
  }

  /**
   * Five stars are shown, the filled ones first, and their number is the
   * rating's integer part clamped to [0, 5].
   */
  lemma FilledStars(tenths: int)
    ensures CountFilled(Stars(tenths)) == Clamp(FloorRating(tenths), 0, 5)
    ensures forall i, j :: 0 <= i < j < 5 && Stars(tenths)[j] ==> Stars(tenths)[i]
  {
    CountPrefix(Stars(tenths), Clamp(FloorRating(tenths), 0, 5));
  }

  /** A backend rating, 3.5 to 5.0, fills three, four or five stars. */
  lemma BackendRatingStars(tenths: int)
    requires 35 <= tenths <= 50
    ensures 3 <= CountFilled(Stars(tenths)) <= 5
    ensures CountFilled(Stars(tenths)) == 5 <==> tenths == 50
  {
    FilledStars(tenths);
  }

  /**
   * `getReviewsText(count)`; `format` stands for `toLocaleString`, whose
   * digit grouping depends on the locale.
   */
  function ReviewsText(count: int, format: int -> string): (text: string)
    ensures count == 1 <==> text == "1 review"
    ensures count != 1 ==> text == format(count) + " reviews"
  {
    if count == 1 then "1 review"
    else
      var text := format(count) + " reviews";
      assert text[|text| - 1] == 's';
      text
  }
}
