/** The two rolling-average updates of a worker's public reputation: the one
    the booking rate route applies (rounded to two decimals with
    `parseFloat(x.toFixed(2))`) and the one the standalone rating route applies
    (unrounded). Numbers are exact reals: floating point is not modelled. */
module Reputation {
  import opened Models
  import Common

  /** The mean of `n` ratings averaging `r`, with the rating `s` added. */
  function Mean(r: real, n: nat, s: real): (m: real)
    ensures m * (n + 1) as real == r * n as real + s
  {
    (r * n as real + s) / (n + 1) as real
  }

  /** `x` has at most two decimals. */
  predicate OnCentGrid(x: real)
  {
    (x * 100.0).Floor as real == x * 100.0
  }

  /** `toFixed(2)` on a non-negative number: the nearest multiple of 0.01,
      the larger one on a tie. */
  function HalfUpCents(x: real): real
  {
    (x * 100.0 + 0.5).Floor as real / 100.0
  }

  /** The cent rounding of a non-negative number is a multiple of 0.01, as is
      its negation, and lies within half a cent of it (above on a tie). */
  lemma HalfUpCentsBounds(x: real)
    requires x >= 0.0
    ensures OnCentGrid(HalfUpCents(x)) && OnCentGrid(-HalfUpCents(x))
    ensures x - 0.005 < HalfUpCents(x) <= x + 0.005
  {
    var f := (x * 100.0 + 0.5).Floor;
    var y := HalfUpCents(x);
    assert y * 100.0 == f as real;
    assert (y * 100.0).Floor == f;
    assert -y * 100.0 == (-f) as real;
    assert (-y * 100.0).Floor == -f;
  }

  /** `parseFloat(x.toFixed(2))`: `toFixed` rounds the magnitude and keeps
      the sign. The result is the multiple of 0.01 within half a cent of `x`,
      ties going away from zero; that pins it down uniquely. */
  function Round2(x: real): (y: real)
    ensures OnCentGrid(y)
    ensures x >= 0.0 ==> x - 0.005 < y <= x + 0.005
    ensures x < 0.0 ==> x - 0.005 <= y < x + 0.005
  {
    if x < 0.0 then
      HalfUpCentsBounds(-x);
      -HalfUpCents(-x)
    else
      HalfUpCentsBounds(x);
      HalfUpCents(x)
  }

  /** Two decimals are kept as they are; in particular integers are. */
  lemma Round2OnGrid(x: real)
    requires OnCentGrid(x)
    ensures Round2(x) == x
  {
    var k := (x * 100.0).Floor;
    if x < 0.0 {
      assert (-x * 100.0 + 0.5).Floor == -k;
    } else {
      assert (x * 100.0 + 0.5).Floor == k;
    }
  }

  lemma IntegerOnGrid(i: int)
    ensures OnCentGrid(i as real)
  {
    assert (i as real * 100.0) == (i * 100) as real;
  }

  lemma FloorMonotone(a: real, b: real)
    requires a <= b
    ensures a.Floor <= b.Floor
  {
  }

  /** Rounding never reverses the order of two numbers. */
  lemma Round2Monotone(x: real, y: real)
    requires x <= y
    ensures Round2(x) <= Round2(y)
  {
    if x < 0.0 && y < 0.0 {
      FloorMonotone(-y * 100.0 + 0.5, -x * 100.0 + 0.5);
    } else if 0.0 <= x {
      FloorMonotone(x * 100.0 + 0.5, y * 100.0 + 0.5);
    }
  }

  /** Dividing by a positive number keeps the sign. */
  lemma SignOfQuotient(a: real, k: real)
    requires k > 0.0
    ensures a * k >= 0.0 ==> a >= 0.0
    ensures a * k <= 0.0 ==> a <= 0.0
  {
  }

  /** The rolling mean lies between the old mean and the new rating. */
  lemma MeanBetween(r: real, n: nat, s: real)
    ensures r <= s ==> r <= Mean(r, n, s) <= s
    ensures s <= r ==> s <= Mean(r, n, s) <= r
  {
    var m := Mean(r, n, s);
    var k := (n + 1) as real;
    assert (m - r) * k == s - r;
    assert (m - s) * k == (r - s) * n as real;
    SignOfQuotient(m - r, k);
    SignOfQuotient(m - s, k);
    if r <= s {
      assert (r - s) * n as real <= 0.0;
    } else {
      assert (r - s) * n as real >= 0.0;
    }
  }

  /** The invariant both updates keep on a worker's public reputation: the
      rating lies in [0, 5] and is 0 while no rating has been counted. */
  predicate ReputationValid(rating: real, totalRatings: nat)
  {
    0.0 <= rating <= 5.0 && (totalRatings == 0 ==> rating == 0.0)
  }

  /** The update of the booking rate route: the rolling mean rounded to two
      decimals, and one more rating counted. Nothing else changes. */
  function RecordBookingScore(w: Worker, score: int): (w': Worker)
    ensures w'.totalRatings == w.totalRatings + 1
    ensures w'.(rating := w.rating, totalRatings := w.totalRatings) == w
  {
    w.(rating := Round2(Mean(w.rating, w.totalRatings, score as real)),
       totalRatings := w.totalRatings + 1)
  }

  /** The update of the standalone rating route: the exact rolling mean, and
      one more rating counted. Nothing else changes. */
  function RecordDirectScore(w: Worker, score: int): (w': Worker)
    ensures w'.totalRatings == w.totalRatings + 1
    ensures w'.rating * w'.totalRatings as real == w.rating * w.totalRatings as real + score as real
    ensures w'.(rating := w.rating, totalRatings := w.totalRatings) == w
  {
    w.(rating := Mean(w.rating, w.totalRatings, score as real),
       totalRatings := w.totalRatings + 1)
  }

  /** A booking score in 1..5 keeps the reputation valid; the first score is
      stored exactly; the result has two decimals; and when the old rating
      had two decimals (as every rating this update stores has) the new one
      lies between the old rating and the score. */
  lemma BookingScoreKeepsReputation(w: Worker, score: int)
    requires ReputationValid(w.rating, w.totalRatings) && ScoreInRange(score)
    ensures ReputationValid(RecordBookingScore(w, score).rating, RecordBookingScore(w, score).totalRatings)
    ensures w.totalRatings == 0 ==> RecordBookingScore(w, score).rating == score as real
    ensures OnCentGrid(RecordBookingScore(w, score).rating)
    ensures OnCentGrid(w.rating) && w.rating <= score as real ==>
              w.rating <= RecordBookingScore(w, score).rating <= score as real
    ensures OnCentGrid(w.rating) && score as real <= w.rating ==>
              score as real <= RecordBookingScore(w, score).rating <= w.rating
  {
    var r, n, s := w.rating, w.totalRatings, score as real;
    var m := Mean(r, n, s);
    MeanBetween(r, n, s);
    IntegerOnGrid(0);
    IntegerOnGrid(5);
    IntegerOnGrid(score);
    Round2OnGrid(0.0);
    Round2OnGrid(5.0);
    Round2OnGrid(s);
    Round2Monotone(0.0, m);
    Round2Monotone(m, 5.0);
    if n == 0 {
      assert m == s;
    }
    if OnCentGrid(r) {
      Round2OnGrid(r);
      if r <= s {
        Round2Monotone(r, m);
        Round2Monotone(m, s);
      } else {
        Round2Monotone(s, m);
        Round2Monotone(m, r);
      }
    }
  }

  /** The bound between the old rating and the score needs the old rating to
      have two decimals. A rating of 1.001 over 1000 ratings (which the
      standalone route stores, e.g. for one 2 and 999 ones) followed by a
      booking score of 5 gives the mean 1006/1001 = 1.004995..., stored as
      1.00: below the old rating although the score is above it. */
  lemma BookingScoreAfterDirectRating()
    ensures var w := Worker(0, Common.Cleaning, "experience", "bio", "id", false, 1.001, 1000);
            && ReputationValid(w.rating, w.totalRatings) && !OnCentGrid(w.rating)
            && RecordBookingScore(w, 5).rating == 1.0
            && RecordBookingScore(w, 5).rating < w.rating < 5.0
  {
    var w := Worker(0, Common.Cleaning, "experience", "bio", "id", false, 1.001, 1000);
    var m := Mean(1.001, 1000, 5.0);
    assert m == 1006.0 / 1001.0;
    assert 100.0 <= m * 100.0 + 0.5 < 101.0;
    assert (m * 100.0 + 0.5).Floor == 100;
    assert (1.001 * 100.0).Floor == 100;
  }

  /** A score in 1..5 keeps the reputation valid under the exact update; the
      first score is stored exactly and the new rating lies between the old
      rating and the score. */
  lemma DirectScoreKeepsReputation(w: Worker, score: int)
    requires ReputationValid(w.rating, w.totalRatings) && ScoreInRange(score)
    ensures ReputationValid(RecordDirectScore(w, score).rating, RecordDirectScore(w, score).totalRatings)
    ensures w.totalRatings == 0 ==> RecordDirectScore(w, score).rating == score as real
    ensures w.rating <= score as real ==> w.rating <= RecordDirectScore(w, score).rating <= score as real
    ensures score as real <= w.rating ==> score as real <= RecordDirectScore(w, score).rating <= w.rating
  {
    MeanBetween(w.rating, w.totalRatings, score as real);
  }

  // ------------------------------------------------ repeated application

  function Sum(scores: seq<int>): int
  {
    if scores == [] then 0 else scores[0] + Sum(scores[1..])
  }

  predicate AllInRange(scores: seq<int>)
  {
    forall i :: 0 <= i < |scores| ==> ScoreInRange(scores[i])
  }

  /** A worker after the booking rate route has applied `scores` in order. */
  function BookingScores(w: Worker, scores: seq<int>): Worker
    decreases |scores|
  {
    if scores == [] then w else BookingScores(RecordBookingScore(w, scores[0]), scores[1..])
  }

  /** A worker after the standalone rating route has applied `scores` in order. */
  function DirectScores(w: Worker, scores: seq<int>): Worker
    decreases |scores|
  {
    if scores == [] then w else DirectScores(RecordDirectScore(w, scores[0]), scores[1..])
  }

  /** However many booking scores are applied, each is counted once, the
      reputation stays valid and the rating keeps two decimals. */
  lemma {:induction false} BookingScoresStayValid(w: Worker, scores: seq<int>)
    requires ReputationValid(w.rating, w.totalRatings) && AllInRange(scores)
    ensures BookingScores(w, scores).totalRatings == w.totalRatings + |scores|
    ensures ReputationValid(BookingScores(w, scores).rating, BookingScores(w, scores).totalRatings)
    ensures scores != [] ==> OnCentGrid(BookingScores(w, scores).rating)
    decreases |scores|
  {
    if scores != [] {
      BookingScoreKeepsReputation(w, scores[0]);
      var w' := RecordBookingScore(w, scores[0]);
      assert AllInRange(scores[1..]) by {
        forall i | 0 <= i < |scores[1..]| ensures ScoreInRange(scores[1..][i]) {
          assert scores[1..][i] == scores[i + 1];
        }
      }
      BookingScoresStayValid(w', scores[1..]);
      if scores[1..] == [] {
        assert BookingScores(w, scores) == w';
      }
    }
  }

  /** The standalone update never drifts: after any scores, the rating times
      the count is the old total plus the sum of the scores. */
  lemma {:induction false} DirectScoresTotal(w: Worker, scores: seq<int>)
    ensures DirectScores(w, scores).totalRatings == w.totalRatings + |scores|
    ensures DirectScores(w, scores).rating * (w.totalRatings + |scores|) as real
              == w.rating * w.totalRatings as real + Sum(scores) as real
    decreases |scores|
  {
    if scores != [] {
      var w' := RecordDirectScore(w, scores[0]);
      DirectScoresTotal(w', scores[1..]);
    }
  }

  /** Applied to a new worker, the standalone update yields exactly the
      average of all scores received. */
  lemma DirectScoresAverage(w: Worker, scores: seq<int>)
    requires w.totalRatings == 0 && scores != []
    ensures DirectScores(w, scores).rating == Sum(scores) as real / |scores| as real
  {
    DirectScoresTotal(w, scores);
    var x := DirectScores(w, scores).rating;
    assert x * |scores| as real == Sum(scores) as real;
  }
}
