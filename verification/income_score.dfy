/**
 The income-adequacy score: annual income compared with the median income
 of the person's age range, mapped onto a 1 to 10 scale. Below half the
 median the score is 1, above one and a half times the median it is 10, and
 in between it grows linearly and is rounded to two decimals. An age label
 the median table does not know (or whose median is zero) gets the neutral
 score 6.
 */
module IncomeScoring {
  import opened Rounding
  import opened MedianTable

  /** Score given when no usable median exists for the age label. */
  const NeutralScore: real := 6.0
  /** Lowest score, given below half the median. */
  const MinScore: real := 1.0
  /** Highest score, given above one and a half times the median. */
  const MaxScore: real := 10.0
  /** Income-to-median ratio below which the score is MinScore. */
  const LowRatio: real := 0.5
  /** Income-to-median ratio above which the score is MaxScore. */
  const HighRatio: real := 1.5

  /** The straight line through (LowRatio, MinScore) and (HighRatio, MaxScore), before rounding. */
  function Interpolate(ratio: real): real {
    1.0 + (ratio - 0.5) * 9.0
  }

  /** `v` forced into [MinScore, MaxScore]. */
  function Clamp(v: real): real {
    if v < MinScore then MinScore else if v > MaxScore then MaxScore else v
  }

  /** The score for a given income-to-median ratio (the three-way branch of the scorer). */
  function ScoreForRatio(ratio: real): (s: real)
    ensures MinScore <= s <= MaxScore
    ensures ratio < LowRatio ==> s == MinScore
    ensures ratio > HighRatio ==> s == MaxScore
    ensures LowRatio <= ratio <= HighRatio ==>
              Interpolate(ratio) - 0.005 <= s <= Interpolate(ratio) + 0.005
  {
    if ratio < LowRatio then MinScore
    else if ratio > HighRatio then MaxScore
    else
      Round2StaysInInterval(100, 1000, Interpolate(ratio));
      Round2(Interpolate(ratio))
  }

  /**
   The income score against an arbitrary median table: the neutral score
   when the label is missing or its median is zero, otherwise the score of
   the ratio of the annual income to the median.
   */
  function IncomeScoreWith(medians: map<string, int>, age: string, annualIncome: real): (s: real)
    ensures MinScore <= s <= MaxScore
    ensures (age !in medians || medians[age] == 0) ==> s == NeutralScore
  {
    if age !in medians || medians[age] == 0 then NeutralScore
    else ScoreForRatio(annualIncome / medians[age] as real)
  }

  /** The income score against the fixed table of median incomes by age. */
  function IncomeScore(age: string, annualIncome: real): (s: real)
    ensures MinScore <= s <= MaxScore
    ensures age !in MedianIncomeByAge ==> s == NeutralScore
  {
    IncomeScoreWith(MedianIncomeByAge, age, annualIncome)
  }

  // ---------------------------------------------------------------------------
  // The piecewise scale

  /** The piecewise branch agrees everywhere with rounding the clamped straight line. */
  lemma ScoreIsRoundedClampedLine(ratio: real)
    ensures ScoreForRatio(ratio) == Round2(Clamp(Interpolate(ratio)))
  {
    Round2OfCents(100);
    Round2OfCents(1000);
  }

  /** The linear segment meets the two flat regions exactly at ratios 0.5 and 1.5. */
  lemma ScoreContinuousAtClampPoints()
    ensures Interpolate(LowRatio) == MinScore && Interpolate(HighRatio) == MaxScore
    ensures ScoreForRatio(LowRatio) == MinScore && ScoreForRatio(HighRatio) == MaxScore
  {
    Round2OfCents(100);
    Round2OfCents(1000);
  }

  /** A larger ratio never gets a smaller score. */
  lemma ScoreForRatioMonotone(r1: real, r2: real)
    requires r1 <= r2
    ensures ScoreForRatio(r1) <= ScoreForRatio(r2)
  {
    ScoreIsRoundedClampedLine(r1);
    ScoreIsRoundedClampedLine(r2);
    Round2Monotone(Clamp(Interpolate(r1)), Clamp(Interpolate(r2)));
  }

  /** Dividing by a positive median keeps the order of two incomes. */
  lemma RatioMonotone(x: real, y: real, median: real)
    requires x <= y
    requires median > 0.0
    ensures x / median <= y / median
  {
    assert y / median - x / median == (y - x) / median;
  }

  // ---------------------------------------------------------------------------
  // The score as a function of age label and income

  /** With a table of non-negative medians, a larger income never gets a smaller score. */
  lemma IncomeScoreWithMonotone(medians: map<string, int>, age: string, x: real, y: real)
    requires NoNegativeMedian(medians)
    requires x <= y
    ensures IncomeScoreWith(medians, age, x) <= IncomeScoreWith(medians, age, y)
  {
    if age in medians && medians[age] != 0 {
      RatioMonotone(x, y, medians[age] as real);
      ScoreForRatioMonotone(x / medians[age] as real, y / medians[age] as real);
    }
  }

  /** For every age label, a larger annual income never gets a smaller score. */
  lemma IncomeScoreMonotone(age: string, x: real, y: real)
    requires x <= y
    ensures IncomeScore(age, x) <= IncomeScore(age, y)
  {
    MedianTableWellFormed();
    IncomeScoreWithMonotone(MedianIncomeByAge, age, x, y);
  }

  /** For a known label the neutral default is never taken: the score is that of the income-to-median ratio. */
  lemma KnownAgeScoresRatio(age: string, annualIncome: real)
    requires age in MedianIncomeByAge
    ensures IncomeScore(age, annualIncome)
         == ScoreForRatio(annualIncome / MedianIncomeByAge[age] as real)
  {
    MedianTableWellFormed();
  }

  /** An income below half the median of a known label scores exactly 1. */
  lemma BelowHalfMedianScoresMin(age: string, annualIncome: real)
    requires age in MedianIncomeByAge
    requires annualIncome < MedianIncomeByAge[age] as real / 2.0
    ensures IncomeScore(age, annualIncome) == MinScore
  {
    MedianTableWellFormed();
    var m := MedianIncomeByAge[age] as real;
    assert annualIncome / m < 0.5 by {
      assert annualIncome / m * m == annualIncome;
    }
  }

  /** An income above one and a half times the median of a known label scores exactly 10. */
  lemma AboveHalfAgainMedianScoresMax(age: string, annualIncome: real)
    requires age in MedianIncomeByAge
    requires annualIncome > MedianIncomeByAge[age] as real * 1.5
    ensures IncomeScore(age, annualIncome) == MaxScore
  {
    MedianTableWellFormed();
    var m := MedianIncomeByAge[age] as real;
    assert annualIncome / m > 1.5 by {
      assert annualIncome / m * m == annualIncome;
    }
  }

  /** A zero or negative income scores exactly 1 for every known label. */
  lemma NonPositiveIncomeScoresMin(age: string, annualIncome: real)
    requires age in MedianIncomeByAge
    requires annualIncome <= 0.0
    ensures IncomeScore(age, annualIncome) == MinScore
  {
    MedianTableWellFormed();
    BelowHalfMedianScoresMin(age, annualIncome);
  }

  /** An income equal to the median sits at the middle of the scale, 5.5. */
  lemma MedianIncomeScoresMidpoint(age: string)
    requires age in MedianIncomeByAge
    ensures IncomeScore(age, MedianIncomeByAge[age] as real) == 5.5
  {
    MedianTableWellFormed();
    Round2OfCents(550);
  }

  /** Worked example: 60500 a year in the "30 - 39" range is 1.1 times the median and scores 6.4. */
  lemma ExampleThirties()
    ensures IncomeScore("30 - 39", 60500.0) == 6.4
  {
    assert MedianIncomeByAge["30 - 39"] == 55000;
    assert 60500.0 / 55000.0 == 1.1;
    Round2OfCents(640);
  }
}
