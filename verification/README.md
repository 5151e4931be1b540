# Income-adequacy scorer

A Dafny model of the scoring back end of a personal-finance assessment
service. The service receives an assessment record with an age-range label
and a monthly income, checks both are present and numeric, converts the
income to an annual figure and scores it against the median annual income of
the person's age range:

- below half the median the score is 1;
- above one and a half times the median it is 10;
- in between it rises linearly from 1 to 10 and is rounded to two decimals;
- an age label the median table does not know scores a neutral 6.

The income score is also reported as the overall score, and the received
record is echoed back.

Modules:

- `Rounding` (`rounding.dfy`): Python's `round(x, 2)` on exact reals, as round-half-to-even of the value in hundredths.
- `MedianTable` (`median_table.dfy`): the nine age-range labels and their median incomes.
- `IncomeScoring` (`income_score.dfy`): the piecewise scale, the scorer over an arbitrary median table, and the scorer over the fixed table. Lemmas cover bounds, the default, continuity, monotonicity and the clamp regions.
- `Assessment` (`assessment.dfy`): the request handler as a pure function from a request record to a response.

The median table is also a parameter (`IncomeScoreWith`), so that the
zero-median branch of the scorer can be stated. With the fixed table that
branch is unreachable (`KnownAgeScoresRatio`).

The table has nine labels. The comparisons at ratios 0.5 and 1.5 are
strict, and the linear piece meets the flat pieces there
(`ScoreContinuousAtClampPoints`).

## Model

| member | source | states |
|---|---|---|
| MedianTable.MedianTableWellFormed | app.py:9-19 | The table's keys are exactly the nine age-range labels, none repeated. Every median lies in [20000, 75000], so every median is strictly positive. |
| Rounding.RoundHalfEven | app.py:31 | The result is an integer within one half of the input. On an exact tie it is the even neighbour. |
| Rounding.RoundHalfEvenUnique | app.py:31 | Any integer meeting the nearest-with-ties-to-even condition equals RoundHalfEven, so the contract fully determines the rounding. |
| Rounding.RoundHalfEvenOfInt | app.py:31 | Rounding an integer returns it unchanged. |
| Rounding.RoundHalfEvenMonotone | app.py:31 | Rounding to the nearest integer preserves the order of two reals. |
| Rounding.Round2 | app.py:31 | `round(x, 2)` lies within 0.005 of x and has at most two decimals. On an exact tie it is the neighbour with an even last digit. |
| Rounding.Round2OfCents | app.py:31 | A value with at most two decimals is a fixed point of `round(x, 2)`. In particular 1 and 10 are fixed points. |
| Rounding.Round2Idempotent | app.py:31 | Rounding to two decimals twice is the same as rounding once. |
| Rounding.Round2Monotone | app.py:31 | `round(x, 2)` preserves the order of two reals. |
| Rounding.Round2StaysInInterval | app.py:31 | `round(x, 2)` maps an interval whose ends have two decimals into itself. This is why the rounded linear segment stays within [1, 10]. |
| IncomeScoring.ScoreForRatio | app.py:26-31 | The score for an income-to-median ratio lies in [1, 10]. It is exactly 1 below ratio 0.5 and exactly 10 above 1.5. Between the two it is within 0.005 of `1 + (ratio - 0.5) * 9`. |
| IncomeScoring.IncomeScoreWith | app.py:21-31 | For any median table, the score lies in [1, 10]. A missing label or a zero median gives exactly 6, whatever the income. |
| IncomeScoring.IncomeScore | app.py:21-31 | With the fixed table, the score lies in [1, 10] for every label and every income, negative incomes included. Any label outside the nine gives exactly 6. |
| IncomeScoring.ScoreIsRoundedClampedLine | app.py:26-31 | For every ratio, the three-way branch equals an independent definition: the straight line clamped to [1, 10], then rounded to two decimals. |
| IncomeScoring.ScoreContinuousAtClampPoints | app.py:26-31 | The linear segment equals 1 at ratio 0.5 and 10 at ratio 1.5, so the three pieces meet without a jump. |
| IncomeScoring.ScoreForRatioMonotone | app.py:26-31 | A larger ratio never gets a smaller score. |
| IncomeScoring.RatioMonotone | app.py:25 | Dividing by a positive median preserves the order of two incomes. |
| IncomeScoring.IncomeScoreWithMonotone | app.py:22-31 | If a table has no negative median, then for a fixed label the score does not decrease as income grows. |
| IncomeScoring.IncomeScoreMonotone | app.py:21-31 | With the fixed table and any label, a larger annual income never gets a smaller score. |
| IncomeScoring.KnownAgeScoresRatio | app.py:9-25 | For each of the nine labels the neutral default is unreachable. The score is the ratio score of income divided by that label's median. |
| IncomeScoring.BelowHalfMedianScoresMin | app.py:25-27 | For a known label, an income below half the median scores exactly 1. |
| IncomeScoring.AboveHalfAgainMedianScoresMax | app.py:25-29 | For a known label, an income above 1.5 times the median scores exactly 10. |
| IncomeScoring.NonPositiveIncomeScoresMin | app.py:21-27 | For a known label, a zero or negative income scores exactly 1. |
| IncomeScoring.MedianIncomeScoresMidpoint | app.py:9-31 | For a known label, an income equal to the median scores 5.5. |
| IncomeScoring.ExampleThirties | app.py:9-31 | 60500 a year for label "30 - 39" is 1.1 times the median and scores 6.4. |
| Assessment.StatusCode | app.py:39-55 | Status is 200 exactly for an assessed request, 400 exactly for a rejected one, and 500 exactly for the uncaught conversion error. |
| Assessment.ProcessAssessment | app.py:34-55 | A missing or empty age, or an absent income, gives the "Missing required fields" 400, checked before the income's value. Otherwise unparseable text gives the "must be numeric" 400. A non-scalar income gives an uncaught server error. A numeric monthly income is assessed with the score of twelve times that income. The income score equals the overall score and lies in [1, 10], and the received record is echoed unchanged. |
| Assessment.ProcessAssessmentStatus | app.py:39-55 | The handler answers 400 exactly when the age is missing or empty, the income is absent, or the income is unparseable text. It answers 500 exactly when both fields are present and the income cannot be converted at all. It answers 200 exactly when both are present and the income is numeric. |
| Assessment.ProcessAssessmentMonotone | app.py:47-53 | For the same age label, a larger monthly income never gets a lower overall score. |
| Assessment.LowMonthlyIncomeScoresMin | app.py:47-53 | For a known label, a monthly income below one twenty-fourth of the annual median is assessed with overall score 1. |
| Assessment.UnknownAgeScoresNeutral | app.py:21-54 | A valid request with an unknown age label is assessed with income and overall score 6, whatever the income. It echoes the request. |

## Left out

- Flask application set-up, routing, cross-origin headers, the `/` health route and port selection from the environment (app.py:1-6, 33-35, 57-63): transport and process plumbing.
- JSON decoding and Python's `float(...)` string conversion (app.py:35, 42-45). The income field arrives already classified as absent, numeric, unparseable text, or a value the conversion cannot take (a list or an object). The parser itself is not modelled.
- IEEE-754 binary floating point: incomes, ratios and scores are exact reals, with no overflow, infinities or NaN. The numeric strings "inf" and "nan", which `float` accepts, are not represented.
- Rounding.Round2: rounds the exact real value, ties to even. Python rounds the binary float nearest to the value, so on inputs that are not exactly representable it can differ from the real-number result in the last decimal (for example `round(2.675, 2)` gives 2.67).
- Python returns the integers 1, 6 and 10 from the flat branches and a float from the linear branch. The model uses one `real` type, so the JSON form of the number (`1` versus `1.0`) is not modelled.
- Assessment.ProcessAssessment: the age field is modelled as an optional string only. A non-string JSON value for `age` is not modelled. A falsy one (0, false, an empty list) would be rejected. A truthy hashable one would score 6. A list or object would raise an uncaught error.
- Assessment.AssessmentRequest: fields other than `age` and `monthlyIncome` are carried as a string-to-string map, only to be echoed. Nested JSON values are not represented.
- A request body that is not JSON is left to the transport layer.
- A JSON request body that is valid JSON but not an object (`null`, a list, a number or a string) is not modelled. In the source, `data.get` then raises an uncaught error and the request ends in a server error. The model's request is always an object.
