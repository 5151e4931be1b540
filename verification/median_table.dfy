/**
 The fixed reference table of median annual incomes (US dollars) for nine
 age-range labels, used by the income-adequacy scorer.
 */
module MedianTable {

  /** The nine age-range labels the table knows, youngest first. */
  const AgeLabels: seq<string> :=
    ["Under 20", "20 - 29", "30 - 39", "40 - 49", "50 - 59",
     "60 - 69", "70 - 79", "80 - 89", "90 and above"]

  /** Median annual income by age-range label. */
  const MedianIncomeByAge: map<string, int> :=
    map[
      "Under 20" := 20000,
      "20 - 29" := 35000,
      "30 - 39" := 55000,
      "40 - 49" := 70000,
      "50 - 59" := 75000,
      "60 - 69" := 65000,
      "70 - 79" := 50000,
      "80 - 89" := 40000,
      "90 and above" := 30000
    ]

  /** A median table holding no negative median. */
  predicate NoNegativeMedian(medians: map<string, int>) {
    forall age :: age in medians ==> medians[age] >= 0
  }

  /**
   The table is closed over exactly the nine labels, holds no duplicate
   label, and every median lies between 20000 and 75000, in particular is
   strictly positive.
   */
  lemma MedianTableWellFormed()
    ensures forall age :: age in MedianIncomeByAge <==> age in AgeLabels
    ensures |AgeLabels| == 9
    ensures forall i, j :: 0 <= i < j < |AgeLabels| ==> AgeLabels[i] != AgeLabels[j]
    ensures forall age :: age in MedianIncomeByAge ==> 20000 <= MedianIncomeByAge[age] <= 75000
    ensures NoNegativeMedian(MedianIncomeByAge)
  {
  }
}
