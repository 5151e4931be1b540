/**
 The assessment request handler: it validates the posted record, turns the
 monthly income into an annual one and reports the income score, which is
 also the overall score, together with the record it received.
 */
module Assessment {
  import opened IncomeScoring
  import MedianTable

  datatype Option<T> = None | Some(value: T)

  /**
   The `monthlyIncome` field as the handler meets it: absent (or null), a
   value the numeric conversion accepts, text the conversion rejects, or a
   value of a kind the conversion cannot take at all (a list or an object).
   */
  datatype IncomeField =
    | Absent
    | Numeric(amount: real)
    | Unparseable
    | NotScalar

  /** The posted record: the two fields the handler reads and the rest, kept only to be echoed back. */
  datatype AssessmentRequest = AssessmentRequest(
    age: Option<string>,
    monthlyIncome: IncomeField,
    otherFields: map<string, string>)

  /** The body of a successful response. */
  datatype AssessmentResult = AssessmentResult(
    incomeScore: real,
    overallScore: real,
    receivedData: AssessmentRequest)

  /**
   What the handler answers: a result, a client error carrying its message,
   or a server error when the numeric conversion fails in a way the handler
   does not catch.
   */
  datatype Response =
    | Assessed(result: AssessmentResult)
    | BadRequest(message: string)
    | ServerError

  const MissingFieldsMessage: string := "Missing required fields: age or monthlyIncome"
  const NotNumericMessage: string := "monthlyIncome must be numeric"

  /** Months in a year, the factor from monthly to annual income. */
  const MonthsPerYear: real := 12.0

  /** The HTTP status code each kind of response is sent with. */
  function StatusCode(r: Response): (code: int)
    ensures code == 200 <==> r.Assessed?
    ensures code == 400 <==> r.BadRequest?
    ensures code == 500 <==> r.ServerError?
  {
    match r
    case Assessed(_) => 200
    case BadRequest(_) => 400
    case ServerError => 500
  }

  /** The age field is present and non-empty (a truthy string). */
  predicate HasAge(req: AssessmentRequest) {
    req.age.Some? && req.age.value != ""
  }

  /** Validates the request, annualises the monthly income and scores it. */
  function ProcessAssessment(req: AssessmentRequest): (r: Response)
    // Missing fields are reported first, whatever the income field holds.
    ensures r == BadRequest(MissingFieldsMessage) <==> !HasAge(req) || req.monthlyIncome.Absent?
    ensures r == BadRequest(NotNumericMessage) <==> HasAge(req) && req.monthlyIncome.Unparseable?
    ensures r.ServerError? <==> HasAge(req) && req.monthlyIncome.NotScalar?
    ensures r.Assessed? <==> HasAge(req) && req.monthlyIncome.Numeric?
    ensures r.Assessed? ==>
              && r.result.incomeScore == IncomeScore(req.age.value, req.monthlyIncome.amount * MonthsPerYear)
              && r.result.overallScore == r.result.incomeScore
              && MinScore <= r.result.incomeScore <= MaxScore
              && r.result.receivedData == req
  {
    if !HasAge(req) || req.monthlyIncome.Absent? then
      BadRequest(MissingFieldsMessage)
    else
      match req.monthlyIncome
      case Unparseable => BadRequest(NotNumericMessage)
      case NotScalar => ServerError
      case Numeric(monthly) =>
        var annual := monthly * MonthsPerYear;
        var score := IncomeScore(req.age.value, annual);
        Assessed(AssessmentResult(score, score, req))
  }

  /**
   The handler answers 400 exactly when a field is missing or the income is
   not numeric text, and 500 exactly when the income cannot be converted at all.
   */
  lemma ProcessAssessmentStatus(req: AssessmentRequest)
    ensures StatusCode(ProcessAssessment(req)) == 400
        <==> !HasAge(req) || req.monthlyIncome.Absent? || req.monthlyIncome.Unparseable?
    ensures StatusCode(ProcessAssessment(req)) == 500
        <==> HasAge(req) && req.monthlyIncome.NotScalar?
    ensures StatusCode(ProcessAssessment(req)) == 200
        <==> HasAge(req) && req.monthlyIncome.Numeric?
  {
  }

  /** Two valid requests for the same age label: the larger monthly income never scores lower. */
  lemma ProcessAssessmentMonotone(req1: AssessmentRequest, req2: AssessmentRequest)
    requires HasAge(req1) && req2.age == req1.age
    requires req1.monthlyIncome.Numeric? && req2.monthlyIncome.Numeric?
    requires req1.monthlyIncome.amount <= req2.monthlyIncome.amount
    ensures ProcessAssessment(req1).result.overallScore <= ProcessAssessment(req2).result.overallScore
  {
    IncomeScoreMonotone(req1.age.value,
                        req1.monthlyIncome.amount * MonthsPerYear,
                        req2.monthlyIncome.amount * MonthsPerYear);
  }

  /**
   For a known age label, a monthly income below one twenty-fourth of the
   annual median (half the median, spread over twelve months) scores 1.
   */
  lemma LowMonthlyIncomeScoresMin(req: AssessmentRequest)
    requires HasAge(req) && req.age.value in MedianTable.MedianIncomeByAge
    requires req.monthlyIncome.Numeric?
    requires req.monthlyIncome.amount * 24.0 < MedianTable.MedianIncomeByAge[req.age.value] as real
    ensures ProcessAssessment(req).Assessed?
    ensures ProcessAssessment(req).result.overallScore == MinScore
  {
    BelowHalfMedianScoresMin(req.age.value, req.monthlyIncome.amount * MonthsPerYear);
  }

  /** A valid request whose age label the table does not know scores the neutral 6, whatever the income. */
  lemma UnknownAgeScoresNeutral(req: AssessmentRequest)
    requires HasAge(req) && req.age.value !in MedianTable.MedianIncomeByAge
    requires req.monthlyIncome.Numeric?
    ensures ProcessAssessment(req) == Assessed(AssessmentResult(NeutralScore, NeutralScore, req))
  {
    MedianTable.MedianTableWellFormed();
  }
}
