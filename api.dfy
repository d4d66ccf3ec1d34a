/**
 * The service layer of the front end (src/services/api.ts): the records
 * exchanged with the prediction service, the classification of failures
 * into user-facing messages, and the conversion of the service's history
 * rows into chart points. The HTTP requests themselves are not modelled:
 * what the service answered is an input (`ServerReply`).
 */
module Api {
  import opened Wrappers
  import opened Numbers
  import opened Text
  import opened Decimal

  /** One row of the `/api/history` answer. */
  datatype HistoricalDataPoint =
    HistoricalDataPoint(country: string, year: int, gdpGrowth: real, exportsGrowth: real, importsGrowth: real)

  /** The body posted to `/simulate`. */
  datatype PredictionRequest = PredictionRequest(
    country: string, population: real, exports: real, imports: real,
    investment: real, consumption: real, government: real)

  /** The decoded answer of `/simulate`. */
  datatype PredictionResponse =
    PredictionResponse(predictedGdpGrowth: real, modelType: string, interpretation: string, note: string)

  datatype PointKind = Historical | Prediction

  /** A point of the growth chart. */
  datatype ChartDataPoint = ChartDataPoint(year: string, growth: real, kind: PointKind)

  /** A thrown value: an `Error` object (a `TypeError` or another kind) or
      anything else. */
  datatype Thrown = ErrorObject(isTypeError: bool, message: string) | NotAnError

  datatype ErrorCode = NetworkError | TimeoutError | UnknownError

  /** The structured error shown to the user; `code` is absent when the
      error's own message is passed through. */
  datatype ApiError = ApiError(message: string, code: Option<ErrorCode>)

  const NetworkMessage := "Unable to connect to the server. Please check your connection and try again."
  const TimeoutMessage := "Request timed out. Please try again."
  const UnexpectedMessage := "An unexpected error occurred"

  /** A `TypeError` that mentions `fetch`: the browser could not reach the server. */
  predicate IsNetworkFailure(error: Thrown)
  {
    error.ErrorObject? && error.isTypeError && Includes(error.message, "fetch")
  }

  /** Any other error whose message mentions a timeout. */
  predicate IsTimeout(error: Thrown)
  {
    error.ErrorObject? && !IsNetworkFailure(error)
    && (Includes(error.message, "timeout") || Includes(error.message, "timed out"))
  }

  /** `handleApiError`: the network check comes first, then the timeout
      check; other errors keep their message, non-errors get a generic one. */
  function HandleApiError(error: Thrown): (r: ApiError)
    ensures r.code == Some(NetworkError) <==> IsNetworkFailure(error)
    ensures r.code == Some(TimeoutError) <==> IsTimeout(error)
    ensures r.code == Some(UnknownError) <==> error.NotAnError?
    ensures r.code == None <==> error.ErrorObject? && !IsNetworkFailure(error) && !IsTimeout(error)
    ensures r.code == None ==> r.message == error.message
    ensures r.code == Some(NetworkError) ==> r.message == NetworkMessage
    ensures r.code == Some(TimeoutError) ==> r.message == TimeoutMessage
    ensures r.code == Some(UnknownError) ==> r.message == UnexpectedMessage
    ensures r.code.Some? ==> r.message != ""
  {
    if IsNetworkFailure(error) then ApiError(NetworkMessage, Some(NetworkError))
    else if error.ErrorObject? then
      if Includes(error.message, "timeout") || Includes(error.message, "timed out") then
        ApiError(TimeoutMessage, Some(TimeoutError))
      else ApiError(error.message, None)
    else ApiError(UnexpectedMessage, Some(UnknownError))
  }

  /** A `TypeError` such as "Failed to fetch: timeout", which mentions both
      `fetch` and `timeout`, is a network failure: that check runs first. */
  lemma NetworkCheckWins(message: string)
    requires message == "Failed to fetch: timeout"
    ensures HandleApiError(ErrorObject(true, message)).code == Some(NetworkError)
    ensures Includes(message, "timeout")
  {
    IncludesIffOccurs(message, "fetch");
    assert OccursAt(message, "fetch", 10);
    IncludesIffOccurs(message, "timeout");
    assert OccursAt(message, "timeout", 17);
  }

  /** A `TypeError` that does not mention `fetch` is classified by the
      later checks like any other error. */
  lemma TypeErrorWithoutFetch(message: string)
    requires !Includes(message, "fetch")
    ensures HandleApiError(ErrorObject(true, message)) == HandleApiError(ErrorObject(false, message))
  {
  }

  /** What the prediction service answered: a decoded success body, a
      non-ok status with the `message` field of its JSON error body (`None`
      when the body was not JSON or had no such field), or a thrown failure
      before any answer. */
  datatype ServerReply =
    | Ok(body: PredictionResponse)
    | NotOk(statusText: string, errorMessage: Option<string>)
    | NoResponse(thrown: Thrown)

  const SimulationFailedPrefix := "Scenario simulation failed: "

  /** `errorData.message || \`Scenario simulation failed: ${statusText}\``. */
  function FailureMessage(errorMessage: Option<string>, statusText: string): (m: string)
    ensures errorMessage.Some? && errorMessage.value != "" ==> m == errorMessage.value
    ensures !(errorMessage.Some? && errorMessage.value != "") ==>
              StartsWith(m, SimulationFailedPrefix) && m[|SimulationFailedPrefix|..] == statusText
    ensures m != ""
  {
    if errorMessage.Some? && errorMessage.value != "" then errorMessage.value
    else SimulationFailedPrefix + statusText
  }

  /** `submitPrediction` after the request has been answered. */
  function SubmitPrediction(reply: ServerReply): (r: Result<PredictionResponse, Thrown>)
    ensures reply.Ok? <==> r.Success?
    ensures reply.Ok? ==> r.value == reply.body
    ensures reply.NotOk? ==> r.error == ErrorObject(false, FailureMessage(reply.errorMessage, reply.statusText))
    ensures reply.NoResponse? ==> r.error == reply.thrown
  {
    match reply
    case Ok(body) => Success(body)
    case NotOk(statusText, errorMessage) => Failure(ErrorObject(false, FailureMessage(errorMessage, statusText)))
    case NoResponse(thrown) => Failure(thrown)
  }

  /** A service-reported failure reaches the user as the service's own
      message, unless that message speaks of a timeout. */
  lemma ServiceMessageReachesUser(statusText: string, message: string)
    requires message != ""
    requires !Includes(message, "timeout") && !Includes(message, "timed out")
    ensures HandleApiError(SubmitPrediction(NotOk(statusText, Some(message))).error) == ApiError(message, None)
  {
  }

  /** What the history service answered: the decoded rows, a non-ok
      status, or a thrown failure before any answer. */
  datatype HistoryReply =
    | Rows(rows: seq<HistoricalDataPoint>)
    | HistoryNotOk(statusText: string)
    | HistoryNoResponse(thrown: Thrown)

  const HistoryFailedPrefix := "Failed to fetch historical data: "

  /** `fetchHistoricalData` after the request has been answered. */
  function FetchHistoricalData(reply: HistoryReply): (r: Result<seq<HistoricalDataPoint>, Thrown>)
    ensures reply.Rows? <==> r.Success?
    ensures reply.Rows? ==> r.value == reply.rows
    ensures reply.HistoryNotOk? ==> r.error == ErrorObject(false, HistoryFailedPrefix + reply.statusText)
    ensures reply.HistoryNoResponse? ==> r.error == reply.thrown
  {
    match reply
    case Rows(rows) => Success(rows)
    case HistoryNotOk(statusText) => Failure(ErrorObject(false, HistoryFailedPrefix + statusText))
    case HistoryNoResponse(thrown) => Failure(thrown)
  }

  /** `transformHistoricalData`: each row becomes a historical chart point
      with the year as text and the growth rounded to two decimals. */
  function TransformHistoricalData(data: seq<HistoricalDataPoint>): (r: seq<ChartDataPoint>)
    ensures |r| == |data|
    ensures forall i :: 0 <= i < |data| ==>
              r[i] == ChartDataPoint(IntToString(data[i].year), Round2(data[i].gdpGrowth), Historical)
  {
    if data == [] then []
    else [ChartDataPoint(IntToString(data[0].year), Round2(data[0].gdpGrowth), Historical)]
         + TransformHistoricalData(data[1..])
  }

  /** The chart's year labels read back as the calendar years they came
      from, and every growth value is within half a hundredth of the
      service's value and has at most two decimals. */
  lemma TransformedPointsFaithful(data: seq<HistoricalDataPoint>, i: int)
    requires 0 <= i < |data|
    ensures var p := TransformHistoricalData(data)[i];
            && ParseFloat(p.year) == Some(data[i].year as real)
            && IsHundredths(p.growth)
            && Abs(p.growth - data[i].gdpGrowth) <= 0.005
  {
    var p := TransformHistoricalData(data)[i];
    var year, growth := data[i].year, data[i].gdpGrowth;
    assert p.year == IntToString(year) && p.growth == Round2(growth);
    ParseIntToString(year);
    Round2IsHundredths(growth);
    Round2Error(growth);
  }

  /** Transforming keeps the order: a concatenation transforms piecewise. */
  lemma {:induction false} TransformAppend(a: seq<HistoricalDataPoint>, b: seq<HistoricalDataPoint>)
    ensures TransformHistoricalData(a + b) == TransformHistoricalData(a) + TransformHistoricalData(b)
  {
    if a != [] {
      assert (a + b)[1..] == a[1..] + b;
      TransformAppend(a[1..], b);
    }
  }

  /** `addPredictionToTimeline`: the existing points, unchanged and unsorted,
      followed by "2022" at the predicted growth and "2023" at 5% more,
      both rounded to two decimals. */
  function AddPredictionToTimeline(predictedGrowth: real, existing: seq<ChartDataPoint>): (r: seq<ChartDataPoint>)
    ensures |r| == |existing| + 2
    ensures r[..|existing|] == existing
    ensures r[|existing|] == ChartDataPoint("2022", Round2(predictedGrowth), Prediction)
    ensures r[|existing| + 1] == ChartDataPoint("2023", Round2(predictedGrowth * 1.05), Prediction)
  {
    existing + [ChartDataPoint("2022", Round2(predictedGrowth), Prediction),
                ChartDataPoint("2023", Round2(predictedGrowth * 1.05), Prediction)]
  }

  /** The two appended points are the predicted value and 5% more, each
      within half a hundredth. */
  lemma PredictionPointsNearForecast(predictedGrowth: real, existing: seq<ChartDataPoint>)
    ensures var r := AddPredictionToTimeline(predictedGrowth, existing);
            && Abs(r[|existing|].growth - predictedGrowth) <= 0.005
            && Abs(r[|existing| + 1].growth - predictedGrowth * 1.05) <= 0.005
  {
    Round2Error(predictedGrowth);
    Round2Error(predictedGrowth * 1.05);
  }

  /** A predicted 3.456% appears as 3.46 for 2022 and 3.63 for 2023
      (3.456 * 1.05 = 3.6288). */
  lemma PredictionExample()
    ensures AddPredictionToTimeline(3.456, []) ==
              [ChartDataPoint("2022", 3.46, Prediction), ChartDataPoint("2023", 3.63, Prediction)]
  {
    assert RoundHalfAway(345.6) == 346;
    assert RoundHalfAway(362.88) == 363;
  }
}
