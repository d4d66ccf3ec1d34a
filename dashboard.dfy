/**
 * The scenario dashboard component (src/app/components/dashboard.tsx) as an
 * object whose fields are the component's state. Each handler updates the
 * fields step by step, as the React setters do; what the services answer
 * is passed in.
 */
module Dashboard {
  import opened Wrappers
  import opened Decimal
  import opened Api
  import opened Scenario
  import opened Report

  /** The six number inputs of the form. */
  datatype InputField = Population | Exports | Imports | Investment | Consumption | Government

  class ScenarioDashboard {
    var selectedCountry: string
    /** The six number inputs in form order: population, exports,
        imports, investment, consumption, government spending. */
    var inputs: seq<string>
    var isCalculating: bool
    var prediction: Option<real>
    var historicalData: seq<ChartDataPoint>
    var showPrediction: bool
    var confidenceScore: int
    var contributionData: seq<Contribution>
    var isLoadingHistory: bool
    var historyError: Option<string>
    var predictionMethod: string
    var apiError: Option<string>

    /** The state the handlers keep: six inputs, the score in its clamp
        range, and a shown prediction with its breakdown. (That the
        timeline never holds more than one pair of prediction points is
        proved about the timelines the handlers store, in
        `Scenario.RebuildKeepsTwoPredictions` and
        `Scenario.HistoricalPointsNoPredictions`.) */
    predicate Valid()
      reads this
    {
      && |inputs| == 6
      && 85 <= confidenceScore <= 95
      && (|contributionData| == 0 || |contributionData| == 6)
      && (showPrediction ==> prediction.Some? && |contributionData| == 6)
    }

    /** The form invariant of the number inputs: each holds "" or a
        number. It is kept apart from `Valid` because only the handlers
        that read or write the inputs need it. */
    predicate FormOk()
      reads this
    {
      InputsOk(inputs)
    }

    constructor ()
      ensures Valid() && FormOk()
      ensures selectedCountry == "" && inputs == ["", "", "", "", "", ""]
      ensures !isCalculating && prediction == None && historicalData == [] && !showPrediction
      ensures confidenceScore == 90 && contributionData == [] && !isLoadingHistory
      ensures historyError == None && predictionMethod == "" && apiError == None
    {
      selectedCountry := "";
      inputs := ["", "", "", "", "", ""];
      isCalculating := false;
      prediction := None;
      historicalData := [];
      showPrediction := false;
      confidenceScore := 90;
      contributionData := [];
      isLoadingHistory := false;
      historyError := None;
      predictionMethod := "";
      apiError := None;
    }

    /** Typing into one number input: only that input changes. */
    method EditInput(field: InputField, value: string)
      requires Valid() && FormOk() && InputOk(value)
      modifies this
      ensures Valid() && FormOk()
      ensures inputs == old(inputs)[Index(field) := value]
      ensures (selectedCountry, prediction, predictionMethod, historicalData, showPrediction, confidenceScore)
           == old((selectedCountry, prediction, predictionMethod, historicalData, showPrediction, confidenceScore))
      ensures (contributionData, apiError, historyError, isCalculating, isLoadingHistory)
           == old((contributionData, apiError, historyError, isCalculating, isLoadingHistory))
    {
      InputsOkEach(inputs);
      inputs := inputs[Index(field) := value];
      InputsOkEach(inputs);
    }

    /** `handleCountryChange`: select the country and load its history,
        falling back to generated history (from `variation`) when the load
        fails. */
    method HandleCountryChange(country: string, reply: HistoryReply, variation: seq<real>)
      requires Valid() && |variation| == MockYears
      modifies this
      ensures Valid()
      ensures selectedCountry == country && !isLoadingHistory
      ensures FetchHistoricalData(reply).Success? ==>
                historyError == None && historicalData == TransformHistoricalData(FetchHistoricalData(reply).value)
      ensures FetchHistoricalData(reply).Failure? ==>
                historyError == Some(HandleApiError(FetchHistoricalData(reply).error).message)
                && historicalData == GenerateHistoricalData(country, variation)
      ensures (inputs, prediction, predictionMethod, showPrediction, confidenceScore, contributionData, apiError, isCalculating)
           == old((inputs, prediction, predictionMethod, showPrediction, confidenceScore, contributionData, apiError, isCalculating))
    {
      selectedCountry := country;
      isLoadingHistory := true;
      historyError := None;
      var fetched := FetchHistoricalData(reply);
      if fetched.Success? {
        historicalData := TransformHistoricalData(fetched.value);
      } else {
        historyError := Some(HandleApiError(fetched.error).message);
        historicalData := GenerateHistoricalData(country, variation);
      }
      isLoadingHistory := false;
    }

    /** `handlePredict`. Without a country or with an empty input nothing
        happens. Otherwise the request is posted; on success the
        prediction is stored, history is refetched when the timeline has
        none, the timeline is rebuilt from the historical points it held
        when the handler started, and the breakdown and score are
        computed. A failure on the way leaves its message in `apiError`. */
    method HandlePredict(reply: ServerReply, history: HistoryReply) returns (request: Option<PredictionRequest>)
      requires Valid() && FormOk()
      modifies this
      ensures Valid()
      ensures (selectedCountry, inputs, historyError, isLoadingHistory)
           == old((selectedCountry, inputs, historyError, isLoadingHistory))
      ensures !CanSubmit(old(selectedCountry), old(inputs)) ==>
                request == None
                && (prediction, predictionMethod, historicalData, showPrediction, confidenceScore, contributionData, apiError, isCalculating)
                   == old((prediction, predictionMethod, historicalData, showPrediction, confidenceScore, contributionData, apiError, isCalculating))
      ensures CanSubmit(old(selectedCountry), old(inputs)) ==>
                ParseInputs(old(inputs)).Some? &&
                var values := ParseInputs(old(inputs)).value;
                var outcome := SubmitPrediction(reply);
                && request == Some(RequestFor(old(selectedCountry), values))
                && !isCalculating
                && (outcome.Failure? ==>
                      apiError == Some(HandleApiError(outcome.error).message)
                      && (prediction, predictionMethod, historicalData, showPrediction, confidenceScore, contributionData)
                         == old((prediction, predictionMethod, historicalData, showPrediction, confidenceScore, contributionData)))
                && (outcome.Success? ==>
                      prediction == Some(outcome.value.predictedGdpGrowth)
                      && predictionMethod == outcome.value.modelType)
                && (outcome.Success? && NeedsHistory(old(historicalData)) && FetchHistoricalData(history).Failure? ==>
                      apiError == Some(HandleApiError(FetchHistoricalData(history).error).message)
                      && (historicalData, showPrediction, confidenceScore, contributionData)
                         == old((historicalData, showPrediction, confidenceScore, contributionData)))
                && (outcome.Success? && (!NeedsHistory(old(historicalData)) || FetchHistoricalData(history).Success?) ==>
                      apiError == None && ShowsResults(outcome.value.predictedGdpGrowth, old(historicalData), values))
    {
      var form := inputs;
      if !CanSubmit(selectedCountry, form) {
        return None;
      }
      // The handler reads the timeline of the render it was created in.
      var timeline := historicalData;
      isCalculating := true;
      apiError := None;
      SubmittedInputsParse(selectedCountry, form);
      var values := ParseInputs(form).value;
      request := Some(RequestFor(selectedCountry, values));
      Respond(SubmitPrediction(reply), history, timeline, values);
      isCalculating := false;
    }

    /** What `handlePredict` does with the service's answer: a failure
        leaves its message, a prediction is received. */
    method Respond(outcome: Result<PredictionResponse, Thrown>, history: HistoryReply,
                   timeline: seq<ChartDataPoint>, values: seq<real>)
      requires Valid() && |values| == 6 && timeline == historicalData
      modifies this
      ensures Valid()
      ensures (selectedCountry, inputs, historyError, isLoadingHistory, isCalculating)
           == old((selectedCountry, inputs, historyError, isLoadingHistory, isCalculating))
      ensures outcome.Failure? ==>
                apiError == Some(HandleApiError(outcome.error).message)
                && (prediction, predictionMethod, historicalData, showPrediction, confidenceScore, contributionData)
                   == old((prediction, predictionMethod, historicalData, showPrediction, confidenceScore, contributionData))
      ensures outcome.Success? ==>
                prediction == Some(outcome.value.predictedGdpGrowth)
                && predictionMethod == outcome.value.modelType
      ensures outcome.Success? && NeedsHistory(timeline) && FetchHistoricalData(history).Failure? ==>
                apiError == Some(HandleApiError(FetchHistoricalData(history).error).message)
                && (historicalData, showPrediction, confidenceScore, contributionData)
                   == old((historicalData, showPrediction, confidenceScore, contributionData))
      ensures outcome.Success? && (!NeedsHistory(timeline) || FetchHistoricalData(history).Success?) ==>
                apiError == old(apiError) && ShowsResults(outcome.value.predictedGdpGrowth, timeline, values)
    {
      if outcome.Failure? {
        apiError := Some(HandleApiError(outcome.error).message);
      } else {
        ReceivePrediction(outcome.value, history, timeline, values);
      }
    }

    /** The part of `handlePredict` after the service has answered: store
        the prediction, refetch history if the timeline has none (a failure
        there ends the handler), then show the results. */
    method ReceivePrediction(response: PredictionResponse, history: HistoryReply,
                             timeline: seq<ChartDataPoint>, values: seq<real>)
      requires Valid() && |values| == 6 && timeline == historicalData
      modifies this
      ensures Valid()
      ensures prediction == Some(response.predictedGdpGrowth) && predictionMethod == response.modelType
      ensures NeedsHistory(timeline) && FetchHistoricalData(history).Failure? ==>
                apiError == Some(HandleApiError(FetchHistoricalData(history).error).message)
                && (historicalData, showPrediction, confidenceScore, contributionData)
                   == old((historicalData, showPrediction, confidenceScore, contributionData))
      ensures !NeedsHistory(timeline) || FetchHistoricalData(history).Success? ==>
                apiError == old(apiError) && ShowsResults(response.predictedGdpGrowth, timeline, values)
      ensures (selectedCountry, inputs, historyError, isLoadingHistory, isCalculating)
           == old((selectedCountry, inputs, historyError, isLoadingHistory, isCalculating))
    {
      prediction := Some(response.predictedGdpGrowth);
      predictionMethod := response.modelType;
      if NeedsHistory(timeline) {
        var fetched := FetchHistoricalData(history);
        if fetched.Failure? {
          apiError := Some(HandleApiError(fetched.error).message);
          return;
        }
        historicalData := TransformHistoricalData(fetched.value);
      }
      ShowResults(response.predictedGdpGrowth, timeline, values);
    }

    /** What the dashboard shows after a prediction. */
    predicate ShowsResults(predictedGrowth: real, timeline: seq<ChartDataPoint>, values: seq<real>)
      requires |values| == 6
      reads this
    {
      && historicalData == RebuildTimeline(predictedGrowth, timeline)
      && contributionData == Contributions(values)
      && confidenceScore == Confidence(values[1], values[2], values[3], values[4])
      && showPrediction
    }

    /** The last steps of `handlePredict`: the rebuilt timeline, the
        breakdown and the score. */
    method ShowResults(predictedGrowth: real, timeline: seq<ChartDataPoint>, values: seq<real>)
      requires |values| == 6 && prediction.Some? && |inputs| == 6
      modifies this
      ensures Valid()
      ensures ShowsResults(predictedGrowth, timeline, values)
      ensures (selectedCountry, inputs, prediction, predictionMethod, apiError, historyError, isLoadingHistory, isCalculating)
           == old((selectedCountry, inputs, prediction, predictionMethod, apiError, historyError, isLoadingHistory, isCalculating))
    {
      historicalData := RebuildTimeline(predictedGrowth, timeline);
      contributionData := Contributions(values);
      confidenceScore := Confidence(values[1], values[2], values[3], values[4]);
      showPrediction := true;
    }

    /** `handleReset`: the six inputs are emptied and the prediction is
        hidden and cleared; the country, timeline, breakdown and score
        stay. Afterwards neither a submit nor an export goes through. */
    method HandleReset()
      requires Valid()
      modifies this
      ensures Valid() && FormOk()
      ensures inputs == ["", "", "", "", "", ""] && !showPrediction && prediction == None
      ensures (selectedCountry, historicalData, contributionData, confidenceScore, predictionMethod)
           == old((selectedCountry, historicalData, contributionData, confidenceScore, predictionMethod))
      ensures (apiError, historyError, isCalculating, isLoadingHistory)
           == old((apiError, historyError, isCalculating, isLoadingHistory))
      ensures !CanSubmit(selectedCountry, inputs) && !ExportAllowed()
    {
      inputs := ["", "", "", "", "", ""];
      showPrediction := false;
      prediction := None;
      assert inputs[0] == "";
    }

    /** The export guard `!prediction || !selectedCountry`, as written: a
        prediction of exactly 0 counts as no prediction. */
    predicate ExportAllowed()
      reads this
    {
      prediction.Some? && prediction.value != 0.0 && selectedCountry != ""
    }

    /** `handleExport`: refused unless the guard passes; otherwise the
        report is laid out on pages of `pageHeight`, every page gets its
        footer, and the file is named from the country and the date part
        of `isoTimestamp`. The dashboard state is not changed. */
    method HandleExport(pageHeight: int, isoTimestamp: string) returns (report: Option<ExportedReport>)
      ensures report.Some? <==> ExportAllowed()
      ensures report.Some? ==>
                IsExport(report.value, |contributionData|, RecentCount(historicalData),
                         |historicalData| > 0, pageHeight, selectedCountry, isoTimestamp)
    {
      if !ExportAllowed() {
        return None;
      }
      var pdf := ExportPdf(|contributionData|, RecentCount(historicalData), |historicalData| > 0,
                           pageHeight, selectedCountry, isoTimestamp);
      report := Some(pdf);
    }
  }

  /** The position of an input in form order. */
  function Index(field: InputField): (k: nat)
    ensures k < 6
  {
    match field
    case Population => 0
    case Exports => 1
    case Imports => 2
    case Investment => 3
    case Consumption => 4
    case Government => 5
  }
}
