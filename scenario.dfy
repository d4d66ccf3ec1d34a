/**
 * The pure scenario rules of the dashboard (src/app/components/dashboard.tsx):
 * the submit gate, the contribution breakdown, the confidence heuristic,
 * the rebuilt timeline after a prediction, the recent-trend figure and the
 * structure of the fallback history.
 */
module Scenario {
  import opened Wrappers
  import opened Numbers
  import opened Text
  import opened Decimal
  import opened Api

  /** `handlePredict` proceeds only when a country is chosen and all six
      input strings are non-empty. */
  predicate CanSubmit(country: string, inputs: seq<string>)
  {
    country != "" && forall k :: 0 <= k < |inputs| ==> inputs[k] != ""
  }

  /** A number input holds either nothing or text that parses as a number:
      after leading white space it starts with a numeral, so `ParseFloat`
      gives a value (see `InputOkParses`). */
  predicate InputOk(input: string)
  {
    input == "" || ScanNumeral(TrimStart(input)).Some?
  }

  lemma InputOkParses(input: string)
    ensures InputOk(input) <==> input == "" || ParseFloat(input).Some?
  {
  }

  /** Every input of a form holds nothing or a number. */
  predicate InputsOk(inputs: seq<string>)
  {
    inputs == [] || (InputOk(inputs[0]) && InputsOk(inputs[1..]))
  }

  lemma {:induction false} InputsOkEach(inputs: seq<string>)
    ensures InputsOk(inputs) <==> forall k :: 0 <= k < |inputs| ==> InputOk(inputs[k])
  {
    if inputs != [] {
      InputsOkEach(inputs[1..]);
      assert forall k :: 1 <= k < |inputs| ==> inputs[k] == inputs[1..][k - 1];
    }
  }

  /** `parseFloat` of each input in order; `None` when one of them is not
      a number. */
  function ParseInputs(inputs: seq<string>): (r: Option<seq<real>>)
    ensures r.Some? ==> |r.value| == |inputs|
  {
    if inputs == [] then Some([])
    else
      match (ParseFloat(inputs[0]), ParseInputs(inputs[1..]))
      case (Some(v), Some(vs)) => Some([v] + vs)
      case _ => None
  }

  /** The parsed inputs are exactly the numbers each input parses to. */
  lemma {:induction false} ParseInputsFaithful(inputs: seq<string>)
    ensures ParseInputs(inputs).Some? <==> forall k :: 0 <= k < |inputs| ==> ParseFloat(inputs[k]).Some?
    ensures ParseInputs(inputs).Some? ==>
              forall k :: 0 <= k < |inputs| ==> ParseFloat(inputs[k]) == Some(ParseInputs(inputs).value[k])
  {
    if inputs != [] {
      ParseInputsFaithful(inputs[1..]);
      assert forall k :: 1 <= k < |inputs| ==> inputs[k] == inputs[1..][k - 1];
    }
  }

  /** A form that passes the submit check and holds only numbers or
      nothing parses completely. */
  lemma SubmittedInputsParse(country: string, inputs: seq<string>)
    requires CanSubmit(country, inputs) && InputsOk(inputs)
    ensures ParseInputs(inputs).Some?
  {
    InputsOkEach(inputs);
    ParseInputsFaithful(inputs);
    forall k | 0 <= k < |inputs| ensures ParseFloat(inputs[k]).Some? {
      InputOkParses(inputs[k]);
    }
  }

  /** The request posted for a country and six parsed inputs. */
  function RequestFor(country: string, values: seq<real>): PredictionRequest
    requires |values| == 6
  {
    PredictionRequest(country, values[0], values[1], values[2], values[3], values[4], values[5])
  }

  /** The factor names of the breakdown, in display order. */
  const FactorNames: seq<string> :=
    ["Population", "Exports", "Imports", "Investment", "Consumption", "Govt Spending"]

  /** A row of the contribution breakdown: the signed input and its share. */
  datatype Contribution = Contribution(name: string, value: real, percentage: real)

  /** The sum of the absolute values of the inputs. */
  function TotalMagnitude(values: seq<real>): (t: real)
    ensures t >= 0.0
  {
    if values == [] then 0.0 else Abs(values[0]) + TotalMagnitude(values[1..])
  }

  /** One factor's share of `total`, in percent; 0 when `total` is 0. */
  function Share(value: real, total: real): real
  {
    if total > 0.0 then Abs(value) / total * 100.0 else 0.0
  }

  /** The six-row breakdown built after a prediction. */
  function Contributions(values: seq<real>): (r: seq<Contribution>)
    requires |values| == |FactorNames|
    ensures |r| == |FactorNames|
    ensures forall k :: 0 <= k < |r| ==>
              r[k] == Contribution(FactorNames[k], values[k], Share(values[k], TotalMagnitude(values)))
  {
    var total := TotalMagnitude(values);
    seq(|FactorNames|, k requires 0 <= k < |FactorNames| => Contribution(FactorNames[k], values[k], Share(values[k], total)))
  }

  /** The sum of the percentages of a breakdown. */
  function PercentageSum(rows: seq<Contribution>): real
  {
    if rows == [] then 0.0 else rows[0].percentage + PercentageSum(rows[1..])
  }

  /** Shares of the same total add up like the magnitudes they come from. */
  lemma ShareAdd(a: real, b: real, total: real)
    requires a >= 0.0 && b >= 0.0
    ensures Share(a, total) + Share(b, total) == Share(a + b, total)
  {
    if total > 0.0 {
      assert (a + b) / total == a / total + b / total;
    }
  }

  lemma ShareAtMost100(value: real, total: real)
    requires 0.0 < total && Abs(value) <= total
    ensures 0.0 <= Share(value, total) <= 100.0
  {
    assert Abs(value) / total <= total / total;
  }

  /** Rows whose percentages are shares of `total` sum to the share of
      their combined magnitude. */
  lemma {:induction false} PercentageSumIsShare(rows: seq<Contribution>, values: seq<real>, total: real)
    requires |rows| == |values|
    requires forall k :: 0 <= k < |rows| ==> rows[k].percentage == Share(values[k], total)
    ensures PercentageSum(rows) == Share(TotalMagnitude(values), total)
  {
    if rows != [] {
      PercentageSumIsShare(rows[1..], values[1..], total);
      assert Share(values[0], total) == Share(Abs(values[0]), total);
      ShareAdd(Abs(values[0]), TotalMagnitude(values[1..]), total);
    }
  }

  /** When some input is non-zero, the percentages add up to exactly 100. */
  lemma ContributionsSumTo100(values: seq<real>)
    requires |values| == |FactorNames|
    requires TotalMagnitude(values) > 0.0
    ensures PercentageSum(Contributions(values)) == 100.0
  {
    var total := TotalMagnitude(values);
    PercentageSumIsShare(Contributions(values), values, total);
    ShareOfWhole(total);
  }

  lemma ShareOfWhole(total: real)
    requires total > 0.0
    ensures Share(total, total) == 100.0
  {
  }

  /** The total is zero exactly when every input is zero. */
  lemma {:induction false} TotalZeroIffAllZero(values: seq<real>)
    ensures TotalMagnitude(values) == 0.0 <==> forall k :: 0 <= k < |values| ==> values[k] == 0.0
  {
    if values != [] {
      TotalZeroIffAllZero(values[1..]);
      if TotalMagnitude(values) == 0.0 {
        forall k | 0 <= k < |values| ensures values[k] == 0.0 {
          if k > 0 { assert values[k] == values[1..][k - 1]; }
        }
      }
      if forall k :: 0 <= k < |values| ==> values[k] == 0.0 {
        forall k | 0 <= k < |values[1..]| ensures values[1..][k] == 0.0 {
          assert values[1..][k] == values[k + 1];
        }
      }
    }
  }

  /** Every percentage lies between 0 and 100; with all inputs zero, every
      percentage is 0 (the division by zero is avoided). */
  lemma ContributionBounds(values: seq<real>, k: int)
    requires |values| == |FactorNames| && 0 <= k < |values|
    ensures 0.0 <= Contributions(values)[k].percentage <= 100.0
    ensures (forall j :: 0 <= j < |values| ==> values[j] == 0.0) ==> Contributions(values)[k].percentage == 0.0
  {
    var total := TotalMagnitude(values);
    TotalZeroIffAllZero(values);
    if total > 0.0 {
      MagnitudeBelowTotal(values, k);
      ShareAtMost100(values[k], total);
    }
  }

  /** One input's magnitude never exceeds the total. */
  lemma {:induction false} MagnitudeBelowTotal(values: seq<real>, k: int)
    requires 0 <= k < |values|
    ensures Abs(values[k]) <= TotalMagnitude(values)
  {
    if k > 0 {
      MagnitudeBelowTotal(values[1..], k - 1);
    }
  }

  /** `100 - 2|exports - imports| - 1.5|investment - consumption|`. */
  function Consistency(exports: real, imports: real, investment: real, consumption: real): real
  {
    100.0 - Abs(exports - imports) * 2.0 - Abs(investment - consumption) * 1.5
  }

  /** `Math.round(Math.max(85, Math.min(95, consistency)))`. */
  function Confidence(exports: real, imports: real, investment: real, consumption: real): (c: int)
    ensures 85 <= c <= 95
  {
    JsRound(Clamp(Consistency(exports, imports, investment, consumption), 85.0, 95.0))
  }

  /** Balanced trade and balanced investment/consumption give the top score. */
  lemma BalancedScenarioScores95(exports: real, imports: real, investment: real, consumption: real)
    requires exports == imports && investment == consumption
    ensures Confidence(exports, imports, investment, consumption) == 95
  {
  }

  /** Inside the clamp range the score is the consistency rounded to the
      nearest integer; below it, the score is 85. */
  lemma ConfidenceTracksConsistency(exports: real, imports: real, investment: real, consumption: real)
    ensures var x := Consistency(exports, imports, investment, consumption);
            var c := Confidence(exports, imports, investment, consumption);
            && (85.0 <= x <= 95.0 ==> Abs(c as real - x) <= 0.5)
            && (x <= 85.0 ==> c == 85)
  {
  }

  /** `filter(d => d.type === 'historical')`. */
  function HistoricalOnly(timeline: seq<ChartDataPoint>): (r: seq<ChartDataPoint>)
    ensures |r| <= |timeline|
    ensures forall k :: 0 <= k < |r| ==> r[k].kind == Historical
  {
    if timeline == [] then []
    else if timeline[0].kind == Historical then [timeline[0]] + HistoricalOnly(timeline[1..])
    else HistoricalOnly(timeline[1..])
  }

  /** Filtering keeps exactly the historical points, in order: a timeline
      of historical points is its own filter, and a concatenation filters
      piecewise. */
  lemma {:induction false} HistoricalOnlyKeeps(timeline: seq<ChartDataPoint>)
    requires forall k :: 0 <= k < |timeline| ==> timeline[k].kind == Historical
    ensures HistoricalOnly(timeline) == timeline
  {
    if timeline != [] {
      HistoricalOnlyKeeps(timeline[1..]);
    }
  }

  lemma {:induction false} HistoricalOnlyAppend(a: seq<ChartDataPoint>, b: seq<ChartDataPoint>)
    ensures HistoricalOnly(a + b) == HistoricalOnly(a) + HistoricalOnly(b)
  {
    if a != [] {
      assert (a + b)[0] == a[0];
      assert (a + b)[1..] == a[1..] + b;
      HistoricalOnlyAppend(a[1..], b);
    } else {
      assert a + b == b;
    }
  }

  /** The number of prediction points in a timeline. */
  function PredictionCount(timeline: seq<ChartDataPoint>): nat
  {
    if timeline == [] then 0
    else (if timeline[0].kind == Prediction then 1 else 0) + PredictionCount(timeline[1..])
  }

  lemma {:induction false} PredictionCountAppend(a: seq<ChartDataPoint>, b: seq<ChartDataPoint>)
    ensures PredictionCount(a + b) == PredictionCount(a) + PredictionCount(b)
  {
    if a != [] {
      assert (a + b)[0] == a[0];
      assert (a + b)[1..] == a[1..] + b;
      PredictionCountAppend(a[1..], b);
    } else {
      assert a + b == b;
    }
  }

  /** The timeline after a successful prediction: the historical points of
      the timeline the handler started from, then the two prediction points. */
  function RebuildTimeline(predictedGrowth: real, timeline: seq<ChartDataPoint>): seq<ChartDataPoint>
  {
    AddPredictionToTimeline(predictedGrowth, HistoricalOnly(timeline))
  }

  /** A rebuilt timeline keeps the historical points and holds exactly two
      prediction points, however many runs came before. */
  lemma RebuildKeepsTwoPredictions(predictedGrowth: real, timeline: seq<ChartDataPoint>)
    ensures HistoricalOnly(RebuildTimeline(predictedGrowth, timeline)) == HistoricalOnly(timeline)
    ensures PredictionCount(RebuildTimeline(predictedGrowth, timeline)) == 2
  {
    var h := HistoricalOnly(timeline);
    var tail := RebuildTimeline(predictedGrowth, timeline)[|h|..];
    assert RebuildTimeline(predictedGrowth, timeline) == h + tail;
    HistoricalOnlyAppend(h, tail);
    HistoricalOnlyKeeps(h);
    PredictionCountAppend(h, tail);
    HistoricalPointsNoPredictions(h);
    assert tail[0].kind == Prediction && tail[1].kind == Prediction;
    assert tail[1..][1..] == [];
    assert PredictionCount(tail[1..]) == 1;
  }

  lemma {:induction false} HistoricalPointsNoPredictions(timeline: seq<ChartDataPoint>)
    requires forall k :: 0 <= k < |timeline| ==> timeline[k].kind == Historical
    ensures PredictionCount(timeline) == 0
  {
    if timeline != [] {
      HistoricalPointsNoPredictions(timeline[1..]);
    }
  }

  /** A second prediction replaces the first: only the latest survives. */
  lemma RebuildTwice(first: real, second: real, timeline: seq<ChartDataPoint>)
    ensures RebuildTimeline(second, RebuildTimeline(first, timeline)) == RebuildTimeline(second, timeline)
  {
    RebuildKeepsTwoPredictions(first, timeline);
  }

  /** The handler refetches history when the timeline is empty or holds
      only prediction points. */
  predicate NeedsHistory(timeline: seq<ChartDataPoint>)
  {
    |timeline| == 0 || forall k :: 0 <= k < |timeline| ==> timeline[k].kind == Prediction
  }

  /** In that case the rebuilt timeline is the two prediction points alone:
      the history fetched by the handler does not reach it. */
  lemma {:induction false} RefetchedHistoryIsDropped(predictedGrowth: real, timeline: seq<ChartDataPoint>)
    requires NeedsHistory(timeline)
    ensures |RebuildTimeline(predictedGrowth, timeline)| == 2
  {
    if timeline != [] {
      RefetchedHistoryIsDropped(predictedGrowth, timeline[1..]);
    }
  }

  /** `filter(d => d.type === 'historical').slice(-10)`: the last ten
      historical points, or all of them when there are fewer. */
  function RecentHistorical(timeline: seq<ChartDataPoint>): (r: seq<ChartDataPoint>)
    ensures |r| == if |HistoricalOnly(timeline)| > 10 then 10 else |HistoricalOnly(timeline)|
    ensures r == HistoricalOnly(timeline)[|HistoricalOnly(timeline)| - |r|..]
  {
    var h := HistoricalOnly(timeline);
    if |h| > 10 then h[|h| - 10..] else h
  }

  /** How many recent points the report lists: at most ten, and no more
      than the historical points there are. */
  function RecentCount(timeline: seq<ChartDataPoint>): (n: nat)
    ensures n <= 10 && n <= |HistoricalOnly(timeline)|
  {
    var h := |HistoricalOnly(timeline)|;
    if h > 10 then 10 else h
  }

  lemma RecentCountIsLength(timeline: seq<ChartDataPoint>)
    ensures RecentCount(timeline) == |RecentHistorical(timeline)|
  {
  }

  /** The recent-trend figure: none without a timeline, otherwise the mean
      growth of `slice(-6, -2)`, which is `NaN` when that slice is empty. */
  datatype Trend = NoTimeline | NotANumber | Mean(value: real)

  /** `slice(-6, -2)`: the points from the sixth-last up to the third-last. */
  function TrendWindow(timeline: seq<ChartDataPoint>): (w: seq<ChartDataPoint>)
    ensures |timeline| >= 6 ==> w == timeline[|timeline| - 6..|timeline| - 2]
    ensures 2 < |timeline| < 6 ==> w == timeline[..|timeline| - 2]
    ensures |timeline| <= 2 ==> w == []
  {
    var n := |timeline|;
    var start := if n >= 6 then n - 6 else 0;
    var end := if n >= 2 then n - 2 else 0;
    timeline[start..end]
  }

  function GrowthSum(points: seq<ChartDataPoint>): real
  {
    if points == [] then 0.0 else points[0].growth + GrowthSum(points[1..])
  }

  function RecentTrend(timeline: seq<ChartDataPoint>): (t: Trend)
    ensures t.NoTimeline? <==> timeline == []
    ensures t.NotANumber? <==> 0 < |timeline| <= 2
    ensures |timeline| > 2 ==>
              t == Mean(Round2(GrowthSum(TrendWindow(timeline)) / |TrendWindow(timeline)| as real))
  {
    if timeline == [] then NoTimeline
    else
      var w := TrendWindow(timeline);
      if w == [] then NotANumber else Mean(Round2(GrowthSum(w) / |w| as real))
  }

  /** Points whose growth lies between `lo` and `hi` sum to between
      `|points| * lo` and `|points| * hi`. */
  lemma {:induction false} GrowthSumBounds(points: seq<ChartDataPoint>, lo: real, hi: real)
    requires forall k :: 0 <= k < |points| ==> lo <= points[k].growth <= hi
    ensures |points| as real * lo <= GrowthSum(points) <= |points| as real * hi
  {
    if points != [] {
      GrowthSumBounds(points[1..], lo, hi);
    }
  }

  /** The trend lies within the range of growth in its window, up to the
      half hundredth of rounding. */
  lemma TrendWithinWindow(timeline: seq<ChartDataPoint>, lo: real, hi: real)
    requires |timeline| > 2
    requires forall k :: 0 <= k < |TrendWindow(timeline)| ==> lo <= TrendWindow(timeline)[k].growth <= hi
    ensures RecentTrend(timeline).Mean?
    ensures lo - 0.005 <= RecentTrend(timeline).value <= hi + 0.005
  {
    var w := TrendWindow(timeline);
    var n := |w| as real;
    GrowthSumBounds(w, lo, hi);
    assert n > 0.0;
    assert lo <= GrowthSum(w) / n <= hi by {
      assert n * lo <= GrowthSum(w) <= n * hi;
    }
    Round2Error(GrowthSum(w) / n);
  }

  /** After a prediction with at least four historical points, the trend
      is the mean of the last four historical points: the two prediction
      points fall outside the window. */
  lemma TrendAfterPrediction(predictedGrowth: real, timeline: seq<ChartDataPoint>)
    requires |HistoricalOnly(timeline)| >= 4
    ensures var h := HistoricalOnly(timeline);
            RecentTrend(RebuildTimeline(predictedGrowth, timeline))
              == Mean(Round2(GrowthSum(h[|h| - 4..]) / 4.0))
  {
    var h := HistoricalOnly(timeline);
    var r := RebuildTimeline(predictedGrowth, timeline);
    assert |r| == |h| + 2 && r[..|h|] == h;
    var w := TrendWindow(r);
    assert w == r[|h| - 4..|h|];
    assert w == h[|h| - 4..] by {
      assert r[|h| - 4..|h|] == r[..|h|][|h| - 4..];
    }
    assert |w| == 4;
  }

  /** The mock average growth of a country, 3 for one not in the table. */
  function BaseGrowth(country: string): real
  {
    match country
    case "United States" => 2.5
    case "China" => 8.2
    case "India" => 6.8
    case "Japan" => 1.2
    case "Germany" => 1.8
    case "United Kingdom" => 2.1
    case "France" => 1.6
    case "Brazil" => 2.3
    case "Italy" => 0.9
    case "Canada" => 2.2
    case "South Korea" => 3.5
    case "Russia" => 1.7
    case "Australia" => 2.8
    case "Spain" => 1.5
    case "Mexico" => 2.1
    case _ => 3.0
  }

  const FirstMockYear := 1973
  const MockYears := 52

  /** The fallback history for 1973 to 2024. `variation[k]` stands for the
      random and cyclical terms of year `1973 + k`. */
  function GenerateHistoricalData(country: string, variation: seq<real>): (r: seq<ChartDataPoint>)
    requires |variation| == MockYears
    ensures |r| == MockYears
    ensures forall k :: 0 <= k < |r| ==>
              r[k] == ChartDataPoint(IntToString(FirstMockYear + k), Round2(BaseGrowth(country) + variation[k]), Historical)
  {
    seq(MockYears, k requires 0 <= k < MockYears =>
      ChartDataPoint(IntToString(FirstMockYear + k), Round2(BaseGrowth(country) + variation[k]), Historical))
  }

  /** The fallback history labels consecutive years from 1973 to 2024 and
      holds historical points only. */
  lemma MockHistoryYears(country: string, variation: seq<real>, k: int)
    requires |variation| == MockYears && 0 <= k < MockYears
    ensures ParseFloat(GenerateHistoricalData(country, variation)[k].year) == Some((1973 + k) as real)
    ensures 1973 <= 1973 + k <= 2024
    ensures HistoricalOnly(GenerateHistoricalData(country, variation)) == GenerateHistoricalData(country, variation)
  {
    var year := FirstMockYear + k;
    assert GenerateHistoricalData(country, variation)[k].year == IntToString(year);
    ParseIntToString(year);
    HistoricalOnlyKeeps(GenerateHistoricalData(country, variation));
  }
}
