# GDP scenario front end — a Dafny model

This project models the browser side of a GDP-growth scenario simulator.
It covers three parts:

- **The service layer.** This posts a scenario of six growth rates (population, exports, imports, investment, consumption, government spending) for a country to the prediction service. It fetches the country's GDP history and turns thrown errors into user messages. It also reshapes service data into chart points.
- **The scenario dashboard.** This holds the form and the prediction. It rebuilds the timeline with two predicted years (2022 and 2023), computes each factor's share of the total and a confidence score, and exports a paginated PDF report.
- **The growth calculator.** This turns previous-year and current-year figures of six indicators into growth rates rounded to two decimals. It can reset them or copy them as text.

The modules are:

- `Wrappers`: `Option` and `Result`.
- `Numbers`: absolute value, clamping, `Math.round`, and rounding to two decimals the way `toFixed(2)` rounds the exact value.
- `Text`: white space, trimming, `includes`, and `split`/`join` on one character. It also replaces white-space runs.
- `Decimal`: JavaScript's `parseFloat` (optional white space, a sign, digits, a fraction, an exponent, the longest numeric prefix; `None` stands for `NaN`) and number-to-text for integers and two-decimal values.
- `Api`: `src/services/api.ts`.
- `Scenario`: the pure computations of `src/app/components/dashboard.tsx`.
- `Report`: the PDF layout of `handleExport` as a cursor program, with a jsPDF document class that executes it.
- `Dashboard`: the dashboard component as a class whose fields are its state and whose methods are its handlers.
- `GrowthCalculator`: `src/app/components/growth-calculator.tsx`, as pure functions plus a class holding the component's state.

Server replies, the random variation of the fallback history and the current time are parameters of the handlers that use them.

One behaviour is modelled as written and worth knowing. `handlePredict` rebuilds the timeline from the points it held when the handler started. When it first refetches the history, the refetched points are stored and then immediately replaced. A first prediction on an empty timeline therefore shows only the two prediction points (`Scenario.RefetchedHistoryIsDropped`).

## Model

| member | source | states |
|---|---|---|
| Numbers.Clamp | src/app/components/dashboard.tsx:246 | the `max(85, min(95, x))` clamp lies in the range, keeps values inside it and maps values below or above it to the bound |
| Numbers.JsRound | src/app/components/dashboard.tsx:246 | `Math.round` yields the integer within half of its argument (ties upward) |
| Numbers.Round2 | src/services/api.ts:153 | `parseFloat(x.toFixed(2))` as the exact value rounded half away from zero to a whole number of hundredths (its contract is in the lemmas below) |
| Numbers.Round2Error | src/services/api.ts:153 | a value rounded to two decimals is within 0.005 of the value |
| Numbers.Round2IsHundredths | src/services/api.ts:153 | a value rounded to two decimals is a whole number of hundredths |
| Numbers.Round2Idempotent | src/services/api.ts:171 | rounding to two decimals twice is rounding once |
| Numbers.Round2Sign | src/app/components/growth-calculator.tsx:79 | the rounded value is positive, negative or zero exactly when the value is at least 0.005, at most -0.005, or strictly between |
| Decimal.ParseFloat | src/app/components/growth-calculator.tsx:72-73 | `parseFloat`: skip leading white space, read the longest literal of sign, digits, fraction and exponent, `None` (`NaN`) when no digit comes before the exponent; the same function serves api.ts:153 and dashboard.tsx:171-176 |
| Decimal.IntToString | src/services/api.ts:152 | `Year.toString()`: non-empty and not starting with white space |
| Decimal.ParseIntToString | src/services/api.ts:152 | `parseFloat` of an integer's decimal text gives back the integer |
| Decimal.ParseShowNumber | src/app/components/growth-calculator.tsx:79-107 | the shortest decimal text of `x` rounded to two decimals (as `String` prints a rounded rate inside `${ind.growthRate}`, without trailing zeros) parses back to that rounded value |
| Decimal.ShowNumber | src/app/components/growth-calculator.tsx:107 | the text of a rate inside a template string, for the two-decimal value nearest to it (round trip in `Decimal.ParseShowNumber`) |
| Decimal.ShowNumberSingleLine | src/app/components/growth-calculator.tsx:107 | the text of a two-decimal number holds no line break |
| Text.Includes | src/services/api.ts:109-117 | `String.prototype.includes`: `t` starts at some position of `s` |
| Text.IncludesIffOccurs | src/services/api.ts:109-117 | `includes` holds exactly when the text occurs at some position |
| Text.ReplaceWhitespaceRuns | src/app/components/dashboard.tsx:543 | `replace(/\s+/g, '_')`: the result holds no white space |
| Text.ReplaceWithoutWhitespace | src/app/components/dashboard.tsx:543 | a country without white space is left unchanged |
| Text.ReplaceOneRun | src/app/components/dashboard.tsx:543 | one run of white space between a word and the rest becomes exactly one underscore |
| Text.Join | src/app/components/growth-calculator.tsx:108 | `join("\n")`: the lines with the separator between consecutive ones (inverted by `Text.SplitJoin`) |
| Text.Split | src/app/components/dashboard.tsx:543 | `split(sep)`: never an empty list of parts; used for `split('T')[0]` at dashboard.tsx:543 and the copied text |
| Text.SplitJoin | src/app/components/growth-calculator.tsx:108 | splitting lines joined with a separator none of them contains gives the lines back |
| Api.IsNetworkFailure | src/services/api.ts:109 | a thrown `TypeError` whose message includes "fetch" |
| Api.IsTimeout | src/services/api.ts:116-117 | any other thrown `Error` whose message includes "timeout" or "timed out" |
| Api.HandleApiError | src/services/api.ts:108-135 | a network code exactly for a `TypeError` mentioning "fetch"; otherwise a timeout code exactly for an error mentioning "timeout" or "timed out"; the error's own message with no code for any other error; an unknown code exactly for a non-error; the three coded results carry their fixed texts (the connection message, "Request timed out. Please try again.", "An unexpected error occurred") |
| Api.NetworkCheckWins | src/services/api.ts:109-122 | a `TypeError` "Failed to fetch: timeout" is reported as a network error although it mentions a timeout: the fetch test comes first |
| Api.TypeErrorWithoutFetch | src/services/api.ts:109-127 | a `TypeError` whose message does not mention "fetch" is handled like any other error |
| Api.FailureMessage | src/services/api.ts:95-96 | the service's non-empty message when there is one, otherwise "Scenario simulation failed: " and the status text; never empty |
| Api.SubmitPrediction | src/services/api.ts:83-101 | succeeds exactly on an OK reply and returns its body; a non-OK reply throws an `Error` with the failure message; a transport failure rethrows what `fetch` threw |
| Api.ServiceMessageReachesUser | src/services/api.ts:94-97 | a non-empty service message that mentions no timeout reaches the user unchanged and uncoded |
| Api.FetchHistoricalData | src/services/api.ts:65-76 | succeeds exactly on an OK reply and returns its rows; a non-OK reply throws "Failed to fetch historical data: " and the status text; a transport failure rethrows |
| Api.TransformHistoricalData | src/services/api.ts:150-156 | one historical point per row, in order, with the year as text and the growth rounded to two decimals |
| Api.TransformedPointsFaithful | src/services/api.ts:150-156 | each point's year text parses back to its year, and its growth is a two-decimal value within 0.005 of the service's |
| Api.TransformAppend | src/services/api.ts:151 | the transformation maps rows one by one, so it distributes over concatenation |
| Api.AddPredictionToTimeline | src/services/api.ts:164-182 | the existing points unchanged, then "2022" at the prediction rounded to two decimals and "2023" at the prediction times 1.05, rounded, both marked as predictions |
| Api.PredictionPointsNearForecast | src/services/api.ts:168-179 | both appended values are within 0.005 of the prediction and of 105% of it |
| Api.PredictionExample | src/services/api.ts:164-182 | a prediction of 3.456 yields 3.46 for 2022 and 3.63 for 2023 |
| Scenario.CanSubmit | src/app/components/dashboard.tsx:160 | the guard of `handlePredict`: a selected country and all six inputs non-empty |
| Scenario.InputOkParses | src/app/components/dashboard.tsx:752-757 | a number input holds "" or text that `parseFloat` reads as a number |
| Scenario.InputsOkEach | src/app/components/dashboard.tsx:752-864 | the form invariant holds exactly when each of the inputs is "" or numeric |
| Scenario.ParseInputs | src/app/components/dashboard.tsx:171-176 | when every input parses, one number per input |
| Scenario.ParseInputsFaithful | src/app/components/dashboard.tsx:199-204 | the inputs parse as a whole exactly when each one does, and the k-th number is `parseFloat` of the k-th input |
| Scenario.SubmittedInputsParse | src/app/components/dashboard.tsx:160-176 | once the guard has let a non-empty form through, every input parses, so the request carries no `NaN` |
| Scenario.RequestFor | src/app/components/dashboard.tsx:169-177 | the request fields in the order of the six inputs |
| Scenario.TotalMagnitude | src/app/components/dashboard.tsx:207 | the total of absolute values is never negative |
| Scenario.Share | src/app/components/dashboard.tsx:214 | the absolute value over the total, times 100, when the total is positive, otherwise 0 (its contract is in the share lemmas below) |
| Scenario.Contributions | src/app/components/dashboard.tsx:210-241 | six rows in factor order; each keeps the signed input and has its absolute value's share of the total as percentage, or 0 when the total is 0 |
| Scenario.ShareAdd | src/app/components/dashboard.tsx:214 | shares of a common total add up |
| Scenario.ShareAtMost100 | src/app/components/dashboard.tsx:214 | a value no larger than the positive total has a share between 0 and 100 |
| Scenario.PercentageSumIsShare | src/app/components/dashboard.tsx:210-241 | the percentages of rows computed against a total sum to the share of the sum of absolute values |
| Scenario.ContributionsSumTo100 | src/app/components/dashboard.tsx:207-241 | when some input is non-zero the six percentages sum to exactly 100 |
| Scenario.ShareOfWhole | src/app/components/dashboard.tsx:214 | the total is 100% of itself |
| Scenario.TotalZeroIffAllZero | src/app/components/dashboard.tsx:207 | the total is zero exactly when every input is zero |
| Scenario.ContributionBounds | src/app/components/dashboard.tsx:214-239 | every percentage lies between 0 and 100, and all are 0 when every input is 0 |
| Scenario.MagnitudeBelowTotal | src/app/components/dashboard.tsx:207 | each input's absolute value is at most the total |
| Scenario.Consistency | src/app/components/dashboard.tsx:245 | 100 minus twice the trade gap and 1.5 times the investment-consumption gap, both as absolute values (related to the score by `Scenario.ConfidenceTracksConsistency`) |
| Scenario.Confidence | src/app/components/dashboard.tsx:245-246 | the confidence score is an integer from 85 to 95 |
| Scenario.BalancedScenarioScores95 | src/app/components/dashboard.tsx:245-246 | balanced trade and balanced investment and consumption give the top score 95 |
| Scenario.ConfidenceTracksConsistency | src/app/components/dashboard.tsx:245-246 | a consistency within the range is rounded to within a half, and one at or below 85 scores 85 |
| Scenario.HistoricalOnly | src/app/components/dashboard.tsx:194 | the filter keeps only historical points and never lengthens the timeline |
| Scenario.HistoricalOnlyKeeps | src/app/components/dashboard.tsx:194 | a timeline of historical points passes the filter unchanged |
| Scenario.HistoricalOnlyAppend | src/app/components/dashboard.tsx:194 | the filter distributes over concatenation |
| Scenario.PredictionCountAppend | src/app/components/dashboard.tsx:194-196 | prediction points of a concatenation add up |
| Scenario.RebuildTimeline | src/app/components/dashboard.tsx:194-196 | the historical points of the timeline the handler started with, then the two prediction points (proved in the next rows) |
| Scenario.RebuildKeepsTwoPredictions | src/app/components/dashboard.tsx:194-196 | the rebuilt timeline keeps exactly the historical points and holds exactly two prediction points |
| Scenario.HistoricalPointsNoPredictions | src/app/components/dashboard.tsx:145-153 | a timeline of historical points holds no prediction point |
| Scenario.RebuildTwice | src/app/components/dashboard.tsx:194-196 | a second prediction replaces the first pair instead of adding to it |
| Scenario.NeedsHistory | src/app/components/dashboard.tsx:187 | the refetch condition: an empty timeline or one holding only prediction points |
| Scenario.RefetchedHistoryIsDropped | src/app/components/dashboard.tsx:187-196 | when the handler starts without historical points, the stored timeline is only the two prediction points, whatever the refetch returned |
| Scenario.RecentHistorical | src/app/components/dashboard.tsx:417 | the last ten historical points, or all of them when there are fewer |
| Scenario.RecentCount | src/app/components/dashboard.tsx:417-424 | the number of recent points listed in the report is at most 10 and at most the number of historical points |
| Scenario.TrendWindow | src/app/components/dashboard.tsx:586 | `slice(-6, -2)`: the four points before the last two; for three to five points, all but the last two; nothing for two points or fewer |
| Scenario.RecentTrend | src/app/components/dashboard.tsx:584-589 | no trend exactly for an empty timeline, `NaN` exactly for one or two points, and otherwise the mean growth of the trend window rounded to two decimals |
| Scenario.GrowthSumBounds | src/app/components/dashboard.tsx:587 | growth values between two bounds sum to between the count times each bound |
| Scenario.TrendWithinWindow | src/app/components/dashboard.tsx:584-589 | with three points or more the trend is a mean, and it lies within the range of growth in its window up to 0.005 |
| Scenario.TrendAfterPrediction | src/app/components/dashboard.tsx:584-589 | after a prediction with at least four historical points, the trend is the mean of the last four historical points |
| Scenario.GenerateHistoricalData | src/app/components/dashboard.tsx:68-86 | 52 historical points, one per year from 1973, each at the country's base growth plus that year's variation, rounded |
| Scenario.MockHistoryYears | src/app/components/dashboard.tsx:73-81 | the k-th fallback point is labelled with year 1973 + k, and the fallback history passes the historical filter unchanged |
| Report.Run | src/app/components/dashboard.tsx:314-524 | the layout code as a cursor program: each step applied in turn, starting from the cursor given (its laws are `Report.RunAppend`, `Report.RunTwo`, `Report.PagesNeverDecrease`) |
| Report.Apply | src/app/components/dashboard.tsx:373-376 | a layout step either stays on the page or opens a new page with the cursor at the top margin |
| Report.GuardKeepsRoom | src/app/components/dashboard.tsx:373-376 | the page-break test opens a page exactly when the cursor is lower than the page height minus the reserve |
| Report.RunAppend | src/app/components/dashboard.tsx:314-524 | running two step lists one after the other is running their concatenation |
| Report.RunTwo | src/app/components/dashboard.tsx:314-524 | a two-step program applies its steps in order |
| Report.PagesNeverDecrease | src/app/components/dashboard.tsx:314-524 | laying out never removes pages |
| Report.Repeat | src/app/components/dashboard.tsx:347-379 | the unrolled loop over n items is n times as long as its block |
| Report.FirstPageSteps | src/app/components/dashboard.tsx:314-397 | the cursor moves of page one: results at 55 mm, six input lines, one guarded line per contribution (reserve 30), the interpretation with reserve 50 |
| Report.SummarySteps | src/app/components/dashboard.tsx:399-524 | a new page, the optional history block with one line per recent point, one guarded bar per contribution (reserve 30), the indicator block (reserve 80) with six guarded bars, and the closing note (reserve 40) |
| Report.ReportSteps | src/app/components/dashboard.tsx:314-524 | the first page followed by the summary |
| Report.AtLeastTwoPages | src/app/components/dashboard.tsx:399-400 | whatever the page height and data, the report has at least two pages because the summary always starts a new one |
| Report.RepeatOneMore | src/app/components/dashboard.tsx:372-379 | one more loop iteration appends one more block |
| Report.RunAdvances | src/app/components/dashboard.tsx:421-424 | n unguarded lines move the cursor down n times the line height on the same page |
| Report.RunGuardedFits | src/app/components/dashboard.tsx:448-465 | guarded lines that all fit above the threshold never break the page |
| Report.FullReportOnA4 | src/app/components/dashboard.tsx:287-524 | on an A4 page (297 mm) a full report with six factors and ten recent years has three pages |
| Report.FirstPageOnA4 | src/app/components/dashboard.tsx:314-397 | the first A4 page ends with the cursor at 238 mm, on page one |
| Report.HistoryBlockOnA4 | src/app/components/dashboard.tsx:408-431 | the history block of ten recent years fits on the second A4 page |
| Report.IndicatorBarsOnA4 | src/app/components/dashboard.tsx:470-510 | the six indicator bars on A4 break onto a third page |
| Report.SummaryOnA4 | src/app/components/dashboard.tsx:399-524 | the A4 summary ends at 47 mm on page three |
| Report.PageLabelsDistinct | src/app/components/dashboard.tsx:539 | different page numbers give different "Page i of N" labels |
| Report.PdfDocument.constructor | src/app/components/dashboard.tsx:287 | a new document has one empty page, the current one |
| Report.PdfDocument.AddPage | src/app/components/dashboard.tsx:374 | appends an empty page and makes it current |
| Report.PdfDocument.SetPage | src/app/components/dashboard.tsx:530 | makes page n (counted from 1) current and changes no text |
| Report.PdfDocument.Text | src/app/components/dashboard.tsx:533-539 | appends a line to the current page only |
| Report.LayOut | src/app/components/dashboard.tsx:314-524 | executing the steps on a document adds exactly the pages the cursor program predicts, keeps the earlier pages and leaves the new ones empty |
| Report.StampFooters | src/app/components/dashboard.tsx:528-540 | the same pages, each with the footer note and its own "Page i of N" label appended to what it held |
| Report.ReportPageCount | src/app/components/dashboard.tsx:287-524 | the report has at least two pages |
| Report.RenderReport | src/app/components/dashboard.tsx:287-540 | as many pages as the layout needs, each holding only its footer note and its page label |
| Report.ExportPdf | src/app/components/dashboard.tsx:287-544 | the exported report is named from the country and date and has the laid-out pages, each stamped once |
| Report.EachPageStampedOnce | src/app/components/dashboard.tsx:528-540 | each page's label names its own number, and no two pages share a label |
| Report.ExportFileName | src/app/components/dashboard.tsx:543 | the file name starts with "Vikalp_Scenario_" and ends with ".pdf" |
| Report.FileNameCountryPart | src/app/components/dashboard.tsx:543 | the name is the prefix, the country with each white-space run replaced by `_`, and the date before the `T`; the country part holds no white space |
| Report.FileNameTwoWords | src/app/components/dashboard.tsx:543 | "United States" on a given date becomes `Vikalp_Scenario_United_States_<date>.pdf` |
| Dashboard.ScenarioDashboard.constructor | src/app/components/dashboard.tsx:91-110 | the initial state: no country, six empty inputs, no prediction, empty timeline, score 90, no errors |
| Dashboard.ScenarioDashboard.EditInput | src/app/components/dashboard.tsx:757-862 | typing into one number input replaces that input only and keeps every other field |
| Dashboard.ScenarioDashboard.HandleCountryChange | src/app/components/dashboard.tsx:139-157 | selects the country and stops loading; on success it stores the transformed history with no error; on failure it stores the handled message and the fallback history; scenario fields are unchanged |
| Dashboard.ScenarioDashboard.HandlePredict | src/app/components/dashboard.tsx:159-255 | without a country or with an empty input nothing changes; otherwise it posts the parsed request; a failed post leaves only its message; a success stores prediction and method; a failed refetch then leaves its message; otherwise the rebuilt timeline, the breakdown, the score and the results are shown with no error; calculation ends in every case |
| Dashboard.ScenarioDashboard.Respond | src/app/components/dashboard.tsx:180-251 | the service's answer: a thrown error becomes `apiError` with the results untouched, and a prediction is received |
| Dashboard.ScenarioDashboard.ReceivePrediction | src/app/components/dashboard.tsx:183-248 | stores prediction and method; a failed refetch leaves its message, otherwise the results are shown |
| Dashboard.ScenarioDashboard.ShowResults | src/app/components/dashboard.tsx:194-248 | sets the rebuilt timeline, the six contributions and the clamped confidence, and shows the results |
| Dashboard.ScenarioDashboard.HandleReset | src/app/components/dashboard.tsx:257-266 | empties the six inputs and hides and clears the prediction, keeping everything else; afterwards neither submit nor export goes through |
| Dashboard.ScenarioDashboard.ExportAllowed | src/app/components/dashboard.tsx:269 | the export guard negated: a non-zero prediction and a selected country |
| Dashboard.ScenarioDashboard.HandleExport | src/app/components/dashboard.tsx:268-544 | a report exactly when a non-zero prediction and a country exist; it is the laid-out, footer-stamped report for the breakdown size, the recent historical count and the history's presence, named from country and date |
| Dashboard.Index | src/app/components/dashboard.tsx:92-97 | every form field maps to one of the six input positions |
| GrowthCalculator.CalculateGrowthRate | src/app/components/growth-calculator.tsx:71-80 | no rate exactly when either figure is not a number or the previous one is 0; otherwise a two-decimal value within 0.005 of the percentage change |
| GrowthCalculator.FivePercentExample | src/app/components/growth-calculator.tsx:71-80 | from 100 to 105 the rate is 5 |
| GrowthCalculator.ShownRateParsesBack | src/app/components/growth-calculator.tsx:79 | a two-decimal rate's text parses back to the rate |
| GrowthCalculator.GrowthColor | src/app/components/growth-calculator.tsx:115-120 | grey-400 for no rate, green for positive, red for negative, grey-600 for zero |
| GrowthCalculator.ColorOfComputedRate | src/app/components/growth-calculator.tsx:79-120 | a computed rate shows green, red or grey exactly when the change is at least 0.005, at most -0.005, or in between |
| GrowthCalculator.Calculated | src/app/components/growth-calculator.tsx:82-88 | each row keeps its name, label and figures and gets the rate of its own figures |
| GrowthCalculator.CalculateIdempotent | src/app/components/growth-calculator.tsx:82-88 | calculating twice is calculating once |
| GrowthCalculator.Reset | src/app/components/growth-calculator.tsx:90-99 | each row keeps its name and label, with empty figures and no rate |
| GrowthCalculator.Edited | src/app/components/growth-calculator.tsx:65-69 | only the chosen figure of the chosen row changes |
| GrowthCalculator.HasAnyInput | src/app/components/growth-calculator.tsx:101 | some row has a non-empty previous-year or current-year figure |
| GrowthCalculator.HasAllInputs | src/app/components/growth-calculator.tsx:102 | every row has both figures non-empty |
| GrowthCalculator.AllInputsImplyAny | src/app/components/growth-calculator.tsx:101-102 | a non-empty table with all figures has some figure |
| GrowthCalculator.ResetClearsInputs | src/app/components/growth-calculator.tsx:90-102 | after a reset no row has a figure, so Calculate is disabled and Reset hidden |
| GrowthCalculator.CalculateKeepsConditions | src/app/components/growth-calculator.tsx:82-102 | calculating does not change which figures are present |
| GrowthCalculator.NoneRatedAfterReset | src/app/components/growth-calculator.tsx:90-106 | after a reset nothing would be copied |
| GrowthCalculator.Rated | src/app/components/growth-calculator.tsx:106 | the rated rows are rows of the table that have a rate |
| GrowthCalculator.RatedAppend | src/app/components/growth-calculator.tsx:106 | the filter keeps the order, distributing over concatenation |
| GrowthCalculator.RatedMembers | src/app/components/growth-calculator.tsx:106 | a row is copied exactly when it is in the table and has a rate |
| GrowthCalculator.CopyLines | src/app/components/growth-calculator.tsx:105-107 | one "label: rate%" line per rated row, in table order |
| GrowthCalculator.CopyText | src/app/components/growth-calculator.tsx:105-108 | the copy lines joined by line breaks (inverted by `GrowthCalculator.CopyTextSplits`) |
| GrowthCalculator.CopyTextSplits | src/app/components/growth-calculator.tsx:105-108 | with single-line labels, splitting the copied text at line breaks gives back exactly the copied lines |
| GrowthCalculator.Calculator.constructor | src/app/components/growth-calculator.tsx:18-63 | the six initial rows with empty figures and no rate, not copied |
| GrowthCalculator.Calculator.HandleInputChange | src/app/components/growth-calculator.tsx:65-69 | the table becomes the edited table and the copy flag is kept |
| GrowthCalculator.Calculator.HandleCalculate | src/app/components/growth-calculator.tsx:82-88 | the table becomes the calculated table |
| GrowthCalculator.Calculator.HandleReset | src/app/components/growth-calculator.tsx:90-99 | the table becomes the reset table |
| GrowthCalculator.Calculator.CopyGrowthRates | src/app/components/growth-calculator.tsx:104-111 | returns the copied text of the current table and sets the copy flag, leaving the table alone |
| GrowthCalculator.Calculator.CopiedTimeout | src/app/components/growth-calculator.tsx:112 | the delayed callback clears the copy flag only |

## Left out

- Network transport is left out: `fetch`, the base URL from the environment, JSON encoding and decoding, and `encodeURIComponent` of the country. Each server reply is a parameter: the OK body, a non-OK status with an optional message, or a thrown value.
- `fetchCountries` and the dashboard's `loadCountries` effect are left out. They only fill the country list with the service's countries or the fifteen fallback names, and no handler depends on the list.
- The `details` field of `ApiError` is left out. So is a service error message that is not a string: `errorData.message` is modelled as an optional string.
- Rendering is left out: the JSX, charts, the radar data, animations, `console.log`, `alert`, the clipboard write and the export button's disabled and label changes.
- jsPDF drawing is left out: fonts, colours, rectangles, bar lengths and `splitTextToSize` wrapping. A page records only the lines the footer pass writes, and the layout is modelled through its cursor movements. The export's 500 ms wait and its catch branch are left out.
- `Math.random()` and `Math.sin` in the fallback history are left out. The sum of the random and cyclical terms of each year is a parameter, `variation`.
- `new Date().toISOString()` is left out. The export takes the timestamp text as a parameter.
- The timer of `copyGrowthRates` is left out. `CopiedTimeout` is the callback after two seconds; the delay itself is not modelled.
- Numbers are exact reals, not IEEE-754 doubles. Rounding to two decimals rounds the exact value half away from zero.
- Number-to-text is modelled only for integers and two-decimal values, which are all the model prints. Exponent notation, `Infinity` and `NaN` in arithmetic are not modelled; a `NaN` from `parseFloat` is `None`.
- Scenario.RecentTrend: the source yields the text `avgGrowth.toFixed(2)`; the model yields the number that text denotes, rounded to two decimals.
- Concurrency is left out. The awaits of a handler are not interleaved with other handlers, and React's batching is modelled by the handler reading the state of its own render: the timeline captured when `handlePredict` started.
- `Dashboard.ScenarioDashboard.EditInput`: the six `onChange` setters take any text, but the model requires the value of an `<Input type="number">` to be "" or a number, which is what the browser hands over.
- The dashboard's six input states are one sequence indexed by `InputField`, not six variables.
- `Dashboard.ScenarioDashboard.HandlePredict`: the button is also disabled while calculating (dashboard.tsx:875). This is a render-time gate that is not modelled; the handler's own guard is.
- `GrowthCalculator.Calculator.HandleCalculate`: the Calculate button is disabled unless every figure is filled in (growth-calculator.tsx:214). The handler has no such gate and is modelled without one.
- `GrowthCalculator.Calculator.HandleInputChange`: the source copies the array but mutates the shared row object in place. The model replaces the row with a new value, so aliasing between the old and new arrays is not captured.
- `Dashboard.ScenarioDashboard.HandleExport`: a prediction of exactly 0 is refused, as written: `!prediction` is true for 0.
- `Dashboard.ScenarioDashboard.Valid`: it does not include the fact that a stored timeline holds at most one pair of prediction points. That fact is proved of every timeline the handlers store, by `Scenario.HistoricalPointsNoPredictions` and `Scenario.RebuildKeepsTwoPredictions`.
- The authentication pages, the landing page, `App.tsx` and the UI component library are not part of this model.
