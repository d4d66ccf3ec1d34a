/**
 * The growth-rate calculator (src/app/components/growth-calculator.tsx):
 * six indicator rows, each with a previous-year and a current-year input
 * and the growth rate computed from them. The rates, the table updates,
 * the copied text and the colour of a rate are functions; the component's
 * state is an object whose handlers replace its table.
 */
module GrowthCalculator {
  import opened Wrappers
  import opened Numbers
  import opened Text
  import opened Decimal

  /** One row of the table. `growthRate` is `None` for the source's `null`. */
  datatype Indicator = Indicator(name: string, labelText: string, previousYear: string,
                                 currentYear: string, growthRate: Option<real>)

  /** The two inputs of a row. */
  datatype Field = PreviousYear | CurrentYear

  /** The six rows the calculator starts with. */
  const InitialIndicators: seq<Indicator> := [
    Indicator("population", "Population", "", "", None),
    Indicator("exports", "Exports of Goods and Services", "", "", None),
    Indicator("imports", "Imports of Goods and Services", "", "", None),
    Indicator("capitalFormation", "Gross Capital Formation", "", "", None),
    Indicator("consumption", "Final Consumption Expenditure", "", "", None),
    Indicator("government", "Government Expenditure", "", "", None)
  ]

  // ---------------------------------------------------------------------
  // The growth rate

  /** `calculateGrowthRate`: no rate when an input is not a number or the
      previous value is 0; otherwise the percentage change, rounded to two
      decimals. The rate is within half a hundredth of the exact change. */
  function CalculateGrowthRate(previous: string, current: string): (r: Option<real>)
    ensures r.None? <==>
              ParseFloat(previous).None? || ParseFloat(current).None? || ParseFloat(previous).value == 0.0
    ensures r.Some? ==>
              var change := (ParseFloat(current).value - ParseFloat(previous).value) / ParseFloat(previous).value * 100.0;
              IsHundredths(r.value) && Abs(r.value - change) <= 0.005
  {
    var prev := ParseFloat(previous);
    var curr := ParseFloat(current);
    if prev.None? || curr.None? || prev.value == 0.0 then None
    else
      var change := (curr.value - prev.value) / prev.value * 100.0;
      Round2Error(change);
      Round2IsHundredths(change);
      Some(Round2(change))
  }

  /** From 100 to 105 the calculator shows a growth of 5%. */
  lemma FivePercentExample(previous: string, current: string)
    requires previous == "100" && current == "105"
    ensures CalculateGrowthRate(previous, current) == Some(5.0)
  {
    assert previous == IntToString(100);
    assert current == IntToString(105);
    ParseIntToString(100);
    ParseIntToString(105);
    assert (105.0 - 100.0) / 100.0 * 100.0 == 500 as real / 100.0;
    Round2OfHundredths(500);
  }

  /** A rate the calculator computes has at most two decimals, so the text
      it shows for the rate parses back to the rate itself. */
  lemma ShownRateParsesBack(rate: real)
    requires IsHundredths(rate)
    ensures ParseFloat(ShowNumber(rate)) == Some(rate)
  {
    var h := (rate * 100.0).Floor;
    assert rate == h as real / 100.0;
    Round2OfHundredths(h);
    ParseShowNumber(rate);
  }

  // ---------------------------------------------------------------------
  // The colour of a rate

  /** `getGrowthColor`. */
  function GrowthColor(rate: Option<real>): (c: string)
    ensures rate.None? ==> c == "text-gray-400"
    ensures rate.Some? && rate.value > 0.0 ==> c == "text-[#10b981]"
    ensures rate.Some? && rate.value < 0.0 ==> c == "text-red-500"
    ensures rate == Some(0.0) ==> c == "text-gray-600"
  {
    match rate
    case None => "text-gray-400"
    case Some(x) =>
      if x > 0.0 then "text-[#10b981]"
      else if x < 0.0 then "text-red-500"
      else "text-gray-600"
  }

  /** The colour of a computed rate follows the exact change: green from
      half a hundredth of a percent up, red from half a hundredth down,
      neutral in between (where the rate shows as 0). */
  lemma ColorOfComputedRate(previous: string, current: string)
    requires ParseFloat(previous).Some? && ParseFloat(current).Some? && ParseFloat(previous).value != 0.0
    ensures var change := (ParseFloat(current).value - ParseFloat(previous).value) / ParseFloat(previous).value * 100.0;
            var c := GrowthColor(CalculateGrowthRate(previous, current));
            && (c == "text-[#10b981]" <==> change >= 0.005)
            && (c == "text-red-500" <==> change <= -0.005)
            && (c == "text-gray-600" <==> -0.005 < change < 0.005)
  {
    var change := (ParseFloat(current).value - ParseFloat(previous).value) / ParseFloat(previous).value * 100.0;
    Round2Sign(change);
    assert CalculateGrowthRate(previous, current) == Some(Round2(change));
  }

  // ---------------------------------------------------------------------
  // Table updates

  /** A row with its rate computed from its own inputs. */
  function WithRate(row: Indicator): Indicator
  {
    row.(growthRate := CalculateGrowthRate(row.previousYear, row.currentYear))
  }

  /** `handleCalculate`'s new table: every row gets the rate of its own
      inputs; names, labels, inputs, count and order stay. */
  function Calculated(rows: seq<Indicator>): (r: seq<Indicator>)
    ensures |r| == |rows|
    ensures forall k :: 0 <= k < |rows| ==>
              && r[k].name == rows[k].name && r[k].labelText == rows[k].labelText
              && r[k].previousYear == rows[k].previousYear && r[k].currentYear == rows[k].currentYear
              && r[k].growthRate == CalculateGrowthRate(rows[k].previousYear, rows[k].currentYear)
  {
    if rows == [] then [] else [WithRate(rows[0])] + Calculated(rows[1..])
  }

  /** Calculating twice gives the table of calculating once. */
  lemma CalculateIdempotent(rows: seq<Indicator>)
    ensures Calculated(Calculated(rows)) == Calculated(rows)
  {
    var once := Calculated(rows);
    var twice := Calculated(once);
    assert forall k :: 0 <= k < |rows| ==> twice[k] == once[k];
  }

  /** A row with both inputs and its rate cleared. */
  function Cleared(row: Indicator): Indicator
  {
    row.(previousYear := "", currentYear := "", growthRate := None)
  }

  /** `handleReset`'s new table: both inputs and the rate of every row are
      cleared; names, labels, count and order stay. */
  function Reset(rows: seq<Indicator>): (r: seq<Indicator>)
    ensures |r| == |rows|
    ensures forall k :: 0 <= k < |rows| ==>
              && r[k].name == rows[k].name && r[k].labelText == rows[k].labelText
              && r[k].previousYear == "" && r[k].currentYear == "" && r[k].growthRate.None?
  {
    if rows == [] then [] else [Cleared(rows[0])] + Reset(rows[1..])
  }

  /** The table a change of one input gives: only that input of that row
      changes. */
  function Edited(rows: seq<Indicator>, index: nat, field: Field, value: string): (r: seq<Indicator>)
    requires index < |rows|
    ensures |r| == |rows|
    ensures forall k :: 0 <= k < |rows| && k != index ==> r[k] == rows[k]
    ensures r[index].name == rows[index].name && r[index].labelText == rows[index].labelText
    ensures r[index].growthRate == rows[index].growthRate
    ensures field == PreviousYear ==>
              r[index].previousYear == value && r[index].currentYear == rows[index].currentYear
    ensures field == CurrentYear ==>
              r[index].currentYear == value && r[index].previousYear == rows[index].previousYear
  {
    rows[index := match field
                  case PreviousYear => rows[index].(previousYear := value)
                  case CurrentYear => rows[index].(currentYear := value)]
  }

  // ---------------------------------------------------------------------
  // Button conditions

  /** `hasAnyInput`: some row has a non-empty input (the Reset button). */
  predicate HasAnyInput(rows: seq<Indicator>)
  {
    exists k :: 0 <= k < |rows| && (rows[k].previousYear != "" || rows[k].currentYear != "")
  }

  /** `hasAllInputs`: every row has both inputs (the Calculate button). */
  predicate HasAllInputs(rows: seq<Indicator>)
  {
    forall k :: 0 <= k < |rows| ==> rows[k].previousYear != "" && rows[k].currentYear != ""
  }

  /** On a non-empty table a complete form has some input. */
  lemma AllInputsImplyAny(rows: seq<Indicator>)
    requires |rows| > 0 && HasAllInputs(rows)
    ensures HasAnyInput(rows)
  {
    assert rows[0].previousYear != "";
  }

  /** After a reset there is nothing to reset and nothing to calculate
      from. */
  lemma ResetClearsInputs(rows: seq<Indicator>)
    ensures !HasAnyInput(Reset(rows))
    ensures |rows| > 0 ==> !HasAllInputs(Reset(rows))
  {
    if |rows| > 0 {
      assert Reset(rows)[0].previousYear == "";
    }
  }

  /** A calculation keeps both button conditions. */
  lemma CalculateKeepsConditions(rows: seq<Indicator>)
    ensures HasAnyInput(Calculated(rows)) <==> HasAnyInput(rows)
    ensures HasAllInputs(Calculated(rows)) <==> HasAllInputs(rows)
  {
    var c := Calculated(rows);
    if HasAnyInput(rows) {
      var k :| 0 <= k < |rows| && (rows[k].previousYear != "" || rows[k].currentYear != "");
      assert c[k].previousYear == rows[k].previousYear && c[k].currentYear == rows[k].currentYear;
    }
    if HasAnyInput(c) {
      var k :| 0 <= k < |c| && (c[k].previousYear != "" || c[k].currentYear != "");
      assert c[k].previousYear == rows[k].previousYear && c[k].currentYear == rows[k].currentYear;
    }
  }

  /** After a reset nothing is copied. */
  lemma {:induction false} NoneRatedAfterReset(rows: seq<Indicator>)
    ensures Rated(Reset(rows)) == []
  {
    if rows != [] {
      NoneRatedAfterReset(rows[1..]);
    }
  }

  // ---------------------------------------------------------------------
  // The copied text

  /** The rows that have a rate, in table order. */
  function Rated(rows: seq<Indicator>): (r: seq<Indicator>)
    ensures |r| <= |rows|
    ensures forall k :: 0 <= k < |r| ==> r[k].growthRate.Some? && r[k] in rows
  {
    if rows == [] then []
    else if rows[0].growthRate.Some? then [rows[0]] + Rated(rows[1..])
    else Rated(rows[1..])
  }

  /** Filtering keeps table order: the rated rows of two tables in a row
      are those of the first followed by those of the second. */
  lemma {:induction false} RatedAppend(a: seq<Indicator>, b: seq<Indicator>)
    ensures Rated(a + b) == Rated(a) + Rated(b)
  {
    if a == [] {
      assert a + b == b;
    } else {
      assert (a + b)[0] == a[0];
      assert (a + b)[1..] == a[1..] + b;
      RatedAppend(a[1..], b);
    }
  }

  /** A row is copied exactly when it has a rate. */
  lemma {:induction false} RatedMembers(rows: seq<Indicator>, row: Indicator)
    ensures row in Rated(rows) <==> row in rows && row.growthRate.Some?
  {
    if rows != [] {
      RatedMembers(rows[1..], row);
      assert row in rows <==> row == rows[0] || row in rows[1..];
    }
  }

  /** The line of a row with a rate: `label: rate%`. */
  function CopyLine(row: Indicator): string
    requires row.growthRate.Some?
  {
    row.labelText + ": " + ShowNumber(row.growthRate.value) + "%"
  }

  /** The lines of the rated rows, in order. */
  function CopyLines(rows: seq<Indicator>): (lines: seq<string>)
    ensures |lines| == |Rated(rows)|
    ensures forall k :: 0 <= k < |lines| ==> lines[k] == CopyLine(Rated(rows)[k])
  {
    if rows == [] then []
    else if rows[0].growthRate.Some? then [CopyLine(rows[0])] + CopyLines(rows[1..])
    else CopyLines(rows[1..])
  }

  /** `copyGrowthRates`' text: the lines joined by line breaks. */
  function CopyText(rows: seq<Indicator>): string
  {
    Join(CopyLines(rows), '\n')
  }

  /** With labels on one line each, the copied text splits back into one
      line per rated row, in order, each naming the row's label and rate. */
  lemma CopyTextSplits(rows: seq<Indicator>)
    requires forall k :: 0 <= k < |rows| ==> '\n' !in rows[k].labelText
    requires |Rated(rows)| > 0
    ensures Split(CopyText(rows), '\n') == CopyLines(rows)
  {
    var lines := CopyLines(rows);
    forall k | 0 <= k < |lines| ensures '\n' !in lines[k] {
      var row := Rated(rows)[k];
      ShowNumberSingleLine(row.growthRate.value);
      assert row in rows;
      assert lines[k] == row.labelText + ": " + ShowNumber(row.growthRate.value) + "%";
    }
    SplitJoin(lines, '\n');
  }

  // ---------------------------------------------------------------------
  // The component

  /** The calculator's state: the table and the "copied" flag. */
  class Calculator {
    var indicators: seq<Indicator>
    var copied: bool

    /** The table keeps its six rows, with the names and labels it
        started with. */
    predicate Valid()
      reads this
    {
      && |indicators| == |InitialIndicators|
      && forall k :: 0 <= k < |indicators| ==>
           indicators[k].name == InitialIndicators[k].name && indicators[k].labelText == InitialIndicators[k].labelText
    }

    constructor ()
      ensures Valid() && indicators == InitialIndicators && !copied
    {
      indicators := InitialIndicators;
      copied := false;
    }

    /** `handleInputChange`: the table is copied, one input of one row is
        written, and the copy replaces the table. */
    method HandleInputChange(index: nat, field: Field, value: string)
      requires Valid() && index < |indicators|
      modifies this
      ensures Valid()
      ensures indicators == Edited(old(indicators), index, field, value)
      ensures copied == old(copied)
    {
      var newIndicators := indicators;
      var row := newIndicators[index];
      match field {
        case PreviousYear => row := row.(previousYear := value);
        case CurrentYear => row := row.(currentYear := value);
      }
      newIndicators := newIndicators[index := row];
      indicators := newIndicators;
    }

    /** `handleCalculate`. */
    method HandleCalculate()
      requires Valid()
      modifies this
      ensures Valid()
      ensures indicators == Calculated(old(indicators))
      ensures copied == old(copied)
    {
      indicators := Calculated(indicators);
    }

    /** `handleReset`. */
    method HandleReset()
      requires Valid()
      modifies this
      ensures Valid()
      ensures indicators == Reset(old(indicators))
      ensures copied == old(copied)
    {
      indicators := Reset(indicators);
    }

    /** `copyGrowthRates`: the text handed to the clipboard; the "copied"
        flag goes up. */
    method CopyGrowthRates() returns (text: string)
      requires Valid()
      modifies this
      ensures Valid()
      ensures text == CopyText(indicators) && copied
      ensures indicators == old(indicators)
    {
      text := CopyText(indicators);
      copied := true;
    }

    /** The timer set by `copyGrowthRates` lowers the flag again. */
    method CopiedTimeout()
      requires Valid()
      modifies this
      ensures Valid()
      ensures !copied && indicators == old(indicators)
    {
      copied := false;
    }
  }
}
