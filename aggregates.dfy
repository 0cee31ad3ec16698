/**
 * Folds over a monthly series: yearly totals of the raw figures and of
 * total carbon, and the split of carbon into its three sources with
 * percentages rounded to one decimal.
 */
module Aggregates {
  import opened Emissions
  import opened Series

  /** The numeric fields of a monthly record a fold can sum. */
  datatype Field = Electricity | Water | Gas | CarbonElectricity | CarbonWater | CarbonGas | TotalCarbon

  function FieldOf(r: MonthlyRecord, f: Field): int {
    match f
    case Electricity => r.electricity
    case Water => r.water
    case Gas => r.gas
    case CarbonElectricity => r.carbon.electricity
    case CarbonWater => r.carbon.water
    case CarbonGas => r.carbon.gas
    case TotalCarbon => r.carbon.total
  }

  /** data.reduce((sum, item) => sum + item.f, 0): a left fold from 0. */
  function Sum(data: seq<MonthlyRecord>, f: Field): int
    decreases |data|
  {
    if data == [] then 0 else Sum(data[..|data| - 1], f) + FieldOf(data[|data| - 1], f)
  }

  /** Appending a record adds exactly its field to the fold. */
  lemma SumAppend(data: seq<MonthlyRecord>, r: MonthlyRecord, f: Field)
    ensures Sum(data + [r], f) == Sum(data, f) + FieldOf(r, f)
  {
    assert (data + [r])[..|data|] == data;
  }

  /** The fold distributes over concatenation. */
  lemma {:induction false} SumConcat(a: seq<MonthlyRecord>, b: seq<MonthlyRecord>, f: Field)
    ensures Sum(a + b, f) == Sum(a, f) + Sum(b, f)
    decreases |b|
  {
    if b == [] {
      assert a + b == a;
    } else {
      var init := b[..|b| - 1];
      var r := b[|b| - 1];
      assert b == init + [r];
      assert a + b == (a + init) + [r];
      SumAppend(a + init, r, f);
      SumConcat(a, init, f);
      SumAppend(init, r, f);
    }
  }

  /** The fold over a single record is that record's field. */
  lemma SumSingleton(r: MonthlyRecord, f: Field)
    ensures Sum([r], f) == FieldOf(r, f)
  {
    assert [r][..0] == [];
  }

  /** Summing non-negative fields gives a non-negative total. */
  lemma {:induction false} SumNonNegative(data: seq<MonthlyRecord>, f: Field)
    requires forall k :: 0 <= k < |data| ==> 0 <= FieldOf(data[k], f)
    ensures 0 <= Sum(data, f)
    decreases |data|
  {
    if data != [] {
      SumNonNegative(data[..|data| - 1], f);
    }
  }

  /** The sum of the three carbon folds equals the fold of total carbon on derived records. */
  lemma {:induction false} SumOfSources(data: seq<MonthlyRecord>)
    requires forall k :: 0 <= k < |data| ==> CarbonDerived(data[k])
    ensures Sum(data, TotalCarbon)
      == Sum(data, CarbonElectricity) + Sum(data, CarbonWater) + Sum(data, CarbonGas)
    decreases |data|
  {
    if data != [] {
      SumOfSources(data[..|data| - 1]);
    }
  }

  // ---------------------------------------------------------------------
  // calculateYearlyData

  datatype YearlyTotals = YearlyTotals(electricity: int, water: int, gas: int, totalCarbon: int)

  function CalculateYearlyData(data: seq<MonthlyRecord>): YearlyTotals {
    YearlyTotals(Sum(data, Electricity), Sum(data, Water), Sum(data, Gas), Sum(data, TotalCarbon))
  }

  /** The totals of an empty series are all zero. */
  lemma YearlyOfEmpty()
    ensures CalculateYearlyData([]) == YearlyTotals(0, 0, 0, 0)
  {
  }

  /** Appending a record adds exactly its four summed fields. */
  lemma YearlyAppend(data: seq<MonthlyRecord>, r: MonthlyRecord)
    ensures var y := CalculateYearlyData(data);
      CalculateYearlyData(data + [r])
        == YearlyTotals(y.electricity + r.electricity, y.water + r.water,
                        y.gas + r.gas, y.totalCarbon + r.carbon.total)
  {
    SumAppend(data, r, Electricity);
    SumAppend(data, r, Water);
    SumAppend(data, r, Gas);
    SumAppend(data, r, TotalCarbon);
  }

  /** The totals of two consecutive stretches add up to the totals of both. */
  lemma YearlyConcat(a: seq<MonthlyRecord>, b: seq<MonthlyRecord>)
    ensures var ya, yb := CalculateYearlyData(a), CalculateYearlyData(b);
      CalculateYearlyData(a + b)
        == YearlyTotals(ya.electricity + yb.electricity, ya.water + yb.water,
                        ya.gas + yb.gas, ya.totalCarbon + yb.totalCarbon)
  {
    SumConcat(a, b, Electricity);
    SumConcat(a, b, Water);
    SumConcat(a, b, Gas);
    SumConcat(a, b, TotalCarbon);
  }

  // ---------------------------------------------------------------------
  // calculateCarbonSources

  /**
   * A share as an IEEE double can hold it: a finite percentage, or the NaN
   * of 0 / 0, or the infinity of a non-zero value divided by a zero total.
   */
  datatype Percentage = Finite(percent: real) | NaN | Infinite(positive: bool)

  datatype SourceShare = SourceShare(name: string, value: int, percentage: Percentage)

  /** The percentage of a carbon amount in a total: one decimal, half-up. */
  function Percent(value: int, total: int): (p: Percentage)
    ensures p.Finite? <==> total != 0
    ensures total != 0 ==>
      var exact := value as real / total as real * 100.0;
      && exact - 0.05 < p.percent <= exact + 0.05
      && (p.percent * 10.0).Floor as real == p.percent * 10.0
    ensures total == 0 ==> (p.NaN? <==> value == 0) && (p.Infinite? ==> (p.positive <==> 0 < value))
  {
    if total == 0 then
      if value == 0 then NaN else Infinite(0 < value)
    else
      Finite(Round(value as real / total as real * 1000.0) as real / 10.0)
  }

  /** Percentages of a non-negative part of a positive total lie in [0, 100]. */
  lemma PercentBounds(value: int, total: int)
    requires 0 < total && 0 <= value <= total
    ensures 0.0 <= Percent(value, total).percent <= 100.0
  {
    var q := value as real / total as real;
    QuotientInUnit(value as real, total as real);
    RoundBetween(q * 1000.0, 0, 1000);
  }

  lemma QuotientInUnit(v: real, t: real)
    requires 0.0 < t && 0.0 <= v <= t
    ensures 0.0 <= v / t <= 1.0
  {
  }

  lemma QuotientSum(a: real, b: real, c: real, t: real)
    requires t != 0.0 && a + b + c == t
    ensures a / t + b / t + c / t == 1.0
  {
  }

  /** The grand total of carbon over the three sources. */
  function SourceTotal(data: seq<MonthlyRecord>): int {
    Sum(data, CarbonElectricity) + Sum(data, CarbonWater) + Sum(data, CarbonGas)
  }

  /** Electricity, Water and Natural Gas, in that order, with their shares of the total. */
  function CalculateCarbonSources(data: seq<MonthlyRecord>): (shares: seq<SourceShare>)
    ensures |shares| == 3
    ensures shares[0].name == "Electricity" && shares[1].name == "Water" && shares[2].name == "Natural Gas"
    ensures shares[0].value == Sum(data, CarbonElectricity)
    ensures shares[1].value == Sum(data, CarbonWater)
    ensures shares[2].value == Sum(data, CarbonGas)
    ensures shares[0].value + shares[1].value + shares[2].value == SourceTotal(data)
    ensures forall k :: 0 <= k < 3 ==>
      shares[k].percentage == Percent(shares[k].value, SourceTotal(data))
  {
    var totalElectricity := Sum(data, CarbonElectricity);
    var totalWater := Sum(data, CarbonWater);
    var totalGas := Sum(data, CarbonGas);
    var total := totalElectricity + totalWater + totalGas;
    [SourceShare("Electricity", totalElectricity, Percent(totalElectricity, total)),
     SourceShare("Water", totalWater, Percent(totalWater, total)),
     SourceShare("Natural Gas", totalGas, Percent(totalGas, total))]
  }

  /**
   * With a non-zero total the three percentages are finite and, each
   * rounded by at most 0.05, sum to within 0.15 of 100.
   */
  lemma SharesSumNearHundred(data: seq<MonthlyRecord>)
    requires SourceTotal(data) != 0
    ensures var s := CalculateCarbonSources(data);
      && s[0].percentage.Finite? && s[1].percentage.Finite? && s[2].percentage.Finite?
      && var sum := s[0].percentage.percent + s[1].percentage.percent + s[2].percentage.percent;
         99.85 < sum <= 100.15
  {
    var s := CalculateCarbonSources(data);
    var t := SourceTotal(data);
    QuotientSum(s[0].value as real, s[1].value as real, s[2].value as real, t as real);
  }

  /**
   * When every record holds non-negative carbon figures and the total is
   * positive, every percentage lies in [0, 100].
   */
  lemma SharesWithinBounds(data: seq<MonthlyRecord>)
    requires forall k :: 0 <= k < |data| ==>
      0 <= data[k].carbon.electricity && 0 <= data[k].carbon.water && 0 <= data[k].carbon.gas
    requires 0 < SourceTotal(data)
    ensures var s := CalculateCarbonSources(data);
      forall k :: 0 <= k < 3 ==> s[k].percentage.Finite? && 0.0 <= s[k].percentage.percent <= 100.0
  {
    var s := CalculateCarbonSources(data);
    SumNonNegative(data, CarbonElectricity);
    SumNonNegative(data, CarbonWater);
    SumNonNegative(data, CarbonGas);
    PercentBounds(s[0].value, SourceTotal(data));
    PercentBounds(s[1].value, SourceTotal(data));
    PercentBounds(s[2].value, SourceTotal(data));
  }

  /** On derived records the sources add up to the yearly total carbon. */
  lemma SourcesMatchYearly(data: seq<MonthlyRecord>)
    requires forall k :: 0 <= k < |data| ==> CarbonDerived(data[k])
    ensures var s := CalculateCarbonSources(data);
      s[0].value + s[1].value + s[2].value == CalculateYearlyData(data).totalCarbon
  {
    SumOfSources(data);
  }
}
