/**
 * The two monthly series: twelve historical months synthesized from
 * injected random draws and trigonometric terms, and twelve predicted
 * months projected from the last historical record.
 */
module Series {
  import opened Emissions

  const Months: seq<string> := ["Jan", "Feb", "Mar", "Apr", "May", "Jun",
                                "Jul", "Aug", "Sep", "Oct", "Nov", "Dec"]

  /** June, July and August (month indices 5 to 7). */
  predicate IsSummer(m: int) { 5 <= m <= 7 }

  /** January, February, November and December. */
  predicate IsWinter(m: int) { m <= 1 || m >= 10 }

  /**
   * The per-month values of Math.sin(m / 2) or Math.cos(m / 3) for the
   * month indices 0 to 11, injected as data.
   */
  predicate IsTrigTable(t: seq<real>) { |t| == 12 }

  /** As IsTrigTable, with the range every sine and cosine has. */
  predicate IsBoundedTrigTable(t: seq<real>) {
    IsTrigTable(t) && forall m :: 0 <= m < 12 ==> -1.0 <= t[m] <= 1.0
  }

  datatype MonthlyRecord = MonthlyRecord(
    month: string,
    electricity: int,
    water: int,
    gas: int,
    carbon: Carbon,
    isPrediction: bool)

  predicate CarbonDerived(r: MonthlyRecord) {
    IsDerived(r.electricity, r.water, r.gas, r.carbon)
  }

  /** The record after the carbon fields are assigned from its raw figures. */
  function WithCarbon(r: MonthlyRecord): (d: MonthlyRecord)
    ensures CarbonDerived(d)
    ensures d.month == r.month && d.isPrediction == r.isPrediction
    ensures d.electricity == r.electricity && d.water == r.water && d.gas == r.gas
  {
    r.(carbon := Derive(r.electricity, r.water, r.gas))
  }

  // ---------------------------------------------------------------------
  // Historical series

  /** Raw figures of historical month i, drawing noise from draws[3i .. 3i+2]. */
  function HistoricalUsage(i: nat, draws: seq<real>, sinHalf: seq<real>, cosThird: seq<real>): MonthlyRecord
    requires i < 12 && |draws| == 36 && IsTrigTable(sinHalf) && IsTrigTable(cosThird)
  {
    MonthlyRecord(
      Months[i],
      Round(150000.0 + 50000.0 * sinHalf[i] + (if IsSummer(i) then 80000.0 else 0.0) + draws[3 * i] * 20000.0),
      Round(80000.0 + 20000.0 * cosThird[i] + draws[3 * i + 1] * 5000.0),
      Round(30000.0 + 40000.0 * (if IsWinter(i) then 1.5 else 0.5) + draws[3 * i + 2] * 5000.0),
      Unset,
      false)
  }

  /** The historical series the generator returns. */
  function Historical(draws: seq<real>, sinHalf: seq<real>, cosThird: seq<real>): seq<MonthlyRecord>
    requires |draws| == 36 && IsTrigTable(sinHalf) && IsTrigTable(cosThird)
  {
    seq(12, i requires 0 <= i < 12 => WithCarbon(HistoricalUsage(i, draws, sinHalf, cosThird)))
  }

  /**
   * Twelve months in calendar order, none flagged as a prediction, each
   * carrying the derivation invariant.
   */
  lemma HistoricalShape(draws: seq<real>, sinHalf: seq<real>, cosThird: seq<real>)
    requires |draws| == 36 && IsTrigTable(sinHalf) && IsTrigTable(cosThird)
    ensures var h := Historical(draws, sinHalf, cosThird);
      && |h| == 12
      && (forall i :: 0 <= i < 12 ==> h[i].month == Months[i])
      && (forall i :: 0 <= i < 12 ==> !h[i].isPrediction && CarbonDerived(h[i]))
  {
  }

  /**
   * Gas involves no trigonometry: winter gas is 90000 plus up to 5000 of
   * noise, every other month's 50000 plus up to 5000.
   */
  lemma HistoricalGasSeason(draws: seq<real>, sinHalf: seq<real>, cosThird: seq<real>, i: nat)
    requires IsRandomStream(draws, 36) && IsTrigTable(sinHalf) && IsTrigTable(cosThird) && i < 12
    ensures var g := Historical(draws, sinHalf, cosThird)[i].gas;
      && g == Round((if IsWinter(i) then 90000.0 else 50000.0) + draws[3 * i + 2] * 5000.0)
      && if IsWinter(i) then 90000 <= g <= 95000 else 50000 <= g <= 55000
  {
    var r := draws[3 * i + 2];
    assert 0.0 <= r < 1.0;
    var x := 30000.0 + 40000.0 * (if IsWinter(i) then 1.5 else 0.5) + r * 5000.0;
    assert x == (if IsWinter(i) then 90000.0 else 50000.0) + r * 5000.0;
    if IsWinter(i) {
      RoundBetween(x, 90000, 95000);
    } else {
      RoundBetween(x, 50000, 55000);
    }
  }

  /**
   * July without noise: with sin(3) = 0.14112..., 230000 + 50000 sin(3) is
   * just above 237056, so July uses 237056 kWh, which is 186 t of CO2.
   */
  lemma JulyScenario(draws: seq<real>, sinHalf: seq<real>, cosThird: seq<real>)
    requires |draws| == 36 && IsTrigTable(sinHalf) && IsTrigTable(cosThird)
    requires draws[18] == 0.0 && 0.14112 <= sinHalf[6] <= 0.141121
    ensures Historical(draws, sinHalf, cosThird)[6].electricity == 237056
    ensures Historical(draws, sinHalf, cosThird)[6].carbon.electricity == 186
  {
    var x := 150000.0 + 50000.0 * sinHalf[6] + 80000.0 + draws[18] * 20000.0;
    assert 237056.0 <= x <= 237056.05;
    assert Round(x) == 237056;
  }

  /**
   * Summer months carry the 80000 kWh uplift: with bounded trigonometric
   * terms, summer electricity lies in [180000, 300000] and every other
   * month's in [100000, 220000].
   */
  lemma HistoricalElectricitySeason(draws: seq<real>, sinHalf: seq<real>, cosThird: seq<real>, i: nat)
    requires IsRandomStream(draws, 36) && IsBoundedTrigTable(sinHalf) && IsTrigTable(cosThird) && i < 12
    ensures var e := Historical(draws, sinHalf, cosThird)[i].electricity;
      if IsSummer(i) then 180000 <= e <= 300000 else 100000 <= e <= 220000
  {
    var r := draws[3 * i];
    assert 0.0 <= r < 1.0 && -1.0 <= sinHalf[i] <= 1.0;
    var x := 150000.0 + 50000.0 * sinHalf[i] + (if IsSummer(i) then 80000.0 else 0.0) + r * 20000.0;
    if IsSummer(i) {
      RoundBetween(x, 180000, 300000);
    } else {
      RoundBetween(x, 100000, 220000);
    }
  }

  /**
   * generateHistoricalData: a loop that pushes the twelve raw records,
   * then a pass that assigns the carbon fields of each record in place.
   */
  method GenerateHistoricalData(draws: seq<real>, sinHalf: seq<real>, cosThird: seq<real>)
    returns (data: seq<MonthlyRecord>)
    requires IsRandomStream(draws, 36) && IsTrigTable(sinHalf) && IsTrigTable(cosThird)
    ensures data == Historical(draws, sinHalf, cosThird)
    ensures |data| == 12 && forall i :: 0 <= i < 12 ==> data[i].month == Months[i]
    ensures forall i :: 0 <= i < 12 ==> !data[i].isPrediction && CarbonDerived(data[i])
    ensures forall i :: 0 <= i < 12 ==>
      if IsWinter(i) then 90000 <= data[i].gas <= 95000 else 50000 <= data[i].gas <= 55000
  {
    data := [];
    for i := 0 to 12
      invariant |data| == i
      invariant forall k :: 0 <= k < i ==> data[k] == HistoricalUsage(k, draws, sinHalf, cosThird)
    {
      var isSummer := i >= 5 && i <= 7;
      var isWinter := i <= 1 || i >= 10;
      var record := MonthlyRecord(
        Months[i],
        Round(150000.0 + 50000.0 * sinHalf[i] + (if isSummer then 80000.0 else 0.0) + draws[3 * i] * 20000.0),
        Round(80000.0 + 20000.0 * cosThird[i] + draws[3 * i + 1] * 5000.0),
        Round(30000.0 + 40000.0 * (if isWinter then 1.5 else 0.5) + draws[3 * i + 2] * 5000.0),
        Unset,
        false);
      assert record == HistoricalUsage(i, draws, sinHalf, cosThird);
      data := data + [record];
    }
    for i := 0 to 12
      invariant |data| == 12
      invariant forall k :: 0 <= k < i ==> data[k] == WithCarbon(HistoricalUsage(k, draws, sinHalf, cosThird))
      invariant forall k :: i <= k < 12 ==> data[k] == HistoricalUsage(k, draws, sinHalf, cosThird)
    {
      data := data[i := WithCarbon(data[i])];
    }
    HistoricalShape(draws, sinHalf, cosThird);
    forall i | 0 <= i < 12
      ensures if IsWinter(i) then 90000 <= data[i].gas <= 95000 else 50000 <= data[i].gas <= 55000
    {
      HistoricalGasSeason(draws, sinHalf, cosThird, i);
    }
  }

  // ---------------------------------------------------------------------
  // Prediction series

  datatype Error = EmptyHistory

  datatype Result<T> = Success(value: T) | Failure(error: Error)

  /** 0.5% growth per month ahead: 1 + i * 0.005. */
  function TrendFactor(i: nat): (t: real)
    ensures 1.0 <= t && 200.0 * t == 200.0 + i as real
  {
    1.0 + i as real * 0.005
  }

  /** Month index, for prediction offset i, continuing the cycle after len months of history. */
  function PredictedMonth(len: nat, i: nat): (m: nat)
    ensures m < 12
  {
    (len + i) % 12
  }

  /** A projected figure: x grown by the trend of offset i, then rounded. */
  function Projected(x: real, i: nat): int {
    Round(x * TrendFactor(i))
  }

  /** The trend never lowers a non-negative figure. */
  lemma ProjectedAtLeast(x: real, i: nat)
    requires 0.0 <= x
    ensures Projected(x, i) >= Round(x)
  {
    var t := TrendFactor(i);
    assert x * t - x == x * (t - 1.0);
    MulNonNegative(x, t - 1.0);
    RoundMonotone(x, x * t);
  }

  /** The trend of offset i is a growth by i/200. */
  lemma ProjectedByTrend(x: real, i: nat)
    ensures Projected(x, i) == Round(x * (1.0 + i as real / 200.0))
  {
    var t := TrendFactor(i);
    assert t == 1.0 + i as real / 200.0;
  }

  lemma MulNonNegative(a: real, b: real)
    requires 0.0 <= a && 0.0 <= b
    ensures 0.0 <= a * b
  {
  }

  /**
   * Raw figures of the prediction at offset i for calendar month m:
   * the last record's figures plus the seasonal terms, without noise,
   * grown by the trend.
   */
  function PredictedUsage(last: MonthlyRecord, m: nat, i: nat, sinHalf: seq<real>, cosThird: seq<real>): MonthlyRecord
    requires m < 12 && IsTrigTable(sinHalf) && IsTrigTable(cosThird)
  {
    MonthlyRecord(
      Months[m],
      Projected(last.electricity as real + 50000.0 * sinHalf[m] + (if IsSummer(m) then 80000.0 else 0.0), i),
      Projected(last.water as real + 20000.0 * cosThird[m], i),
      Projected(last.gas as real + 40000.0 * (if IsWinter(m) then 1.5 else 0.5), i),
      Unset,
      true)
  }

  /**
   * The prediction the generator returns: a failure on an empty history,
   * whose last record does not exist; otherwise twelve projected records.
   */
  function Predicted(history: seq<MonthlyRecord>, sinHalf: seq<real>, cosThird: seq<real>): Result<seq<MonthlyRecord>>
    requires IsTrigTable(sinHalf) && IsTrigTable(cosThird)
  {
    if history == [] then Failure(EmptyHistory)
    else
      var last := history[|history| - 1];
      Success(seq(12, i requires 0 <= i < 12 =>
        WithCarbon(PredictedUsage(last, PredictedMonth(|history|, i), i, sinHalf, cosThird))))
  }

  /**
   * generatePredictionData: reads the last historical record, pushes twelve
   * projected records, then assigns their carbon fields in place.
   */
  method GeneratePredictionData(history: seq<MonthlyRecord>, sinHalf: seq<real>, cosThird: seq<real>)
    returns (result: Result<seq<MonthlyRecord>>)
    requires IsTrigTable(sinHalf) && IsTrigTable(cosThird)
    ensures result == Predicted(history, sinHalf, cosThird)
    ensures result.Failure? <==> history == []
    ensures result.Success? ==> |result.value| == 12
    ensures result.Success? ==> forall i :: 0 <= i < 12 ==>
      && result.value[i].month == Months[(|history| + i) % 12]
      && result.value[i].isPrediction
      && CarbonDerived(result.value[i])
  {
    if |history| == 0 {
      return Failure(EmptyHistory);
    }
    var lastMonth := history[|history| - 1];
    var predictions: seq<MonthlyRecord> := [];
    for i := 0 to 12
      invariant |predictions| == i
      invariant forall k :: 0 <= k < i ==>
        predictions[k] == PredictedUsage(lastMonth, PredictedMonth(|history|, k), k, sinHalf, cosThird)
    {
      var monthIndex := (|history| + i) % 12;
      var isSummer := monthIndex >= 5 && monthIndex <= 7;
      var isWinter := monthIndex <= 1 || monthIndex >= 10;
      var prediction := MonthlyRecord(
        Months[monthIndex],
        Projected(lastMonth.electricity as real + 50000.0 * sinHalf[monthIndex] + (if isSummer then 80000.0 else 0.0), i),
        Projected(lastMonth.water as real + 20000.0 * cosThird[monthIndex], i),
        Projected(lastMonth.gas as real + 40000.0 * (if isWinter then 1.5 else 0.5), i),
        Unset,
        true);
      assert monthIndex == PredictedMonth(|history|, i);
      assert prediction == PredictedUsage(lastMonth, monthIndex, i, sinHalf, cosThird);
      predictions := predictions + [prediction];
    }
    for i := 0 to 12
      invariant |predictions| == 12
      invariant forall k :: 0 <= k < i ==>
        predictions[k] == WithCarbon(PredictedUsage(lastMonth, PredictedMonth(|history|, k), k, sinHalf, cosThird))
      invariant forall k :: i <= k < 12 ==>
        predictions[k] == PredictedUsage(lastMonth, PredictedMonth(|history|, k), k, sinHalf, cosThird)
    {
      predictions := predictions[i := WithCarbon(predictions[i])];
    }
    assert predictions == seq(12, i requires 0 <= i < 12 =>
      WithCarbon(PredictedUsage(lastMonth, PredictedMonth(|history|, i), i, sinHalf, cosThird)));
    result := Success(predictions);
    PredictedShape(history, sinHalf, cosThird);
  }

  /**
   * Twelve records flagged as predictions, labelled by the month cycle
   * continuing after the history, each carrying the derivation invariant.
   */
  lemma PredictedShape(history: seq<MonthlyRecord>, sinHalf: seq<real>, cosThird: seq<real>)
    requires IsTrigTable(sinHalf) && IsTrigTable(cosThird)
    ensures var p := Predicted(history, sinHalf, cosThird);
      && (p.Failure? <==> history == [])
      && (p.Success? ==> |p.value| == 12)
      && (p.Success? ==> forall i :: 0 <= i < 12 ==>
        && p.value[i].month == Months[(|history| + i) % 12]
        && p.value[i].isPrediction
        && CarbonDerived(p.value[i]))
  {
  }

  /**
   * The projection uses no randomness and no record but the last: two
   * histories with the same last record, whose lengths agree modulo 12,
   * give the same prediction.
   */
  lemma PredictionDependsOnlyOnLast(h1: seq<MonthlyRecord>, h2: seq<MonthlyRecord>, sinHalf: seq<real>, cosThird: seq<real>)
    requires IsTrigTable(sinHalf) && IsTrigTable(cosThird)
    requires h1 != [] && h2 != [] && h1[|h1| - 1] == h2[|h2| - 1]
    requires |h1| % 12 == |h2| % 12
    ensures Predicted(h1, sinHalf, cosThird) == Predicted(h2, sinHalf, cosThird)
  {
    var last := h1[|h1| - 1];
    var p1 := seq(12, i requires 0 <= i < 12 =>
      WithCarbon(PredictedUsage(last, PredictedMonth(|h1|, i), i, sinHalf, cosThird)));
    var p2 := seq(12, i requires 0 <= i < 12 =>
      WithCarbon(PredictedUsage(last, PredictedMonth(|h2|, i), i, sinHalf, cosThird)));
    forall i | 0 <= i < 12 ensures p1[i] == p2[i] {
      ModAddCongruent(|h1|, |h2|, i);
    }
    assert p1 == p2;
  }

  lemma ModAddCongruent(a: nat, b: nat, i: nat)
    requires a % 12 == b % 12
    ensures PredictedMonth(a, i) == PredictedMonth(b, i)
  {
    assert a == 12 * (a / 12) + a % 12;
    assert b == 12 * (b / 12) + b % 12;
    assert (a + i) - (b + i) == 12 * (a / 12 - b / 12);
  }

  /**
   * On a full year of history the projection is the next January to
   * December, month for month the labels of the history.
   */
  lemma PredictionAfterFullYear(draws: seq<real>, sinHalf: seq<real>, cosThird: seq<real>)
    requires |draws| == 36 && IsTrigTable(sinHalf) && IsTrigTable(cosThird)
    ensures var h := Historical(draws, sinHalf, cosThird);
      var p := Predicted(h, sinHalf, cosThird);
      && p.Success? && |p.value| == 12
      && forall i :: 0 <= i < 12 ==> p.value[i].month == Months[i] == h[i].month && p.value[i].isPrediction
  {
    var h := Historical(draws, sinHalf, cosThird);
    forall i | 0 <= i < 12 ensures PredictedMonth(|h|, i) == i {
      assert (12 + i) % 12 == i;
    }
  }

  /**
   * Predicted gas is the last month's gas plus 60000 in winter or 20000
   * otherwise, times 1 + i/200.
   */
  lemma PredictedGas(last: MonthlyRecord, m: nat, i: nat, sinHalf: seq<real>, cosThird: seq<real>)
    requires m < 12 && IsTrigTable(sinHalf) && IsTrigTable(cosThird)
    ensures PredictedUsage(last, m, i, sinHalf, cosThird).gas
      == Round((last.gas as real + (if IsWinter(m) then 60000.0 else 20000.0)) * (1.0 + i as real / 200.0))
  {
    var seasonal := last.gas as real + 40000.0 * (if IsWinter(m) then 1.5 else 0.5);
    assert PredictedUsage(last, m, i, sinHalf, cosThird).gas == Projected(seasonal, i);
    assert seasonal == last.gas as real + (if IsWinter(m) then 60000.0 else 20000.0);
    ProjectedByTrend(seasonal, i);
  }

  /** For non-negative last gas, predicted gas is at least 20000 above it. */
  lemma PredictedGasGrowth(last: MonthlyRecord, m: nat, i: nat, sinHalf: seq<real>, cosThird: seq<real>)
    requires m < 12 && IsTrigTable(sinHalf) && IsTrigTable(cosThird) && 0 <= last.gas
    ensures PredictedUsage(last, m, i, sinHalf, cosThird).gas >= last.gas + 20000
  {
    var base := last.gas as real + 40000.0 * (if IsWinter(m) then 1.5 else 0.5);
    ProjectedAtLeast(base, i);
    RoundMonotone((last.gas + 20000) as real, base);
  }

  /**
   * The gas of the prediction at offset i, as returned: the last record's
   * gas plus the seasonal term of the wrapped month, grown by i/200; for
   * non-negative last gas at least 20000 above it.
   */
  lemma PredictionGas(history: seq<MonthlyRecord>, sinHalf: seq<real>, cosThird: seq<real>, i: nat)
    requires IsTrigTable(sinHalf) && IsTrigTable(cosThird) && history != [] && i < 12
    ensures var last := history[|history| - 1];
      var g := Predicted(history, sinHalf, cosThird).value[i].gas;
      && g == Round((last.gas as real + (if IsWinter(PredictedMonth(|history|, i)) then 60000.0 else 20000.0))
                    * (1.0 + i as real / 200.0))
      && (0 <= last.gas ==> g >= last.gas + 20000)
  {
    var last := history[|history| - 1];
    var m := PredictedMonth(|history|, i);
    assert Predicted(history, sinHalf, cosThird).value[i].gas == PredictedUsage(last, m, i, sinHalf, cosThird).gas;
    PredictedGas(last, m, i, sinHalf, cosThird);
    if 0 <= last.gas {
      PredictedGasGrowth(last, m, i, sinHalf, cosThird);
    }
  }
}
