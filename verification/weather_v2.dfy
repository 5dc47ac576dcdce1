/** The aggregate weather classifier of the v2 API: wet-sample ratio and column
    means over a weather frame, then a first-match cascade (windy, humid,
    rainy / rainy_clearing, drizzle, dry). */
module AnalyzeWeather {
  import opened PyValue
  import opened Stats

  datatype Condition = Dry | Drizzle | Rainy | RainyClearing | Windy | Humid | Unknown

  /** The `Rainfall` column. pandas gives it dtype bool only when every cell is
      a Python bool; every other column is read through the text of its cells
      (`astype(str)`), which is what `TextColumn` holds. */
  datatype RainfallColumn =
    | BoolColumn(flags: seq<bool>)
    | TextColumn(texts: seq<string>)

  /** A column whose `.mean()` is taken: a `None` cell is NaN (skipped by the
      mean); `Unaveragable` is a column whose mean raises (non-numeric cells). */
  datatype NumericColumn = Numbers(cells: seq<Option<real>>) | Unaveragable

  /** The frame built from the weather records: its row count and the four
      columns the analyser reads, each `None` when the frame has no such column.
      Only these capitalised column names are read. */
  datatype WeatherFrame = WeatherFrame(
    rows: nat,
    rainfall: Option<RainfallColumn>,
    airTemp: Option<NumericColumn>,
    humidity: Option<NumericColumn>,
    windSpeed: Option<NumericColumn>)

  /** The analysis result; the averages are `None` where pandas gives NaN
      (a column with no values). */
  datatype Analysis = Analysis(
    condition: Condition,
    ratio: real,
    averageTemperature: Option<real>,
    averageHumidity: Option<real>,
    windSpeed: Option<real>)

  function Length(c: RainfallColumn): nat
  {
    match c
    case BoolColumn(f) => |f|
    case TextColumn(t) => |t|
  }

  predicate ColumnFits(c: Option<NumericColumn>, rows: nat)
  {
    c.Some? && c.value.Numbers? ==> |c.value.cells| == rows
  }

  /** Every column of a DataFrame has one cell per row. */
  predicate Rectangular(df: WeatherFrame)
  {
    && (df.rainfall.Some? ==> Length(df.rainfall.value) == df.rows)
    && ColumnFits(df.airTemp, df.rows)
    && ColumnFits(df.humidity, df.rows)
    && ColumnFits(df.windSpeed, df.rows)
  }

  // ---------------------------------------------------------------------
  // Wet samples

  /** `str.lower()` restricted to ASCII; no other character lowercases to any
      letter of "true" or to "1", so the comparisons below are unaffected. */
  function LowerChar(c: char): char
  {
    if 'A' <= c <= 'Z' then (c as int + 32) as char else c
  }

  function Lower(s: string): string
  {
    seq(|s|, k requires 0 <= k < |s| => LowerChar(s[k]))
  }

  /** The wet-count map `{'true': True, '1': True, ...}` with `fillna(False)`. */
  predicate WetText(t: string)
  {
    Lower(t) == "true" || Lower(t) == "1"
  }

  /** Whether each sample is wet: the bool itself, or the wet-count map. */
  function WetFlags(c: RainfallColumn): (w: seq<bool>)
    ensures |w| == Length(c)
  {
    match c
    case BoolColumn(f) => f
    case TextColumn(t) => seq(|t|, k requires 0 <= k < |t| => WetText(t[k]))
  }

  function CountTrue(s: seq<bool>): (n: nat)
    ensures n <= |s|
  {
    if s == [] then 0 else CountTrue(s[..|s| - 1]) + (if s[|s| - 1] then 1 else 0)
  }

  /** `wet_samples`: the number of wet cells of the column. */
  function WetCount(c: RainfallColumn): (n: nat)
    ensures n <= Length(c)
  {
    CountTrue(WetFlags(c))
  }

  /** `condition_ratio`: wet samples over all samples, 0.0 without a
      `Rainfall` column. */
  function ConditionRatio(df: WeatherFrame): (ratio: real)
    requires df.rows > 0
    ensures df.rainfall.None? ==> ratio == 0.0
    ensures df.rainfall.Some? ==> ratio * df.rows as real == WetCount(df.rainfall.value) as real
    ensures 0.0 <= ratio
  {
    match df.rainfall
    case None => 0.0
    case Some(c) => WetCount(c) as real / df.rows as real
  }

  // ---------------------------------------------------------------------
  // Means

  /** `df[name].mean()`: raises (KeyError) for a missing column and for a
      column it cannot average. */
  function ColumnMean(c: Option<NumericColumn>): Outcome<Option<real>>
  {
    match c
    case None => Raised
    case Some(Unaveragable) => Raised
    case Some(Numbers(cells)) => Ok(Mean(cells))
  }

  datatype Averages = Averages(temperature: Option<real>, humidity: Option<real>, wind: Option<real>)

  /** The three averages with the source's error handling: a missing
      `WindSpeed` column gives wind 0.0, and any exception while taking the
      means resets all three to 0.0. */
  function ComputeAverages(df: WeatherFrame): (avg: Averages)
    ensures ColumnMean(df.airTemp).Raised? || ColumnMean(df.humidity).Raised? ==>
              avg == Averages(Some(0.0), Some(0.0), Some(0.0))
    ensures ColumnMean(df.airTemp).Ok? && ColumnMean(df.humidity).Ok? && df.windSpeed.None? ==>
              avg == Averages(ColumnMean(df.airTemp).value, ColumnMean(df.humidity).value, Some(0.0))
    ensures avg.temperature.None? ==> ColumnMean(df.airTemp) == Ok(None)
  {
    var t := ColumnMean(df.airTemp);
    var h := ColumnMean(df.humidity);
    var w := if df.windSpeed.None? then Ok(Some(0.0)) else ColumnMean(df.windSpeed);
    if t.Raised? || h.Raised? || w.Raised? then Averages(Some(0.0), Some(0.0), Some(0.0))
    else Averages(t.value, h.value, w.value)
  }

  // ---------------------------------------------------------------------
  // Rain trend

  /** The trend map `{'true': 1, 'false': 0, '1': 1, '0': 0, ...}` applied to
      the lowercased text of a cell; `None` (NaN) for any other text. */
  function TextMark(t: string): Option<int>
  {
    if Lower(t) == "true" || Lower(t) == "1" then Some(1)
    else if Lower(t) == "false" || Lower(t) == "0" then Some(0)
    else None
  }

  /** The 0/1 sequence the trend check differentiates. A bool cell renders as
      "True" or "False", so it always maps. */
  function Marks(c: RainfallColumn): (m: seq<Option<int>>)
    ensures |m| == Length(c)
  {
    match c
    case BoolColumn(f) => seq(|f|, k requires 0 <= k < |f| => Some(if f[k] then 1 else 0))
    case TextColumn(t) => seq(|t|, k requires 0 <= k < |t| => TextMark(t[k]))
  }

  /** Both neighbours of step k are defined, so `diff()` keeps step k. */
  predicate StepDefined(m: seq<Option<int>>, k: int)
  {
    1 <= k < |m| && m[k - 1].Some? && m[k].Some?
  }

  /** `.diff().dropna().iloc[-1]`: the change at the last defined step, `None`
      when no step is defined. */
  function LastDefinedChange(m: seq<Option<int>>): Option<int>
  {
    if |m| < 2 then None
    else if m[|m| - 2].Some? && m[|m| - 1].Some? then Some(m[|m| - 1].value - m[|m| - 2].value)
    else LastDefinedChange(m[..|m| - 1])
  }

  /** The rainy_clearing test: a `Rainfall` column, more than one sample and a
      negative last defined change. Nothing in it can raise on the modelled
      cells, so the source's fallback to rainy on an exception is not reached. */
  predicate RainIsClearing(rainfall: Option<RainfallColumn>, rows: nat)
  {
    && rainfall.Some?
    && rows > 1
    && var d := LastDefinedChange(Marks(rainfall.value));
       d.Some? && d.value < 0
  }

  /** A comparison `x > bound`; NaN compares false. */
  predicate Above(x: Option<real>, bound: real)
  {
    x.Some? && x.value > bound
  }

  /** `_determine_detailed_condition`: a first-match cascade over the ratio,
      the two averages and the rainfall column; it never answers unknown. */
  function DetailedCondition(ratio: real, humidity: Option<real>, wind: Option<real>,
                             rainfall: Option<RainfallColumn>, rows: nat): (c: Condition)
    ensures c != Unknown
  {
    if Above(wind, 30.0) then Windy
    else if Above(humidity, 80.0) then Humid
    else if ratio > 0.5 then (if RainIsClearing(rainfall, rows) then RainyClearing else Rainy)
    else if ratio > 0.1 then Drizzle
    else Dry
  }

  /** `analyze_weather_conditions` on a frame. */
  function AnalyzeWeatherConditions(df: WeatherFrame): (a: Analysis)
    ensures df.rows == 0 <==> a.condition == Unknown
    ensures df.rows == 0 ==> a == Analysis(Unknown, 0.0, Some(0.0), Some(0.0), Some(0.0))
    ensures df.rows > 0 ==>
              var avg := ComputeAverages(df);
              && a.ratio == ConditionRatio(df)
              && a.averageTemperature == avg.temperature
              && a.averageHumidity == avg.humidity
              && a.windSpeed == avg.wind
              && a.condition == DetailedCondition(ConditionRatio(df), avg.humidity, avg.wind, df.rainfall, df.rows)
  {
    if df.rows == 0 then Analysis(Unknown, 0.0, Some(0.0), Some(0.0), Some(0.0))
    else
      var ratio := ConditionRatio(df);
      var avg := ComputeAverages(df);
      Analysis(DetailedCondition(ratio, avg.humidity, avg.wind, df.rainfall, df.rows),
               ratio, avg.temperature, avg.humidity, avg.wind)
  }

  // ---------------------------------------------------------------------
  // Properties

  /** With a `Rainfall` column the ratio is the wet fraction of the samples,
      so it lies in [0, 1]; without one it is 0.0. */
  lemma RatioIsWetFraction(df: WeatherFrame)
    requires Rectangular(df) && df.rows > 0
    ensures 0.0 <= ConditionRatio(df) <= 1.0
    ensures df.rainfall.None? ==> ConditionRatio(df) == 0.0
    ensures df.rainfall.Some? ==> ConditionRatio(df) * df.rows as real == WetCount(df.rainfall.value) as real
  {
    if df.rainfall.Some? {
      QuotientBounds(WetCount(df.rainfall.value) as real, df.rows as real, 0.0, 1.0);
    }
  }

  /** A character lowercases to a given lowercase letter or digit exactly
      when it is that character or, for a letter, its capital. */
  lemma LowerCharIs(c: char, l: char)
    requires 'a' <= l <= 'z' || '0' <= l <= '9'
    ensures LowerChar(c) == l <==> c == l || ('a' <= l <= 'z' && c as int == l as int - 32)
  {
  }

  /** A text cell counts as wet exactly when it is "1" or "true" in any
      mixture of cases; "0", "5.2", "1.0" or "yes" are dry. */
  lemma WetTextForms(t: string)
    ensures WetText(t) <==>
      || t == "1"
      || (&& |t| == 4
          && (t[0] == 't' || t[0] == 'T') && (t[1] == 'r' || t[1] == 'R')
          && (t[2] == 'u' || t[2] == 'U') && (t[3] == 'e' || t[3] == 'E'))
  {
    var l := Lower(t);
    if |t| == 1 {
      LowerCharIs(t[0], '1');
      assert l == "1" <==> l[0] == '1';
    } else if |t| == 4 {
      LowerCharIs(t[0], 't');
      LowerCharIs(t[1], 'r');
      LowerCharIs(t[2], 'u');
      LowerCharIs(t[3], 'e');
      assert l == "true" <==> l[0] == 't' && l[1] == 'r' && l[2] == 'u' && l[3] == 'e';
    } else {
      assert |l| != 1 && |l| != 4;
    }
  }

  lemma DryTextExamples()
    ensures !WetText("0") && !WetText("5.2") && !WetText("1.0") && !WetText("false")
    ensures WetText("True") && WetText("TRUE") && WetText("1")
  {
    WetTextForms("0");
    WetTextForms("5.2");
    WetTextForms("1.0");
    WetTextForms("false");
    WetTextForms("True");
    WetTextForms("TRUE");
    WetTextForms("1");
  }

  /** The wet count and the trend check agree on every cell: a cell is wet
      exactly when the trend map gives it 1, and the trend map gives only 0
      or 1. */
  lemma WetAgreesWithMarks(c: RainfallColumn, k: nat)
    requires k < Length(c)
    ensures WetFlags(c)[k] <==> Marks(c)[k] == Some(1)
    ensures Marks(c)[k].Some? ==> Marks(c)[k].value == 0 || Marks(c)[k].value == 1
  {
  }

  /** Any exception while averaging (a missing or non-numeric `AirTemp` or
      `Humidity` column, a non-numeric `WindSpeed` column) resets all three
      averages to 0.0 together; a missing `WindSpeed` column alone only zeroes
      the wind. */
  lemma AveragesFallback(df: WeatherFrame)
    ensures (|| ColumnMean(df.airTemp).Raised? || ColumnMean(df.humidity).Raised?
             || df.windSpeed == Some(Unaveragable))
            ==> ComputeAverages(df) == Averages(Some(0.0), Some(0.0), Some(0.0))
    ensures (&& df.airTemp.Some? && df.airTemp.value.Numbers?
             && df.humidity.Some? && df.humidity.value.Numbers? && df.windSpeed.None?)
            ==> ComputeAverages(df) == Averages(Mean(df.airTemp.value.cells), Mean(df.humidity.value.cells), Some(0.0))
    ensures (&& df.airTemp.Some? && df.airTemp.value.Numbers?
             && df.humidity.Some? && df.humidity.value.Numbers?
             && df.windSpeed.Some? && df.windSpeed.value.Numbers?)
            ==> ComputeAverages(df) == Averages(Mean(df.airTemp.value.cells), Mean(df.humidity.value.cells), Mean(df.windSpeed.value.cells))
  {
  }

  /** Wind above 30 decides windy whatever the ratio, humidity and rainfall;
      otherwise humidity above 80 decides humid. */
  lemma WindThenHumidity(ratio: real, humidity: Option<real>, wind: Option<real>,
                         rainfall: Option<RainfallColumn>, rows: nat)
    ensures Above(wind, 30.0) ==> DetailedCondition(ratio, humidity, wind, rainfall, rows) == Windy
    ensures !Above(wind, 30.0) && Above(humidity, 80.0) ==> DetailedCondition(ratio, humidity, wind, rainfall, rows) == Humid
    ensures DetailedCondition(ratio, humidity, wind, rainfall, rows) == Windy <==> Above(wind, 30.0)
  {
  }

  /** Below the wind and humidity thresholds the ratio picks the band: above
      0.5 rainy or rainy_clearing, (0.1, 0.5] drizzle, at most 0.1 dry. */
  lemma RainBands(ratio: real, humidity: Option<real>, wind: Option<real>,
                  rainfall: Option<RainfallColumn>, rows: nat)
    requires !Above(wind, 30.0) && !Above(humidity, 80.0)
    ensures var c := DetailedCondition(ratio, humidity, wind, rainfall, rows);
            && (c == Rainy || c == RainyClearing <==> ratio > 0.5)
            && (c == Drizzle <==> 0.1 < ratio <= 0.5)
            && (c == Dry <==> ratio <= 0.1)
  {
  }

  /** `diff().dropna()` is empty exactly when no step has both neighbours
      defined. */
  lemma {:induction false} NoDefinedChange(m: seq<Option<int>>)
    ensures LastDefinedChange(m).None? <==> forall k :: 1 <= k < |m| ==> !StepDefined(m, k)
  {
    if |m| >= 2 {
      if m[|m| - 2].Some? && m[|m| - 1].Some? {
        assert StepDefined(m, |m| - 1);
      } else {
        var p := m[..|m| - 1];
        NoDefinedChange(p);
        assert !StepDefined(m, |m| - 1);
        assert forall k :: 1 <= k < |p| ==> (StepDefined(p, k) <==> StepDefined(m, k));
      }
    }
  }

  /** `LastDefinedChange` is the change at the last step whose two neighbours
      are both defined. */
  lemma {:induction false} ChangeAtLastStep(m: seq<Option<int>>, k: int)
    requires StepDefined(m, k)
    requires forall j :: k < j < |m| ==> !StepDefined(m, j)
    ensures LastDefinedChange(m) == Some(m[k].value - m[k - 1].value)
  {
    if k < |m| - 1 {
      assert !StepDefined(m, |m| - 1);
      var p := m[..|m| - 1];
      assert p[k - 1] == m[k - 1] && p[k] == m[k];
      forall j | k < j < |p|
        ensures !StepDefined(p, j)
      {
        assert p[j - 1] == m[j - 1] && p[j] == m[j];
        assert !StepDefined(m, j);
      }
      ChangeAtLastStep(p, k);
    }
  }

  /** Step k is the last step of m with both neighbours defined. */
  predicate IsLastStep(m: seq<Option<int>>, k: int)
  {
    StepDefined(m, k) && forall j :: k < j < |m| ==> !StepDefined(m, j)
  }

  /** On a 0/1 sequence the last defined change is negative exactly when the
      last defined step goes from 1 to 0. */
  lemma NegativeChangeIsOneToZero(m: seq<Option<int>>)
    requires forall k :: 0 <= k < |m| && m[k].Some? ==> m[k].value == 0 || m[k].value == 1
    ensures (LastDefinedChange(m).Some? && LastDefinedChange(m).value < 0) <==>
              exists k :: IsLastStep(m, k) && m[k - 1] == Some(1) && m[k] == Some(0)
  {
    NoDefinedChange(m);
    if exists k :: StepDefined(m, k) {
      var k := LastStep(m);
      ChangeAtLastStep(m, k);
      forall i | IsLastStep(m, i)
        ensures i == k
      {
      }
    }
  }

  /** rainy_clearing holds exactly when the last defined step of the trend
      sequence goes from wet (1) to dry (0). */
  lemma ClearingIsWetThenDry(c: RainfallColumn, rows: nat)
    requires Length(c) == rows
    ensures RainIsClearing(Some(c), rows) <==>
              exists k :: IsLastStep(Marks(c), k) && Marks(c)[k - 1] == Some(1) && Marks(c)[k] == Some(0)
  {
    var m := Marks(c);
    forall k | 0 <= k < |m| && m[k].Some?
      ensures m[k].value == 0 || m[k].value == 1
    {
      WetAgreesWithMarks(c, k);
    }
    NegativeChangeIsOneToZero(m);
  }

  /** The last defined step of a sequence that has one. */
  lemma LastStep(m: seq<Option<int>>) returns (k: int)
    requires exists k :: StepDefined(m, k)
    ensures IsLastStep(m, k)
  {
    k := |m| - 1;
    while !StepDefined(m, k)
      invariant 1 <= k < |m|
      invariant forall j :: k < j < |m| ==> !StepDefined(m, j)
      invariant exists i :: StepDefined(m, i) && i <= k
      decreases k
    {
      k := k - 1;
    }
  }

  /** With every cell recognised (always so for a bool column), rainy_clearing
      means the second-to-last sample is wet and the last is dry. */
  lemma ClearingWhenFullyRecognised(c: RainfallColumn, rows: nat)
    requires Length(c) == rows
    requires forall k :: 0 <= k < rows ==> Marks(c)[k].Some?
    ensures RainIsClearing(Some(c), rows) <==>
              rows > 1 && WetFlags(c)[rows - 2] && !WetFlags(c)[rows - 1]
  {
    var m := Marks(c);
    ClearingIsWetThenDry(c, rows);
    if rows > 1 {
      WetAgreesWithMarks(c, rows - 2);
      WetAgreesWithMarks(c, rows - 1);
      assert StepDefined(m, rows - 1);
      if RainIsClearing(Some(c), rows) {
        var k :| IsLastStep(m, k) && m[k - 1] == Some(1) && m[k] == Some(0);
        assert k == rows - 1;
      }
    }
  }

  /** A single sample can never be rainy_clearing. */
  lemma OneSampleNeverClearing(df: WeatherFrame)
    requires df.rows == 1
    ensures AnalyzeWeatherConditions(df).condition != RainyClearing
  {
  }
}
