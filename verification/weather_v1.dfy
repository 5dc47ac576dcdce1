/** The per-sample weather classifier of the v1 API, with its timeline, its
    summary and its representative-condition selection. */
module WeatherAnalyzer {
  import opened PyValue
  import opened Stats

  datatype Condition = Clear | Cloudy | Rainy | RainyClearing | Windy | Humid | Unknown

  /** One weather record as the analyser reads it. A numeric field is `None`
      when its key is absent; an absent `date` is `Str("")`, the default the
      analyser reads it with. */
  datatype Sample = Sample(
    date: Value,
    rainfall: Option<real>,
    windSpeed: Option<real>,
    humidity: Option<real>,
    trackTemperature: Option<real>,
    airTemperature: Option<real>)

  function Abs(x: real): (a: real)
    ensures a >= 0.0 && (a == x || a == -x)
  {
    if x < 0.0 then -x else x
  }

  /** `_determine_condition`: rain first, then clearing after a rainy
      predecessor, then wind above 10, humidity above 70, and a track/air
      temperature gap below 2 for cloudy; missing fields read as 0. */
  function DetermineCondition(s: Sample, prev: Option<Condition>): (c: Condition)
    ensures c != Unknown
  {
    var rainfall := s.rainfall.GetOr(0.0);
    var windSpeed := s.windSpeed.GetOr(0.0);
    var humidity := s.humidity.GetOr(0.0);
    if rainfall > 0.0 then Rainy
    else if prev == Some(Rainy) && rainfall == 0.0 then RainyClearing
    else if windSpeed > 10.0 then Windy
    else if humidity > 70.0 then Humid
    else if Abs(s.trackTemperature.GetOr(0.0) - s.airTemperature.GetOr(0.0)) < 2.0 then Cloudy
    else Clear
  }

  /** Rain decides rainy whatever came before; rainy_clearing is reached
      exactly on a dry (zero-rainfall) sample after a rainy one. */
  lemma RainAndClearing(s: Sample, prev: Option<Condition>)
    ensures DetermineCondition(s, prev) == Rainy <==> s.rainfall.GetOr(0.0) > 0.0
    ensures DetermineCondition(s, prev) == RainyClearing <==> prev == Some(Rainy) && s.rainfall.GetOr(0.0) == 0.0
    ensures prev != Some(Rainy) ==> DetermineCondition(s, prev) == DetermineCondition(s, None)
  {
  }

  /** Neither rain nor clearing: the sample is dry and does not follow a
      rainy one with exactly zero rainfall. */
  predicate PastRainTests(s: Sample, prev: Option<Condition>)
  {
    s.rainfall.GetOr(0.0) <= 0.0 && !(prev == Some(Rainy) && s.rainfall.GetOr(0.0) == 0.0)
  }

  /** Windy needs wind above 10 and humid humidity above 70; cloudy and clear
      are told apart by the track/air gap alone. Once past the rain tests the
      first match decides: wind above 10 is windy, else humidity above 70 is
      humid, else the gap picks cloudy or clear. */
  lemma LaterBranches(s: Sample, prev: Option<Condition>)
    ensures DetermineCondition(s, prev) == Windy ==> s.windSpeed.GetOr(0.0) > 10.0
    ensures DetermineCondition(s, prev) == Humid ==> s.humidity.GetOr(0.0) > 70.0 && s.windSpeed.GetOr(0.0) <= 10.0
    ensures DetermineCondition(s, prev) == Cloudy ==> Abs(s.trackTemperature.GetOr(0.0) - s.airTemperature.GetOr(0.0)) < 2.0
    ensures DetermineCondition(s, prev) == Clear ==> Abs(s.trackTemperature.GetOr(0.0) - s.airTemperature.GetOr(0.0)) >= 2.0
    ensures PastRainTests(s, prev) && s.windSpeed.GetOr(0.0) > 10.0 ==> DetermineCondition(s, prev) == Windy
    ensures PastRainTests(s, prev) && s.windSpeed.GetOr(0.0) <= 10.0 && s.humidity.GetOr(0.0) > 70.0
            ==> DetermineCondition(s, prev) == Humid
    ensures PastRainTests(s, prev) && s.windSpeed.GetOr(0.0) <= 10.0 && s.humidity.GetOr(0.0) <= 70.0
            ==> (DetermineCondition(s, prev) == Cloudy <==> Abs(s.trackTemperature.GetOr(0.0) - s.airTemperature.GetOr(0.0)) < 2.0)
    ensures PastRainTests(s, prev) && s.windSpeed.GetOr(0.0) <= 10.0 && s.humidity.GetOr(0.0) <= 70.0
            ==> DetermineCondition(s, prev) in {Cloudy, Clear}
  {
  }

  // ---------------------------------------------------------------------
  // Timeline

  /** A sample with a falsy `date` is skipped. */
  predicate Dated(s: Sample)
  {
    Truthy(s.date)
  }

  /** The condition carried to the next sample: that of the last dated
      sample, `None` before the first one. */
  function Carry(samples: seq<Sample>): Option<Condition>
  {
    if samples == [] then None
    else
      var p := samples[..|samples| - 1];
      var s := samples[|samples| - 1];
      if Dated(s) then Some(DetermineCondition(s, Carry(p))) else Carry(p)
  }

  /** The timeline key of sample i with the given date: its timestamp
      reformatted, or `entry_{i}` when the date does not parse. Date parsing
      and formatting are taken as given. */
  type KeyOf = (Value, nat) -> string

  /** The result of `analyze_weather`: every dated sample's condition under its
      key, a later sample overwriting an earlier one with the same key. */
  function Timeline(samples: seq<Sample>, keyOf: KeyOf): map<string, Condition>
  {
    if samples == [] then map[]
    else
      var p := samples[..|samples| - 1];
      var s := samples[|samples| - 1];
      if Dated(s) then Timeline(p, keyOf)[keyOf(s.date, |p|) := DetermineCondition(s, Carry(p))]
      else Timeline(p, keyOf)
  }

  /** `analyze_weather` */
  method AnalyzeWeather(weatherData: seq<Sample>, keyOf: KeyOf) returns (results: map<string, Condition>)
    ensures results == Timeline(weatherData, keyOf)
  {
    if |weatherData| == 0 {
      return map[];
    }
    results := map[];
    var prevCondition: Option<Condition> := None;
    var i := 0;
    while i < |weatherData|
      invariant 0 <= i <= |weatherData|
      invariant prevCondition == Carry(weatherData[..i])
      invariant results == Timeline(weatherData[..i], keyOf)
    {
      var data := weatherData[i];
      assert weatherData[..i + 1][..i] == weatherData[..i];
      if Dated(data) {
        var timeStr := keyOf(data.date, i);
        var condition := DetermineCondition(data, prevCondition);
        results := results[timeStr := condition];
        prevCondition := Some(condition);
      }
      i := i + 1;
    }
    assert weatherData[..i] == weatherData;
  }

  /** Sample i is the last dated sample of the sequence. */
  predicate IsLastDated(samples: seq<Sample>, i: int)
  {
    0 <= i < |samples| && Dated(samples[i]) && forall j :: i < j < |samples| ==> !Dated(samples[j])
  }

  /** The timeline has a key for every dated sample and no other. */
  lemma {:induction false} TimelineKeys(samples: seq<Sample>, keyOf: KeyOf)
    ensures forall key :: key in Timeline(samples, keyOf) <==>
              exists i :: 0 <= i < |samples| && Dated(samples[i]) && keyOf(samples[i].date, i) == key
  {
    if samples != [] {
      var p := samples[..|samples| - 1];
      TimelineKeys(p, keyOf);
      assert forall i :: 0 <= i < |p| ==> p[i] == samples[i];
    }
  }

  /** The carried condition is `None` exactly when no sample is dated, and
      otherwise the condition of the last dated sample. */
  lemma {:induction false} CarryIsLastDated(samples: seq<Sample>)
    ensures Carry(samples).None? <==> forall i :: 0 <= i < |samples| ==> !Dated(samples[i])
    ensures forall i :: IsLastDated(samples, i) ==>
              Carry(samples) == Some(DetermineCondition(samples[i], Carry(samples[..i])))
  {
    if samples != [] {
      var p := samples[..|samples| - 1];
      CarryIsLastDated(p);
      assert forall i :: 0 <= i < |p| ==> p[i] == samples[i];
      assert forall i :: 0 <= i < |p| ==> p[..i] == samples[..i];
      forall i | IsLastDated(samples, i)
        ensures Carry(samples) == Some(DetermineCondition(samples[i], Carry(samples[..i])))
      {
        if i < |p| {
          assert IsLastDated(p, i);
        }
      }
    }
  }

  /** The value under a key is the condition of the last dated sample with
      that key, classified with the condition carried to it. */
  lemma {:induction false} TimelineValue(samples: seq<Sample>, keyOf: KeyOf, i: nat)
    requires i < |samples| && Dated(samples[i])
    requires forall j :: i < j < |samples| && Dated(samples[j]) ==> keyOf(samples[j].date, j) != keyOf(samples[i].date, i)
    ensures var key := keyOf(samples[i].date, i);
            key in Timeline(samples, keyOf) &&
            Timeline(samples, keyOf)[key] == DetermineCondition(samples[i], Carry(samples[..i]))
  {
    var p := samples[..|samples| - 1];
    if i < |p| {
      assert p[i] == samples[i] && p[..i] == samples[..i];
      forall j | i < j < |p| && Dated(p[j])
        ensures keyOf(p[j].date, j) != keyOf(p[i].date, i)
      {
        assert p[j] == samples[j];
      }
      TimelineValue(p, keyOf, i);
    } else {
      assert samples[..i] == p;
    }
  }

  lemma LastDated(samples: seq<Sample>) returns (j: int)
    requires exists i :: 0 <= i < |samples| && Dated(samples[i])
    ensures IsLastDated(samples, j)
  {
    j := |samples| - 1;
    while !Dated(samples[j])
      invariant 0 <= j < |samples|
      invariant forall k :: j < k < |samples| ==> !Dated(samples[k])
      invariant exists i :: 0 <= i <= j && Dated(samples[i])
      decreases j
    {
      j := j - 1;
    }
  }

  /** A rainy_clearing entry of the timeline always follows, among the dated
      samples, one that was classified rainy. */
  lemma ClearingFollowsRainy(samples: seq<Sample>, i: nat)
    requires i < |samples| && Dated(samples[i])
    requires DetermineCondition(samples[i], Carry(samples[..i])) == RainyClearing
    ensures exists j :: && 0 <= j < i && Dated(samples[j])
                        && (forall k :: j < k < i ==> !Dated(samples[k]))
                        && DetermineCondition(samples[j], Carry(samples[..j])) == Rainy
  {
    var p := samples[..i];
    RainAndClearing(samples[i], Carry(p));
    CarryIsLastDated(p);
    var j := LastDated(p);
    assert p[..j] == samples[..j];
    assert forall k :: j < k < i ==> p[k] == samples[k];
  }

  // ---------------------------------------------------------------------
  // Summary

  /** The conditions of all samples classified without a predecessor, as
      the summary and the representative selection classify them. */
  function Classify(samples: seq<Sample>): (cs: seq<Condition>)
    ensures |cs| == |samples|
  {
    seq(|samples|, i requires 0 <= i < |samples| => DetermineCondition(samples[i], None))
  }

  /** `conditions.count(c)` */
  function Count(cs: seq<Condition>, c: Condition): (n: nat)
    ensures n <= |cs|
  {
    if cs == [] then 0 else Count(cs[..|cs| - 1], c) + (if cs[|cs| - 1] == c then 1 else 0)
  }

  /** `{c: conditions.count(c) for c in set(conditions)}` */
  function Distribution(cs: seq<Condition>): map<Condition, nat>
  {
    map c | c in cs :: Count(cs, c)
  }

  function RainfallCells(samples: seq<Sample>): (cells: seq<Option<real>>)
    ensures |cells| == |samples|
  {
    seq(|samples|, i requires 0 <= i < |samples| => samples[i].rainfall)
  }

  function HumidityCells(samples: seq<Sample>): (cells: seq<Option<real>>)
    ensures |cells| == |samples|
  {
    seq(|samples|, i requires 0 <= i < |samples| => samples[i].humidity)
  }

  function AirTemperatureCells(samples: seq<Sample>): (cells: seq<Option<real>>)
    ensures |cells| == |samples|
  {
    seq(|samples|, i requires 0 <= i < |samples| => samples[i].airTemperature)
  }

  function Max(a: real, b: real): real
  {
    if b > a then b else a
  }

  /** The running `max(max_wind_speed, wind_speed)` from 0. */
  function MaxWind(samples: seq<Sample>): real
  {
    if samples == [] then 0.0
    else Max(MaxWind(samples[..|samples| - 1]), samples[|samples| - 1].windSpeed.GetOr(0.0))
  }

  /** The summary before rounding. */
  datatype Summary = Summary(
    mostCommonCondition: Condition,
    rainfallTotal: real,
    maxWindSpeed: real,
    avgTemperature: Option<real>,
    avgHumidity: Option<real>,
    conditionDistribution: map<Condition, nat>)

  lemma {:induction false} CountSnoc(cs: seq<Condition>, c: Condition, d: Condition)
    ensures Count(cs + [c], d) == Count(cs, d) + (if c == d then 1 else 0)
  {
    assert (cs + [c])[..|cs|] == cs;
  }

  /** A condition is counted exactly when it occurs. */
  lemma {:induction false} CountPositiveIffOccurs(cs: seq<Condition>, c: Condition)
    ensures Count(cs, c) > 0 <==> c in cs
  {
    if cs != [] {
      var p := cs[..|cs| - 1];
      CountPositiveIffOccurs(p, c);
      assert cs == p + [cs[|cs| - 1]];
    }
  }

  /** One more condition adds one to its own count, starting from 0 when it
      is new, and changes no other count. */
  lemma DistributionSnoc(cs: seq<Condition>, c: Condition)
    ensures Distribution(cs + [c]) ==
            Distribution(cs)[c := (if c in Distribution(cs) then Distribution(cs)[c] else 0) + 1]
  {
    var before := Distribution(cs);
    var after := Distribution(cs + [c]);
    var expected := before[c := (if c in before then before[c] else 0) + 1];
    assert forall d :: d in cs + [c] <==> d in cs || d == c;
    assert after.Keys == expected.Keys;
    forall d | d in after
      ensures after[d] == expected[d]
    {
      CountSnoc(cs, c, d);
      if d == c {
        CountPositiveIffOccurs(cs, c);
      }
    }
  }

  /** `condition_counts`, built one condition at a time. */
  method CountConditions(cs: seq<Condition>) returns (counts: map<Condition, nat>)
    ensures counts == Distribution(cs)
  {
    counts := map[];
    var i := 0;
    while i < |cs|
      invariant 0 <= i <= |cs|
      invariant counts == Distribution(cs[..i])
    {
      var condition := cs[i];
      assert cs[..i + 1] == cs[..i] + [condition];
      DistributionSnoc(cs[..i], condition);
      counts := counts[condition := (if condition in counts then counts[condition] else 0) + 1];
      i := i + 1;
    }
    assert cs[..i] == cs;
  }

  /** `max(condition_counts.values())` */
  method MaxCount(counts: map<Condition, nat>) returns (m: nat)
    requires counts != map[]
    ensures exists c :: c in counts && counts[c] == m
    ensures forall c :: c in counts ==> counts[c] <= m
  {
    var keys := counts.Keys;
    var first :| first in keys;
    m := counts[first];
    keys := keys - {first};
    while keys != {}
      invariant keys <= counts.Keys
      invariant exists c :: c in counts && counts[c] == m
      invariant forall c :: c in counts && c !in keys ==> counts[c] <= m
      decreases |keys|
    {
      var c :| c in keys;
      if counts[c] > m {
        m := counts[c];
      }
      keys := keys - {c};
    }
  }

  /** What one more sample adds to each running total of the summary loop. */
  lemma SummarySnoc(prefix: seq<Sample>, data: Sample)
    ensures Classify(prefix + [data]) == Classify(prefix) + [DetermineCondition(data, None)]
    ensures Sum(Defaulted(RainfallCells(prefix + [data]))) == Sum(Defaulted(RainfallCells(prefix))) + data.rainfall.GetOr(0.0)
    ensures MaxWind(prefix + [data]) == Max(MaxWind(prefix), data.windSpeed.GetOr(0.0))
    ensures Present(AirTemperatureCells(prefix + [data])) ==
            Present(AirTemperatureCells(prefix)) + (if data.airTemperature.Some? then [data.airTemperature.value] else [])
    ensures Present(HumidityCells(prefix + [data])) ==
            Present(HumidityCells(prefix)) + (if data.humidity.Some? then [data.humidity.value] else [])
  {
    assert (prefix + [data])[..|prefix|] == prefix;
    assert RainfallCells(prefix + [data]) == RainfallCells(prefix) + [data.rainfall];
    assert AirTemperatureCells(prefix + [data]) == AirTemperatureCells(prefix) + [data.airTemperature];
    assert HumidityCells(prefix + [data]) == HumidityCells(prefix) + [data.humidity];
    DefaultedSnoc(RainfallCells(prefix), data.rainfall);
    SumSnoc(Defaulted(RainfallCells(prefix)), data.rainfall.GetOr(0.0));
    PresentSnoc(AirTemperatureCells(prefix), data.airTemperature);
    PresentSnoc(HumidityCells(prefix), data.humidity);
  }

  /** The summary loop: the conditions classified without a predecessor,
      the rainfall total, the running wind maximum and the temperatures and
      humidities that are present. */
  method SummaryTotals(weatherData: seq<Sample>)
      returns (conditions: seq<Condition>, rainfallTotal: real, maxWindSpeed: real,
               temperatures: seq<real>, humidities: seq<real>)
    ensures conditions == Classify(weatherData)
    ensures rainfallTotal == Sum(Defaulted(RainfallCells(weatherData)))
    ensures maxWindSpeed == MaxWind(weatherData)
    ensures temperatures == Present(AirTemperatureCells(weatherData))
    ensures humidities == Present(HumidityCells(weatherData))
  {
    conditions := [];
    rainfallTotal := 0.0;
    maxWindSpeed := 0.0;
    temperatures := [];
    humidities := [];
    var i := 0;
    while i < |weatherData|
      invariant 0 <= i <= |weatherData|
      invariant conditions == Classify(weatherData[..i])
      invariant rainfallTotal == Sum(Defaulted(RainfallCells(weatherData[..i])))
      invariant maxWindSpeed == MaxWind(weatherData[..i])
      invariant temperatures == Present(AirTemperatureCells(weatherData[..i]))
      invariant humidities == Present(HumidityCells(weatherData[..i]))
    {
      var data := weatherData[i];
      assert weatherData[..i + 1] == weatherData[..i] + [data];
      SummarySnoc(weatherData[..i], data);

      var condition := DetermineCondition(data, None);
      conditions := conditions + [condition];
      rainfallTotal := rainfallTotal + data.rainfall.GetOr(0.0);
      maxWindSpeed := Max(maxWindSpeed, data.windSpeed.GetOr(0.0));
      if data.airTemperature.Some? {
        temperatures := temperatures + [data.airTemperature.value];
      }
      if data.humidity.Some? {
        humidities := humidities + [data.humidity.value];
      }
      i := i + 1;
    }
    assert weatherData[..i] == weatherData;
  }

  /** `get_weather_summary`: `None` for no data (the empty dict), otherwise
      the most common condition among the samples classified without a
      predecessor, the total rainfall, the largest wind speed (at least 0)
      and the means of the temperatures and humidities that are present.
      The most common condition is one of those with the highest count; which
      one among ties depends on set iteration order and is left open. */
  method GetWeatherSummary(weatherData: seq<Sample>) returns (summary: Option<Summary>)
    ensures summary.None? <==> |weatherData| == 0
    ensures summary.Some? ==>
      var r := summary.value;
      && r.conditionDistribution == Distribution(Classify(weatherData))
      && r.mostCommonCondition in r.conditionDistribution
      && (forall c :: c in r.conditionDistribution ==>
            r.conditionDistribution[c] <= r.conditionDistribution[r.mostCommonCondition])
      && r.rainfallTotal == Sum(Defaulted(RainfallCells(weatherData)))
      && r.maxWindSpeed == MaxWind(weatherData)
      && r.avgTemperature == Mean(AirTemperatureCells(weatherData))
      && r.avgHumidity == Mean(HumidityCells(weatherData))
  {
    if |weatherData| == 0 {
      return None;
    }
    var conditions, rainfallTotal, maxWindSpeed, temperatures, humidities := SummaryTotals(weatherData);
    var distribution := CountConditions(conditions);
    assert conditions[0] in distribution;
    var top := MaxCount(distribution);
    var mostCommon :| mostCommon in distribution && distribution[mostCommon] == top;
    var avgTemp := if |temperatures| > 0 then Some(Sum(temperatures) / |temperatures| as real) else None;
    var avgHumidity := if |humidities| > 0 then Some(Sum(humidities) / |humidities| as real) else None;
    summary := Some(Summary(mostCommon, rainfallTotal, maxWindSpeed, avgTemp, avgHumidity, distribution));
  }

  /** The largest wind speed is at least 0, at least every sample's wind
      speed, and either 0 or one of them. */
  lemma {:induction false} MaxWindIsMaximum(samples: seq<Sample>)
    ensures MaxWind(samples) >= 0.0
    ensures forall i :: 0 <= i < |samples| ==> samples[i].windSpeed.GetOr(0.0) <= MaxWind(samples)
    ensures MaxWind(samples) == 0.0 ||
            exists i :: 0 <= i < |samples| && samples[i].windSpeed.GetOr(0.0) == MaxWind(samples)
  {
    if samples != [] {
      var p := samples[..|samples| - 1];
      MaxWindIsMaximum(p);
      assert forall i :: 0 <= i < |p| ==> p[i] == samples[i];
    }
  }

  /** The counts of the distribution add up to the number of samples. */
  lemma {:induction false} CountsAddUp(cs: seq<Condition>)
    ensures Count(cs, Clear) + Count(cs, Cloudy) + Count(cs, Rainy) + Count(cs, RainyClearing)
            + Count(cs, Windy) + Count(cs, Humid) + Count(cs, Unknown) == |cs|
  {
    if cs != [] {
      CountsAddUp(cs[..|cs| - 1]);
    }
  }

  /** Classified without a predecessor, no sample is rainy_clearing or
      unknown, so neither appears in the summary or wins the selection. */
  lemma ClassifyNeverClearing(samples: seq<Sample>)
    ensures RainyClearing !in Classify(samples) && Unknown !in Classify(samples)
    ensures Count(Classify(samples), RainyClearing) == 0 && Count(Classify(samples), Unknown) == 0
  {
    var cs := Classify(samples);
    assert forall i :: 0 <= i < |cs| ==> cs[i] != RainyClearing && cs[i] != Unknown by {
      forall i | 0 <= i < |cs| {
        RainAndClearing(samples[i], None);
      }
    }
    CountPositiveIffOccurs(cs, RainyClearing);
    CountPositiveIffOccurs(cs, Unknown);
  }

  // ---------------------------------------------------------------------
  // Representative condition

  /** The severity ranking used to break ties. */
  function Severity(c: Condition): int
  {
    match c
    case Rainy => 5
    case RainyClearing => 4
    case Windy => 3
    case Humid => 2
    case Cloudy => 1
    case Clear => 0
    case Unknown => -1
  }

  /** The highest count of any condition. */
  function TopCount(cs: seq<Condition>): nat
  {
    var counts := [Count(cs, Rainy), Count(cs, RainyClearing), Count(cs, Windy), Count(cs, Humid),
                   Count(cs, Cloudy), Count(cs, Clear), Count(cs, Unknown)];
    MaxOf(counts)
  }

  function MaxOf(xs: seq<nat>): (m: nat)
    ensures forall i :: 0 <= i < |xs| ==> xs[i] <= m
    ensures xs != [] ==> exists i :: 0 <= i < |xs| && xs[i] == m
  {
    if xs == [] then 0
    else
      var rest := MaxOf(xs[..|xs| - 1]);
      if xs[|xs| - 1] > rest then xs[|xs| - 1] else rest
  }

  /** The most severe condition whose count is m. */
  function MostSevereWithCount(cs: seq<Condition>, m: nat): Condition
  {
    if Count(cs, Rainy) == m then Rainy
    else if Count(cs, RainyClearing) == m then RainyClearing
    else if Count(cs, Windy) == m then Windy
    else if Count(cs, Humid) == m then Humid
    else if Count(cs, Cloudy) == m then Cloudy
    else if Count(cs, Clear) == m then Clear
    else Unknown
  }

  /** The result of `get_representative_weather` before formatting: the error
      for no data, otherwise the selected condition, the percentage of samples
      that had it, and the mean air temperature and humidity with missing
      values read as 0. */
  datatype Representative =
    | NoWeatherData
    | Representative(condition: Condition, ratio: real, averageTemperature: real, averageHumidity: real)

  function RepresentativeWeather(samples: seq<Sample>): (r: Representative)
    ensures r.NoWeatherData? <==> |samples| == 0
    ensures r.Representative? ==> r.condition in Classify(samples)
    ensures r.Representative? ==> forall c :: Count(Classify(samples), c) <= Count(Classify(samples), r.condition)
    ensures r.Representative? ==>
              r.averageTemperature == Sum(Present(AirTemperatureCells(samples))) / |samples| as real
    ensures r.Representative? ==>
              r.averageHumidity == Sum(Present(HumidityCells(samples))) / |samples| as real
  {
    if |samples| == 0 then NoWeatherData
    else
      var cs := Classify(samples);
      ModeSelection(cs);
      DefaultedSumIsPresentSum(AirTemperatureCells(samples));
      DefaultedSumIsPresentSum(HumidityCells(samples));
      var top := TopCount(cs);
      var n := |samples| as real;
      Representative(
        MostSevereWithCount(cs, top),
        top as real / n * 100.0,
        Sum(Defaulted(AirTemperatureCells(samples))) / n,
        Sum(Defaulted(HumidityCells(samples))) / n)
  }

  lemma TopCountIsMaximum(cs: seq<Condition>)
    ensures forall c :: Count(cs, c) <= TopCount(cs)
    ensures exists c :: Count(cs, c) == TopCount(cs)
  {
    var counts := [Count(cs, Rainy), Count(cs, RainyClearing), Count(cs, Windy), Count(cs, Humid),
                   Count(cs, Cloudy), Count(cs, Clear), Count(cs, Unknown)];
    var i :| 0 <= i < |counts| && counts[i] == TopCount(cs);
    var order := [Rainy, RainyClearing, Windy, Humid, Cloudy, Clear, Unknown];
    assert Count(cs, order[i]) == TopCount(cs);
    forall c ensures Count(cs, c) <= TopCount(cs) {
      assert Count(cs, c) in counts;
    }
  }

  /** The selected condition occurs most often, and every other condition
      that occurs as often is less severe; the ratio is its share of the
      samples in percent. */
  lemma RepresentativeIsMostSevereMode(samples: seq<Sample>)
    requires |samples| > 0
    ensures var r := RepresentativeWeather(samples);
            var cs := Classify(samples);
            && r.Representative?
            && r.condition in cs
            && (forall c :: Count(cs, c) <= Count(cs, r.condition))
            && (forall c :: c != r.condition && Count(cs, c) == Count(cs, r.condition) ==> Severity(c) < Severity(r.condition))
            && r.ratio == Count(cs, r.condition) as real / |samples| as real * 100.0
            && 0.0 < r.ratio <= 100.0
  {
    var cs := Classify(samples);
    ModeSelection(cs);
    var top := TopCount(cs);
    var n := |samples| as real;
    QuotientBounds(top as real, n, 0.0, 1.0);
    assert top as real / n > 0.0;
  }

  /** The most severe condition of top count occurs, has the top count,
      and outranks every other condition with that count. */
  lemma ModeSelection(cs: seq<Condition>)
    requires cs != []
    ensures var c := MostSevereWithCount(cs, TopCount(cs));
            && c in cs
            && Count(cs, c) == TopCount(cs) <= |cs|
            && 0 < TopCount(cs)
            && (forall d :: Count(cs, d) <= Count(cs, c))
            && (forall d :: d != c && Count(cs, d) == Count(cs, c) ==> Severity(d) < Severity(c))
  {
    var top := TopCount(cs);
    TopCountIsMaximum(cs);
    var d :| Count(cs, d) == top;
    TieBreak(cs, top, d);
    var c := MostSevereWithCount(cs, top);
    CountPositiveIffOccurs(cs, cs[0]);
    CountPositiveIffOccurs(cs, c);
  }

  /** The cascade in severity order finds a condition with count m whenever
      there is one, and no more severe condition has that count. */
  lemma TieBreak(cs: seq<Condition>, m: nat, d: Condition)
    requires Count(cs, d) == m
    ensures Count(cs, MostSevereWithCount(cs, m)) == m
    ensures forall e :: e != MostSevereWithCount(cs, m) && Count(cs, e) == m ==>
              Severity(e) < Severity(MostSevereWithCount(cs, m))
  {
  }

  /** The representative condition is never rainy_clearing or unknown. */
  lemma RepresentativeNeverClearing(samples: seq<Sample>)
    requires |samples| > 0
    ensures RepresentativeWeather(samples).condition != RainyClearing
    ensures RepresentativeWeather(samples).condition != Unknown
  {
    RepresentativeIsMostSevereMode(samples);
    ClassifyNeverClearing(samples);
  }

  /** `max(max_conditions, key=severity)`: the most severe of a non-empty set. */
  method MostSevere(candidates: set<Condition>) returns (best: Condition)
    requires candidates != {}
    ensures best in candidates
    ensures forall c :: c in candidates ==> Severity(c) <= Severity(best)
  {
    var rest := candidates;
    best :| best in rest;
    rest := rest - {best};
    while rest != {}
      invariant rest <= candidates && best in candidates
      invariant forall c :: c in candidates && c !in rest ==> Severity(c) <= Severity(best)
      decreases |rest|
    {
      var c :| c in rest;
      if Severity(c) > Severity(best) {
        best := c;
      }
      rest := rest - {c};
    }
  }

  /** `get_representative_weather` */
  method GetRepresentativeWeather(weatherData: seq<Sample>) returns (r: Representative)
    ensures r == RepresentativeWeather(weatherData)
  {
    if |weatherData| == 0 {
      return NoWeatherData;
    }
    var conditions := Classify(weatherData);
    var mostCommon, maxCount := SelectMostCommon(conditions);
    var n := |weatherData| as real;
    var ratio := maxCount as real / n * 100.0;
    var avgTemp := Sum(Defaulted(AirTemperatureCells(weatherData))) / n;
    var avgHumidity := Sum(Defaulted(HumidityCells(weatherData))) / n;
    r := Representative(mostCommon, ratio, avgTemp, avgHumidity);
  }

  /** The tally, its maximum and the severity tie-break: the most severe of
      the conditions with the top count. */
  method SelectMostCommon(conditions: seq<Condition>) returns (mostCommon: Condition, maxCount: nat)
    requires conditions != []
    ensures maxCount == TopCount(conditions)
    ensures mostCommon == MostSevereWithCount(conditions, TopCount(conditions))
  {
    var conditionCounts := CountConditions(conditions);
    assert conditions[0] in conditionCounts;
    maxCount := MaxCount(conditionCounts);
    var maxConditions := set c | c in conditionCounts && conditionCounts[c] == maxCount;
    ghost var tied :| tied in conditionCounts && conditionCounts[tied] == maxCount;
    assert tied in maxConditions;
    mostCommon := MostSevere(maxConditions);
    SelectionAgrees(conditions, conditionCounts, maxCount, mostCommon);
  }

  /** The count found by scanning the counts map is the top count, and the
      most severe condition with it is the one `MostSevereWithCount` picks. */
  lemma SelectionAgrees(cs: seq<Condition>, counts: map<Condition, nat>, maxCount: nat, best: Condition)
    requires cs != [] && counts == Distribution(cs)
    requires exists c :: c in counts && counts[c] == maxCount
    requires forall c :: c in counts ==> counts[c] <= maxCount
    requires best in counts && counts[best] == maxCount
    requires forall c :: c in counts && counts[c] == maxCount ==> Severity(c) <= Severity(best)
    ensures maxCount == TopCount(cs)
    ensures best == MostSevereWithCount(cs, TopCount(cs))
  {
    TopCountIsMaximum(cs);
    var top :| Count(cs, top) == TopCount(cs);
    CountPositiveIffOccurs(cs, cs[0]);
    CountPositiveIffOccurs(cs, top);
    var chosen := MostSevereWithCount(cs, TopCount(cs));
    assert Count(cs, chosen) == TopCount(cs);
    CountPositiveIffOccurs(cs, chosen);
    assert counts[chosen] == maxCount;
  }
}
