/** `SessionDto.from_model` of the v2 API: the stored weather is analysed
    when it is a non-empty list or dict, and each stored result is mapped
    through the v2 result DTO. */
module SessionDtoV2 {
  import opened PyValue
  import opened AnalyzeWeather
  import ResultDtoV2

  /** A stored session row. */
  datatype SessionModel = SessionModel(
    id: int,
    year: int,
    round: int,
    sessionType: string,
    sessionName: string,
    sessionDate: Timestamp,
    circuitId: int,
    status: string,
    weather: Value,
    createdAt: Timestamp,
    updatedAt: Timestamp,
    results: Option<seq<ResultDtoV2.ResultModel>>)

  datatype SessionDto = SessionDto(
    id: int,
    year: int,
    round: int,
    sessionType: string,
    sessionName: string,
    sessionDate: Timestamp,
    circuitId: int,
    status: string,
    weather: Option<Analysis>,
    createdAt: Timestamp,
    updatedAt: Timestamp,
    results: seq<ResultDtoV2.ResultDto>)

  /** `frameOf` builds the analyser's frame from the weather records (pandas'
      `DataFrame` constructor). A truthy list is analysed as it is, a truthy
      dict as a one-record list, and anything else has no weather. */
  function WeatherOf(frameOf: seq<Value> -> WeatherFrame, weather: Value): (w: Option<Analysis>)
    ensures w.Some? <==> Truthy(weather) && (weather.List? || weather.Dict?)
    ensures Truthy(weather) && weather.List? ==> w == Some(AnalyzeWeatherConditions(frameOf(weather.items)))
    ensures Truthy(weather) && weather.Dict? ==> w == Some(AnalyzeWeatherConditions(frameOf([weather])))
  {
    if Truthy(weather) && weather.List? then Some(AnalyzeWeatherConditions(frameOf(weather.items)))
    else if Truthy(weather) && weather.Dict? then Some(AnalyzeWeatherConditions(frameOf([weather])))
    else None
  }

  /** `session.results or []`, each through the result DTO. */
  function ResultsOf(py: Builtins, results: Option<seq<ResultDtoV2.ResultModel>>): (ds: seq<ResultDtoV2.ResultDto>)
    ensures results.None? ==> ds == []
    ensures results.Some? ==> |ds| == |results.value|
    ensures results.Some? ==> forall k :: 0 <= k < |ds| ==> ds[k] == ResultDtoV2.FromModel(py, results.value[k])
  {
    var rs := results.GetOr([]);
    seq(|rs|, k requires 0 <= k < |rs| => ResultDtoV2.FromModel(py, rs[k]))
  }

  function FromModel(py: Builtins, frameOf: seq<Value> -> WeatherFrame, s: SessionModel): (d: SessionDto)
    ensures d.id == s.id && d.year == s.year && d.round == s.round
    ensures d.sessionType == s.sessionType && d.sessionName == s.sessionName
    ensures d.sessionDate == s.sessionDate && d.circuitId == s.circuitId && d.status == s.status
    ensures d.createdAt == s.createdAt && d.updatedAt == s.updatedAt
    ensures d.weather == WeatherOf(frameOf, s.weather)
    ensures d.results == ResultsOf(py, s.results)
  {
    SessionDto(
      s.id, s.year, s.round, s.sessionType, s.sessionName, s.sessionDate, s.circuitId, s.status,
      WeatherOf(frameOf, s.weather), s.createdAt, s.updatedAt, ResultsOf(py, s.results))
  }

  /** A frame has one row per record, so the analyser's empty-input
      `unknown` answer is never reached from a session, and a session whose
      weather is a single dict is never `rainy_clearing`. */
  lemma WeatherNeverUnknown(py: Builtins, frameOf: seq<Value> -> WeatherFrame, s: SessionModel)
    requires s.weather.List? ==> frameOf(s.weather.items).rows == |s.weather.items|
    requires s.weather.Dict? ==> frameOf([s.weather]).rows == 1
    ensures FromModel(py, frameOf, s).weather.Some? ==> FromModel(py, frameOf, s).weather.value.condition != Unknown
    ensures s.weather.Dict? && Truthy(s.weather) ==> FromModel(py, frameOf, s).weather.value.condition != RainyClearing
  {
    if s.weather.Dict? && Truthy(s.weather) {
      OneSampleNeverClearing(frameOf([s.weather]));
    }
  }
}

/** `SessionDto.from_model` of the v1 API: the representative weather of
    the stored records, the round reduced modulo 1253, and the results
    through the v1 result DTO. */
module SessionDtoV1 {
  import opened PyValue
  import opened WeatherAnalyzer
  import ResultDtoV1

  /** The first meeting key of the 2025 season; the stored round is reduced
      modulo it. */
  const FirstMeetingKey: int := 1253

  datatype SessionModel = SessionModel(
    id: int,
    year: int,
    round: int,
    sessionKey: int,
    sessionType: string,
    sessionName: string,
    sessionDate: Timestamp,
    circuitId: int,
    status: string,
    weather: Value,
    createdAt: Timestamp,
    updatedAt: Timestamp,
    results: Option<seq<ResultDtoV1.ResultModel>>)

  datatype SessionDto = SessionDto(
    id: int,
    year: int,
    round: int,
    sessionKey: int,
    sessionType: string,
    sessionName: string,
    sessionDate: Timestamp,
    circuitId: int,
    status: string,
    weather: Option<Representative>,
    createdAt: Timestamp,
    updatedAt: Timestamp,
    results: seq<ResultDtoV1.ResultDto>)

  /** A numeric field of a weather record: absent is `None`; a value the
      analyser cannot compare with a number (`null`, a string, ...) raises. */
  function Reading(m: map<string, Value>, key: string): (r: Outcome<Option<real>>)
    ensures key !in m ==> r == Ok(None)
    ensures key in m && IsNumber(m[key]) ==> r == Ok(Some(NumberOf(m[key])))
    ensures key in m && !IsNumber(m[key]) ==> r.Raised?
  {
    if key !in m then Ok(None)
    else if IsNumber(m[key]) then Ok(Some(NumberOf(m[key])))
    else Raised
  }

  /** One stored weather record as the analyser reads it, by its lowercase
      keys; a record that is not a dict raises on `.get`. */
  function SampleOf(v: Value): (r: Outcome<Sample>)
    ensures !v.Dict? ==> r.Raised?
  {
    if !v.Dict? then Raised
    else
      var m := v.fields;
      var rainfall := Reading(m, "rainfall");
      var wind := Reading(m, "wind_speed");
      var humidity := Reading(m, "humidity");
      var track := Reading(m, "track_temperature");
      var air := Reading(m, "air_temperature");
      if rainfall.Raised? || wind.Raised? || humidity.Raised? || track.Raised? || air.Raised? then Raised
      else Ok(Sample(Get(m, "date", Str("")), rainfall.value, wind.value, humidity.value, track.value, air.value))
  }

  /** Every record read in turn: it raises exactly when some record does,
      and otherwise holds each record's sample at its position. */
  function SamplesOf(vs: seq<Value>): (r: Outcome<seq<Sample>>)
    ensures r.Ok? <==> forall k :: 0 <= k < |vs| ==> SampleOf(vs[k]).Ok?
    ensures r.Ok? ==> |r.value| == |vs|
    ensures r.Ok? ==> forall k :: 0 <= k < |vs| ==> r.value[k] == SampleOf(vs[k]).value
  {
    if vs == [] then Ok([])
    else
      match (SamplesOf(vs[..|vs| - 1]), SampleOf(vs[|vs| - 1]))
      case (Ok(ss), Ok(s)) => Ok(ss + [s])
      case _ => Raised
  }

  /** `get_representative_weather` of a truthy list, or of a truthy dict as
      a one-record list; anything else has no weather. */
  function WeatherOf(weather: Value): (w: Outcome<Option<Representative>>)
    ensures !Truthy(weather) || !(weather.List? || weather.Dict?) ==> w == Ok(None)
    ensures Truthy(weather) && weather.List? ==>
              w == (if SamplesOf(weather.items).Ok? then Ok(Some(RepresentativeWeather(SamplesOf(weather.items).value)))
                    else Raised)
    ensures Truthy(weather) && weather.Dict? ==>
              w == (if SampleOf(weather).Ok? then Ok(Some(RepresentativeWeather([SampleOf(weather).value])))
                    else Raised)
  {
    if Truthy(weather) && weather.List? then
      match SamplesOf(weather.items)
      case Ok(ss) => Ok(Some(RepresentativeWeather(ss)))
      case Raised => Raised
    else if Truthy(weather) && weather.Dict? then
      match SampleOf(weather)
      case Ok(s) => Ok(Some(RepresentativeWeather([s])))
      case Raised => Raised
    else Ok(None)
  }

  function ResultsOf(py: Builtins, results: Option<seq<ResultDtoV1.ResultModel>>): (ds: seq<ResultDtoV1.ResultDto>)
    ensures results.None? ==> ds == []
    ensures results.Some? ==> |ds| == |results.value|
    ensures results.Some? ==> forall k :: 0 <= k < |ds| ==> ds[k] == ResultDtoV1.FromModel(py, results.value[k])
  {
    var rs := results.GetOr([]);
    seq(|rs|, k requires 0 <= k < |rs| => ResultDtoV1.FromModel(py, rs[k]))
  }

  function FromModel(py: Builtins, s: SessionModel): (d: Outcome<SessionDto>)
    ensures d.Ok? <==> WeatherOf(s.weather).Ok?
    ensures d.Ok? ==> 0 <= d.value.round < FirstMeetingKey && (d.value.round - s.round) % FirstMeetingKey == 0
    ensures d.Ok? ==> d.value.weather == WeatherOf(s.weather).value && d.value.results == ResultsOf(py, s.results)
    ensures d.Ok? ==> && d.value.id == s.id && d.value.year == s.year && d.value.sessionKey == s.sessionKey
                      && d.value.sessionType == s.sessionType && d.value.sessionName == s.sessionName
                      && d.value.sessionDate == s.sessionDate && d.value.circuitId == s.circuitId
                      && d.value.status == s.status && d.value.createdAt == s.createdAt
                      && d.value.updatedAt == s.updatedAt
  {
    match WeatherOf(s.weather)
    case Raised => Raised
    case Ok(weather) =>
      Ok(SessionDto(
        s.id, s.year, s.round % FirstMeetingKey, s.sessionKey, s.sessionType, s.sessionName,
        s.sessionDate, s.circuitId, s.status, weather, s.createdAt, s.updatedAt, ResultsOf(py, s.results)))
  }

  /** Only a truthy, hence non-empty, list or dict is analysed, so the
      analyser's "no weather data" answer never reaches a session, and
      neither does `rainy_clearing` or `unknown`. */
  lemma WeatherNeverErrorDict(py: Builtins, s: SessionModel)
    requires FromModel(py, s).Ok? && FromModel(py, s).value.weather.Some?
    ensures FromModel(py, s).value.weather.value.Representative?
    ensures FromModel(py, s).value.weather.value.condition !in {RainyClearing, Unknown}
  {
    var w := s.weather;
    if w.List? {
      var ss := SamplesOf(w.items).value;
      assert |ss| == |w.items| > 0;
      RepresentativeIsMostSevereMode(ss);
      RepresentativeNeverClearing(ss);
    } else {
      var one := [SampleOf(w).value];
      RepresentativeIsMostSevereMode(one);
      RepresentativeNeverClearing(one);
    }
  }
}
