/** The record building of the v1 importer: the session row built from an
    upstream session, and the result row built from an upstream session
    result, with its status precedence and its numeric coercion. */
module ImportData {
  import opened PyValue

  // ---------------------------------------------------------------------
  // Sessions

  /** `int(x) if x else None`: falsy values give `None`, the others their
      `int()`, which may raise. */
  function IntIfTruthy(py: Builtins, v: Value): (r: Outcome<Option<int>>)
    ensures !Truthy(v) <==> r == Ok(None)
    ensures Truthy(v) && v.Int? ==> r == Ok(Some(v.i))
    ensures Truthy(v) && (v.List? || v.Dict?) ==> r.Raised?
  {
    if !Truthy(v) then Ok(None)
    else
      match IntOf(py, v)
      case Some(i) => Ok(Some(i))
      case None => Raised
  }

  /** "Completed" once the session's end lies before now, "Scheduled" while
      it has not ended or has no end date. */
  function SessionStatus(dateEnd: Option<Timestamp>, now: Timestamp): (s: string)
    ensures s == "Completed" <==> dateEnd.Some? && dateEnd.value < now
    ensures s != "Completed" ==> s == "Scheduled"
  {
    if dateEnd.Some? && dateEnd.value < now then "Completed" else "Scheduled"
  }

  /** The fields of `session_data` the importer computes (the dates, the
      circuit and the weather come from lookups outside this model). */
  datatype SessionData = SessionData(
    year: Option<int>,
    round: Option<int>,
    sessionKey: Option<int>,
    sessionType: string,
    sessionName: string,
    status: string)

  /** `session_data` for one upstream session; `dateEnd` is its parsed
      `date_end`, `now` the current time. Raises where an `int()` does. */
  function BuildSessionData(py: Builtins, year: Value, session: map<string, Value>,
                            dateEnd: Option<Timestamp>, now: Timestamp): (r: Outcome<SessionData>)
    ensures r.Ok? <==> && IntIfTruthy(py, year).Ok?
                       && IntIfTruthy(py, Get(session, "meeting_key", Null)).Ok?
                       && IntIfTruthy(py, Get(session, "session_key", Null)).Ok?
    ensures r.Ok? ==> r.value.status == SessionStatus(dateEnd, now)
    ensures r.Ok? ==> r.value.year == IntIfTruthy(py, year).value
  {
    var y := IntIfTruthy(py, year);
    var round := IntIfTruthy(py, Get(session, "meeting_key", Null));
    var key := IntIfTruthy(py, Get(session, "session_key", Null));
    if y.Raised? || round.Raised? || key.Raised? then Raised
    else
      Ok(SessionData(
        y.value, round.value, key.value,
        StrOf(py, Get(session, "session_type", Str(""))),
        StrOf(py, Get(session, "session_name", Str(""))),
        SessionStatus(dateEnd, now)))
  }

  /** Missing or falsy year, meeting key and session key are stored as
      `None`; integer ones as themselves; the status is the end-date rule. */
  lemma SessionDataFields(py: Builtins, year: Value, session: map<string, Value>,
                          dateEnd: Option<Timestamp>, now: Timestamp)
    requires BuildSessionData(py, year, session, dateEnd, now).Ok?
    ensures var d := BuildSessionData(py, year, session, dateEnd, now).value;
            && ("meeting_key" !in session ==> d.round.None?)
            && ("session_key" !in session ==> d.sessionKey.None?)
            && (!Truthy(year) <==> d.year.None?)
            && (year.Int? && year.i != 0 ==> d.year == Some(year.i))
            && ("session_type" !in session ==> d.sessionType == "")
            && ("session_name" !in session ==> d.sessionName == "")
            && (d.status == "Completed" <==> dateEnd.Some? && dateEnd.value < now)
  {
  }

  // ---------------------------------------------------------------------
  // Results

  /** The status expression: "Completed" without any flag, else the first
      of DNF, DNS, DSQ whose flag is truthy; "Finished" is its last
      alternative. */
  function ResultStatus(dnf: Value, dns: Value, dsq: Value): (s: string)
    ensures s == "Completed" <==> !Truthy(dnf) && !Truthy(dns) && !Truthy(dsq)
    ensures s == "DNF" <==> Truthy(dnf)
  {
    if !Truthy(dnf) && !Truthy(dns) && !Truthy(dsq) then "Completed"
    else if Truthy(dnf) then "DNF"
    else if Truthy(dns) then "DNS"
    else if Truthy(dsq) then "DSQ"
    else "Finished"
  }

  /** DNF beats DNS, which beats DSQ; the "Finished" alternative can never
      be produced. */
  lemma StatusPrecedence(dnf: Value, dns: Value, dsq: Value)
    ensures var s := ResultStatus(dnf, dns, dsq);
            && (s == "Completed" <==> !Truthy(dnf) && !Truthy(dns) && !Truthy(dsq))
            && (s == "DNF" <==> Truthy(dnf))
            && (s == "DNS" <==> !Truthy(dnf) && Truthy(dns))
            && (s == "DSQ" <==> !Truthy(dnf) && !Truthy(dns) && Truthy(dsq))
            && s in {"Completed", "DNF", "DNS", "DSQ"}
            && s != "Finished"
  {
  }

  /** `_to_float_if_possible`: `None` for `None` and "", the float for a
      convertible value, and the value itself (a list, say) otherwise. */
  function ToFloatIfPossible(py: Builtins, v: Value): (r: Value)
    ensures v.Null? || v == Str("") ==> r.Null?
    ensures !v.Null? && v != Str("") && FloatOf(py, v).Some? ==> r == Float(FloatOf(py, v).value)
    ensures !v.Null? && v != Str("") && FloatOf(py, v).None? ==> r == v
  {
    if v.Null? || v == Str("") then Null
    else
      match FloatOf(py, v)
      case Some(f) => Float(f)
      case None => v
  }

  /** A number comes back as the same number, a list unchanged. */
  lemma ToFloatExamples(py: Builtins, xs: seq<Value>, i: int, f: real)
    ensures ToFloatIfPossible(py, Int(i)) == Float(i as real)
    ensures ToFloatIfPossible(py, Float(f)) == Float(f)
    ensures ToFloatIfPossible(py, List(xs)) == List(xs)
    ensures ToFloatIfPossible(py, Bool(true)) == Float(1.0)
  {
  }

  /** The `result_data` row of one upstream session result (the session
      key, its type and the timestamps aside). */
  datatype ResultData = ResultData(
    meetingKey: Value,
    driverNumber: Value,
    position: Value,
    points: real,
    dnf: Value,
    dns: Value,
    dsq: Value,
    status: string,
    lapsCompleted: Value,
    time: Value,
    gapToLeader: Value)

  /** `result_data` for one result; `Raised` when `float()` of the points
      fails (the importer then skips the result). */
  function BuildResultData(py: Builtins, result: map<string, Value>): (r: Outcome<ResultData>)
    ensures r.Ok? <==> FloatOf(py, Get(result, "points", Int(0))).Some?
    ensures r.Ok? ==> r.value.points == FloatOf(py, Get(result, "points", Int(0))).value
    ensures r.Ok? ==> r.value.status == ResultStatus(r.value.dnf, r.value.dns, r.value.dsq)
  {
    var dnf := Get(result, "dnf", Bool(false));
    var dns := Get(result, "dns", Bool(false));
    var dsq := Get(result, "dsq", Bool(false));
    match FloatOf(py, Get(result, "points", Int(0)))
    case None => Raised
    case Some(points) =>
      Ok(ResultData(
        Get(result, "meeting_key", Null),
        Get(result, "driver_number", Null),
        Get(result, "position", Null),
        points,
        dnf, dns, dsq,
        ResultStatus(dnf, dns, dsq),
        Get(result, "number_of_laps", Int(0)),
        ToFloatIfPossible(py, Get(result, "duration", Null)),
        ToFloatIfPossible(py, Get(result, "gap_to_leader", Null))))
  }

  /** Missing flags are False and give "Completed", missing points are 0.0,
      missing laps 0; a numeric `points` never makes the row fail, a `null`
      one always does. */
  lemma ResultDataDefaults(py: Builtins, result: map<string, Value>)
    ensures BuildResultData(py, result).Ok? <==> FloatOf(py, Get(result, "points", Int(0))).Some?
    ensures "points" !in result || IsNumber(result["points"]) ==> BuildResultData(py, result).Ok?
    ensures "points" in result && result["points"].Null? ==> BuildResultData(py, result).Raised?
    ensures BuildResultData(py, result).Ok? ==>
              var d := BuildResultData(py, result).value;
              && ("dnf" !in result ==> d.dnf == Bool(false))
              && ("dns" !in result ==> d.dns == Bool(false))
              && ("dsq" !in result ==> d.dsq == Bool(false))
              && ("dnf" !in result && "dns" !in result && "dsq" !in result ==> d.status == "Completed")
              && ("points" !in result ==> d.points == 0.0)
              && ("number_of_laps" !in result ==> d.lapsCompleted == Int(0))
              && ("duration" !in result ==> d.time.Null?)
              && ("gap_to_leader" !in result ==> d.gapToLeader.Null?)
  {
  }
}
