/** The tolerant value parsers shared, word for word, by the v1 and v2
    result DTOs: `None` in gives `None` out, and a failed conversion gives
    `None` instead of an exception. */
module ResultParsers {
  import opened PyValue

  /** `_parse_int_value` */
  function ParseInt(py: Builtins, v: Value): (r: Option<int>)
    ensures v.Null? ==> r.None?
    ensures v.Int? ==> r == Some(v.i)
    ensures v.Float? ==> r == Some(Trunc(v.f))
    ensures v.List? || v.Dict? ==> r.None?
    ensures v.Str? ==> r == py.intOfText(v.s)
  {
    if v.Null? then None else IntOf(py, v)
  }

  /** `_parse_float_value` */
  function ParseFloat(py: Builtins, v: Value): (r: Option<real>)
    ensures v.Null? ==> r.None?
    ensures IsNumber(v) ==> r == Some(NumberOf(v))
    ensures v.List? || v.Dict? ==> r.None?
    ensures v.Str? ==> r == py.floatOfText(v.s)
  {
    if v.Null? then None else FloatOf(py, v)
  }

  /** `_parse_time_value`: a list stands for its first element; an empty
      list has no time. */
  function ParseTime(py: Builtins, v: Value): (t: Option<real>)
    ensures !v.List? ==> t == ParseFloat(py, v)
    ensures v.List? && v.items == [] ==> t.None?
    ensures v.List? && v.items != [] ==> t == ParseFloat(py, v.items[0])
  {
    if v.Null? then None
    else if v.List? then
      if v.items != [] then FloatOf(py, v.items[0]) else None
    else FloatOf(py, v)
  }

  /** A time is parsed like a float, except that a list is read through its
      first element alone: the rest of the list never matters. */
  lemma TimeIsFirstElementFloat(py: Builtins, v: Value, x: Value, rest: seq<Value>)
    ensures !v.List? ==> ParseTime(py, v) == ParseFloat(py, v)
    ensures ParseTime(py, List([x] + rest)) == ParseFloat(py, x)
    ensures ParseTime(py, List([])).None?
  {
    assert ([x] + rest)[0] == x;
  }

  /** `_parse_int_value(v) or 0`: a count that is never `None`. */
  function CountOrZero(py: Builtins, v: Value): (n: int)
    ensures ParseInt(py, v).Some? ==> n == ParseInt(py, v).value
    ensures ParseInt(py, v).None? ==> n == 0
  {
    match ParseInt(py, v)
    case Some(i) => i
    case None => 0
  }
}

/** `ResultDto.from_model` of the v2 API. */
module ResultDtoV2 {
  import opened PyValue
  import opened ResultParsers

  /** A stored result row (its columns as the database returns them). */
  datatype ResultModel = ResultModel(
    id: Value,
    sessionId: Value,
    driverNumber: Value,
    position: Value,
    points: Value,
    status: Option<string>,
    lapsCompleted: Value,
    q1: Value,
    q2: Value,
    q3: Value,
    time: Value,
    createdAt: Option<Timestamp>,
    updatedAt: Option<Timestamp>)

  datatype ResultDto = ResultDto(
    id: Option<int>,
    sessionId: Option<int>,
    driverNumber: Option<int>,
    position: Option<int>,
    points: Option<real>,
    status: Option<string>,
    lapsCompleted: int,
    q1: Option<real>,
    q2: Option<real>,
    q3: Option<real>,
    time: Option<real>,
    createdAt: Option<Timestamp>,
    updatedAt: Option<Timestamp>)

  /** Every numeric field goes through its parser; status and timestamps
      are copied; the lap count is 0 where it cannot be parsed. */
  function FromModel(py: Builtins, r: ResultModel): (d: ResultDto)
    ensures d.status == r.status && d.createdAt == r.createdAt && d.updatedAt == r.updatedAt
    ensures r.lapsCompleted.Null? ==> d.lapsCompleted == 0
    ensures r.lapsCompleted.Int? ==> d.lapsCompleted == r.lapsCompleted.i
    ensures d.lapsCompleted == CountOrZero(py, r.lapsCompleted)
    ensures d.id == ParseInt(py, r.id) && d.sessionId == ParseInt(py, r.sessionId)
    ensures d.driverNumber == ParseInt(py, r.driverNumber) && d.position == ParseInt(py, r.position)
    ensures d.points == ParseFloat(py, r.points)
    ensures d.q1 == ParseTime(py, r.q1) && d.q2 == ParseTime(py, r.q2) && d.q3 == ParseTime(py, r.q3)
    ensures d.time == ParseTime(py, r.time)
  {
    ResultDto(
      ParseInt(py, r.id),
      ParseInt(py, r.sessionId),
      ParseInt(py, r.driverNumber),
      ParseInt(py, r.position),
      ParseFloat(py, r.points),
      r.status,
      CountOrZero(py, r.lapsCompleted),
      ParseTime(py, r.q1),
      ParseTime(py, r.q2),
      ParseTime(py, r.q3),
      ParseTime(py, r.time),
      r.createdAt,
      r.updatedAt)
  }
}

/** `ResultDto.from_model` of the v1 API. */
module ResultDtoV1 {
  import opened PyValue
  import opened ResultParsers

  datatype ResultModel = ResultModel(
    id: Value,
    sessionKey: Value,
    meetingKey: Value,
    sessionType: Option<string>,
    driverNumber: Value,
    position: Value,
    points: Value,
    status: Option<string>,
    dnf: Value,
    dns: Value,
    dsq: Value,
    lapsCompleted: Value,
    time: Value,
    gapToLeader: Value,
    createdAt: Option<Timestamp>,
    updatedAt: Option<Timestamp>)

  datatype ResultDto = ResultDto(
    id: Option<int>,
    sessionKey: Option<int>,
    meetingKey: Option<int>,
    sessionType: Option<string>,
    driverNumber: Option<int>,
    position: Option<int>,
    points: Option<real>,
    status: Option<string>,
    dnf: bool,
    dns: bool,
    dsq: bool,
    lapsCompleted: int,
    time: Option<real>,
    gapToLeader: Option<real>,
    createdAt: Option<Timestamp>,
    updatedAt: Option<Timestamp>)

  /** `bool(v) if v is not None else False` */
  function Flag(v: Value): (b: bool)
    ensures v.Null? ==> !b
    ensures v.Bool? ==> b == v.b
    ensures b <==> Truthy(v)
  {
    if v.Null? then false else Truthy(v)
  }

  function FromModel(py: Builtins, r: ResultModel): (d: ResultDto)
    ensures d.sessionType == r.sessionType && d.status == r.status
    ensures d.createdAt == r.createdAt && d.updatedAt == r.updatedAt
    ensures d.dnf == Truthy(r.dnf) && d.dns == Truthy(r.dns) && d.dsq == Truthy(r.dsq)
    ensures r.lapsCompleted.Null? ==> d.lapsCompleted == 0
    ensures r.lapsCompleted.Int? ==> d.lapsCompleted == r.lapsCompleted.i
    ensures d.lapsCompleted == CountOrZero(py, r.lapsCompleted)
    ensures d.time == ParseTime(py, r.time) && d.gapToLeader == ParseTime(py, r.gapToLeader)
    ensures d.id == ParseInt(py, r.id) && d.sessionKey == ParseInt(py, r.sessionKey)
    ensures d.meetingKey == ParseInt(py, r.meetingKey)
    ensures d.driverNumber == ParseInt(py, r.driverNumber) && d.position == ParseInt(py, r.position)
    ensures d.points == ParseFloat(py, r.points)
  {
    ResultDto(
      ParseInt(py, r.id),
      ParseInt(py, r.sessionKey),
      ParseInt(py, r.meetingKey),
      r.sessionType,
      ParseInt(py, r.driverNumber),
      ParseInt(py, r.position),
      ParseFloat(py, r.points),
      r.status,
      Flag(r.dnf),
      Flag(r.dns),
      Flag(r.dsq),
      CountOrZero(py, r.lapsCompleted),
      ParseTime(py, r.time),
      ParseTime(py, r.gapToLeader),
      r.createdAt,
      r.updatedAt)
  }

  /** A time or gap stored as a list collapses to the float of its first
      element, and an empty list to no value. */
  lemma ListTimesCollapse(py: Builtins, r: ResultModel)
    requires r.time.List? && r.gapToLeader.List?
    ensures FromModel(py, r).time == (if r.time.items == [] then None else ParseFloat(py, r.time.items[0]))
    ensures FromModel(py, r).gapToLeader == (if r.gapToLeader.items == [] then None else ParseFloat(py, r.gapToLeader.items[0]))
  {
  }
}
