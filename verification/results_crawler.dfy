/** The result crawler of the v2 API: the session name tables, the status
    rule, the practice ranking by fastest lap and the race/qualifying rows. */
module ResultsCrawler {
  import opened PyValue

  // ---------------------------------------------------------------------
  // Session name tables

  const SessionNameToCode: map<string, string> := map[
    "Practice 1" := "FP1",
    "Practice 2" := "FP2",
    "Practice 3" := "FP3",
    "Sprint Shootout" := "SS",
    "Sprint Qualifying" := "SQ",
    "Sprint" := "S",
    "Qualifying" := "Q",
    "Race" := "R"]

  const SessionNameToType: map<string, string> := map[
    "Practice 1" := "Practice",
    "Practice 2" := "Practice",
    "Practice 3" := "Practice",
    "Sprint Shootout" := "Practice",
    "Sprint Qualifying" := "Qualifying",
    "Qualifying" := "Qualifying",
    "Sprint" := "Race",
    "Race" := "Race"]

  /** `session_name_to_session_code.get(name, "Unknown")` */
  function SessionCode(name: string): string
  {
    if name in SessionNameToCode then SessionNameToCode[name] else "Unknown"
  }

  /** `session_name_to_session_type.get(name, "Unknown")` */
  function SessionType(name: string): string
  {
    if name in SessionNameToType then SessionNameToType[name] else "Unknown"
  }

  /** The type of a session, read off its code. */
  function TypeOfCode(code: string): string
  {
    if code in {"FP1", "FP2", "FP3", "SS"} then "Practice"
    else if code in {"SQ", "Q"} then "Qualifying"
    else if code in {"S", "R"} then "Race"
    else "Unknown"
  }

  /** The two tables name the same sessions and agree with each other: the
      practice and shootout sessions are of type Practice, the qualifying
      ones of type Qualifying, the sprint and the race of type Race, and a
      name in neither table is Unknown in both. */
  lemma TablesAgree(name: string)
    ensures name in SessionNameToCode <==> name in SessionNameToType
    ensures SessionType(name) == TypeOfCode(SessionCode(name))
  {
  }

  /** `needle in haystack` for strings. */
  predicate Contains(haystack: string, needle: string)
  {
    |needle| <= |haystack| && (haystack[..|needle|] == needle || Contains(haystack[1..], needle))
  }

  /** The crawler ranks a session by fastest lap exactly when its code
      contains "FP": the three free practice sessions. The sprint shootout,
      although of type Practice, and any unknown session go through the
      results branch. */
  lemma PracticeBranchIsFreePractice(name: string)
    ensures Contains(SessionCode(name), "FP") <==> name in {"Practice 1", "Practice 2", "Practice 3"}
  {
    var code := SessionCode(name);
    if name in {"Practice 1", "Practice 2", "Practice 3"} {
      assert code[..2] == "FP";
    } else {
      assert code in {"SS", "SQ", "S", "Q", "R", "Unknown"};
      assert forall i :: 0 <= i < |code| ==> code[i] != 'F';
      WithoutFNoFP(code);
    }
  }

  lemma {:induction false} WithoutFNoFP(h: string)
    requires forall i :: 0 <= i < |h| ==> h[i] != 'F'
    ensures !Contains(h, "FP")
  {
    if |h| >= 2 {
      assert h[..2][0] == h[0];
      WithoutFNoFP(h[1..]);
    }
  }

  // ---------------------------------------------------------------------
  // Status

  /** `determine_status`: the session's own status when it is non-empty,
      otherwise "Finished" when any of Q1, Q2, Q3 or the time is known. */
  function DetermineStatus(status: string, q1: Option<real>, q2: Option<real>, q3: Option<real>,
                           time: Option<real>): (r: string)
    ensures r != ""
  {
    if status != "" then status
    else if q1.Some? || q2.Some? || q3.Some? || time.Some? then "Finished"
    else "Retired"
  }

  lemma DetermineStatusCases(status: string, q1: Option<real>, q2: Option<real>, q3: Option<real>, time: Option<real>)
    ensures status != "" ==> DetermineStatus(status, q1, q2, q3, time) == status
    ensures status == "" ==>
              (DetermineStatus(status, q1, q2, q3, time) == "Finished" <==> q1.Some? || q2.Some? || q3.Some? || time.Some?)
    ensures status == "" ==> DetermineStatus(status, q1, q2, q3, time) in {"Finished", "Retired"}
  {
  }

  // ---------------------------------------------------------------------
  // Result rows

  /** The `result_data` dictionary a session result is saved as (the
      session id and timestamps aside). `position` is `None` until the
      practice ranking assigns it. */
  datatype ResultRow = ResultRow(
    driverNumber: string,
    position: Option<real>,
    points: real,
    lapsCompleted: nat,
    q1: real,
    q2: real,
    q3: real,
    time: real,
    status: string)

  /** What the crawler reads for one driver of a practice session: the
      fastest lap time in seconds (`None` when there is no fastest lap or its
      time is NaT) and the number of laps. */
  datatype PracticeLap = PracticeLap(driverNumber: string, lapTime: Option<real>, lapsCompleted: nat)

  /** The practice row of one driver: no points, no qualifying times, the lap
      time or 0.0, and "Finished" only for a positive lap time. */
  function PracticeRow(d: PracticeLap): (r: ResultRow)
    ensures r.status == "Finished" <==> d.lapTime.Some? && d.lapTime.value > 0.0
    ensures r.status != "Finished" ==> r.status == "Retired"
    ensures d.lapTime.None? ==> r.time == 0.0
    ensures r.points == 0.0 && r.q1 == 0.0 && r.q2 == 0.0 && r.q3 == 0.0 && r.position.None?
  {
    var time := d.lapTime;
    ResultRow(
      d.driverNumber, None, 0.0, d.lapsCompleted, 0.0, 0.0, 0.0,
      if time.Some? then time.value else 0.0,
      if time.Some? && time.value > 0.0 then "Finished" else "Retired")
  }

  function PracticeRows(drivers: seq<PracticeLap>): (rows: seq<ResultRow>)
    ensures |rows| == |drivers|
  {
    seq(|drivers|, k requires 0 <= k < |drivers| => PracticeRow(drivers[k]))
  }

  // ---------------------------------------------------------------------
  // Practice ranking

  /** The sort key: `inf` for a time of 0.0, otherwise the time. */
  datatype LapKey = Timed(seconds: real) | Untimed

  function KeyOf(r: ResultRow): LapKey
  {
    if r.time == 0.0 then Untimed else Timed(r.time)
  }

  /** The order of the keys; `inf` is above every time. */
  predicate KeyLe(a: LapKey, b: LapKey)
  {
    b.Untimed? || (a.Timed? && a.seconds <= b.seconds)
  }

  predicate RowLe(a: ResultRow, b: ResultRow)
  {
    KeyLe(KeyOf(a), KeyOf(b))
  }

  predicate SortedByLapTime(rows: seq<ResultRow>)
  {
    forall p, q :: 0 <= p < q < |rows| ==> RowLe(rows[p], rows[q])
  }

  /** The rows with the given key, in order. */
  function WithKey(rows: seq<ResultRow>, key: LapKey): seq<ResultRow>
  {
    if rows == [] then []
    else WithKey(rows[..|rows| - 1], key) + (if KeyOf(rows[|rows| - 1]) == key then [rows[|rows| - 1]] else [])
  }

  /** Rows with equal keys are in the same relative order in both: what a
      stable sort keeps. */
  ghost predicate SameTies(a: seq<ResultRow>, b: seq<ResultRow>)
  {
    forall key :: WithKey(a, key) == WithKey(b, key)
  }

  lemma {:induction false} WithKeyAppend(a: seq<ResultRow>, b: seq<ResultRow>, key: LapKey)
    ensures WithKey(a + b, key) == WithKey(a, key) + WithKey(b, key)
    decreases |b|
  {
    if b == [] {
      assert a + b == a;
    } else {
      var q := b[..|b| - 1];
      WithKeyAppend(a, q, key);
      assert (a + b)[..|a + b| - 1] == a + q;
      assert (a + b)[|a + b| - 1] == b[|b| - 1];
    }
  }

  /** Two rows with different keys can trade places without changing any
      key's rows. */
  lemma PairSwap(x: ResultRow, y: ResultRow, key: LapKey)
    requires KeyOf(x) != KeyOf(y)
    ensures WithKey([x, y], key) == WithKey([y, x], key)
  {
    assert [x, y][..1] == [x] && [y, x][..1] == [y];
  }

  /** Swapping two neighbours with different keys keeps the ties in order. */
  lemma SwapKeepsTies(s: seq<ResultRow>, j: nat)
    requires 0 < j < |s| && KeyOf(s[j - 1]) != KeyOf(s[j])
    ensures SameTies(s[..j - 1] + [s[j], s[j - 1]] + s[j + 1..], s)
  {
    var pre, post := s[..j - 1], s[j + 1..];
    var x, y := s[j - 1], s[j];
    assert s == pre + [x, y] + post;
    forall key ensures WithKey(pre + [y, x] + post, key) == WithKey(pre + [x, y] + post, key) {
      WithKeyAppend(pre + [y, x], post, key);
      WithKeyAppend(pre, [y, x], key);
      WithKeyAppend(pre + [x, y], post, key);
      WithKeyAppend(pre, [x, y], key);
      PairSwap(x, y, key);
    }
  }

  /** The rows up to `i` are in order, except possibly around position `j`,
      the row being moved down. */
  predicate OrderedExcept(s: seq<ResultRow>, i: int, j: int)
    requires i < |s|
  {
    forall p, q :: 0 <= p < q <= i && q != j ==> RowLe(s[p], s[q])
  }

  function Swapped(s: seq<ResultRow>, j: int): seq<ResultRow>
    requires 0 < j < |s|
  {
    s[j - 1 := s[j]][j := s[j - 1]]
  }

  /** Swapping the moving row with a larger left neighbour moves the gap
      one place left, keeps the rows and keeps the ties in order. */
  lemma SwapStep(s: seq<ResultRow>, i: int, j: int)
    requires 0 < j <= i < |s|
    requires OrderedExcept(s, i, j) && !RowLe(s[j - 1], s[j])
    ensures OrderedExcept(Swapped(s, j), i, j - 1)
    ensures multiset(Swapped(s, j)) == multiset(s)
    ensures SameTies(Swapped(s, j), s)
  {
    assert Swapped(s, j) == s[..j - 1] + [s[j], s[j - 1]] + s[j + 1..];
    SwapKeepsTies(s, j);
  }

  /** Once the moving row's left neighbour is not larger, rows 0..i are
      sorted. */
  lemma InsertDone(s: seq<ResultRow>, i: int, j: int)
    requires 0 <= j <= i < |s|
    requires OrderedExcept(s, i, j) && (j == 0 || RowLe(s[j - 1], s[j]))
    ensures SortedByLapTime(s[..i + 1])
  {
    forall p, q | 0 <= p < q <= i ensures RowLe(s[p], s[q]) {
      if q == j && p < j - 1 {
        assert RowLe(s[p], s[j - 1]);
      }
    }
  }

  /** One insertion step: row `i` is moved down into the sorted rows before
      it by adjacent swaps, past larger rows only. */
  method InsertRow(a: array<ResultRow>, i: int)
    requires 0 < i < a.Length && SortedByLapTime(a[..i])
    modifies a
    ensures SortedByLapTime(a[..i + 1])
    ensures multiset(a[..]) == multiset(old(a[..]))
    ensures SameTies(a[..], old(a[..]))
  {
    var j := i;
    while j > 0 && !RowLe(a[j - 1], a[j])
      invariant 0 <= j <= i
      invariant OrderedExcept(a[..], i, j)
      invariant multiset(a[..]) == multiset(old(a[..]))
      invariant SameTies(a[..], old(a[..]))
    {
      ghost var before := a[..];
      SwapStep(before, i, j);
      a[j - 1], a[j] := a[j], a[j - 1];
      assert a[..] == Swapped(before, j);
      j := j - 1;
    }
    InsertDone(a[..], i, j);
  }

  /** `driver_results.sort(key=...)`: a stable sort by lap time, by
      insertion with adjacent swaps. */
  method SortByLapTime(a: array<ResultRow>)
    modifies a
    ensures SortedByLapTime(a[..])
    ensures multiset(a[..]) == multiset(old(a[..]))
    ensures SameTies(a[..], old(a[..]))
  {
    if a.Length == 0 {
      return;
    }
    var i := 1;
    while i < a.Length
      invariant 1 <= i <= a.Length
      invariant SortedByLapTime(a[..i])
      invariant multiset(a[..]) == multiset(old(a[..]))
      invariant SameTies(a[..], old(a[..]))
    {
      InsertRow(a, i);
      i := i + 1;
    }
    assert a[..i] == a[..];
  }

  /** The position loop: the k-th row (from 1) gets position k. */
  method AssignPositions(a: array<ResultRow>)
    modifies a
    ensures forall k :: 0 <= k < a.Length ==> a[k] == old(a[k]).(position := Some((k + 1) as real))
  {
    var i := 0;
    while i < a.Length
      invariant 0 <= i <= a.Length
      invariant forall k :: 0 <= k < i ==> a[k] == old(a[k]).(position := Some((k + 1) as real))
      invariant forall k :: i <= k < a.Length ==> a[k] == old(a[k])
    {
      a[i] := a[i].(position := Some((i + 1) as real));
      i := i + 1;
    }
  }

  /** A row with its position cleared. */
  function Unranked(rows: seq<ResultRow>): seq<ResultRow>
  {
    seq(|rows|, k requires 0 <= k < |rows| => rows[k].(position := None))
  }

  /** The practice branch: one row per driver, sorted by lap time with the
      untimed drivers last and ties in driver order, then numbered 1..n. */
  method RankPractice(drivers: seq<PracticeLap>) returns (rows: seq<ResultRow>)
    ensures |rows| == |drivers|
    ensures forall k :: 0 <= k < |rows| ==> rows[k].position == Some((k + 1) as real)
    ensures SortedByLapTime(rows)
    ensures multiset(Unranked(rows)) == multiset(PracticeRows(drivers))
    ensures SameTies(Unranked(rows), PracticeRows(drivers))
  {
    var driverResults := new ResultRow[|drivers|](k requires 0 <= k < |drivers| => PracticeRow(drivers[k]));
    assert driverResults[..] == PracticeRows(drivers);
    SortByLapTime(driverResults);
    ghost var sorted := driverResults[..];
    forall k | 0 <= k < |sorted| ensures sorted[k].position.None? {
      assert sorted[k] in multiset(PracticeRows(drivers));
    }
    AssignPositions(driverResults);
    rows := driverResults[..];
    assert Unranked(rows) == sorted;
    forall p, q | 0 <= p < q < |rows| ensures RowLe(rows[p], rows[q]) {
      assert KeyOf(rows[p]) == KeyOf(sorted[p]) && KeyOf(rows[q]) == KeyOf(sorted[q]);
    }
  }

  /** In a sorted ranking every untimed driver comes after every timed
      one, and the timed ones are in non-decreasing time. */
  lemma SortedMeansUntimedLast(rows: seq<ResultRow>)
    requires SortedByLapTime(rows)
    ensures forall p, q :: 0 <= p < |rows| && 0 <= q < |rows| && rows[p].time != 0.0 && rows[q].time == 0.0 ==> p < q
    ensures forall p, q :: 0 <= p < q < |rows| && rows[p].time != 0.0 && rows[q].time != 0.0 ==> rows[p].time <= rows[q].time
  {
  }

  // ---------------------------------------------------------------------
  // Race and qualifying rows

  /** What the crawler reads for one row of `session.results`: NaN/NaT
      cells are `None`; `time` is the row's `Time` in seconds. A frame
      without a `Time` column reads like one whose every `Time` is NaT. */
  datatype SessionResult = SessionResult(
    driverNumber: string,
    position: Option<real>,
    points: Option<real>,
    q1: Option<real>,
    q2: Option<real>,
    q3: Option<real>,
    time: Option<real>,
    status: string,
    lapsCompleted: nat)

  /** `time_val`: nothing without an own time; the leader time for the
      driver whose position is 1; otherwise the leader time plus the own time
      (a gap) when the leader time is known. `int()` of a NaN position raises,
      which the handler turns into no time. */
  function RaceTime(leaderTime: Option<real>, r: SessionResult): (t: Option<real>)
    ensures t.Some? ==> r.time.Some? && r.position.Some? && leaderTime.Some?
    ensures r.time.Some? && r.position.Some? && leaderTime.Some? ==> t.Some?
    ensures t.Some? && Trunc(r.position.value) == 1 ==> t == leaderTime
    ensures t.Some? && Trunc(r.position.value) != 1 ==> t.value == leaderTime.value + r.time.value
  {
    if r.time.None? || r.position.None? then None
    else if Trunc(r.position.value) == 1 then leaderTime
    else if leaderTime.Some? then Some(leaderTime.value + r.time.value)
    else None
  }

  function RaceRow(leaderTime: Option<real>, r: SessionResult): ResultRow
  {
    var time := RaceTime(leaderTime, r);
    ResultRow(
      r.driverNumber,
      Some(r.position.GetOr(0.0)),
      r.points.GetOr(0.0),
      r.lapsCompleted,
      r.q1.GetOr(0.0), r.q2.GetOr(0.0), r.q3.GetOr(0.0),
      time.GetOr(0.0),
      DetermineStatus(r.status, r.q1, r.q2, r.q3, time))
  }

  /** The leader time is the first row's `Time`. */
  function LeaderTime(results: seq<SessionResult>): Option<real>
  {
    if |results| > 0 then results[0].time else None
  }

  /** The rows saved for a race or qualifying session, one per result and in
      the same order. */
  function RaceRows(results: seq<SessionResult>): (rows: seq<ResultRow>)
    ensures |rows| == |results|
  {
    seq(|results|, k requires 0 <= k < |results| => RaceRow(LeaderTime(results), results[k]))
  }

  /** The Position-1 driver gets the leader time, another driver with a time
      gets leader time plus gap when the leader time is known, and every
      other row stores 0.0; missing position, points and qualifying times are
      stored as 0. */
  lemma RaceRowFields(results: seq<SessionResult>, k: nat)
    requires k < |results|
    ensures var r := results[k];
            var row := RaceRows(results)[k];
            var leader := LeaderTime(results);
            && (r.time.Some? && r.position.Some? && Trunc(r.position.value) == 1 ==> row.time == leader.GetOr(0.0))
            && (r.time.Some? && r.position.Some? && Trunc(r.position.value) != 1 && leader.Some? ==>
                  row.time == leader.value + r.time.value)
            && (r.time.None? || r.position.None? ==> row.time == 0.0)
            && (r.position.None? ==> row.position == Some(0.0))
            && (r.points.None? ==> row.points == 0.0)
            && (r.q1.None? ==> row.q1 == 0.0) && (r.q2.None? ==> row.q2 == 0.0) && (r.q3.None? ==> row.q3 == 0.0)
            && row.driverNumber == r.driverNumber && row.lapsCompleted == r.lapsCompleted
  {
  }

  /** A first row with a time and position 1 gets its own time back. */
  lemma LeaderKeepsOwnTime(results: seq<SessionResult>)
    requires |results| > 0 && results[0].time.Some? && results[0].position == Some(1.0)
    ensures RaceRows(results)[0].time == results[0].time.value
  {
  }
}
