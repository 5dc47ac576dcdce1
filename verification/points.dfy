/** Season point totals: the race sessions of a year, their keys fetched in
    batches of 20, and the per-driver fold of the session results. */
module SeasonPoints {
  import opened PyValue

  const BatchSize: nat := 20

  function Min(a: int, b: int): int
  {
    if a < b then a else b
  }

  // ---------------------------------------------------------------------
  // Race sessions

  /** A session record whose `session_type` is `'Race'`. */
  predicate IsRace(s: Value)
  {
    s.Dict? && Get(s.fields, "session_type", Null) == Str("Race")
  }

  /** `[s['session_key'] for s in sessions if s.get('session_type') == 'Race']`
      over a list: raises when an item is not a dict (no `.get`) or when a race
      item has no `session_key`. */
  function RaceKeys(items: seq<Value>): Outcome<seq<Value>>
  {
    if items == [] then Ok([])
    else
      var rest := RaceKeys(items[..|items| - 1]);
      var s := items[|items| - 1];
      if rest.Raised? || !s.Dict? then Raised
      else if !IsRace(s) then rest
      else if "session_key" !in s.fields then Raised
      else Ok(rest.value + [s.fields["session_key"]])
  }

  /** `get_race_sessions` on the payload of the sessions endpoint. Iterating
      a string or a dict yields strings, which have no `.get`, so only the
      empty ones pass; any other non-list payload is not iterable. */
  function GetRaceSessions(payload: Value): (r: Outcome<seq<Value>>)
    ensures payload.List? ==> r == RaceKeys(payload.items)
    ensures !payload.List? ==> (r.Ok? <==> payload == Dict(map[]) || payload == Str(""))
    ensures r.Ok? && !payload.List? ==> r.value == []
  {
    match payload
    case List(items) => RaceKeys(items)
    case Dict(m) => if m == map[] then Ok([]) else Raised
    case Str(t) => if t == "" then Ok([]) else Raised
    case _ => Raised
  }

  /** The positions of the race sessions, in order. */
  function RaceIndices(items: seq<Value>): (idx: seq<nat>)
    ensures forall j :: 0 <= j < |idx| ==> idx[j] < |items| && IsRace(items[idx[j]])
  {
    if items == [] then []
    else RaceIndices(items[..|items| - 1]) + (if IsRace(items[|items| - 1]) then [|items| - 1] else [])
  }

  /** The filter keeps exactly the race sessions, in input order, and gives
      each one's `session_key`; it raises exactly when some item is not a dict
      or some race item has no key. */
  lemma {:induction false} RaceKeysAreRaceSessions(items: seq<Value>)
    ensures RaceKeys(items).Ok? <==>
              forall i :: 0 <= i < |items| ==> items[i].Dict? && (IsRace(items[i]) ==> "session_key" in items[i].fields)
    ensures RaceKeys(items).Ok? ==>
              var idx := RaceIndices(items);
              && |RaceKeys(items).value| == |idx|
              && forall j :: 0 <= j < |idx| ==> RaceKeys(items).value[j] == items[idx[j]].fields["session_key"]
  {
    if items != [] {
      var p := items[..|items| - 1];
      RaceKeysAreRaceSessions(p);
      assert forall i :: 0 <= i < |p| ==> p[i] == items[i];
    }
  }

  /** The race positions are increasing and are exactly the race items. */
  lemma {:induction false} RaceIndicesAreRaces(items: seq<Value>)
    ensures var idx := RaceIndices(items);
            && (forall j, k :: 0 <= j < k < |idx| ==> idx[j] < idx[k])
            && (forall i :: 0 <= i < |items| && IsRace(items[i]) ==> i in idx)
            && (forall j :: 0 <= j < |idx| ==> IsRace(items[idx[j]]))
  {
    if items != [] {
      var p := items[..|items| - 1];
      RaceIndicesAreRaces(p);
      assert forall i :: 0 <= i < |p| ==> p[i] == items[i];
      assert RaceIndices(items) == RaceIndices(p) + (if IsRace(items[|p|]) then [|p|] else []);
    }
  }

  // ---------------------------------------------------------------------
  // Batches

  /** `[keys[i:i + 20] for i in range(0, len(keys), 20)]` */
  function Batches<T>(keys: seq<T>): seq<seq<T>>
    decreases |keys|
  {
    if keys == [] then []
    else [keys[..Min(BatchSize, |keys|)]] + Batches(keys[Min(BatchSize, |keys|)..])
  }

  function Flatten<T>(xss: seq<seq<T>>): seq<T>
  {
    if xss == [] then [] else xss[0] + Flatten(xss[1..])
  }

  /** The batches concatenate back to the key list, each holds between 1 and
      20 keys, and there are `(n + 19) // 20` of them. */
  lemma {:induction false} BatchesPartition<T>(keys: seq<T>)
    ensures Flatten(Batches(keys)) == keys
    ensures forall j :: 0 <= j < |Batches(keys)| ==> 0 < |Batches(keys)[j]| <= BatchSize
    ensures |Batches(keys)| == (|keys| + BatchSize - 1) / BatchSize
    decreases |keys|
  {
    if keys != [] {
      var cut := Min(BatchSize, |keys|);
      BatchesPartition(keys[cut..]);
      assert keys[..cut] + keys[cut..] == keys;
      assert Batches(keys)[1..] == Batches(keys[cut..]);
    }
  }

  /** Batch j is `keys[20 j : 20 j + 20]`. */
  lemma {:induction false} BatchAt<T>(keys: seq<T>, j: nat)
    requires BatchSize * j < |keys|
    ensures j < |Batches(keys)|
    ensures Batches(keys)[j] == keys[BatchSize * j .. Min(BatchSize * j + BatchSize, |keys|)]
    decreases j
  {
    if j > 0 {
      var rest := keys[BatchSize..];
      BatchAt(rest, j - 1);
      var lo := BatchSize * (j - 1);
      var hi := Min(lo + BatchSize, |rest|);
      assert lo + BatchSize == BatchSize * j;
      assert hi + BatchSize == Min(BatchSize * j + BatchSize, |keys|);
      forall i | 0 <= i < hi - lo
        ensures rest[lo..hi][i] == keys[lo + BatchSize .. hi + BatchSize][i]
      {
      }
      assert rest[lo..hi] == keys[lo + BatchSize .. hi + BatchSize];
    }
  }

  // ---------------------------------------------------------------------
  // Fetching

  /** How the fetch of one session's results ended: with the payload the
      endpoint returned (`[]` when the client gave up), with a timeout, or
      with another exception. */
  datatype Fetch = Delivered(payload: Value) | TimedOut | Failed

  /** The entry `process_batch` appends for one fetch: `[]` on a timeout or an
      error. */
  function ResultOf(f: Fetch): Value
  {
    match f
    case Delivered(p) => p
    case TimedOut => List([])
    case Failed => List([])
  }

  /** The results of the given keys, in the order of the keys. */
  function Requested(keys: seq<Value>, fetch: Value -> Fetch): (rs: seq<Value>)
    ensures |rs| == |keys|
  {
    seq(|keys|, i requires 0 <= i < |keys| => ResultOf(fetch(keys[i])))
  }

  lemma RequestedAppend(a: seq<Value>, b: seq<Value>, fetch: Value -> Fetch)
    ensures Requested(a + b, fetch) == Requested(a, fetch) + Requested(b, fetch)
  {
  }

  /** The last element of `a` sits somewhere in a permutation `b` of it, and
      taking it out of both leaves permutations of each other. */
  lemma TakeOutLast(a: seq<Value>, b: seq<Value>) returns (k: nat)
    requires a != [] && multiset(a) == multiset(b)
    ensures k < |b| && b[k] == a[|a| - 1]
    ensures multiset(a[..|a| - 1]) == multiset(b[..k] + b[k + 1..])
  {
    var x := a[|a| - 1];
    assert x in multiset(b);
    k :| 0 <= k < |b| && b[k] == x;
    assert b == b[..k] + [x] + b[k + 1..];
    assert a == a[..|a| - 1] + [x];
    assert multiset(a[..|a| - 1]) == multiset(a) - multiset{x};
  }

  /** Taking key k out of the keys takes its result out of the results. */
  lemma RequestedTakeOut(b: seq<Value>, k: nat, fetch: Value -> Fetch)
    requires k < |b|
    ensures multiset(Requested(b, fetch)) ==
            multiset(Requested(b[..k] + b[k + 1..], fetch)) + multiset{ResultOf(fetch(b[k]))}
  {
    assert b == b[..k] + [b[k]] + b[k + 1..];
    RequestedAppend(b[..k], [b[k]], fetch);
    RequestedAppend(b[..k] + [b[k]], b[k + 1..], fetch);
    RequestedAppend(b[..k], b[k + 1..], fetch);
  }

  /** Mapping two permutations of each other gives permutations of each
      other. */
  lemma {:induction false} RequestedPermutation(a: seq<Value>, b: seq<Value>, fetch: Value -> Fetch)
    requires multiset(a) == multiset(b)
    ensures multiset(Requested(a, fetch)) == multiset(Requested(b, fetch))
    decreases |a|
  {
    if a != [] {
      var k := TakeOutLast(a, b);
      var a' := a[..|a| - 1];
      RequestedPermutation(a', b[..k] + b[k + 1..], fetch);
      assert a == a' + [a[|a| - 1]];
      RequestedAppend(a', [a[|a| - 1]], fetch);
      RequestedTakeOut(b, k, fetch);
    }
  }

  /** `process_batch`: one entry per key, in the order the fetches complete
      (given by `completionOrder`, a permutation of the batch), `[]` for a
      timeout or an error. */
  method ProcessBatch(sessionKeys: seq<Value>, fetch: Value -> Fetch, completionOrder: seq<Value> -> seq<Value>)
      returns (results: seq<Value>)
    requires multiset(completionOrder(sessionKeys)) == multiset(sessionKeys)
    ensures results == Requested(completionOrder(sessionKeys), fetch)
    ensures |results| == |sessionKeys|
    ensures multiset(results) == multiset(Requested(sessionKeys, fetch))
  {
    var completed := completionOrder(sessionKeys);
    results := [];
    var j := 0;
    while j < |completed|
      invariant 0 <= j <= |completed|
      invariant results == Requested(completed[..j], fetch)
    {
      results := results + [ResultOf(fetch(completed[j]))];
      j := j + 1;
    }
    assert completed[..j] == completed;
    RequestedPermutation(completed, sessionKeys, fetch);
    assert |multiset(completed)| == |multiset(sessionKeys)|;
  }

  // ---------------------------------------------------------------------
  // The points fold

  /** The state of the fold: the `driver_points` dictionary and the session
      count, or `Aborted` once an exception escapes it (a session's entry
      that is not a dict has no `.get`), which makes the outer handler
      return `{}`. */
  datatype Tally = Tally(points: map<Value, real>, sessions: nat) | Aborted

  function Lookup(m: map<Value, real>, key: Value): real
  {
    if key in m then m[key] else 0.0
  }

  /** One entry `result` of a session: skipped without a driver number or
      points, or with an unhashable driver number (TypeError, caught); with
      non-numeric points the defaultdict has already inserted the key with 0
      when the addition raises (TypeError, caught); `None` when the entry is
      not a dict (AttributeError, not caught). */
  function AddEntry(m: map<Value, real>, result: Value): Option<map<Value, real>>
  {
    if !result.Dict? then None
    else
      var driverNumber := Get(result.fields, "driver_number", Null);
      var points := Get(result.fields, "points", Null);
      if driverNumber == Null || points == Null || !Hashable(driverNumber) then Some(m)
      else if !IsNumber(points) then Some(m[driverNumber := Lookup(m, driverNumber)])
      else Some(m[driverNumber := Lookup(m, driverNumber) + NumberOf(points)])
  }

  /** The inner loop over one session's entries. */
  function AddEntries(m: map<Value, real>, entries: seq<Value>): Option<map<Value, real>>
  {
    if entries == [] then Some(m)
    else
      match AddEntries(m, entries[..|entries| - 1])
      case None => None
      case Some(m') => AddEntry(m', entries[|entries| - 1])
  }

  /** The outer loop over all session results: a non-list entry is skipped
      and not counted. */
  function TallyOf(allResults: seq<Value>): (t: Tally)
    ensures t.Tally? ==> t.sessions == CountLists(allResults)
  {
    if allResults == [] then Tally(map[], 0)
    else
      match TallyOf(allResults[..|allResults| - 1])
      case Aborted => Aborted
      case Tally(m, n) =>
        var s := allResults[|allResults| - 1];
        if !s.List? then Tally(m, n)
        else match AddEntries(m, s.items)
          case None => Aborted
          case Some(m') => Tally(m', n + 1)
  }

  /** The entry names this (hashable) driver and has points, so the driver
      gets a key. */
  predicate Touches(e: Value, driver: Value)
  {
    && e.Dict? && driver != Null && Hashable(driver)
    && Get(e.fields, "driver_number", Null) == driver
    && Get(e.fields, "points", Null) != Null
  }

  /** What the entry adds to this driver's total. */
  function Credit(e: Value, driver: Value): real
  {
    if Touches(e, driver) && IsNumber(Get(e.fields, "points", Null)) then NumberOf(Get(e.fields, "points", Null)) else 0.0
  }

  function EntriesTotal(entries: seq<Value>, driver: Value): real
  {
    if entries == [] then 0.0
    else EntriesTotal(entries[..|entries| - 1], driver) + Credit(entries[|entries| - 1], driver)
  }

  /** What one session result adds to this driver's total. */
  function SessionTotal(s: Value, driver: Value): real
  {
    if s.List? then EntriesTotal(s.items, driver) else 0.0
  }

  function SumOver(xs: seq<Value>, f: Value -> real): real
  {
    if xs == [] then 0.0 else SumOver(xs[..|xs| - 1], f) + f(xs[|xs| - 1])
  }

  /** The driver's total over all session results. */
  function TotalFor(allResults: seq<Value>, driver: Value): real
  {
    SumOver(allResults, s => SessionTotal(s, driver))
  }

  function CountLists(xs: seq<Value>): (n: nat)
    ensures n <= |xs|
  {
    if xs == [] then 0 else CountLists(xs[..|xs| - 1]) + (if xs[|xs| - 1].List? then 1 else 0)
  }

  /** A list session result holding an entry that is not a dict. */
  predicate Malformed(s: Value)
  {
    s.List? && exists e :: e in s.items && !e.Dict?
  }

  predicate TouchedIn(allResults: seq<Value>, driver: Value)
  {
    exists s :: s in allResults && s.List? && exists e :: e in s.items && Touches(e, driver)
  }

  lemma EntryPointwise(m: map<Value, real>, e: Value)
    ensures AddEntry(m, e).None? <==> !e.Dict?
    ensures AddEntry(m, e).Some? ==>
              var m' := AddEntry(m, e).value;
              forall driver :: && (driver in m' <==> driver in m || Touches(e, driver))
                               && Lookup(m', driver) == Lookup(m, driver) + Credit(e, driver)
  {
  }

  lemma {:induction false} EntriesPointwise(m: map<Value, real>, entries: seq<Value>)
    ensures AddEntries(m, entries).None? <==> exists e :: e in entries && !e.Dict?
    ensures AddEntries(m, entries).Some? ==>
              var m' := AddEntries(m, entries).value;
              forall driver :: && (driver in m' <==> driver in m || exists e :: e in entries && Touches(e, driver))
                               && Lookup(m', driver) == Lookup(m, driver) + EntriesTotal(entries, driver)
  {
    if entries != [] {
      var p := entries[..|entries| - 1];
      var e := entries[|entries| - 1];
      EntriesPointwise(m, p);
      assert entries == p + [e];
      assert forall x :: x in entries <==> x in p || x == e;
      if AddEntries(m, p).Some? {
        var mp := AddEntries(m, p).value;
        EntryPointwise(mp, e);
        if AddEntry(mp, e).Some? {
          var m' := AddEntry(mp, e).value;
          forall driver
            ensures driver in m' <==> driver in m || exists x :: x in entries && Touches(x, driver)
          {
            if driver in m' && driver !in m && !Touches(e, driver) {
              assert driver in mp;
              var x :| x in p && Touches(x, driver);
              assert x in entries;
            }
          }
        }
      }
    }
  }

  /** The fold characterised point by point: it aborts exactly when some list
      result holds a non-dict entry; otherwise it counts the list results, a
      driver has a key exactly when some entry names it with points, and its
      total is the sum of the numeric points of the entries that name it. */
  lemma {:induction false} TallyPointwise(allResults: seq<Value>)
    ensures TallyOf(allResults).Aborted? <==> exists s :: s in allResults && Malformed(s)
    ensures TallyOf(allResults).Tally? ==>
              var t := TallyOf(allResults);
              && t.sessions == CountLists(allResults)
              && forall driver :: && (driver in t.points <==> TouchedIn(allResults, driver))
                                  && Lookup(t.points, driver) == TotalFor(allResults, driver)
  {
    if allResults != [] {
      var p := allResults[..|allResults| - 1];
      var s := allResults[|allResults| - 1];
      TallyPointwise(p);
      assert allResults == p + [s];
      assert forall x :: x in allResults <==> x in p || x == s;
      if TallyOf(p).Tally? && s.List? {
        EntriesPointwise(TallyOf(p).points, s.items);
        assert Malformed(s) <==> exists e :: e in s.items && !e.Dict?;
        if exists x :: x in allResults && Malformed(x) {
          var x :| x in allResults && Malformed(x);
          assert x in p || x == s;
        }
      }
    }
  }

  lemma {:induction false} SumOverAppend(xs: seq<Value>, ys: seq<Value>, f: Value -> real)
    ensures SumOver(xs + ys, f) == SumOver(xs, f) + SumOver(ys, f)
    decreases |ys|
  {
    if ys != [] {
      var q := ys[..|ys| - 1];
      SumOverAppend(xs, q, f);
      assert (xs + ys)[..|xs + ys| - 1] == xs + q;
      assert (xs + ys)[|xs + ys| - 1] == ys[|ys| - 1];
    } else {
      assert xs + ys == xs;
    }
  }

  /** Taking element k out of a sequence takes its value out of the sum. */
  lemma SumOverTakeOut(b: seq<Value>, k: nat, f: Value -> real)
    requires k < |b|
    ensures SumOver(b, f) == SumOver(b[..k] + b[k + 1..], f) + f(b[k])
  {
    var x := b[k];
    assert b == b[..k] + [x] + b[k + 1..];
    SumOverAppend(b[..k] + [x], b[k + 1..], f);
    SumOverAppend(b[..k], [x], f);
    SumOverAppend(b[..k], b[k + 1..], f);
    assert SumOver([x], f) == f(x) by {
      assert [x][..0] == [];
    }
  }

  /** A sum over a permutation is the same sum. */
  lemma {:induction false} SumOverPermutation(a: seq<Value>, b: seq<Value>, f: Value -> real)
    requires multiset(a) == multiset(b)
    ensures SumOver(a, f) == SumOver(b, f)
    decreases |a|
  {
    if a != [] {
      var k := TakeOutLast(a, b);
      SumOverPermutation(a[..|a| - 1], b[..k] + b[k + 1..], f);
      SumOverTakeOut(b, k, f);
    }
  }

  lemma {:induction false} CountListsAsSum(xs: seq<Value>)
    ensures CountLists(xs) as real == SumOver(xs, (s: Value) => if s.List? then 1.0 else 0.0)
  {
    if xs != [] {
      CountListsAsSum(xs[..|xs| - 1]);
    }
  }

  /** The fold does not depend on the order in which the session results
      arrive. */
  lemma TallyOrderIndependent(a: seq<Value>, b: seq<Value>)
    requires multiset(a) == multiset(b)
    ensures TallyOf(a) == TallyOf(b)
  {
    TallyPointwise(a);
    TallyPointwise(b);
    assert forall s :: s in a <==> s in b by {
      forall s ensures s in a <==> s in b {
        assert s in a <==> s in multiset(a);
        assert s in b <==> s in multiset(b);
      }
    }
    if TallyOf(a).Tally? {
      CountListsAsSum(a);
      CountListsAsSum(b);
      SumOverPermutation(a, b, (s: Value) => if s.List? then 1.0 else 0.0);
      forall driver ensures TotalFor(a, driver) == TotalFor(b, driver) {
        SumOverPermutation(a, b, s => SessionTotal(s, driver));
      }
      var ma := TallyOf(a).points;
      var mb := TallyOf(b).points;
      forall driver | driver in ma ensures driver in mb && ma[driver] == mb[driver] {
        assert TouchedIn(a, driver) == TouchedIn(b, driver);
        assert Lookup(ma, driver) == Lookup(mb, driver);
      }
      forall driver | driver in mb ensures driver in ma {
        assert TouchedIn(a, driver) == TouchedIn(b, driver);
      }
      assert ma == mb;
    }
  }

  /** Once the fold has aborted it stays aborted. */
  lemma {:induction false} AbortedStays(allResults: seq<Value>, j: nat)
    requires j <= |allResults| && TallyOf(allResults[..j]).Aborted?
    ensures TallyOf(allResults).Aborted?
    decreases |allResults| - j
  {
    if j < |allResults| {
      assert allResults[..j + 1][..j] == allResults[..j];
      AbortedStays(allResults, j + 1);
    } else {
      assert allResults[..j] == allResults;
    }
  }

  /** The dictionary `get_driver_points` returns for a fold outcome. */
  function Returned(t: Tally): map<Value, real>
  {
    match t
    case Aborted => map[]
    case Tally(m, _) => m
  }

  lemma EntryStep(m: map<Value, real>, before: map<Value, real>, entries: seq<Value>, k: nat)
    requires k < |entries| && AddEntries(before, entries[..k]) == Some(m)
    ensures AddEntries(before, entries[..k + 1]) == AddEntry(m, entries[k])
  {
    assert entries[..k + 1][..k] == entries[..k];
  }

  lemma SessionStep(allResults: seq<Value>, j: nat, m: map<Value, real>, n: nat)
    requires j < |allResults| && TallyOf(allResults[..j]) == Tally(m, n)
    ensures TallyOf(allResults[..j + 1]) ==
              var s := allResults[j];
              if !s.List? then Tally(m, n)
              else match AddEntries(m, s.items)
                case None => Aborted
                case Some(m') => Tally(m', n + 1)
  {
    assert allResults[..j + 1][..j] == allResults[..j];
  }

  /** The batch loop of `get_driver_points`: `process_batch` on
      `keys[i:i + 20]` for i = 0, 20, ..., each batch's results appended to
      `all_results`. Up to the order of arrival, these are the results of all
      keys. */
  method FetchAllResults(sessionKeys: seq<Value>, fetch: Value -> Fetch, completionOrder: seq<Value> -> seq<Value>)
      returns (allResults: seq<Value>)
    requires forall batch :: multiset(completionOrder(batch)) == multiset(batch)
    ensures |allResults| == |sessionKeys|
    ensures multiset(allResults) == multiset(Requested(sessionKeys, fetch))
  {
    allResults := [];
    var i := 0;
    ghost var batchNum := 0;
    while i < |sessionKeys|
      invariant 0 <= i == BatchSize * batchNum
      invariant multiset(allResults) == multiset(Requested(sessionKeys[..Min(i, |sessionKeys|)], fetch))
      decreases |sessionKeys| - i
    {
      var hi := Min(i + BatchSize, |sessionKeys|);
      var batch := sessionKeys[i..hi];
      BatchAt(sessionKeys, batchNum);
      assert batch == Batches(sessionKeys)[batchNum];
      var batchResults := ProcessBatch(batch, fetch, completionOrder);
      assert sessionKeys[..hi] == sessionKeys[..i] + batch;
      RequestedAppend(sessionKeys[..i], batch, fetch);
      allResults := allResults + batchResults;
      i := i + BatchSize;
      batchNum := batchNum + 1;
    }
    assert sessionKeys[..Min(i, |sessionKeys|)] == sessionKeys;
    assert |multiset(allResults)| == |multiset(Requested(sessionKeys, fetch))|;
  }

  /** The inner loop `for result in session_results`: the updated dictionary,
      or `None` when an entry that is not a dict makes `.get` raise. */
  method AddSessionResults(driverPoints: map<Value, real>, sessionResults: seq<Value>)
      returns (updated: Option<map<Value, real>>)
    ensures updated == AddEntries(driverPoints, sessionResults)
  {
    var points := driverPoints;
    var k := 0;
    while k < |sessionResults|
      invariant 0 <= k <= |sessionResults|
      invariant AddEntries(driverPoints, sessionResults[..k]) == Some(points)
    {
      var result := sessionResults[k];
      EntryStep(points, driverPoints, sessionResults, k);
      if !result.Dict? {
        EntriesAbsorb(driverPoints, sessionResults, k + 1);
        return None;
      }
      ghost var prior := points;
      var driverNumber := Get(result.fields, "driver_number", Null);
      var value := Get(result.fields, "points", Null);
      if driverNumber != Null && value != Null && Hashable(driverNumber) {
        var current := Lookup(points, driverNumber);
        points := points[driverNumber := current];
        if IsNumber(value) {
          points := points[driverNumber := current + NumberOf(value)];
          assert points == prior[driverNumber := current + NumberOf(value)];
        }
      }
      assert AddEntry(prior, result) == Some(points);
      k := k + 1;
    }
    assert sessionResults[..k] == sessionResults;
    return Some(points);
  }

  /** `get_driver_points`: `{}` when the race-session request raises or finds
      no race, otherwise the fold over the results of every race session
      fetched batch by batch. Whatever order the fetches complete in, the
      totals are those of the results taken in the order of the keys, and at
      most one session is counted per key. */
  method GetDriverPoints(sessionsPayload: Value, fetch: Value -> Fetch, completionOrder: seq<Value> -> seq<Value>)
      returns (driverPoints: map<Value, real>, sessionCount: nat)
    requires forall batch :: multiset(completionOrder(batch)) == multiset(batch)
    ensures GetRaceSessions(sessionsPayload).Raised? ==> driverPoints == map[]
    ensures GetRaceSessions(sessionsPayload).Ok? ==>
              var keys := GetRaceSessions(sessionsPayload).value;
              && driverPoints == Returned(TallyOf(Requested(keys, fetch)))
              && (TallyOf(Requested(keys, fetch)).Tally? ==> sessionCount == TallyOf(Requested(keys, fetch)).sessions)
              && sessionCount <= |keys|
  {
    var race := GetRaceSessions(sessionsPayload);
    if race.Raised? {
      return map[], 0;
    }
    var sessionKeys := race.value;
    if |sessionKeys| == 0 {
      return map[], 0;
    }
    var allResults := FetchAllResults(sessionKeys, fetch, completionOrder);
    TallyOrderIndependent(allResults, Requested(sessionKeys, fetch));

    driverPoints := map[];
    sessionCount := 0;
    var j := 0;
    while j < |allResults|
      invariant 0 <= j <= |allResults|
      invariant TallyOf(allResults[..j]) == Tally(driverPoints, sessionCount)
      invariant sessionCount <= j
    {
      var sessionResults := allResults[j];
      SessionStep(allResults, j, driverPoints, sessionCount);
      if sessionResults.List? {
        sessionCount := sessionCount + 1;
        var updated := AddSessionResults(driverPoints, sessionResults.items);
        if updated.None? {
          AbortedStays(allResults, j + 1);
          return map[], 0;
        }
        driverPoints := updated.value;
      }
      j := j + 1;
    }
    assert allResults[..j] == allResults;
  }

  /** Once a session's entries have aborted, the rest of them change nothing. */
  lemma {:induction false} EntriesAbsorb(m: map<Value, real>, entries: seq<Value>, k: nat)
    requires k <= |entries| && AddEntries(m, entries[..k]).None?
    ensures AddEntries(m, entries).None?
    decreases |entries| - k
  {
    if k < |entries| {
      assert entries[..k + 1][..k] == entries[..k];
      EntriesAbsorb(m, entries, k + 1);
    } else {
      assert entries[..k] == entries;
    }
  }
}
