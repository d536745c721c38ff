/** `CBRApiClient`: today's cache lookup, up to three requests with exponential
    back-off, filing a validated document under its own date, the fallback scan
    of the last eight days, and age-based pruning of the cache directory.

    The network is a script of replies, one per attempt; the clock is the
    parameters `today` and `now`; `time.sleep` is an entry in a delay log. */
module CbrClient {
  import opened Text
  import opened PyValues
  import opened Calendar
  import opened RatesCache

  const MaxRetries := 3
  const RetryDelay := 2

  /** What one attempt of the request loop meets: a `RequestException` (a
      connection error, a timeout, any HTTP error status from
      `raise_for_status`, a body that is not JSON), any other exception, or a
      decoded JSON document. */
  datatype Reply = RequestFailed | Unexpected | Body(doc: Json)

  /** How the `try` block of one attempt ends: a `RequestException`, another
      exception (the `ValueError` of a failed validation included), or the
      document returned after it was saved under the date `filed`. */
  datatype Status = NetworkError | Failed | Fetched(data: Json, filed: Date)

  /** The `try` block of one attempt, given what the request met. */
  function TryOutcome(reply: Reply, today: Date): (s: Status)
    requires Valid(today)
    ensures s.NetworkError? <==> reply.RequestFailed?
    ensures s.Fetched? ==> reply == Body(s.data) && Valid(s.filed)
  {
    match reply
    case RequestFailed => NetworkError
    case Unexpected => Failed
    case Body(data) =>
      if ValidatePayload(data) != Ok(true) then Failed
      else match CacheDateFromData(data, today)
        case Raise(_) => Failed
        case Ok(d) => Fetched(data, d)
  }

  /** A document gets through the `try` block exactly when it has the accepted
      shape and its `Date` is a string; it is then filed under the date that
      `Date` gives, or under today when that does not parse. */
  lemma FetchedIff(data: Json, today: Date)
    requires Valid(today)
    ensures TryOutcome(Body(data), today).Fetched? <==> WellFormedPayload(data) && data.fields["Date"].JStr?
    ensures TryOutcome(Body(data), today).Fetched? ==>
      TryOutcome(Body(data), today).filed
        == match Strptime(Split(data.fields["Date"].s, 'T')[0]) case Some(d) => d case None => today
  {
    ValidatePayloadIff(data);
    if WellFormedPayload(data) && data.fields["Date"].JStr? {
      CacheDateFromString(data, today);
    }
  }

  function Pow2(n: nat): (p: nat)
    ensures p >= 1
  {
    if n == 0 then 1 else 2 * Pow2(n - 1)
  }

  /** `RETRY_DELAY * (2 ** attempt)`: the pause after a failed attempt. */
  function Backoff(attempt: nat): int {
    RetryDelay * Pow2(attempt)
  }

  /** Each pause is twice the one before: the back-off is exponential. */
  lemma BackoffDoubles(attempt: nat)
    ensures Backoff(attempt + 1) == 2 * Backoff(attempt)
    ensures Backoff(attempt) >= RetryDelay
  {
  }

  /** The pauses after `n` consecutive failed attempts starting at `from`. */
  function Delays(from: nat, n: nat): (s: seq<int>)
    ensures |s| == n
    ensures forall i :: 0 <= i < n ==> s[i] == Backoff(from + i)
    decreases n
  {
    if n == 0 then [] else [Backoff(from)] + Delays(from + 1, n - 1)
  }

  /** What one call of `get_rates` does: the value it returns, the requests it
      sends, the pauses it makes in order, the cache directory afterwards, and
      whether it sets `last_update`. */
  datatype Run = Run(result: Option<Json>, requests: nat, sleeps: seq<int>, files: Directory, stamped: bool)

  /** A run that follows `earlier` failed attempts, each followed by its pause. */
  function Lift(run: Run, earlier: seq<int>): Run {
    run.(requests := run.requests + |earlier|, sleeps := earlier + run.sleeps)
  }

  lemma LiftTwice(run: Run, later: seq<int>, earlier: seq<int>)
    ensures Lift(Lift(run, later), earlier) == Lift(run, earlier + later)
  {
    assert earlier + (later + run.sleeps) == (earlier + later) + run.sleeps;
  }

  /** How the `try` block of each attempt would end. */
  function Statuses(replies: seq<Reply>, today: Date): (s: seq<Status>)
    requires Valid(today)
    ensures |s| == |replies| && forall i :: 0 <= i < |replies| ==> s[i] == TryOutcome(replies[i], today)
  {
    seq(|replies|, (i: int) requires 0 <= i < |replies| => TryOutcome(replies[i], today))
  }

  /** One status per attempt, each fetched document with a valid date. */
  predicate ValidStatuses(statuses: seq<Status>) {
    |statuses| == MaxRetries && forall i :: 0 <= i < MaxRetries && statuses[i].Fetched? ==> Valid(statuses[i].filed)
  }

  /** The request loop from `attempt` on, given how each attempt's `try` block
      ends and what `_get_last_available_cached_data` would return. A
      `RequestException` is retried after a pause unless it was the last
      attempt; any other exception ends the loop with the fallback; a fetched
      document is saved under its date and returned with `last_update` set. */
  function Attempts(dir: Directory, statuses: seq<Status>, fallback: Option<Json>, now: int, attempt: nat): (run: Run)
    requires ValidStatuses(statuses) && attempt < MaxRetries
    ensures 1 <= run.requests <= MaxRetries - attempt
    decreases MaxRetries - attempt
  {
    match statuses[attempt]
    case NetworkError =>
      if attempt == MaxRetries - 1 then Run(fallback, 1, [], dir, false)
      else Lift(Attempts(dir, statuses, fallback, now, attempt + 1), [Backoff(attempt)])
    case Failed => Run(fallback, 1, [], dir, false)
    case Fetched(data, d) => Run(Some(data), 1, [], Save(dir, d, data, now), true)
  }

  /** `get_rates()`: a readable non-empty file for today is returned without a
      request; otherwise the request loop runs. */
  function GetRatesSpec(dir: Directory, replies: seq<Reply>, today: Date, now: int): (run: Run)
    requires Valid(today) && |replies| == MaxRetries
    ensures run.requests == 0 <==> Hit(dir, today).Some?
    ensures run.requests <= MaxRetries
  {
    var cached := Load(dir, today);
    if cached.Some? && Truthy(cached.value) then Run(cached, 0, [], dir, true)
    else Attempts(dir, Statuses(replies, today), FallbackScan(dir, today), now, 0)
  }

  // ---------------------------------------------------------------------
  // Properties of the retrieval policy

  /** The attempt at which the loop stops: the first from `k` on that does not
      end in a `RequestException`, or the last attempt. */
  function FirstAnswer(statuses: seq<Status>, k: nat): (j: nat)
    requires |statuses| == MaxRetries && k < MaxRetries
    ensures k <= j < MaxRetries
    ensures j < MaxRetries - 1 ==> !statuses[j].NetworkError?
    decreases MaxRetries - k
  {
    if k == MaxRetries - 1 || !statuses[k].NetworkError? then k else FirstAnswer(statuses, k + 1)
  }

  /** The loop from `k` as it ends at the first answer `j`: `j - k + 1`
      requests with a pause between consecutive ones, and then either the
      fetched document saved under its date and returned, with `last_update`
      set, or the fallback, with nothing written and nothing set. */
  function Outcome(dir: Directory, statuses: seq<Status>, fallback: Option<Json>, now: int, k: nat): Run
    requires ValidStatuses(statuses) && k < MaxRetries
  {
    var j := FirstAnswer(statuses, k);
    match statuses[j]
    case Fetched(data, d) => Run(Some(data), j - k + 1, Delays(k, j - k), Save(dir, d, data, now), true)
    case _ => Run(fallback, j - k + 1, Delays(k, j - k), dir, false)
  }

  /** The request loop ends as `Outcome` says. */
  lemma {:induction false} AttemptsOutcome(dir: Directory, statuses: seq<Status>, fallback: Option<Json>, now: int, k: nat)
    requires ValidStatuses(statuses) && k < MaxRetries
    ensures Attempts(dir, statuses, fallback, now, k) == Outcome(dir, statuses, fallback, now, k)
    decreases MaxRetries - k
  {
    if k < MaxRetries - 1 && statuses[k].NetworkError? {
      AttemptsOutcome(dir, statuses, fallback, now, k + 1);
      RetryStep(dir, statuses, fallback, now, k);
    } else {
      assert FirstAnswer(statuses, k) == k;
    }
  }

  /** A `RequestException` before the last attempt: one request, one pause,
      and the rest of the loop. */
  lemma RetryStep(dir: Directory, statuses: seq<Status>, fallback: Option<Json>, now: int, k: nat)
    requires ValidStatuses(statuses) && k < MaxRetries - 1 && statuses[k].NetworkError?
    ensures Attempts(dir, statuses, fallback, now, k) == Lift(Attempts(dir, statuses, fallback, now, k + 1), [Backoff(k)])
    ensures Outcome(dir, statuses, fallback, now, k) == Lift(Outcome(dir, statuses, fallback, now, k + 1), [Backoff(k)])
  {
    var j := FirstAnswer(statuses, k);
    assert j == FirstAnswer(statuses, k + 1);
    assert Delays(k, j - k) == [Backoff(k)] + Delays(k + 1, j - k - 1);
  }

  /** After `k` failed attempts and the pauses `slept` that followed them, the
      whole loop is those attempts and pauses followed by the loop from `k`. */
  predicate Planned(dir: Directory, statuses: seq<Status>, fallback: Option<Json>, now: int, k: nat, slept: seq<int>) {
    && ValidStatuses(statuses) && k < MaxRetries && |slept| == k
    && Attempts(dir, statuses, fallback, now, 0) == Lift(Attempts(dir, statuses, fallback, now, k), slept)
  }

  /** A `RequestException` at `k` that is retried after a pause moves the
      plan on to attempt `k + 1`. */
  lemma RetryPlan(dir: Directory, statuses: seq<Status>, fallback: Option<Json>, now: int, k: nat, slept: seq<int>)
    requires Planned(dir, statuses, fallback, now, k, slept)
    requires k < MaxRetries - 1 && statuses[k].NetworkError?
    ensures Planned(dir, statuses, fallback, now, k + 1, slept + [Backoff(k)])
  {
    RetryStep(dir, statuses, fallback, now, k);
    LiftTwice(Attempts(dir, statuses, fallback, now, k + 1), [Backoff(k)], slept);
  }

  /** The whole loop when attempt `k` is the one it stops at: `k + 1`
      requests, the pauses so far, and that attempt's result. */
  lemma StopPlan(dir: Directory, statuses: seq<Status>, fallback: Option<Json>, now: int, k: nat, slept: seq<int>)
    requires Planned(dir, statuses, fallback, now, k, slept)
    requires k == MaxRetries - 1 || !statuses[k].NetworkError?
    ensures statuses[k].Fetched? ==>
      Attempts(dir, statuses, fallback, now, 0)
        == Run(Some(statuses[k].data), k + 1, slept, Save(dir, statuses[k].filed, statuses[k].data, now), true)
    ensures !statuses[k].Fetched? ==>
      Attempts(dir, statuses, fallback, now, 0) == Run(fallback, k + 1, slept, dir, false)
  {
    assert slept + [] == slept;
  }

  /** `get_rates()` in full: served from today's file with no request, no
      write and `last_update` set; or the outcome of the request loop, which
      stops at the first attempt `j` that does not end in a `RequestException`
      (or the last one). */
  lemma GetRatesOutcome(dir: Directory, replies: seq<Reply>, today: Date, now: int)
    requires Valid(today) && |replies| == MaxRetries
    ensures Hit(dir, today).Some? ==> GetRatesSpec(dir, replies, today, now) == Run(Hit(dir, today), 0, [], dir, true)
    ensures Hit(dir, today).None? ==> var j := FirstAnswer(Statuses(replies, today), 0);
      GetRatesSpec(dir, replies, today, now) ==
        match TryOutcome(replies[j], today)
        case Fetched(data, d) => Run(Some(data), j + 1, Delays(0, j), Save(dir, d, data, now), true)
        case _ => Run(FallbackScan(dir, today), j + 1, Delays(0, j), dir, false)
  {
    AttemptsOutcome(dir, Statuses(replies, today), FallbackScan(dir, today), now, 0);
  }

  /** The first two pauses are 2 and 4 seconds. */
  lemma EarlyPauses(n: nat)
    requires n <= 2
    ensures Delays(0, n) == [2, 4][..n]
  {
    assert Backoff(0) == 2 && Backoff(1) == 4;
    if n == 2 {
      assert Delays(0, 2) == [Backoff(0), Backoff(1)];
    }
  }

  /** At most three requests; the pauses are 2 and then 4 seconds, one fewer
      than the requests, so none follows the last attempt. */
  lemma RetrySchedule(dir: Directory, replies: seq<Reply>, today: Date, now: int)
    requires Valid(today) && |replies| == MaxRetries
    ensures var run := GetRatesSpec(dir, replies, today, now);
      && run.requests <= 3
      && |run.sleeps| == (if run.requests == 0 then 0 else run.requests - 1)
      && run.sleeps == [2, 4][..|run.sleeps|]
  {
    if Hit(dir, today).None? {
      var statuses := Statuses(replies, today);
      AttemptsOutcome(dir, statuses, FallbackScan(dir, today), now, 0);
      EarlyPauses(FirstAnswer(statuses, 0));
    }
  }

  /** Every request that fails with a `RequestException` is retried: when
      all three fail, three requests go out with pauses of 2 and 4 seconds and
      the fallback is returned. */
  lemma AllFailuresRetried(dir: Directory, today: Date, now: int)
    requires Valid(today) && Hit(dir, today).None?
    ensures GetRatesSpec(dir, [RequestFailed, RequestFailed, RequestFailed], today, now)
      == Run(FallbackScan(dir, today), 3, [2, 4], dir, false)
  {
    var replies := [RequestFailed, RequestFailed, RequestFailed];
    assert FirstAnswer(Statuses(replies, today), 0) == 2;
    GetRatesOutcome(dir, replies, today, now);
    assert Delays(0, 2) == [2, 4] by {
      assert Backoff(0) == 2 && Backoff(1) == 4;
    }
  }

  /** A provider document: the given fields with `Date` set to the timestamp
      `YYYY-MM-DDT<time>` of day `d`. */
  function Dated(fields: map<string, Json>, d: Date, time: string): Json
    requires Valid(d)
  {
    JObj(fields["Date" := JStr(IsoFormat(d) + "T" + time)])
  }

  /** A validated first reply is filed under its own date, even a date after
      today. The next call's lookup for today then hits exactly when that date
      is today: the second call is served from the file with no request,
      while a document dated any other day leaves today a miss. */
  lemma PayloadDateDecidesNextLookup(dir: Directory, replies: seq<Reply>, replies2: seq<Reply>, today: Date,
                                     now: int, now2: int, f: Date, time: string, fields: map<string, Json>)
    requires Valid(today) && Valid(f) && |replies| == MaxRetries && |replies2| == MaxRetries
    requires Hit(dir, today).None?
    requires replies[0] == Body(Dated(fields, f, time)) && WellFormedPayload(Dated(fields, f, time))
    ensures var doc := Dated(fields, f, time);
      var run := GetRatesSpec(dir, replies, today, now);
      && run == Run(Some(doc), 1, [], Save(dir, f, doc, now), true)
      && (f == today ==> GetRatesSpec(run.files, replies2, today, now2) == Run(Some(doc), 0, [], run.files, true))
      && (f != today ==> Hit(run.files, today).None? && GetRatesSpec(run.files, replies2, today, now2).requests >= 1)
  {
    var doc := Dated(fields, f, time);
    ValidatePayloadIff(doc);
    CacheDateOfTimestamp(f, time, today, fields);
    assert TryOutcome(replies[0], today) == Fetched(doc, f);
    assert FirstAnswer(Statuses(replies, today), 0) == 0;
    GetRatesOutcome(dir, replies, today, now);
    LoadAfterSave(dir, f, doc, now, today);
    assert "Date" in doc.fields;
  }

  // ---------------------------------------------------------------------
  // The client object

  /** One step of the pruning loop: `name`, not yet visited, is removed
      exactly when it is expired, and the removed set grows by it. */
  lemma PruneStep(dir: Directory, now: int, daysToKeep: int, names: set<string>, name: string)
    requires names <= dir.Keys && name in names
    ensures var expired := ExpiredNames(dir, now, daysToKeep);
      var files := dir - (expired - names);
      && name in files && files[name] == dir[name]
      && (Expired(name, dir[name], now, daysToKeep) ==>
            && files - {name} == dir - (expired - (names - {name}))
            && |expired - (names - {name})| == |expired - names| + 1)
      && (!Expired(name, dir[name], now, daysToKeep) ==>
            && files == dir - (expired - (names - {name}))
            && |expired - (names - {name})| == |expired - names|)
  {
    var expired := ExpiredNames(dir, now, daysToKeep);
    if Expired(name, dir[name], now, daysToKeep) {
      assert expired - (names - {name}) == (expired - names) + {name};
    } else {
      assert expired - (names - {name}) == expired - names;
    }
  }

  class ApiClient {
    /** The cache directory: file name to file. */
    var files: Directory
    /** `self.last_update`: `datetime.now()` of the last successful call. */
    var lastUpdate: Option<int>
    /** Requests sent so far. */
    ghost var requests: nat
    /** The `time.sleep` calls made so far, in seconds. */
    ghost var delays: seq<int>

    /** `__init__`: no update yet, over whatever the cache directory holds. */
    constructor (existing: Directory)
      ensures files == existing && lastUpdate == None
      ensures requests == 0 && delays == []
    {
      files := existing;
      lastUpdate := None;
      requests := 0;
      delays := [];
    }

    /** `_load_from_cache(d)`. */
    method LoadFromCache(d: Date) returns (r: Option<Json>)
      requires Valid(d)
      ensures r.Some? <==> CacheFileName(d) in files && files[CacheFileName(d)].content.Parsed?
      ensures r.Some? ==> r.value == files[CacheFileName(d)].content.doc
    {
      var name := CacheFileName(d);
      r := None;
      if name in files {
        var f := files[name];
        if f.content.Parsed? {
          r := Some(f.content.doc);
        }
      }
    }

    /** `_save_to_cache(data, d)`: day `d`'s file is (re)written at `now`. */
    method SaveToCache(data: Json, d: Date, now: int)
      requires Valid(d)
      modifies this`files
      ensures files == Save(old(files), d, data, now)
      ensures lastUpdate == old(lastUpdate) && requests == old(requests) && delays == old(delays)
    {
      files := files[CacheFileName(d) := CacheFile(Parsed(data), now)];
    }

    /** `_get_last_available_cached_data()`: today, then each day before it,
        up to seven days back; the first readable non-empty file wins. */
    method LastAvailableCached(today: Date) returns (r: Option<Json>)
      requires Valid(today)
      ensures r == FallbackScan(files, today)
    {
      ghost var days := Window(today);
      var daysBack := 0;
      while daysBack < 8
        invariant 0 <= daysBack <= 8
        invariant ScanFrom(files, days, daysBack) == FallbackScan(files, today)
      {
        var checkDate := DaysBefore(today, daysBack);
        WindowAt(today, daysBack);
        if checkDate.None? {
          return None;
        }
        var cached := LoadFromCache(checkDate.value);
        if cached.Some? && Truthy(cached.value) {
          return cached;
        }
        daysBack := daysBack + 1;
      }
      return None;
    }

    /** The `try` block of one attempt of `get_rates`: validate the reply,
        find its date, save it and stamp `last_update`; the first step that
        raises ends the block with nothing written. */
    method TryFetch(reply: Reply, today: Date, now: int) returns (status: Status)
      requires Valid(today)
      modifies this`files, this`lastUpdate
      ensures status == TryOutcome(reply, today)
      ensures files == (if status.Fetched? then Save(old(files), status.filed, status.data, now) else old(files))
      ensures lastUpdate == (if status.Fetched? then Some(now) else old(lastUpdate))
      ensures requests == old(requests) && delays == old(delays)
    {
      match reply
      case RequestFailed =>
        return NetworkError;
      case Unexpected =>
        return Failed;
      case Body(data) =>
        if ValidatePayload(data) != Ok(true) {
          return Failed;
        }
        var dataDate := CacheDateFromData(data, today);
        if dataDate.Raise? {
          return Failed;
        }
        SaveToCache(data, dataDate.value, now);
        lastUpdate := Some(now);
        return Fetched(data, dataDate.value);
    }

    /** What an attempt that ends the loop returns: the fetched document, or,
        after any exception, `_get_last_available_cached_data()`. */
    method Answer(status: Status, today: Date) returns (r: Option<Json>)
      requires Valid(today)
      ensures r == (if status.Fetched? then Some(status.data) else FallbackScan(files, today))
    {
      if status.Fetched? {
        return Some(status.data);
      }
      r := LastAvailableCached(today);
    }

    /** `get_rates()` against the scripted replies, on day `today` at time `now`. */
    method GetRates(replies: seq<Reply>, today: Date, now: int) returns (r: Option<Json>)
      requires Valid(today) && |replies| == MaxRetries
      modifies this
      ensures var run := GetRatesSpec(old(files), replies, today, now);
        && r == run.result
        && files == run.files
        && lastUpdate == (if run.stamped then Some(now) else old(lastUpdate))
        && requests == old(requests) + run.requests
        && delays == old(delays) + run.sleeps
    {
      var cached := LoadFromCache(today);
      if cached.Some? && Truthy(cached.value) {
        lastUpdate := Some(now);
        return cached;
      }
      r := RequestLoop(replies, today, now);
    }

    /** The `for attempt in range(MAX_RETRIES)` loop of `get_rates()`. */
    method RequestLoop(replies: seq<Reply>, today: Date, now: int) returns (r: Option<Json>)
      requires Valid(today) && |replies| == MaxRetries
      modifies this
      ensures var run := Attempts(old(files), Statuses(replies, today), FallbackScan(old(files), today), now, 0);
        && r == run.result
        && files == run.files
        && lastUpdate == (if run.stamped then Some(now) else old(lastUpdate))
        && requests == old(requests) + run.requests
        && delays == old(delays) + run.sleeps
    {
      ghost var dir := files;
      ghost var statuses := Statuses(replies, today);
      ghost var fallback := FallbackScan(dir, today);
      var attempt := 0;
      ghost var slept: seq<int> := [];
      while attempt < MaxRetries
        invariant Planned(dir, statuses, fallback, now, attempt, slept)
        invariant files == dir && lastUpdate == old(lastUpdate)
        invariant requests == old(requests) + attempt && delays == old(delays) + slept
      {
        requests := requests + 1;
        var status := TryFetch(replies[attempt], today, now);
        assert status == statuses[attempt];
        if !status.NetworkError? || attempt == MaxRetries - 1 {
          StopPlan(dir, statuses, fallback, now, attempt, slept);
          r := Answer(status, today);
          return;
        }
        RetryPlan(dir, statuses, fallback, now, attempt, slept);
        delays := delays + [Backoff(attempt)];
        slept := slept + [Backoff(attempt)];
        attempt := attempt + 1;
      }
      r := None;
    }

    /** `clear_old_cache(days_to_keep)` at time `now`: every `rates_*.json`
        file more than `days_to_keep` whole days old is removed and counted. */
    method ClearOldCache(now: int, daysToKeep: int := DefaultDaysToKeep) returns (deleted: nat)
      modifies this`files
      ensures files == Pruned(old(files), now, daysToKeep)
      ensures deleted == |ExpiredNames(old(files), now, daysToKeep)|
      ensures lastUpdate == old(lastUpdate) && requests == old(requests) && delays == old(delays)
    {
      ghost var dir := files;
      ghost var expired := ExpiredNames(dir, now, daysToKeep);
      var names := files.Keys;
      deleted := 0;
      while names != {}
        invariant names <= dir.Keys
        invariant files == dir - (expired - names)
        invariant deleted == |expired - names|
        decreases |names|
      {
        var name :| name in names;
        PruneStep(dir, now, daysToKeep, names, name);
        if IsRatesFile(name) && AgeDays(now, files[name].ctime) > daysToKeep {
          files := files - {name};
          deleted := deleted + 1;
        }
        names := names - {name};
      }
      PrunedIsRemoval(dir, now, daysToKeep);
    }
  }
}
