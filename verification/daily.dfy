/**
 * The per-day drivers (`sync_activities`, `sync_heartrate_intraday`,
 * `sync_steps_intraday`, `sync_distance_intraday`): walk the days that
 * `day_filenames` yields, skip a day whose file exists, otherwise fetch the
 * day and write its file. A fetch that fails ends the walk; what was
 * written before stays.
 */
module DailySync {
  import opened Common
  import opened Dates
  import opened Paths
  import opened Windows

  datatype DayOutcome = DaysDone | DayFailed(cause: FetchError)

  /** The result of a per-day sync: the store, the days fetched in order, how it ended, and the entry it ended at. */
  datatype DayRun = DayRun(store: Store, calls: seq<Date>, outcome: DayOutcome, stop: nat)

  /** A run with the fetches `calls` made before it. */
  function WithCalls(calls: seq<Date>, r: DayRun): DayRun {
    DayRun(r.store, calls + r.calls, r.outcome, r.stop)
  }

  /** The driver's loop over entries `i` onwards of `es`, against store `s`. */
  function DailyRun(fetch: Date -> Fetched, es: seq<Entry>, i: nat, s: Store): DayRun
    requires i <= |es|
    decreases |es| - i
  {
    if i == |es| then DayRun(s, [], DaysDone, i)
    else if es[i].path in s then DailyRun(fetch, es, i + 1, s)
    else
      match fetch(es[i].date)
      case Failure(e) => DayRun(s, [es[i].date], DayFailed(e), i)
      case Success(doc) => WithCalls([es[i].date], DailyRun(fetch, es, i + 1, s[es[i].path := doc]))
  }

  /** The loop from entry `i` is one step followed by the loop from entry `i + 1`. */
  lemma DailyRunStep(fetch: Date -> Fetched, es: seq<Entry>, i: nat, s: Store)
    requires i <= |es|
    ensures i == |es| ==> DailyRun(fetch, es, i, s) == DayRun(s, [], DaysDone, i)
    ensures i < |es| && es[i].path in s ==> DailyRun(fetch, es, i, s) == DailyRun(fetch, es, i + 1, s)
    ensures i < |es| && es[i].path !in s && fetch(es[i].date).Failure? ==>
      DailyRun(fetch, es, i, s) == DayRun(s, [es[i].date], DayFailed(fetch(es[i].date).error), i)
    ensures i < |es| && es[i].path !in s && fetch(es[i].date).Success? ==>
      DailyRun(fetch, es, i, s) == WithCalls([es[i].date], DailyRun(fetch, es, i + 1, s[es[i].path := fetch(es[i].date).value]))
  {
  }

  /**
   * A per-day driver: for each day `day_filenames(name)` yields, skip it
   * when its file exists, otherwise fetch it and write the file.
   */
  method SyncDays(ex: Export, name: string, fetch: Date -> Fetched, today: Date, s: Store) returns (r: DayRun)
    requires HasUser(ex) && DaysTerminate(today)
    ensures r == DailyRun(fetch, DayWindows(ex, name, today), 0, s)
  {
    hide DailyRun;
    var es := DayFilenames(ex, name, today);
    var store := s;
    var calls: seq<Date> := [];
    for i := 0 to |es|
      invariant DailyRun(fetch, es, 0, s) == WithCalls(calls, DailyRun(fetch, es, i, store))
    {
      var d, filename := es[i].date, es[i].path;
      DailyRunStep(fetch, es, i, store);
      if filename !in store {
        var data := fetch(d);
        if data.Failure? {
          return DayRun(store, calls + [d], DayFailed(data.error), i);
        }
        AppendAssoc(calls, [d], DailyRun(fetch, es, i + 1, store[filename := data.value]).calls);
        calls := calls + [d];
        store := store[filename := data.value];
      }
    }
    DailyRunStep(fetch, es, |es|, store);
    assert calls + [] == calls;
    return DayRun(store, calls, DaysDone, |es|);
  }

  /** What `self.client.get_*(d)` does when no client is set: the lookup raises before any request. */
  function NoClientFetch(d: Date): Fetched {
    Failure(NoClient)
  }

  /** `sync_activities`: the per-day sync of "activities"; the client is looked up only for a missing day. */
  method SyncActivities(ex: Export, today: Date, s: Store) returns (r: DayRun)
    requires HasUser(ex) && DaysTerminate(today)
    ensures r == DailyRun(if ex.client.Some? then ex.client.value.getActivities else NoClientFetch,
                          DayWindows(ex, "activities", today), 0, s)
  {
    var fetch := if ex.client.Some? then ex.client.value.getActivities else NoClientFetch;
    r := SyncDays(ex, "activities", fetch, today, s);
  }

  /** `sync_heartrate_intraday`: the per-day sync of "heartrate_intraday". */
  method SyncHeartrateIntraday(ex: Export, today: Date, s: Store) returns (r: DayRun)
    requires HasUser(ex) && DaysTerminate(today)
    ensures r == DailyRun(if ex.client.Some? then ex.client.value.getHeartrateIntraday else NoClientFetch,
                          DayWindows(ex, "heartrate_intraday", today), 0, s)
  {
    var fetch := if ex.client.Some? then ex.client.value.getHeartrateIntraday else NoClientFetch;
    r := SyncDays(ex, "heartrate_intraday", fetch, today, s);
  }

  /** `sync_steps_intraday`: the per-day sync of "steps_intraday". */
  method SyncStepsIntraday(ex: Export, today: Date, s: Store) returns (r: DayRun)
    requires HasUser(ex) && DaysTerminate(today)
    ensures r == DailyRun(if ex.client.Some? then ex.client.value.getStepsIntraday else NoClientFetch,
                          DayWindows(ex, "steps_intraday", today), 0, s)
  {
    var fetch := if ex.client.Some? then ex.client.value.getStepsIntraday else NoClientFetch;
    r := SyncDays(ex, "steps_intraday", fetch, today, s);
  }

  /** `sync_distance_intraday`: the per-day sync of "distance_intraday". */
  method SyncDistanceIntraday(ex: Export, today: Date, s: Store) returns (r: DayRun)
    requires HasUser(ex) && DaysTerminate(today)
    ensures r == DailyRun(if ex.client.Some? then ex.client.value.getDistanceIntraday else NoClientFetch,
                          DayWindows(ex, "distance_intraday", today), 0, s)
  {
    var fetch := if ex.client.Some? then ex.client.value.getDistanceIntraday else NoClientFetch;
    r := SyncDays(ex, "distance_intraday", fetch, today, s);
  }
}
