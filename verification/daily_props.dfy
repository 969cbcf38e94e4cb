/**
 * What a per-day sync leaves behind, proved about `DailyRun` (which
 * `SyncDays` computes): existing files are never touched, only the days it
 * went through gain files, each fetched day holds what the fetch returned,
 * exactly the missing days are fetched, and a second run does nothing.
 */
module DailyProps {
  import opened Common
  import opened Dates
  import opened Paths
  import opened Windows
  import opened DailySync

  /** The paths of entries `lo` to `hi - 1`. */
  function PathsBetween(es: seq<Entry>, lo: nat, hi: nat): set<Path>
    requires lo <= hi <= |es|
  {
    set k | lo <= k < hi :: es[k].path
  }

  /** The days among entries `lo` to `hi - 1` whose file is missing from `s`, in order. */
  function MissingDays(es: seq<Entry>, s: Store, lo: nat, hi: nat): seq<Date>
    requires lo <= hi <= |es|
    decreases hi - lo
  {
    if lo == hi then []
    else (if es[lo].path in s then [] else [es[lo].date]) + MissingDays(es, s, lo + 1, hi)
  }

  /**
   * How a per-day run ends: having gone through every entry, or at an entry
   * whose file is missing and whose fetch failed with the error reported.
   */
  lemma {:induction false} DailyRunOutcome(fetch: Date -> Fetched, es: seq<Entry>, i: nat, s: Store)
    requires i <= |es|
    ensures var r := DailyRun(fetch, es, i, s);
      && i <= r.stop <= |es|
      && (r.outcome == DaysDone <==> r.stop == |es|)
      && (r.outcome.DayFailed? ==> es[r.stop].path !in r.store && fetch(es[r.stop].date) == Failure(r.outcome.cause))
    decreases |es| - i
  {
    if i < |es| {
      if es[i].path in s {
        DailyRunOutcome(fetch, es, i + 1, s);
      } else if fetch(es[i].date).Success? {
        DailyRunOutcome(fetch, es, i + 1, s[es[i].path := fetch(es[i].date).value]);
      }
    }
  }

  /**
   * A per-day run never changes a file that exists, leaves every entry it
   * went through with a file, and adds files only at those entries' paths.
   */
  lemma {:induction false} DailyRunKeeps(fetch: Date -> Fetched, es: seq<Entry>, i: nat, s: Store)
    requires i <= |es|
    ensures var r := DailyRun(fetch, es, i, s);
      && i <= r.stop <= |es|
      && (forall p :: p in s ==> p in r.store && r.store[p] == s[p])
      && (forall k :: i <= k < r.stop ==> es[k].path in r.store)
      && (forall p :: p in r.store && p !in s ==> p in PathsBetween(es, i, r.stop))
    decreases |es| - i
  {
    DailyRunOutcome(fetch, es, i, s);
    if i < |es| {
      if es[i].path in s {
        DailyRunKeeps(fetch, es, i + 1, s);
      } else if fetch(es[i].date).Success? {
        var s' := s[es[i].path := fetch(es[i].date).value];
        var r, rest := DailyRun(fetch, es, i, s), DailyRun(fetch, es, i + 1, s');
        DailyRunKeeps(fetch, es, i + 1, s');
        forall p | p in r.store && p !in s
          ensures p in PathsBetween(es, i, r.stop)
        {
          if p != es[i].path {
            var k :| i + 1 <= k < rest.stop && es[k].path == p;
          }
        }
      }
    }
  }

  /** Each file a per-day run writes holds what the fetch returned for that entry's day. */
  lemma {:induction false} DailyRunFetched(fetch: Date -> Fetched, es: seq<Entry>, i: nat, s: Store)
    requires i <= |es| && Distinct(es)
    ensures var r := DailyRun(fetch, es, i, s);
      && i <= r.stop <= |es|
      && forall k :: i <= k < r.stop && es[k].path !in s ==>
        es[k].path in r.store && fetch(es[k].date) == Success(r.store[es[k].path])
    decreases |es| - i
  {
    DailyRunOutcome(fetch, es, i, s);
    if i < |es| {
      if es[i].path in s {
        DailyRunFetched(fetch, es, i + 1, s);
      } else if fetch(es[i].date).Success? {
        var s' := s[es[i].path := fetch(es[i].date).value];
        DailyRunFetched(fetch, es, i + 1, s');
        DailyRunKeeps(fetch, es, i + 1, s');
      }
    }
  }

  /** The missing days do not depend on a path no entry in the range has. */
  lemma {:induction false} MissingDaysFrame(es: seq<Entry>, s: Store, p: Path, doc: Doc, lo: nat, hi: nat)
    requires lo <= hi <= |es|
    requires forall k :: lo <= k < hi ==> es[k].path != p
    ensures MissingDays(es, s[p := doc], lo, hi) == MissingDays(es, s, lo, hi)
    decreases hi - lo
  {
    if lo < hi {
      MissingDaysFrame(es, s, p, doc, lo + 1, hi);
    }
  }

  /**
   * A per-day run fetches exactly the days it went through whose file was
   * missing, in order, and, when it failed, the day whose fetch failed.
   */
  lemma {:induction false} DailyRunCalls(fetch: Date -> Fetched, es: seq<Entry>, i: nat, s: Store)
    requires i <= |es| && Distinct(es)
    ensures var r := DailyRun(fetch, es, i, s);
      && i <= r.stop <= |es| && (r.outcome.DayFailed? ==> r.stop < |es|)
      && r.calls == MissingDays(es, s, i, r.stop) + (if r.outcome.DayFailed? then [es[r.stop].date] else [])
    decreases |es| - i
  {
    DailyRunOutcome(fetch, es, i, s);
    var r := DailyRun(fetch, es, i, s);
    if i < |es| {
      if es[i].path in s {
        DailyRunCalls(fetch, es, i + 1, s);
      } else if fetch(es[i].date).Success? {
        var s' := s[es[i].path := fetch(es[i].date).value];
        var rest := DailyRun(fetch, es, i + 1, s');
        DailyRunCalls(fetch, es, i + 1, s');
        MissingDaysFrame(es, s, es[i].path, fetch(es[i].date).value, i + 1, rest.stop);
        var tail := if rest.outcome.DayFailed? then [es[rest.stop].date] else [];
        AppendAssoc([es[i].date], MissingDays(es, s, i + 1, rest.stop), tail);
      } else {
        assert r.calls == [] + [es[i].date];
      }
    }
  }

  /** With distinct days, a day is missing in a range exactly when its entry is in the range and its file is absent. */
  lemma {:induction false} MissingDaysMembers(es: seq<Entry>, s: Store, lo: nat, hi: nat)
    requires lo <= hi <= |es| && Distinct(es)
    ensures forall k :: 0 <= k < |es| ==> (es[k].date in MissingDays(es, s, lo, hi) <==> lo <= k < hi && es[k].path !in s)
    decreases hi - lo
  {
    if lo < hi {
      MissingDaysMembers(es, s, lo + 1, hi);
    }
  }

  /**
   * The per-day sync over what `day_filenames` yields fetches a day exactly
   * when its file was missing and the run got to it (the day it failed on
   * included): no day whose file exists is fetched again.
   */
  lemma DaySyncFetches(ex: Export, name: string, fetch: Date -> Fetched, today: Date, s: Store)
    requires HasUser(ex) && DaysTerminate(today)
    ensures var es := DayWindows(ex, name, today);
      var r := DailyRun(fetch, es, 0, s);
      forall k :: 0 <= k < |es| ==>
        (es[k].date in r.calls <==> es[k].path !in s && (k < r.stop || (k == r.stop && r.outcome.DayFailed?)))
  {
    var es := DayWindows(ex, name, today);
    var r := DailyRun(fetch, es, 0, s);
    DayWindowsDistinct(ex, name, today);
    DailyRunOutcome(fetch, es, 0, s);
    DailyRunKeeps(fetch, es, 0, s);
    DailyRunCalls(fetch, es, 0, s);
    MissingDaysMembers(es, s, 0, r.stop);
  }

  /**
   * A per-day sync that completes leaves a file for every day from
   * 2015-01-01 up to, not including, the cut-off date `BufferDays` days
   * before today, and the files that existed before unchanged.
   */
  lemma DaySyncCovers(ex: Export, name: string, fetch: Date -> Fetched, today: Date, s: Store)
    requires HasUser(ex) && DaysTerminate(today)
    ensures var r := DailyRun(fetch, DayWindows(ex, name, today), 0, s);
      && (forall p :: p in s ==> p in r.store && r.store[p] == s[p])
      && (r.outcome == DaysDone ==>
            forall d :: Valid(d) && !Less(d, DayEpoch) && Less(d, Cutoff(today)) ==> DayPath(ex, name, d) in r.store)
  {
    var es := DayWindows(ex, name, today);
    var r := DailyRun(fetch, es, 0, s);
    DailyRunOutcome(fetch, es, 0, s);
    DailyRunKeeps(fetch, es, 0, s);
    if r.outcome == DaysDone {
      forall d | Valid(d) && !Less(d, DayEpoch) && Less(d, Cutoff(today))
        ensures DayPath(ex, name, d) in r.store
      {
        OrdinalOrder(d, DayEpoch);
        OrdinalOrder(d, Cutoff(today));
        var k := Ordinal(d) - Ordinal(DayEpoch);
        DayWindowAt(ex, name, today, k);
        OrdinalOrder(d, DayAt(k));
      }
    }
  }

  /** A run over entries whose files all exist fetches nothing and changes nothing. */
  lemma {:induction false} DailyRunCached(fetch: Date -> Fetched, es: seq<Entry>, i: nat, s: Store)
    requires i <= |es|
    requires forall k :: i <= k < |es| ==> es[k].path in s
    ensures DailyRun(fetch, es, i, s) == DayRun(s, [], DaysDone, |es|)
    decreases |es| - i
  {
    if i < |es| {
      DailyRunCached(fetch, es, i + 1, s);
    }
  }

  /** After a per-day sync completes, running it again fetches nothing and changes nothing. */
  lemma DaySecondRun(ex: Export, name: string, fetch: Date -> Fetched, today: Date, s: Store)
    requires HasUser(ex) && DaysTerminate(today)
    ensures var es := DayWindows(ex, name, today);
      var r1 := DailyRun(fetch, es, 0, s);
      r1.outcome == DaysDone ==> DailyRun(fetch, es, 0, r1.store) == DayRun(r1.store, [], DaysDone, |es|)
  {
    var es := DayWindows(ex, name, today);
    DailyRunOutcome(fetch, es, 0, s);
    DailyRunKeeps(fetch, es, 0, s);
    if DailyRun(fetch, es, 0, s).outcome == DaysDone {
      DailyRunCached(fetch, es, 0, DailyRun(fetch, es, 0, s).store);
    }
  }

  /**
   * With no client set, a per-day run writes nothing; it goes through every
   * entry whose file exists and stops, with the lookup error, at the first
   * entry whose file is missing. So it completes exactly when every file
   * already exists.
   */
  lemma {:induction false} NoClientRun(es: seq<Entry>, i: nat, s: Store)
    requires i <= |es|
    ensures var r := DailyRun(NoClientFetch, es, i, s);
      && i <= r.stop <= |es| && r.store == s
      && (forall k :: i <= k < r.stop ==> es[k].path in s)
      && (r.outcome == DaysDone <==> forall k :: i <= k < |es| ==> es[k].path in s)
      && (r.outcome.DayFailed? ==> r.outcome.cause == NoClient && es[r.stop].path !in s && r.calls == [es[r.stop].date])
      && (r.outcome == DaysDone ==> r.calls == [])
    decreases |es| - i
  {
    DailyRunOutcome(NoClientFetch, es, i, s);
    if i < |es| && es[i].path in s {
      NoClientRun(es, i + 1, s);
      DailyRunOutcome(NoClientFetch, es, i + 1, s);
    }
  }

  /**
   * A per-day sync only adds files, and every file it adds is a day file of
   * its category under the export's root and the resolved user.
   */
  lemma DaySyncPathsUnderUser(ex: Export, name: string, fetch: Date -> Fetched, today: Date, s: Store)
    requires HasUser(ex) && DaysTerminate(today)
    ensures var r := DailyRun(fetch, DayWindows(ex, name, today), 0, s);
      && (forall p :: p in s ==> p in r.store && r.store[p] == s[p])
      && forall p :: p in r.store && p !in s ==>
           && p.root == ex.root && Some(p.user) == User(ex)
           && p.file.DayFile? && p.file.name == name
  {
    var es := DayWindows(ex, name, today);
    var r := DailyRun(fetch, es, 0, s);
    DailyRunKeeps(fetch, es, 0, s);
    forall p | p in r.store && p !in s
      ensures p.root == ex.root && Some(p.user) == User(ex) && p.file.DayFile? && p.file.name == name
    {
      var k :| 0 <= k < r.stop && es[k].path == p;
      DayWindowAt(ex, name, today, k);
    }
  }
}
