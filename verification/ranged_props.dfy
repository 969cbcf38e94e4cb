/**
 * What a run of `sync_ranged_data` leaves behind, proved about `RangedRun`
 * (which `SyncRangedData` computes): which windows it settles, which files
 * it leaves alone, which fetch calls it makes, and what a second run on
 * the same day does.
 */
module RangedProps {
  import opened Common
  import opened Dates
  import opened Paths
  import opened Windows
  import opened RangedSync

  /** Windows `lo` up to, not including, `hi`, all from January 2015 to today's month. */
  predicate Span(j: Job, lo: int, hi: int) {
    JobOk(j) && EpochMonth <= lo <= hi <= MonthNumber(j.today) + 1 && MonthInRange(hi)
  }

  /** The calls a run makes over windows `lo` to `hi - 1` against store `s`: one per window that needs it, in month order. */
  function ExpectedCalls(j: Job, s: Store, lo: int, hi: int): seq<Call>
    requires Span(j, lo, hi)
    decreases hi - lo
  {
    if lo == hi then []
    else (if NeedsFetch(j, s, lo) then [WindowCall(lo)] else []) + ExpectedCalls(j, s, lo + 1, hi)
  }

  /** The run ended on a failed fetch. */
  predicate FetchAborted(r: Run) {
    r.outcome.Aborted? && r.outcome.error.FetchFailed?
  }

  /** The last window whose files the run may have changed. */
  function LastTouched(r: Run): int {
    if FetchAborted(r) then r.stop else r.stop - 1
  }

  /**
   * Where a run stops: at the month after today's when it completes, at
   * December 9999 when the next window's first day cannot be formed, or at
   * a reached window whose fetch failed.
   */
  lemma {:induction false} RunBounds(j: Job, m: int, s: Store)
    requires JobOk(j) && EpochMonth <= m <= MonthNumber(j.today) + 1 && MonthInRange(m)
    ensures var r := RangedRun(j, m, s);
      && Span(j, m, r.stop)
      && (r.outcome == Done ==> r.stop == MonthNumber(j.today) + 1 && MonthInRange(r.stop + 1))
      && (r.outcome == Aborted(DateOutOfRange) ==> !MonthInRange(r.stop + 1))
      && (FetchAborted(r) ==> Reached(j, r.stop))
    decreases MonthNumber(j.today) + 1 - m
  {
    hide VisitMonth, WindowPartial, WindowCall, PartialPath, FinalPath;
    var v := VisitMonth(j, m, s);
    VisitMonthStatus(j, m, s);
    VisitMonthEffect(j, m, s);
    if v.status.Next? {
      RunBounds(j, m + 1, v.store);
    }
  }

  /** A run changes no file outside the windows it went through. */
  lemma {:induction false} RunFrame(j: Job, m: int, s: Store)
    requires JobOk(j) && EpochMonth <= m <= MonthNumber(j.today) + 1 && MonthInRange(m)
    ensures var r := RangedRun(j, m, s);
      forall p :: !InWindows(j, p, m, LastTouched(r)) ==> SameAt(s, r.store, p)
    decreases MonthNumber(j.today) + 1 - m
  {
    hide VisitMonth, WindowPartial, WindowCall, PartialPath, FinalPath;
    var v := VisitMonth(j, m, s);
    var r := RangedRun(j, m, s);
    VisitMonthStatus(j, m, s);
    VisitMonthFrame(j, m, s);
    if v.status.Next? {
      var rest := RangedRun(j, m + 1, v.store);
      RunFrame(j, m + 1, v.store);
      RunBounds(j, m + 1, v.store);
      assert r == After(CallsOf(v), rest);
      forall p | !InWindows(j, p, m, LastTouched(r))
        ensures SameAt(s, r.store, p)
      {
        assert !InWindows(j, p, m + 1, LastTouched(rest)) && !InWindows(j, p, m, m);
      }
    }
  }

  /** Settledness of window `k` depends only on its two files in the end store and its final file in the start store. */
  lemma SettledTransfer(j: Job, s0: Store, s0': Store, s: Store, s': Store, k: int)
    requires Reached(j, k) && Settled(j, s0, s, k)
    requires SameAt(s0, s0', FinalPath(j, k))
    requires SameAt(s, s', PartialPath(j, k)) && SameAt(s, s', FinalPath(j, k))
    ensures Settled(j, s0', s', k)
  {
  }

  /** Every window a run went through is settled against the store the run started from. */
  lemma {:induction false} RunSettled(j: Job, m: int, s: Store)
    requires JobOk(j) && EpochMonth <= m <= MonthNumber(j.today) + 1 && MonthInRange(m)
    ensures var r := RangedRun(j, m, s);
      forall k :: m <= k < r.stop ==> Reached(j, k) && Settled(j, s, r.store, k)
    decreases MonthNumber(j.today) + 1 - m
  {
    hide VisitMonth, WindowPartial, WindowCall, PartialPath, FinalPath;
    var v := VisitMonth(j, m, s);
    var r := RangedRun(j, m, s);
    VisitMonthStatus(j, m, s);
    if v.status.Next? {
      var rest := RangedRun(j, m + 1, v.store);
      VisitMonthEffect(j, m, s);
      VisitMonthFrame(j, m, s);
      RunSettled(j, m + 1, v.store);
      RunBounds(j, m + 1, v.store);
      RunFrame(j, m + 1, v.store);
      WindowPathsIn(j, m, m + 1, LastTouched(rest));
      SettledTransfer(j, s, s, v.store, r.store, m);
      forall k | m + 1 <= k < r.stop
        ensures Reached(j, k) && Settled(j, s, r.store, k)
      {
        WindowPathsIn(j, k, m, m);
        SettledTransfer(j, v.store, s, r.store, r.store, k);
      }
    }
  }

  /**
   * A run that ends on a failed fetch stops at a reached window that needed
   * the fetch, whose fetch failed with the error reported; that window is
   * left without a partial file and with its final file as it was.
   */
  lemma {:induction false} RunAbort(j: Job, m: int, s: Store)
    requires JobOk(j) && EpochMonth <= m <= MonthNumber(j.today) + 1 && MonthInRange(m)
    ensures var r := RangedRun(j, m, s);
      FetchAborted(r) ==>
        && Reached(j, r.stop) && NeedsFetch(j, s, r.stop)
        && j.fetch(WindowCall(r.stop).first, WindowCall(r.stop).last) == Failure(r.outcome.error.cause)
        && PartialPath(j, r.stop) !in r.store && SameAt(s, r.store, FinalPath(j, r.stop))
    decreases MonthNumber(j.today) + 1 - m
  {
    hide VisitMonth, WindowPartial, WindowCall, PartialPath, FinalPath;
    var v := VisitMonth(j, m, s);
    var r := RangedRun(j, m, s);
    VisitMonthStatus(j, m, s);
    VisitMonthEffect(j, m, s);
    if v.status.Raise? && v.status.error.FetchFailed? {
      WindowPathsIn(j, m, m, m);
    } else if v.status.Next? {
      RunAbort(j, m + 1, v.store);
      RunBounds(j, m + 1, v.store);
      if FetchAborted(r) {
        VisitMonthFrame(j, m, s);
        WindowPathsIn(j, r.stop, m, m);
      }
    }
  }

  /** The expected calls depend on the store only through which final files exist. */
  lemma {:induction false} ExpectedCallsFrame(j: Job, s: Store, s': Store, lo: int, hi: int)
    requires Span(j, lo, hi)
    requires forall k :: lo <= k < hi ==> (FinalPath(j, k) in s <==> FinalPath(j, k) in s')
    ensures ExpectedCalls(j, s, lo, hi) == ExpectedCalls(j, s', lo, hi)
    decreases hi - lo
  {
    hide WindowPartial, WindowCall, FinalPath;
    if lo < hi {
      ExpectedCallsFrame(j, s, s', lo + 1, hi);
    }
  }

  /**
   * A run calls the fetch function exactly once for each window it went
   * through that was partial or had no final file at the start, in month
   * order, and once more for the window whose fetch failed.
   */
  lemma {:induction false} RunCalls(j: Job, m: int, s: Store)
    requires JobOk(j) && EpochMonth <= m <= MonthNumber(j.today) + 1 && MonthInRange(m)
    ensures var r := RangedRun(j, m, s);
      && Span(j, m, r.stop)
      && (!FetchAborted(r) ==> r.calls == ExpectedCalls(j, s, m, r.stop))
      && (FetchAborted(r) ==> MonthInRange(r.stop + 1) && r.calls == ExpectedCalls(j, s, m, r.stop) + [WindowCall(r.stop)])
    decreases MonthNumber(j.today) + 1 - m
  {
    hide VisitMonth, WindowPartial, WindowCall, PartialPath, FinalPath;
    var v := VisitMonth(j, m, s);
    var r := RangedRun(j, m, s);
    VisitMonthStatus(j, m, s);
    VisitMonthEffect(j, m, s);
    RunBounds(j, m, s);
    if v.status.Next? {
      var rest := RangedRun(j, m + 1, v.store);
      RunCalls(j, m + 1, v.store);
      VisitMonthFrame(j, m, s);
      forall k | m + 1 <= k < r.stop
        ensures FinalPath(j, k) in s <==> FinalPath(j, k) in v.store
      {
        WindowPathsIn(j, k, m, m);
      }
      ExpectedCallsFrame(j, s, v.store, m + 1, r.stop);
      var tail := if FetchAborted(r) then [WindowCall(r.stop)] else [];
      AppendAssoc(CallsOf(v), ExpectedCalls(j, s, m + 1, r.stop), tail);
    }
  }

  /** Calls for strictly increasing months. */
  predicate Ascending(cs: seq<Call>) {
    forall i, i' :: 0 <= i < i' < |cs| ==> MonthNumber(cs[i].first) < MonthNumber(cs[i'].first)
  }

  /**
   * The expected calls read back: each is the call of a window in the range
   * that needs fetching, and every window in the range that needs fetching
   * has its call among them.
   */
  lemma {:induction false} ExpectedCallsMembers(j: Job, s: Store, lo: int, hi: int)
    requires Span(j, lo, hi)
    ensures var cs := ExpectedCalls(j, s, lo, hi);
      && (forall i :: 0 <= i < |cs| ==>
            var k := MonthNumber(cs[i].first);
            lo <= k < hi && Reached(j, k) && NeedsFetch(j, s, k) && cs[i] == WindowCall(k))
      && (forall k :: lo <= k < hi ==> (NeedsFetch(j, s, k) <==> WindowCall(k) in cs))
    decreases hi - lo
  {
    hide WindowPartial, FinalPath, WindowCall, NeedsFetch;
    if lo < hi {
      var cs, rest := ExpectedCalls(j, s, lo, hi), ExpectedCalls(j, s, lo + 1, hi);
      var head := if NeedsFetch(j, s, lo) then [WindowCall(lo)] else [];
      assert cs == head + rest;
      ExpectedCallsMembers(j, s, lo + 1, hi);
      WindowCallMonth(lo);
      forall i | 0 <= i < |cs|
        ensures var k := MonthNumber(cs[i].first);
          lo <= k < hi && Reached(j, k) && NeedsFetch(j, s, k) && cs[i] == WindowCall(k)
      {
        if i < |head| {
          assert cs[i] == WindowCall(lo);
        } else {
          assert cs[i] == rest[i - |head|];
        }
      }
      forall k | lo < k < hi
        ensures NeedsFetch(j, s, k) <==> WindowCall(k) in cs
      {
        WindowCallMonth(k);
        assert WindowCall(k) in cs <==> WindowCall(k) in rest;
      }
    }
  }

  /** The expected calls go forward month by month, from window `lo` on. */
  lemma {:induction false} ExpectedCallsAscending(j: Job, s: Store, lo: int, hi: int)
    requires Span(j, lo, hi)
    ensures var cs := ExpectedCalls(j, s, lo, hi);
      Ascending(cs) && forall i :: 0 <= i < |cs| ==> lo <= MonthNumber(cs[i].first)
    decreases hi - lo
  {
    hide WindowPartial, FinalPath, WindowCall, NeedsFetch, MonthNumber;
    if lo < hi {
      var cs, rest := ExpectedCalls(j, s, lo, hi), ExpectedCalls(j, s, lo + 1, hi);
      var head := if NeedsFetch(j, s, lo) then [WindowCall(lo)] else [];
      assert cs == head + rest;
      ExpectedCallsAscending(j, s, lo + 1, hi);
      WindowCallMonth(lo);
      forall i | 0 <= i < |cs|
        ensures lo <= MonthNumber(cs[i].first)
      {
        if i >= |head| {
          assert cs[i] == rest[i - |head|];
        }
      }
      forall i, i' | 0 <= i < i' < |cs|
        ensures MonthNumber(cs[i].first) < MonthNumber(cs[i'].first)
      {
        assert cs[i'] == rest[i' - |head|];
        if i >= |head| {
          assert cs[i] == rest[i - |head|];
        }
      }
    }
  }

  /**
   * A reached window's call covers its whole calendar month, from the 1st
   * to the month's last day, and does not start after today.
   */
  lemma CallCoversMonth(j: Job, k: int)
    requires Reached(j, k)
    ensures var c := WindowCall(k);
      && c.first == Date(c.first.year, c.first.month, 1) && MonthNumber(c.first) == k
      && c.last == Date(c.first.year, c.first.month, DaysInMonth(c.first.year, c.first.month))
      && !Less(j.today, c.first)
  {
    MonthWindow(k);
    StartsAfter(k, j.today);
  }

  /**
   * Every fetch call a run makes is the call of a reached window from `m`
   * up to the one it stopped at that needed fetching, and a window the run
   * went through was fetched exactly when it needed fetching.
   */
  lemma RunFetches(j: Job, m: int, s: Store)
    requires JobOk(j) && EpochMonth <= m <= MonthNumber(j.today) + 1 && MonthInRange(m)
    ensures var r := RangedRun(j, m, s);
      && (forall i :: 0 <= i < |r.calls| ==>
            var k := MonthNumber(r.calls[i].first);
            m <= k <= r.stop && Reached(j, k) && NeedsFetch(j, s, k) && r.calls[i] == WindowCall(k))
      && (forall k :: m <= k < r.stop ==> Reached(j, k) && (NeedsFetch(j, s, k) <==> WindowCall(k) in r.calls))
  {
    hide VisitMonth, WindowPartial, PartialPath, FinalPath, WindowCall, NeedsFetch, RangedRun;
    var r := RangedRun(j, m, s);
    RunCalls(j, m, s);
    RunAbort(j, m, s);
    var e := ExpectedCalls(j, s, m, r.stop);
    ExpectedCallsMembers(j, s, m, r.stop);
    if FetchAborted(r) {
      WindowCallMonth(r.stop);
      assert r.calls == e + [WindowCall(r.stop)];
      forall i | 0 <= i < |r.calls|
        ensures var k := MonthNumber(r.calls[i].first);
          m <= k <= r.stop && Reached(j, k) && NeedsFetch(j, s, k) && r.calls[i] == WindowCall(k)
      {
        if i < |e| {
          assert r.calls[i] == e[i];
        }
      }
      forall k | m <= k < r.stop
        ensures Reached(j, k) && (NeedsFetch(j, s, k) <==> WindowCall(k) in r.calls)
      {
        WindowCallMonth(k);
        assert WindowCall(k) in r.calls <==> WindowCall(k) in e;
      }
    }
  }

  /** A run's fetch calls go forward month by month. */
  lemma RunFetchesAscending(j: Job, m: int, s: Store)
    requires JobOk(j) && EpochMonth <= m <= MonthNumber(j.today) + 1 && MonthInRange(m)
    ensures Ascending(RangedRun(j, m, s).calls)
  {
    hide VisitMonth, WindowPartial, PartialPath, FinalPath, WindowCall, NeedsFetch, RangedRun;
    var r := RangedRun(j, m, s);
    RunCalls(j, m, s);
    var e := ExpectedCalls(j, s, m, r.stop);
    ExpectedCallsMembers(j, s, m, r.stop);
    ExpectedCallsAscending(j, s, m, r.stop);
    if FetchAborted(r) {
      WindowCallMonth(r.stop);
      forall i, i' | 0 <= i < i' < |r.calls|
        ensures MonthNumber(r.calls[i].first) < MonthNumber(r.calls[i'].first)
      {
        assert r.calls[i] == e[i];
        if i' < |e| {
          assert r.calls[i'] == e[i'];
        }
      }
    }
  }

  /**
   * No redundant fetch: a final window whose final file was already in the
   * store is never fetched, and its file is left as it was.
   */
  lemma NoRedundantFetch(j: Job, m: int, s: Store)
    requires JobOk(j) && EpochMonth <= m <= MonthNumber(j.today) + 1 && MonthInRange(m)
    ensures var r := RangedRun(j, m, s);
      forall k :: Reached(j, k) && !WindowPartial(j, k) && FinalPath(j, k) in s ==>
        WindowCall(k) !in r.calls && FinalPath(j, k) in r.store && r.store[FinalPath(j, k)] == s[FinalPath(j, k)]
  {
    hide VisitMonth, WindowPartial, PartialPath, FinalPath, WindowCall;
    var r := RangedRun(j, m, s);
    RunFetches(j, m, s);
    RunSettled(j, m, s);
    RunFrame(j, m, s);
    RunAbort(j, m, s);
    forall k | Reached(j, k) && !WindowPartial(j, k) && FinalPath(j, k) in s
      ensures WindowCall(k) !in r.calls && FinalPath(j, k) in r.store && r.store[FinalPath(j, k)] == s[FinalPath(j, k)]
    {
      WindowPathsIn(j, k, m, LastTouched(r));
      if WindowCall(k) in r.calls {
        var i :| 0 <= i < |r.calls| && r.calls[i] == WindowCall(k);
        WindowCallMonth(k);
      }
    }
  }

  /**
   * A completed run leaves no stale partial file: every window up to
   * today's month has its partial file exactly when it is partial, and
   * every final window has its final file.
   */
  lemma CompletedRunFiles(j: Job, m: int, s: Store)
    requires JobOk(j) && EpochMonth <= m <= MonthNumber(j.today) + 1 && MonthInRange(m)
    ensures var r := RangedRun(j, m, s);
      r.outcome == Done ==>
        forall k :: m <= k <= MonthNumber(j.today) ==>
          && Reached(j, k)
          && (PartialPath(j, k) in r.store <==> WindowPartial(j, k))
          && (!WindowPartial(j, k) ==> FinalPath(j, k) in r.store)
  {
    hide VisitMonth, WindowPartial, PartialPath, FinalPath, WindowCall, RangedRun;
    var r := RangedRun(j, m, s);
    RunBounds(j, m, s);
    RunSettled(j, m, s);
    if r.outcome == Done {
      forall k | m <= k <= MonthNumber(j.today)
        ensures Reached(j, k)
        ensures PartialPath(j, k) in r.store <==> WindowPartial(j, k)
        ensures !WindowPartial(j, k) ==> FinalPath(j, k) in r.store
      {
        assert m <= k < r.stop;
        SettledComplete(j, s, r.store, k);
      }
    }
  }

  /** Window `k` as a completed visit leaves it, whatever the store before: the file its kind calls for, and no stale partial file. */
  predicate Complete(j: Job, s: Store, k: int)
    requires Reached(j, k)
  {
    var c := WindowCall(k);
    if WindowPartial(j, k) then PartialPath(j, k) in s && j.fetch(c.first, c.last) == Success(s[PartialPath(j, k)])
    else PartialPath(j, k) !in s && FinalPath(j, k) in s
  }

  /** A settled window is complete. */
  lemma SettledComplete(j: Job, s0: Store, s: Store, k: int)
    requires Reached(j, k) && Settled(j, s0, s, k)
    ensures Complete(j, s, k)
  {
  }

  /** Visiting a complete window refetches it only when partial, gets the same document, and changes nothing. */
  lemma VisitComplete(j: Job, m: int, s: Store)
    requires Reached(j, m) && Complete(j, s, m)
    ensures VisitMonth(j, m, s) == Visit(s, if WindowPartial(j, m) then Some(WindowCall(m)) else None, Next)
  {
    hide VisitMonth, WindowCall;
    VisitReached(j, m, s);
    WindowPathsIn(j, m, m, m);
    var pp := PartialPath(j, m);
    if WindowPartial(j, m) {
      assert (s - {pp})[pp := s[pp]] == s;
    } else {
      assert s - {pp} == s;
    }
  }

  /**
   * A run over complete windows, up to today's month, ends normally with
   * the store unchanged, having fetched exactly the partial windows.
   */
  lemma {:induction false} RerunComplete(j: Job, m: int, s: Store)
    requires JobOk(j) && EpochMonth <= m <= MonthNumber(j.today) + 1 && MonthInRange(MonthNumber(j.today) + 2)
    requires forall k :: m <= k <= MonthNumber(j.today) ==> Complete(j, s, k)
    ensures var r := RangedRun(j, m, s);
      && r.store == s && r.outcome == Done && r.stop == MonthNumber(j.today) + 1
      && r.calls == ExpectedCalls(j, s, m, r.stop)
      && forall k :: m <= k <= MonthNumber(j.today) ==> (NeedsFetch(j, s, k) <==> WindowPartial(j, k))
    decreases MonthNumber(j.today) + 1 - m
  {
    hide VisitMonth, WindowPartial, PartialPath, WindowCall, Complete;
    var r := RangedRun(j, m, s);
    VisitMonthStatus(j, m, s);
    if m <= MonthNumber(j.today) {
      VisitComplete(j, m, s);
      RerunComplete(j, m + 1, s);
    }
  }

  /** Before 2015 there is nothing to sync: the first window already starts after today. */
  lemma RunBeforeEpoch(j: Job, s: Store)
    requires JobOk(j) && MonthNumber(j.today) < EpochMonth
    ensures RangedRun(j, EpochMonth, s) == Run(s, [], Done, EpochMonth)
  {
    VisitMonthStatus(j, EpochMonth, s);
  }

  /** Two jobs for the same export, category and day, whatever their fetch functions. */
  ghost predicate SameDay(j: Job, j2: Job) {
    j2.ex == j.ex && j2.name == j.name && j2.today == j.today
  }

  /** Window `k` is the same window, with the same files and call, for two jobs of the same day. */
  lemma SameDayWindows(j: Job, j2: Job, k: int)
    requires SameDay(j, j2)
    ensures Reached(j, k) == Reached(j2, k)
    ensures Reached(j, k) ==>
      && WindowPartial(j, k) == WindowPartial(j2, k)
      && PartialPath(j, k) == PartialPath(j2, k) && FinalPath(j, k) == FinalPath(j2, k)
  {
  }

  /** The second job's fetch returns what the first one's did on every partial window. */
  ghost predicate AgreesOnPartial(j: Job, j2: Job) {
    forall k :: Reached(j, k) && WindowPartial(j, k) ==>
      j2.fetch(WindowCall(k).first, WindowCall(k).last) == j.fetch(WindowCall(k).first, WindowCall(k).last)
  }

  /**
   * A second run on the day of a completed one, with any fetch function:
   * it fetches partial windows only, month by month, and leaves every
   * final window's file as the first run left it.
   */
  lemma SecondRunFetches(j: Job, j2: Job, s: Store)
    requires JobOk(j) && SameDay(j, j2)
    ensures var r1 := RangedRun(j, EpochMonth, s);
      var r2 := RangedRun(j2, EpochMonth, r1.store);
      r1.outcome == Done ==>
        && Ascending(r2.calls)
        && (forall i :: 0 <= i < |r2.calls| ==>
              var k := MonthNumber(r2.calls[i].first);
              Reached(j, k) && WindowPartial(j, k) && r2.calls[i] == WindowCall(k))
        && (forall k :: Reached(j, k) && !WindowPartial(j, k) ==>
              FinalPath(j, k) in r1.store && FinalPath(j, k) in r2.store
              && r2.store[FinalPath(j, k)] == r1.store[FinalPath(j, k)])
  {
    hide VisitMonth, WindowPartial, PartialPath, FinalPath, WindowCall, RangedRun, NeedsFetch;
    var r1 := RangedRun(j, EpochMonth, s);
    if r1.outcome == Done {
      if MonthNumber(j.today) < EpochMonth {
        RunBeforeEpoch(j, s);
        RunBeforeEpoch(j2, r1.store);
      } else {
        var r2 := RangedRun(j2, EpochMonth, r1.store);
        CompletedRunFiles(j, EpochMonth, s);
        RunFetchesAscending(j2, EpochMonth, r1.store);
        RunFetches(j2, EpochMonth, r1.store);
        NoRedundantFetch(j2, EpochMonth, r1.store);
        forall i | 0 <= i < |r2.calls|
          ensures var k := MonthNumber(r2.calls[i].first);
            Reached(j, k) && WindowPartial(j, k) && r2.calls[i] == WindowCall(k)
        {
          var k := MonthNumber(r2.calls[i].first);
          SameDayWindows(j, j2, k);
          ReachedBounds(j, k);
        }
        forall k | Reached(j, k) && !WindowPartial(j, k)
          ensures FinalPath(j, k) in r1.store && FinalPath(j, k) in r2.store
            && r2.store[FinalPath(j, k)] == r1.store[FinalPath(j, k)]
        {
          SameDayWindows(j, j2, k);
          ReachedBounds(j, k);
        }
      }
    }
  }

  /** A reached window lies between January 2015 and today's month. */
  lemma ReachedBounds(j: Job, k: int)
    requires Reached(j, k)
    ensures JobOk(j) && EpochMonth <= k <= MonthNumber(j.today)
  {
  }

  /**
   * A second run on the day of a completed one, with any fetch function,
   * completes and leaves the store as the first run left it exactly when
   * its fetch function returns what the first one's did on every partial
   * window.
   */
  lemma SecondRunUnchanged(j: Job, j2: Job, s: Store)
    requires JobOk(j) && SameDay(j, j2)
    ensures var r1 := RangedRun(j, EpochMonth, s);
      var r2 := RangedRun(j2, EpochMonth, r1.store);
      r1.outcome == Done ==>
        (r2.outcome == Done && r2.store == r1.store <==> AgreesOnPartial(j, j2))
  {
    hide VisitMonth, PartialPath, FinalPath, RangedRun, NeedsFetch, Complete;
    var r1 := RangedRun(j, EpochMonth, s);
    var r2 := RangedRun(j2, EpochMonth, r1.store);
    if r1.outcome == Done {
      if MonthNumber(j.today) < EpochMonth {
        RunBeforeEpoch(j, s);
        RunBeforeEpoch(j2, r1.store);
      } else {
        RunBounds(j, EpochMonth, s);
        RunSettled(j, EpochMonth, s);
        RunBounds(j2, EpochMonth, r1.store);
        RunSettled(j2, EpochMonth, r1.store);
        if AgreesOnPartial(j, j2) {
          forall k | EpochMonth <= k <= MonthNumber(j.today)
            ensures Complete(j2, r1.store, k)
          {
            assert EpochMonth <= k < r1.stop;
            SameDayWindows(j, j2, k);
            SettledComplete(j, s, r1.store, k);
            CompleteTransfer(j, j2, r1.store, k);
          }
          RerunComplete(j2, EpochMonth, r1.store);
        }
        if r2.outcome == Done && r2.store == r1.store {
          forall k | Reached(j, k) && WindowPartial(j, k)
            ensures j2.fetch(WindowCall(k).first, WindowCall(k).last) == j.fetch(WindowCall(k).first, WindowCall(k).last)
          {
            ReachedBounds(j, k);
            assert EpochMonth <= k < r1.stop;
            SameDayWindows(j, j2, k);
          }
        }
      }
    }
  }

  /** A complete window stays complete for a job of the same day whose fetch agrees on it. */
  lemma CompleteTransfer(j: Job, j2: Job, s: Store, k: int)
    requires SameDay(j, j2) && Reached(j, k) && Complete(j, s, k)
    requires WindowPartial(j, k) ==>
      j2.fetch(WindowCall(k).first, WindowCall(k).last) == j.fetch(WindowCall(k).first, WindowCall(k).last)
    ensures Reached(j2, k) && Complete(j2, s, k)
  {
  }

  /** A completed run from 2015 on has fetched today's month, which is always partial, successfully. */
  lemma CompletedRunFetchedToday(j: Job, s: Store)
    requires JobOk(j) && EpochMonth <= MonthNumber(j.today)
    ensures var t := MonthNumber(j.today);
      RangedRun(j, EpochMonth, s).outcome == Done ==>
        && Reached(j, t) && WindowPartial(j, t)
        && j.fetch(WindowCall(t).first, WindowCall(t).last).Success?
  {
    hide VisitMonth, PartialPath, FinalPath, RangedRun, NeedsFetch;
    var r := RangedRun(j, EpochMonth, s);
    var t := MonthNumber(j.today);
    if r.outcome == Done {
      RunBounds(j, EpochMonth, s);
      RunSettled(j, EpochMonth, s);
      assert EpochMonth <= t < r.stop;
      CutoffDefinedFromEpoch(j.today);
      PartialWindowsAreRecent(j.today);
    }
  }

  /** With a fetch function that always fails, such as a rate-limited client, a run from 2015 on never completes. */
  lemma FailingFetchNeverCompletes(j: Job, s: Store)
    requires JobOk(j) && EpochMonth <= MonthNumber(j.today)
    requires forall a, b :: j.fetch(a, b).Failure?
    ensures RangedRun(j, EpochMonth, s).outcome.Aborted?
  {
    CompletedRunFetchedToday(j, s);
  }

  /**
   * Every file a run creates, overwrites or deletes is a month file of the
   * job's category under the export's root and the resolved user.
   */
  lemma RunPathsUnderUser(j: Job, s: Store)
    requires JobOk(j)
    ensures var r := RangedRun(j, EpochMonth, s);
      forall p :: !SameAt(s, r.store, p) ==>
        && p.root == j.ex.root && Some(p.user) == User(j.ex)
        && p.file.MonthFile? && p.file.name == j.name
  {
    if MonthNumber(j.today) < EpochMonth {
      RunBeforeEpoch(j, s);
    } else {
      RunFrame(j, EpochMonth, s);
    }
  }
}
