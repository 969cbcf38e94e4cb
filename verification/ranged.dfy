/**
 * `sync_ranged_data`: walk the months from January 2015 up to the month of
 * today; delete a window's stale partial file, re-fetch a partial window
 * into its partial file, skip a final window whose file exists, and fetch a
 * missing final window into its final file. A fetch that fails ends the
 * walk; what was written before stays.
 */
module RangedSync {
  import opened Common
  import opened Dates
  import opened Paths
  import opened Windows

  datatype Error =
    | FetchFailed(cause: FetchError)  // the client function raised
    | DateOutOfRange                  // `date(10000, 1, 1)` raises ValueError

  datatype Outcome = Done | Aborted(error: Error)

  /** One call of the fetch function: first and last day, both inclusive. */
  datatype Call = Call(first: Date, last: Date)

  /** The inputs of one ranged sync: the export, the category name, its fetch function and today's date. */
  datatype Job = Job(ex: Export, name: string, fetch: (Date, Date) -> Fetched, today: Date)

  predicate JobOk(j: Job) {
    HasUser(j.ex) && Valid(j.today)
  }

  /** The result of a sync: the store, the fetch calls in order, how it ended, and the window it ended at. */
  datatype Run = Run(store: Store, calls: seq<Call>, outcome: Outcome, stop: int)

  /** Paths `p` at which two stores agree. */
  predicate SameAt(a: Store, b: Store, p: Path) {
    (p in a <==> p in b) && (p in a ==> a[p] == b[p])
  }

  /** Path `p` is a month file of this job's category for a window from `lo` to `hi`. */
  predicate InWindows(j: Job, p: Path, lo: int, hi: int)
    requires JobOk(j)
  {
    && p.root == j.ex.root && Some(p.user) == User(j.ex)
    && p.file.MonthFile? && p.file.name == j.name && 1 <= p.file.month <= 12
    && lo <= MonthNumber(Date(p.file.year, p.file.month, 1)) <= hi
  }

  function PartialPath(j: Job, m: int): Path
    requires JobOk(j) && MonthInRange(m)
  {
    MonthPath(j.ex, j.name, MonthStart(m), true)
  }

  function FinalPath(j: Job, m: int): Path
    requires JobOk(j) && MonthInRange(m)
  {
    MonthPath(j.ex, j.name, MonthStart(m), false)
  }

  /** Window `k`'s two files lie in the windows from `lo` to `hi` exactly when `k` does. */
  lemma WindowPathsIn(j: Job, k: int, lo: int, hi: int)
    requires JobOk(j) && MonthInRange(k)
    ensures InWindows(j, PartialPath(j, k), lo, hi) <==> lo <= k <= hi
    ensures InWindows(j, FinalPath(j, k), lo, hi) <==> lo <= k <= hi
    ensures PartialPath(j, k) != FinalPath(j, k)
  {
    assert MonthNumber(MonthStart(k)) == k;
  }

  /** The call made for window `m`: its first day and `date_end - 1 day`. */
  function WindowCall(m: int): Call
    requires MonthInRange(m) && MonthInRange(m + 1)
  {
    Call(MonthStart(m), LastDay(m))
  }

  /** A window's call starts in that window's month. */
  lemma WindowCallMonth(m: int)
    requires MonthInRange(m) && MonthInRange(m + 1)
    ensures MonthNumber(WindowCall(m).first) == m
  {
  }

  /** Window `m` is one the loop gets to examine: from January 2015, not after today's month. */
  predicate Reached(j: Job, m: int) {
    JobOk(j) && EpochMonth <= m <= MonthNumber(j.today) && MonthInRange(m + 1)
  }

  /** Window `m` is partial: `date_end > today - BUFFER_DAYS days`, stated on month numbers (see `PartialMonths`). */
  predicate WindowPartial(j: Job, m: int)
    requires Reached(j, m)
  {
    CutoffDefinedFromEpoch(j.today);
    m >= FirstPartialMonth(j.today)
  }

  /** Whether visiting window `m` against `s` calls the fetch function. */
  predicate NeedsFetch(j: Job, s: Store, m: int)
    requires Reached(j, m)
  {
    WindowPartial(j, m) || FinalPath(j, m) !in s
  }

  /**
   * Window `m` after its visit, against the store `s0` it started from: the
   * partial file exists exactly for a partial window and holds what the
   * fetch returned; a final window has its final file, the one it had
   * before if there was one, otherwise the fetched document.
   */
  predicate Settled(j: Job, s0: Store, s: Store, m: int)
    requires Reached(j, m)
  {
    var pp, fp, c := PartialPath(j, m), FinalPath(j, m), WindowCall(m);
    if WindowPartial(j, m) then
      pp in s && j.fetch(c.first, c.last) == Success(s[pp]) && SameAt(s0, s, fp)
    else
      pp !in s && fp in s && (if fp in s0 then s[fp] == s0[fp] else j.fetch(c.first, c.last) == Success(s[fp]))
  }

  datatype Status = Next | Break | Raise(error: Error)

  /** One pass of the loop body: the new store, the fetch call made (if any), and how the loop goes on. */
  datatype Visit = Visit(store: Store, call: Option<Call>, status: Status)

  /** The body of the `sync_ranged_data` loop for month number `m`. */
  function VisitMonth(j: Job, m: int, s: Store): (v: Visit)
    requires JobOk(j) && EpochMonth <= m && MonthInRange(m)
    ensures v.status.Next? ==> Reached(j, m)
  {
    if !MonthInRange(m + 1) then Visit(s, None, Raise(DateOutOfRange))
    else if m > MonthNumber(j.today) then Visit(s, None, Break)
    else
      var pp, fp := PartialPath(j, m), FinalPath(j, m);
      var s1 := if pp in s then s - {pp} else s;
      if !WindowPartial(j, m) && fp in s1 then Visit(s1, None, Next)
      else
        var call := WindowCall(m);
        var target := if WindowPartial(j, m) then pp else fp;
        match j.fetch(call.first, call.last)
        case Success(doc) => Visit(s1[target := doc], Some(call), Next)
        case Failure(e) => Visit(s1, Some(call), Raise(FetchFailed(e)))
  }

  /** How the loop goes on after window `m`: it stops at the first month after today's, or on an error. */
  lemma VisitMonthStatus(j: Job, m: int, s: Store)
    requires JobOk(j) && EpochMonth <= m && MonthInRange(m)
    ensures var v := VisitMonth(j, m, s);
      && (v.status == Raise(DateOutOfRange) <==> !MonthInRange(m + 1))
      && (v.status.Break? <==> MonthInRange(m + 1) && m > MonthNumber(j.today))
      && (!Reached(j, m) ==> v.store == s && v.call == None && !v.status.Next?)
      && (Reached(j, m) ==> (v.call.Some? <==> NeedsFetch(j, s, m)) && (v.call.Some? ==> v.call.value == WindowCall(m)))
  {
    if MonthInRange(m + 1) {
      StartsAfter(m, j.today);
    }
  }

  /** The loop body for a reached window, branch by branch. */
  lemma VisitReached(j: Job, m: int, s: Store)
    requires Reached(j, m)
    ensures var pp, fp, c := PartialPath(j, m), FinalPath(j, m), WindowCall(m);
      var s1 := if pp in s then s - {pp} else s;
      var f := j.fetch(c.first, c.last);
      VisitMonth(j, m, s) ==
        if !NeedsFetch(j, s, m) then Visit(s1, None, Next)
        else if f.Failure? then Visit(s1, Some(c), Raise(FetchFailed(f.error)))
        else Visit(s1[(if WindowPartial(j, m) then pp else fp) := f.value], Some(c), Next)
  {
    StartsAfter(m, j.today);
  }

  /**
   * A visit that goes on leaves window `m` settled; a failed fetch leaves
   * the store as it was except that the window's partial file is gone.
   */
  lemma VisitMonthEffect(j: Job, m: int, s: Store)
    requires JobOk(j) && EpochMonth <= m && MonthInRange(m)
    ensures var v := VisitMonth(j, m, s);
      && (v.status.Next? ==> Settled(j, s, v.store, m))
      && (v.status.Raise? && v.status.error.FetchFailed? ==>
            && Reached(j, m) && v.call == Some(WindowCall(m))
            && j.fetch(WindowCall(m).first, WindowCall(m).last) == Failure(v.status.error.cause)
            && v.store == if PartialPath(j, m) in s then s - {PartialPath(j, m)} else s)
  {
    hide VisitMonth, WindowCall;
    VisitMonthStatus(j, m, s);
    if Reached(j, m) {
      VisitReached(j, m, s);
    }
  }

  /** A visit touches no path other than window `m`'s two files. */
  lemma VisitMonthFrame(j: Job, m: int, s: Store)
    requires JobOk(j) && EpochMonth <= m && MonthInRange(m)
    ensures var v := VisitMonth(j, m, s);
      forall p :: !InWindows(j, p, m, m) ==> SameAt(s, v.store, p)
  {
    hide VisitMonth, WindowPartial, WindowCall;
    VisitMonthStatus(j, m, s);
    if Reached(j, m) {
      VisitReached(j, m, s);
      WindowPathsIn(j, m, m, m);
    }
  }

  function CallsOf(v: Visit): seq<Call> {
    if v.call.Some? then [v.call.value] else []
  }

  /** A run with `calls` made before it. */
  function After(calls: seq<Call>, r: Run): Run {
    Run(r.store, calls + r.calls, r.outcome, r.stop)
  }

  /** The whole loop from month number `m` on, against store `s`. */
  function RangedRun(j: Job, m: int, s: Store): Run
    requires JobOk(j) && EpochMonth <= m && MonthInRange(m)
    decreases MonthNumber(j.today) + 1 - m
  {
    var v := VisitMonth(j, m, s);
    match v.status
    case Break => Run(s, [], Done, m)
    case Raise(e) => Run(v.store, CallsOf(v), Aborted(e), m)
    case Next => After(CallsOf(v), RangedRun(j, m + 1, v.store))
  }

  /** The run from window `m` is the visit of `m` followed by the run from `m + 1`. */
  lemma RangedRunStep(j: Job, m: int, s: Store, v: Visit, calls: seq<Call>)
    requires JobOk(j) && EpochMonth <= m && MonthInRange(m) && v == VisitMonth(j, m, s)
    ensures v.status.Break? ==> After(calls, RangedRun(j, m, s)) == Run(s, calls + CallsOf(v), Done, m)
    ensures v.status.Raise? ==> After(calls, RangedRun(j, m, s)) == Run(v.store, calls + CallsOf(v), Aborted(v.status.error), m)
    ensures v.status.Next? ==>
      && MonthInRange(m + 1) && m + 1 <= MonthNumber(j.today) + 1
      && After(calls, RangedRun(j, m, s)) == After(calls + CallsOf(v), RangedRun(j, m + 1, v.store))
  {
    VisitMonthStatus(j, m, s);
    if v.status.Break? {
      assert calls + CallsOf(v) == calls + [];
    }
    if v.status.Next? {
      AppendAssoc(calls, CallsOf(v), RangedRun(j, m + 1, v.store).calls);
    }
  }

  /** One pass of the loop of `sync_ranged_data` over month number `month`. */
  method SyncMonth(ex: Export, name: string, clientFn: (Date, Date) -> Fetched, today: Date, month: int, s: Store)
    returns (v: Visit)
    requires HasUser(ex) && Valid(today) && EpochMonth <= month && MonthInRange(month)
    ensures v == VisitMonth(Job(ex, name, clientFn, today), month, s)
  {
    ghost var j := Job(ex, name, clientFn, today);
    var dateStart := MonthStart(month);
    if !MonthInRange(month + 1) {
      return Visit(s, None, Raise(DateOutOfRange));
    }
    var dateEnd := MonthStart(month + 1);
    StartsAfter(month, today);
    if Less(today, dateStart) {
      return Visit(s, None, Break);
    }
    VisitReached(j, month, s);
    CutoffDefinedFromEpoch(today);
    PartialMonths(month, today);
    var partial := IsPartial(dateEnd, today);
    var partialFilename := MonthPath(ex, name, dateStart, true);
    var filename := MonthPath(ex, name, dateStart, false);
    var store := s;
    if partialFilename in store {
      store := store - {partialFilename};
    }
    if partial {
      filename := partialFilename;
    } else if filename in store {
      return Visit(store, None, Next);
    }
    SubOneDay(dateEnd);
    var lastDay := SubDays(dateEnd, 1);
    var data := clientFn(dateStart, lastDay);
    if data.Failure? {
      return Visit(store, Some(Call(dateStart, lastDay)), Raise(FetchFailed(data.error)));
    }
    store := store[filename := data.value];
    return Visit(store, Some(Call(dateStart, lastDay)), Next);
  }

  /** `sync_ranged_data(name, client_fn)` with today's date and the store made explicit. */
  method SyncRangedData(ex: Export, name: string, clientFn: (Date, Date) -> Fetched, today: Date, s: Store)
    returns (r: Run)
    requires HasUser(ex) && Valid(today)
    ensures r == RangedRun(Job(ex, name, clientFn, today), EpochMonth, s)
  {
    hide VisitMonth;
    ghost var j := Job(ex, name, clientFn, today);
    var store := s;
    var calls: seq<Call> := [];
    var month := EpochMonth;
    while true
      invariant EpochMonth <= month && MonthInRange(month)
      invariant RangedRun(j, EpochMonth, s) == After(calls, RangedRun(j, month, store))
      decreases MonthNumber(today) + 1 - month
    {
      var v := SyncMonth(ex, name, clientFn, today, month, store);
      RangedRunStep(j, month, store, v, calls);
      calls := calls + CallsOf(v);
      match v.status
      case Break =>
        return Run(store, calls, Done, month);
      case Raise(e) =>
        return Run(v.store, calls, Aborted(e), month);
      case Next =>
        store, month := v.store, month + 1;
    }
  }

  /** `sync_sleep`: the ranged sync of "sleep" through the client's sleep-range fetcher. */
  method SyncSleep(ex: Export, today: Date, s: Store) returns (r: Run)
    requires HasUser(ex) && Valid(today) && ex.client.Some?
    ensures r == RangedRun(Job(ex, "sleep", ex.client.value.getSleepRange, today), EpochMonth, s)
  {
    r := SyncRangedData(ex, "sleep", ex.client.value.getSleepRange, today, s);
  }

  /** `sync_weight`: the ranged sync of "weight" through the client's weight-range fetcher. */
  method SyncWeight(ex: Export, today: Date, s: Store) returns (r: Run)
    requires HasUser(ex) && Valid(today) && ex.client.Some?
    ensures r == RangedRun(Job(ex, "weight", ex.client.value.getWeightRange, today), EpochMonth, s)
  {
    r := SyncRangedData(ex, "weight", ex.client.value.getWeightRange, today, s);
  }
}
