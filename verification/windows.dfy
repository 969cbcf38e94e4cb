/**
 * The time windows the export walks through: calendar months counted by a
 * month number (`year * 12 + month - 1`) for the ranged series, and single
 * days, from 2015-01-01, for the per-day series; with the finality rule that
 * holds back the last `BufferDays` days.
 */
module Windows {
  import opened Dates
  import opened Paths

  /** Days left out at the end so that a device can finish syncing (`BUFFER_DAYS`). */
  const BufferDays := 5

  /** The month number the ranged sync starts from (`2015 * 12`, January 2015). */
  const EpochMonth := 2015 * 12

  /** The first day the per-day sync enumerates. */
  const DayEpoch := Date(2015, 1, 1)

  /** Month numbers `date(m // 12, m % 12 + 1, 1)` accepts. */
  predicate MonthInRange(m: int) {
    MinYear * 12 <= m < (MaxYear + 1) * 12
  }

  /** `date(m // 12, m % 12 + 1, 1)`: the first day of month number `m`. */
  function MonthStart(m: int): (d: Date)
    ensures MonthInRange(m) ==> Valid(d) && d.day == 1 && MonthNumber(d) == m
  {
    Date(m / 12, m % 12 + 1, 1)
  }

  /** The month number of the month `d` lies in. */
  function MonthNumber(d: Date): int {
    d.year * 12 + d.month - 1
  }

  /** A month window begins after `today` exactly when its number is past today's month. */
  lemma StartsAfter(m: int, today: Date)
    requires MonthInRange(m) && Valid(today)
    ensures Less(today, MonthStart(m)) <==> m > MonthNumber(today)
  {
  }

  /** `date_end - timedelta(days=1)`: the inclusive end of month window `m`. */
  function LastDay(m: int): Date
    requires MonthInRange(m) && MonthInRange(m + 1)
  {
    PrevDay(MonthStart(m + 1))
  }

  /**
   * Window `m` is the calendar month `[MonthStart(m), MonthStart(m + 1))`:
   * its inclusive end is the last day of the same month, the day after that
   * is where window `m + 1` starts, and it spans exactly that month's days.
   */
  lemma MonthWindow(m: int)
    requires MonthInRange(m) && MonthInRange(m + 1)
    ensures var s := MonthStart(m);
      && LastDay(m) == Date(s.year, s.month, DaysInMonth(s.year, s.month))
      && LastDay(m) != MaxDate && NextDay(LastDay(m)) == MonthStart(m + 1)
      && Ordinal(MonthStart(m + 1)) - Ordinal(s) == DaysInMonth(s.year, s.month)
  {
    var s, e := MonthStart(m), MonthStart(m + 1);
    NextMonthStart(m);
    hide MonthStart;
    MonthStep(s.year, s.month);
    if s.month == 12 {
      YearStep(s.year);
    }
    OrdinalOrder(LastDay(m), MaxDate);
  }

  /** The month after month number `m` starts on the 1st of the next calendar month. */
  lemma NextMonthStart(m: int)
    requires MonthInRange(m) && MonthInRange(m + 1)
    ensures var s := MonthStart(m);
      MonthStart(m + 1) == if s.month == 12 then Date(s.year + 1, 1, 1) else Date(s.year, s.month + 1, 1)
  {
    var q, r := m / 12, m % 12;
    if r == 11 {
      DivMod12(m + 1, q + 1, 0);
    } else {
      DivMod12(m + 1, q, r + 1);
    }
  }

  lemma DivMod12(n: int, q: int, r: int)
    requires n == 12 * q + r && 0 <= r < 12
    ensures n / 12 == q && n % 12 == r
  {
  }

  lemma FirstMonthWindow()
    ensures MonthInRange(EpochMonth) && MonthStart(EpochMonth) == DayEpoch
    ensures LastDay(EpochMonth) == Date(2015, 1, 31)
  {
    var s := MonthStart(EpochMonth);
    assert s == Date(2015, 1, 1);
    MonthWindow(EpochMonth);
    assert DaysInMonth(2015, 1) == 31;
  }

  /** `date.today() - timedelta(days=BUFFER_DAYS)` is defined. */
  predicate CutoffDefined(today: Date) {
    Valid(today) && Ordinal(today) - BufferDays >= Ordinal(MinDate)
  }

  /** `date.today() - timedelta(days=BUFFER_DAYS)`. */
  function Cutoff(today: Date): (c: Date)
    requires CutoffDefined(today)
    ensures Valid(c) && Ordinal(c) == Ordinal(today) - BufferDays
  {
    SubDays(today, BufferDays)
  }

  /** Any day from 2015-01-01 on is far enough from the start of the calendar. */
  lemma CutoffDefinedFromEpoch(today: Date)
    requires Valid(today) && !Less(today, DayEpoch)
    ensures CutoffDefined(today)
  {
    OrdinalOrder(today, DayEpoch);
  }

  /**
   * `date_end > today - timedelta(days=BUFFER_DAYS)`: a window whose
   * exclusive end lies after the cut-off date is partial.
   */
  predicate IsPartial(windowEnd: Date, today: Date)
    requires CutoffDefined(today)
  {
    Less(Cutoff(today), windowEnd)
  }

  /** A window is partial exactly when its end is later than `BufferDays` days before today. */
  lemma PartialByDays(windowEnd: Date, today: Date)
    requires CutoffDefined(today) && Valid(windowEnd)
    ensures IsPartial(windowEnd, today) <==> Ordinal(windowEnd) > Ordinal(today) - BufferDays
  {
    OrdinalOrder(Cutoff(today), windowEnd);
  }

  /** The month number of the first partial window: the month the cut-off date lies in. */
  function FirstPartialMonth(today: Date): int
    requires CutoffDefined(today)
  {
    MonthNumber(Cutoff(today))
  }

  /**
   * Month window `m` is partial exactly when it is not before the cut-off's
   * month: the windows from `FirstPartialMonth(today)` on are partial, the
   * ones before it final.
   */
  lemma PartialMonths(m: int, today: Date)
    requires CutoffDefined(today) && MonthInRange(m) && MonthInRange(m + 1)
    ensures IsPartial(MonthStart(m + 1), today) <==> m >= FirstPartialMonth(today)
  {
    var c, e := Cutoff(today), MonthStart(m + 1);
    assert MonthNumber(e) == m + 1 && e.day == 1;
  }

  /** When today is past its 5th day the cut-off lies `BufferDays` days earlier in the same month. */
  lemma CutoffSameMonth(today: Date)
    requires CutoffDefined(today) && today.day > BufferDays
    ensures Cutoff(today) == Date(today.year, today.month, today.day - BufferDays)
  {
    OrdinalOrder(Cutoff(today), Date(today.year, today.month, today.day - BufferDays));
  }

  /** When today is one of its month's first 5 days the cut-off lies in the month before. */
  lemma CutoffPrevMonth(today: Date)
    requires CutoffDefined(today) && today.day <= BufferDays
    ensures MonthNumber(Cutoff(today)) == MonthNumber(today) - 1
  {
    var c := Cutoff(today);
    var p := MonthNumber(today) - 1;
    PrevMonthStart(today);
    hide Ordinal, Cutoff, MonthStart;
    OrdinalOrder(c, Date(today.year, today.month, 1));
    OrdinalOrder(c, MonthStart(p));
  }

  /**
   * For a day among its month's first 5, the month before exists, and its
   * 1st lies at least 28 days before, which is before the cut-off.
   */
  lemma PrevMonthStart(today: Date)
    requires CutoffDefined(today) && today.day <= BufferDays
    ensures var p := MonthNumber(today) - 1;
      && MonthInRange(p) && Valid(MonthStart(p)) && MonthStart(p).day == 1 && MonthNumber(MonthStart(p)) == p
      && Ordinal(MonthStart(p)) <= Ordinal(today) - BufferDays < Ordinal(Date(today.year, today.month, 1))
  {
    var p := MonthNumber(today) - 1;
    var first := Date(today.year, today.month, 1);
    OrdinalBounds(today);
    assert MonthInRange(p) by {
      if today.year == MinYear && today.month == 1 {
        OrdinalOrder(today, MinDate);
      }
    }
    assert MonthStart(p + 1) == first;
    MonthWindow(p);
  }

  /**
   * At most the last two windows are partial: the cut-off lies in today's
   * month when today is past its 5th day, otherwise in the month before.
   */
  lemma PartialWindowsAreRecent(today: Date)
    requires CutoffDefined(today)
    ensures MonthNumber(today) - 1 <= FirstPartialMonth(today) <= MonthNumber(today)
    ensures FirstPartialMonth(today) == MonthNumber(today) <==> today.day > BufferDays
  {
    hide Ordinal, Cutoff;
    if today.day > BufferDays {
      CutoffSameMonth(today);
    } else {
      CutoffPrevMonth(today);
    }
  }

  /** Once a window is final it stays final on every later day. */
  lemma FinalStaysFinal(windowEnd: Date, today: Date, later: Date)
    requires CutoffDefined(today) && Valid(windowEnd) && Valid(later) && !Less(later, today)
    requires !IsPartial(windowEnd, today)
    ensures CutoffDefined(later) && !IsPartial(windowEnd, later)
  {
    OrdinalOrder(later, today);
    PartialByDays(windowEnd, today);
    PartialByDays(windowEnd, later);
  }

  /** With today 2024-06-10 the June 2024 window is partial and the May 2024 window final. */
  lemma PartialBoundaryExample()
    ensures var today := Date(2024, 6, 10);
      && CutoffDefined(today) && Cutoff(today) == Date(2024, 6, 5)
      && IsPartial(MonthStart(2024 * 12 + 6), today)
      && !IsPartial(MonthStart(2024 * 12 + 5), today)
  {
    var today := Date(2024, 6, 10);
    CutoffDefinedFromEpoch(today);
    var c := Cutoff(today);
    OrdinalOrder(c, Date(2024, 6, 5));
  }

  // ----- day windows -----

  /** One value yielded by `day_filenames`: a day and the path of its file. */
  datatype Entry = Entry(date: Date, path: Path)

  /** `day_filenames` reaches its stop date: the cut-off is not before 2015-01-01. */
  predicate DaysTerminate(today: Date) {
    Valid(today) && Ordinal(today) - BufferDays >= Ordinal(DayEpoch)
  }

  lemma DaysTerminateCutoff(today: Date)
    requires DaysTerminate(today)
    ensures CutoffDefined(today)
  {
    OrdinalOrder(MinDate, DayEpoch);
  }

  /** How many days are yielded: those from 2015-01-01 up to, not including, the cut-off. */
  function DayCount(today: Date): nat
    requires DaysTerminate(today)
  {
    Ordinal(today) - BufferDays - Ordinal(DayEpoch)
  }

  /** `start + timedelta(days=i)`. */
  function DayAt(i: nat): (d: Date)
    requires Ordinal(DayEpoch) + i <= Ordinal(MaxDate)
    ensures Valid(d) && Ordinal(d) == Ordinal(DayEpoch) + i
  {
    AddDays(DayEpoch, i)
  }

  /** What `day_filenames(name)` yields, in order. */
  function DayWindows(ex: Export, name: string, today: Date): seq<Entry>
    requires HasUser(ex) && DaysTerminate(today)
  {
    OrdinalBounds(today);
    seq(DayCount(today), i requires 0 <= i < DayCount(today) => Entry(DayAt(i), DayPath(ex, name, DayAt(i))))
  }

  /**
   * `day_filenames` as the generator runs it: a day cursor from 0, the date
   * `start + days`, stop (without yielding) once that date equals the
   * cut-off; otherwise yield the date and its file name.
   */
  method DayFilenames(ex: Export, name: string, today: Date) returns (entries: seq<Entry>)
    requires HasUser(ex) && DaysTerminate(today)
    ensures entries == DayWindows(ex, name, today)
  {
    DaysTerminateCutoff(today);
    DayAtCutoff(today, 0);
    hide Ordinal, Valid, DayPath, AddDays, DayAt, Cutoff, DayWindows;
    var cutoff := Cutoff(today);
    var days: nat := 0;
    entries := [];
    while true
      invariant days == |entries| <= DayCount(today)
      invariant forall i :: 0 <= i < days ==> entries[i] == Entry(DayAt(i), DayPath(ex, name, DayAt(i)))
      decreases DayCount(today) - days
    {
      DayAtCutoff(today, days);
      var d := DayAt(days);
      days := days + 1;
      if d == cutoff {
        DayWindowsFrom(ex, name, today, entries);
        return;
      }
      entries := entries + [Entry(d, DayPath(ex, name, d))];
    }
  }

  /** A sequence holding the enumeration's entries, one by one, is the enumeration. */
  lemma DayWindowsFrom(ex: Export, name: string, today: Date, entries: seq<Entry>)
    requires HasUser(ex) && DaysTerminate(today) && |entries| == DayCount(today)
    requires Ordinal(DayEpoch) + DayCount(today) <= Ordinal(MaxDate)
    requires forall i :: 0 <= i < |entries| ==> entries[i] == Entry(DayAt(i), DayPath(ex, name, DayAt(i)))
    ensures entries == DayWindows(ex, name, today)
  {
  }

  /** The generator's `days`-th date is defined, and equals the cut-off exactly after the last yielded day. */
  lemma DayAtCutoff(today: Date, i: nat)
    requires DaysTerminate(today) && i <= DayCount(today)
    ensures CutoffDefined(today) && Ordinal(DayEpoch) + DayCount(today) <= Ordinal(MaxDate)
    ensures DayAt(i) == Cutoff(today) <==> i == DayCount(today)
  {
    DaysTerminateCutoff(today);
    OrdinalBounds(today);
    OrdinalOrder(DayAt(i), Cutoff(today));
  }

  /** Element `i` of the enumeration: the `i`-th day after 2015-01-01 and its day path. */
  lemma DayWindowAt(ex: Export, name: string, today: Date, i: nat)
    requires HasUser(ex) && DaysTerminate(today) && i < DayCount(today)
    ensures Ordinal(DayEpoch) + i < Ordinal(Cutoff(today)) <= Ordinal(MaxDate)
    ensures var w := DayWindows(ex, name, today);
      && |w| == DayCount(today)
      && Valid(DayAt(i)) && Ordinal(DayAt(i)) == Ordinal(DayEpoch) + i
      && w[i] == Entry(DayAt(i), DayPath(ex, name, DayAt(i)))
  {
    OrdinalBounds(today);
  }

  /**
   * The enumeration's promise: consecutive days starting at 2015-01-01,
   * every one before the cut-off, the last one the day just before it, and
   * each with its own day path.
   */
  lemma DayWindowsOrder(ex: Export, name: string, today: Date)
    requires HasUser(ex) && DaysTerminate(today)
    ensures var w := DayWindows(ex, name, today);
      && |w| == Ordinal(Cutoff(today)) - Ordinal(DayEpoch)
      && (|w| > 0 ==> w[0].date == DayEpoch)
      && (forall i :: 0 <= i < |w| ==>
            Valid(w[i].date) && Less(w[i].date, Cutoff(today)) && w[i].path == DayPath(ex, name, w[i].date))
      && (forall i :: 0 <= i < |w| - 1 ==> w[i].date != MaxDate && w[i + 1].date == NextDay(w[i].date))
      && (|w| > 0 ==> w[|w| - 1].date != MaxDate && NextDay(w[|w| - 1].date) == Cutoff(today))
  {
    var w := DayWindows(ex, name, today);
    var c := Cutoff(today);
    assert |w| == DayCount(today);
    forall i | 0 <= i < |w|
      ensures Valid(w[i].date) && Less(w[i].date, c) && w[i].path == DayPath(ex, name, w[i].date)
    {
      DayWindowAt(ex, name, today, i);
      OrdinalOrder(w[i].date, c);
    }
    forall i | 0 <= i < |w| - 1
      ensures w[i].date != MaxDate && w[i + 1].date == NextDay(w[i].date)
    {
      DayWindowAt(ex, name, today, i);
      DayWindowAt(ex, name, today, i + 1);
      OrdinalBounds(w[i].date);
      OrdinalOrder(w[i + 1].date, NextDay(w[i].date));
    }
    if |w| > 0 {
      DayWindowAt(ex, name, today, 0);
      DayWindowAt(ex, name, today, |w| - 1);
      var last := w[|w| - 1].date;
      OrdinalBounds(last);
      OrdinalOrder(NextDay(last), c);
    }
  }

  /** No two entries share a day or a path. */
  predicate Distinct(es: seq<Entry>) {
    forall k, k' :: 0 <= k < k' < |es| ==> es[k].date != es[k'].date && es[k].path != es[k'].path
  }

  /** Different yielded days have different dates and different file paths. */
  lemma DayWindowsDistinct(ex: Export, name: string, today: Date)
    requires HasUser(ex) && DaysTerminate(today)
    ensures Distinct(DayWindows(ex, name, today))
  {
    var w := DayWindows(ex, name, today);
    forall i, j | 0 <= i < j < |w|
      ensures w[i].date != w[j].date && w[i].path != w[j].path
    {
      DayWindowAt(ex, name, today, i);
      DayWindowAt(ex, name, today, j);
      OrdinalOrder(w[i].date, w[j].date);
    }
  }

  /**
   * Without `DaysTerminate` the generator's stop test `d == cut-off` never
   * fires: every date it forms lies after the cut-off.
   */
  lemma DayStopNeverReached(today: Date, i: nat)
    requires CutoffDefined(today) && !DaysTerminate(today)
    requires Ordinal(DayEpoch) + i <= Ordinal(MaxDate)
    ensures DayAt(i) != Cutoff(today) && Less(Cutoff(today), DayAt(i))
  {
    OrdinalOrder(Cutoff(today), DayAt(i));
  }

  /** With today 2024-06-10 the last day enumerated is 2024-06-04. */
  lemma DayBoundaryExample(ex: Export, name: string, today: Date)
    requires HasUser(ex) && today == Date(2024, 6, 10)
    ensures DaysTerminate(today) && DayCount(today) > 0
    ensures DayWindows(ex, name, today)[DayCount(today) - 1].date == Date(2024, 6, 4)
  {
    OrdinalOrder(DayEpoch, Date(2024, 6, 5));
    var k := DayCount(today) - 1;
    DayWindowAt(ex, name, today, k);
    OrdinalOrder(DayAt(k), Date(2024, 6, 4));
  }
}
