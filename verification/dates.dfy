/**
 * Calendar dates as Python's `datetime.date` sees them: proleptic Gregorian
 * (year, month, day) triples between 0001-01-01 and 9999-12-31, compared
 * lexicographically, with `timedelta(days = n)` arithmetic carried out on the
 * day ordinal (`date.toordinal`, where 0001-01-01 is day 1).
 */
module Dates {

  const MinYear := 1
  const MaxYear := 9999

  datatype Date = Date(year: int, month: int, day: int)

  predicate IsLeap(y: int) {
    y % 4 == 0 && (y % 100 != 0 || y % 400 == 0)
  }

  function DaysInYear(y: int): int {
    if IsLeap(y) then 366 else 365
  }

  function DaysInMonth(y: int, m: int): (n: int)
    requires 1 <= m <= 12
    ensures 28 <= n <= 31
    ensures n == 29 <==> m == 2 && IsLeap(y)
  {
    if m == 2 then (if IsLeap(y) then 29 else 28)
    else if m == 4 || m == 6 || m == 9 || m == 11 then 30
    else 31
  }

  /** What the `date` constructor accepts. */
  predicate Valid(d: Date) {
    MinYear <= d.year <= MaxYear && 1 <= d.month <= 12 && 1 <= d.day <= DaysInMonth(d.year, d.month)
  }

  const MinDate := Date(MinYear, 1, 1)
  const MaxDate := Date(MaxYear, 12, 31)

  /** `a < b` on dates: lexicographic on (year, month, day). */
  predicate Less(a: Date, b: Date) {
    a.year < b.year
    || (a.year == b.year && a.month < b.month)
    || (a.year == b.year && a.month == b.month && a.day < b.day)
  }

  /** Days in the years before `y`, the leap-year count written in closed form. */
  function DaysBeforeYear(y: int): int
    requires y >= 1
  {
    var x := y - 1;
    x * 365 + x / 4 - x / 100 + x / 400
  }

  /** Days in the months of year `y` before month `m`. */
  function DaysBeforeMonth(y: int, m: int): int
    requires 1 <= m <= 12
  {
    var before :=
      if m == 1 then 0 else if m == 2 then 31 else if m == 3 then 59
      else if m == 4 then 90 else if m == 5 then 120 else if m == 6 then 151
      else if m == 7 then 181 else if m == 8 then 212 else if m == 9 then 243
      else if m == 10 then 273 else if m == 11 then 304 else 334;
    if m > 2 && IsLeap(y) then before + 1 else before
  }

  /** `date.toordinal()`. */
  function Ordinal(d: Date): int
    requires Valid(d)
  {
    DaysBeforeYear(d.year) + DaysBeforeMonth(d.year, d.month) + d.day
  }

  lemma MonthStep(y: int, m: int)
    requires 1 <= m <= 12
    ensures m < 12 ==> DaysBeforeMonth(y, m + 1) == DaysBeforeMonth(y, m) + DaysInMonth(y, m)
    ensures m == 12 ==> DaysBeforeMonth(y, m) + DaysInMonth(y, m) == DaysInYear(y)
  {
  }

  lemma YearStep(y: int)
    requires y >= 1
    ensures DaysBeforeYear(y + 1) == DaysBeforeYear(y) + DaysInYear(y)
  {
    var x := y - 1;
    DivStep4(x);
    DivStep100(x);
    DivStep400(x);
  }

  /** Counting multiples of 4, 100 and 400: one more up to `x + 1` exactly when `x + 1` is one. */
  lemma DivStep4(x: int)
    ensures (x + 1) / 4 == x / 4 + (if (x + 1) % 4 == 0 then 1 else 0)
  {
  }

  lemma DivStep100(x: int)
    ensures (x + 1) / 100 == x / 100 + (if (x + 1) % 100 == 0 then 1 else 0)
  {
  }

  lemma DivStep400(x: int)
    ensures (x + 1) / 400 == x / 400 + (if (x + 1) % 400 == 0 then 1 else 0)
  {
  }

  lemma {:induction false} YearsMonotone(y1: int, y2: int)
    requires 1 <= y1 < y2
    ensures DaysBeforeYear(y1) + DaysInYear(y1) <= DaysBeforeYear(y2)
    decreases y2 - y1
  {
    YearStep(y1);
    if y1 + 1 < y2 {
      YearsMonotone(y1 + 1, y2);
    }
  }

  lemma MonthsMonotone(y: int, m1: int, m2: int)
    requires 1 <= m1 < m2 <= 12
    ensures DaysBeforeMonth(y, m1) + DaysInMonth(y, m1) <= DaysBeforeMonth(y, m2)
  {
  }

  /** The ordinal respects the order of dates, so it is also one-to-one. */
  lemma OrdinalOrder(a: Date, b: Date)
    requires Valid(a) && Valid(b)
    ensures Less(a, b) <==> Ordinal(a) < Ordinal(b)
    ensures a == b <==> Ordinal(a) == Ordinal(b)
  {
    if Less(a, b) {
      OrdinalIncreasing(a, b);
    } else if Less(b, a) {
      OrdinalIncreasing(b, a);
    }
  }

  /** A later date has a larger ordinal. */
  lemma OrdinalIncreasing(a: Date, b: Date)
    requires Valid(a) && Valid(b) && Less(a, b)
    ensures Ordinal(a) < Ordinal(b)
  {
    if a.year < b.year {
      MonthStep(a.year, a.month);
      if a.month < 12 {
        MonthsMonotone(a.year, a.month, 12);
        MonthStep(a.year, 12);
      }
      YearsMonotone(a.year, b.year);
    } else if a.month < b.month {
      MonthsMonotone(a.year, a.month, b.month);
    }
  }

  /** `d + timedelta(days=1)`. */
  function NextDay(d: Date): (r: Date)
    requires Valid(d) && d != MaxDate
    ensures Valid(r) && Ordinal(r) == Ordinal(d) + 1
  {
    MonthStep(d.year, d.month);
    if d.day < DaysInMonth(d.year, d.month) then Date(d.year, d.month, d.day + 1)
    else if d.month < 12 then Date(d.year, d.month + 1, 1)
    else (YearStep(d.year); Date(d.year + 1, 1, 1))
  }

  /** `d - timedelta(days=1)`. */
  function PrevDay(d: Date): (r: Date)
    requires Valid(d) && d != MinDate
    ensures Valid(r) && Ordinal(r) + 1 == Ordinal(d)
  {
    if d.day > 1 then Date(d.year, d.month, d.day - 1)
    else if d.month > 1 then (MonthStep(d.year, d.month - 1); Date(d.year, d.month - 1, DaysInMonth(d.year, d.month - 1)))
    else (YearStep(d.year - 1); MonthStep(d.year - 1, 12); Date(d.year - 1, 12, 31))
  }

  lemma OrdinalBounds(d: Date)
    requires Valid(d)
    ensures Ordinal(MinDate) <= Ordinal(d) <= Ordinal(MaxDate)
    ensures d == MinDate <==> Ordinal(d) == Ordinal(MinDate)
    ensures d == MaxDate <==> Ordinal(d) == Ordinal(MaxDate)
  {
    OrdinalOrder(d, MinDate);
    OrdinalOrder(d, MaxDate);
  }

  /** `d + timedelta(days=n)`; outside the date range Python raises OverflowError. */
  function AddDays(d: Date, n: nat): (r: Date)
    requires Valid(d) && Ordinal(d) + n <= Ordinal(MaxDate)
    ensures Valid(r) && Ordinal(r) == Ordinal(d) + n
    decreases n
  {
    if n == 0 then d
    else
      var p := AddDays(d, n - 1);
      OrdinalBounds(p);
      NextDay(p)
  }

  /** The date with ordinal `target`, reached from `d` one day at a time backwards. */
  function BackTo(d: Date, target: int): (r: Date)
    requires Valid(d) && Ordinal(MinDate) <= target <= Ordinal(d)
    ensures Valid(r) && Ordinal(r) == target
    decreases Ordinal(d) - target
  {
    if Ordinal(d) == target then d
    else
      OrdinalBounds(d);
      BackTo(PrevDay(d), target)
  }

  /** `d - timedelta(days=n)`; outside the date range Python raises OverflowError. */
  function SubDays(d: Date, n: nat): (r: Date)
    requires Valid(d) && Ordinal(d) - n >= Ordinal(MinDate)
    ensures Valid(r) && Ordinal(r) == Ordinal(d) - n
  {
    BackTo(d, Ordinal(d) - n)
  }

  /** Subtracting one day is stepping back one day. */
  lemma SubOneDay(d: Date)
    requires Valid(d) && d != MinDate
    ensures Ordinal(d) - 1 >= Ordinal(MinDate) && SubDays(d, 1) == PrevDay(d)
  {
    OrdinalBounds(d);
    OrdinalOrder(SubDays(d, 1), PrevDay(d));
  }
}
