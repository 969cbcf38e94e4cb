/**
 * The intraday readers `get_steps_intraday`, `get_distance_intraday` and
 * `get_heartrate_intraday`: for each day `day_filenames` yields whose file
 * exists and holds a non-empty list of samples, one record of the day's
 * ISO date and its compressed minutes, in day order.
 */
module Reports {
  import opened Common
  import opened Dates
  import opened Formats
  import opened Paths
  import opened Windows
  import opened Intraday

  /** `{'date': d.isoformat(), 'minutes': compress(data)}`. */
  datatype DayMinutes<V> = DayMinutes(date: string, minutes: seq<Option<V>>)

  /** `d.isoformat()`: `YYYY-MM-DD`. */
  function IsoFormat(d: Date): (s: string)
    requires Valid(d)
    ensures |s| == 10 && s[4] == '-' && s[7] == '-'
    ensures AllDigits(s[..4]) && AllDigits(s[5..7]) && AllDigits(s[8..])
    ensures Value(s[..4]) == d.year && Value(s[5..7]) == d.month && Value(s[8..]) == d.day
  {
    DateFieldsPadded(d);
    var s := Pad(d.year, 4) + "-" + Pad(d.month, 2) + "-" + Pad(d.day, 2);
    assert s[..4] == Pad(d.year, 4) && s[5..7] == Pad(d.month, 2) && s[8..] == Pad(d.day, 2);
    s
  }

  /** What `compress(data)` returns, slot by slot. */
  function Compressed<V>(data: seq<Sample<V>>): Result<seq<Option<V>>, IntradayError> {
    if FirstError(data).Some? then Failure(FirstError(data).value)
    else Success(seq(MinutesPerDay, slot => LastAt(data, slot)))
  }

  /** `Compress` computes `Compressed`. */
  lemma CompressComputes<V>(data: seq<Sample<V>>, r: Result<seq<Option<V>>, IntradayError>)
    requires FirstError(data).Some? ==> r == Failure(FirstError(data).value)
    requires FirstError(data).None? ==>
      && r.Success? && |r.value| == MinutesPerDay
      && forall slot :: 0 <= slot < MinutesPerDay ==> r.value[slot] == LastAt(data, slot)
    ensures r == Compressed(data)
  {
    if FirstError(data).None? {
      assert r.value == seq(MinutesPerDay, slot => LastAt(data, slot));
    }
  }

  /** Entry `k` is read: its file exists and decodes to a non-empty list. */
  predicate Readable<V>(es: seq<Entry>, store: Store, decode: Doc -> seq<Sample<V>>, k: nat)
    requires k < |es|
  {
    es[k].path in store && |decode(store[es[k].path])| > 0
  }

  /** The readers' loop from entry `i` on: skip unreadable days, compress the others, stop at the first error. */
  function ReadDays<V>(es: seq<Entry>, store: Store, decode: Doc -> seq<Sample<V>>, i: nat): Result<seq<DayMinutes<V>>, IntradayError>
    requires i <= |es| && forall k :: 0 <= k < |es| ==> Valid(es[k].date)
    decreases |es| - i
  {
    if i == |es| then Success([])
    else if !Readable(es, store, decode, i) then ReadDays(es, store, decode, i + 1)
    else
      match Compressed(decode(store[es[i].path]))
      case Failure(e) => Failure(e)
      case Success(minutes) =>
        match ReadDays(es, store, decode, i + 1)
        case Failure(e) => Failure(e)
        case Success(rest) => Success([DayMinutes(IsoFormat(es[i].date), minutes)] + rest)
  }

  /** Records already gathered, in front of what the rest of the loop yields. */
  function Prepend<V>(done: seq<DayMinutes<V>>, r: Result<seq<DayMinutes<V>>, IntradayError>): Result<seq<DayMinutes<V>>, IntradayError> {
    match r
    case Failure(e) => Failure(e)
    case Success(rest) => Success(done + rest)
  }

  /** The loop from entry `i`, after the records `done`, is one step followed by the loop from entry `i + 1`. */
  lemma ReadDaysStep<V>(es: seq<Entry>, store: Store, decode: Doc -> seq<Sample<V>>, i: nat, done: seq<DayMinutes<V>>)
    requires i < |es| && forall k :: 0 <= k < |es| ==> Valid(es[k].date)
    ensures !Readable(es, store, decode, i) ==>
      Prepend(done, ReadDays(es, store, decode, i)) == Prepend(done, ReadDays(es, store, decode, i + 1))
    ensures Readable(es, store, decode, i) ==>
      var c := Compressed(decode(store[es[i].path]));
      && (c.Failure? ==> Prepend(done, ReadDays(es, store, decode, i)) == Failure(c.error))
      && (c.Success? ==>
            Prepend(done, ReadDays(es, store, decode, i))
            == Prepend(done + [DayMinutes(IsoFormat(es[i].date), c.value)], ReadDays(es, store, decode, i + 1)))
  {
    if Readable(es, store, decode, i) {
      var c := Compressed(decode(store[es[i].path]));
      var rest := ReadDays(es, store, decode, i + 1);
      if c.Success? && rest.Success? {
        AppendAssoc(done, [DayMinutes(IsoFormat(es[i].date), c.value)], rest.value);
      }
    }
  }

  /**
   * The readers' loop over the yielded entries: skip a day whose file is
   * missing or empty, otherwise append its date and its compressed
   * minutes; a bad sample time raises. `decode` stands for `json.load` of
   * the stored document.
   */
  method ReadEntries<V>(es: seq<Entry>, store: Store, decode: Doc -> seq<Sample<V>>)
    returns (r: Result<seq<DayMinutes<V>>, IntradayError>)
    requires forall k :: 0 <= k < |es| ==> Valid(es[k].date)
    ensures r == ReadDays(es, store, decode, 0)
  {
    hide ReadDays, Compressed, IsoFormat;
    var days: seq<DayMinutes<V>> := [];
    PrependNothing(ReadDays(es, store, decode, 0));
    for i := 0 to |es|
      invariant ReadDays(es, store, decode, 0) == Prepend(days, ReadDays(es, store, decode, i))
    {
      var d, filename := es[i].date, es[i].path;
      ReadDaysStep(es, store, decode, i, days);
      if filename !in store {
        continue;
      }
      var data := decode(store[filename]);
      if |data| == 0 {
        continue;
      }
      var minutes := Compress(data);
      CompressComputes(data, minutes);
      if minutes.Failure? {
        return Failure(minutes.error);
      }
      days := days + [DayMinutes(IsoFormat(d), minutes.value)];
    }
    ReadDaysEnd(es, store, decode);
    assert days + [] == days;
    return Success(days);
  }

  /** `get_<name>()` for an intraday category: the readers' loop over what `day_filenames(name)` yields. */
  method GetIntraday<V>(ex: Export, name: string, today: Date, store: Store, decode: Doc -> seq<Sample<V>>)
    returns (r: Result<seq<DayMinutes<V>>, IntradayError>)
    requires HasUser(ex) && DaysTerminate(today)
    ensures DayWindowsValid(ex, name, today) && r == ReadDays(DayWindows(ex, name, today), store, decode, 0)
  {
    DayWindowsAreValid(ex, name, today);
    var es := DayFilenames(ex, name, today);
    r := ReadEntries(es, store, decode);
  }

  lemma PrependNothing<V>(r: Result<seq<DayMinutes<V>>, IntradayError>)
    ensures Prepend([], r) == r
  {
    if r.Success? {
      assert [] + r.value == r.value;
    }
  }

  lemma ReadDaysEnd<V>(es: seq<Entry>, store: Store, decode: Doc -> seq<Sample<V>>)
    requires forall k :: 0 <= k < |es| ==> Valid(es[k].date)
    ensures ReadDays(es, store, decode, |es|) == Success([])
  {
  }

  /** Every day the enumeration yields is a real date. */
  predicate DayWindowsValid(ex: Export, name: string, today: Date)
    requires HasUser(ex) && DaysTerminate(today)
  {
    var es := DayWindows(ex, name, today);
    forall k :: 0 <= k < |es| ==> Valid(es[k].date)
  }

  lemma DayWindowsAreValid(ex: Export, name: string, today: Date)
    requires HasUser(ex) && DaysTerminate(today)
    ensures DayWindowsValid(ex, name, today)
  {
    DayWindowsOrder(ex, name, today);
  }

  /** The entries from `i` on whose file exists and is not empty, in order. */
  function ReadableEntries<V>(es: seq<Entry>, store: Store, decode: Doc -> seq<Sample<V>>, i: nat): (rs: seq<Entry>)
    requires i <= |es| && forall k :: 0 <= k < |es| ==> Valid(es[k].date)
    ensures forall n :: 0 <= n < |rs| ==> Valid(rs[n].date) && rs[n].path in store && |decode(store[rs[n].path])| > 0
    decreases |es| - i
  {
    if i == |es| then []
    else (if Readable(es, store, decode, i) then [es[i]] else []) + ReadableEntries(es, store, decode, i + 1)
  }

  /** The readers fail exactly when some readable day holds a rejected sample time. */
  lemma {:induction false} ReadDaysFails<V>(es: seq<Entry>, store: Store, decode: Doc -> seq<Sample<V>>, i: nat)
    requires i <= |es| && forall k :: 0 <= k < |es| ==> Valid(es[k].date)
    ensures ReadDays(es, store, decode, i).Success? <==>
      forall k :: i <= k < |es| && Readable(es, store, decode, k) ==> FirstError(decode(store[es[k].path])).None?
    decreases |es| - i
  {
    hide IsoFormat, LastAt;
    if i < |es| {
      ReadDaysFails(es, store, decode, i + 1);
    }
  }

  /**
   * When they succeed, the readers return one record per readable day, in
   * day order, holding its ISO date and its 1440 slots, each the last
   * sample in it.
   */
  lemma {:induction false} ReadDaysRecords<V>(es: seq<Entry>, store: Store, decode: Doc -> seq<Sample<V>>, i: nat)
    requires i <= |es| && forall k :: 0 <= k < |es| ==> Valid(es[k].date)
    ensures ReadDays(es, store, decode, i).Success? ==>
      var out, rs := ReadDays(es, store, decode, i).value, ReadableEntries(es, store, decode, i);
      && |out| == |rs|
      && forall n :: 0 <= n < |rs| ==> out[n] == DayRecord(rs[n], store, decode)
    decreases |es| - i
  {
    hide IsoFormat, LastAt, FirstError;
    if i < |es| {
      ReadDaysRecords(es, store, decode, i + 1);
      var r, rest := ReadDays(es, store, decode, i), ReadDays(es, store, decode, i + 1);
      var rs, rs' := ReadableEntries(es, store, decode, i), ReadableEntries(es, store, decode, i + 1);
      if Readable(es, store, decode, i) && r.Success? {
        assert rs == [es[i]] + rs';
        assert r.value == [DayRecord(es[i], store, decode)] + rest.value;
        RecordsCons(r.value, rest.value, rs, rs', store, decode);
      }
    }
  }

  /** A record in front of the records of the later days lines up with the day in front of the later days. */
  lemma RecordsCons<V>(out: seq<DayMinutes<V>>, rest: seq<DayMinutes<V>>, rs: seq<Entry>, rs': seq<Entry>,
                       store: Store, decode: Doc -> seq<Sample<V>>)
    requires forall n :: 0 <= n < |rs| ==> Valid(rs[n].date) && rs[n].path in store
    requires |rs| == |rs'| + 1 && rs[1..] == rs'
    requires out == [DayRecord(rs[0], store, decode)] + rest
    requires |rest| == |rs'| && forall n :: 0 <= n < |rs'| ==> rest[n] == DayRecord(rs'[n], store, decode)
    ensures |out| == |rs| && forall n :: 0 <= n < |rs| ==> out[n] == DayRecord(rs[n], store, decode)
  {
    hide DayRecord;
    forall n | 1 <= n < |rs|
      ensures out[n] == rest[n - 1] && rs[n] == rs'[n - 1]
    {
    }
  }

  /** The record the readers emit for a kept day: its ISO date and the last sample written to each minute. */
  function DayRecord<V>(e: Entry, store: Store, decode: Doc -> seq<Sample<V>>): DayMinutes<V>
    requires Valid(e.date) && e.path in store
  {
    DayMinutes(IsoFormat(e.date), seq(MinutesPerDay, slot => LastAt(decode(store[e.path]), slot)))
  }
}
