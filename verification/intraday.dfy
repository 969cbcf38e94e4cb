/**
 * `compress`, the helper inside `get_steps_intraday`,
 * `get_distance_intraday` and `get_heartrate_intraday`: turn a day's
 * samples `{"time": "HH:MM:SS", "value": v}` into a list of 24 * 60
 * minute slots, each holding the value of the last sample that falls in
 * it, or nothing.
 */
module Intraday {
  import opened Common
  import opened Formats

  const MinutesPerDay := 24 * 60

  /** One sample of an intraday series. */
  datatype Sample<V> = Sample(time: string, value: V)

  datatype IntradayError =
    | BadTime(time: string)           // ValueError: not three ':'-separated integers
    | MinuteOutOfRange(index: int)    // IndexError: `h * 60 + m` is no index of the list

  /** `s.split(sep)`: the pieces between separators, empty ones included. */
  function Split(s: string, sep: char): (parts: seq<string>)
    ensures |parts| >= 1
    decreases |s|
  {
    if s == [] then [[]]
    else
      var rest := Split(s[1..], sep);
      if s[0] == sep then [[]] + rest
      else [[s[0]] + rest[0]] + rest[1..]
  }

  /** `sep.join(parts)`. */
  function Join(parts: seq<string>, sep: char): string
    requires |parts| >= 1
    decreases |parts|
  {
    if |parts| == 1 then parts[0] else parts[0] + [sep] + Join(parts[1..], sep)
  }

  /** Splitting loses nothing: the pieces hold no separator and join back to the string. */
  lemma {:induction false} SplitJoin(s: string, sep: char)
    ensures var parts := Split(s, sep);
      Join(parts, sep) == s && forall i :: 0 <= i < |parts| ==> sep !in parts[i]
    decreases |s|
  {
    if s != [] {
      var rest := Split(s[1..], sep);
      SplitJoin(s[1..], sep);
      if s[0] == sep {
        assert Split(s, sep)[1..] == rest;
      } else {
        var parts := Split(s, sep);
        if |rest| == 1 {
          assert parts == [[s[0]] + rest[0]];
        } else {
          assert parts[1..] == rest[1..];
          assert Join(rest, sep) == rest[0] + [sep] + Join(rest[1..], sep);
        }
        assert s == [s[0]] + s[1..];
      }
    }
  }

  lemma {:induction false} SplitNoSep(a: string, sep: char)
    requires sep !in a
    ensures Split(a, sep) == [a]
    decreases |a|
  {
    if a != [] {
      SplitNoSep(a[1..], sep);
      assert [a[0]] + a[1..] == a;
    }
  }

  lemma {:induction false} SplitFirst(a: string, b: string, sep: char)
    requires sep !in a
    ensures Split(a + [sep] + b, sep) == [a] + Split(b, sep)
    decreases |a|
  {
    var s := a + [sep] + b;
    if a == [] {
      assert s[1..] == b;
    } else {
      assert s[1..] == a[1..] + [sep] + b;
      SplitFirst(a[1..], b, sep);
      assert [a[0]] + a[1..] == a;
    }
  }

  predicate AllDigits(s: string) {
    forall i :: 0 <= i < |s| ==> IsDigit(s[i])
  }

  /** `int(s)` on an optionally signed run of decimal digits; anything else raises ValueError. */
  function ParseInt(s: string): Option<int> {
    if |s| >= 2 && s[0] == '-' && AllDigits(s[1..]) then Some(-(Value(s[1..]) as int))
    else if |s| >= 2 && s[0] == '+' && AllDigits(s[1..]) then Some(Value(s[1..]))
    else if |s| >= 1 && AllDigits(s) then Some(Value(s))
    else None
  }

  /** `h, m, s = map(int, t.split(':'))`. */
  function TimeFields(t: string): Option<(int, int, int)> {
    var parts := Split(t, ':');
    if |parts| != 3 then None
    else
      match (ParseInt(parts[0]), ParseInt(parts[1]), ParseInt(parts[2]))
      case (Some(h), Some(m), Some(s)) => Some((h, m, s))
      case _ => None
  }

  /**
   * The slot `minutes[h * 60 + m] = ...` writes: the index itself, or
   * counted from the end for a negative index as Python lists do;
   * IndexError outside the list.
   */
  function SlotOf(t: string): (r: Result<int, IntradayError>)
    ensures r.Success? ==> 0 <= r.value < MinutesPerDay
  {
    match TimeFields(t)
    case None => Failure(BadTime(t))
    case Some((h, m, _)) =>
      var i := h * 60 + m;
      if i < -MinutesPerDay || i >= MinutesPerDay then Failure(MinuteOutOfRange(i))
      else Success(if i < 0 then i + MinutesPerDay else i)
  }

  /** The error of the first sample whose time is rejected, if any. */
  function FirstError<V>(data: seq<Sample<V>>): Option<IntradayError>
    decreases |data|
  {
    if data == [] then None
    else
      var before := FirstError(data[..|data| - 1]);
      var last := SlotOf(data[|data| - 1].time);
      if before.Some? then before else if last.Failure? then Some(last.error) else None
  }

  /** The value of the last sample that falls in `slot`, if any. */
  function LastAt<V>(data: seq<Sample<V>>, slot: int): Option<V>
    decreases |data|
  {
    if data == [] then None
    else if SlotOf(data[|data| - 1].time) == Success(slot) then Some(data[|data| - 1].value)
    else LastAt(data[..|data| - 1], slot)
  }

  /**
   * `compress(data)`: a list of `MinutesPerDay` slots, each holding the
   * value of the last sample in it or nothing; the first sample whose time
   * is rejected raises its error.
   */
  method Compress<V>(data: seq<Sample<V>>) returns (r: Result<seq<Option<V>>, IntradayError>)
    ensures FirstError(data).Some? ==> r == Failure(FirstError(data).value)
    ensures FirstError(data).None? ==>
      && r.Success? && |r.value| == MinutesPerDay
      && forall slot :: 0 <= slot < MinutesPerDay ==> r.value[slot] == LastAt(data, slot)
  {
    var minutes := new Option<V>[MinutesPerDay](_ => None);
    for n := 0 to |data|
      invariant FirstError(data[..n]).None?
      invariant forall slot :: 0 <= slot < MinutesPerDay ==> minutes[slot] == LastAt(data[..n], slot)
    {
      assert data[..n + 1][..n] == data[..n];
      var o := data[n];
      var fields := TimeFields(o.time);
      if fields.None? {
        FirstErrorPrefix(data, n + 1);
        return Failure(BadTime(o.time));
      }
      var (h, m, _) := fields.value;
      var i := h * 60 + m;
      if i < -MinutesPerDay || i >= MinutesPerDay {
        FirstErrorPrefix(data, n + 1);
        return Failure(MinuteOutOfRange(i));
      }
      minutes[if i < 0 then i + MinutesPerDay else i] := Some(o.value);
    }
    assert data[..|data|] == data;
    return Success(minutes[..]);
  }

  /** An error in a prefix is the error of the whole. */
  lemma {:induction false} FirstErrorPrefix<V>(data: seq<Sample<V>>, n: nat)
    requires n <= |data| && FirstError(data[..n]).Some?
    ensures FirstError(data) == FirstError(data[..n])
    decreases |data| - n
  {
    if n < |data| {
      var d := data[..n + 1];
      assert d[..n] == data[..n];
      FirstErrorPrefix(data, n + 1);
    } else {
      assert data[..n] == data;
    }
  }

  /**
   * Last write wins: a slot is empty exactly when no sample falls in it,
   * and otherwise holds the value of the last sample that does.
   */
  lemma {:induction false} LastAtMeans<V>(data: seq<Sample<V>>, slot: int)
    ensures LastAt(data, slot).None? <==> forall k :: 0 <= k < |data| ==> SlotOf(data[k].time) != Success(slot)
    ensures forall k ::
      (0 <= k < |data| && SlotOf(data[k].time) == Success(slot) && forall k' :: k < k' < |data| ==> SlotOf(data[k'].time) != Success(slot))
      ==> LastAt(data, slot) == Some(data[k].value)
    decreases |data|
  {
    hide SlotOf;
    if data != [] {
      var init := data[..|data| - 1];
      LastAtMeans(init, slot);
      assert forall k :: 0 <= k < |init| ==> init[k] == data[k];
    }
  }

  /**
   * The error reported is that of the first rejected sample, and there is
   * none exactly when every sample's time is accepted.
   */
  lemma {:induction false} FirstErrorMeans<V>(data: seq<Sample<V>>)
    ensures FirstError(data).None? <==> forall k :: 0 <= k < |data| ==> SlotOf(data[k].time).Success?
    ensures forall k ::
      (0 <= k < |data| && SlotOf(data[k].time).Failure? && forall k' :: 0 <= k' < k ==> SlotOf(data[k'].time).Success?)
      ==> FirstError(data) == Some(SlotOf(data[k].time).error)
    decreases |data|
  {
    hide SlotOf;
    if data != [] {
      var init := data[..|data| - 1];
      FirstErrorMeans(init);
      assert forall k :: 0 <= k < |init| ==> init[k] == data[k];
    }
  }

  /** A zero-padded field reads back as its number. */
  lemma ParsePadded(n: nat, width: nat)
    ensures ':' !in Pad(n, width) && ParseInt(Pad(n, width)) == Some(n)
  {
    var p := Pad(n, width);
    PadRoundTrip(n, width);
    assert |Digits(n)| >= 1;
    assert IsDigit(p[0]);
  }

  /**
   * A time written `'{:02d}:{:02d}:{:02d}'` reads back as its hour, minute
   * and second, and lands in slot `h * 60 + m`, or raises IndexError when
   * that is past the end of the day.
   */
  lemma PaddedTime(h: nat, m: nat, s: nat)
    ensures var t := Pad(h, 2) + ":" + Pad(m, 2) + ":" + Pad(s, 2);
      && TimeFields(t) == Some((h, m, s))
      && SlotOf(t) == if h * 60 + m < MinutesPerDay then Success(h * 60 + m) else Failure(MinuteOutOfRange(h * 60 + m))
  {
    hide Pad, Value;
    var a, b, c := Pad(h, 2), Pad(m, 2), Pad(s, 2);
    ParsePadded(h, 2);
    ParsePadded(m, 2);
    ParsePadded(s, 2);
    assert a + ":" + b + ":" + c == a + [':'] + (b + [':'] + c);
    SplitFirst(a, b + [':'] + c, ':');
    SplitFirst(b, c, ':');
    SplitNoSep(c, ':');
  }

  /** The two-digit spellings of the hours and minutes below 100. */
  lemma TwoDigits(n: nat)
    requires n < 100
    ensures Pad(n, 2) == [DigitChar(n / 10), DigitChar(n % 10)]
  {
    if n >= 10 {
      assert Digits(n / 10) == [DigitChar(n / 10)];
    }
  }

  /** The sample times of `CompressExample`, written out. */
  lemma ExampleTimes()
    ensures "00:00:00" == Pad(0, 2) + ":" + Pad(0, 2) + ":" + Pad(0, 2)
    ensures "00:00:30" == Pad(0, 2) + ":" + Pad(0, 2) + ":" + Pad(30, 2)
    ensures "23:59:59" == Pad(23, 2) + ":" + Pad(59, 2) + ":" + Pad(59, 2)
  {
    TwoDigits(0);
    TwoDigits(30);
    TwoDigits(23);
    TwoDigits(59);
  }

  /** The slots of the sample times of `CompressExample`. */
  lemma ExampleSlots()
    ensures SlotOf("00:00:00") == Success(0) && SlotOf("00:00:30") == Success(0)
    ensures SlotOf("23:59:59") == Success(MinutesPerDay - 1)
  {
    hide SlotOf, Pad, TimeFields, Split;
    ExampleTimes();
    PaddedTime(0, 0, 0);
    PaddedTime(0, 0, 30);
    PaddedTime(23, 59, 59);
  }

  /**
   * Three samples, two in the first minute and one in the last: the first
   * slot holds the later of the two, the last slot the third, and the
   * second slot nothing.
   */
  lemma CompressExample()
    ensures var data := [Sample("00:00:00", 60), Sample("00:00:30", 62), Sample("23:59:59", 75)];
      && FirstError(data).None?
      && LastAt(data, 0) == Some(62) && LastAt(data, 1) == None && LastAt(data, MinutesPerDay - 1) == Some(75)
  {
    hide SlotOf, Pad, TimeFields, Split;
    var data := [Sample("00:00:00", 60), Sample("00:00:30", 62), Sample("23:59:59", 75)];
    ExampleSlots();
    assert data[..2] == [data[0], data[1]] && data[..2][..1] == [data[0]] && [data[0]][..0] == [];
    assert FirstError([data[0]]).None?;
    assert FirstError(data[..2]).None?;
    assert LastAt([data[0]], 1).None?;
    assert LastAt(data[..2], 1).None?;
  }
}
