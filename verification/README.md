# myfitbit export engine, modelled in Dafny

`FitbitExport` (myfitbit/export.py) keeps a local mirror of a Fitbit
account. It stores one JSON document per time window under
`<root>/<user>/<name>/<YYYY>/`. This model covers its sync and cache engine:

- **Ranged sync.** `sync_ranged_data` (reached through `sync_sleep` and `sync_weight`):
  - walks calendar months from January 2015 up to the month of today;
  - classes a month partial when its end lies less than `BUFFER_DAYS` (5) days before today, otherwise final;
  - removes a month's stale `.partial.json` file;
  - re-fetches partial months into their `.partial.json` file;
  - skips final months whose `.json` file exists;
  - fetches missing final months into their `.json` file, asking the client for the month's first and last day, both inclusive.
- **Per-day sync.** `day_filenames` enumerates the days from 2015-01-01 up to the cut-off `today - 5 days`, which it does not yield. The four per-day drivers (`sync_activities`, `sync_heartrate_intraday`, `sync_steps_intraday`, `sync_distance_intraday`) fetch a day only when its file is absent.
- **Paths.** `filename` and the three zero-padded file name templates: final month, partial month and day.
- **Intraday readers.** `compress` turns a day's `HH:MM:SS` samples into 1440 minute slots, where the last write wins. The `get_*_intraday` readers list `{date, minutes}` for every enumerated day whose file exists and is not empty.

## How the model is organised

- **The store.** The file tree is a `map<Path, Doc>`.
  - `os.path.isfile` is key membership, `write` is a map update and `os.remove` is a key removal.
  - A `Path` records the root, the user and the file named; `Render` gives the segments handed to `os.path.join`.
  - `Paths.RenderInjective` proves that two well-formed paths give the same `os.path.join` segments only when they are equal.
  - Keying by `Path` is keying by file name as long as the joined string determines its segments: no user id or category containing `/`, and a user id that is not an absolute path (see "Left out").
- **Today's date** is a parameter. A fetch is a function parameter that returns the document or the error it raises. A raised error ends the loop, and the writes made before it stay.
- **Each driver is a method proved equal to a specification function**: `SyncRangedData` to the recursive `RangedRun`, `SyncDays` to the recursive `DailyRun`, `ReadEntries` to the recursive `ReadDays`, and `DayFilenames` to `DayWindows`, a sequence comprehension over the day index. Lemmas then state what the source promises about those functions. A run also returns the list of fetch calls it made, which makes "no redundant fetch" observable.
- **Dates** are proleptic Gregorian `(year, month, day)` triples, as in Python's `datetime.date`.
  - `Dates.Ordinal` is `toordinal()`; `timedelta` arithmetic and comparisons go through it.
  - `Formats.Pad` is the `{:0Nd}` format.
- **Month windows** are numbered `year * 12 + month - 1`, as the source's `month` counter is. `Windows.StartsAfter` and `Windows.PartialMonths` show that the source's date comparisons equal comparisons of these numbers, and `RangedSync.SyncMonth` performs the date comparisons themselves.

## Model

| member | source | states |
|---|---|---|
| Paths.User | myfitbit/export.py:23 | defines the user segment: the client's `user_id` when a client with a non-empty id is set, otherwise the export's `user_id`; what it guarantees about written files is stated by `RangedProps.RunPathsUnderUser` and `DailyProps.DaySyncPathsUnderUser` |
| Paths.Filename | myfitbit/export.py:22-24 | defines `filename(*parts)`: the segments root, resolved user, then the parts |
| Paths.MonthFileName | myfitbit/export.py:61-73 | defines the month file names `name.YYYY.MM.json` and `name.YYYY.MM.partial.json`; their layout is stated by `Paths.MonthFileLayout` |
| Paths.DayFileName | myfitbit/export.py:109-114 | defines the day file name `name.YYYY.MM.DD.json`; its layout is stated by `Paths.DayFileLayout` |
| Paths.MonthPath | myfitbit/export.py:59-73 | a month path is well formed and lies under the export's root and user |
| Paths.MonthPathRenders | myfitbit/export.py:59-73 | a month path renders as `filename(name, '{:04d}' year, name.YYYY.MM[.partial].json)` |
| Paths.DayPath | myfitbit/export.py:106-114 | a day path is well formed and lies under the export's root and user |
| Paths.DayPathRenders | myfitbit/export.py:106-114 | a day path renders as `filename(name, '{:04d}' year, name.YYYY.MM.DD.json)` |
| Paths.MonthFileLayout | myfitbit/export.py:59-73 | a month file's segments read back: the category, a 4-digit year directory, a file name with the category, the 4-digit year and 2-digit month at fixed places, and `.partial.json` exactly for partial windows |
| Paths.DayFileLayout | myfitbit/export.py:106-114 | a day file's segments read back with a 4-digit year, a 2-digit month and a 2-digit day at fixed places |
| Paths.RenderInjective | myfitbit/export.py:22-24 | two well-formed paths render to the same `os.path.join` segments exactly when they are the same path; so distinct windows get distinct files, and a month file never collides with a day file |
| Formats.Pad | myfitbit/export.py:60 | a `{:0Nd}` field consists of decimal digits only |
| Formats.PadRoundTrip | myfitbit/export.py:60 | a `{:0Nd}` field reads back as its number and has exactly N digits when the number fits |
| Formats.PadInjective | myfitbit/export.py:60 | different numbers give different zero-padded fields |
| Dates.OrdinalOrder | myfitbit/export.py:50 | date comparison `<` and equality agree with comparing day ordinals |
| Dates.AddDays | myfitbit/export.py:99 | `d + timedelta(days=n)` is a valid date n ordinals later |
| Dates.SubDays | myfitbit/export.py:56 | `d - timedelta(days=n)` is a valid date n ordinals earlier |
| Dates.NextDay | myfitbit/export.py:99 | the next day is a valid date one ordinal later |
| Dates.PrevDay | myfitbit/export.py:87 | the day before is a valid date one ordinal earlier |
| Windows.MonthStart | myfitbit/export.py:47 | `date(m // 12, m % 12 + 1, 1)` is a valid 1st of a month whose month number is m |
| Windows.MonthWindow | myfitbit/export.py:47-49 | window m's inclusive end is the last day of the same calendar month, the day after it starts window m + 1, and the window spans exactly that month's days |
| Windows.LastDay | myfitbit/export.py:85-88 | defines the last day passed to the fetch, `date_end - timedelta(days=1)`; `Windows.MonthWindow` states that it is the last day of the window's month |
| Windows.FirstMonthWindow | myfitbit/export.py:45-47 | the first window is 2015-01-01 to 2015-01-31 |
| Windows.StartsAfter | myfitbit/export.py:50 | a window starts after today exactly when its month number is past today's |
| Windows.Cutoff | myfitbit/export.py:56 | `today - timedelta(days=BUFFER_DAYS)` is a valid date 5 ordinals before today |
| Windows.IsPartial | myfitbit/export.py:56 | defines `partial`: the window's exclusive end is later than the cut-off date; restated on days by `Windows.PartialByDays` and on month numbers by `Windows.PartialMonths` |
| Windows.PartialByDays | myfitbit/export.py:56 | a window is partial exactly when its exclusive end is later than today minus 5 days |
| Windows.PartialMonths | myfitbit/export.py:56 | window m is partial exactly when m is not before the month of the cut-off date |
| Windows.PartialWindowsAreRecent | myfitbit/export.py:56 | only today's month, and the month before it when today is one of the first 5 days, are partial |
| Windows.FinalStaysFinal | myfitbit/export.py:56 | a window final today stays final on every later day |
| Windows.PartialBoundaryExample | myfitbit/export.py:56 | on 2024-06-10 the cut-off is 2024-06-05, June 2024 is partial and May 2024 final |
| Windows.DayAt | myfitbit/export.py:99 | `start + timedelta(days=i)` is a valid date i days after 2015-01-01 |
| Windows.DayFilenames | myfitbit/export.py:96-115 | the generator's loop yields exactly the enumeration `DayWindows` |
| Windows.DayWindowAt | myfitbit/export.py:99-115 | entry i is the i-th day after 2015-01-01, with its day path, and lies before the cut-off |
| Windows.DayWindowsOrder | myfitbit/export.py:96-104 | the days are consecutive from 2015-01-01, each before the cut-off, the last one the day before the cut-off, each with its own day path |
| Windows.DayWindowsDistinct | myfitbit/export.py:106-114 | different yielded days have different dates and different paths |
| Windows.DayStopNeverReached | myfitbit/export.py:103-104 | when the cut-off is before 2015-01-01 the stop test never fires |
| Windows.DayBoundaryExample | myfitbit/export.py:103 | on 2024-06-10 the last day yielded is 2024-06-04 |
| RangedSync.VisitMonth | myfitbit/export.py:47-89 | a loop pass that goes on was for a month from January 2015 up to today's month |
| RangedSync.VisitMonthStatus | myfitbit/export.py:47-51 | a pass raises exactly when the next month cannot be formed, breaks exactly at the first month after today's, makes a fetch exactly when the window is partial or its final file is missing, and that fetch is the window's call |
| RangedSync.VisitMonthEffect | myfitbit/export.py:75-89 | a pass that goes on leaves the window settled; a failed fetch leaves the store as it was minus the partial file |
| RangedSync.VisitMonthFrame | myfitbit/export.py:59-89 | a pass changes no file other than its window's two files |
| RangedSync.WindowPathsIn | myfitbit/export.py:59-73 | a window's two paths are distinct and belong to that window's month only |
| RangedSync.WindowCallMonth | myfitbit/export.py:85-87 | a window's fetch starts in the window's own month |
| RangedSync.SyncMonth | myfitbit/export.py:47-89 | the loop body, with the source's date comparisons, computes `VisitMonth` |
| RangedSync.SyncRangedData | myfitbit/export.py:45-89 | the loop computes `RangedRun` from January 2015 |
| RangedSync.SyncSleep | myfitbit/export.py:118-135 | `sync_sleep` is the ranged sync of "sleep" with the client's sleep-range fetcher |
| RangedSync.SyncWeight | myfitbit/export.py:137-142 | `sync_weight` is the ranged sync of "weight" with the client's weight-range fetcher |
| RangedProps.RunBounds | myfitbit/export.py:45-51 | a completed run stops at the month after today's; an out-of-range abort stops at December 9999; a failed fetch stops at a reached window |
| RangedProps.RunFrame | myfitbit/export.py:59-89 | a run changes no file outside the windows it went through |
| RangedProps.RunSettled | myfitbit/export.py:75-89 | after a run, every window it went through has its partial file exactly when partial, holding the fetched document, and a final window has its final file, old if present, else fetched |
| RangedProps.RunAbort | myfitbit/export.py:75-89 | a run ending on a failed fetch stops at a window that needed the fetch, reports that fetch's error, and leaves the window without a partial file and with its final file unchanged |
| RangedProps.RunCalls | myfitbit/export.py:78-88 | the fetch calls are one per window gone through that was partial or lacked its final file, in month order, plus the failed one |
| RangedProps.ExpectedCallsMembers | myfitbit/export.py:78-82 | the expected calls are exactly the calls of the windows in range that need a fetch |
| RangedProps.ExpectedCallsAscending | myfitbit/export.py:45-48 | the expected calls go forward month by month |
| RangedProps.CallCoversMonth | myfitbit/export.py:85-88 | a window's fetch runs from the 1st to the last day of its month, inclusive, and does not start after today |
| RangedProps.RunFetches | myfitbit/export.py:78-88 | every fetch is the call of a reached window that needed it, and a window gone through is fetched exactly when it needed it |
| RangedProps.RunFetchesAscending | myfitbit/export.py:45-48 | a run's fetches go forward month by month, never repeating a month |
| RangedProps.NoRedundantFetch | myfitbit/export.py:80-82 | a final window whose final file exists is never fetched and its file is left as it was |
| RangedProps.CompletedRunFiles | myfitbit/export.py:75-79 | after a completed run, every window up to today's month has a partial file exactly when partial, and every final window has its final file |
| RangedProps.VisitComplete | myfitbit/export.py:75-89 | visiting a window already complete changes nothing and refetches only a partial window |
| RangedProps.RerunComplete | myfitbit/export.py:75-89 | a run over complete windows completes, leaves the store unchanged and fetches exactly the partial windows |
| RangedProps.RunBeforeEpoch | myfitbit/export.py:45-51 | before 2015 a run does nothing |
| RangedProps.SecondRunFetches | myfitbit/export.py:75-89 | after a completed run, a second run on the same day with any fetch function fetches only partial windows, in month order, and leaves every final window's file as the first run left it |
| RangedProps.SecondRunUnchanged | myfitbit/export.py:75-89 | after a completed run, a second run on the same day completes with the store unchanged exactly when its fetch function returns what the first run's did on every partial window |
| RangedProps.CompletedRunFetchedToday | myfitbit/export.py:56-89 | today's month is always partial, so a completed run from 2015 on has fetched it successfully |
| RangedProps.FailingFetchNeverCompletes | myfitbit/export.py:75-89 | with a fetch that always fails, such as a rate-limited client, a run from 2015 on always aborts |
| RangedProps.RunPathsUnderUser | myfitbit/export.py:22-24 | every file a ranged run creates, overwrites or deletes is a month file of its category under the export's root and the resolved user |
| DailySync.SyncDays | myfitbit/export.py:156-163 | the per-day loop over `day_filenames` computes `DailyRun` |
| DailySync.SyncActivities | myfitbit/export.py:145-163 | `sync_activities` is the per-day sync of "activities" with the client's activities fetcher, or with a fetcher that fails with `NoClient` when no client is set |
| DailySync.SyncHeartrateIntraday | myfitbit/export.py:166-178 | `sync_heartrate_intraday` is the per-day sync of "heartrate_intraday", failing with `NoClient` for a missing day when no client is set |
| DailySync.SyncStepsIntraday | myfitbit/export.py:180-190 | `sync_steps_intraday` is the per-day sync of "steps_intraday", failing with `NoClient` for a missing day when no client is set |
| DailySync.SyncDistanceIntraday | myfitbit/export.py:192-202 | `sync_distance_intraday` is the per-day sync of "distance_intraday", failing with `NoClient` for a missing day when no client is set |
| DailySync.NoClientFetch | myfitbit/export.py:162 | defines what `self.client.get_activities(d)` does with no client set: the lookup raises (AttributeError) before any request |
| DailyProps.DailyRunOutcome | myfitbit/export.py:156-163 | a per-day run completes exactly when it goes through every entry; otherwise it stops at a missing day whose fetch failed with the reported error |
| DailyProps.DailyRunKeeps | myfitbit/export.py:156-163 | existing files are never changed, every day gone through has a file, and new files are only at those days' paths |
| DailyProps.DailyRunFetched | myfitbit/export.py:161-163 | every file written holds the fetch result for its day |
| DailyProps.DailyRunCalls | myfitbit/export.py:156-163 | the fetches are the missing days gone through, in order, plus the failed day |
| DailyProps.DaySyncFetches | myfitbit/export.py:156-163 | over the enumeration, a day is fetched exactly when its file was absent and the run reached it |
| DailyProps.DaySyncCovers | myfitbit/export.py:156-163 | existing files stay unchanged, and a completed run leaves a file for every day from 2015-01-01 up to the cut-off |
| DailyProps.DailyRunCached | myfitbit/export.py:157-159 | when every file exists, a run fetches nothing and changes nothing |
| DailyProps.NoClientRun | myfitbit/export.py:156-163 | with no client set, a per-day run writes nothing, stops at the first missing day with the `NoClient` error, and completes exactly when every day's file already exists |
| DailyProps.DaySyncPathsUnderUser | myfitbit/export.py:22-24 | a per-day sync only adds files, each a day file of its category under the export's root and the resolved user |
| DailyProps.DaySecondRun | myfitbit/export.py:156-163 | after a completed run, running again fetches nothing and changes nothing |
| Intraday.Split | myfitbit/export.py:210 | `str.split(':')` returns at least one piece |
| Intraday.ParseInt | myfitbit/export.py:210 | defines `int()` on an optionally signed run of decimal digits, failing otherwise; `Intraday.ParsePadded` states that it reads zero-padded fields back |
| Intraday.TimeFields | myfitbit/export.py:210 | defines `h, m, s = map(int, t.split(':'))`: exactly three pieces, each an integer, or ValueError |
| Intraday.SlotOf | myfitbit/export.py:210-212 | a slot that is not an error is an index of the 1440-minute list; negative indexes count from the end as Python lists do, and anything outside the list is IndexError |
| Intraday.SplitJoin | myfitbit/export.py:210 | `split(':')` pieces hold no separator and join back to the string |
| Intraday.Compress | myfitbit/export.py:207-213 | raises the first rejected sample's error; otherwise returns exactly 1440 slots, each holding the last sample in it |
| Intraday.LastAtMeans | myfitbit/export.py:209-212 | a slot is empty exactly when no sample falls in it, otherwise it holds the value of the last sample that does |
| Intraday.FirstErrorMeans | myfitbit/export.py:210-212 | compression fails exactly when some sample's time is rejected, with the first such sample's error |
| Intraday.ParsePadded | myfitbit/export.py:210 | a zero-padded field has no `:` and `int()` reads it back |
| Intraday.PaddedTime | myfitbit/export.py:210-211 | `HH:MM:SS` parses to (h, m, s) and lands in slot `h*60+m`, seconds ignored, or raises IndexError past the day's end |
| Intraday.CompressExample | myfitbit/export.py:207-213 | two samples in minute 0 leave the later value there, the last minute holds its sample, and an unwritten slot is empty |
| Reports.IsoFormat | myfitbit/export.py:223 | `isoformat()` is 10 characters `YYYY-MM-DD` whose fields read back as the date |
| Reports.CompressComputes | myfitbit/export.py:207-213 | what `Compress` returns is the declarative `Compressed` |
| Reports.ReadEntries | myfitbit/export.py:216-226 | the readers' loop computes `ReadDays` |
| Reports.GetIntraday | myfitbit/export.py:215-226 | `get_*_intraday` is the readers' loop over `day_filenames(name)` |
| Reports.ReadableEntries | myfitbit/export.py:217-221 | the days kept have an existing, non-empty file |
| Reports.ReadDaysFails | myfitbit/export.py:216-226 | the readers raise exactly when some kept day has a rejected sample time |
| Reports.ReadDaysRecords | myfitbit/export.py:215-226 | otherwise they return one record per kept day, in day order, with its ISO date and its 1440 last-write slots |

## Left out

- `os.path.abspath`, `os.makedirs`, `open` and `json.dumps` with `indent=2, sort_keys=True` are not modelled. The root is taken as already absolute, a document is opaque, and a write is a single map update. The model cannot show a write left half-done.
- `json.load` is the `decode` parameter of the readers, a function from a stored document to its samples. `not data` is an empty sample list.
- Logging calls are omitted; they change nothing.
- `get_sleep` is not modelled: it walks the real directory tree with `os.walk`, whose order the operating system decides.
- myfitbit/__main__.py (configuration, OAuth, HTTP client, printing) is not part of this model.
- The client functions are parameters; Python exceptions become a `Failure` value.
  - The model covers only exceptions raised by a fetch.
  - A fetch that does not terminate is not modelled.
  - A `HttpError` status is all the model keeps of an error, and `NoClient` stands for the AttributeError raised by `self.client.get_*` when no client is set.
- `date.today()` is read once per sync, as the `today` parameter. The source reads it in every loop pass, so a sync running across midnight is not modelled.
- RangedSync.SyncRangedData: requires a known user (`HasUser`). With neither a client id nor `user_id`, the source raises TypeError in `os.path.join` once a window is reached, that is, when today is in January 2015 or later. Before that, the loop breaks before any file name is formed. The model does not show that error.
- Windows.DayFilenames: requires a known user (`HasUser`). With neither a client id nor `user_id`, the source raises TypeError in `os.path.join` at the first day it yields. When the cut-off is 2015-01-01, no day is yielded and the source returns normally. The model covers neither case.
- DailySync.SyncDays: requires a known user (`HasUser`), so it does not show the TypeError that `day_filenames` raises without one; see Windows.DayFilenames.
- DailySync.SyncActivities: requires a known user (`HasUser`), as DailySync.SyncDays does.
- DailySync.SyncHeartrateIntraday: requires a known user (`HasUser`), as DailySync.SyncDays does.
- DailySync.SyncStepsIntraday: requires a known user (`HasUser`), as DailySync.SyncDays does.
- DailySync.SyncDistanceIntraday: requires a known user (`HasUser`), as DailySync.SyncDays does.
- Reports.GetIntraday: requires a known user (`HasUser`), so it does not show the TypeError that `day_filenames` raises without one; see Windows.DayFilenames.
- RangedSync.SyncSleep: requires `client` to be set; the source evaluates `self.client.get_sleep_range` before the loop and raises AttributeError otherwise. The same holds for RangedSync.SyncWeight. The per-day wrappers need no client: they look the fetcher up only for a missing day, which the model shows with `NoClientFetch`.
- Reports.ReadEntries: `decode` is total and cannot fail. `json.load` in the source raises on a file that is not valid JSON, which aborts `get_*_intraday`, and a decoded value that is not a list of samples makes `compress` raise. Neither failure is modelled.
- Paths.RenderInjective: states that distinct paths have distinct segment lists, not distinct joined strings. `os.path.join` is not injective: a user id or category containing `/` can make two segment lists join alike, and an absolute user id makes `os.path.join` drop the root. The model does not show those collisions.
- Windows.DayFilenames: requires the cut-off to be on or after 2015-01-01. Before that the source's `==` stop test never fires and the generator runs until `date` overflows; `Windows.DayStopNeverReached` proves that the test never fires.
- Windows.DayFilenames: returns the whole enumeration at once. The source yields lazily, so a driver interrupted by a failed fetch never computes later days; the results are the same.
- Intraday.ParseInt: accepts an optional sign and decimal digits only. Python's `int()` also accepts surrounding whitespace, `_` separators and non-ASCII digits; times with those are reported as `BadTime` here.
- Intraday.Compress: a sample is a `(time, value)` pair. A sample without a `time` or `value` key (KeyError in the source) is not modelled.
- `date(10000, 1, 1)`, formed after December 9999, raises ValueError in the source. It is modelled as the `DateOutOfRange` abort, so the ranged sync requires no bound on today.
