/**
 * Where `FitbitExport` keeps its documents: `filename` and the three file
 * name templates (final month, partial month, day). A path records the
 * root, the user and the file it names; `Render` gives the segments handed
 * to `os.path.join`, and `RenderInjective` shows that no two well-formed
 * paths give the same segments. The store is a map from path to the
 * document last written there (`os.path.isfile` is membership, `write` is
 * a map update, `os.remove` a key removal).
 */
module Paths {
  import opened Common
  import opened Dates
  import opened Formats

  /** A JSON document as the fetch functions return it; its content is not inspected. */
  datatype Doc = Doc(json: string)

  /**
   * How a fetch fails: the API answers with an error status (e.g. 429 when
   * it rate-limits the caller), or no client is set, so looking up the
   * fetch method on `self.client` raises AttributeError.
   */
  datatype FetchError = HttpError(status: int) | NoClient

  /** What a fetch function returns: the document, or the error it raises. */
  type Fetched = Result<Doc, FetchError>

  /**
   * The part of the API client the export uses: the account id and one
   * fetch function per category (ranged ones take a first and a last day,
   * both inclusive; per-day ones take the day).
   */
  datatype Client = Client(
    userId: string,
    getSleepRange: (Date, Date) -> Fetched,
    getWeightRange: (Date, Date) -> Fetched,
    getActivities: Date -> Fetched,
    getHeartrateIntraday: Date -> Fetched,
    getStepsIntraday: Date -> Fetched,
    getDistanceIntraday: Date -> Fetched)

  /** `FitbitExport(root, client, user_id)`; `root` is already absolute. */
  datatype Export = Export(root: string, client: Option<Client>, userId: Option<string>)

  /**
   * `self.client and self.client.user_id or self.user_id`: the client's id
   * when a client is set and its id is not empty, otherwise `user_id`
   * (None when neither is known).
   */
  function User(ex: Export): Option<string> {
    if ex.client.Some? && ex.client.value.userId != "" then Some(ex.client.value.userId) else ex.userId
  }

  /** `os.path.join` with `None` for the user segment raises TypeError. */
  predicate HasUser(ex: Export) {
    User(ex).Some?
  }

  /** `filename(*parts)`: the segments handed to `os.path.join`, the root, then the user, then `parts`. */
  function Filename(ex: Export, parts: seq<string>): seq<string>
    requires HasUser(ex)
  {
    [ex.root, User(ex).value] + parts
  }

  /** `'{}.{:04d}.{:02d}.json'` and `'{}.{:04d}.{:02d}.partial.json'` over (name, year, month). */
  function MonthFileName(name: string, year: nat, month: nat, partial: bool): string {
    name + "." + Pad(year, 4) + "." + Pad(month, 2) + (if partial then ".partial.json" else ".json")
  }

  /** `'{}.{:04d}.{:02d}.{:02d}.json'` over (name, year, month, day). */
  function DayFileName(name: string, year: nat, month: nat, day: nat): string {
    name + "." + Pad(year, 4) + "." + Pad(month, 2) + "." + Pad(day, 2) + ".json"
  }

  /**
   * The document a file holds, by what names it: a month of a ranged
   * category (final or partial) or a day of a per-day category.
   */
  datatype File =
    | MonthFile(name: string, year: int, month: int, partial: bool)
    | DayFile(name: string, date: Date)

  /** A file of one account under one export root. */
  datatype Path = Path(root: string, user: string, file: File)

  /** The documents on disk: `os.path.isfile` is membership, `write` an update, `os.remove` a removal. */
  type Store = map<Path, Doc>

  /** Fields every path the export forms satisfies: a four-digit year, a month, a real day. */
  predicate WellFormed(p: Path) {
    match p.file
    case MonthFile(_, year, month, _) => MinYear <= year <= MaxYear && 1 <= month <= 12
    case DayFile(_, d) => Valid(d)
  }

  /** The category directory, the `{:04d}` year directory and the file name. */
  function FileSegments(f: File): seq<string>
    requires f.MonthFile? ==> f.year >= 0 && f.month >= 0
    requires f.DayFile? ==> Valid(f.date)
  {
    match f
    case MonthFile(name, year, month, partial) => [name, Pad(year, 4), MonthFileName(name, year, month, partial)]
    case DayFile(name, d) => [name, Pad(d.year, 4), DayFileName(name, d.year, d.month, d.day)]
  }

  /** The `os.path.join` segments of a path. */
  function Render(p: Path): seq<string>
    requires WellFormed(p)
  {
    [p.root, p.user] + FileSegments(p.file)
  }

  /** `<root>/<user>/<name>/<YYYY>/<name>.<YYYY>.<MM>[.partial].json` for the month starting at `start`. */
  function MonthPath(ex: Export, name: string, start: Date, partial: bool): (p: Path)
    requires HasUser(ex) && Valid(start)
    ensures WellFormed(p) && p.root == ex.root && p.user == User(ex).value
  {
    Path(ex.root, User(ex).value, MonthFile(name, start.year, start.month, partial))
  }

  /** A month path names `filename(name, '{:04d}'.format(year), MonthFileName(...))`. */
  lemma MonthPathRenders(ex: Export, name: string, start: Date, partial: bool)
    requires HasUser(ex) && Valid(start)
    ensures Render(MonthPath(ex, name, start, partial))
      == Filename(ex, [name, Pad(start.year, 4), MonthFileName(name, start.year, start.month, partial)])
  {
  }

  /** `<root>/<user>/<name>/<YYYY>/<name>.<YYYY>.<MM>.<DD>.json` for day `d`. */
  function DayPath(ex: Export, name: string, d: Date): (p: Path)
    requires HasUser(ex) && Valid(d)
    ensures WellFormed(p) && p.root == ex.root && p.user == User(ex).value
  {
    Path(ex.root, User(ex).value, DayFile(name, d))
  }

  /** A day path names `filename(name, '{:04d}'.format(year), DayFileName(...))`. */
  lemma DayPathRenders(ex: Export, name: string, d: Date)
    requires HasUser(ex) && Valid(d)
    ensures Render(DayPath(ex, name, d)) == Filename(ex, [name, Pad(d.year, 4), DayFileName(name, d.year, d.month, d.day)])
  {
  }

  lemma DateFieldsPadded(d: Date)
    requires Valid(d)
    ensures |Pad(d.year, 4)| == 4 && Value(Pad(d.year, 4)) == d.year
    ensures |Pad(d.month, 2)| == 2 && Value(Pad(d.month, 2)) == d.month
    ensures |Pad(d.day, 2)| == 2 && Value(Pad(d.day, 2)) == d.day
  {
    PadRoundTrip(d.year, 4);
    PadRoundTrip(d.month, 2);
    PadRoundTrip(d.day, 2);
  }

  /**
   * A month file's segments read back: the category directory, a four-digit
   * year directory, and a file name carrying the category, the four-digit
   * year and the two-digit month, ending in `.partial.json` exactly for
   * partial windows.
   */
  lemma MonthFileLayout(name: string, year: int, month: int, partial: bool)
    requires MinYear <= year <= MaxYear && 1 <= month <= 12
    ensures var p := FileSegments(MonthFile(name, year, month, partial));
      var f := p[2];
      var n := |name|;
      && |p| == 3 && p[0] == name
      && |p[1]| == 4 && (forall i :: 0 <= i < 4 ==> IsDigit(p[1][i])) && Value(p[1]) == year
      && |f| == n + (if partial then 21 else 13)
      && f[..n] == name && f[n] == '.' && f[n + 5] == '.'
      && (forall i :: n + 1 <= i < n + 5 ==> IsDigit(f[i])) && Value(f[n + 1..n + 5]) == year
      && (forall i :: n + 6 <= i < n + 8 ==> IsDigit(f[i])) && Value(f[n + 6..n + 8]) == month
      && f[n + 8..] == (if partial then ".partial.json" else ".json")
  {
    DateFieldsPadded(Date(year, month, 1));
    hide Pad, Value, Digits, Zeros;
    var y, m := Pad(year, 4), Pad(month, 2);
    var suffix := if partial then ".partial.json" else ".json";
    var n := |name|;
    var s1 := name + ".";
    var s2 := s1 + y;
    var s3 := s2 + ".";
    var s4 := s3 + m;
    var f := s4 + suffix;
    assert f == MonthFileName(name, year, month, partial);
    Slices(name, ".", n, n);
    Slices(s1, y, 0, n);
    Slices(s2, ".", 0, n);
    Slices(s2, ".", n + 1, n + 5);
    Slices(s3, m, 0, n);
    Slices(s3, m, n + 1, n + 5);
    Slices(s4, suffix, 0, n);
    Slices(s4, suffix, n + 1, n + 5);
    Slices(s4, suffix, n + 6, n + 8);
  }

  /** A day file's segments read back, as for months with a two-digit day added. */
  lemma DayFileLayout(name: string, d: Date)
    requires Valid(d)
    ensures var p := FileSegments(DayFile(name, d));
      var f := p[2];
      var n := |name|;
      && |p| == 3 && p[0] == name
      && |p[1]| == 4 && Value(p[1]) == d.year
      && |f| == n + 16
      && f[..n] == name && f[n] == '.' && f[n + 5] == '.' && f[n + 8] == '.'
      && (forall i :: n + 1 <= i < n + 5 ==> IsDigit(f[i])) && Value(f[n + 1..n + 5]) == d.year
      && (forall i :: n + 6 <= i < n + 8 ==> IsDigit(f[i])) && Value(f[n + 6..n + 8]) == d.month
      && (forall i :: n + 9 <= i < n + 11 ==> IsDigit(f[i])) && Value(f[n + 9..n + 11]) == d.day
      && f[n + 11..] == ".json"
  {
    DateFieldsPadded(d);
    hide Pad, Value, Digits, Zeros;
    var y, m, dd := Pad(d.year, 4), Pad(d.month, 2), Pad(d.day, 2);
    var n := |name|;
    var s1 := name + ".";
    var s2 := s1 + y;
    var s3 := s2 + ".";
    var s4 := s3 + m;
    var s5 := s4 + ".";
    var s6 := s5 + dd;
    var f := s6 + ".json";
    assert f == DayFileName(name, d.year, d.month, d.day);
    Slices(name, ".", n, n);
    Slices(s1, y, 0, n);
    Slices(s2, ".", 0, n);
    Slices(s2, ".", n + 1, n + 5);
    Slices(s3, m, 0, n);
    Slices(s3, m, n + 1, n + 5);
    Slices(s4, ".", 0, n);
    Slices(s4, ".", n + 1, n + 5);
    Slices(s4, ".", n + 6, n + 8);
    Slices(s5, dd, 0, n);
    Slices(s5, dd, n + 1, n + 5);
    Slices(s5, dd, n + 6, n + 8);
    Slices(s6, ".json", 0, n);
    Slices(s6, ".json", n + 1, n + 5);
    Slices(s6, ".json", n + 6, n + 8);
    Slices(s6, ".json", n + 9, n + 11);
  }

  /** The pieces of a concatenation are its slices; a slice inside the first piece is a slice of it. */
  lemma Slices<T>(a: seq<T>, b: seq<T>, i: nat, j: nat)
    requires i <= j <= |a|
    ensures (a + b)[..|a|] == a && (a + b)[|a|..] == b
    ensures (a + b)[i..j] == a[i..j]
  {
  }

  /** Two month files, or two day files, have the same segments only when they are the same file. */
  lemma SameKindInjective(f: File, g: File)
    requires WellFormed(Path("", "", f)) && WellFormed(Path("", "", g)) && f.MonthFile? == g.MonthFile?
    requires FileSegments(f) == FileSegments(g)
    ensures f == g
  {
    if f.MonthFile? {
      MonthFilesInjective(f, g);
    } else {
      DayFilesInjective(f, g);
    }
  }

  /** The month-file case: the name, the year and the month read back from fixed places of the file name. */
  lemma MonthFilesInjective(f: File, g: File)
    requires f.MonthFile? && g.MonthFile? && WellFormed(Path("", "", f)) && WellFormed(Path("", "", g))
    requires FileSegments(f) == FileSegments(g)
    ensures f == g
  {
    hide FileSegments, MonthFileName, DayFileName, Pad;
    var n := |f.name|;
    MonthFileLayout(f.name, f.year, f.month, f.partial);
    MonthFileLayout(g.name, g.year, g.month, g.partial);
    var a, b := FileSegments(f)[2], FileSegments(g)[2];
    assert a[n + 1..n + 5] == b[n + 1..n + 5];
    assert a[n + 6..n + 8] == b[n + 6..n + 8];
  }

  /** The day-file case: the name and the three date fields read back from fixed places of the file name. */
  lemma DayFilesInjective(f: File, g: File)
    requires f.DayFile? && g.DayFile? && WellFormed(Path("", "", f)) && WellFormed(Path("", "", g))
    requires FileSegments(f) == FileSegments(g)
    ensures f == g
  {
    hide FileSegments, MonthFileName, DayFileName, Pad;
    var n := |f.name|;
    DayFileLayout(f.name, f.date);
    DayFileLayout(g.name, g.date);
    var a, b := FileSegments(f)[2], FileSegments(g)[2];
    assert a[n + 1..n + 5] == b[n + 1..n + 5];
    assert a[n + 6..n + 8] == b[n + 6..n + 8];
    assert a[n + 9..n + 11] == b[n + 9..n + 11];
  }

  /**
   * Rendering is one-to-one: two well-formed paths name the same file on
   * disk exactly when they are the same path, so a store keyed by `Path`
   * is a store keyed by file name.
   */
  lemma RenderInjective(p: Path, q: Path)
    requires WellFormed(p) && WellFormed(q)
    ensures Render(p) == Render(q) <==> p == q
  {
    if Render(p) == Render(q) {
      var rp, rq := Render(p), Render(q);
      assert FileSegments(p.file) == rp[2..] && FileSegments(q.file) == rq[2..];
      if p.file.MonthFile? != q.file.MonthFile? {
        var m, d := if p.file.MonthFile? then p.file else q.file, if p.file.MonthFile? then q.file else p.file;
        MonthFileLayout(m.name, m.year, m.month, m.partial);
        DayFileLayout(d.name, d.date);
        assert false;
      }
      SameKindInjective(p.file, q.file);
    }
  }
}
