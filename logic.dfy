// What the watchers and the backlog do around the engine: classify the
// two extraction faults into log lines and corrupt-file rows, promote old
// staged units, insert corrupt files on request, and decide whether a
// newly seen raw file is ready to be read.

module Logic {
  import opened Basics
  import opened SqlLike
  import opened Entities
  import opened Common
  import opened Staging
  import opened Store
  import opened Engine
  import opened Retry

  /** The error text of every corrupt-file row these entry points write. */
  const CorruptFileError: string := "CorruptFile"

  // ---------------------------------------------------------------------
  // FillDatabase_Fun

  /**
   * FillDatabase_Fun on `file`. `bytes` is the file size os.path.getsize
   * reports (None when it raises); a file under `minFileSize` kilobytes is
   * recorded as corrupt, a larger one only logged as empty.
   */
  function FillDatabaseFunOn(w: World, file: string, x: Extraction, bytes: Option<nat>, minFileSize: real,
                             julian: string -> real, daysWaiting: int, listing: seq<string>): (Result<()>, World)
  {
    var r := FillDatabaseOn(w, x, julian, daysWaiting, listing);
    if r.0 == Err(HandlingCorruptFileError) then (Ok(()), r.1.(corruptLog := r.1.corruptLog + [file]))
    else if r.0 == Err(HandlingEmptyFileError) then
      if bytes.None? then (Err(FileNotFound), r.1)
      else if bytes.value as real / 1000.0 < minFileSize then
        FillErrorOn(r.1.(corruptLog := r.1.corruptLog + [file]), file, CorruptFileError)
      else (Ok(()), r.1.(emptyLog := r.1.emptyLog + [file]))
    else r
  }

  /** A file the reader calls corrupt is only logged: no row, nothing staged. */
  lemma CorruptIsOnlyLogged(w: World, file: string, x: Extraction, bytes: Option<nat>, minFileSize: real,
                            julian: string -> real, daysWaiting: int, listing: seq<string>)
    requires x == Corrupt || x == Failed(HandlingCorruptFileError)
    ensures FillDatabaseFunOn(w, file, x, bytes, minFileSize, julian, daysWaiting, listing)
      == (Ok(()), w.(corruptLog := w.corruptLog + [file]))
  {
  }

  /**
   * A file without scans that is under the size threshold gets a
   * corrupt-log line and a "CorruptFile" row with its own ProjectID (unless
   * its name is already a sample key); nothing else changes.
   */
  lemma EmptySmallIsCorrupt(w: World, file: string, x: Extraction, b: nat, minFileSize: real,
                            julian: string -> real, daysWaiting: int, listing: seq<string>)
    requires x == Empty || x == Failed(HandlingEmptyFileError)
    requires w.dbOnline && SplitProjectName(file).Ok?
    requires b as real / 1000.0 < minFileSize
    ensures var row := NewRow(CorruptColumns, [Text(file), Text(SplitProjectName(file).value.projectId), Text(CorruptFileError)]);
      && FillDatabaseFunOn(w, file, x, Some(b), minFileSize, julian, daysWaiting, listing)
         == (Ok(()), w.(corruptLog := w.corruptLog + [file],
                        samples := if IsSampleKey(w, file) then w.samples else w.samples + [row]))
      && Cell(row, ErrorColumn) == Text(CorruptFileError)
  {
    var w1 := w.(corruptLog := w.corruptLog + [file]);
    assert FillDatabaseOn(w, x, julian, daysWaiting, listing) == (Err(HandlingEmptyFileError), w);
    assert FillDatabaseFunOn(w, file, x, Some(b), minFileSize, julian, daysWaiting, listing)
        == FillErrorOn(w1, file, CorruptFileError);
    FillErrorKeepsOwnProjectId(w1, file, CorruptFileError);
    assert IsSampleKey(w1, file) == IsSampleKey(w, file);
  }

  /** A file without scans at or over the size threshold is only logged as empty. */
  lemma EmptyLargeIsLogged(w: World, file: string, x: Extraction, b: nat, minFileSize: real,
                           julian: string -> real, daysWaiting: int, listing: seq<string>)
    requires x == Empty || x == Failed(HandlingEmptyFileError)
    requires b as real / 1000.0 >= minFileSize
    ensures FillDatabaseFunOn(w, file, x, Some(b), minFileSize, julian, daysWaiting, listing)
      == (Ok(()), w.(emptyLog := w.emptyLog + [file]))
  {
  }



  // ---------------------------------------------------------------------
  // FillDatabase_old

  /** `d - timedelta(1)`. */
  function PrevDay(d: Day): (e: Day)
    requires 1 <= d.month <= 12
    ensures 1 <= e.month <= 12 && 1 <= e.day
  {
    if d.day > 1 then Day(d.year, d.month, d.day - 1)
    else
      var ym := ShiftMonth(d.year, d.month, -1);
      Day(ym.0, ym.1, DaysInMonth(ym.0, ym.1))
  }

  predicate CalendarDay(d: Day)
  {
    1 <= d.month <= 12 && 1 <= d.day <= DaysInMonth(d.year, d.month)
  }

  /** The day before is a calendar day, not in a later year, and the next day undoes it. */
  lemma PrevDayInverse(d: Day)
    requires CalendarDay(d)
    ensures CalendarDay(PrevDay(d)) && PrevDay(d).year <= d.year
    ensures NextDay(PrevDay(d)) == d
  {
    if d.day == 1 {
      var ym := ShiftMonth(d.year, d.month, -1);
      var back := ShiftMonth(ym.0, ym.1, 1);
      assert MonthIndex(back.0, back.1) == MonthIndex(d.year, d.month);
      SameMonthIndex(back.0, back.1, d.year, d.month);
      assert ym.0 * 12 + ym.1 - 1 == d.year * 12 + d.month - 2;
    }
  }

  lemma SameMonthIndex(y1: int, m1: int, y2: int, m2: int)
    requires 1 <= m1 <= 12 && 1 <= m2 <= 12
    requires MonthIndex(y1, m1) == MonthIndex(y2, m2)
    ensures y1 == y2 && m1 == m2
  {
  }

  /** `d - timedelta(n)`, one day at a time. */
  function SubDays(d: Day, n: nat): (e: Day)
    requires 1 <= d.month <= 12 && 1 <= d.day
    ensures 1 <= e.month <= 12 && 1 <= e.day
    decreases n
  {
    if n == 0 then d else SubDays(PrevDay(d), n - 1)
  }

  /** Counting n days back and then n days forward returns to the start. */
  lemma {:induction false} SubDaysInverse(d: Day, n: nat)
    requires CalendarDay(d)
    ensures CalendarDay(SubDays(d, n)) && SubDays(d, n).year <= d.year
    ensures AddDays(SubDays(d, n), n) == d
    decreases n
  {
    if n > 0 {
      PrevDayInverse(d);
      SubDaysInverse(PrevDay(d), n - 1);
      AddDaysSnoc(SubDays(PrevDay(d), n - 1), n - 1);
    }
  }

  /** One more day added at the end. */
  lemma {:induction false} AddDaysSnoc(d: Day, n: nat)
    requires 1 <= d.month <= 12
    ensures AddDays(d, n + 1) == NextDay(AddDays(d, n))
    decreases n
  {
    if n > 0 {
      AddDaysSnoc(NextDay(d), n - 1);
    }
  }

  /** `strftime("%Y%m%d")`. */
  function Stamp(d: Day): string
    requires d.year >= 0 && d.month >= 0 && d.day >= 0
  {
    Padded(d.year, 4) + Padded(d.month, 2) + Padded(d.day, 2)
  }

  /** DaysAgo: today minus `daysWaiting` days as "YYYYMMDD"; OverflowError before the year 1. */
  function DaysAgo(today: Day, daysWaiting: nat): (r: Result<string>)
    requires ValidDay(today)
    ensures r.Err? ==> r.fault == OverflowError
  {
    var d := SubDays(today, daysWaiting);
    if d.year < 1 then Err(OverflowError) else Ok(Stamp(d))
  }

  /** From the year 1000 on, the stamp is eight digits. */
  lemma StampDigits(d: Day)
    requires CalendarDay(d) && 1000 <= d.year <= 9999
    ensures |Stamp(d)| == 8 && AllDigits(Stamp(d))
  {
    assert Pow10(2) == 100 && Pow10(4) == 10000;
    PaddedReadsBack(d.year, 4);
    PaddedReadsBack(d.month, 2);
    PaddedReadsBack(d.day, 2);
    var y, m, dd := Padded(d.year, 4), Padded(d.month, 2), Padded(d.day, 2);
    assert forall i :: 0 <= i < 4 ==> (y + m + dd)[i] == y[i];
    assert forall i :: 4 <= i < 6 ==> (y + m + dd)[i] == m[i - 4];
    assert forall i :: 6 <= i < 8 ==> (y + m + dd)[i] == dd[i - 6];
  }

  /**
   * FillDatabase_old on the staged unit `file`: the unit is drained as usual;
   * if its family has no project yet it is promoted as its own project once
   * its date token sorts before DaysAgo, and otherwise left for later.
   */
  function FillOldOn(w: World, file: string, today: Day, daysWaiting: nat): (Result<()>, World)
    requires ValidDay(today)
  {
    var ago := DaysAgo(today, daysWaiting);
    if ago.Err? then (Err(ago.fault), w)
    else
      var sp := SplitProjectName(file);
      if sp.Err? then (Err(sp.fault), w)
      else if file !in w.staged then (Ok(()), w)
      else
        var r := WithJsonOn(w, file);
        if r.0 == Err(NoFittingProjectFound) then
          if StrLess(sp.value.date, ago.value) then KeepProjectOn(r.1, file) else (Ok(()), r.1)
        else r
  }

  /** A name with no staged file changes nothing. */
  lemma FillOldWithoutFile(w: World, file: string, today: Day, daysWaiting: nat)
    requires ValidDay(today) && DaysAgo(today, daysWaiting).Ok? && SplitProjectName(file).Ok?
    requires file !in w.staged
    ensures FillOldOn(w, file, today, daysWaiting) == (Ok(()), w)
  {
  }

  /**
   * A staged unit is promoted (written with its own project and removed)
   * exactly when its family has no project and its date token sorts before
   * DaysAgo; for eight-digit tokens from the year 1000 on, that order is the
   * order of the dates as numbers.
   */
  lemma FillOldPromotes(w: World, file: string, today: Day, daysWaiting: nat)
    requires ValidDay(today) && DaysAgo(today, daysWaiting).Ok? && SplitProjectName(file).Ok?
    requires file in w.staged && w.dbOnline
    ensures var sp := SplitProjectName(file).value;
      var ago := DaysAgo(today, daysWaiting).value;
      var promote := |Family(w, sp.sqlPattern)| == 0 && StrLess(sp.date, ago);
      var r := FillOldOn(w, file, today, daysWaiting);
      && (promote ==> r == KeepProjectOn(w, file))
      && (|Family(w, sp.sqlPattern)| == 0 && !promote ==> r == (Ok(()), w))
      && (|Family(w, sp.sqlPattern)| > 0 ==> r == WithJsonOn(w, file))
      && (AllDigits(sp.date) && |sp.date| == 8 && 1000 <= SubDays(today, daysWaiting).year ==>
            (StrLess(sp.date, ago) <==> DigitsValue(sp.date) < DigitsValue(ago)))
  {
    var sp := SplitProjectName(file).value;
    WithJsonEffect(w, file);
    var d := SubDays(today, daysWaiting);
    SubDaysInverse(today, daysWaiting);
    if AllDigits(sp.date) && |sp.date| == 8 && 1000 <= d.year {
      StampDigits(d);
      DigitsOrder(sp.date, Stamp(d));
    }
  }

  // ---------------------------------------------------------------------
  // FillDatabase_Corrupt

  /** FillDatabase_Corrupt: either extraction fault gives a "CorruptFile" row, whatever the size. */
  function FillCorruptOn(w: World, file: string, x: Extraction, julian: string -> real,
                         daysWaiting: int, listing: seq<string>): (Result<()>, World)
  {
    var r := FillDatabaseOn(w, x, julian, daysWaiting, listing);
    if r.0 == Err(HandlingCorruptFileError) || r.0 == Err(HandlingEmptyFileError) then
      FillErrorOn(r.1, file, CorruptFileError)
    else r
  }

  lemma FillCorruptWritesRow(w: World, file: string, x: Extraction, julian: string -> real,
                             daysWaiting: int, listing: seq<string>)
    requires x == Corrupt || x == Empty
    requires w.dbOnline && SplitProjectName(file).Ok?
    ensures var r := FillCorruptOn(w, file, x, julian, daysWaiting, listing);
      && r.0 == Ok(())
      && r.1.projects == w.projects && r.1.staged == w.staged
      && r.1.corruptLog == w.corruptLog && r.1.emptyLog == w.emptyLog
      && r.1.samples == (if IsSampleKey(w, file) then w.samples else
           w.samples + [NewRow(CorruptColumns, [Text(file), Text(SplitProjectName(file).value.projectId), Text(CorruptFileError)])])
  {
    FillErrorKeepsOwnProjectId(w, file, CorruptFileError);
  }

  // ---------------------------------------------------------------------
  // SampleReadyToProcess

  /** Some sample's name is LIKE the pattern (`SELECT EXISTS(... LIKE ?)`). */
  predicate AnySampleLike(w: World, pattern: string)
  {
    exists i :: 0 <= i < |w.samples| && Cell(w.samples[i], NameColumn).Text?
      && Like(Cell(w.samples[i], NameColumn).text, pattern)
  }

  /**
   * SampleReadyToProcess: the result with the numbers of opens and waits.
   * False without opening anything when a sample LIKE the basename exists or
   * the database cannot be queried.
   */
  function ReadyOn(w: World, path: string, dir: string, isFile: string -> bool, outcome: seq<Access>,
                   stopFires: seq<bool>, hasStopEvent: bool): Trail
    requires Scripted(outcome, stopFires)
  {
    var gp := GetFilePath(path, dir, isFile);
    if gp.Err? then Trail(Err(gp.fault), 0, 0)
    else if !w.dbOnline || AnySampleLike(w, gp.value.1) then Trail(Ok(false), 0, 0)
    else Attempts(0, outcome, stopFires, hasStopEvent)
  }

  /**
   * At most ten opens and nine waits; true only right after a successful
   * open that followed permission failures only; a file whose name a sample
   * already matches is never opened.
   */
  lemma ReadyBounds(w: World, path: string, dir: string, isFile: string -> bool, outcome: seq<Access>,
                    stopFires: seq<bool>, hasStopEvent: bool)
    requires Scripted(outcome, stopFires)
    ensures var r := ReadyOn(w, path, dir, isFile, outcome, stopFires, hasStopEvent);
      && r.opens <= MaxRetries && r.waits <= MaxRetries - 1
      && (r.result == Ok(true) ==>
            (r.opens >= 1 && outcome[r.opens - 1] == Opened
             && forall j :: 0 <= j < r.opens - 1 ==> outcome[j] == PermissionDenied))
      && (GetFilePath(path, dir, isFile).Ok? && (!w.dbOnline || AnySampleLike(w, GetFilePath(path, dir, isFile).value.1)) ==>
            r == Trail(Ok(false), 0, 0))
  {
    AttemptsTrail(0, outcome, stopFires, hasStopEvent);
  }

  // ---------------------------------------------------------------------
  // The entry points on the store object

  method FillDatabaseFun(site: Site, file: string, x: Extraction, bytes: Option<nat>, minFileSize: real,
                         julian: string -> real, daysWaiting: int, listing: seq<string>) returns (r: Result<()>)
    modifies site
    ensures (r, site.State()) == FillDatabaseFunOn(old(site.State()), file, x, bytes, minFileSize, julian, daysWaiting, listing)
  {
    r := Engine.FillDatabase(site, x, julian, daysWaiting, listing);
    if r == Err(HandlingCorruptFileError) {
      site.AppendCorruptLog(file);
      r := Ok(());
    } else if r == Err(HandlingEmptyFileError) {
      if bytes.None? {
        return Err(FileNotFound);
      }
      if bytes.value as real / 1000.0 < minFileSize {
        site.AppendCorruptLog(file);
        r := FillDatabaseError(site, file, CorruptFileError);
      } else {
        site.AppendEmptyLog(file);
        r := Ok(());
      }
    }
  }

  method FillDatabaseOld(site: Site, file: string, today: Day, daysWaiting: nat) returns (r: Result<()>)
    requires ValidDay(today)
    modifies site
    ensures (r, site.State()) == FillOldOn(old(site.State()), file, today, daysWaiting)
  {
    var ago := DaysAgo(today, daysWaiting);
    if ago.Err? {
      return Err(ago.fault);
    }
    var sp := SplitProjectName(file);
    if sp.Err? {
      return Err(sp.fault);
    }
    if file !in site.staged {
      return Ok(());
    }
    r := FillDatabaseWithJson(site, file);
    if r == Err(NoFittingProjectFound) {
      if StrLess(sp.value.date, ago.value) {
        r := FillDatabaseWithJsonKeepProject(site, file);
      } else {
        r := Ok(());
      }
    }
  }

  method FillDatabaseCorrupt(site: Site, file: string, x: Extraction, julian: string -> real,
                             daysWaiting: int, listing: seq<string>) returns (r: Result<()>)
    modifies site
    ensures (r, site.State()) == FillCorruptOn(old(site.State()), file, x, julian, daysWaiting, listing)
  {
    r := Engine.FillDatabase(site, x, julian, daysWaiting, listing);
    if r == Err(HandlingCorruptFileError) || r == Err(HandlingEmptyFileError) {
      r := FillDatabaseError(site, file, CorruptFileError);
    }
  }

  /** The readiness check; `opens` and `waits` count the open attempts and the waits. */
  method SampleReadyToProcess(site: Site, path: string, dir: string, isFile: string -> bool, outcome: seq<Access>,
                              stopFires: seq<bool>, hasStopEvent: bool) returns (r: Result<bool>, opens: nat, waits: nat)
    requires Scripted(outcome, stopFires)
    ensures Trail(r, opens, waits) == ReadyOn(site.State(), path, dir, isFile, outcome, stopFires, hasStopEvent)
  {
    var gp := GetFilePath(path, dir, isFile);
    if gp.Err? {
      return Err(gp.fault), 0, 0;
    }
    if !site.dbOnline || AnySampleLike(site.State(), gp.value.1) {
      return Ok(false), 0, 0;
    }
    r, opens, waits := WaitUntilReadable(outcome, stopFires, hasStopEvent);
  }
}
