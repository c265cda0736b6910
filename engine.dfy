// The reconciliation engine of the modern package: for one extracted
// sample it decides whether the sample joins an existing project, starts a
// new one (and then drains the staged units of its family), is staged, or
// is skipped; the staged units are drained, replaced rows rewritten and
// corrupt files recorded through the same store.

module Engine {
  import opened Basics
  import opened SqlLike
  import opened Entities
  import opened Common
  import opened Staging
  import opened Store

  // ---------------------------------------------------------------------
  // _is_standard_sample

  /** The class pattern `[Ss]tandar[dt]` matches at index i. */
  predicate StandardAt(n: string, i: int)
  {
    0 <= i && i + 8 <= |n| && (n[i] == 'S' || n[i] == 's') && n[i + 1..i + 7] == "tandar"
    && (n[i + 7] == 'd' || n[i + 7] == 't')
  }

  /** `re.search("HSstd", n) or re.search("[Ss]tandar[dt]", n)`. */
  predicate IsStandardSample(n: string)
  {
    Contains(n, "HSstd") || exists i :: 0 <= i <= |n| && StandardAt(n, i)
  }

  lemma StandardWord(n: string, i: int)
    requires 0 <= i && i + 8 <= |n|
    ensures StandardAt(n, i) <==>
      (n[i..i + 8] == "Standard" || n[i..i + 8] == "standard" || n[i..i + 8] == "Standart" || n[i..i + 8] == "standart")
  {
    var w := n[i..i + 8];
    assert w == [n[i]] + n[i + 1..i + 7] + [n[i + 7]];
    assert w[1..7] == n[i + 1..i + 7];
  }

  /**
   * A sample is a standard exactly when its name contains "HSstd" or one of
   * the four spellings "Standard", "standard", "Standart", "standart".
   */
  lemma StandardSpellings(n: string)
    ensures IsStandardSample(n) <==>
      Contains(n, "HSstd") || Contains(n, "Standard") || Contains(n, "standard")
      || Contains(n, "Standart") || Contains(n, "standart")
  {
    if exists i :: 0 <= i <= |n| && StandardAt(n, i) {
      var i :| 0 <= i <= |n| && StandardAt(n, i);
      StandardWord(n, i);
      assert OccursAt(n, n[i..i + 8], i);
    }
    if Contains(n, "Standard") || Contains(n, "standard") || Contains(n, "Standart") || Contains(n, "standart") {
      var t :| (t == "Standard" || t == "standard" || t == "Standart" || t == "standart") && Contains(n, t);
      SpellingIsStandard(n, t);
    }
  }

  lemma SpellingIsStandard(n: string, t: string)
    requires t == "Standard" || t == "standard" || t == "Standart" || t == "standart"
    requires Contains(n, t)
    ensures exists i :: 0 <= i <= |n| && StandardAt(n, i)
  {
    var i :| 0 <= i <= |n| && OccursAt(n, t, i);
    assert |t| == 8;
    assert n[i..i + 8] == t;
    StandardWord(n, i);
  }

  /** `t` does not occur at i when one of its characters differs. */
  lemma Mismatch(s: string, t: string, i: int, k: int)
    requires 0 <= k < |t| && 0 <= i && i + k < |s| && s[i + k] != t[k]
    ensures !OccursAt(s, t, i)
  {
  }

  /** The test is case-sensitive apart from the first letter of "standard". */
  lemma StandardIsCaseSensitive()
    ensures !IsStandardSample("STANDARD")
    ensures !IsStandardSample("hsstd")
  {
    var u := "STANDARD";
    StandardSpellings(u);
    assert forall i :: 1 <= i <= |u| ==>
      !OccursAt(u, "Standard", i) && !OccursAt(u, "standard", i) && !OccursAt(u, "Standart", i) && !OccursAt(u, "standart", i);
    Mismatch(u, "Standard", 0, 1);
    Mismatch(u, "standard", 0, 0);
    Mismatch(u, "Standart", 0, 1);
    Mismatch(u, "standart", 0, 0);
    forall i | 0 <= i <= |u| ensures !OccursAt(u, "HSstd", i) {
      if i + 5 <= |u| {
        Mismatch(u, "HSstd", i, 2);
      }
    }
    var h := "hsstd";
    StandardSpellings(h);
    Mismatch(h, "HSstd", 0, 0);
    assert forall i :: 1 <= i <= |h| ==> !OccursAt(h, "HSstd", i);
    assert forall t :: |t| == 8 ==> forall i :: 0 <= i <= |h| ==> !OccursAt(h, t, i);
  }

  // ---------------------------------------------------------------------
  // The inputs of one ingestion

  /** What the metadata extraction of one raw file gives. */
  datatype Extraction =
    | Extracted(sample: SampleEntry, project: ProjectEntry)
    | Corrupt              // the reader raised ArgumentOutOfRangeException
    | Empty                // the reader raised IndexOutOfRangeException
    | Failed(fault: Fault) // any other exception of the extraction, passed on

  /**
   * The Julian date pandas gives a CreationDate cell; None for NULL, whose
   * Julian date is NaN. A number is read as nanoseconds since 1970.
   */
  function JulianOf(v: Value, julian: string -> real): Option<real>
  {
    match v
    case Text(t) => Some(julian(t))
    case Number(x) => Some(2440587.5 + x / 86400000000000.0)
    case Null => None
  }

  /** `TimeDiff > DaysWaiting`, with TimeDiff the latest family sample's date minus the new one's. */
  predicate TooOld(latest: Value, created: string, julian: string -> real, daysWaiting: int)
  {
    var j := JulianOf(latest, julian);
    j.Some? && j.value - julian(created) > daysWaiting as real
  }

  function StagedAt(w: World, name: string): Option<StagedFile>
  {
    if name in w.staged then Some(w.staged[name]) else None
  }

  // ---------------------------------------------------------------------
  // The engine as functions of the world

  /**
   * FillDatabaseWithJson on the staged unit `file`: IndexError for a name
   * with too few tokens, NoFittingProjectFound while the family has no
   * project; otherwise the sample is written under the chosen family
   * ProjectID, and the file is removed once the write has returned.
   */
  function WithJsonOn(w: World, file: string): (Result<()>, World)
  {
    var sp := SplitProjectName(file);
    if sp.Err? then (Err(sp.fault), w)
    else if !w.dbOnline then (Err(DatabaseError), w)
    else
      var fam := Family(w, sp.value.sqlPattern);
      if |fam| == 0 then (Err(NoFittingProjectFound), w)
      else WriteStagedOn(w, file, fam, sp.value.date)
  }

  /**
   * The rest of FillDatabaseWithJson once the family has projects: the unit
   * is read, its ProjectID replaced by the family's choice, and the file
   * removed after the write. A failure changes nothing.
   */
  function WriteStagedOn(w: World, file: string, fam: seq<ProjectEntry>, date: string): (r: (Result<()>, World))
    ensures r.0.Err? ==> r.1 == w && r.0 != Err(NoFittingProjectFound)
  {
    var rd := ReadJson(StagedAt(w, file));
    if rd.Err? then (Err(rd.fault), w)
    else
      var pid := ClosestProject(fam, date);
      if pid.Err? then (Err(pid.fault), w)
      else
        var written := WriteSampleEntriesOn(w, rd.value.0.(projectId := pid.value), None);
        if written.0.Err? then written
        else (Ok(()), written.1.(staged := written.1.staged - {file}))
  }

  /** FillDatabaseWithJson_KeepProject: the unit as it was staged, project included. */
  function KeepProjectOn(w: World, file: string): (Result<()>, World)
  {
    var rd := ReadJson(StagedAt(w, file));
    if rd.Err? then (Err(rd.fault), w)
    else
      var written := WriteSampleEntriesOn(w, rd.value.0, Some(rd.value.1));
      if written.0.Err? then written
      else (Ok(()), written.1.(staged := written.1.staged - {file}))
  }

  /**
   * Keeping a staged unit's own project: it succeeds exactly when the unit
   * reads and the database is reachable; then the project is appended unless
   * its ProjectID exists, the sample row unless its name is a key, and
   * exactly the unit leaves the folder. A failure changes nothing.
   */
  lemma KeepProjectEffect(w: World, file: string)
    ensures var r := KeepProjectOn(w, file);
      && (r.0.Ok? <==> ReadJson(StagedAt(w, file)).Ok? && w.dbOnline)
      && (r.0.Err? ==> r.1 == w)
      && (r.0.Ok? ==>
            var s, p := ReadJson(StagedAt(w, file)).value.0, ReadJson(StagedAt(w, file)).value.1;
            && file in w.staged
            && r.1 == w.(projects := (if HasProject(w, p.projectId) then w.projects else w.projects + [p]),
                         samples := (if IsSampleKey(w, s.sampleName) then w.samples
                                     else w.samples + [NewRow(SampleInsertColumns, SampleTuple(s))]),
                         staged := w.staged - {file}))
  {
    var rd := ReadJson(StagedAt(w, file));
    if rd.Ok? {
      WriteSampleEntriesEffect(w, rd.value.0, Some(rd.value.1));
    }
  }

  /**
   * _process_pending_temp_files over the folder listing `files`: each name
   * the family regex finds goes through FillDatabaseWithJson; only
   * NoFittingProjectFound is caught.
   */
  function PendingOn(w: World, regex: seq<PatItem>, files: seq<string>): (Result<()>, World)
    decreases |files|
  {
    if |files| == 0 then (Ok(()), w)
    else if !Search(regex, files[0]) then PendingOn(w, regex, files[1..])
    else
      var r := WithJsonOn(w, files[0]);
      if r.0 == Err(NoFittingProjectFound) then PendingOn(r.1, regex, files[1..])
      else if r.0.Err? then r
      else PendingOn(r.1, regex, files[1..])
  }

  /** The standard-sample branch once no exact project exists. */
  function StandardOn(w: World, s: SampleEntry, p: ProjectEntry, sp: ProjectName,
                      julian: string -> real, daysWaiting: int): (Result<()>, World)
  {
    var fam := Family(w, sp.sqlPattern);
    if |fam| == 0 then (Ok(()), SaveToJsonOn(w, p, s))
    else
      var latest := LatestFamilyDate(w, sp.sqlPattern);
      if latest.None? then (Ok(()), w)
      else if TooOld(latest.value, s.creationDate, julian, daysWaiting) then (Ok(()), SaveToJsonOn(w, p, s))
      else
        var pid := ClosestProject(fam, sp.date);
        if pid.Err? then (Err(pid.fault), w)
        else WriteSampleEntriesOn(w, s.(projectId := pid.value), None)
  }

  /**
   * _handle_hela_and_project_matching, with `listing` the staging folder's
   * listing read after the new project is written.
   */
  function HandleOn(w: World, s: SampleEntry, p: ProjectEntry, julian: string -> real,
                    daysWaiting: int, listing: seq<string>): (Result<()>, World)
  {
    var sp := SplitProjectName(p.projectId);
    if sp.Err? then (Err(sp.fault), w)
    else if !w.dbOnline then (Err(DatabaseError), w)
    else if HasProject(w, p.projectId) then WriteSampleEntriesOn(w, s, None)
    else if IsStandardSample(s.sampleName) then StandardOn(w, s, p, sp.value, julian, daysWaiting)
    else NewProjectOn(w, s, p, sp.value.regex, listing)
  }

  /** The non-standard branch once no exact project exists: project and sample, then the pending pass. */
  function NewProjectOn(w: World, s: SampleEntry, p: ProjectEntry, regex: seq<PatItem>,
                        listing: seq<string>): (Result<()>, World)
  {
    var written := WriteSampleEntriesOn(w, s, Some(p));
    if written.0.Err? then written
    else PendingOn(written.1, regex, listing)
  }

  /** FillDatabase: the reader's two faults are renamed; any other fault passes. */
  function FillDatabaseOn(w: World, x: Extraction, julian: string -> real,
                          daysWaiting: int, listing: seq<string>): (Result<()>, World)
  {
    match x
    case Corrupt => (Err(HandlingCorruptFileError), w)
    case Empty => (Err(HandlingEmptyFileError), w)
    case Failed(f) => (Err(f), w)
    case Extracted(s, p) => HandleOn(w, s, p, julian, daysWaiting, listing)
  }

  /** FillDatabase_Error: a row of the path as given, its own ProjectID and the error text. */
  function FillErrorOn(w: World, path: string, error: string): (Result<()>, World)
  {
    var sp := SplitProjectName(path);
    if sp.Err? then (Err(sp.fault), w)
    else if !w.dbOnline then (Err(DatabaseError), w)
    else WriteCorruptFileOn(w, path, sp.value.projectId, error)
  }

  /** _handle_hela_and_project_matching_ReplaceError: like the handler, but every path updates. */
  function ReplaceHandleOn(w: World, s: SampleEntry, p: ProjectEntry): (Result<()>, World)
  {
    var sp := SplitProjectName(p.projectId);
    if sp.Err? then (Err(sp.fault), w)
    else if !w.dbOnline then (Err(DatabaseError), w)
    else if HasProject(w, p.projectId) then ReplaceErrorRow(w, s, None)
    else if IsStandardSample(s.sampleName) then
      var fam := Family(w, sp.value.sqlPattern);
      if |fam| == 0 then ReplaceErrorRow(w, s, Some(p))
      else
        var pid := ClosestProject(fam, sp.value.date);
        if pid.Err? then (Err(pid.fault), w)
        else ReplaceErrorRow(w, s.(projectId := pid.value), None)
    else ReplaceErrorRow(w, s, Some(p))
  }

  function ReplaceErrorFileOn(w: World, x: Extraction): (Result<()>, World)
  {
    match x
    case Corrupt => (Err(HandlingCorruptFileError), w)
    case Empty => (Err(HandlingEmptyFileError), w)
    case Failed(f) => (Err(f), w)
    case Extracted(s, p) => ReplaceHandleOn(w, s, p)
  }

  // ---------------------------------------------------------------------
  // Properties

  /** The facts every path of the engine keeps: the flags, and only writes that add. */
  predicate Grows(w: World, w': World)
  {
    && w'.dbOnline == w.dbOnline && w'.folderWritable == w.folderWritable
    && |w.samples| <= |w'.samples| && w'.samples[..|w.samples|] == w.samples
    && w'.staged.Keys <= w.staged.Keys
  }

  lemma GrowsKeepsKeys(w: World, w': World, name: string)
    requires Grows(w, w') && IsSampleKey(w, name)
    ensures IsSampleKey(w', name)
  {
    var i :| 0 <= i < |w.samples| && Cell(w.samples[i], NameColumn) == Text(name);
    assert w'.samples[i] == w.samples[i];
  }

  /**
   * FillDatabaseWithJson raises NoFittingProjectFound exactly when the
   * family has no project, and then changes nothing; any failure keeps the
   * staged file; a success removes it, writes no project, and leaves the
   * unit's sample in the table.
   */
  lemma WithJsonEffect(w: World, file: string)
    ensures var r := WithJsonOn(w, file);
      && (r.0 == Err(NoFittingProjectFound) <==>
            SplitProjectName(file).Ok? && w.dbOnline && |Family(w, SplitProjectName(file).value.sqlPattern)| == 0)
      && (r.0 == Err(NoFittingProjectFound) ==> r.1 == w)
      && (r.0.Err? ==> r.1.staged == w.staged)
      && (r.0.Ok? ==>
            && file in w.staged && r.1.staged == w.staged - {file}
            && ReadJson(StagedAt(w, file)).Ok?
            && IsSampleKey(r.1, ReadJson(StagedAt(w, file)).value.0.sampleName))
      && r.1.projects == w.projects
      && Grows(w, r.1)
  {
    var sp := SplitProjectName(file);
    if sp.Ok? && w.dbOnline && |Family(w, sp.value.sqlPattern)| > 0 {
      var fam := Family(w, sp.value.sqlPattern);
      assert WithJsonOn(w, file) == WriteStagedOn(w, file, fam, sp.value.date);
      WriteStagedEffect(w, file, fam, sp.value.date);
    }
  }

  /** A successful write of a staged unit adds its sample (unless the name is a key) and drops the file. */
  lemma WriteStagedEffect(w: World, file: string, fam: seq<ProjectEntry>, date: string)
    requires w.dbOnline
    ensures var r := WriteStagedOn(w, file, fam, date);
      r.0.Ok? ==>
        && file in w.staged && ReadJson(StagedAt(w, file)).Ok?
        && var s := ReadJson(StagedAt(w, file)).value.0.(projectId := ClosestProject(fam, date).value);
           && IsSampleKey(r.1, s.sampleName)
           && r.1 == w.(samples := (if IsSampleKey(w, s.sampleName) then w.samples else w.samples + [NewRow(SampleInsertColumns, SampleTuple(s))]),
                        staged := w.staged - {file})
  {
    var rd := ReadJson(StagedAt(w, file));
    var pid := ClosestProject(fam, date);
    if rd.Ok? && pid.Ok? {
      var s := rd.value.0.(projectId := pid.value);
      WriteSampleEntriesEffect(w, s, None);
      if !IsSampleKey(w, s.sampleName) {
        InsertedSampleRow(s);
        AppendKeepsKeys(w.samples, NewRow(SampleInsertColumns, SampleTuple(s)), s.sampleName);
      }
    }
  }

  /** The staged unit written by the family's choice: its ProjectID is a member of the family. */
  lemma WithJsonChoosesFamilyMember(w: World, file: string)
    requires SplitProjectName(file).Ok? && w.dbOnline
    requires |Family(w, SplitProjectName(file).value.sqlPattern)| > 0
    requires ClosestProject(Family(w, SplitProjectName(file).value.sqlPattern), SplitProjectName(file).value.date).Ok?
    ensures var pid := ClosestProject(Family(w, SplitProjectName(file).value.sqlPattern), SplitProjectName(file).value.date).value;
      && HasProject(w, pid)
      && Like(pid, SplitProjectName(file).value.sqlPattern)
  {
    var sp := SplitProjectName(file).value;
    ClosestInFamily(w, sp.sqlPattern, sp.date);
  }

  /** The pending pass writes no project, only adds sample rows, and only removes staged files. */
  lemma {:induction false} PendingEffect(w: World, regex: seq<PatItem>, files: seq<string>)
    ensures PendingOn(w, regex, files).1.projects == w.projects
    ensures Grows(w, PendingOn(w, regex, files).1)
    decreases |files|
  {
    if |files| > 0 {
      if !Search(regex, files[0]) {
        PendingEffect(w, regex, files[1..]);
      } else {
        var r := WithJsonOn(w, files[0]);
        WithJsonEffect(w, files[0]);
        if !r.0.Err? || r.0 == Err(NoFittingProjectFound) {
          PendingEffect(r.1, regex, files[1..]);
          GrowsTransitive(w, r.1, PendingOn(r.1, regex, files[1..]).1);
        }
      }
    }
  }

  /**
   * The converse of PendingKeepsUnfitting: when the pass succeeds, every
   * listed unit the family regex finds and whose family has a project has
   * been written and removed from the folder.
   */
  lemma {:induction false} PendingDrains(w: World, regex: seq<PatItem>, files: seq<string>, f: string)
    requires f in files && Search(regex, f)
    requires SplitProjectName(f).Ok? && |Family(w, SplitProjectName(f).value.sqlPattern)| > 0
    ensures PendingOn(w, regex, files).0.Ok? ==> f !in PendingOn(w, regex, files).1.staged
    decreases |files|
  {
    var r := WithJsonOn(w, files[0]);
    if files[0] == f {
      WithJsonEffect(w, f);
      if r.0.Ok? {
        PendingEffect(r.1, regex, files[1..]);
      }
    } else if !Search(regex, files[0]) {
      PendingDrains(w, regex, files[1..], f);
    } else {
      WithJsonEffect(w, files[0]);
      if r.0 == Err(NoFittingProjectFound) || r.0.Ok? {
        FamilyOfUnchangedProjects(w, r.1, f);
        PendingDrains(r.1, regex, files[1..], f);
      }
    }
  }

  lemma GrowsTransitive(a: World, b: World, c: World)
    requires Grows(a, b) && Grows(b, c)
    ensures Grows(a, c)
  {
    assert c.samples[..|a.samples|] == c.samples[..|b.samples|][..|a.samples|];
  }

  /** A unit the family regex does not find, or whose family has no project yet, stays staged. */
  lemma PendingKeepsUnfitting(w: World, regex: seq<PatItem>, files: seq<string>, f: string)
    requires f in w.staged && f in files
    requires !Search(regex, f) || (SplitProjectName(f).Ok? && |Family(w, SplitProjectName(f).value.sqlPattern)| == 0)
    requires forall i, j :: 0 <= i < j < |files| ==> files[i] != files[j]
    ensures f in PendingOn(w, regex, files).1.staged
    decreases |files|
  {
    if files[0] == f {
      var r := WithJsonOn(w, f);
      if Search(regex, f) {
        WithJsonEffect(w, f);
        if w.dbOnline {
          assert r.0 == Err(NoFittingProjectFound);
        }
      }
      if r.1 == w || !Search(regex, f) {
        PendingNeverRemovesOthers(w, regex, files[1..], f);
      }
    } else {
      assert f in files[1..];
      assert forall i, j :: 0 <= i < j < |files[1..]| ==> files[1..][i] != files[1..][j] by {
        forall i, j | 0 <= i < j < |files[1..]| ensures files[1..][i] != files[1..][j] {
          assert files[1..][i] == files[i + 1] && files[1..][j] == files[j + 1];
        }
      }
      if Search(regex, files[0]) {
        var r := WithJsonOn(w, files[0]);
        WithJsonEffect(w, files[0]);
        if r.0.Err? && r.0 != Err(NoFittingProjectFound) {
        } else {
          assert f in r.1.staged;
          FamilyOfUnchangedProjects(w, r.1, f);
          PendingKeepsUnfitting(r.1, regex, files[1..], f);
        }
      } else {
        PendingKeepsUnfitting(w, regex, files[1..], f);
      }
    }
  }

  lemma FamilyOfUnchangedProjects(w: World, w': World, f: string)
    requires w'.projects == w.projects
    ensures SplitProjectName(f).Ok? ==>
      Family(w', SplitProjectName(f).value.sqlPattern) == Family(w, SplitProjectName(f).value.sqlPattern)
  {
  }

  /** The pending pass removes no staged file other than the ones it lists. */
  lemma {:induction false} PendingNeverRemovesOthers(w: World, regex: seq<PatItem>, files: seq<string>, f: string)
    requires f in w.staged && f !in files
    ensures f in PendingOn(w, regex, files).1.staged
    decreases |files|
  {
    if |files| > 0 {
      if Search(regex, files[0]) {
        var r := WithJsonOn(w, files[0]);
        WithJsonEffect(w, files[0]);
        if !r.0.Err? || r.0 == Err(NoFittingProjectFound) {
          PendingNeverRemovesOthers(r.1, regex, files[1..], f);
        }
      } else {
        PendingNeverRemovesOthers(w, regex, files[1..], f);
      }
    }
  }

  /**
   * An exact ProjectID match writes the sample only, under its own ProjectID:
   * no project row, nothing staged, and the sample row only if its name is new.
   */
  lemma ExactMatchWritesSampleOnly(w: World, s: SampleEntry, p: ProjectEntry, julian: string -> real,
                                   daysWaiting: int, listing: seq<string>)
    requires SplitProjectName(p.projectId).Ok? && w.dbOnline && HasProject(w, p.projectId)
    ensures HandleOn(w, s, p, julian, daysWaiting, listing)
      == (Ok(()), w.(samples := (if IsSampleKey(w, s.sampleName) then w.samples else w.samples + [NewRow(SampleInsertColumns, SampleTuple(s))])))
  {
    assert HandleOn(w, s, p, julian, daysWaiting, listing) == WriteSampleEntriesOn(w, s, None);
    WriteSampleEntriesEffect(w, s, None);
  }

  /** Committing the same extracted sample again leaves the world as the first commit left it. */
  lemma ExactMatchRecommitIsNoOp(w: World, s: SampleEntry, p: ProjectEntry, julian: string -> real,
                                 daysWaiting: int, listing: seq<string>)
    requires SplitProjectName(p.projectId).Ok? && w.dbOnline && HasProject(w, p.projectId)
    ensures var w1 := HandleOn(w, s, p, julian, daysWaiting, listing).1;
      HandleOn(w1, s, p, julian, daysWaiting, listing) == (Ok(()), w1)
  {
    ExactMatchWritesSampleOnly(w, s, p, julian, daysWaiting, listing);
    var row := NewRow(SampleInsertColumns, SampleTuple(s));
    var w1 := w.(samples := (if IsSampleKey(w, s.sampleName) then w.samples else w.samples + [row]));
    if !IsSampleKey(w, s.sampleName) {
      InsertedSampleRow(s);
      AppendKeepsKeys(w.samples, row, s.sampleName);
    }
    assert HandleOn(w1, s, p, julian, daysWaiting, listing) == WriteSampleEntriesOn(w1, s, None);
    RewriteIsNoOp(w1, s);
  }

  /**
   * A standard sample whose family has no project is staged: both tables are
   * unchanged, and the unit under its staging name reads back as the sample
   * and its project.
   */
  lemma StandardWithoutFamilyIsStaged(w: World, s: SampleEntry, p: ProjectEntry, julian: string -> real,
                                      daysWaiting: int, listing: seq<string>)
    requires SplitProjectName(p.projectId).Ok? && w.dbOnline && !HasProject(w, p.projectId)
    requires IsStandardSample(s.sampleName)
    requires |Family(w, SplitProjectName(p.projectId).value.sqlPattern)| == 0
    ensures var r := HandleOn(w, s, p, julian, daysWaiting, listing);
      && r.0 == Ok(())
      && r.1.projects == w.projects && r.1.samples == w.samples
      && (w.folderWritable ==> ReadJson(StagedAt(r.1, StagingName(w.staged.Keys, s, p))) == Ok((s, p)))
  {
    SaveToJsonEffect(w, p, s);
    SaveThenRead(s, p);
  }

  /**
   * A standard sample whose family has projects: with no family sample
   * nothing happens; otherwise it is staged (tables unchanged) exactly when
   * the latest family sample is more than DaysWaiting days newer, and else
   * written, without a project row, under a ProjectID of the family.
   */
  lemma StandardWithFamily(w: World, s: SampleEntry, p: ProjectEntry, julian: string -> real,
                           daysWaiting: int, listing: seq<string>)
    requires SplitProjectName(p.projectId).Ok? && w.dbOnline && !HasProject(w, p.projectId)
    requires IsStandardSample(s.sampleName)
    requires |Family(w, SplitProjectName(p.projectId).value.sqlPattern)| > 0
    ensures var sp := SplitProjectName(p.projectId).value;
      var latest := LatestFamilyDate(w, sp.sqlPattern);
      var pid := ClosestProject(Family(w, sp.sqlPattern), sp.date);
      var r := HandleOn(w, s, p, julian, daysWaiting, listing);
      && (latest.None? ==> r == (Ok(()), w))
      && (latest.Some? && TooOld(latest.value, s.creationDate, julian, daysWaiting) ==>
            && r.0 == Ok(()) && r.1.projects == w.projects && r.1.samples == w.samples
            && (w.folderWritable ==> ReadJson(StagedAt(r.1, StagingName(w.staged.Keys, s, p))) == Ok((s, p))))
      && (latest.Some? && !TooOld(latest.value, s.creationDate, julian, daysWaiting) ==>
            r.1.staged == w.staged && r.1.projects == w.projects)
      && (latest.Some? && !TooOld(latest.value, s.creationDate, julian, daysWaiting) && pid.Ok? ==>
            && r.0 == Ok(()) && HasProject(w, pid.value) && Like(pid.value, sp.sqlPattern)
            && r.1.samples == (if IsSampleKey(w, s.sampleName) then w.samples else w.samples + [NewRow(SampleInsertColumns, SampleTuple(s.(projectId := pid.value)))]))
  {
    var sp := SplitProjectName(p.projectId).value;
    assert HandleOn(w, s, p, julian, daysWaiting, listing) == StandardOn(w, s, p, sp, julian, daysWaiting);
    var latest := LatestFamilyDate(w, sp.sqlPattern);
    if latest.Some? {
      if TooOld(latest.value, s.creationDate, julian, daysWaiting) {
        StandardStaged(w, s, p, sp, julian, daysWaiting);
      } else {
        StandardWritten(w, s, p, sp, julian, daysWaiting);
      }
    }
  }

  /** A standard sample too far behind its family's latest sample is staged; the tables stay as they were. */
  lemma StandardStaged(w: World, s: SampleEntry, p: ProjectEntry, sp: ProjectName,
                       julian: string -> real, daysWaiting: int)
    requires |Family(w, sp.sqlPattern)| > 0 && LatestFamilyDate(w, sp.sqlPattern).Some?
    requires TooOld(LatestFamilyDate(w, sp.sqlPattern).value, s.creationDate, julian, daysWaiting)
    ensures var r := StandardOn(w, s, p, sp, julian, daysWaiting);
      && r.0 == Ok(()) && r.1.projects == w.projects && r.1.samples == w.samples
      && (w.folderWritable ==> ReadJson(StagedAt(r.1, StagingName(w.staged.Keys, s, p))) == Ok((s, p)))
  {
    assert StandardOn(w, s, p, sp, julian, daysWaiting) == (Ok(()), SaveToJsonOn(w, p, s));
    SaveToJsonEffect(w, p, s);
    SaveThenRead(s, p);
  }

  /** A standard sample close enough to its family is written under the family's chosen ProjectID. */
  lemma StandardWritten(w: World, s: SampleEntry, p: ProjectEntry, sp: ProjectName,
                        julian: string -> real, daysWaiting: int)
    requires w.dbOnline && |Family(w, sp.sqlPattern)| > 0 && LatestFamilyDate(w, sp.sqlPattern).Some?
    requires !TooOld(LatestFamilyDate(w, sp.sqlPattern).value, s.creationDate, julian, daysWaiting)
    ensures var pid := ClosestProject(Family(w, sp.sqlPattern), sp.date);
      var r := StandardOn(w, s, p, sp, julian, daysWaiting);
      && r.1.staged == w.staged && r.1.projects == w.projects
      && (pid.Ok? ==>
            && r.0 == Ok(()) && HasProject(w, pid.value) && Like(pid.value, sp.sqlPattern)
            && r.1.samples == (if IsSampleKey(w, s.sampleName) then w.samples else w.samples + [NewRow(SampleInsertColumns, SampleTuple(s.(projectId := pid.value)))]))
  {
    var pid := ClosestProject(Family(w, sp.sqlPattern), sp.date);
    if pid.Ok? {
      assert StandardOn(w, s, p, sp, julian, daysWaiting) == WriteSampleEntriesOn(w, s.(projectId := pid.value), None);
      WriteSampleEntriesEffect(w, s.(projectId := pid.value), None);
      ClosestInFamily(w, sp.sqlPattern, sp.date);
    }
  }

  /** The ProjectID chosen from a family is a project of the table that the pattern matches. */
  lemma ClosestInFamily(w: World, pattern: string, date: string)
    requires ClosestProject(Family(w, pattern), date).Ok?
    ensures var pid := ClosestProject(Family(w, pattern), date).value;
      HasProject(w, pid) && Like(pid, pattern)
  {
    var fam := Family(w, pattern);
    ClosestIsEarliest(fam, date);
    var k := FirstMinIndex(DateCodes(fam));
    assert fam[k] in fam;
    var j :| 0 <= j < |w.projects| && w.projects[j] == fam[k];
  }

  /**
   * A non-standard sample without an exact project creates its project and
   * its sample; the pending pass that follows keeps both, writes no other
   * project, and only adds sample rows.
   */
  lemma NonStandardCreatesProject(w: World, s: SampleEntry, p: ProjectEntry, julian: string -> real,
                                  daysWaiting: int, listing: seq<string>)
    requires SplitProjectName(p.projectId).Ok? && w.dbOnline && !HasProject(w, p.projectId)
    requires !IsStandardSample(s.sampleName)
    ensures var r := HandleOn(w, s, p, julian, daysWaiting, listing);
      && r.1.projects == w.projects + [p]
      && IsSampleKey(r.1, s.sampleName)
      && Grows(w, r.1)
  {
    var sp := SplitProjectName(p.projectId).value;
    assert HandleOn(w, s, p, julian, daysWaiting, listing) == NewProjectOn(w, s, p, sp.regex, listing);
    NewProjectEffect(w, s, p, sp.regex, listing);
  }

  /** The project and the sample written first survive the pending pass, which only adds rows. */
  lemma NewProjectEffect(w: World, s: SampleEntry, p: ProjectEntry, regex: seq<PatItem>, listing: seq<string>)
    requires w.dbOnline && !HasProject(w, p.projectId)
    ensures var r := NewProjectOn(w, s, p, regex, listing);
      && r.1.projects == w.projects + [p]
      && IsSampleKey(r.1, s.sampleName)
      && Grows(w, r.1)
  {
    var row := NewRow(SampleInsertColumns, SampleTuple(s));
    var w1 := w.(projects := w.projects + [p], samples := if IsSampleKey(w, s.sampleName) then w.samples else w.samples + [row]);
    WriteSampleEntriesEffect(w, s, Some(p));
    assert NewProjectOn(w, s, p, regex, listing) == PendingOn(w1, regex, listing);
    if !IsSampleKey(w, s.sampleName) {
      InsertedSampleRow(s);
      AppendKeepsKeys(w.samples, row, s.sampleName);
    }
    PendingEffect(w1, regex, listing);
    var w2 := PendingOn(w1, regex, listing).1;
    GrowsKeepsKeys(w1, w2, s.sampleName);
    assert Grows(w, w1);
    GrowsTransitive(w, w1, w2);
  }

  /**
   * FillDatabase_Error stores the ProjectID derived from the path itself,
   * whatever projects exist: the new row holds the path, that ProjectID and
   * the error text, and nothing else.
   */
  lemma FillErrorKeepsOwnProjectId(w: World, path: string, error: string)
    requires SplitProjectName(path).Ok? && w.dbOnline
    ensures var r := FillErrorOn(w, path, error);
      var row := NewRow(CorruptColumns, [Text(path), Text(SplitProjectName(path).value.projectId), Text(error)]);
      && r.0 == Ok(())
      && r.1 == w.(samples := (if IsSampleKey(w, path) then w.samples else w.samples + [row]))
      && Cell(row, NameColumn) == Text(path)
      && Cell(row, "ProjectID") == Text(SplitProjectName(path).value.projectId)
      && Cell(row, ErrorColumn) == Text(error)
      && Cell(row, "CreationDate") == Null
  {
    var pid := SplitProjectName(path).value.projectId;
    assert FillErrorOn(w, path, error) == WriteCorruptFileOn(w, path, pid, error);
    CorruptRowCells(path, pid, error);
    WriteCorruptFileEffect(w, path, pid, error);
  }

  /**
   * Replacing never stages: the folder is untouched on every path. An exact
   * match writes no project.
   */
  lemma ReplaceNeverStages(w: World, s: SampleEntry, p: ProjectEntry)
    ensures ReplaceHandleOn(w, s, p).1.staged == w.staged
    ensures SplitProjectName(p.projectId).Ok? && w.dbOnline && HasProject(w, p.projectId) ==>
      ReplaceHandleOn(w, s, p).1.projects == w.projects
  {
    var sp := SplitProjectName(p.projectId);
    if sp.Ok? && w.dbOnline {
      var fam := Family(w, sp.value.sqlPattern);
      var pid := ClosestProject(fam, sp.value.date);
      if HasProject(w, p.projectId) {
        assert ReplaceHandleOn(w, s, p) == ReplaceErrorRow(w, s, None);
        ReplaceErrorRowKeepsFolder(w, s, None);
      } else if IsStandardSample(s.sampleName) && |fam| > 0 {
        if pid.Ok? {
          assert ReplaceHandleOn(w, s, p) == ReplaceErrorRow(w, s.(projectId := pid.value), None);
          ReplaceErrorRowKeepsFolder(w, s.(projectId := pid.value), None);
        }
      } else {
        assert ReplaceHandleOn(w, s, p) == ReplaceErrorRow(w, s, Some(p));
        ReplaceErrorRowKeepsFolder(w, s, Some(p));
      }
    }
  }

  /**
   * The evident intent, which the current engine implements: the same sample
   * is stored under the family's earliest ProjectID.
   */
  lemma ReplaceStoresFamilyProjectId(w: World, s: SampleEntry, p: ProjectEntry, sp: ProjectName)
    requires w.dbOnline && !HasProject(w, p.projectId) && IsStandardSample(s.sampleName)
    requires SplitProjectName(p.projectId) == Ok(sp)
    requires |Family(w, sp.sqlPattern)| > 0 && ClosestProject(Family(w, sp.sqlPattern), sp.date).Ok?
    ensures var pid := ClosestProject(Family(w, sp.sqlPattern), sp.date).value;
      var r := ReplaceHandleOn(w, s, p);
      && r.0 == Ok(())
      && r.1.projects == w.projects
      && |r.1.samples| == |w.samples|
      && forall i :: 0 <= i < |w.samples| && MatchesName(w.samples[i], Text(s.sampleName)) ==>
           Cell(r.1.samples[i], "ProjectID") == Text(pid)
  {
    var pid := ClosestProject(Family(w, sp.sqlPattern), sp.date).value;
    ReplaceHandleBranch(w, s, p, sp);
    UpdateStoresProjectId(w, s.(projectId := pid));
  }

  lemma ReplaceHandleBranch(w: World, s: SampleEntry, p: ProjectEntry, sp: ProjectName)
    requires w.dbOnline && !HasProject(w, p.projectId) && IsStandardSample(s.sampleName)
    requires SplitProjectName(p.projectId) == Ok(sp)
    requires |Family(w, sp.sqlPattern)| > 0 && ClosestProject(Family(w, sp.sqlPattern), sp.date).Ok?
    ensures var pid := ClosestProject(Family(w, sp.sqlPattern), sp.date).value;
      ReplaceHandleOn(w, s, p) == ReplaceErrorRow(w, s.(projectId := pid), None)
  {
  }

  /**
   * An unreachable database changes nothing, and every entry point fails:
   * with DatabaseError once the step before the first query (splitting the
   * name, reading the staged unit) has succeeded.
   */
  lemma OfflineChangesNothing(w: World, s: SampleEntry, p: ProjectEntry, julian: string -> real,
                              daysWaiting: int, listing: seq<string>, file: string, error: string)
    requires !w.dbOnline
    ensures HandleOn(w, s, p, julian, daysWaiting, listing).1 == w
    ensures WithJsonOn(w, file).1 == w && KeepProjectOn(w, file).1 == w
    ensures FillErrorOn(w, file, error).1 == w && ReplaceHandleOn(w, s, p).1 == w
    ensures HandleOn(w, s, p, julian, daysWaiting, listing).0.Err? && WithJsonOn(w, file).0.Err?
    ensures KeepProjectOn(w, file).0.Err? && FillErrorOn(w, file, error).0.Err? && ReplaceHandleOn(w, s, p).0.Err?
    ensures SplitProjectName(p.projectId).Ok? ==> HandleOn(w, s, p, julian, daysWaiting, listing).0 == Err(DatabaseError)
    ensures SplitProjectName(file).Ok? ==> WithJsonOn(w, file).0 == Err(DatabaseError)
    ensures ReadJson(StagedAt(w, file)).Ok? ==> KeepProjectOn(w, file).0 == Err(DatabaseError)
  {
  }

  // ---------------------------------------------------------------------
  // The engine on the store object

  method FillDatabaseWithJson(site: Site, file: string) returns (r: Result<()>)
    modifies site
    ensures (r, site.State()) == WithJsonOn(old(site.State()), file)
  {
    var sp := SplitProjectName(file);
    if sp.Err? {
      return Err(sp.fault);
    }
    var fam := site.QueryFamily(sp.value.sqlPattern);
    if fam.Err? {
      return Err(fam.fault);
    }
    if |fam.value| == 0 {
      return Err(NoFittingProjectFound);
    }
    var rd := ReadJson(StagedAt(site.State(), file));
    if rd.Err? {
      return Err(rd.fault);
    }
    var s := rd.value.0;
    var pid := ClosestProject(fam.value, sp.value.date);
    if pid.Err? {
      return Err(pid.fault);
    }
    s := s.(projectId := pid.value);
    r := site.WriteSampleEntries(s, None);
    if r.Err? {
      return;
    }
    site.RemoveStaged(file);
  }

  method FillDatabaseWithJsonKeepProject(site: Site, file: string) returns (r: Result<()>)
    modifies site
    ensures (r, site.State()) == KeepProjectOn(old(site.State()), file)
  {
    var rd := ReadJson(StagedAt(site.State(), file));
    if rd.Err? {
      return Err(rd.fault);
    }
    r := site.WriteSampleEntries(rd.value.0, Some(rd.value.1));
    if r.Err? {
      return;
    }
    site.RemoveStaged(file);
  }

  method ProcessPendingTempFiles(site: Site, regex: seq<PatItem>, listing: seq<string>) returns (r: Result<()>)
    modifies site
    ensures (r, site.State()) == PendingOn(old(site.State()), regex, listing)
  {
    var i := 0;
    while i < |listing|
      invariant 0 <= i <= |listing|
      invariant PendingOn(old(site.State()), regex, listing) == PendingOn(site.State(), regex, listing[i..])
    {
      assert listing[i..][1..] == listing[i + 1..];
      if Search(regex, listing[i]) {
        var e := FillDatabaseWithJson(site, listing[i]);
        if e.Err? && e != Err(NoFittingProjectFound) {
          return e;
        }
      }
      i := i + 1;
    }
    r := Ok(());
  }

  method HandleHelaAndProjectMatching(site: Site, s: SampleEntry, p: ProjectEntry, julian: string -> real,
                                      daysWaiting: int, listing: seq<string>) returns (r: Result<()>)
    modifies site
    ensures (r, site.State()) == HandleOn(old(site.State()), s, p, julian, daysWaiting, listing)
  {
    var sp := SplitProjectName(p.projectId);
    if sp.Err? {
      return Err(sp.fault);
    }
    var matching := site.FindMatchingProject(p.projectId);
    if matching.Err? {
      return Err(matching.fault);
    }
    if matching.value.Some? {
      r := site.WriteSampleEntries(s, None);
    } else if IsStandardSample(s.sampleName) {
      var fam := site.QueryFamily(sp.value.sqlPattern);
      if |fam.value| == 0 {
        site.SaveToJson(p, s);
        return Ok(());
      }
      var latest := site.QueryLatestFamilyDate(sp.value.sqlPattern);
      if latest.value.None? {
        return Ok(());
      }
      if TooOld(latest.value.value, s.creationDate, julian, daysWaiting) {
        site.SaveToJson(p, s);
        return Ok(());
      }
      var pid := ClosestProject(fam.value, sp.value.date);
      if pid.Err? {
        return Err(pid.fault);
      }
      var sample := s.(projectId := pid.value);
      r := site.WriteSampleEntries(sample, None);
    } else {
      r := site.WriteSampleEntries(s, Some(p));
      if r.Err? {
        return;
      }
      r := ProcessPendingTempFiles(site, sp.value.regex, listing);
    }
  }

  method FillDatabase(site: Site, x: Extraction, julian: string -> real,
                      daysWaiting: int, listing: seq<string>) returns (r: Result<()>)
    modifies site
    ensures (r, site.State()) == FillDatabaseOn(old(site.State()), x, julian, daysWaiting, listing)
  {
    match x {
      case Corrupt => r := Err(HandlingCorruptFileError);
      case Empty => r := Err(HandlingEmptyFileError);
      case Failed(f) => r := Err(f);
      case Extracted(s, p) => r := HandleHelaAndProjectMatching(site, s, p, julian, daysWaiting, listing);
    }
  }

  method FillDatabaseError(site: Site, path: string, error: string) returns (r: Result<()>)
    modifies site
    ensures (r, site.State()) == FillErrorOn(old(site.State()), path, error)
  {
    var sp := SplitProjectName(path);
    if sp.Err? {
      return Err(sp.fault);
    }
    var pid := sp.value.projectId;
    var matching := site.FindMatchingProject(pid);
    if matching.Err? {
      return Err(matching.fault);
    }
    if matching.value.Some? {
      pid := matching.value.value;
    }
    r := site.WriteCorruptFile(path, pid, error);
  }

  method HandleReplaceError(site: Site, s: SampleEntry, p: ProjectEntry) returns (r: Result<()>)
    modifies site
    ensures (r, site.State()) == ReplaceHandleOn(old(site.State()), s, p)
  {
    var sp := SplitProjectName(p.projectId);
    if sp.Err? {
      return Err(sp.fault);
    }
    var matching := site.FindMatchingProject(p.projectId);
    if matching.Err? {
      return Err(matching.fault);
    }
    if matching.value.Some? {
      r := site.ReplaceErrorFile(s, None);
    } else if IsStandardSample(s.sampleName) {
      var fam := site.QueryFamily(sp.value.sqlPattern);
      if |fam.value| == 0 {
        r := site.ReplaceErrorFile(s, Some(p));
      } else {
        var pid := ClosestProject(fam.value, sp.value.date);
        if pid.Err? {
          return Err(pid.fault);
        }
        var sample := s.(projectId := pid.value);
        r := site.ReplaceErrorFile(sample, None);
      }
    } else {
      r := site.ReplaceErrorFile(s, Some(p));
    }
  }

  method ReplaceErrorFile(site: Site, x: Extraction) returns (r: Result<()>)
    modifies site
    ensures (r, site.State()) == ReplaceErrorFileOn(old(site.State()), x)
  {
    match x {
      case Corrupt => r := Err(HandlingCorruptFileError);
      case Empty => r := Err(HandlingEmptyFileError);
      case Failed(f) => r := Err(f);
      case Extracted(s, p) => r := HandleReplaceError(site, s, p);
    }
  }
}
