// The earlier, single-file variant of the ingestion engine, over the same
// database and staging folder. Records travel as positional lists: a
// sample list of eleven values when a Neo pump was used and of seven
// otherwise, a project list of eight. Duplicate keys are not swallowed,
// staged units are lists, the family pattern keeps the file extension and
// has no trailing wildcard, and a standard sample is never held back by age.

module Legacy {
  import opened Basics
  import opened Paths
  import opened SqlLike
  import opened Entities
  import opened Common
  import opened Staging
  import opened Store
  import Engine
  import Logic

  // ---------------------------------------------------------------------
  // Names

  /**
   * The legacy SplitProjectName: the basename is split as it is, extension
   * included, and the LIKE pattern ends with the third token.
   */
  function SplitProjectName(name: string): (r: Result<ProjectName>)
    ensures r.Err? ==> r.fault == IndexError
  {
    var ts := Split(Basename(name), '_');
    if |ts| < 3 then Err(IndexError)
    else Ok(ProjectName(ts[0] + "_" + ts[1] + "_" + ts[2],
                        FamilyRegex(ts[0], ts[1], ts[2]),
                        ts[0] + "_" + SubTail(ts[1], "__") + "_" + ts[2],
                        ts[1]))
  }

  /**
   * For a file `t0_t1_t2.raw` the legacy ProjectID keeps ".raw" and its
   * pattern has no trailing '%', where the current split drops the
   * extension and ends the pattern with '%'.
   */
  lemma KeepsExtension(t0: string, t1: string, t2: string)
    requires '_' !in t0 && '_' !in t1 && '_' !in t2
    requires '.' !in t0 && '.' !in t1 && '.' !in t2
    requires '/' !in t0 && '/' !in t1 && '/' !in t2
    ensures var name := t0 + "_" + t1 + "_" + t2 + ".raw";
      && SplitProjectName(name).Ok? && Common.SplitProjectName(name).Ok?
      && SplitProjectName(name).value.projectId == t0 + "_" + t1 + "_" + t2 + ".raw"
      && SplitProjectName(name).value.sqlPattern == t0 + "_" + SubTail(t1, "__") + "_" + t2 + ".raw"
      && Common.SplitProjectName(name).value.projectId == t0 + "_" + t1 + "_" + t2
      && Common.SplitProjectName(name).value.sqlPattern == t0 + "_" + SubTail(t1, "__") + "_" + t2 + "%"
  {
    var stem := t0 + "_" + t1 + "_" + t2;
    var name := stem + ".raw";
    CleanProjectId(t0, t1, t2);
    AppendedExt(stem, "raw");
    assert stem + "." + "raw" == name;
    assert Stem(name) == stem;
    FirstThreeTokens(t0, t1, t2, "");
    assert stem + "" == stem;
    var ts := Split(stem, '_');
    assert ts[0] == ts[..3][0] == t0 && ts[1] == ts[..3][1] == t1 && ts[2] == ts[..3][2] == t2;
    assert Common.SplitProjectName(name) == Ok(ProjectName(stem, FamilyRegex(t0, t1, t2), FamilyPattern(t0, t1, t2), t1));
    LegacySplitOfRaw(t0, t1, t2);
  }

  lemma LegacySplitOfRaw(t0: string, t1: string, t2: string)
    requires '_' !in t0 && '_' !in t1 && '_' !in t2
    requires '.' !in t0 && '.' !in t1 && '.' !in t2
    requires '/' !in t0 && '/' !in t1 && '/' !in t2
    ensures var name := t0 + "_" + t1 + "_" + t2 + ".raw";
      && SplitProjectName(name).Ok?
      && SplitProjectName(name).value.projectId == name
      && SplitProjectName(name).value.sqlPattern == t0 + "_" + SubTail(t1, "__") + "_" + t2 + ".raw"
  {
    var t2' := t2 + ".raw";
    var name := t0 + "_" + t1 + "_" + t2';
    assert name == t0 + "_" + t1 + "_" + t2 + ".raw";
    assert '_' !in t2';
    RawNameHasNoSlash(t0, t1, t2);
    FirstThreeTokens(t0, t1, t2', "");
    assert name + "" == name;
    SplitOfLegacyTokens(name, t0, t1, t2');
  }

  /** A name `t0_t1_t2.raw` built from tokens without '/' has no '/'. */
  lemma RawNameHasNoSlash(t0: string, t1: string, t2: string)
    requires '.' !in t0 && '.' !in t1 && '.' !in t2
    requires '/' !in t0 && '/' !in t1 && '/' !in t2
    ensures '/' !in t0 + "_" + t1 + "_" + t2 + ".raw"
  {
    var name := t0 + "_" + t1 + "_" + t2 + ".raw";
    CleanProjectId(t0, t1, t2);
    forall i | 0 <= i < |name| ensures name[i] != '/' {
      if i >= |name| - 4 { assert name[i] in ".raw"; }
      else { assert name[i] == (t0 + "_" + t1 + "_" + t2)[i]; }
    }
  }

  /** A name without '/' whose first three '_'-tokens are t0, t1, t2 splits into them. */
  lemma SplitOfLegacyTokens(name: string, t0: string, t1: string, t2: string)
    requires '/' !in name
    requires var ts := Split(name, '_'); |ts| >= 3 && ts[..3] == [t0, t1, t2]
    ensures SplitProjectName(name)
      == Ok(ProjectName(t0 + "_" + t1 + "_" + t2, FamilyRegex(t0, t1, t2), t0 + "_" + SubTail(t1, "__") + "_" + t2, t1))
  {
    var ts := Split(name, '_');
    assert Basename(name) == name;
    assert ts[0] == ts[..3][0] && ts[1] == ts[..3][1] && ts[2] == ts[..3][2];
  }

  /**
   * `re.sub(".json", "", name)`: every "json" after a character other than a
   * newline is removed together with that character, scanning left to right.
   */
  function StripJson(s: string): (r: string)
    ensures |r| <= |s|
  {
    if |s| < 5 then s
    else if s[0] != '\n' && s[1..5] == "json" then StripJson(s[5..])
    else [s[0]] + StripJson(s[1..])
  }

  /** "json" starts at position i of s. */
  predicate JsonAt(s: string, i: int)
  {
    0 <= i && i + 4 <= |s| && s[i] == 'j' && s[i + 1] == 's' && s[i + 2] == 'o' && s[i + 3] == 'n'
  }

  /** A name in which "json" occurs at most at its very start loses exactly its ".json" extension. */
  lemma {:induction false} StripJsonExtension(s: string)
    requires forall i :: 1 <= i ==> !JsonAt(s, i)
    ensures StripJson(s + ".json") == s
    decreases |s|
  {
    if |s| == 0 {
      assert StripJson(".json") == StripJson("");
    } else {
      var t := s + ".json";
      assert t[1..5] != "json" by {
        if |s| >= 5 {
          assert !JsonAt(s, 1);
          assert t[1..5] == s[1..5];
        } else {
          assert t[1..5][|s| - 1] == '.';
        }
      }
      assert t[1..] == s[1..] + ".json";
      forall i | 1 <= i ensures !JsonAt(s[1..], i) {
        assert !JsonAt(s, i + 1);
      }
      StripJsonExtension(s[1..]);
    }
  }

  /** A real staging name: the only "json" is the extension's. */
  lemma StagingNameStripped()
    ensures StripJson("Proj_20250701_jx.json") == "Proj_20250701_jx"
  {
    var s := "Proj_20250701_jx";
    forall i | 1 <= i ensures !JsonAt(s, i) {
      if 0 <= i < |s| - 1 {
        assert s[i] != 'j' || s[i + 1] != 's';
      }
    }
    StripJsonExtension(s);
    assert s + ".json" == "Proj_20250701_jx.json";
  }

  /** The dot of the pattern is a wildcard: an inner "json" goes too, with the character before it. */
  lemma StripJsonEatsInnerMatches()
    ensures StripJson("ajson.json") == ""
  {
    var t := "ajson.json";
    assert t[1..5] == "json" && t[5..] == ".json";
    assert ".json"[1..5] == "json" && ".json"[5..] == "";
  }

  // ---------------------------------------------------------------------
  // Lists and statements

  /** The columns of the seven-value sample insert. */
  const ShortColumns: seq<string> := [
    "SampleName_ID", "ProjectID", "CreationDate", "Vial", "InjectionVolume",
    "AnalyzerTemp_mean", "AnalyzerTemp_std"]

  /** The columns the seven-value error-row update sets from parameters. */
  const ShortUpdateColumns: seq<string> := [
    "ProjectID", "CreationDate", "Vial", "InjectionVolume", "AnalyzerTemp_mean", "AnalyzerTemp_std"]

  /** The sample list GetArray_SampleMetadata builds: eleven values with a Neo, seven without. */
  function SampleList(s: SampleEntry, neo: bool): (l: seq<Value>)
    ensures |l| == (if neo then 11 else 7)
    ensures l[0] == Text(s.sampleName) && l[1] == Text(s.projectId)
  {
    if neo then SampleTuple(s)
    else [Text(s.sampleName), Text(s.projectId), Text(s.creationDate), Text(s.vial),
          Number(s.injectionVolume), OptValue(s.analyzerTempMean), OptValue(s.analyzerTempStd)]
  }

  /** The project list: the eight fields as texts, in column order. */
  function ProjectList(p: ProjectEntry): (l: seq<Value>)
    ensures |l| == |ProjectTuple(p)| && forall i :: 0 <= i < |l| ==> l[i] == Text(ProjectTuple(p)[i])
  {
    [Text(p.projectId), Text(p.projectDate), Text(p.msInstrument), Text(p.softwareVersion),
     Text(p.instrumentMethod), Text(p.hplcInstrument), Text(p.timeRange), Text(p.faimsAttached)]
  }

  /** The project a list of eight texts describes. */
  function ProjectOfList(l: seq<Value>): (r: Result<ProjectEntry>)
    ensures r.Ok? ==> ProjectList(r.value) == l
  {
    if |l| != 8 then Err(DatabaseError)
    else if !(forall i :: 0 <= i < 8 ==> l[i].Text?) then Err(DecodeError)
    else
      var p := ProjectEntry(l[0].text, l[1].text, l[2].text, l[3].text, l[4].text, l[5].text, l[6].text, l[7].text);
      assert ProjectList(p) == l;
      Ok(p)
  }

  lemma ProjectListRoundTrip(p: ProjectEntry)
    ensures ProjectOfList(ProjectList(p)) == Ok(p)
  {
  }

  /** The sample insert with the Neo or the seven-column statement. */
  function SampleStmt(l: seq<Value>, neo: bool): Statement
  {
    InsertSample(if neo then SampleInsertColumns else ShortColumns, l)
  }

  /** The legacy Database_writeNewEntry: every error, a duplicate key included, reaches the caller. */
  function WriteOn(w: World, stmt: Statement): (r: (Result<()>, World))
    ensures r.0.Err? ==> r.1 == w
  {
    var e := ExecuteOn(w, stmt);
    if e.Ok? then (Ok(()), e.value) else (Err(e.fault), w)
  }

  /** A successful insert appends exactly its row (or project) and changes nothing else. */
  lemma WriteInsertEffect(w: World, stmt: Statement)
    requires !stmt.UpdateSample? && WriteOn(w, stmt).0.Ok?
    ensures stmt.InsertSample? ==> WriteOn(w, stmt).1 == w.(samples := w.samples + [NewRow(stmt.columns, stmt.values)])
    ensures stmt.InsertProject? ==> WriteOn(w, stmt).1 == w.(projects := w.projects + [stmt.project])
  {
  }

  /** A project under a new ProjectID is appended to the project table. */
  lemma ProjectInsertOk(w: World, p: ProjectEntry)
    requires w.dbOnline && !HasProject(w, p.projectId)
    ensures WriteOn(w, InsertProject(p)) == (Ok(()), w.(projects := w.projects + [p]))
  {
  }

  /** A sample row whose name is not a key yet is appended to the sample table. */
  lemma SampleInsertOk(w: World, cols: seq<string>, vals: seq<Value>, name: string)
    requires w.dbOnline && |vals| == |cols| && !IsSampleKey(w, name)
    requires Cell(NewRow(cols, vals), NameColumn) == Text(name)
    ensures WriteOn(w, InsertSample(cols, vals)) == (Ok(()), w.(samples := w.samples + [NewRow(cols, vals)]))
  {
  }

  /** A staged unit read back, sample part first; its parts are checked where they are used. */
  function ReadUnit(f: Option<StagedFile>): (r: Result<(Encoded, Encoded)>)
    ensures r.Err? ==> r.fault == FileNotFound || r.fault == DecodeError
  {
    if f.None? then Err(FileNotFound)
    else if f.value.Malformed? then Err(DecodeError)
    else Ok((f.value.samples, f.value.project))
  }

  /** `"Neo" in project_list[5]`: a substring test on the HPLC name. */
  function NeoIn(e: Encoded): Result<bool>
  {
    if !e.Positional? then Err(DecodeError)
    else if |e.values| < 6 then Err(IndexError)
    else if !e.values[5].Text? then Err(DecodeError)
    else Ok(Contains(e.values[5].text, "Neo"))
  }

  /** The sample list of a staged unit. */
  function ListOf(e: Encoded): Result<seq<Value>>
  {
    if e.Positional? then Ok(e.values) else Err(DecodeError)
  }

  /** `SQLValues_Samples[1] = pid`. */
  function WithProjectId(e: Encoded, pid: string): (r: Result<seq<Value>>)
    ensures r.Ok? ==> e.Positional? && |e.values| >= 2 && r.value == e.values[1 := Text(pid)]
  {
    if !e.Positional? then Err(DecodeError)
    else if |e.values| < 2 then Err(IndexError)
    else Ok(e.values[1 := Text(pid)])
  }

  /** The ProjectID chosen from a family is a project of the table. */
  lemma ClosestInTable(w: World, pattern: string, date: string)
    requires ClosestProject(Family(w, pattern), date).Ok?
    ensures HasProject(w, ClosestProject(Family(w, pattern), date).value)
  {
    var fam := Family(w, pattern);
    ClosestIsEarliest(fam, date);
    var k := FirstMinIndex(DateCodes(fam));
    assert fam[k] in fam;
    var j :| 0 <= j < |w.projects| && w.projects[j] == fam[k];
  }

  /** The insert binds the ProjectID of a list to its column. */
  lemma ListProjectIdCell(l: seq<Value>, neo: bool)
    requires |l| == |(if neo then SampleInsertColumns else ShortColumns)|
    ensures var row := NewRow(if neo then SampleInsertColumns else ShortColumns, l);
      Cell(row, NameColumn) == l[0] && Cell(row, "ProjectID") == l[1]
  {
    var cols := if neo then SampleInsertColumns else ShortColumns;
    assert cols[0] == NameColumn && cols[1] == "ProjectID";
    assert Distinct(cols);
    ZipLookup(cols, l, 0);
    ZipLookup(cols, l, 1);
  }

  // ---------------------------------------------------------------------
  // The staged units

  /**
   * The legacy FillDatabaseWithJson: the sample list is written under the
   * family's earliest ProjectID and the file is removed; any failure leaves
   * everything as it was.
   */
  function WithJsonOn(w: World, file: string): (Result<()>, World)
  {
    var sp := SplitProjectName(StripJson(file));
    if sp.Err? then (Err(sp.fault), w)
    else if !w.dbOnline then (Err(DatabaseError), w)
    else
      var fam := Family(w, sp.value.sqlPattern);
      if |fam| == 0 then (Err(NoFittingProjectFound), w)
      else WriteUnitOn(w, file, fam, sp.value.date)
  }

  /**
   * The unit written under the family's earliest ProjectID, then removed; a
   * failure at any step changes nothing and is never NoFittingProjectFound.
   */
  function WriteUnitOn(w: World, file: string, fam: seq<ProjectEntry>, date: string): (r: (Result<()>, World))
    ensures r.0.Err? ==> r.1 == w && r.0 != Err(NoFittingProjectFound)
  {
    var rd := ReadUnit(Engine.StagedAt(w, file));
    if rd.Err? then (Err(rd.fault), w)
    else
      var pid := ClosestProject(fam, date);
      if pid.Err? then (Err(pid.fault), w)
      else
        var l := WithProjectId(rd.value.0, pid.value);
        if l.Err? then (Err(l.fault), w)
        else
          var neo := NeoIn(rd.value.1);
          if neo.Err? then (Err(neo.fault), w)
          else
            var written := WriteOn(w, SampleStmt(l.value, neo.value));
            if written.0.Err? then written
            else (Ok(()), written.1.(staged := written.1.staged - {file}))
  }


  /**
   * The legacy FillDatabaseWithJson is all or nothing: it fails without a
   * change, with NoFittingProjectFound exactly when the family has no
   * project; a success appends one sample row holding the family's earliest
   * ProjectID, writes no project and removes the file.
   */
  lemma WithJsonEffect(w: World, file: string)
    ensures var r := WithJsonOn(w, file);
      && (r.0.Err? ==> r.1 == w)
      && (var sp := SplitProjectName(StripJson(file));
          sp.Ok? && w.dbOnline ==>
            (r.0 == Err(NoFittingProjectFound) <==> |Family(w, sp.value.sqlPattern)| == 0))
      && (r.0.Ok? ==>
            var sp := SplitProjectName(StripJson(file)).value;
            var pid := ClosestProject(Family(w, sp.sqlPattern), sp.date);
            && pid.Ok? && HasProject(w, pid.value)
            && r.1.projects == w.projects
            && file in w.staged && r.1.staged == w.staged - {file}
            && |r.1.samples| == |w.samples| + 1 && r.1.samples[..|w.samples|] == w.samples
            && Cell(r.1.samples[|w.samples|], "ProjectID") == Text(pid.value))
  {
    if WithJsonOn(w, file).0.Ok? {
      WithJsonSuccess(w, file);
    }
  }

  /** What a successful legacy FillDatabaseWithJson wrote. */
  lemma WithJsonSuccess(w: World, file: string)
    requires WithJsonOn(w, file).0.Ok?
    ensures var r := WithJsonOn(w, file);
      var sp := SplitProjectName(StripJson(file)).value;
      var pid := ClosestProject(Family(w, sp.sqlPattern), sp.date);
      && pid.Ok? && HasProject(w, pid.value)
      && r.1.projects == w.projects
      && file in w.staged && r.1.staged == w.staged - {file}
      && |r.1.samples| == |w.samples| + 1 && r.1.samples[..|w.samples|] == w.samples
      && Cell(r.1.samples[|w.samples|], "ProjectID") == Text(pid.value)
  {
    var sp := SplitProjectName(StripJson(file)).value;
    var fam := Family(w, sp.sqlPattern);
    ClosestInTable(w, sp.sqlPattern, sp.date);
    var rd := ReadUnit(Engine.StagedAt(w, file));
    var pid := ClosestProject(fam, sp.date).value;
    var l := WithProjectId(rd.value.0, pid).value;
    var neo := NeoIn(rd.value.1).value;
    WriteInsertEffect(w, SampleStmt(l, neo));
    ListProjectIdCell(l, neo);
  }


  /** The legacy FillDatabaseWithJson_KeepProject: the project list, then the sample list, then the removal. */
  function KeepProjectOn(w: World, file: string): (Result<()>, World)
  {
    var rd := ReadUnit(Engine.StagedAt(w, file));
    if rd.Err? then (Err(rd.fault), w)
    else
      var neo := NeoIn(rd.value.1);
      if neo.Err? then (Err(neo.fault), w)
      else
        var p := ProjectOfList(rd.value.1.values);
        if !w.dbOnline then (Err(DatabaseError), w)
        else if p.Err? then (Err(p.fault), w)
        else
          var first := WriteOn(w, InsertProject(p.value));
          if first.0.Err? then first
          else
            var l := ListOf(rd.value.0);
            if l.Err? then (Err(l.fault), first.1)
            else
              var second := WriteOn(first.1, SampleStmt(l.value, neo.value));
              if second.0.Err? then second
              else (Ok(()), second.1.(staged := second.1.staged - {file}))
  }

  /**
   * Keeping the project of a staged unit: a failure keeps the file, and a
   * success adds exactly one project, one whose ProjectID was not in the
   * table, so a unit whose project exists already always fails.
   */
  lemma KeepProjectEffect(w: World, file: string)
    ensures var r := KeepProjectOn(w, file);
      && (r.0.Err? ==> r.1.staged == w.staged)
      && (r.0.Ok? ==>
            && file in w.staged && r.1.staged == w.staged - {file}
            && |r.1.projects| == |w.projects| + 1 && r.1.projects[..|w.projects|] == w.projects
            && !HasProject(w, r.1.projects[|w.projects|].projectId))
  {
    var r := KeepProjectOn(w, file);
    if r.0.Ok? {
      assert r.1.projects[..|w.projects|] == w.projects;
    }
  }

  /** The loop over the staging folder after a new project, catching only NoFittingProjectFound. */
  function PendingOn(w: World, regex: seq<PatItem>, files: seq<string>): (Result<()>, World)
    decreases |files|
  {
    if |files| == 0 then (Ok(()), w)
    else if !Search(regex, files[0]) then PendingOn(w, regex, files[1..])
    else
      var r := WithJsonOn(w, files[0]);
      if r.0 == Err(NoFittingProjectFound) || r.0.Ok? then PendingOn(r.1, regex, files[1..])
      else r
  }

  /** One staged name of the pass: skipped, tried and passed over, or the fault that stops the pass. */
  lemma PendingStep(w: World, regex: seq<PatItem>, files: seq<string>)
    requires |files| > 0
    ensures !Search(regex, files[0]) ==> PendingOn(w, regex, files) == PendingOn(w, regex, files[1..])
    ensures var r := WithJsonOn(w, files[0]);
      Search(regex, files[0]) && (r.0 == Err(NoFittingProjectFound) || r.0.Ok?) ==>
        PendingOn(w, regex, files) == PendingOn(r.1, regex, files[1..])
    ensures var r := WithJsonOn(w, files[0]);
      Search(regex, files[0]) && r.0.Err? && r.0 != Err(NoFittingProjectFound) ==> PendingOn(w, regex, files) == r
  {
  }

  /** The pending pass writes no project, removes staged files only, and only appends sample rows. */
  lemma {:induction false} PendingEffect(w: World, regex: seq<PatItem>, files: seq<string>)
    ensures var w' := PendingOn(w, regex, files).1;
      && w'.projects == w.projects && w'.staged.Keys <= w.staged.Keys
      && |w.samples| <= |w'.samples| && w'.samples[..|w.samples|] == w.samples
    decreases |files|
  {
    if |files| > 0 {
      if !Search(regex, files[0]) {
        PendingEffect(w, regex, files[1..]);
      } else {
        var r := WithJsonOn(w, files[0]);
        WithJsonEffect(w, files[0]);
        if r.0 == Err(NoFittingProjectFound) || r.0.Ok? {
          PendingEffect(r.1, regex, files[1..]);
          var w' := PendingOn(r.1, regex, files[1..]).1;
          assert w'.samples[..|w.samples|] == w'.samples[..|r.1.samples|][..|w.samples|];
        }
      }
    }
  }

  /**
   * When the legacy pass succeeds, every listed unit the family regex finds
   * and whose family has a project has been written and removed.
   */
  lemma {:induction false} PendingDrains(w: World, regex: seq<PatItem>, files: seq<string>, f: string)
    requires f in files && Search(regex, f)
    requires SplitProjectName(StripJson(f)).Ok? && |Family(w, SplitProjectName(StripJson(f)).value.sqlPattern)| > 0
    ensures PendingOn(w, regex, files).0.Ok? ==> f !in PendingOn(w, regex, files).1.staged
    decreases |files|
  {
    var r := WithJsonOn(w, files[0]);
    if files[0] == f {
      WithJsonEffect(w, f);
      if r.0.Ok? {
        PendingEffect(r.1, regex, files[1..]);
      }
    } else if !Search(regex, files[0]) {
      PendingDrains(w, regex, files[1..], f);
    } else {
      WithJsonEffect(w, files[0]);
      if r.0 == Err(NoFittingProjectFound) || r.0.Ok? {
        PendingDrains(r.1, regex, files[1..], f);
      }
    }
  }

  // ---------------------------------------------------------------------
  // FillDatabase

  /** What the legacy reader gives: the device combination and both records. */
  datatype Extraction =
    | Extracted(machines: seq<string>, sample: SampleEntry, project: ProjectEntry)
    | Corrupt
    | Empty
    | Failed(fault: Fault)

  /** A standard sample without a family project is staged as lists, and the caller is told so. */
  function StageOn(w: World, s: SampleEntry, p: ProjectEntry, l: seq<Value>): (Result<()>, World)
  {
    if !w.folderWritable then (Err(WriteError), w)
    else (Err(SafedAsJsonTempFile), w.(staged := w.staged[StagingName(w.staged.Keys, s, p) := Unit(Positional(ProjectList(p)), Positional(l))]))
  }

  /** The legacy FillDatabase, with `listing` the staging folder's listing after a new project. */
  function FillDatabaseOn(w: World, x: Extraction, listing: seq<string>): (Result<()>, World)
  {
    match x
    case Corrupt => (Err(HandlingCorruptFileError), w)
    case Empty => (Err(HandlingEmptyFileError), w)
    case Failed(f) => (Err(f), w)
    case Extracted(mc, s, p) =>
      var neo := "Neo" in mc;
      var l := SampleList(s, neo);
      if !w.dbOnline then (Err(DatabaseError), w)
      else if HasProject(w, p.projectId) then WriteOn(w, SampleStmt(l, neo))
      else if Engine.IsStandardSample(s.sampleName) then
        var sp := SplitProjectName(p.projectId);
        if sp.Err? then (Err(sp.fault), w)
        else
          var fam := Family(w, sp.value.sqlPattern);
          if |fam| == 0 then StageOn(w, s, p, l)
          else
            var pid := ClosestProject(fam, sp.value.date);
            if pid.Err? then (Err(pid.fault), w)
            else WriteOn(w, SampleStmt(l[1 := Text(pid.value)], Contains(p.hplcInstrument, "Neo")))
      else NewProjectOn(w, l, neo, p, listing)
  }

  /** A non-standard sample of a new project: the project, then its sample, then the staged units. */
  function NewProjectOn(w: World, l: seq<Value>, neo: bool, p: ProjectEntry, listing: seq<string>): (Result<()>, World)
  {
    var first := WriteOn(w, InsertProject(p));
    if first.0.Err? then first
    else
      var second := WriteOn(first.1, SampleStmt(l, neo));
      if second.0.Err? then second
      else
        var sp := SplitProjectName(p.projectId);
        if sp.Err? then (Err(sp.fault), second.1)
        else PendingOn(second.1, sp.value.regex, listing)
  }

  /** A sample list's insert binds its name to the key column, and fits the columns of its own kind. */
  lemma SampleListRow(s: SampleEntry, neo: bool)
    ensures |SampleList(s, neo)| == |(if neo then SampleInsertColumns else ShortColumns)|
    ensures var row := NewRow(if neo then SampleInsertColumns else ShortColumns, SampleList(s, neo));
      Cell(row, NameColumn) == Text(s.sampleName) && Cell(row, "ProjectID") == Text(s.projectId)
  {
    ListProjectIdCell(SampleList(s, neo), neo);
  }

  /** A sample whose name is a key already, under an existing project, raises IntegrityError (the current engine ignores it). */
  lemma DuplicateSampleRaises(w: World, mc: seq<string>, s: SampleEntry, p: ProjectEntry, listing: seq<string>)
    requires w.dbOnline && HasProject(w, p.projectId) && IsSampleKey(w, s.sampleName)
    ensures FillDatabaseOn(w, Extracted(mc, s, p), listing) == (Err(IntegrityError), w)
  {
    SampleListRow(s, "Neo" in mc);
  }

  /**
   * A standard sample without its project and without a family project is
   * staged as lists under the name SaveToJson would pick, and reported with
   * SafedAsJsonTempFile; the tables do not change.
   */
  lemma StandardWithoutFamilyStaged(w: World, mc: seq<string>, s: SampleEntry, p: ProjectEntry, listing: seq<string>)
    requires w.dbOnline && w.folderWritable && !HasProject(w, p.projectId) && Engine.IsStandardSample(s.sampleName)
    requires SplitProjectName(p.projectId).Ok? && |Family(w, SplitProjectName(p.projectId).value.sqlPattern)| == 0
    ensures var r := FillDatabaseOn(w, Extracted(mc, s, p), listing);
      var name := StagingName(w.staged.Keys, s, p);
      && r.0 == Err(SafedAsJsonTempFile)
      && r.1.projects == w.projects && r.1.samples == w.samples
      && r.1.staged == w.staged[name := Unit(Positional(ProjectList(p)), Positional(SampleList(s, "Neo" in mc)))]
      && ReadUnit(Engine.StagedAt(r.1, name)) == Ok((Positional(SampleList(s, "Neo" in mc)), Positional(ProjectList(p))))
  {
  }

  /**
   * A standard sample without its project but with a family project is
   * written, whatever its age, under the family's earliest ProjectID, when
   * its devices and its HPLC name agree on the Neo.
   */
  lemma StandardWithFamilyWritten(w: World, mc: seq<string>, s: SampleEntry, p: ProjectEntry, listing: seq<string>)
    requires w.dbOnline && !HasProject(w, p.projectId) && Engine.IsStandardSample(s.sampleName)
    requires !IsSampleKey(w, s.sampleName) && ("Neo" in mc <==> Contains(p.hplcInstrument, "Neo"))
    requires var sp := SplitProjectName(p.projectId);
      sp.Ok? && |Family(w, sp.value.sqlPattern)| > 0 && ClosestProject(Family(w, sp.value.sqlPattern), sp.value.date).Ok?
    ensures var sp := SplitProjectName(p.projectId).value;
      var pid := ClosestProject(Family(w, sp.sqlPattern), sp.date).value;
      var r := FillDatabaseOn(w, Extracted(mc, s, p), listing);
      && r.0 == Ok(())
      && r.1.projects == w.projects && r.1.staged == w.staged
      && |r.1.samples| == |w.samples| + 1 && r.1.samples[..|w.samples|] == w.samples
      && Cell(r.1.samples[|w.samples|], "ProjectID") == Text(pid) && HasProject(w, pid)
  {
    var sp := SplitProjectName(p.projectId).value;
    var pid := ClosestProject(Family(w, sp.sqlPattern), sp.date).value;
    var neo := "Neo" in mc;
    var l := SampleList(s, neo)[1 := Text(pid)];
    ListProjectIdCell(l, neo);
    ClosestInTable(w, sp.sqlPattern, sp.date);
    StandardWithFamilyBranch(w, mc, s, p, listing);
    InsertListEffect(w, l, neo, s.sampleName);
  }

  /** A list whose name is no key yet is appended as one row, and nothing else changes. */
  lemma InsertListEffect(w: World, l: seq<Value>, neo: bool, name: string)
    requires w.dbOnline && |l| == |(if neo then SampleInsertColumns else ShortColumns)|
    requires l[0] == Text(name) && !IsSampleKey(w, name)
    ensures WriteOn(w, SampleStmt(l, neo)) == (Ok(()), w.(samples := w.samples + [NewRow(if neo then SampleInsertColumns else ShortColumns, l)]))
  {
    ListProjectIdCell(l, neo);
  }

  lemma StandardWithFamilyBranch(w: World, mc: seq<string>, s: SampleEntry, p: ProjectEntry, listing: seq<string>)
    requires w.dbOnline && !HasProject(w, p.projectId) && Engine.IsStandardSample(s.sampleName)
    requires var sp := SplitProjectName(p.projectId);
      sp.Ok? && |Family(w, sp.value.sqlPattern)| > 0 && ClosestProject(Family(w, sp.value.sqlPattern), sp.value.date).Ok?
    ensures var sp := SplitProjectName(p.projectId).value;
      var pid := ClosestProject(Family(w, sp.sqlPattern), sp.date).value;
      FillDatabaseOn(w, Extracted(mc, s, p), listing)
        == WriteOn(w, SampleStmt(SampleList(s, "Neo" in mc)[1 := Text(pid)], Contains(p.hplcInstrument, "Neo")))
  {
  }

  /**
   * The standard-sample branch picks its insert by the HPLC name, not by the
   * devices: when the two disagree on the Neo the list does not fit the
   * statement and the write fails with nothing changed.
   */
  lemma NeoMismatchFails(w: World, mc: seq<string>, s: SampleEntry, p: ProjectEntry, listing: seq<string>)
    requires w.dbOnline && !HasProject(w, p.projectId) && Engine.IsStandardSample(s.sampleName)
    requires !("Neo" in mc <==> Contains(p.hplcInstrument, "Neo"))
    requires var sp := SplitProjectName(p.projectId);
      sp.Ok? && |Family(w, sp.value.sqlPattern)| > 0 && ClosestProject(Family(w, sp.value.sqlPattern), sp.value.date).Ok?
    ensures FillDatabaseOn(w, Extracted(mc, s, p), listing) == (Err(DatabaseError), w)
  {
    StandardWithFamilyBranch(w, mc, s, p, listing);
  }

  /** A new non-standard project is written first, with its sample, before the staged units are tried. */
  lemma NewProjectWritten(w: World, mc: seq<string>, s: SampleEntry, p: ProjectEntry, listing: seq<string>)
    requires w.dbOnline && !HasProject(w, p.projectId) && !Engine.IsStandardSample(s.sampleName)
    requires !IsSampleKey(w, s.sampleName)
    ensures var r := FillDatabaseOn(w, Extracted(mc, s, p), listing);
      && r.1.projects == w.projects + [p]
      && |r.1.samples| > |w.samples| && r.1.samples[|w.samples|] == NewRow(if "Neo" in mc then SampleInsertColumns else ShortColumns, SampleList(s, "Neo" in mc))
  {
    var neo := "Neo" in mc;
    SampleListRow(s, neo);
    NewProjectEffect(w, SampleList(s, neo), neo, p, listing, s.sampleName);
  }

  lemma NewProjectEffect(w: World, l: seq<Value>, neo: bool, p: ProjectEntry, listing: seq<string>, name: string)
    requires w.dbOnline && !HasProject(w, p.projectId) && !IsSampleKey(w, name)
    requires |l| == |(if neo then SampleInsertColumns else ShortColumns)|
    requires Cell(NewRow(if neo then SampleInsertColumns else ShortColumns, l), NameColumn) == Text(name)
    ensures var r := NewProjectOn(w, l, neo, p, listing);
      && r.1.projects == w.projects + [p]
      && |r.1.samples| > |w.samples| && r.1.samples[|w.samples|] == NewRow(if neo then SampleInsertColumns else ShortColumns, l)
  {
    var cols := if neo then SampleInsertColumns else ShortColumns;
    var w1 := w.(projects := w.projects + [p]);
    ProjectInsertOk(w, p);
    assert IsSampleKey(w1, name) == IsSampleKey(w, name);
    SampleInsertOk(w1, cols, l, name);
    var w2 := w1.(samples := w1.samples + [NewRow(cols, l)]);
    var sp := SplitProjectName(p.projectId);
    assert NewProjectOn(w, l, neo, p, listing)
        == if sp.Err? then (Err(sp.fault), w2) else PendingOn(w2, sp.value.regex, listing);
    if sp.Ok? {
      PendingEffect(w2, sp.value.regex, listing);
      var w' := PendingOn(w2, sp.value.regex, listing).1;
      assert w'.samples[|w.samples|] == w'.samples[..|w2.samples|][|w.samples|];
    }
  }

  // ---------------------------------------------------------------------
  // FillDatabase_Error

  /**
   * The ProjectID of the legacy error row: the name's own when that project
   * exists or the family has none, the family's earliest otherwise.
   */
  function ErrorProjectId(w: World, sp: ProjectName): (r: Result<string>)
    ensures r.Err? ==> r.fault == ValueError
  {
    if HasProject(w, sp.projectId) then Ok(sp.projectId)
    else
      var fam := Family(w, sp.sqlPattern);
      if |fam| == 0 then Ok(sp.projectId) else ClosestProject(fam, sp.date)
  }

  /** The legacy FillDatabase_Error: a row of the basename and the error under ErrorProjectId. */
  function FillErrorOn(w: World, path: string, error: string): (Result<()>, World)
  {
    var name := Basename(path);
    var sp := SplitProjectName(name);
    if sp.Err? then (Err(sp.fault), w)
    else if !w.dbOnline then (Err(DatabaseError), w)
    else
      var pid := ErrorProjectId(w, sp.value);
      if pid.Err? then (Err(pid.fault), w)
      else WriteOn(w, InsertSample(CorruptColumns, [Text(name), Text(pid.value), Text(error)]))
  }

  /**
   * The legacy error row keeps the name's own ProjectID exactly when that
   * project exists or the family is empty, and otherwise names a project of
   * the table; a name that is a key already raises IntegrityError, where the
   * current engine ignores it.
   */
  lemma FillErrorProjectId(w: World, path: string, error: string)
    requires w.dbOnline && SplitProjectName(Basename(path)).Ok?
    ensures var sp := SplitProjectName(Basename(path)).value;
      var pid := ErrorProjectId(w, sp);
      var r := FillErrorOn(w, path, error);
      && (pid.Ok? ==> (pid.value == sp.projectId <==> HasProject(w, sp.projectId) || |Family(w, sp.sqlPattern)| == 0))
      && (pid.Ok? ==> HasProject(w, pid.value) || |Family(w, sp.sqlPattern)| == 0)
      && (pid.Ok? && IsSampleKey(w, Basename(path)) ==> r == (Err(IntegrityError), w))
      && (pid.Ok? && !IsSampleKey(w, Basename(path)) ==>
            && r.0 == Ok(())
            && r.1 == w.(samples := w.samples + [NewRow(CorruptColumns, [Text(Basename(path)), Text(pid.value), Text(error)])])
            && Cell(r.1.samples[|w.samples|], "ProjectID") == Text(pid.value))
      && (pid.Err? ==> r == (Err(ValueError), w))
  {
    var name := Basename(path);
    var sp := SplitProjectName(name).value;
    ErrorProjectIdChoice(w, sp);
    var pid := ErrorProjectId(w, sp);
    if pid.Ok? {
      var row := [Text(name), Text(pid.value), Text(error)];
      assert FillErrorOn(w, path, error) == WriteOn(w, InsertSample(CorruptColumns, row));
      ErrorRowWrite(w, name, pid.value, error);
    } else {
      assert FillErrorOn(w, path, error) == (Err(ValueError), w);
    }
  }

  /** The ProjectID is the name's own exactly when that project exists or the family is empty. */
  lemma ErrorProjectIdChoice(w: World, sp: ProjectName)
    ensures var pid := ErrorProjectId(w, sp);
      && (pid.Ok? ==> (pid.value == sp.projectId <==> HasProject(w, sp.projectId) || |Family(w, sp.sqlPattern)| == 0))
      && (pid.Ok? ==> HasProject(w, pid.value) || |Family(w, sp.sqlPattern)| == 0)
  {
    var pid := ErrorProjectId(w, sp);
    if pid.Ok? && !HasProject(w, sp.projectId) && |Family(w, sp.sqlPattern)| > 0 {
      ClosestInTable(w, sp.sqlPattern, sp.date);
    }
  }

  /** The error row is appended unless its name is a key already, which raises IntegrityError. */
  lemma ErrorRowWrite(w: World, name: string, pid: string, error: string)
    requires w.dbOnline
    ensures var r := WriteOn(w, InsertSample(CorruptColumns, [Text(name), Text(pid), Text(error)]));
      && (IsSampleKey(w, name) ==> r == (Err(IntegrityError), w))
      && (!IsSampleKey(w, name) ==>
            && r == (Ok(()), w.(samples := w.samples + [NewRow(CorruptColumns, [Text(name), Text(pid), Text(error)])]))
            && Cell(r.1.samples[|w.samples|], "ProjectID") == Text(pid))
  {
    CorruptRowCells(name, pid, error);
  }

  // ---------------------------------------------------------------------
  // ReplaceErrorFile

  /** The update of the error row: the list rotated so that the name becomes the WHERE pattern. */
  function UpdateStmt(l: seq<Value>, neo: bool): Statement
    requires |l| > 0
  {
    UpdateSample(if neo then UpdateColumns else ShortUpdateColumns, Rotate(l))
  }

  /**
   * The legacy ReplaceErrorFile as written. The rotated copy is taken before
   * the standard-with-family branch sets the family's ProjectID in the
   * original list, so the update stores the sample's own ProjectID.
   */
  function ReplaceErrorFileOn(w: World, x: Extraction): (Result<()>, World)
  {
    match x
    case Corrupt => (Err(HandlingCorruptFileError), w)
    case Empty => (Err(HandlingEmptyFileError), w)
    case Failed(f) => (Err(f), w)
    case Extracted(mc, s, p) =>
      var neo := "Neo" in mc;
      var l := SampleList(s, neo);
      if !w.dbOnline then (Err(DatabaseError), w)
      else
        var sp := SplitProjectName(p.projectId);
        if sp.Err? then (Err(sp.fault), w)
        else if HasProject(w, p.projectId) then WriteOn(w, UpdateStmt(l, neo))
        else if Engine.IsStandardSample(s.sampleName) && |Family(w, sp.value.sqlPattern)| > 0 then
          var pid := ClosestProject(Family(w, sp.value.sqlPattern), sp.value.date);
          if pid.Err? then (Err(pid.fault), w)
          else WriteOn(w, UpdateStmt(l, Contains(p.hplcInstrument, "Neo")))
        else
          var first := WriteOn(w, InsertProject(p));
          if first.0.Err? then first
          else WriteOn(first.1, UpdateStmt(l, neo))
  }

  /**
   * The stale copy: for a Neo standard sample whose family has a project but
   * whose own ProjectID does not, every row the update reaches carries the
   * sample's own ProjectID, not the family's.
   */
  lemma ReplaceKeepsOwnProjectId(w: World, s: SampleEntry, p: ProjectEntry)
    requires w.dbOnline && !HasProject(w, p.projectId) && Engine.IsStandardSample(s.sampleName)
    requires SplitProjectName(p.projectId).Ok? && p.hplcInstrument == "Neo"
    requires var sp := SplitProjectName(p.projectId).value;
      |Family(w, sp.sqlPattern)| > 0 && ClosestProject(Family(w, sp.sqlPattern), sp.date).Ok?
    ensures var r := ReplaceErrorFileOn(w, Extracted(["HFX", "Neo"], s, p));
      && r.0 == Ok(())
      && |r.1.samples| == |w.samples|
      && forall i :: 0 <= i < |w.samples| && MatchesName(w.samples[i], Text(s.sampleName)) ==>
           Cell(r.1.samples[i], "ProjectID") == Text(s.projectId)
  {
    assert "Neo" in ["HFX", "Neo"];
    assert OccursAt("Neo", "Neo", 0);
    assert SampleList(s, true) == SampleTuple(s);
    NeoUpdateStoresOwnProjectId(w, s);
  }

  /** The Neo update by a full sample tuple succeeds and stores the tuple's ProjectID in every row it reaches. */
  lemma NeoUpdateStoresOwnProjectId(w: World, s: SampleEntry)
    requires w.dbOnline
    ensures var r := WriteOn(w, UpdateStmt(SampleTuple(s), true));
      && r.0 == Ok(())
      && |r.1.samples| == |w.samples|
      && forall i :: 0 <= i < |w.samples| && MatchesName(w.samples[i], Text(s.sampleName)) ==>
           Cell(r.1.samples[i], "ProjectID") == Text(s.projectId)
  {
    ReplacedRows(s, w.samples);
    assert SampleFields[1] == "ProjectID";
  }

  // ---------------------------------------------------------------------
  // MissingFilesFromDatabase and SampleNotInDatabase

  /**
   * The legacy MissingFilesFromDatabase on a given name list: every listed
   * name without a sample row, whatever its extension; the scratch table is
   * emptied afterwards.
   */
  function MissingFilesOn(w: World, names: seq<string>): (r: Result<(seq<string>, World)>)
    ensures r.Err? <==> !w.dbOnline
    ensures r.Ok? ==> (forall x :: x in r.value.0 <==> x in names && !IsSampleKey(w, x))
    ensures r.Ok? ==> r.value.1 == w.(scratch := [])
  {
    if !w.dbOnline then Err(DatabaseError) else Ok((AntiJoin(names, w.samples), w.(scratch := [])))
  }

  /** What the current version reports from the same listing, the legacy one reports as well. */
  lemma MissingFilesSuperset(w: World, names: seq<string>)
    requires w.dbOnline
    ensures forall x :: x in MissingFiles(w, Some(names)).0 ==> x in MissingFilesOn(w, names).value.0
  {
    MissingFilesExactly(w, Some(names));
  }

  /** SampleNotInDatabase: no sample's name is LIKE the basename. */
  function SampleNotInDatabaseOn(w: World, path: string): (r: Result<bool>)
    ensures r.Err? <==> !w.dbOnline
  {
    if !w.dbOnline then Err(DatabaseError) else Ok(!Logic.AnySampleLike(w, Basename(path)))
  }

  /** A sample stored under the basename itself makes the answer false. */
  lemma StoredSampleIsFound(w: World, path: string, i: nat)
    requires w.dbOnline && i < |w.samples| && Cell(w.samples[i], NameColumn) == Text(Basename(path))
    ensures SampleNotInDatabaseOn(w, path) == Ok(false)
  {
    LikeSelf(Basename(path));
  }

  // ---------------------------------------------------------------------
  // The legacy engine on the store object

  method Write(site: Site, stmt: Statement) returns (r: Result<()>)
    modifies site
    ensures (r, site.State()) == WriteOn(old(site.State()), stmt)
  {
    r := site.Execute(stmt);
  }

  method FillDatabaseWithJson(site: Site, file: string) returns (r: Result<()>)
    modifies site
    ensures (r, site.State()) == WithJsonOn(old(site.State()), file)
  {
    var sp := SplitProjectName(StripJson(file));
    if sp.Err? {
      return Err(sp.fault);
    }
    var fam := site.QueryFamily(sp.value.sqlPattern);
    if fam.Err? {
      return Err(fam.fault);
    }
    if |fam.value| == 0 {
      return Err(NoFittingProjectFound);
    }
    var rd := ReadUnit(Engine.StagedAt(site.State(), file));
    if rd.Err? {
      return Err(rd.fault);
    }
    var pid := ClosestProject(fam.value, sp.value.date);
    if pid.Err? {
      return Err(pid.fault);
    }
    var l := WithProjectId(rd.value.0, pid.value);
    if l.Err? {
      return Err(l.fault);
    }
    var neo := NeoIn(rd.value.1);
    if neo.Err? {
      return Err(neo.fault);
    }
    r := Write(site, SampleStmt(l.value, neo.value));
    if r.Err? {
      return;
    }
    site.RemoveStaged(file);
  }

  method FillDatabaseWithJsonKeepProject(site: Site, file: string) returns (r: Result<()>)
    modifies site
    ensures (r, site.State()) == KeepProjectOn(old(site.State()), file)
  {
    var rd := ReadUnit(Engine.StagedAt(site.State(), file));
    if rd.Err? {
      return Err(rd.fault);
    }
    var neo := NeoIn(rd.value.1);
    if neo.Err? {
      return Err(neo.fault);
    }
    if !site.dbOnline {
      return Err(DatabaseError);
    }
    var p := ProjectOfList(rd.value.1.values);
    if p.Err? {
      return Err(p.fault);
    }
    r := Write(site, InsertProject(p.value));
    if r.Err? {
      return;
    }
    var l := ListOf(rd.value.0);
    if l.Err? {
      return Err(l.fault);
    }
    r := Write(site, SampleStmt(l.value, neo.value));
    if r.Err? {
      return;
    }
    site.RemoveStaged(file);
  }

  method ProcessPending(site: Site, regex: seq<PatItem>, listing: seq<string>) returns (r: Result<()>)
    modifies site
    ensures (r, site.State()) == PendingOn(old(site.State()), regex, listing)
  {
    var i := 0;
    while i < |listing|
      invariant 0 <= i <= |listing|
      invariant PendingOn(old(site.State()), regex, listing) == PendingOn(site.State(), regex, listing[i..])
    {
      ghost var w := site.State();
      assert listing[i..][1..] == listing[i + 1..];
      if Search(regex, listing[i]) {
        var e := FillDatabaseWithJson(site, listing[i]);
        PendingStep(w, regex, listing[i..]);
        if e.Err? && e != Err(NoFittingProjectFound) {
          return e;
        }
      } else {
        PendingStep(w, regex, listing[i..]);
      }
      i := i + 1;
    }
    r := Ok(());
  }

  method FillDatabase(site: Site, x: Extraction, listing: seq<string>) returns (r: Result<()>)
    modifies site
    ensures (r, site.State()) == FillDatabaseOn(old(site.State()), x, listing)
  {
    match x {
      case Corrupt => return Err(HandlingCorruptFileError);
      case Empty => return Err(HandlingEmptyFileError);
      case Failed(f) => return Err(f);
      case Extracted(mc, s, p) =>
        var neo := "Neo" in mc;
        var l := SampleList(s, neo);
        var matching := site.FindMatchingProject(p.projectId);
        if matching.Err? {
          return Err(matching.fault);
        }
        if matching.value.Some? {
          r := Write(site, SampleStmt(l, neo));
        } else if Engine.IsStandardSample(s.sampleName) {
          var sp := SplitProjectName(p.projectId);
          if sp.Err? {
            return Err(sp.fault);
          }
          var fam := site.QueryFamily(sp.value.sqlPattern);
          if |fam.value| == 0 {
            if !site.folderWritable {
              return Err(WriteError);
            }
            var name := p.projectId + ".json";
            if name in site.staged {
              name := p.projectId + "__" + s.sampleName + ".json";
            }
            site.staged := site.staged[name := Unit(Positional(ProjectList(p)), Positional(l))];
            return Err(SafedAsJsonTempFile);
          }
          var pid := ClosestProject(fam.value, sp.value.date);
          if pid.Err? {
            return Err(pid.fault);
          }
          l := l[1 := Text(pid.value)];
          r := Write(site, SampleStmt(l, Contains(p.hplcInstrument, "Neo")));
        } else {
          r := Write(site, InsertProject(p));
          if r.Err? {
            return;
          }
          r := Write(site, SampleStmt(l, neo));
          if r.Err? {
            return;
          }
          var sp := SplitProjectName(p.projectId);
          if sp.Err? {
            return Err(sp.fault);
          }
          r := ProcessPending(site, sp.value.regex, listing);
        }
    }
  }

  method FillDatabaseError(site: Site, path: string, error: string) returns (r: Result<()>)
    modifies site
    ensures (r, site.State()) == FillErrorOn(old(site.State()), path, error)
  {
    var name := Basename(path);
    var sp := SplitProjectName(name);
    if sp.Err? {
      return Err(sp.fault);
    }
    var matching := site.FindMatchingProject(sp.value.projectId);
    if matching.Err? {
      return Err(matching.fault);
    }
    var pid := sp.value.projectId;
    if matching.value.None? {
      var fam := site.QueryFamily(sp.value.sqlPattern);
      if |fam.value| > 0 {
        var closest := ClosestProject(fam.value, sp.value.date);
        if closest.Err? {
          return Err(closest.fault);
        }
        pid := closest.value;
      }
    }
    assert ErrorProjectId(site.State(), sp.value) == Ok(pid);
    r := Write(site, InsertSample(CorruptColumns, [Text(name), Text(pid), Text(error)]));
  }

  method ReplaceErrorFile(site: Site, x: Extraction) returns (r: Result<()>)
    modifies site
    ensures (r, site.State()) == ReplaceErrorFileOn(old(site.State()), x)
  {
    match x {
      case Corrupt => return Err(HandlingCorruptFileError);
      case Empty => return Err(HandlingEmptyFileError);
      case Failed(f) => return Err(f);
      case Extracted(mc, s, p) =>
        var neo := "Neo" in mc;
        var l := SampleList(s, neo);
        var matching := site.FindMatchingProject(p.projectId);
        if matching.Err? {
          return Err(matching.fault);
        }
        var sp := SplitProjectName(p.projectId);
        if sp.Err? {
          return Err(sp.fault);
        }
        var update := l[1..] + [l[0]];
        if matching.value.Some? {
          r := Write(site, UpdateSample(if neo then UpdateColumns else ShortUpdateColumns, update));
          return;
        }
        if Engine.IsStandardSample(s.sampleName) {
          var fam := site.QueryFamily(sp.value.sqlPattern);
          if |fam.value| > 0 {
            var pid := ClosestProject(fam.value, sp.value.date);
            if pid.Err? {
              return Err(pid.fault);
            }
            l := l[1 := Text(pid.value)];
            var neoHplc := Contains(p.hplcInstrument, "Neo");
            r := Write(site, UpdateSample(if neoHplc then UpdateColumns else ShortUpdateColumns, update));
            return;
          }
        }
        r := Write(site, InsertProject(p));
        if r.Err? {
          return;
        }
        r := Write(site, UpdateSample(if neo then UpdateColumns else ShortUpdateColumns, update));
    }
  }

  method MissingFilesFromDatabase(site: Site, names: seq<string>) returns (r: Result<seq<string>>)
    modifies site
    ensures var m := MissingFilesOn(old(site.State()), names);
      && (m.Err? ==> r == Err(m.fault) && site.State() == old(site.State()))
      && (m.Ok? ==> r == Ok(m.value.0) && site.State() == m.value.1)
  {
    if !site.dbOnline {
      return Err(DatabaseError);
    }
    site.scratch := names;
    var missing := LeftJoinMissing(site.scratch, site.samples);
    site.scratch := [];
    r := Ok(missing);
  }

  /** The LEFT JOIN ... IS NULL over the scratch table, name by name. */
  method LeftJoinMissing(names: seq<string>, rows: seq<Row>) returns (missing: seq<string>)
    ensures missing == AntiJoin(names, rows)
  {
    missing := [];
    var i := 0;
    while i < |names|
      invariant 0 <= i <= |names|
      invariant missing == AntiJoin(names[..i], rows)
    {
      AntiJoinSnoc(names[..i], rows, names[i]);
      assert names[..i + 1] == names[..i] + [names[i]];
      if !HasKey(rows, names[i]) {
        missing := missing + [names[i]];
      }
      i := i + 1;
    }
    assert names[..|names|] == names;
  }

  lemma {:induction false} AntiJoinSnoc(names: seq<string>, rows: seq<Row>, x: string)
    ensures AntiJoin(names + [x], rows) == AntiJoin(names, rows) + (if HasKey(rows, x) then [] else [x])
    decreases |names|
  {
    if |names| > 0 {
      assert (names + [x])[1..] == names[1..] + [x];
      AntiJoinSnoc(names[1..], rows, x);
    } else {
      assert names + [x] == [x];
    }
  }

  method SampleNotInDatabase(site: Site, path: string) returns (r: Result<bool>)
    ensures r == SampleNotInDatabaseOn(site.State(), path)
  {
    if !site.dbOnline {
      return Err(DatabaseError);
    }
    r := Ok(!Logic.AnySampleLike(site.State(), Basename(path)));
  }
}
