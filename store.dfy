// The metadata database and the staging folder as the ingestion code sees
// them: the project and sample tables in rowid order, the scratch table of
// the missing-file join, the staging folder and the two log files. The
// statements the code sends are modelled one by one; how SQLite stores
// them is not.

module Store {
  import opened Basics
  import opened Paths
  import opened SqlLike
  import opened Entities
  import opened Common
  import opened Staging

  /** A row of Metadata_Sample: the columns that are not NULL, by name. */
  type Row = map<string, Value>

  function Cell(row: Row, column: string): Value
  {
    if column in row then row[column] else Null
  }

  const NameColumn: string := "SampleName_ID"
  const ErrorColumn: string := "Error"

  /** The column list of the sample insert. */
  const SampleInsertColumns: seq<string> := [
    "SampleName_ID", "ProjectID", "CreationDate", "Vial", "InjectionVolume",
    "InitialPressure_Pump", "MinPressure_Pump", "MaxPressure_Pump", "Std_Pressure_Pump",
    "AnalyzerTemp_mean", "AnalyzerTemp_std"]

  /** The columns the error-row update sets from parameters, in order. */
  const UpdateColumns: seq<string> := [
    "ProjectID", "CreationDate", "Vial", "InjectionVolume",
    "InitialPressure_Pump", "MinPressure_Pump", "MaxPressure_Pump", "Std_Pressure_Pump",
    "AnalyzerTemp_mean", "AnalyzerTemp_std"]

  /** The column list of the corrupt-file insert. */
  const CorruptColumns: seq<string> := ["SampleName_ID", "ProjectID", "Error"]

  /** Everything the ingestion code reads and writes. */
  datatype World = World(
    projects: seq<ProjectEntry>,       // Metadata_Project, in rowid order
    samples: seq<Row>,                 // Metadata_Sample, in rowid order
    scratch: seq<string>,              // TEMP_forJoin
    staged: map<string, StagedFile>,   // the staging folder, by file name
    corruptLog: seq<string>,
    emptyLog: seq<string>,
    dbOnline: bool,                    // the database file can be opened
    folderWritable: bool)              // files can be written to the staging folder

  /** The statements sent through Database_writeNewEntry. */
  datatype Statement =
    | InsertProject(project: ProjectEntry)
    | InsertSample(columns: seq<string>, values: seq<Value>)
    | UpdateSample(columns: seq<string>, values: seq<Value>)   // values end with the WHERE pattern

  // ---------------------------------------------------------------------
  // Queries

  predicate HasProject(w: World, pid: string)
  {
    exists i :: 0 <= i < |w.projects| && w.projects[i].projectId == pid
  }

  predicate HasKey(rows: seq<Row>, name: string)
  {
    exists i :: 0 <= i < |rows| && Cell(rows[i], NameColumn) == Text(name)
  }

  predicate IsSampleKey(w: World, name: string)
  {
    HasKey(w.samples, name)
  }

  /** Appending a row keeps every key and adds the row's own. */
  lemma AppendKeepsKeys(rows: seq<Row>, row: Row, name: string)
    requires HasKey(rows, name) || Cell(row, NameColumn) == Text(name)
    ensures HasKey(rows + [row], name)
  {
    if HasKey(rows, name) {
      var i :| 0 <= i < |rows| && Cell(rows[i], NameColumn) == Text(name);
      assert (rows + [row])[i] == rows[i];
    } else {
      assert (rows + [row])[|rows|] == row;
    }
  }

  /** `SELECT ProjectID, ProjectID_Date FROM Metadata_Project WHERE ProjectID LIKE ?`. */
  function FamilyRows(ps: seq<ProjectEntry>, pattern: string): (r: seq<ProjectEntry>)
    ensures forall x :: x in r ==> x in ps && Like(x.projectId, pattern)
    ensures forall i :: 0 <= i < |ps| && Like(ps[i].projectId, pattern) ==> ps[i] in r
    ensures |r| <= |ps|
  {
    if |ps| == 0 then []
    else (if Like(ps[0].projectId, pattern) then [ps[0]] else []) + FamilyRows(ps[1..], pattern)
  }

  function Family(w: World, pattern: string): seq<ProjectEntry>
  {
    FamilyRows(w.projects, pattern)
  }

  /** The order of ORDER BY on one column: NULL, then numbers, then text. */
  function Rank(v: Value): int
  {
    match v
    case Null => 0
    case Number(_) => 1
    case Text(_) => 2
  }

  predicate SqlLess(a: Value, b: Value)
  {
    if Rank(a) != Rank(b) then Rank(a) < Rank(b)
    else if a.Number? then a.num < b.num
    else if a.Text? then StrLess(a.text, b.text)
    else false
  }

  lemma SqlLessOrder(a: Value, b: Value, c: Value)
    ensures !SqlLess(a, a)
    ensures SqlLess(a, b) && SqlLess(b, c) ==> SqlLess(a, c)
    ensures a != b ==> SqlLess(a, b) || SqlLess(b, a)
  {
    if a.Text? { StrLessIrreflexive(a.text); }
    if SqlLess(a, b) && SqlLess(b, c) && a.Text? && b.Text? && c.Text? {
      StrLessTransitive(a.text, b.text, c.text);
    }
    if a != b && a.Text? && b.Text? {
      StrLessTotal(a.text, b.text);
    }
  }

  /** The first row of `ORDER BY ... DESC`: a greatest value. */
  function Greatest(vs: seq<Value>): (m: Value)
    requires |vs| > 0
    ensures m in vs
    ensures forall v :: v in vs ==> !SqlLess(m, v)
  {
    if |vs| == 1 then
      SqlLessOrder(vs[0], vs[0], vs[0]);
      vs[0]
    else
      var rest := Greatest(vs[1..]);
      assert forall v :: v in vs ==> v == vs[0] || v in vs[1..];
      SqlLessOrder(vs[0], rest, vs[0]);
      if SqlLess(vs[0], rest) then
        assert forall v :: v in vs[1..] ==> !SqlLess(rest, v);
        rest
      else
        assert forall v :: v in vs[1..] ==> !SqlLess(vs[0], v) by {
          forall v | v in vs[1..] ensures !SqlLess(vs[0], v) {
            SqlLessOrder(vs[0], v, rest);
            SqlLessOrder(v, rest, v);
          }
        }
        vs[0]
  }

  predicate InFamily(row: Row, pattern: string)
  {
    Cell(row, "ProjectID").Text? && Like(Cell(row, "ProjectID").text, pattern)
  }

  /** The CreationDate cells of the sample rows whose ProjectID is LIKE the pattern. */
  function FamilyDates(rows: seq<Row>, pattern: string): (r: seq<Value>)
    ensures |r| == 0 <==> forall i :: 0 <= i < |rows| ==> !InFamily(rows[i], pattern)
    ensures forall v :: v in r ==> exists i :: 0 <= i < |rows| && InFamily(rows[i], pattern) && Cell(rows[i], "CreationDate") == v
  {
    if |rows| == 0 then []
    else
      var rest := FamilyDates(rows[1..], pattern);
      assert forall i :: 1 <= i < |rows| ==> rows[i] == rows[1..][i - 1];
      (if InFamily(rows[0], pattern) then [Cell(rows[0], "CreationDate")] else []) + rest
  }

  /**
   * `SELECT ProjectID, CreationDate FROM Metadata_Sample WHERE ProjectID LIKE ?
   * ORDER BY CreationDate DESC LIMIT 1`, reduced to the date it reports.
   */
  function LatestFamilyDate(w: World, pattern: string): (r: Option<Value>)
    ensures r.None? <==> forall i :: 0 <= i < |w.samples| ==> !InFamily(w.samples[i], pattern)
  {
    var ds := FamilyDates(w.samples, pattern);
    if |ds| == 0 then None else Some(Greatest(ds))
  }

  // ---------------------------------------------------------------------
  // Statements

  /** The row an insert creates: each column bound to its parameter, the others NULL. */
  function NewRow(columns: seq<string>, values: seq<Value>): Row
  {
    Zip(columns, values)
  }

  predicate MatchesName(row: Row, pattern: Value)
  {
    Cell(row, NameColumn).Text? && pattern.Text? && Like(Cell(row, NameColumn).text, pattern.text)
  }

  /** The assignments of the error-row update: the parameters, and Error = "ErrorUpdated". */
  function UpdateAssignments(columns: seq<string>, values: seq<Value>): map<string, Value>
  {
    Zip(columns, values)[ErrorColumn := Text("ErrorUpdated")]
  }

  function UpdatedRows(rows: seq<Row>, assignments: map<string, Value>, pattern: Value): (r: seq<Row>)
    ensures |r| == |rows|
    ensures forall i :: 0 <= i < |rows| ==>
      r[i] == (if MatchesName(rows[i], pattern) then rows[i] + assignments else rows[i])
  {
    seq(|rows|, i requires 0 <= i < |rows| => if MatchesName(rows[i], pattern) then rows[i] + assignments else rows[i])
  }

  /**
   * One statement against the database. DatabaseError when the file cannot be
   * opened or the parameters do not fit the placeholders; IntegrityError when
   * an insert repeats a primary key (a NULL key never does).
   */
  function ExecuteOn(w: World, stmt: Statement): (r: Result<World>)
    ensures r.Err? ==> r.fault == DatabaseError || r.fault == IntegrityError
    ensures r.Ok? ==> r.value.staged == w.staged && r.value.scratch == w.scratch
    ensures r.Ok? ==> r.value.corruptLog == w.corruptLog && r.value.emptyLog == w.emptyLog
    ensures r.Ok? ==> r.value.dbOnline == w.dbOnline && r.value.folderWritable == w.folderWritable
  {
    if !w.dbOnline then Err(DatabaseError)
    else
      match stmt
      case InsertProject(p) =>
        if HasProject(w, p.projectId) then Err(IntegrityError)
        else Ok(w.(projects := w.projects + [p]))
      case InsertSample(cols, vals) =>
        if |vals| != |cols| then Err(DatabaseError)
        else
          var row := NewRow(cols, vals);
          var key := Cell(row, NameColumn);
          if key.Text? && IsSampleKey(w, key.text) then Err(IntegrityError)
          else if key.Number? && exists i :: 0 <= i < |w.samples| && Cell(w.samples[i], NameColumn) == key then Err(IntegrityError)
          else Ok(w.(samples := w.samples + [row]))
      case UpdateSample(cols, vals) =>
        if |vals| != |cols| + 1 then Err(DatabaseError)
        else Ok(w.(samples := UpdatedRows(w.samples, UpdateAssignments(cols, vals[..|cols|]), vals[|cols|])))
  }

  /** Database_writeNewEntry: a duplicate key is logged and swallowed, any other error raised. */
  function WriteNewEntryOn(w: World, stmt: Statement): (r: (Result<()>, World))
    ensures r.0.Err? ==> r.0.fault == DatabaseError && r.1 == w
  {
    var e := ExecuteOn(w, stmt);
    if e.Ok? then (Ok(()), e.value)
    else if e.fault == IntegrityError then (Ok(()), w)
    else (Err(e.fault), w)
  }

  /** write_sample_entries: the project first when one is given, then the sample. */
  function WriteSampleEntriesOn(w: World, s: SampleEntry, p: Option<ProjectEntry>): (Result<()>, World)
  {
    var first := if p.Some? then WriteNewEntryOn(w, InsertProject(p.value)) else (Ok(()), w);
    if first.0.Err? then first
    else WriteNewEntryOn(first.1, InsertSample(SampleInsertColumns, SampleTuple(s)))
  }

  /** `t[1:] + (t[0],)`: the first element moved to the end. */
  function Rotate<T>(t: seq<T>): (r: seq<T>)
    requires |t| > 0
    ensures |r| == |t| && r[|r| - 1] == t[0]
    ensures forall i :: 0 <= i < |t| - 1 ==> r[i] == t[i + 1]
  {
    t[1..] + [t[0]]
  }

  /** The rotation is undone by moving the last element back to the front. */
  lemma RotateUndone<T>(t: seq<T>)
    requires |t| > 0
    ensures [Rotate(t)[|t| - 1]] + Rotate(t)[..|t| - 1] == t
  {
    assert Rotate(t)[..|t| - 1] == t[1..];
  }

  /** replace_ErrorFile: the project first when one is given, then the update of the sample's rows. */
  function ReplaceErrorRow(w: World, s: SampleEntry, p: Option<ProjectEntry>): (Result<()>, World)
  {
    var first := if p.Some? then WriteNewEntryOn(w, InsertProject(p.value)) else (Ok(()), w);
    if first.0.Err? then first
    else WriteNewEntryOn(first.1, UpdateSample(UpdateColumns, Rotate(SampleTuple(s))))
  }

  /** write_CorruptFile: a row of name, ProjectID and Error only. */
  function WriteCorruptFileOn(w: World, name: string, pid: string, error: string): (Result<()>, World)
  {
    WriteNewEntryOn(w, InsertSample(CorruptColumns, [Text(name), Text(pid), Text(error)]))
  }

  /** SaveToJson: the unit under its staging name; a failed write is only logged. */
  function SaveToJsonOn(w: World, p: ProjectEntry, s: SampleEntry): World
  {
    if w.folderWritable then w.(staged := w.staged[StagingName(w.staged.Keys, s, p) := EncodeUnit(s, p)])
    else w
  }

  // ---------------------------------------------------------------------
  // Properties of the writes

  /** The insert binds each field of the sample to the column of the same name. */
  lemma InsertedSampleRow(s: SampleEntry)
    ensures SampleInsertColumns == SampleFields
    ensures forall i :: 0 <= i < |SampleFields| ==>
      Cell(NewRow(SampleInsertColumns, SampleTuple(s)), SampleFields[i]) == SampleTuple(s)[i]
    ensures Cell(NewRow(SampleInsertColumns, SampleTuple(s)), NameColumn) == Text(s.sampleName)
    ensures Cell(NewRow(SampleInsertColumns, SampleTuple(s)), ErrorColumn) == Null
  {
    SampleDictByName(s);
    assert ErrorColumn !in SampleFields;
  }

  /**
   * write_sample_entries against a reachable database: the project is
   * appended unless its ProjectID is present, the sample likewise, and
   * nothing else changes; an unreachable database raises and changes nothing.
   */
  lemma WriteSampleEntriesEffect(w: World, s: SampleEntry, p: Option<ProjectEntry>)
    ensures var r := WriteSampleEntriesOn(w, s, p);
      && (r.0.Ok? <==> w.dbOnline)
      && (!w.dbOnline ==> r.1 == w)
      && (w.dbOnline ==>
            r.1 == w.(projects := (if p.Some? && !HasProject(w, p.value.projectId) then w.projects + [p.value] else w.projects),
                      samples := (if IsSampleKey(w, s.sampleName) then w.samples else w.samples + [NewRow(SampleInsertColumns, SampleTuple(s))])))
  {
    InsertedSampleRow(s);
    var first := if p.Some? then WriteNewEntryOn(w, InsertProject(p.value)) else (Ok(()), w);
    if w.dbOnline {
      assert first.1.samples == w.samples;
      assert forall i :: 0 <= i < |w.samples| ==> first.1.samples[i] == w.samples[i];
      assert IsSampleKey(first.1, s.sampleName) == IsSampleKey(w, s.sampleName);
    }
  }

  /** Writing the same sample again, with no project, changes nothing. */
  lemma RewriteIsNoOp(w: World, s: SampleEntry)
    requires w.dbOnline && IsSampleKey(w, s.sampleName)
    ensures WriteSampleEntriesOn(w, s, None) == (Ok(()), w)
  {
    WriteSampleEntriesEffect(w, s, None);
  }

  lemma DistinctTail(names: seq<string>)
    requires Distinct(names) && |names| > 0
    ensures Distinct(names[1..])
  {
    forall a, b | 0 <= a < b < |names[1..]| ensures names[1..][a] != names[1..][b] {
      assert names[1..][a] == names[a + 1] && names[1..][b] == names[b + 1];
    }
  }

  /** The assignments of the update for a rotated sample tuple: every field but the name, and Error. */
  lemma ReplaceAssignments(s: SampleEntry)
    ensures var t := Rotate(SampleTuple(s));
      var a := UpdateAssignments(UpdateColumns, t[..|UpdateColumns|]);
      && NameColumn !in a
      && ErrorColumn in a && a[ErrorColumn] == Text("ErrorUpdated")
      && forall k :: 1 <= k < |SampleFields| ==> SampleFields[k] in a && a[SampleFields[k]] == SampleTuple(s)[k]
  {
    RotatedZip(s);
    UpdateColumnsExclude();
    var z := Zip(UpdateColumns, Rotate(SampleTuple(s))[..|UpdateColumns|]);
    assert NameColumn !in z;
  }

  /** The update assigns neither the key column nor, from the tuple, the Error column. */
  lemma UpdateColumnsExclude()
    ensures NameColumn !in UpdateColumns
    ensures forall k :: 0 <= k < |SampleFields| ==> SampleFields[k] != ErrorColumn
  {
  }

  /** Zipped with the update's columns, the rotated tuple puts every field but the name under its own column. */
  lemma RotatedZip(s: SampleEntry)
    ensures var z := Zip(UpdateColumns, Rotate(SampleTuple(s))[..|UpdateColumns|]);
      forall k :: 1 <= k < |SampleFields| ==> SampleFields[k] in z && z[SampleFields[k]] == SampleTuple(s)[k]
  {
    var t := Rotate(SampleTuple(s));
    var vals := t[..|UpdateColumns|];
    assert UpdateColumns == SampleFields[1..];
    FieldNamesDistinct();
    DistinctTail(SampleFields);
    var z := Zip(UpdateColumns, vals);
    forall k | 1 <= k < |SampleFields| ensures SampleFields[k] in z && z[SampleFields[k]] == SampleTuple(s)[k] {
      ZipLookup(UpdateColumns, vals, k - 1);
      assert UpdateColumns[k - 1] == SampleFields[k];
    }
  }

  lemma CellAfterAssignments(row: Row, a: map<string, Value>, column: string)
    ensures Cell(row + a, column) == (if column in a then a[column] else Cell(row, column))
  {
  }

  /**
   * The rotated tuple binds every field but the name to its own column of
   * the update, sets Error to "ErrorUpdated", and makes the name the pattern
   * of the WHERE clause; the rows' names are kept.
   */
  lemma ReplacedRows(s: SampleEntry, rows: seq<Row>)
    ensures var t := Rotate(SampleTuple(s));
      && |t| == |UpdateColumns| + 1
      && t[|UpdateColumns|] == Text(s.sampleName)
      && forall i :: 0 <= i < |rows| && MatchesName(rows[i], Text(s.sampleName)) ==>
           var row := UpdatedRows(rows, UpdateAssignments(UpdateColumns, t[..|UpdateColumns|]), Text(s.sampleName))[i];
           && Cell(row, NameColumn) == Cell(rows[i], NameColumn)
           && Cell(row, ErrorColumn) == Text("ErrorUpdated")
           && forall k :: 1 <= k < |SampleFields| ==> Cell(row, SampleFields[k]) == SampleTuple(s)[k]
  {
    var t := Rotate(SampleTuple(s));
    var a := UpdateAssignments(UpdateColumns, t[..|UpdateColumns|]);
    ReplaceAssignments(s);
    var r := UpdatedRows(rows, a, Text(s.sampleName));
    forall i | 0 <= i < |rows| && MatchesName(rows[i], Text(s.sampleName))
      ensures Cell(r[i], NameColumn) == Cell(rows[i], NameColumn)
      ensures Cell(r[i], ErrorColumn) == Text("ErrorUpdated")
      ensures forall k :: 1 <= k < |SampleFields| ==> Cell(r[i], SampleFields[k]) == SampleTuple(s)[k]
    {
      assert r[i] == rows[i] + a;
      CellAfterAssignments(rows[i], a, NameColumn);
      CellAfterAssignments(rows[i], a, ErrorColumn);
      forall k | 1 <= k < |SampleFields| ensures Cell(r[i], SampleFields[k]) == SampleTuple(s)[k] {
        CellAfterAssignments(rows[i], a, SampleFields[k]);
      }
    }
  }

  /** A staging write adds exactly one unit under the name SaveToJson picks, and touches nothing else. */
  lemma SaveToJsonEffect(w: World, p: ProjectEntry, s: SampleEntry)
    ensures var w' := SaveToJsonOn(w, p, s);
      && w'.projects == w.projects && w'.samples == w.samples
      && (w.folderWritable ==>
            var name := StagingName(w.staged.Keys, s, p);
            && w'.staged.Keys == w.staged.Keys + {name}
            && w'.staged[name] == EncodeUnit(s, p)
            && forall f :: f in w.staged && f != name ==> w'.staged[f] == w.staged[f])
      && (!w.folderWritable ==> w' == w)
  {
  }

  /** The corrupt-file row holds the name, the ProjectID and the error, and NULL elsewhere. */
  lemma CorruptRowCells(name: string, pid: string, error: string)
    ensures var row := NewRow(CorruptColumns, [Text(name), Text(pid), Text(error)]);
      && Cell(row, NameColumn) == Text(name)
      && Cell(row, "ProjectID") == Text(pid)
      && Cell(row, ErrorColumn) == Text(error)
      && Cell(row, "CreationDate") == Null
      && forall c :: c !in CorruptColumns ==> Cell(row, c) == Null
  {
    var vals := [Text(name), Text(pid), Text(error)];
    assert Distinct(CorruptColumns);
    ZipLookup(CorruptColumns, vals, 0);
    ZipLookup(CorruptColumns, vals, 1);
    ZipLookup(CorruptColumns, vals, 2);
    assert CorruptColumns[..PairCount(CorruptColumns, vals)] == CorruptColumns;
    assert "CreationDate" !in CorruptColumns;
  }

  /** write_CorruptFile adds its row unless the name is a key already, and touches nothing else. */
  lemma WriteCorruptFileEffect(w: World, name: string, pid: string, error: string)
    requires w.dbOnline
    ensures var r := WriteCorruptFileOn(w, name, pid, error);
      && r.0 == Ok(())
      && r.1 == w.(samples := (if IsSampleKey(w, name) then w.samples else w.samples + [NewRow(CorruptColumns, [Text(name), Text(pid), Text(error)])]))
  {
    CorruptRowCells(name, pid, error);
  }

  /** replace_ErrorFile leaves the staging folder alone, and without a project writes no project row. */
  lemma ReplaceErrorRowKeepsFolder(w: World, s: SampleEntry, p: Option<ProjectEntry>)
    ensures ReplaceErrorRow(w, s, p).1.staged == w.staged
    ensures p.None? ==> ReplaceErrorRow(w, s, p).1.projects == w.projects
  {
  }

  // ---------------------------------------------------------------------
  // MissingFilesFromDatabase

  /** `re.search(".raw", f)`: "raw" after some character other than a newline. */
  predicate RawSearch(f: string)
  {
    exists i :: 1 <= i <= |f| && OccursAt(f, "raw", i) && f[i - 1] != '\n'
  }

  /** Every name whose extension is ".raw" passes the search. */
  lemma RawExtensionPassesSearch(f: string)
    requires SplitExt(f).1 == ".raw"
    ensures RawSearch(f)
  {
    var stem := SplitExt(f).0;
    assert f == stem + ".raw";
    var i := |stem| + 1;
    assert f[i - 1] == '.';
    assert f[i..i + 3] == "raw";
    assert OccursAt(f, "raw", i);
  }

  function RawListed(names: seq<string>): (r: seq<string>)
    ensures forall x :: x in r <==> x in names && RawSearch(x)
  {
    if |names| == 0 then []
    else (if RawSearch(names[0]) then [names[0]] else []) + RawListed(names[1..])
  }

  /** The LEFT JOIN ... IS NULL: the names no sample row has as its key. */
  function AntiJoin(names: seq<string>, rows: seq<Row>): (r: seq<string>)
    ensures forall x :: x in r <==> x in names && !HasKey(rows, x)
  {
    if |names| == 0 then []
    else (if HasKey(rows, names[0]) then [] else [names[0]]) + AntiJoin(names[1..], rows)
  }

  function WithRawExtension(names: seq<string>): (r: seq<string>)
    ensures forall x :: x in r <==> x in names && SplitExt(x).1 == ".raw"
  {
    if |names| == 0 then []
    else (if SplitExt(names[0]).1 == ".raw" then [names[0]] else []) + WithRawExtension(names[1..])
  }

  /**
   * MissingFilesFromDatabase with `listing` the directory listing (None where
   * listing raises). The scratch table is filled with the listed names and
   * emptied again after the join.
   */
  function MissingFiles(w: World, listing: Option<seq<string>>): (seq<string>, World)
  {
    if listing.None? || !w.dbOnline then ([], w)
    else (WithRawExtension(AntiJoin(RawListed(listing.value), w.samples)), w.(scratch := []))
  }

  /**
   * The result is exactly the listed ".raw" names that are no sample's key;
   * the scratch table is empty afterwards, and nothing else changes.
   */
  lemma MissingFilesExactly(w: World, listing: Option<seq<string>>)
    ensures var (missing, w') := MissingFiles(w, listing);
      && (listing.Some? && w.dbOnline ==>
            && (forall x :: x in missing <==> x in listing.value && SplitExt(x).1 == ".raw" && !IsSampleKey(w, x))
            && w'.scratch == [])
      && (listing.None? || !w.dbOnline ==> missing == [] && w' == w)
      && w'.projects == w.projects && w'.samples == w.samples && w'.staged == w.staged
  {
    if listing.Some? && w.dbOnline {
      forall x | x in listing.value && SplitExt(x).1 == ".raw"
        ensures RawSearch(x)
      {
        RawExtensionPassesSearch(x);
      }
    }
  }

  // ---------------------------------------------------------------------
  // GetMonthsInDB

  predicate StrictlySorted(xs: seq<string>)
  {
    forall i, j :: 0 <= i < j < |xs| ==> StrLess(xs[i], xs[j])
  }

  /** `x` put into a strictly sorted list, unless it is there already. */
  function InsertSorted(x: string, xs: seq<string>): (r: seq<string>)
    requires StrictlySorted(xs)
    ensures StrictlySorted(r)
    ensures forall y :: y in r <==> y == x || y in xs
  {
    if |xs| == 0 then [x]
    else if x == xs[0] then xs
    else if StrLess(x, xs[0]) then
      assert forall j :: 0 <= j < |xs| ==> StrLess(x, xs[j]) by {
        forall j | 0 <= j < |xs| ensures StrLess(x, xs[j]) {
          if j > 0 { StrLessTransitive(x, xs[0], xs[j]); }
        }
      }
      [x] + xs
    else
      StrLessTotal(x, xs[0]);
      var rest := InsertSorted(x, xs[1..]);
      assert forall y :: y in rest ==> StrLess(xs[0], y) by {
        forall y | y in rest ensures StrLess(xs[0], y) {
          if y != x {
            var j :| 0 <= j < |xs[1..]| && xs[1..][j] == y;
            assert xs[j + 1] == y;
          }
        }
      }
      [xs[0]] + rest
  }

  /** `sorted(set(xs))`. */
  function SortedSet(xs: seq<string>): (r: seq<string>)
    ensures StrictlySorted(r)
    ensures forall y :: y in r <==> y in xs
  {
    if |xs| == 0 then [] else InsertSorted(xs[0], SortedSet(xs[1..]))
  }

  /** Online, the update of the error row stores the sample's ProjectID in every row it reaches. */
  lemma UpdateStoresProjectId(w: World, s: SampleEntry)
    requires w.dbOnline
    ensures var r := ReplaceErrorRow(w, s, None);
      && r.0 == Ok(()) && r.1.projects == w.projects && |r.1.samples| == |w.samples|
      && forall i :: 0 <= i < |w.samples| && MatchesName(w.samples[i], Text(s.sampleName)) ==>
           Cell(r.1.samples[i], "ProjectID") == Text(s.projectId)
  {
    UpdateOnline(w, s);
    ReplacedRows(s, w.samples);
    assert SampleFields[1] == "ProjectID";
  }

  /** Online, the update of the error row by a full sample tuple succeeds and changes the sample rows only. */
  lemma UpdateOnline(w: World, s: SampleEntry)
    requires w.dbOnline
    ensures var t := Rotate(SampleTuple(s));
      ReplaceErrorRow(w, s, None) == (Ok(()), w.(samples := UpdatedRows(w.samples, UpdateAssignments(UpdateColumns, t[..|UpdateColumns|]), Text(s.sampleName))))
  {
  }

  /** The months of the project dates: each date with its two trailing digits removed. */
  function ProjectMonths(ps: seq<ProjectEntry>): (ms: seq<string>)
    ensures |ms| == |ps| && forall i :: 0 <= i < |ps| ==> ms[i] == SubTail(ps[i].projectDate, "")
  {
    seq(|ps|, i requires 0 <= i < |ps| => SubTail(ps[i].projectDate, ""))
  }

  /** GetMonthsInDB; an unreachable database gives the empty list. */
  function MonthsInDB(w: World): seq<string>
  {
    if w.dbOnline then SortedSet(ProjectMonths(w.projects)) else []
  }

  /**
   * The months come back strictly increasing, each once, and online they are
   * exactly the projects' months; offline the list is empty.
   */
  lemma MonthsSortedAndComplete(w: World)
    ensures StrictlySorted(MonthsInDB(w))
    ensures !w.dbOnline ==> MonthsInDB(w) == []
    ensures w.dbOnline ==>
      forall m :: m in MonthsInDB(w) <==> exists i :: 0 <= i < |w.projects| && m == SubTail(w.projects[i].projectDate, "")
  {
    var ms := ProjectMonths(w.projects);
    forall m | m in ms ensures exists i :: 0 <= i < |w.projects| && m == SubTail(w.projects[i].projectDate, "") {
      var i :| 0 <= i < |ms| && ms[i] == m;
    }
  }

  // ---------------------------------------------------------------------
  // The database and folder as one object

  /** The state the ingestion code changes in place: the database file, the staging folder, the logs. */
  class Site {
    var projects: seq<ProjectEntry>
    var samples: seq<Row>
    var scratch: seq<string>
    var staged: map<string, StagedFile>
    var corruptLog: seq<string>
    var emptyLog: seq<string>
    var dbOnline: bool
    var folderWritable: bool

    function State(): World
      reads this
    {
      World(projects, samples, scratch, staged, corruptLog, emptyLog, dbOnline, folderWritable)
    }

    constructor(w: World)
      ensures State() == w
    {
      projects := w.projects;
      samples := w.samples;
      scratch := w.scratch;
      staged := w.staged;
      corruptLog := w.corruptLog;
      emptyLog := w.emptyLog;
      dbOnline := w.dbOnline;
      folderWritable := w.folderWritable;
    }

    /** One statement; the tables change only when it succeeds. */
    method Execute(stmt: Statement) returns (r: Result<()>)
      modifies this
      ensures var e := ExecuteOn(old(State()), stmt);
        && (e.Ok? ==> r == Ok(()) && State() == e.value)
        && (e.Err? ==> r == Err(e.fault) && State() == old(State()))
    {
      if !dbOnline {
        return Err(DatabaseError);
      }
      match stmt {
        case InsertProject(p) =>
          if HasProject(State(), p.projectId) {
            return Err(IntegrityError);
          }
          projects := projects + [p];
        case InsertSample(cols, vals) =>
          if |vals| != |cols| {
            return Err(DatabaseError);
          }
          var row := NewRow(cols, vals);
          var key := Cell(row, NameColumn);
          if key.Text? && IsSampleKey(State(), key.text) {
            return Err(IntegrityError);
          }
          if key.Number? && exists i :: 0 <= i < |samples| && Cell(samples[i], NameColumn) == key {
            return Err(IntegrityError);
          }
          samples := samples + [row];
        case UpdateSample(cols, vals) =>
          if |vals| != |cols| + 1 {
            return Err(DatabaseError);
          }
          samples := UpdatedRows(samples, UpdateAssignments(cols, vals[..|cols|]), vals[|cols|]);
      }
      r := Ok(());
    }

    method WriteNewEntry(stmt: Statement) returns (r: Result<()>)
      modifies this
      ensures (r, State()) == WriteNewEntryOn(old(State()), stmt)
    {
      r := Execute(stmt);
      if r == Err(IntegrityError) {
        r := Ok(());
      }
    }

    method WriteSampleEntries(s: SampleEntry, p: Option<ProjectEntry>) returns (r: Result<()>)
      modifies this
      ensures (r, State()) == WriteSampleEntriesOn(old(State()), s, p)
    {
      if p.Some? {
        r := WriteNewEntry(InsertProject(p.value));
        if r.Err? {
          return;
        }
      }
      r := WriteNewEntry(InsertSample(SampleInsertColumns, SampleTuple(s)));
    }

    method ReplaceErrorFile(s: SampleEntry, p: Option<ProjectEntry>) returns (r: Result<()>)
      modifies this
      ensures (r, State()) == ReplaceErrorRow(old(State()), s, p)
    {
      if p.Some? {
        r := WriteNewEntry(InsertProject(p.value));
        if r.Err? {
          return;
        }
      }
      var t := SampleTuple(s);
      r := WriteNewEntry(UpdateSample(UpdateColumns, t[1..] + [t[0]]));
    }

    method WriteCorruptFile(name: string, pid: string, error: string) returns (r: Result<()>)
      modifies this
      ensures (r, State()) == WriteCorruptFileOn(old(State()), name, pid, error)
    {
      r := WriteNewEntry(InsertSample(CorruptColumns, [Text(name), Text(pid), Text(error)]));
    }

    method SaveToJson(p: ProjectEntry, s: SampleEntry)
      modifies this
      ensures State() == SaveToJsonOn(old(State()), p, s)
    {
      var name := p.projectId + ".json";
      if name in staged {
        name := p.projectId + "__" + s.sampleName + ".json";
      }
      if folderWritable {
        staged := staged[name := EncodeUnit(s, p)];
      }
    }

    /** `os.remove` of a staged unit. */
    method RemoveStaged(name: string)
      modifies this
      ensures State() == old(State()).(staged := old(State()).staged - {name})
    {
      staged := staged - {name};
    }

    method AppendCorruptLog(file: string)
      modifies this
      ensures State() == old(State()).(corruptLog := old(State()).corruptLog + [file])
    {
      corruptLog := corruptLog + [file];
    }

    method AppendEmptyLog(file: string)
      modifies this
      ensures State() == old(State()).(emptyLog := old(State()).emptyLog + [file])
    {
      emptyLog := emptyLog + [file];
    }

    /** The count query of `_find_matching_project`. */
    method FindMatchingProject(pid: string) returns (r: Result<Option<string>>)
      ensures !dbOnline ==> r == Err(DatabaseError)
      ensures dbOnline ==> r == Ok(if HasProject(State(), pid) then Some(pid) else None)
    {
      if !dbOnline {
        return Err(DatabaseError);
      }
      var i := 0;
      while i < |projects|
        invariant 0 <= i <= |projects|
        invariant forall j :: 0 <= j < i ==> projects[j].projectId != pid
      {
        if projects[i].projectId == pid {
          return Ok(Some(pid));
        }
        i := i + 1;
      }
      r := Ok(None);
    }

    method QueryFamily(pattern: string) returns (r: Result<seq<ProjectEntry>>)
      ensures r == (if dbOnline then Ok(Family(State(), pattern)) else Err(DatabaseError))
    {
      if !dbOnline {
        return Err(DatabaseError);
      }
      r := Ok(FamilyRows(projects, pattern));
    }

    method QueryLatestFamilyDate(pattern: string) returns (r: Result<Option<Value>>)
      ensures r == (if dbOnline then Ok(LatestFamilyDate(State(), pattern)) else Err(DatabaseError))
    {
      if !dbOnline {
        return Err(DatabaseError);
      }
      r := Ok(LatestFamilyDate(State(), pattern));
    }

    /**
     * MissingFilesFromDatabase: the scratch table receives the names that pass
     * the ".raw" search, the join picks those without a sample row, and the
     * loop keeps those whose extension is ".raw".
     */
    method MissingFilesFromDatabase(listing: Option<seq<string>>) returns (missing: seq<string>)
      modifies this
      ensures missing == MissingFiles(old(State()), listing).0
      ensures State() == MissingFiles(old(State()), listing).1
    {
      if listing.None? || !dbOnline {
        return [];
      }
      scratch := RawListed(listing.value);
      var joined := AntiJoin(scratch, samples);
      scratch := [];
      missing := KeepRawExtension(joined);
    }
  }

  /** The loop over the join result: the names whose extension is ".raw", in order. */
  method KeepRawExtension(joined: seq<string>) returns (missing: seq<string>)
    ensures missing == WithRawExtension(joined)
  {
    missing := [];
    var i := 0;
    while i < |joined|
      invariant 0 <= i <= |joined|
      invariant missing == WithRawExtension(joined[..i])
    {
      RawPrefixStep(joined, i);
      if SplitExt(joined[i]).1 == ".raw" {
        missing := missing + [joined[i]];
      }
      i := i + 1;
    }
    assert joined[..|joined|] == joined;
  }

  /** One more name of the join result: kept exactly when its extension is ".raw". */
  lemma RawPrefixStep(joined: seq<string>, i: nat)
    requires i < |joined|
    ensures WithRawExtension(joined[..i + 1])
      == if SplitExt(joined[i]).1 == ".raw" then WithRawExtension(joined[..i]) + [joined[i]] else WithRawExtension(joined[..i])
  {
    WithRawExtensionSnoc(joined[..i], joined[i]);
    assert joined[..i + 1] == joined[..i] + [joined[i]];
  }

  lemma {:induction false} WithRawExtensionSnoc(names: seq<string>, x: string)
    ensures SplitExt(x).1 == ".raw" ==> WithRawExtension(names + [x]) == WithRawExtension(names) + [x]
    ensures SplitExt(x).1 != ".raw" ==> WithRawExtension(names + [x]) == WithRawExtension(names)
    decreases |names|
  {
    if |names| > 0 {
      assert (names + [x])[1..] == names[1..] + [x];
      WithRawExtensionSnoc(names[1..], x);
    } else {
      assert names + [x] == [x];
      assert WithRawExtension([x]) == (if SplitExt(x).1 == ".raw" then [x] else []) + WithRawExtension([]);
    }
  }
}
