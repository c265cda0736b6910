// Staged units: the JSON files of the staging folder that hold a sample and
// its project until the project of the sample's family exists. The JSON
// text itself is not modelled, only the two shapes a record takes in it:
// an object keyed by field name (asdict) or a list in field order.

module Staging {
  import opened Basics
  import opened Entities

  /** One record inside a staged unit. */
  datatype Encoded =
    | Fields(fields: map<string, Value>)   // a JSON object
    | Positional(values: seq<Value>)       // a JSON list
    | Scalar                               // anything else: `Record(**x)` rejects it

  /** A file of the staging folder: both records, or text that does not hold them. */
  datatype StagedFile =
    | Unit(project: Encoded, samples: Encoded)
    | Malformed                            // invalid JSON or a missing top-level key

  /** The unit SaveToJson writes: both records as objects keyed by field name. */
  function EncodeUnit(s: SampleEntry, p: ProjectEntry): StagedFile
  {
    Unit(Fields(ProjectDict(p)), Fields(SampleDict(s)))
  }

  /**
   * The file name SaveToJson chooses: `ProjectID.json`, or
   * `ProjectID__SampleName.json` when the first is taken already (the second
   * is then overwritten if present).
   */
  function StagingName(present: set<string>, s: SampleEntry, p: ProjectEntry): (name: string)
    ensures name == p.projectId + ".json" || name == p.projectId + "__" + s.sampleName + ".json"
    ensures name == p.projectId + ".json" <==> p.projectId + ".json" !in present
  {
    if p.projectId + ".json" in present then
      assert |p.projectId + "__" + s.sampleName + ".json"| != |p.projectId + ".json"|;
      p.projectId + "__" + s.sampleName + ".json"
    else p.projectId + ".json"
  }

  /** The value under each name, in order, None where the key is absent. */
  function Cells(names: seq<string>, m: map<string, Value>): (c: seq<Option<Value>>)
    ensures |c| == |names|
    ensures forall i :: 0 <= i < |names| ==> c[i] == (if names[i] in m then Some(m[names[i]]) else None)
  {
    seq(|names|, i requires 0 <= i < |names| => if names[i] in m then Some(m[names[i]]) else None)
  }

  /** A string-typed field: present and text. */
  function TextCell(c: Option<Value>): Result<string>
  {
    if c.Some? && c.value.Text? then Ok(c.value.text) else Err(DecodeError)
  }

  /** An optional float field: absent or null gives None. */
  function NumberCell(c: Option<Value>): Result<Option<real>>
  {
    if c.None? || c.value.Null? then Ok(None)
    else if c.value.Number? then Ok(Some(c.value.num))
    else Err(DecodeError)
  }

  /** The sample's fields from the cells in field order. */
  function SampleFromCells(c: seq<Option<Value>>): (r: Result<SampleEntry>)
    requires |c| == |SampleFields|
    ensures r.Err? ==> r.fault == DecodeError
  {
    var name := TextCell(c[0]);
    var pid := TextCell(c[1]);
    var date := TextCell(c[2]);
    var vial := TextCell(c[3]);
    var p0, p1, p2, p3 := NumberCell(c[5]), NumberCell(c[6]), NumberCell(c[7]), NumberCell(c[8]);
    var t0, t1 := NumberCell(c[9]), NumberCell(c[10]);
    if name.Err? || pid.Err? || date.Err? || vial.Err? then Err(DecodeError)
    else if !(c[4].Some? && c[4].value.Number?) then Err(DecodeError)
    else if p0.Err? || p1.Err? || p2.Err? || p3.Err? || t0.Err? || t1.Err? then Err(DecodeError)
    else Ok(SampleEntry(name.value, pid.value, date.value, vial.value, c[4].value.num,
                        p0.value, p1.value, p2.value, p3.value, t0.value, t1.value))
  }

  /**
   * `SampleEntry(**m)`: every key must name a field, the five fields without
   * a default must be present, and each value must have its field's type.
   */
  function SampleFromFields(m: map<string, Value>): (r: Result<SampleEntry>)
    ensures r.Err? ==> r.fault == DecodeError
  {
    if exists f :: f in m && f !in SampleFields then Err(DecodeError)
    else SampleFromCells(Cells(SampleFields, m))
  }

  /** `ProjectEntry(**m)`: exactly the eight fields, all of them text. */
  function ProjectFromFields(m: map<string, Value>): (r: Result<ProjectEntry>)
    ensures r.Err? ==> r.fault == DecodeError
  {
    var c := Cells(ProjectFields, m);
    if exists f :: f in m && f !in ProjectFields then Err(DecodeError)
    else if exists i :: 0 <= i < |c| && TextCell(c[i]).Err? then Err(DecodeError)
    else Ok(ProjectEntry(TextCell(c[0]).value, TextCell(c[1]).value, TextCell(c[2]).value,
                         TextCell(c[3]).value, TextCell(c[4]).value, TextCell(c[5]).value,
                         TextCell(c[6]).value, TextCell(c[7]).value))
  }

  /** A sample record in either shape; a list is zipped with the field names first. */
  function DecodeSample(e: Encoded): Result<SampleEntry>
  {
    match e
    case Fields(m) => SampleFromFields(m)
    case Positional(vs) => SampleFromFields(Zip(SampleFields, vs))
    case Scalar => Err(DecodeError)
  }

  function DecodeProject(e: Encoded): Result<ProjectEntry>
  {
    match e
    case Fields(m) => ProjectFromFields(m)
    case Positional(vs) => ProjectFromFields(Zip(ProjectFields, vs))
    case Scalar => Err(DecodeError)
  }

  /** ReadJson: the file's sample and project, FileNotFound or DecodeError otherwise. */
  function ReadJson(file: Option<StagedFile>): (r: Result<(SampleEntry, ProjectEntry)>)
    ensures r.Err? ==> r.fault == (if file.None? then FileNotFound else DecodeError)
  {
    match file
    case None => Err(FileNotFound)
    case Some(Malformed) => Err(DecodeError)
    case Some(Unit(pe, se)) =>
      var s := DecodeSample(se);
      var p := DecodeProject(pe);
      if s.Err? || p.Err? then Err(DecodeError) else Ok((s.value, p.value))
  }

  /** The dictionary of a sample has its values, in field order, under the field names. */
  lemma SampleDictDecodes(s: SampleEntry)
    ensures SampleFromFields(SampleDict(s)) == Ok(s)
  {
    var m := SampleDict(s);
    SampleDictByName(s);
    var c := Cells(SampleFields, m);
    assert !(exists f :: f in m && f !in SampleFields);
    assert forall i :: 0 <= i < |SampleFields| ==> c[i] == Some(SampleTuple(s)[i]);
    TupleCells(s, c);
  }

  lemma TupleCells(s: SampleEntry, c: seq<Option<Value>>)
    requires |c| == |SampleFields|
    requires forall i :: 0 <= i < |SampleFields| ==> c[i] == Some(SampleTuple(s)[i])
    ensures SampleFromCells(c) == Ok(s)
  {
    var t := SampleTuple(s);
    assert c[0] == Some(Text(s.sampleName)) && c[1] == Some(Text(s.projectId));
    assert c[2] == Some(Text(s.creationDate)) && c[3] == Some(Text(s.vial));
    assert c[4] == Some(Number(s.injectionVolume));
    assert c[5] == Some(OptValue(s.initialPressure)) && c[6] == Some(OptValue(s.minPressure));
    assert c[7] == Some(OptValue(s.maxPressure)) && c[8] == Some(OptValue(s.stdPressure));
    assert c[9] == Some(OptValue(s.analyzerTempMean)) && c[10] == Some(OptValue(s.analyzerTempStd));
    NumberCellOfOpt(s.initialPressure);
    NumberCellOfOpt(s.minPressure);
    NumberCellOfOpt(s.maxPressure);
    NumberCellOfOpt(s.stdPressure);
    NumberCellOfOpt(s.analyzerTempMean);
    NumberCellOfOpt(s.analyzerTempStd);
  }

  /** An optional float written as a value reads back as itself. */
  lemma NumberCellOfOpt(o: Option<real>)
    ensures NumberCell(Some(OptValue(o))) == Ok(o)
  {
  }

  lemma ProjectDictDecodes(p: ProjectEntry)
    ensures ProjectFromFields(ProjectDict(p)) == Ok(p)
  {
    var m := ProjectDict(p);
    ProjectDictByName(p);
    var c := Cells(ProjectFields, m);
    assert !(exists f :: f in m && f !in ProjectFields);
    assert forall i :: 0 <= i < |ProjectFields| ==> c[i] == Some(Text(ProjectTuple(p)[i]));
    ProjectCells(p, c);
  }

  lemma ProjectCells(p: ProjectEntry, c: seq<Option<Value>>)
    requires |c| == |ProjectFields|
    requires forall i :: 0 <= i < |ProjectFields| ==> c[i] == Some(Text(ProjectTuple(p)[i]))
    ensures !(exists i :: 0 <= i < |c| && TextCell(c[i]).Err?)
    ensures ProjectEntry(TextCell(c[0]).value, TextCell(c[1]).value, TextCell(c[2]).value,
                         TextCell(c[3]).value, TextCell(c[4]).value, TextCell(c[5]).value,
                         TextCell(c[6]).value, TextCell(c[7]).value) == p
  {
    assert TextCell(c[0]) == Ok(p.projectId) && TextCell(c[1]) == Ok(p.projectDate);
    assert TextCell(c[2]) == Ok(p.msInstrument) && TextCell(c[3]) == Ok(p.softwareVersion);
    assert TextCell(c[4]) == Ok(p.instrumentMethod) && TextCell(c[5]) == Ok(p.hplcInstrument);
    assert TextCell(c[6]) == Ok(p.timeRange) && TextCell(c[7]) == Ok(p.faimsAttached);
  }

  /** Reading back a unit SaveToJson wrote gives the same two records. */
  lemma SaveThenRead(s: SampleEntry, p: ProjectEntry)
    ensures ReadJson(Some(EncodeUnit(s, p))) == Ok((s, p))
  {
    SampleDictDecodes(s);
    ProjectDictDecodes(p);
  }

  /** Zipped with the field names, the cells are the values, then absent. */
  lemma ZipCells(names: seq<string>, vs: seq<Value>)
    requires Distinct(names)
    ensures forall f :: f in Zip(names, vs) ==> f in names
    ensures forall i :: 0 <= i < |names| ==>
      Cells(names, Zip(names, vs))[i] == (if i < |vs| then Some(vs[i]) else None)
  {
    var m := Zip(names, vs);
    forall i | 0 <= i < |names| ensures Cells(names, m)[i] == (if i < |vs| then Some(vs[i]) else None) {
      if i < |vs| {
        ZipLookup(names, vs, i);
      } else {
        assert names[i] !in names[..PairCount(names, vs)] by {
          forall j | 0 <= j < PairCount(names, vs) ensures names[..PairCount(names, vs)][j] != names[i] {
            assert names[..PairCount(names, vs)][j] == names[j];
          }
        }
      }
    }
  }

  /**
   * A legacy seven-value sample list (name, project, date, vial, volume and
   * the two temperatures) is zipped with the eleven field names, so the
   * temperatures land in the first two pump fields.
   */
  lemma LegacySevenValueList(name: string, pid: string, date: string, vial: string, volume: real, tMean: real, tStd: real)
    ensures DecodeSample(Positional([Text(name), Text(pid), Text(date), Text(vial), Number(volume), Number(tMean), Number(tStd)]))
         == Ok(SampleEntry(name, pid, date, vial, volume, Some(tMean), Some(tStd), None, None, None, None))
  {
    var vs := [Text(name), Text(pid), Text(date), Text(vial), Number(volume), Number(tMean), Number(tStd)];
    var c := PositionalCells(vs);
    SevenCells(c, name, pid, date, vial, volume, tMean, tStd);
  }

  /** A list is read as the cells of its values in field order, the missing ones absent. */
  lemma PositionalCells(vs: seq<Value>) returns (c: seq<Option<Value>>)
    ensures |c| == |SampleFields|
    ensures forall i :: 0 <= i < |SampleFields| ==> c[i] == (if i < |vs| then Some(vs[i]) else None)
    ensures DecodeSample(Positional(vs)) == SampleFromCells(c)
  {
    FieldNamesDistinct();
    var m := Zip(SampleFields, vs);
    ZipCells(SampleFields, vs);
    assert !(exists f :: f in m && f !in SampleFields);
    c := Cells(SampleFields, m);
  }

  lemma SevenCells(c: seq<Option<Value>>, name: string, pid: string, date: string, vial: string, volume: real, tMean: real, tStd: real)
    requires |c| == |SampleFields|
    requires c[0] == Some(Text(name)) && c[1] == Some(Text(pid)) && c[2] == Some(Text(date))
    requires c[3] == Some(Text(vial)) && c[4] == Some(Number(volume))
    requires c[5] == Some(Number(tMean)) && c[6] == Some(Number(tStd))
    requires c[7] == None && c[8] == None && c[9] == None && c[10] == None
    ensures SampleFromCells(c) == Ok(SampleEntry(name, pid, date, vial, volume, Some(tMean), Some(tStd), None, None, None, None))
  {
  }

  /** A list of a sample's eleven values, in field order, decodes to that sample. */
  lemma PositionalSampleDecodes(s: SampleEntry)
    ensures DecodeSample(Positional(SampleTuple(s))) == Ok(s)
  {
    var c := PositionalCells(SampleTuple(s));
    TupleCells(s, c);
  }
}
