// The two record shapes of the metadata database: one sample per acquisition
// file and one project per ProjectID, with the dataclass conversions
// (`astuple`, `asdict`) the database writes and the staging files use.

module Entities {
  import opened Basics

  /** A loose value as it travels through SQLite parameters and JSON. */
  datatype Value = Text(text: string) | Number(num: real) | Null

  /** One acquisition file: a row of Metadata_Sample. */
  datatype SampleEntry = SampleEntry(
    sampleName: string,               // SampleName_ID, the file's basename
    projectId: string,
    creationDate: string,
    vial: string,
    injectionVolume: real,
    initialPressure: Option<real>,    // the four pump fields exist only for a Neo
    minPressure: Option<real>,
    maxPressure: Option<real>,
    stdPressure: Option<real>,
    analyzerTempMean: Option<real>,
    analyzerTempStd: Option<real>)

  /** One project: a row of Metadata_Project. */
  datatype ProjectEntry = ProjectEntry(
    projectId: string,
    projectDate: string,              // ProjectID_Date, the second name token
    msInstrument: string,
    softwareVersion: string,
    instrumentMethod: string,
    hplcInstrument: string,
    timeRange: string,
    faimsAttached: string)

  /** The sample fields in declaration order; the first five have no default. */
  const SampleFields: seq<string> := [
    "SampleName_ID", "ProjectID", "CreationDate", "Vial", "InjectionVolume",
    "InitialPressure_Pump", "MinPressure_Pump", "MaxPressure_Pump", "Std_Pressure_Pump",
    "AnalyzerTemp_mean", "AnalyzerTemp_std"]

  const RequiredSampleFields: nat := 5

  const ProjectFields: seq<string> := [
    "ProjectID", "ProjectID_Date", "MSInstrument", "SoftwareVersion",
    "InstrumentMethod_print", "HPLCInstrument", "TimeRange", "FAIMSattached"]

  /** A sample built with the dataclass defaults: every optional field None. */
  function NewSample(name: string, projectId: string, date: string, vial: string, volume: real): (s: SampleEntry)
    ensures s.sampleName == name && s.projectId == projectId && s.creationDate == date
    ensures s.vial == vial && s.injectionVolume == volume
    ensures s.initialPressure.None? && s.minPressure.None? && s.maxPressure.None? && s.stdPressure.None?
    ensures s.analyzerTempMean.None? && s.analyzerTempStd.None?
  {
    SampleEntry(name, projectId, date, vial, volume, None, None, None, None, None, None)
  }

  function OptValue(o: Option<real>): Value
  {
    match o
    case None => Null
    case Some(r) => Number(r)
  }

  /** Reading one field by its declared name (attribute access). */
  function SampleField(s: SampleEntry, name: string): Option<Value>
  {
    match name
    case "SampleName_ID" => Some(Text(s.sampleName))
    case "ProjectID" => Some(Text(s.projectId))
    case "CreationDate" => Some(Text(s.creationDate))
    case "Vial" => Some(Text(s.vial))
    case "InjectionVolume" => Some(Number(s.injectionVolume))
    case "InitialPressure_Pump" => Some(OptValue(s.initialPressure))
    case "MinPressure_Pump" => Some(OptValue(s.minPressure))
    case "MaxPressure_Pump" => Some(OptValue(s.maxPressure))
    case "Std_Pressure_Pump" => Some(OptValue(s.stdPressure))
    case "AnalyzerTemp_mean" => Some(OptValue(s.analyzerTempMean))
    case "AnalyzerTemp_std" => Some(OptValue(s.analyzerTempStd))
    case _ => None
  }

  function ProjectField(p: ProjectEntry, name: string): Option<string>
  {
    match name
    case "ProjectID" => Some(p.projectId)
    case "ProjectID_Date" => Some(p.projectDate)
    case "MSInstrument" => Some(p.msInstrument)
    case "SoftwareVersion" => Some(p.softwareVersion)
    case "InstrumentMethod_print" => Some(p.instrumentMethod)
    case "HPLCInstrument" => Some(p.hplcInstrument)
    case "TimeRange" => Some(p.timeRange)
    case "FAIMSattached" => Some(p.faimsAttached)
    case _ => None
  }

  /** `dataclasses.astuple` of a sample: its eleven values in field order. */
  function SampleTuple(s: SampleEntry): (t: seq<Value>)
    ensures |t| == |SampleFields|
  {
    [Text(s.sampleName), Text(s.projectId), Text(s.creationDate), Text(s.vial),
     Number(s.injectionVolume), OptValue(s.initialPressure), OptValue(s.minPressure),
     OptValue(s.maxPressure), OptValue(s.stdPressure), OptValue(s.analyzerTempMean),
     OptValue(s.analyzerTempStd)]
  }

  /** `dataclasses.astuple` of a project. */
  function ProjectTuple(p: ProjectEntry): (t: seq<string>)
    ensures |t| == |ProjectFields|
  {
    [p.projectId, p.projectDate, p.msInstrument, p.softwareVersion,
     p.instrumentMethod, p.hplcInstrument, p.timeRange, p.faimsAttached]
  }

  /** Position i of the tuple is the field named `SampleFields[i]`. */
  lemma SampleTupleInFieldOrder(s: SampleEntry)
    ensures forall i :: 0 <= i < |SampleFields| ==> SampleField(s, SampleFields[i]) == Some(SampleTuple(s)[i])
  {
  }

  lemma ProjectTupleInFieldOrder(p: ProjectEntry)
    ensures forall i :: 0 <= i < |ProjectFields| ==> ProjectField(p, ProjectFields[i]) == Some(ProjectTuple(p)[i])
  {
  }

  /** The number of pairs `zip` forms. */
  function PairCount(names: seq<string>, values: seq<Value>): nat
  {
    if |names| < |values| then |names| else |values|
  }

  /**
   * `dict(zip(names, values))` for distinct names (the field lists are, by
   * FieldNamesDistinct): the shorter sequence decides how many pairs. A
   * repeated name would keep its first value here, its last in Python.
   */
  function Zip(names: seq<string>, values: seq<Value>): (m: map<string, Value>)
    ensures forall k :: k in m <==> k in names[..PairCount(names, values)]
  {
    if |names| == 0 || |values| == 0 then map[]
    else
      var rest := Zip(names[1..], values[1..]);
      assert names[..PairCount(names, values)] == [names[0]] + names[1..][..PairCount(names[1..], values[1..])];
      rest[names[0] := values[0]]
  }

  predicate Distinct(names: seq<string>)
  {
    forall a, b :: 0 <= a < b < |names| ==> names[a] != names[b]
  }

  /** With distinct names, value i lands under name i. */
  lemma {:induction false} ZipLookup(names: seq<string>, values: seq<Value>, i: nat)
    requires Distinct(names)
    requires i < |names| && i < |values|
    ensures names[i] in Zip(names, values) && Zip(names, values)[names[i]] == values[i]
    decreases i
  {
    if i > 0 {
      assert Distinct(names[1..]) by {
        forall a, b | 0 <= a < b < |names[1..]| ensures names[1..][a] != names[1..][b] {
          assert names[1..][a] == names[a + 1] && names[1..][b] == names[b + 1];
        }
      }
      ZipLookup(names[1..], values[1..], i - 1);
      assert names[1..][i - 1] == names[i];
      assert names[0] != names[i];
    }
  }

  lemma FieldNamesDistinct()
    ensures Distinct(SampleFields) && Distinct(ProjectFields)
  {
  }

  /** `dataclasses.asdict` of a sample: each field name mapped to its value. */
  function SampleDict(s: SampleEntry): map<string, Value>
  {
    Zip(SampleFields, SampleTuple(s))
  }

  /** `dataclasses.asdict` of a project. */
  function ProjectDict(p: ProjectEntry): map<string, Value>
  {
    Zip(ProjectFields, seq(|ProjectFields|, i requires 0 <= i < |ProjectFields| => Text(ProjectTuple(p)[i])))
  }

  /** The dictionary has exactly the field names as keys, each bound to that field's value. */
  lemma SampleDictByName(s: SampleEntry)
    ensures forall f :: f in SampleDict(s) <==> f in SampleFields
    ensures forall i :: 0 <= i < |SampleFields| ==> SampleDict(s)[SampleFields[i]] == SampleTuple(s)[i]
    ensures forall f :: f in SampleDict(s) ==> SampleField(s, f) == Some(SampleDict(s)[f])
  {
    FieldNamesDistinct();
    forall i | 0 <= i < |SampleFields| ensures SampleDict(s)[SampleFields[i]] == SampleTuple(s)[i] {
      ZipLookup(SampleFields, SampleTuple(s), i);
    }
    SampleTupleInFieldOrder(s);
  }

  lemma ProjectDictByName(p: ProjectEntry)
    ensures forall f :: f in ProjectDict(p) <==> f in ProjectFields
    ensures forall i :: 0 <= i < |ProjectFields| ==> ProjectDict(p)[ProjectFields[i]] == Text(ProjectTuple(p)[i])
    ensures forall f :: f in ProjectDict(p) ==> ProjectDict(p)[f].Text? && ProjectField(p, f) == Some(ProjectDict(p)[f].text)
  {
    FieldNamesDistinct();
    var vs := seq(|ProjectFields|, i requires 0 <= i < |ProjectFields| => Text(ProjectTuple(p)[i]));
    forall i | 0 <= i < |ProjectFields| ensures ProjectDict(p)[ProjectFields[i]] == Text(ProjectTuple(p)[i]) {
      ZipLookup(ProjectFields, vs, i);
    }
    ProjectTupleInFieldOrder(p);
  }
}
