// Building the two records of one acquisition file from what the vendor
// reader reports: resolving the device names to an MS and an HPLC
// instrument, scanning the trailer labels for the analyzer temperature and
// the FAIMS flag, and shaping the sample by whether a Neo pump was used.
// The reader itself is outside the model: its answers are parameters.

module Metadata {
  import opened Basics
  import opened Paths
  import opened Entities
  import opened Common
  import opened Store
  import opened Engine

  // ---------------------------------------------------------------------
  // Device names

  /** The first name, in list order, that is a key of `dict`, and its value. */
  function FirstInDict(names: seq<string>, dict: map<string, string>): (r: Result<string>)
    ensures r.Err? <==> forall i :: 0 <= i < |names| ==> names[i] !in dict
    ensures r.Err? ==> r.fault == AttributeError
    ensures r.Ok? ==> exists i :: 0 <= i < |names| && names[i] in dict && r.value == dict[names[i]]
                        && forall j :: 0 <= j < i ==> names[j] !in dict
  {
    if |names| == 0 then Err(AttributeError)
    else if names[0] in dict then
      assert names[0] in dict && dict[names[0]] == dict[names[0]];
      Ok(dict[names[0]])
    else
      var r := FirstInDict(names[1..], dict);
      if r.Ok? then
        var i :| 0 <= i < |names[1..]| && names[1..][i] in dict && r.value == dict[names[1..][i]]
                 && forall j :: 0 <= j < i ==> names[1..][j] !in dict;
        assert names[i + 1] in dict && r.value == dict[names[i + 1]];
        r
      else
        assert forall i :: 1 <= i < |names| ==> names[i] == names[1..][i - 1];
        r
  }

  /** `_get_from_dict`: the first-hit search loop. */
  method GetFromDict(names: seq<string>, dict: map<string, string>) returns (r: Result<string>)
    ensures r == FirstInDict(names, dict)
  {
    var k := 0;
    while k < |names|
      invariant 0 <= k <= |names|
      invariant FirstInDict(names, dict) == FirstInDict(names[k..], dict)
    {
      if names[k] in dict {
        return Ok(dict[names[k]]);
      }
      assert names[k..][1..] == names[k + 1..];
      k := k + 1;
    }
    return Err(AttributeError);
  }

  /** A device list of one name is completed with "EvoSep". */
  function PadDevices(names: seq<string>): (r: seq<string>)
    ensures |names| == 1 ==> r == names + ["EvoSep"]
    ensures |names| != 1 ==> r == names
  {
    if |names| == 1 then names + ["EvoSep"] else names
  }

  /** What the reader gives for the instrument-method device names. */
  datatype DeviceRead =
    | NotWindows              // the method is not read off Windows
    | ReadFailed              // NullReferenceException from the reader
    | Devices(names: seq<string>)

  predicate Known(name: string, machines: map<string, string>, hplcs: map<string, string>)
  {
    name in machines || name in hplcs
  }

  /** MachineCombination: [MS, HPLC], or empty when the first two names are not both known. */
  function MachineCombination(read: DeviceRead, machines: map<string, string>, hplcs: map<string, string>): (r: Result<seq<string>>)
    ensures r.Ok? ==> |r.value| == 0 || |r.value| == 2
  {
    match read
    case NotWindows => Ok([])
    case ReadFailed => Err(HandlingCorruptFileError)
    case Devices(names) =>
      var ds := PadDevices(names);
      if |ds| == 0 then Err(IndexError)
      else if !Known(ds[0], machines, hplcs) then Ok([])
      else if |ds| < 2 then Err(IndexError)
      else if !Known(ds[1], machines, hplcs) then Ok([])
      else
        var ms := FirstInDict(ds, machines);
        var lc := FirstInDict(ds, hplcs);
        if ms.Err? then Err(ms.fault)
        else if lc.Err? then Err(lc.fault)
        else Ok([ms.value, lc.value])
  }

  /**
   * A combination is found exactly when the (padded) first two names are both
   * known and each dictionary has some name of the list; its MS entry is the
   * first name's value when that name is an MS.
   */
  lemma CombinationFound(names: seq<string>, machines: map<string, string>, hplcs: map<string, string>)
    requires |names| >= 1
    ensures var ds := PadDevices(names);
      var r := MachineCombination(Devices(names), machines, hplcs);
      && (r.Ok? && |r.value| == 2 <==>
            Known(ds[0], machines, hplcs) && Known(ds[1], machines, hplcs)
            && FirstInDict(ds, machines).Ok? && FirstInDict(ds, hplcs).Ok?)
      && (r.Ok? && |r.value| == 2 && ds[0] in machines ==> r.value[0] == machines[ds[0]])
      && (r.Ok? && |r.value| == 2 && ds[0] !in hplcs && ds[1] in hplcs ==> r.value[1] == hplcs[ds[1]])
  {
  }

  /** One MS name alone is paired with the EvoSep entry of the HPLC dictionary. */
  lemma SingleDeviceIsEvoSep(ms: string, machines: map<string, string>, hplcs: map<string, string>)
    requires ms in machines && ms !in hplcs && "EvoSep" in hplcs
    ensures MachineCombination(Devices([ms]), machines, hplcs) == Ok([machines[ms], hplcs["EvoSep"]])
  {
    assert PadDevices([ms]) == [ms, "EvoSep"];
  }

  // ---------------------------------------------------------------------
  // Trailer labels

  const TemperatureLabel: string := "Analyzer Temperature:"
  const FaimsLabel: string := "FAIMS Attached:"

  /** The index of the last label containing `key`. */
  function LastMatching(labels: seq<string>, key: string): (r: Option<nat>)
    ensures r.None? <==> forall i :: 0 <= i < |labels| ==> !Contains(labels[i], key)
    ensures r.Some? ==> r.value < |labels| && Contains(labels[r.value], key)
                        && forall j :: r.value < j < |labels| ==> !Contains(labels[j], key)
  {
    if |labels| == 0 then None
    else if Contains(labels[|labels| - 1], key) then Some(|labels| - 1)
    else LastMatching(labels[..|labels| - 1], key)
  }

  /** The label the scan keeps for `key`. */
  function NameAt(labels: seq<string>, at: Option<nat>): Option<string>
    requires at.Some? ==> at.value < |labels|
  {
    if at.Some? then Some(labels[at.value]) else None
  }

  /** The trailer scan: for each of the two keys, the index of the last label containing it. */
  method ScanTrailer(labels: seq<string>) returns (temperatureAt: Option<nat>, faimsAt: Option<nat>)
    ensures temperatureAt == LastMatching(labels, "Analyzer Temperature")
    ensures faimsAt == LastMatching(labels, "FAIMS Attached")
  {
    temperatureAt, faimsAt := None, None;
    var i := 0;
    while i < |labels|
      invariant 0 <= i <= |labels|
      invariant temperatureAt == LastMatching(labels[..i], "Analyzer Temperature")
      invariant faimsAt == LastMatching(labels[..i], "FAIMS Attached")
    {
      assert labels[..i + 1][..i] == labels[..i];
      if Contains(labels[i], "Analyzer Temperature") {
        temperatureAt := Some(i);
      }
      if Contains(labels[i], "FAIMS Attached") {
        faimsAt := Some(i);
      }
      i := i + 1;
    }
    assert labels[..i] == labels;
  }

  /**
   * The trailer read: HandlingEmptyFileError when the last scan number is 0;
   * ValueError unless the kept labels are exactly the temperature label and
   * the FAIMS label or nothing; otherwise the temperature field's index and
   * the FAIMS flag (`faimsValue` is the value read at scan 1).
   */
  function TrailerFields(lastScan: int, labels: seq<string>, faimsValue: string): (r: Result<(nat, string)>)
  {
    if lastScan == 0 then Err(HandlingEmptyFileError)
    else
      var t := LastMatching(labels, "Analyzer Temperature");
      var f := LastMatching(labels, "FAIMS Attached");
      if !(NameAt(labels, t) == Some(TemperatureLabel) && (NameAt(labels, f) == Some(FaimsLabel) || f.None?)) then
        Err(ValueError)
      else Ok((t.value, if f.Some? then faimsValue else "notRecorded"))
  }

  /**
   * An empty file is reported before any label check; an accepted scan has
   * the temperature label as its last temperature match and "notRecorded"
   * as FAIMS flag exactly when no label mentions FAIMS.
   */
  lemma TrailerAccepted(lastScan: int, labels: seq<string>, faimsValue: string)
    ensures lastScan == 0 ==> TrailerFields(lastScan, labels, faimsValue) == Err(HandlingEmptyFileError)
    ensures var r := TrailerFields(lastScan, labels, faimsValue);
      var f := LastMatching(labels, "FAIMS Attached");
      && (lastScan != 0 ==>
            (r.Ok? <==> LastIsTemperatureLabel(labels) && (f.None? || labels[f.value] == FaimsLabel)))
      && (r.Ok? ==> labels[r.value.0] == TemperatureLabel)
      && (r.Ok? && f.None? ==> r.value.1 == "notRecorded")
      && (r.Ok? && f.Some? ==> r.value.1 == faimsValue)
      && (r.Ok? ==> (f.None? <==> forall i :: 0 <= i < |labels| ==> !Contains(labels[i], "FAIMS Attached")))
  {
    TemperatureLabelKept(labels);
  }

  /** Some label is exactly the temperature label and no later label mentions the temperature. */
  predicate LastIsTemperatureLabel(labels: seq<string>)
  {
    exists i :: 0 <= i < |labels| && labels[i] == TemperatureLabel
                && forall j :: i < j < |labels| ==> !Contains(labels[j], "Analyzer Temperature")
  }

  /** The scan keeps the temperature label exactly when it is the last label mentioning the temperature. */
  lemma TemperatureLabelKept(labels: seq<string>)
    ensures var t := LastMatching(labels, "Analyzer Temperature");
      NameAt(labels, t) == Some(TemperatureLabel) <==> LastIsTemperatureLabel(labels)
  {
    var t := LastMatching(labels, "Analyzer Temperature");
    if LastIsTemperatureLabel(labels) {
      var i :| 0 <= i < |labels| && labels[i] == TemperatureLabel
               && forall j :: i < j < |labels| ==> !Contains(labels[j], "Analyzer Temperature");
      assert OccursAt(labels[i], "Analyzer Temperature", 0);
      assert t.Some?;
      assert t.value == i;
    }
  }

  /** An accepted trailer carried the temperature label. */
  lemma TrailerCarriesLabel(lastScan: int, labels: seq<string>, faimsValue: string)
    requires TrailerFields(lastScan, labels, faimsValue).Ok?
    ensures exists i :: 0 <= i < |labels| && labels[i] == TemperatureLabel
  {
    var t := LastMatching(labels, "Analyzer Temperature");
    assert labels[t.value] == TemperatureLabel;
  }

  // ---------------------------------------------------------------------
  // The two records

  /** What the reader reports about one file, apart from devices and trailer. */
  datatype RawHeader = RawHeader(
    opens: bool,                  // SelectInstrument does not raise NullReferenceException
    startTime: string,
    endTime: string,
    creationDate: string,         // already formatted "%Y-%m-%d %H:%M:%S.000"
    vial: string,
    injectionVolume: real,
    instrumentMethod: string,
    softwareVersion: string,
    lastScan: int,
    labels: seq<string>,
    faimsValue: string,
    temperatureMean: real,        // mean and deviation over the sampled scans
    temperatureStd: real)

  /** GetChromatogram's four pump statistics, or None when it raises ArgumentOutOfRangeException. */
  type Pump = Option<(real, real, real, real)>

  /** GetArray_SampleMetadata for the file at `path`. */
  function GetArray(path: string, h: RawHeader, read: DeviceRead, machines: map<string, string>,
                    hplcs: map<string, string>, pump: Pump): Result<(SampleEntry, ProjectEntry)>
  {
    if !h.opens then Err(HandlingCorruptFileError)
    else
      var mc := MachineCombination(read, machines, hplcs);
      if mc.Err? then Err(mc.fault)
      else
        var sp := SplitProjectName(path);
        if sp.Err? then Err(sp.fault)
        else
          var tr := TrailerFields(h.lastScan, h.labels, h.faimsValue);
          if tr.Err? then Err(tr.fault)
          else if |mc.value| < 2 then Err(IndexError)
          else Ok(Records(path, h, sp.value, mc.value[0], mc.value[1], tr.value.1, pump))
  }

  /** The sample and project records of a read whose devices and trailer resolved. */
  function Records(path: string, h: RawHeader, name: ProjectName, ms: string, lc: string, faims: string,
                   pump: Pump): (SampleEntry, ProjectEntry)
  {
    var project := ProjectEntry(name.projectId, name.date, ms, h.softwareVersion,
                                h.instrumentMethod, lc, h.startTime + "-" + h.endTime, faims);
    var base := NewSample(Basename(path), name.projectId, h.creationDate, h.vial, h.injectionVolume)
                  .(analyzerTempMean := Some(h.temperatureMean), analyzerTempStd := Some(h.temperatureStd));
    var sample :=
      if "Neo" in [ms, lc] && pump.Some? then
        base.(initialPressure := Some(pump.value.0), minPressure := Some(pump.value.1),
              maxPressure := Some(pump.value.2), stdPressure := Some(pump.value.3))
      else base;
    (sample, project)
  }

  /** The fields the two records take from their arguments. */
  lemma RecordsShape(path: string, h: RawHeader, name: ProjectName, ms: string, lc: string, faims: string,
                     pump: Pump)
    ensures var (s, p) := Records(path, h, name, ms, lc, faims, pump);
      && p.projectId == name.projectId && s.projectId == p.projectId && s.sampleName == Basename(path)
      && p.projectDate == name.date && p.msInstrument == ms && p.hplcInstrument == lc
      && (s.initialPressure.Some? <==> ("Neo" in [ms, lc] && pump.Some?))
      && s.initialPressure.Some? == s.minPressure.Some? == s.maxPressure.Some? == s.stdPressure.Some?
      && s.analyzerTempMean == Some(h.temperatureMean) && s.analyzerTempStd == Some(h.temperatureStd)
  {
  }

  /** A two-entry combination pairs an MS and an HPLC value of the dictionaries. */
  lemma CombinationFromDicts(read: DeviceRead, machines: map<string, string>, hplcs: map<string, string>)
    requires MachineCombination(read, machines, hplcs).Ok? && |MachineCombination(read, machines, hplcs).value| == 2
    ensures read.Devices?
    ensures var mc := MachineCombination(read, machines, hplcs).value;
      mc[0] in machines.Values && mc[1] in hplcs.Values
  {
    var ds := PadDevices(read.names);
    var ms := FirstInDict(ds, machines);
    var lc := FirstInDict(ds, hplcs);
    var i :| 0 <= i < |ds| && ds[i] in machines && ms.value == machines[ds[i]]
             && forall j :: 0 <= j < i ==> ds[j] !in machines;
    var k :| 0 <= k < |ds| && ds[k] in hplcs && lc.value == hplcs[ds[k]]
             && forall j :: 0 <= j < k ==> ds[j] !in hplcs;
  }

  /**
   * What a successful read promises: the sample is named by the basename and
   * shares the ProjectID of the name's first three tokens, the instruments
   * come from the dictionaries, and the pump fields are set exactly when one
   * of the instruments is a Neo and the chromatogram was read.
   */
  lemma GetArrayShape(path: string, h: RawHeader, read: DeviceRead, machines: map<string, string>,
                      hplcs: map<string, string>, pump: Pump)
    requires GetArray(path, h, read, machines, hplcs, pump).Ok?
    ensures var (s, p) := GetArray(path, h, read, machines, hplcs, pump).value;
      && read.Devices?
      && SplitProjectName(path).Ok? && p.projectId == SplitProjectName(path).value.projectId
      && s.projectId == p.projectId && s.sampleName == Basename(path)
      && p.projectDate == SplitProjectName(path).value.date
      && p.msInstrument in machines.Values && p.hplcInstrument in hplcs.Values
      && (s.initialPressure.Some? <==> ("Neo" in [p.msInstrument, p.hplcInstrument] && pump.Some?))
      && s.initialPressure.Some? == s.minPressure.Some? == s.maxPressure.Some? == s.stdPressure.Some?
      && s.analyzerTempMean == Some(h.temperatureMean) && s.analyzerTempStd == Some(h.temperatureStd)
      && CarriesTemperatureLabel(h)
  {
    var mc := MachineCombination(read, machines, hplcs);
    var sp := SplitProjectName(path);
    var tr := TrailerFields(h.lastScan, h.labels, h.faimsValue);
    CombinationFromDicts(read, machines, hplcs);
    TrailerCarriesLabel(h.lastScan, h.labels, h.faimsValue);
    RecordsShape(path, h, sp.value, mc.value[0], mc.value[1], tr.value.1, pump);
  }

  /** The trailer of a successful read carried the temperature label. */
  predicate CarriesTemperatureLabel(h: RawHeader)
  {
    exists i :: 0 <= i < |h.labels| && h.labels[i] == TemperatureLabel
  }

  /** Off Windows no instrument is known, so no file is ever read successfully. */
  lemma OffWindowsNeverSucceeds(path: string, h: RawHeader, machines: map<string, string>,
                                hplcs: map<string, string>, pump: Pump)
    ensures GetArray(path, h, NotWindows, machines, hplcs, pump).Err?
  {
  }

  /** The outcome as FillDatabase receives it: GetArray's own faults pass through unchanged. */
  function AsExtraction(r: Result<(SampleEntry, ProjectEntry)>): (x: Extraction)
    ensures r.Ok? <==> x.Extracted?
    ensures r.Ok? ==> x.sample == r.value.0 && x.project == r.value.1
    ensures r.Err? ==> x == Failed(r.fault)
  {
    match r
    case Ok((s, p)) => Extracted(s, p)
    case Err(f) => Failed(f)
  }

  /**
   * A file whose last scan number is 0 fails with HandlingEmptyFileError and
   * leaves the store as it was, once it opens and its devices resolve.
   */
  lemma EmptyFileIsEmpty(w: World, path: string, h: RawHeader, read: DeviceRead, machines: map<string, string>,
                         hplcs: map<string, string>, pump: Pump, julian: string -> real, daysWaiting: int,
                         listing: seq<string>)
    requires h.opens && h.lastScan == 0
    requires MachineCombination(read, machines, hplcs).Ok? && SplitProjectName(path).Ok?
    ensures FillDatabaseOn(w, AsExtraction(GetArray(path, h, read, machines, hplcs, pump)), julian, daysWaiting, listing)
      == (Err(HandlingEmptyFileError), w)
  {
  }
}
