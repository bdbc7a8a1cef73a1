/** The save options of a run: how they are read, which capture schedule
    they select, and which files a finished run writes. */
module SaveOptions {
  import opened Failures
  import opened Progression

  /** An option or parameter value, as the option dictionaries hold them. */
  datatype Value = Null | Flag(b: bool) | Text(s: string) | Number(x: real)

  type Params = map<string, Value>

  /** A local variable that option parsing either assigned or left unassigned. */
  datatype Local = Unassigned | Assigned(value: Value)

  /** Truth value of an option used as a condition. */
  predicate Truthy(v: Value)
  {
    match v
    case Null => false
    case Flag(b) => b
    case Text(s) => |s| > 0
    case Number(x) => x != 0.0
  }

  function Lookup(opts: Params, key: string): (l: Local)
    ensures l.Assigned? <==> key in opts
    ensures l.Assigned? ==> l.value == opts[key]
  {
    if key in opts then Assigned(opts[key]) else Unassigned
  }

  /** The locals that option parsing leaves behind. */
  datatype SaveSettings = SaveSettings(toDisc: bool, mode: Local, progression: Local, folder: Local, name: Local)

  /** Option parsing: a missing save mode, progression mode, folder or name
      is reported and skipped, which leaves that local unassigned; with
      saving off, both modes are set to None. */
  function Resolve(opts: Params): (s: SaveSettings)
    requires "Save to disc" in opts
    ensures s.toDisc == Truthy(opts["Save to disc"])
    ensures !s.toDisc ==> s.mode == Assigned(Null) && s.progression == Assigned(Null)
    ensures s.toDisc ==> s.mode == Lookup(opts, "Save mode")
    ensures s.toDisc ==> (s.progression.Assigned? <==> s.mode == Assigned(Text("Progression")) && "Progression mode" in opts)
    ensures s.toDisc ==> s.folder == Lookup(opts, "Save folder")
    ensures s.name.Assigned? <==> s.toDisc && "Save folder" in opts && "Save name" in opts
    ensures s.name.Assigned? ==> s.name.value == opts["Save name"]
    ensures s.toDisc && s.progression.Assigned? ==> s.progression.value == opts["Progression mode"]
  {
    if !Truthy(opts["Save to disc"]) then
      SaveSettings(false, Assigned(Null), Assigned(Null), Unassigned, Unassigned)
    else
      var mode := Lookup(opts, "Save mode");
      var progression := if mode == Assigned(Text("Progression")) then Lookup(opts, "Progression mode") else Unassigned;
      var folder := Lookup(opts, "Save folder");
      // the name is read after the folder, in the same try block
      var name := if folder.Assigned? then Lookup(opts, "Save name") else Unassigned;
      SaveSettings(true, mode, progression, folder, name)
  }

  /** The capture schedule of a run of `iterations` passes, or the failure
      that reading the modes raises. */
  function CaptureSchedule(s: SaveSettings, iterations: int): (r: Result<Schedule>)
    ensures s.mode.Unassigned? <==> r == Err(Unbound("saveMode"))
    ensures r.Ok? && r.value != NoCapture ==> s.mode == Assigned(Text("Progression"))
    ensures s.mode.Assigned? && s.mode.value != Text("Progression") ==> r == Ok(NoCapture)
    ensures r == Ok(EveryPass) <==> s.mode == Assigned(Text("Progression")) && s.progression == Assigned(Text("All"))
    ensures s.mode == Assigned(Text("Progression")) && s.progression == Assigned(Text("Logarithmic")) ==>
              r == (if iterations >= 1 then Ok(AtIndices(LogIndices(iterations))) else Err(UndefinedSchedule))
    ensures s.mode == Assigned(Text("Progression")) && s.progression.Unassigned? ==> r == Err(Unbound("progressionMode"))
    ensures s.mode == Assigned(Text("Progression")) && s.progression.Assigned? &&
            s.progression.value != Text("Logarithmic") && s.progression.value != Text("All") ==>
              r == (if iterations >= 1 then Err(Unbound("indices")) else Ok(NoCapture))
  {
    match s.mode
    case Unassigned => Err(Unbound("saveMode"))
    case Assigned(mode) =>
      if mode != Text("Progression") then Ok(NoCapture)
      else
        match s.progression
        case Unassigned => Err(Unbound("progressionMode"))
        case Assigned(pm) =>
          if pm == Text("Logarithmic") then
            if iterations >= 1 then Ok(AtIndices(LogIndices(iterations))) else Err(UndefinedSchedule)
          else if pm == Text("All") then Ok(EveryPass)
          // any other mode reads the index list, which was never computed, at the first pass
          else if iterations >= 1 then Err(Unbound("indices"))
          else Ok(NoCapture)
  }

  /** Saving off means no pass is ever captured. */
  lemma SavingOffCapturesNothing(opts: Params, iterations: int)
    requires "Save to disc" in opts && !Truthy(opts["Save to disc"])
    ensures CaptureSchedule(Resolve(opts), iterations) == Ok(NoCapture)
  {
  }

  /** A file location: the save folder joined with a file name. */
  datatype Path = Path(folder: string, file: string)

  datatype OutputFile =
    | Volume(path: Path, volume: seq<real>)
    | Stack(path: Path, volumes: seq<seq<real>>)
    | Json(path: Path, record: map<string, Params>)

  const FinalSuffix := "_FinalDeconvolved.tif"
  const ProgressionSuffix := "_DeconvolutionProgression.tif"
  const ParametersSuffix := "_DeconvolutionParameters.json"

  /** Folder and base name for the output files, or the failure that building
      a path raises: the folder is read first, then the name is appended to. */
  function Destination(s: SaveSettings): (r: Result<(string, string)>)
    ensures r.Ok? <==> s.folder.Assigned? && s.folder.value.Text? && s.name.Assigned? && s.name.value.Text?
    ensures r.Ok? ==> r.value == (s.folder.value.s, s.name.value.s)
  {
    if s.folder.Unassigned? then Err(Unbound("saveFolder"))
    else if s.name.Unassigned? then Err(Unbound("saveName"))
    else if !s.name.value.Text? then Err(WrongType("saveName"))
    else if !s.folder.value.Text? then Err(WrongType("saveFolder"))
    else Ok((s.folder.value.s, s.name.value.s))
  }

  /** The files a finished run writes: nothing with saving off; otherwise the
      final volume (Final) or the stacked snapshots (Progression), then the
      parameter record; any other mode writes the parameter record alone. */
  function Outputs(s: SaveSettings, final: seq<real>, snapshots: seq<seq<real>>, record: map<string, Params>): (r: Result<seq<OutputFile>>)
    ensures !s.toDisc ==> r == Ok([])
    ensures s.toDisc && s.mode.Assigned? ==> (r.Ok? <==> Destination(s).Ok?)
    ensures r.Ok? && s.toDisc ==> Destination(s).Ok?
    ensures r.Ok? && s.toDisc && Destination(s).Ok? ==>
              var (folder, name) := Destination(s).value;
              |r.value| == (if s.mode == Assigned(Text("Final")) || s.mode == Assigned(Text("Progression")) then 2 else 1) &&
              r.value[|r.value| - 1] == Json(Path(folder, name + ParametersSuffix), record) &&
              (s.mode == Assigned(Text("Final")) ==> r.value[0] == Volume(Path(folder, name + FinalSuffix), final)) &&
              (s.mode == Assigned(Text("Progression")) ==> r.value[0] == Stack(Path(folder, name + ProgressionSuffix), snapshots))
  {
    if !s.toDisc then Ok([])
    else if s.mode.Unassigned? then Err(Unbound("saveMode"))
    else match Destination(s)
      case Err(f) => Err(f)
      case Ok((folder, name)) =>
        var parameters := Json(Path(folder, name + ParametersSuffix), record);
        if s.mode.value == Text("Final") then Ok([Volume(Path(folder, name + FinalSuffix), final), parameters])
        else if s.mode.value == Text("Progression") then Ok([Stack(Path(folder, name + ProgressionSuffix), snapshots), parameters])
        else Ok([parameters])
  }

  /** No two files of one run share a path. */
  lemma OutputPathsDistinct(s: SaveSettings, final: seq<real>, snapshots: seq<seq<real>>, record: map<string, Params>)
    requires Outputs(s, final, snapshots, record).Ok?
    ensures var files := Outputs(s, final, snapshots, record).value;
      forall a, b :: 0 <= a < b < |files| ==> files[a].path != files[b].path
  {
    var files := Outputs(s, final, snapshots, record).value;
    if |files| == 2 {
      var name := Destination(s).value.1;
      assert |name + FinalSuffix| != |name + ParametersSuffix|;
      assert (name + ProgressionSuffix)[|name| + 15] != (name + ParametersSuffix)[|name| + 15];
    }
  }

  const DataKey := "Data Parameters"
  const ModelKey := "Image formation model parameters"
  const AlgorithmKey := "Algorithmic parameters"

  /** The parameter record as the program builds it: its data parameters are
      the module-level dictionary of the driver script, whatever properties
      the data was loaded with. */
  function ParameterRecordAsWritten(moduleDataProperties: Params, imFormation: Params, algOptions: Params): (r: map<string, Params>)
    ensures r.Keys == {DataKey, ModelKey, AlgorithmKey}
    ensures r[DataKey] == moduleDataProperties
    ensures r[ModelKey] == imFormation && r[AlgorithmKey] == algOptions
  {
    map[DataKey := moduleDataProperties, ModelKey := imFormation, AlgorithmKey := algOptions]
  }

  /** Data loaded with properties other than the module-level ones is
      recorded with the wrong data parameters. */
  lemma AsWrittenRecordsWrongProperties()
    ensures var moduleProps := map["Cycles" := Number(20.0)];
      var loadedProps := map["Cycles" := Number(10.0)];
      ParameterRecordAsWritten(moduleProps, map[], map[])[DataKey] != loadedProps
  {
    var moduleProps := map["Cycles" := Number(20.0)];
    var loadedProps := map["Cycles" := Number(10.0)];
    assert moduleProps["Cycles"] != loadedProps["Cycles"];
  }

  /** The parameter record of a run: exactly three keys, each holding the
      record this run was given. */
  function ParameterRecord(dataProperties: Params, imFormation: Params, algOptions: Params): (r: map<string, Params>)
    ensures r.Keys == {DataKey, ModelKey, AlgorithmKey}
    ensures r[DataKey] == dataProperties && r[ModelKey] == imFormation && r[AlgorithmKey] == algOptions
  {
    map[DataKey := dataProperties, ModelKey := imFormation, AlgorithmKey := algOptions]
  }
}
