/**
 * ingest/dustforecast/__init__.py: DustForecastIngest. A run reads the newest dataset name from the
 * remote THREDDS catalog, derives its date, and, unless the stored last_update already names that date,
 * downloads the file, converts it, sends one ingest command per variable and finally commits the date.
 */
module DustForecast {
  import opened Wrappers
  import opened Errors
  import opened Json
  import opened DateUtils
  import opened Utils
  import opened Ingest
  import Strings

  /** One entry of `self.variables`: the netCDF variable and the name of its layer. */
  datatype Variable = Variable(variable: string, name: string)

  const DustVariables: seq<Variable> := [Variable("OD550_DUST", "od550_dust"), Variable("SCONC_DUST", "sconc_dust")]

  datatype DustForecastIngest = DustForecastIngest(base: DataIngest, username: string, password: string,
                                                   variables: seq<Variable>)

  /** DustForecastIngest.__init__: the base checks first, then a missing username, then a missing password. */
  function NewDustForecastIngest(datasetId: string, outputDir: string, username: string, password: string)
    : (r: Result<DustForecastIngest, Error>)
    ensures NewDataIngest(datasetId, outputDir).Err? ==> r == Err(NewDataIngest(datasetId, outputDir).error)
    ensures NewDataIngest(datasetId, outputDir).Ok? && username == "" ==> r == Err(ParameterMissing("username required"))
    ensures NewDataIngest(datasetId, outputDir).Ok? && username != "" && password == "" ==>
      r == Err(ParameterMissing("password required"))
    ensures r.Ok? <==> datasetId != "" && outputDir != "" && username != "" && password != ""
    ensures r.Ok? ==> r.value.base.outputDir == outputDir && r.value.variables == DustVariables
  {
    match NewDataIngest(datasetId, outputDir)
    case Err(e) => Err(e)
    case Ok(base) =>
      if username == "" then Err(ParameterMissing("username required"))
      else if password == "" then Err(ParameterMissing("password required"))
      else Ok(DustForecastIngest(base, username, password, DustVariables))
  }

  /** The remote side of a run: the newest dataset name in the catalog (or the error of fetching or
      parsing it), the outcome of downloading that file, and what `process` returns or raises. */
  datatype DustRemote = DustRemote(catalog: Result<string, Error>, download: Outcome<Error>, process: Result<bool, Error>)

  const FileServer := "https://dust.aemet.es/thredds/fileServer/restrictedDataRoot/MULTI-MODEL/latest/"

  /** The dataset's version: the first "_"-field of its name as YYYYMMDD, rendered by isoformat. */
  function CatalogVersion(name: string): (r: Result<string, Error>)
  {
    match ParseCompactDate(Strings.Split(name, '_')[0])
    case Err(e) => Err(e)
    case Ok(d) => Ok(IsoFormat(d))
  }

  /** The ingest command for one variable's layer directory. */
  function LayerPayload(d: DustForecastIngest, v: Variable): Payload
  {
    TifPayload(v.name, d.base.outputDir + "/" + v.name)
  }

  function IngestEvents(d: DustForecastIngest, vs: seq<Variable>): seq<Event>
  {
    seq(|vs|, i requires 0 <= i < |vs| => Ingest(LayerPayload(d, vs[i])))
  }

  /** run(), given what get_state returned. */
  function RunPlan(state: Option<Json>, d: DustForecastIngest, remote: DustRemote): Plan
  {
    match remote.catalog
    case Err(e) => Plan(Fail(e), [], None)
    case Ok(name) =>
      match CatalogVersion(name)
      case Err(e) => Plan(Fail(e), [], None)
      case Ok(version) =>
        match UpToDate(state, version)
        case Err(e) => Plan(Fail(e), [], None)
        case Ok(current) =>
          if current then Plan(Pass, [], None)
          else
            var fetch := [Fetch(FileServer + name)];
            if remote.download.Fail? then Plan(remote.download, fetch, None)
            else match remote.process
              case Err(e) => Plan(Fail(e), fetch, None)
              case Ok(processed) =>
                if processed then Plan(Pass, fetch + IngestEvents(d, d.variables), Some(Str(version)))
                else Plan(Pass, fetch, None)
  }

  /** run(). */
  method Run(disk: Disk, d: DustForecastIngest, remote: DustRemote) returns (r: Outcome<Error>, events: seq<Event>)
    modifies disk
    ensures var plan := RunPlan(ReadStateValue(old(disk.files), disk.stateFile, d.base.datasetId), d, remote);
      && r == plan.outcome && events == plan.events
      && disk.files == Committed(ReadStateFiles(old(disk.files), disk.stateFile, d.base.datasetId),
                                 disk.stateFile, d.base.datasetId, plan.commit)
  {
    ghost var files0 := disk.files;
    var read := GetState(disk, d.base, NoFailure);
    var state := read.value;
    events := [];
    if remote.catalog.Err? {
      return Fail(remote.catalog.error), events;
    }
    var name := remote.catalog.value;
    var version := CatalogVersion(name);
    if version.Err? {
      return Fail(version.error), events;
    }
    var current := UpToDate(state, version.value);
    if current.Err? {
      return Fail(current.error), events;
    }
    if current.value {
      return Pass, events;
    }
    events := [Fetch(FileServer + name)];
    if remote.download.Fail? {
      return remote.download, events;
    }
    if remote.process.Err? {
      return Fail(remote.process.error), events;
    }
    if !remote.process.value {
      return Pass, events;
    }
    events := SendLayers(d, events);
    ReadThenCommit(files0, disk.stateFile, d.base.datasetId, Str(version.value));
    r := UpdateState(disk, d.base, Str(version.value), NoFailure);
  }

  /** run()'s loop over `self.variables`: one ingest command per layer, in order, after `prior`. */
  method SendLayers(d: DustForecastIngest, prior: seq<Event>) returns (events: seq<Event>)
    ensures events == prior + IngestEvents(d, d.variables)
  {
    events := prior;
    var i := 0;
    while i < |d.variables|
      invariant 0 <= i <= |d.variables|
      invariant events == prior + IngestEvents(d, d.variables[..i])
    {
      events := events + [Ingest(LayerPayload(d, d.variables[i]))];
      assert d.variables[..i + 1] == d.variables[..i] + [d.variables[i]];
      i := i + 1;
    }
    assert d.variables[..i] == d.variables;
  }

  // ---------------------------------------------------------------- what a run promises

  /** A catalog name whose first field is a valid YYYYMMDD yields that day's midnight in ISO form. */
  lemma CatalogVersionOf(date: string, rest: string)
    requires '_' !in date && ParseCompactDate(date).Ok?
    ensures CatalogVersion(date + "_" + rest) == Ok(IsoFormat(ParseCompactDate(date).value))
    ensures var d := ParseCompactDate(date).value; IsMidnight(d) && Valid(d)
  {
    var s := date + "_" + rest;
    assert s[|date|] == '_' && s[..|date|] == date;
    Strings.IndexOfUnique(s, '_', |date|);
  }

  /** When the stored last_update is the catalog's version, a run downloads nothing, sends nothing
      and commits nothing. */
  lemma SkipWhenCurrent(state: Option<Json>, d: DustForecastIngest, remote: DustRemote)
    requires remote.catalog.Ok? && CatalogVersion(remote.catalog.value).Ok?
    requires state.Some? && state.value.Obj? && "last_update" in state.value.fields
    requires state.value.fields["last_update"] == Str(CatalogVersion(remote.catalog.value).value)
    requires CatalogVersion(remote.catalog.value).value != ""
    ensures RunPlan(state, d, remote) == Plan(Pass, [], None)
  {
  }

  /** A run commits exactly when the version is new, the download succeeded and processing returned
      true. */
  lemma CommitIff(state: Option<Json>, d: DustForecastIngest, remote: DustRemote)
    ensures var plan := RunPlan(state, d, remote);
      plan.commit.Some? <==>
        && remote.catalog.Ok? && CatalogVersion(remote.catalog.value).Ok?
        && UpToDate(state, CatalogVersion(remote.catalog.value).value) == Ok(false)
        && remote.download.Pass? && remote.process == Ok(true)
  {
  }

  /** A run that commits commits the version, after one ingest command per variable, in order. */
  lemma CommittedRun(state: Option<Json>, d: DustForecastIngest, remote: DustRemote)
    requires RunPlan(state, d, remote).commit.Some?
    ensures var plan := RunPlan(state, d, remote);
        && remote.catalog.Ok? && CatalogVersion(remote.catalog.value).Ok?
        && plan.commit == Some(Str(CatalogVersion(remote.catalog.value).value))
        && plan.outcome.Pass?
        && |plan.events| == 1 + |d.variables|
        && plan.events[0] == Fetch(FileServer + remote.catalog.value)
        && forall i :: 0 <= i < |d.variables| ==>
             plan.events[i + 1] == Ingest(TifPayload(d.variables[i].name, d.base.outputDir + "/" + d.variables[i].name))
  {
    CommitIff(state, d, remote);
    var plan := RunPlan(state, d, remote);
    var name := remote.catalog.value;
    var fetch := [Fetch(FileServer + name)];
    assert plan == Plan(Pass, fetch + IngestEvents(d, d.variables), Some(Str(CatalogVersion(name).value)));
    IngestsAfter(fetch, d, d.variables);
  }

  /** The ingest commands after a single download: the i-th variable's layer at position i + 1. */
  lemma IngestsAfter(fetch: seq<Event>, d: DustForecastIngest, vs: seq<Variable>)
    requires |fetch| == 1
    ensures |fetch + IngestEvents(d, vs)| == 1 + |vs|
    ensures forall i :: 0 <= i < |vs| ==>
      (fetch + IngestEvents(d, vs))[i + 1] == Ingest(TifPayload(vs[i].name, d.base.outputDir + "/" + vs[i].name))
  {
    forall i | 0 <= i < |vs|
      ensures (fetch + IngestEvents(d, vs))[i + 1] == Ingest(LayerPayload(d, vs[i]))
    {
      assert (fetch + IngestEvents(d, vs))[i + 1] == IngestEvents(d, vs)[i];
    }
  }

  /** Idempotence: after a run that committed, a second run against the same catalog does nothing and
      leaves the file system as the first run left it. */
  lemma SecondRunDoesNothing(files: map<Path, Content>, path: Path, d: DustForecastIngest, remote: DustRemote)
    requires RunPlan(ReadStateValue(files, path, d.base.datasetId), d, remote).commit.Some?
    ensures var after := Committed(ReadStateFiles(files, path, d.base.datasetId), path, d.base.datasetId,
                                   RunPlan(ReadStateValue(files, path, d.base.datasetId), d, remote).commit);
      && RunPlan(ReadStateValue(after, path, d.base.datasetId), d, remote) == Plan(Pass, [], None)
      && ReadStateFiles(after, path, d.base.datasetId) == after
  {
    CommitIsVersion(ReadStateValue(files, path, d.base.datasetId), d, remote);
    var version := CatalogVersion(remote.catalog.value).value;
    ReadThenCommit(files, path, d.base.datasetId, Str(version));
    var after := Committed(ReadStateFiles(files, path, d.base.datasetId), path, d.base.datasetId, Some(Str(version)));
    VersionNotEmpty(remote.catalog.value);
    CurrentVersionSkips(d, remote, version);
  }

  /** What a run commits is the catalog's version. */
  lemma CommitIsVersion(state: Option<Json>, d: DustForecastIngest, remote: DustRemote)
    requires RunPlan(state, d, remote).commit.Some?
    ensures remote.catalog.Ok? && CatalogVersion(remote.catalog.value).Ok?
    ensures RunPlan(state, d, remote).commit == Some(Str(CatalogVersion(remote.catalog.value).value))
  {
  }

  /** With the catalog's own version recorded, a run stops at the up-to-date check. */
  lemma CurrentVersionSkips(d: DustForecastIngest, remote: DustRemote, version: string)
    requires remote.catalog.Ok? && CatalogVersion(remote.catalog.value) == Ok(version) && version != ""
    ensures RunPlan(Some(Marker(Str(version))), d, remote) == Plan(Pass, [], None)
  {
    assert Get(Marker(Str(version)), "last_update") == Ok(Str(version));
    assert UpToDate(Some(Marker(Str(version))), version) == Ok(true);
  }

  /** A version is an isoformat, so it is truthy. */
  lemma VersionNotEmpty(name: string)
    requires CatalogVersion(name).Ok?
    ensures CatalogVersion(name).value != ""
  {
    var d := ParseCompactDate(Strings.Split(name, '_')[0]).value;
    assert CatalogVersion(name).value == DateFormat(d) + "T" + Strings.ZeroPad(d.hour, 2) + ":" + Strings.ZeroPad(d.minute, 2) + ":" + Strings.ZeroPad(d.second, 2);
  }
}
