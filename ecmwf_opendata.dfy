/**
 * ingest/ecmwf_opendata/__init__.py: ECMWFOpenData. The object holds a request for the 00z
 * high-resolution forecast (five parameters, steps 0 to 144 hours by 3). A run asks the open-data
 * client for the newest available run, skips it when the stored last_update already names it,
 * otherwise stores a temporary target into the request, retrieves into it, converts the GRIB file
 * and sends one ingest command per parameter before committing the run's date.
 */
module EcmwfOpenData {
  import opened Wrappers
  import opened Errors
  import opened Json
  import opened DateUtils
  import opened Utils
  import opened Ingest
  import opened Ranges
  import R = EcmwfRequest

  /** One entry of `self.params`: the GRIB short name and, optionally, the layer name ("" when absent). */
  datatype Param = Param(variable: string, name: string)

  const Params: seq<Param> :=
    [Param("2t", "t2m"), Param("tp", ""), Param("msl", ""), Param("10u", ""), Param("10v", "")]

  /** The layer a parameter is ingested under: its name when it has one, else its variable. */
  function LayerName(p: Param): string
  {
    if p.name != "" then p.name else p.variable
  }

  /** `self.steps`: the forecast steps in hours. */
  function Steps(): seq<int>
  {
    Range(0, 145, 3)
  }

  /** `self.request` as __init__ builds it: stream, type, the parameters' variables in order, the
      00z time and the steps. */
  function InitialRequest(params: seq<Param>, steps: seq<int>): R.Dict<R.Value>
  {
    [("stream", R.Str("oper")), ("type", R.Str("fc")),
     ("param", R.Items(seq(|params|, i requires 0 <= i < |params| => R.Str(params[i].variable)))),
     ("time", R.Num(0)),
     ("step", R.Items(seq(|steps|, i requires 0 <= i < |steps| => R.Num(steps[i]))))]
  }

  /** The request names its stream and type as strings, so the namespace can be formed from them. */
  predicate Named(request: R.Dict<R.Value>)
  {
    R.LookupOr(request, "stream", R.Nil).Str? && R.LookupOr(request, "type", R.Nil).Str?
  }

  /** The ingest namespace of one parameter: `{stream}_{type}_{layer}`. */
  function Namespace(request: R.Dict<R.Value>, p: Param): string
    requires Named(request)
  {
    R.LookupOr(request, "stream", R.Nil).s + "_" + R.LookupOr(request, "type", R.Nil).s + "_" + LayerName(p)
  }

  function IngestEvents(outputDir: string, request: R.Dict<R.Value>, params: seq<Param>): seq<Event>
    requires Named(request)
  {
    seq(|params|, i requires 0 <= i < |params| =>
      Ingest(TifPayload(Namespace(request, params[i]), outputDir + "/" + LayerName(params[i]))))
  }

  /** The remote side of a run: what the client's latest() returns for a request (None standing for
      a falsy result), what retrieve() does with a request, the exit status of grib_to_netcdf and
      the outcome of writing the per-step rasters. */
  datatype OpenDataRemote = OpenDataRemote(
    latest: R.Dict<R.Value> -> Result<Option<DateTime>, Error>,
    retrieve: R.Dict<R.Value> -> Outcome<Error>,
    gribExit: int,
    rasters: Outcome<Error>)

  /** What latest() returns is a real datetime. */
  predicate LatestValid(x: Result<Option<DateTime>, Error>)
  {
    x.Ok? && x.value.Some? ==> Valid(x.value.value)
  }

  /** process(temp_file): convert to netCDF, write the rasters, and return True. */
  function Process(tmp: string, nc: string, remote: OpenDataRemote): (r: Result<bool, Error>)
    ensures r != Ok(false)
    ensures r.Ok? <==> remote.gribExit == 0 && remote.rasters.Pass?
  {
    match GribToNetcdf(tmp, nc, remote.gribExit)
    case Err(e) => Err(e)
    case Ok(_) => if remote.rasters.Fail? then Err(remote.rasters.error) else Ok(true)
  }

  /** run(), given what get_state returned, the request before the run and the temporary file names:
      the plan of the run and the request it leaves behind. */
  function RunPlan(state: Option<Json>, outputDir: string, params: seq<Param>, request: R.Dict<R.Value>,
                   remote: OpenDataRemote, tmp: string, nc: string): (Plan, R.Dict<R.Value>)
    requires Named(request) && LatestValid(remote.latest(request))
  {
    match remote.latest(request)
    case Err(e) => (Plan(Fail(e), [], None), request)
    case Ok(found) =>
      if found.None? then (Plan(Pass, [], None), request)
      else
        var latestStr := IsoFormat(found.value);
        match UpToDate(state, latestStr)
        case Err(e) => (Plan(Fail(e), [], None), request)
        case Ok(current) =>
          if current then (Plan(Pass, [], None), request)
          else Fetched(outputDir, params, request, remote, tmp, nc, latestStr)
  }

  /** The rest of run() once the date is known to be new: store the target, retrieve, process, send
      the ingest commands and commit `latestStr`. */
  function Fetched(outputDir: string, params: seq<Param>, request: R.Dict<R.Value>,
                   remote: OpenDataRemote, tmp: string, nc: string, latestStr: string): (Plan, R.Dict<R.Value>)
    requires Named(request)
  {
    var target := R.Put(request, "target", R.Str(tmp));
    assert Named(target) by { TargetKeepsNames(request, tmp); }
    var fetch := [Retrieve(tmp)];
    match remote.retrieve(target)
    case Fail(e) => (Plan(Fail(e), fetch, None), target)
    case Pass =>
      match Process(tmp, nc, remote)
      case Err(e) => (Plan(Fail(e), fetch, None), target)
      case Ok(processed) =>
        if processed then (Plan(Pass, fetch + IngestEvents(outputDir, target, params), Some(Str(latestStr))), target)
        else (Plan(Pass, fetch, None), target)
  }

  /** Storing the target leaves stream and type as they were. */
  lemma TargetKeepsNames(request: R.Dict<R.Value>, tmp: string)
    ensures R.LookupOr(R.Put(request, "target", R.Str(tmp)), "stream", R.Nil) == R.LookupOr(request, "stream", R.Nil)
    ensures R.LookupOr(R.Put(request, "target", R.Str(tmp)), "type", R.Nil) == R.LookupOr(request, "type", R.Nil)
  {
    R.PutOther(request, "target", R.Str(tmp), "stream", R.Nil);
    R.PutOther(request, "target", R.Str(tmp), "type", R.Nil);
  }

  class ECMWFOpenData {
    const base: DataIngest
    const params: seq<Param>
    const steps: seq<int>
    var request: R.Dict<R.Value>

    /** The request keeps the stream and type __init__ gave it. */
    predicate Valid()
      reads this
    {
      R.LookupOr(request, "stream", R.Nil) == R.Str("oper") && R.LookupOr(request, "type", R.Nil) == R.Str("fc")
    }

    /** __init__, given the DataIngest the base class validated. */
    constructor (base: DataIngest)
      ensures this.base == base && params == Params && steps == Steps()
      ensures request == InitialRequest(Params, Steps())
      ensures Valid()
    {
      this.base := base;
      params := Params;
      steps := Steps();
      request := InitialRequest(Params, Steps());
    }

    /** run(). `tmp` and `nc` are the names tempfile hands out for the download and the netCDF file. */
    method Run(disk: Disk, remote: OpenDataRemote, tmp: string, nc: string) returns (r: Outcome<Error>, events: seq<Event>)
      requires Valid() && LatestValid(remote.latest(request))
      modifies this, disk
      ensures Valid()
      ensures var (plan, after) := RunPlan(ReadStateValue(old(disk.files), disk.stateFile, base.datasetId),
                                           base.outputDir, params, old(request), remote, tmp, nc);
        && r == plan.outcome && events == plan.events && request == after
        && disk.files == Committed(ReadStateFiles(old(disk.files), disk.stateFile, base.datasetId),
                                   disk.stateFile, base.datasetId, plan.commit)
    {
      ghost var files0 := disk.files;
      var read := GetState(disk, base, NoFailure);
      var state := read.value;
      events := [];
      var latest := remote.latest(request);
      if latest.Err? {
        return Fail(latest.error), events;
      }
      if latest.value.None? {
        return Pass, events;
      }
      var latestStr := IsoFormat(latest.value.value);
      var current := UpToDate(state, latestStr);
      if current.Err? {
        return Fail(current.error), events;
      }
      if current.value {
        return Pass, events;
      }
      ReadThenCommit(files0, disk.stateFile, base.datasetId, Str(latestStr));
      r, events := Fetch(disk, remote, tmp, nc, latestStr);
    }

    /** The part of run() after the skip test. */
    method Fetch(disk: Disk, remote: OpenDataRemote, tmp: string, nc: string, latestStr: string)
      returns (r: Outcome<Error>, events: seq<Event>)
      requires Valid()
      requires UpdateStateFiles(disk.files, disk.stateFile, base.datasetId, Marker(Str(latestStr))).Ok?
      modifies this, disk
      ensures Valid()
      ensures var (plan, after) := Fetched(base.outputDir, params, old(request), remote, tmp, nc, latestStr);
        && r == plan.outcome && events == plan.events && request == after
        && disk.files == Committed(old(disk.files), disk.stateFile, base.datasetId, plan.commit)
    {
      TargetKeepsNames(request, tmp);
      request := R.Put(request, "target", R.Str(tmp));
      events := [Retrieve(tmp)];
      var retrieved := remote.retrieve(request);
      if retrieved.Fail? {
        return retrieved, events;
      }
      var processed := Process(tmp, nc, remote);
      if processed.Err? {
        return Fail(processed.error), events;
      }
      if !processed.value {
        return Pass, events;
      }
      var sent := SendIngestCommands(base.outputDir, request, params);
      events := events + sent;
      r := UpdateState(disk, base, Str(latestStr), NoFailure);
    }
  }

  /** The loop over `self.params` that sends one ingest command per parameter. */
  method SendIngestCommands(outputDir: string, request: R.Dict<R.Value>, params: seq<Param>) returns (events: seq<Event>)
    requires Named(request)
    ensures events == IngestEvents(outputDir, request, params)
  {
    events := [];
    var i := 0;
    while i < |params|
      invariant 0 <= i <= |params|
      invariant events == IngestEvents(outputDir, request, params[..i])
    {
      events := events + [Ingest(TifPayload(Namespace(request, params[i]), outputDir + "/" + LayerName(params[i])))];
      assert params[..i + 1] == params[..i] + [params[i]];
      i := i + 1;
    }
    assert params[..i] == params;
  }

  // ---------------------------------------------------------------- what the object and a run promise

  /** The steps are 0, 3, ..., 144: 49 of them. */
  lemma StepsAre()
    ensures |Steps()| == 49
    ensures forall i :: 0 <= i < 49 ==> Steps()[i] == 3 * i
  {
    RangeLength(0, 145, 3, 49);
    forall i | 0 <= i < 49
      ensures Steps()[i] == 3 * i
    {
      RangeAt(0, 145, 3, i);
    }
  }

  /** The request asks for the parameters' variables, in the order of `self.params`, and for every step. */
  lemma RequestAsksForParams()
    ensures var q := InitialRequest(Params, Steps());
      && R.LookupOr(q, "param", R.Nil) == R.Items([R.Str("2t"), R.Str("tp"), R.Str("msl"), R.Str("10u"), R.Str("10v")])
      && R.LookupOr(q, "time", R.Nil) == R.Num(0)
      && R.LookupOr(q, "step", R.Nil) == R.Items(seq(49, i requires 0 <= i < 49 => R.Num(3 * i)))
      && R.Names(q) == ["stream", "type", "param", "time", "step"]
  {
    StepsAre();
    var q := InitialRequest(Params, Steps());
    assert q[1..][1..] == q[2..] && q[2..][1..] == q[3..] && q[3..][1..] == q[4..];
    assert R.LookupOr(q, "param", R.Nil) == R.LookupOr(q[1..], "param", R.Nil) == R.LookupOr(q[2..], "param", R.Nil) == q[2].1;
    assert R.LookupOr(q, "time", R.Nil) == R.LookupOr(q[1..], "time", R.Nil) == R.LookupOr(q[2..], "time", R.Nil)
      == R.LookupOr(q[3..], "time", R.Nil) == q[3].1;
    assert R.LookupOr(q, "step", R.Nil) == R.LookupOr(q[1..], "step", R.Nil) == R.LookupOr(q[2..], "step", R.Nil)
      == R.LookupOr(q[3..], "step", R.Nil) == R.LookupOr(q[4..], "step", R.Nil) == q[4].1;
    assert q[4].1 == R.Items(seq(49, i requires 0 <= i < 49 => R.Num(3 * i)));
  }

  /** The layer names: t2m for 2t, the variable itself for the others. */
  lemma LayerNames()
    ensures seq(|Params|, i requires 0 <= i < |Params| => LayerName(Params[i])) == ["t2m", "tp", "msl", "10u", "10v"]
  {
  }

  /** Nothing happens, and the request is left as it was, when latest() is falsy or the stored
      last_update is its isoformat(). */
  lemma SkipWhenCurrent(state: Option<Json>, outputDir: string, params: seq<Param>, request: R.Dict<R.Value>,
                        remote: OpenDataRemote, tmp: string, nc: string)
    requires Named(request) && LatestValid(remote.latest(request))
    requires remote.latest(request) == Ok(None)
      || (remote.latest(request).Ok? && remote.latest(request).value.Some?
          && state.Some? && state.value.Obj? && "last_update" in state.value.fields
          && state.value.fields["last_update"] == Str(IsoFormat(remote.latest(request).value.value)))
    ensures RunPlan(state, outputDir, params, request, remote, tmp, nc) == (Plan(Pass, [], None), request)
  {
    if remote.latest(request) != Ok(None) {
      assert |IsoFormat(remote.latest(request).value.value)| > 0;
    }
  }

  /** Once the date is new: the retrieve goes to the request with the temporary target stored in
      it, and the run commits `latestStr` exactly when retrieve and processing succeed, after one
      ingest command per parameter. */
  lemma FetchedCommitIff(outputDir: string, params: seq<Param>, request: R.Dict<R.Value>,
                         remote: OpenDataRemote, tmp: string, nc: string, latestStr: string)
    requires Named(request)
    ensures var (plan, after) := Fetched(outputDir, params, request, remote, tmp, nc, latestStr);
      var target := R.Put(request, "target", R.Str(tmp));
      && after == target && plan.events[0] == Retrieve(tmp)
      && (plan.commit.Some? <==> remote.retrieve(target).Pass? && remote.gribExit == 0 && remote.rasters.Pass?)
      && (plan.commit.Some? ==>
          && plan.commit == Some(Str(latestStr))
          && plan.outcome.Pass?
          && |plan.events| == 1 + |params|)
  {
  }

  /** The ingest commands of a committing run come in the order of the parameters, under
      `{stream}_{type}_{layer}`. */
  lemma FetchedIngests(outputDir: string, params: seq<Param>, request: R.Dict<R.Value>,
                       remote: OpenDataRemote, tmp: string, nc: string, latestStr: string, i: nat)
    requires R.LookupOr(request, "stream", R.Nil) == R.Str("oper") && R.LookupOr(request, "type", R.Nil) == R.Str("fc")
    requires Fetched(outputDir, params, request, remote, tmp, nc, latestStr).0.commit.Some? && i < |params|
    ensures Fetched(outputDir, params, request, remote, tmp, nc, latestStr).0.events[i + 1]
      == Ingest(TifPayload("oper_fc_" + LayerName(params[i]), outputDir + "/" + LayerName(params[i])))
  {
    TargetKeepsNames(request, tmp);
    OperFc(LayerName(params[i]));
  }

  lemma OperFc(layer: string)
    ensures "oper" + "_" + "fc" + "_" + layer == "oper_fc_" + layer
  {
  }

  /** A run gets as far as retrieving exactly when latest() names a run that is not the stored one;
      it then does what Fetched describes, and otherwise it sends nothing and commits nothing. */
  lemma CommitIff(state: Option<Json>, outputDir: string, params: seq<Param>, request: R.Dict<R.Value>,
                  remote: OpenDataRemote, tmp: string, nc: string)
    requires Named(request) && LatestValid(remote.latest(request))
    ensures var run := RunPlan(state, outputDir, params, request, remote, tmp, nc);
      var isNew := remote.latest(request).Ok? && remote.latest(request).value.Some?
                   && UpToDate(state, IsoFormat(remote.latest(request).value.value)) == Ok(false);
      && (isNew ==> run == Fetched(outputDir, params, request, remote, tmp, nc, IsoFormat(remote.latest(request).value.value)))
      && (!isNew ==> run.0.events == [] && run.0.commit.None? && run.1 == request)
  {
  }

  /** Idempotence: after a run that committed, a second run that sees the same latest() does nothing. */
  lemma SecondRunDoesNothing(files: map<Path, Content>, path: Path, base: DataIngest, params: seq<Param>,
                             request: R.Dict<R.Value>, remote: OpenDataRemote, tmp: string, nc: string)
    requires Named(request) && LatestValid(remote.latest(request))
    requires RunPlan(ReadStateValue(files, path, base.datasetId), base.outputDir, params, request, remote, tmp, nc).0.commit.Some?
    ensures var (plan, after) := RunPlan(ReadStateValue(files, path, base.datasetId), base.outputDir, params, request, remote, tmp, nc);
      var files' := Committed(ReadStateFiles(files, path, base.datasetId), path, base.datasetId, plan.commit);
      && Named(after)
      && (remote.latest(after) == remote.latest(request) ==>
            RunPlan(ReadStateValue(files', path, base.datasetId), base.outputDir, params, after, remote, tmp, nc)
              == (Plan(Pass, [], None), after))
      && ReadStateFiles(files', path, base.datasetId) == files'
  {
    TargetKeepsNames(request, tmp);
    var d := remote.latest(request).value.value;
    var latestStr := IsoFormat(d);
    ReadThenCommit(files, path, base.datasetId, Str(latestStr));
    assert |latestStr| > 0;
    assert Get(Marker(Str(latestStr)), "last_update") == Ok(Str(latestStr));
  }
}
