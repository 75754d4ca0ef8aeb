/**
 * ingest/cams_forecast/__init__.py: CamsForecast. A run asks the Copernicus atmosphere data store for
 * the forecast starting the day after the stored last_update (or today at midnight), skips quietly if
 * the retrieve raises anything, writes the rasters of each parameter the file holds, sends one ingest
 * command per parameter and commits the date last.
 */
module Cams {
  import opened Wrappers
  import opened Errors
  import opened Json
  import opened DateUtils
  import opened Utils
  import opened Ingest
  import opened Ranges
  import Strings

  /** One entry of CONFIG["params"]: the requested variable, the netCDF variable and the namespace. */
  datatype CamsParam = CamsParam(variable: string, dataVar: string, name: string)

  const CamsParams := [CamsParam("particulate_matter_2.5um", "pm2p5", "cams_forecast_pm2p5")]
  const LeadTimes := Range(0, 120 + 1, 1)
  const CamsUrl := "https://ads.atmosphere.copernicus.eu/api/v2"
  const Dataset := "cams-global-atmospheric-composition-forecasts"

  /** The settings a CamsForecast keeps (its cdsapi client is the retrieve of CamsRemote). */
  datatype CamsForecast = CamsForecast(base: DataIngest, params: seq<CamsParam>, leadTimes: seq<int>, camsUrl: string)

  /** CamsForecast.__init__, given the DataIngest the base class validated. */
  function NewCamsForecast(base: DataIngest): (c: CamsForecast)
    ensures c.base == base && c.params == CamsParams && c.leadTimes == LeadTimes && c.camsUrl == CamsUrl
  {
    CamsForecast(base, CamsParams, LeadTimes, CamsUrl)
  }

  /** The "options" of the request, with the "date" that `options.update` adds. */
  datatype Options = Options(variable: seq<string>, time: string, leadtimeHour: seq<int>, forecastType: string,
                             format: string, date: Option<string>)

  /** The options run builds before it knows the date. */
  function BaseOptions(c: CamsForecast): (o: Options)
    ensures |o.variable| == |c.params| && forall i :: 0 <= i < |c.params| ==> o.variable[i] == c.params[i].variable
  {
    Options(seq(|c.params|, i requires 0 <= i < |c.params| => c.params[i].variable), "00:00", c.leadTimes,
            "forecast", "netcdf", None)
  }

  /** The options retrieve is called with for the forecast starting at `d`. */
  function RequestFor(c: CamsForecast, d: DateTime): Options
    requires Valid(d)
  {
    BaseOptions(c).(date := Some(DateFormat(d)))
  }

  /** The remote side of a run: the clock, the temporary file the data is retrieved into, the
      outcome of `client.retrieve(dataset, options, target)`, the variables of the dataset xarray opens
      from it (or the error opening it raises), and whether each namespace's rasters can be written. */
  datatype CamsRemote = CamsRemote(
    now: DateTime,
    tmp: string,
    retrieve: (string, Options, string) -> Outcome<Error>,
    open: Result<set<string>, Error>,
    rasters: string -> Outcome<Error>)

  /** The date of the forecast to fetch: the stored last_update plus 24 hours, or, without one, today
      at midnight. A last_update that is not a string raises TypeError, one that does not parse
      ValueError; a state that is not a dict raises AttributeError. */
  function NextDate(state: Option<Json>, now: DateTime): (r: Result<DateTime, Error>)
    requires Valid(now)
    ensures r.Ok? ==> Valid(r.value)
  {
    match Get(OrEmpty(state), "last_update")
    case Err(e) => Err(e)
    case Ok(last) =>
      if !Truthy(last) then Ok(Midnight(now))
      else if !last.Str? then Err(TypeError)
      else match FromIsoFormat(last.s)
        case Err(e) => Err(e)
        case Ok(d) => AddDay(d)
  }

  /** Where a parameter's rasters go, and the path of its ingest command. */
  function DataDir(c: CamsForecast, p: CamsParam): string
  {
    c.base.outputDir + "/" + p.name
  }

  /** The loop over the parameters: the rasters of a parameter the dataset holds are written (raising
      if they cannot be), then its ingest command is sent whether or not the dataset held it. */
  function SendParams(c: CamsForecast, ps: seq<CamsParam>, present: set<string>, remote: CamsRemote)
    : (Outcome<Error>, seq<Event>)
  {
    if ps == [] then (Pass, [])
    else if ps[0].dataVar in present && remote.rasters(ps[0].name).Fail? then (remote.rasters(ps[0].name), [])
    else
      var rest := SendParams(c, ps[1..], present, remote);
      (rest.0, [Ingest(TifPayload(ps[0].name, DataDir(c, ps[0])))] + rest.1)
  }

  /** What update_state is given at the end of a run. */
  function DateMarker(d: DateTime): Json
    requires Valid(d)
  {
    Obj(map["last_update" := Str(IsoFormat(d))])
  }

  /** run(), given what get_state returned. */
  function RunPlan(state: Option<Json>, c: CamsForecast, remote: CamsRemote): Plan
    requires Valid(remote.now)
  {
    match NextDate(state, remote.now)
    case Err(e) => Plan(Fail(e), [], None)
    case Ok(d) =>
      var retrieve := [Retrieve(remote.tmp)];
      if remote.retrieve(Dataset, RequestFor(c, d), remote.tmp).Fail? then Plan(Pass, retrieve, None)
      else match remote.open
        case Err(e) => Plan(Fail(e), retrieve, None)
        case Ok(present) =>
          var sent := SendParams(c, c.params, present, remote);
          if sent.0.Fail? then Plan(sent.0, retrieve + sent.1, None)
          else Plan(Pass, retrieve + sent.1, Some(DateMarker(d)))
  }

  /** run(). */
  method Run(disk: Disk, c: CamsForecast, remote: CamsRemote) returns (r: Outcome<Error>, events: seq<Event>)
    requires Valid(remote.now)
    modifies disk
    ensures var plan := RunPlan(ReadStateValue(old(disk.files), disk.stateFile, c.base.datasetId), c, remote);
      && r == plan.outcome && events == plan.events
      && disk.files == Committed(ReadStateFiles(old(disk.files), disk.stateFile, c.base.datasetId),
                                 disk.stateFile, c.base.datasetId, plan.commit)
  {
    ghost var files0 := disk.files;
    var read := GetState(disk, c.base, NoFailure);
    var state := read.value;
    var next := NextDate(state, remote.now);
    if next.Err? {
      return Fail(next.error), [];
    }
    var d := next.value;
    var options := BaseOptions(c);
    options := options.(date := Some(DateFormat(d)));
    events := [Retrieve(remote.tmp)];
    if remote.retrieve(Dataset, options, remote.tmp).Fail? {
      return Pass, events;
    }
    if remote.open.Err? {
      return Fail(remote.open.error), events;
    }
    var sent, ingests := SendEach(c, remote.open.value, remote);
    events := events + ingests;
    if sent.Fail? {
      return sent, events;
    }
    ReadThenCommit(files0, disk.stateFile, c.base.datasetId, DateMarker(d));
    r := UpdateState(disk, c.base, DateMarker(d), NoFailure);
  }

  /** `for param in self.params:` write the parameter's rasters, then send its ingest command. */
  method SendEach(c: CamsForecast, present: set<string>, remote: CamsRemote) returns (r: Outcome<Error>, events: seq<Event>)
    ensures r == SendParams(c, c.params, present, remote).0
    ensures events == SendParams(c, c.params, present, remote).1
  {
    ghost var ps := c.params;
    events := [];
    var i := 0;
    assert ps[0..] == ps;
    while i < |c.params|
      invariant 0 <= i <= |ps|
      invariant SendParams(c, ps, present, remote).0 == SendParams(c, ps[i..], present, remote).0
      invariant SendParams(c, ps, present, remote).1 == events + SendParams(c, ps[i..], present, remote).1
    {
      var p := c.params[i];
      assert ps[i..][0] == p && ps[i..][1..] == ps[i + 1..];
      if p.dataVar in present {
        var written := remote.rasters(p.name);
        if written.Fail? {
          return written, events;
        }
      }
      ghost var before := events;
      events := events + [Ingest(TifPayload(p.name, DataDir(c, p)))];
      AppendAssociative(before, [Ingest(TifPayload(p.name, DataDir(c, p)))], SendParams(c, ps[i + 1..], present, remote).1);
      i := i + 1;
    }
    assert ps[i..] == [];
    r := Pass;
  }

  // ---------------------------------------------------------------- what a run promises

  /** The lead times are the hours 0 to 120, both included. */
  lemma LeadTimesAreHours()
    ensures |LeadTimes| == 121 && forall k :: 0 <= k < 121 ==> LeadTimes[k] == k
  {
    RangeLength(0, 121, 1, 121);
    forall k | 0 <= k < 121 ensures LeadTimes[k] == k {
      RangeAt(0, 121, 1, k);
    }
  }

  /** Without a stored last_update the forecast fetched is today's, from midnight. */
  lemma FirstRunFetchesToday(state: Option<Json>, now: DateTime)
    requires Valid(now)
    requires state.None? || (state.value.Obj? && "last_update" !in state.value.fields)
    ensures NextDate(state, now) == Ok(DateTime(now.year, now.month, now.day, 0, 0, 0))
  {
  }

  /** With a stored last_update the forecast fetched starts one day later, at the same time of day. */
  lemma NextDateIsOneDayLater(state: Option<Json>, now: DateTime)
    requires Valid(now)
    requires state.Some? && state.value.Obj? && "last_update" in state.value.fields
    requires state.value.fields["last_update"].Str? && FromIsoFormat(state.value.fields["last_update"].s).Ok?
    ensures var last := FromIsoFormat(state.value.fields["last_update"].s).value;
      var r := NextDate(state, now);
      && (r.Err? <==> last.year == 9999 && last.month == 12 && last.day == 31)
      && (r.Ok? ==> Ordinal(r.value) == Ordinal(last) + 1 && r.value.hour == last.hour
                    && r.value.minute == last.minute && r.value.second == last.second)
  {
    var s := state.value.fields["last_update"].s;
    assert s != "" by { assert !DatePart(""); }
    AddDayIsOneDay(FromIsoFormat(s).value);
  }

  /** The request asks for every configured variable, all lead times, the forecast at 00:00 as
      netCDF, and the day of `d` written `YYYY-MM-DD`, which reads back as that day. */
  lemma RequestNamesTheDay(c: CamsForecast, d: DateTime)
    requires Valid(d)
    ensures var o := RequestFor(c, d);
      && |o.variable| == |c.params| && (forall i :: 0 <= i < |c.params| ==> o.variable[i] == c.params[i].variable)
      && o.leadtimeHour == c.leadTimes && o.time == "00:00" && o.forecastType == "forecast" && o.format == "netcdf"
      && o.date.Some? && FromIsoFormat(o.date.value) == Ok(Midnight(d))
  {
    DateRoundTrip(d);
  }

  /** A retrieve that raises ends the run quietly: nothing is sent and nothing is committed. */
  lemma RetrieveFailureSkips(state: Option<Json>, c: CamsForecast, remote: CamsRemote)
    requires Valid(remote.now) && NextDate(state, remote.now).Ok?
    requires remote.retrieve(Dataset, RequestFor(c, NextDate(state, remote.now).value), remote.tmp).Fail?
    ensures RunPlan(state, c, remote) == Plan(Pass, [Retrieve(remote.tmp)], None)
  {
  }

  /** When the rasters are written, one ingest command is sent per parameter, in order, whether or
      not the dataset holds it. */
  lemma {:induction false} SendParamsIngests(c: CamsForecast, ps: seq<CamsParam>, present: set<string>, remote: CamsRemote)
    requires SendParams(c, ps, present, remote).0.Pass?
    ensures var events := SendParams(c, ps, present, remote).1;
      |events| == |ps| && forall i :: 0 <= i < |ps| ==> events[i] == Ingest(TifPayload(ps[i].name, DataDir(c, ps[i])))
  {
    if ps != [] {
      SendParamsIngests(c, ps[1..], present, remote);
      var events := SendParams(c, ps, present, remote).1;
      assert forall i :: 1 <= i < |ps| ==> events[i] == SendParams(c, ps[1..], present, remote).1[i - 1];
    }
  }

  /** A run commits exactly when the date is known, the retrieve succeeded, the file opened and every
      parameter's rasters were written; it commits `{"last_update": date}` after the retrieve and all
      the ingest commands. */
  lemma CommitIff(state: Option<Json>, c: CamsForecast, remote: CamsRemote)
    requires Valid(remote.now)
    ensures var plan := RunPlan(state, c, remote);
      plan.commit.Some? <==>
        && NextDate(state, remote.now).Ok?
        && remote.retrieve(Dataset, RequestFor(c, NextDate(state, remote.now).value), remote.tmp).Pass?
        && remote.open.Ok? && SendParams(c, c.params, remote.open.value, remote).0.Pass?
    ensures var plan := RunPlan(state, c, remote);
      plan.commit.Some? ==>
        && plan.commit == Some(DateMarker(NextDate(state, remote.now).value))
        && plan.outcome.Pass? && |plan.events| == 1 + |c.params| && plan.events[0] == Retrieve(remote.tmp)
        && forall i :: 0 <= i < |c.params| ==> plan.events[i + 1] == Ingest(TifPayload(c.params[i].name, DataDir(c, c.params[i])))
  {
    if RunPlan(state, c, remote).commit.Some? {
      SendParamsIngests(c, c.params, remote.open.value, remote);
    }
  }

  /** The wrapper stores `{"last_update": {"last_update": date}}`, so the next run reads back a dict
      where it expects the date string and raises TypeError: after one committed run every later
      run fails before it retrieves anything. */
  lemma SecondRunRaises(files: map<Path, Content>, path: Path, c: CamsForecast, remote: CamsRemote, later: CamsRemote)
    requires Valid(remote.now) && Valid(later.now)
    requires RunPlan(ReadStateValue(files, path, c.base.datasetId), c, remote).commit.Some?
    ensures var after := Committed(ReadStateFiles(files, path, c.base.datasetId), path, c.base.datasetId,
                                   RunPlan(ReadStateValue(files, path, c.base.datasetId), c, remote).commit);
      RunPlan(ReadStateValue(after, path, c.base.datasetId), c, later) == Plan(Fail(TypeError), [], None)
  {
    var d := NextDate(ReadStateValue(files, path, c.base.datasetId), remote.now).value;
    ReadThenCommit(files, path, c.base.datasetId, DateMarker(d));
    assert Get(Marker(DateMarker(d)), "last_update") == Ok(DateMarker(d));
    assert Truthy(DateMarker(d)) by { assert "last_update" in DateMarker(d).fields; }
  }
}
