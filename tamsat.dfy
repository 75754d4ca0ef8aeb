/**
 * ingest/tamsat_rainfall/__init__.py: TamSatRainfall. A monthly run takes the month after the stored
 * "monthly" date and, for each parameter in the order its file templates are listed, downloads the
 * month's file, writes one raster per variable the file holds, sends its ingest command, and records
 * the month. A 404 ends the run quietly; the parameters already done stay recorded.
 */
module Tamsat {
  import opened Wrappers
  import opened Errors
  import opened Json
  import opened DateUtils
  import opened Utils
  import opened Ingest
  import opened Monthly
  import Strings

  /** A monthly file template: a directory, then `{YYYY}/{MM}/rfe{YYYY}_{MM}`, then a suffix. */
  function Chunks(dir: string, suffix: string): seq<Chunk>
  {
    [Lit(dir), Year, Lit("/"), Month, Lit("/rfe"), Year, Lit("_"), Month, Lit(suffix)]
  }

  const EstimateChunks := Chunks("/monthly/", ".v3.1.nc")
  const AnomalyChunks := Chunks("/monthly-anomalies/", "_anom.v3.1.nc")

  /** CONFIG["periods"]["monthly"]: whether it is enabled, the start year and month as the integers
      int() makes of them, and the data file templates in the order the dict lists them. */
  datatype MonthlyConfig = MonthlyConfig(enabled: bool, startYear: int, startMonth: int, templates: seq<(string, string)>)

  const Variables := ["rfe", "rfe_filled"]
  const Params := map["rainfall_estimate" := Variables, "rainfall_anomaly" := Variables]
  const MonthlyPeriod := MonthlyConfig(true, 1983, 1, [("rainfall_estimate", Render(EstimateChunks)),
                                                       ("rainfall_anomaly", Render(AnomalyChunks))])
  const BaseDataUrl := "http://www.tamsat.org.uk/public_data/data/v3.1"

  /** A TamSatRainfall: the base settings, the variables of each parameter, the monthly period and
      the base URL of the data. */
  datatype TamsatRainfall = TamsatRainfall(base: DataIngest, params: map<string, seq<string>>,
                                           monthly: MonthlyConfig, baseDataUrl: string)

  /** TamSatRainfall.__init__, given the DataIngest the base class validated. */
  function NewTamsatRainfall(base: DataIngest): (c: TamsatRainfall)
    ensures c.base == base && c.params == Params && c.monthly == MonthlyPeriod && c.baseDataUrl == BaseDataUrl
  {
    TamsatRainfall(base, Params, MonthlyPeriod, BaseDataUrl)
  }

  /** The remote side of a run: the HTTP status download_file_temp gets for each URL, the variables of
      the dataset rioxarray opens from the downloaded file (or the error opening it raises), and
      whether the raster for each output file can be written. */
  datatype TamsatRemote = TamsatRemote(
    status: string -> int,
    open: string -> Result<set<string>, Error>,
    write: string -> Outcome<Error>)

  /** `param_detail.get("variables")` for `param_detail = self.params.get(param, {})`. */
  function VariablesOf(c: TamsatRainfall, param: string): Option<seq<string>>
  {
    if param in c.params then Some(c.params[param]) else None
  }

  /** The namespace a variable is ingested under. */
  function Namespace(period: string, param: string, variable: string): string
  {
    period + "_" + param + "_" + variable
  }

  /** The directory a namespace is written to. */
  function DataDir(c: TamsatRainfall, namespace: string): string
  {
    Strings.PathJoin(c.base.outputDir, namespace)
  }

  /** The download URL of a template for a month. */
  function ParamUrl(c: TamsatRainfall, template: string, d: DateTime): string
    requires Valid(d)
  {
    c.baseDataUrl + Fill(template, d)
  }

  // ---------------------------------------------------------------- download_and_save_file

  /** The loop of download_and_save_file over the variables: a variable the dataset holds is written
      to `{dir}/{namespace}_{stamp}.tif` and its ingest command sent; one it does not hold is
      skipped. A raster that cannot be written raises. */
  function SaveVariables(c: TamsatRainfall, period: string, param: string, vars: seq<string>, present: set<string>,
                         d: DateTime, remote: TamsatRemote): (Outcome<Error>, seq<Event>)
    requires Valid(d)
  {
    if vars == [] then (Pass, [])
    else
      var namespace := Namespace(period, param, vars[0]);
      var outFile := Strings.PathJoin(DataDir(c, namespace), namespace + "_" + StampFormat(d) + ".tif");
      if vars[0] !in present then SaveVariables(c, period, param, vars[1..], present, d, remote)
      else if remote.write(outFile).Fail? then (remote.write(outFile), [])
      else
        var rest := SaveVariables(c, period, param, vars[1..], present, d, remote);
        (rest.0, [Ingest(TifPayload(namespace, DataDir(c, namespace)))] + rest.1)
  }

  /** download_and_save_file(url, period, param, variables, data_date): the download, the dataset it
      opens, then the variables. Variables that are None raise TypeError once the file is open. */
  function SaveFile(c: TamsatRainfall, url: string, period: string, param: string, vars: Option<seq<string>>,
                    d: DateTime, remote: TamsatRemote): (Outcome<Error>, seq<Event>)
    requires Valid(d)
  {
    var download := DownloadFileTemp(url, remote.status(url));
    if download.Fail? then (download, [Fetch(url)])
    else match remote.open(url)
      case Err(e) => (Fail(e), [Fetch(url)])
      case Ok(present) =>
        if vars.None? then (Fail(TypeError), [Fetch(url)])
        else
          var saved := SaveVariables(c, period, param, vars.value, present, d, remote);
          (saved.0, [Fetch(url)] + saved.1)
  }

  /** The variables given, in order, that the dataset holds. */
  function Kept(vars: seq<string>, present: set<string>): (r: seq<string>)
    ensures forall v :: v in r <==> v in vars && v in present
  {
    if vars == [] then []
    else if vars[0] in present then [vars[0]] + Kept(vars[1..], present)
    else Kept(vars[1..], present)
  }

  /** One ingest command per variable, in order, each under its own namespace and directory. */
  function IngestsFor(c: TamsatRainfall, period: string, param: string, vars: seq<string>): (r: seq<Event>)
    ensures |r| == |vars|
  {
    seq(|vars|, k requires 0 <= k < |vars| =>
      Ingest(TifPayload(Namespace(period, param, vars[k]), DataDir(c, Namespace(period, param, vars[k])))))
  }

  method DownloadAndSaveFile(c: TamsatRainfall, url: string, period: string, param: string, vars: Option<seq<string>>,
                             d: DateTime, remote: TamsatRemote) returns (r: Outcome<Error>, events: seq<Event>)
    requires Valid(d)
    ensures r == SaveFile(c, url, period, param, vars, d, remote).0
    ensures events == SaveFile(c, url, period, param, vars, d, remote).1
  {
    var download := DownloadFileTemp(url, remote.status(url));
    events := [Fetch(url)];
    if download.Fail? {
      return download, events;
    }
    var ds := remote.open(url);
    if ds.Err? {
      return Fail(ds.error), events;
    }
    if vars.None? {
      return Fail(TypeError), events;
    }
    var ingests;
    r, ingests := SaveEach(c, period, param, vars.value, ds.value, d, remote);
    events := events + ingests;
  }

  /** `for var in variables:` write and ingest each variable the dataset holds. */
  method SaveEach(c: TamsatRainfall, period: string, param: string, vars: seq<string>, present: set<string>,
                  d: DateTime, remote: TamsatRemote) returns (r: Outcome<Error>, events: seq<Event>)
    requires Valid(d)
    ensures r == SaveVariables(c, period, param, vars, present, d, remote).0
    ensures events == SaveVariables(c, period, param, vars, present, d, remote).1
  {
    events := [];
    var i := 0;
    assert vars[0..] == vars;
    while i < |vars|
      invariant 0 <= i <= |vars|
      invariant SaveVariables(c, period, param, vars, present, d, remote).0
             == SaveVariables(c, period, param, vars[i..], present, d, remote).0
      invariant SaveVariables(c, period, param, vars, present, d, remote).1
             == events + SaveVariables(c, period, param, vars[i..], present, d, remote).1
    {
      var namespace := Namespace(period, param, vars[i]);
      var outFile := Strings.PathJoin(DataDir(c, namespace), namespace + "_" + StampFormat(d) + ".tif");
      assert vars[i..][1..] == vars[i + 1..];
      if vars[i] in present {
        var written := remote.write(outFile);
        if written.Fail? {
          return written, events;
        }
        ghost var before := events;
        events := events + [Ingest(TifPayload(namespace, DataDir(c, namespace)))];
        AppendAssociative(before, [Ingest(TifPayload(namespace, DataDir(c, namespace)))],
                          SaveVariables(c, period, param, vars[i + 1..], present, d, remote).1);
      }
      i := i + 1;
    }
    assert vars[i..] == [];
    r := Pass;
  }

  // ---------------------------------------------------------------- run_monthly

  /** What the parameters' loop does: its outcome, its downloads and ingest commands, the parameters
      whose month it recorded, in order, and the state it last committed. */
  datatype TamsatPlan = TamsatPlan(outcome: Outcome<Error>, events: seq<Event>, committed: seq<string>, commit: Option<Json>)

  /** One pass of the loop: the template's parameter downloaded and saved for the month. */
  function Saved(c: TamsatRainfall, t: (string, string), d: DateTime, remote: TamsatRemote): (Outcome<Error>, seq<Event>)
    requires Valid(d)
  {
    SaveFile(c, ParamUrl(c, t.1, d), "monthly", t.0, VariablesOf(c, t.0), d, remote)
  }

  /** The loop over the templates: each parameter saved in turn and the month recorded after it;
      a 404 returns, any other error is raised. */
  function ParamsRun(c: TamsatRainfall, ts: seq<(string, string)>, d: DateTime, remote: TamsatRemote): TamsatPlan
    requires Valid(d)
  {
    if ts == [] then TamsatPlan(Pass, [], [], None)
    else
      var saved := Saved(c, ts[0], d, remote);
      if saved.0.Fail? then TamsatPlan(Skip404(saved.0.error), saved.1, [], None)
      else
        var rest := ParamsRun(c, ts[1..], d, remote);
        TamsatPlan(rest.outcome, saved.1 + rest.events, [ts[0].0] + rest.committed, Some(MonthlyMarker(d)))
  }

  /** run_monthly(), from the file system it starts on. */
  function MonthlyRun(files: map<Path, Content>, path: Path, c: TamsatRainfall, remote: TamsatRemote): TamsatPlan
  {
    match NextDate(ReadStateValue(files, path, c.base.datasetId), c.monthly.startYear, c.monthly.startMonth)
    case Err(e) => TamsatPlan(Fail(e), [], [], None)
    case Ok(d) => ParamsRun(c, c.monthly.templates, d, remote)
  }

  /** The file system after a monthly run: as get_state left it, with the month committed when any
      parameter was saved. */
  function AfterRun(files: map<Path, Content>, path: Path, c: TamsatRainfall, plan: TamsatPlan): map<Path, Content>
  {
    Committed(ReadStateFiles(files, path, c.base.datasetId), path, c.base.datasetId, plan.commit)
  }

  /** run_monthly(). */
  method RunMonthly(disk: Disk, c: TamsatRainfall, remote: TamsatRemote) returns (r: Outcome<Error>, events: seq<Event>)
    modifies disk
    ensures var plan := MonthlyRun(old(disk.files), disk.stateFile, c, remote);
      && r == plan.outcome && events == plan.events
      && disk.files == AfterRun(old(disk.files), disk.stateFile, c, plan)
  {
    var read := GetState(disk, c.base, NoFailure);
    var state := read.value;
    ReadHeals(old(disk.files), disk.stateFile, c.base.datasetId);
    var next := NextDate(state, c.monthly.startYear, c.monthly.startMonth);
    if next.Err? {
      return Fail(next.error), [];
    }
    r, events := TryParams(disk, c, next.value, remote);
  }

  /** `for param, file_template in period_config.get("data_file_templates", {}).items():` */
  method TryParams(disk: Disk, c: TamsatRainfall, d: DateTime, remote: TamsatRemote) returns (r: Outcome<Error>, events: seq<Event>)
    requires Valid(d) && Healed(disk.files, disk.stateFile)
    modifies disk
    ensures var plan := ParamsRun(c, c.monthly.templates, d, remote);
      && r == plan.outcome && events == plan.events
      && disk.files == Committed(old(disk.files), disk.stateFile, c.base.datasetId, plan.commit)
  {
    ghost var ts := c.monthly.templates;
    ghost var whole := ParamsRun(c, ts, d, remote);
    ghost var start := disk.files;
    ghost var commit: Option<Json> := None;
    events := [];
    var i := 0;
    assert ts[0..] == ts;
    while i < |c.monthly.templates|
      invariant 0 <= i <= |ts|
      invariant Healed(start, disk.stateFile) && disk.files == Committed(start, disk.stateFile, c.base.datasetId, commit)
      invariant commit.None? || commit == Some(MonthlyMarker(d))
      invariant whole.outcome == ParamsRun(c, ts[i..], d, remote).outcome
      invariant whole.events == events + ParamsRun(c, ts[i..], d, remote).events
      invariant whole.commit == if commit.Some? then commit else ParamsRun(c, ts[i..], d, remote).commit
    {
      ParamsRunStep(c, ts, i, d, remote);
      var saved, fetched := TryParam(disk, c, c.monthly.templates[i], d, remote, start, commit);
      ghost var before := events;
      events := events + fetched;
      if saved.Fail? {
        return Skip404(saved.error), events;
      }
      commit := Some(MonthlyMarker(d));
      AppendAssociative(before, fetched, ParamsRun(c, ts[i + 1..], d, remote).events);
      i := i + 1;
    }
    assert ts[i..] == [];
    r := Pass;
  }

  /** One pass of the loop, unfolded. */
  lemma ParamsRunStep(c: TamsatRainfall, ts: seq<(string, string)>, i: nat, d: DateTime, remote: TamsatRemote)
    requires Valid(d) && i < |ts|
    ensures var plan := ParamsRun(c, ts[i..], d, remote);
      var saved := Saved(c, ts[i], d, remote);
      var rest := ParamsRun(c, ts[i + 1..], d, remote);
      && (saved.0.Fail? ==> plan == TamsatPlan(Skip404(saved.0.error), saved.1, [], None))
      && (saved.0.Pass? ==> plan.outcome == rest.outcome && plan.events == saved.1 + rest.events
                            && plan.commit == Some(MonthlyMarker(d)))
  {
    assert ts[i..][0] == ts[i] && ts[i..][1..] == ts[i + 1..];
  }

  /** The body of the loop: save the parameter's file, then record the month. */
  method TryParam(disk: Disk, c: TamsatRainfall, t: (string, string), d: DateTime, remote: TamsatRemote,
                  ghost start: map<Path, Content>, ghost commit: Option<Json>)
    returns (r: Outcome<Error>, events: seq<Event>)
    requires Valid(d) && Healed(start, disk.stateFile)
    requires commit.None? || commit == Some(MonthlyMarker(d))
    requires disk.files == Committed(start, disk.stateFile, c.base.datasetId, commit)
    modifies disk
    ensures r == Saved(c, t, d, remote).0 && events == Saved(c, t, d, remote).1
    ensures r.Fail? ==> disk.files == old(disk.files)
    ensures r.Pass? ==> disk.files == Committed(start, disk.stateFile, c.base.datasetId, Some(MonthlyMarker(d)))
  {
    var (param, template) := t;
    r, events := DownloadAndSaveFile(c, ParamUrl(c, template, d), "monthly", param, VariablesOf(c, param), d, remote);
    if r.Pass? {
      CommitMonth(disk, c, d, start, commit);
    }
  }

  /** `self.update_state({"monthly": date_str})`, on a state file holding `start` with `commit` made. */
  method CommitMonth(disk: Disk, c: TamsatRainfall, d: DateTime, ghost start: map<Path, Content>, ghost commit: Option<Json>)
    requires Valid(d) && Healed(start, disk.stateFile)
    requires commit.None? || commit == Some(MonthlyMarker(d))
    requires disk.files == Committed(start, disk.stateFile, c.base.datasetId, commit)
    modifies disk
    ensures disk.files == Committed(start, disk.stateFile, c.base.datasetId, Some(MonthlyMarker(d)))
  {
    CommitHealed(disk.files, disk.stateFile, c.base.datasetId, Some(MonthlyMarker(d)));
    if commit.Some? {
      CommitTwice(start, disk.stateFile, c.base.datasetId, MonthlyMarker(d));
    } else {
      CommitHealed(start, disk.stateFile, c.base.datasetId, None);
    }
    var u := UpdateState(disk, c.base, MonthlyMarker(d), NoFailure);
  }

  /** run(): of the configured periods only the monthly one is implemented, and it runs when enabled. */
  method Run(disk: Disk, c: TamsatRainfall, remote: TamsatRemote) returns (r: Outcome<Error>, events: seq<Event>)
    modifies disk
    ensures !c.monthly.enabled ==> r == Pass && events == [] && disk.files == old(disk.files)
    ensures c.monthly.enabled ==>
      var plan := MonthlyRun(old(disk.files), disk.stateFile, c, remote);
      && r == plan.outcome && events == plan.events
      && disk.files == AfterRun(old(disk.files), disk.stateFile, c, plan)
  {
    if c.monthly.enabled {
      r, events := RunMonthly(disk, c, remote);
    } else {
      r, events := Pass, [];
    }
  }

  // ---------------------------------------------------------------- what a run promises

  /** Without a stored "monthly" date the run starts at January 1983. */
  lemma FirstRunStartsIn1983(state: Option<Json>)
    requires state.None? || (state.value.Obj? && "monthly" !in state.value.fields)
    ensures NextDate(state, MonthlyPeriod.startYear, MonthlyPeriod.startMonth) == Ok(DateTime(1983, 1, 1, 0, 0, 0))
  {
    assert MonthlyPeriod.startYear == 1983 && MonthlyPeriod.startMonth == 1;
    NextDateFresh(state, 1983, 1);
    assert Valid(DateTime(1983, 1, 1, 0, 0, 0));
  }

  lemma ChunksPlain(dir: string, suffix: string)
    requires '{' !in dir && '{' !in suffix
    ensures Plain(Chunks(dir, suffix))
  {
    assert '{' !in "/" && '{' !in "/rfe" && '{' !in "_";
  }

  /** Expanding two templates one after the other expands each. */
  lemma {:induction false} ExpandAppend(a: seq<Chunk>, b: seq<Chunk>, y: string, m: string)
    ensures Expand(a + b, y, m) == Expand(a, y, m) + Expand(b, y, m)
  {
    if a != [] {
      assert (a + b)[0] == a[0] && (a + b)[1..] == a[1..] + b;
      ExpandAppend(a[1..], b, y, m);
      var piece := match a[0] case Lit(t) => t case Year => y case Month => m;
      assert piece + (Expand(a[1..], y, m) + Expand(b, y, m)) == piece + Expand(a[1..], y, m) + Expand(b, y, m);
    } else {
      assert a + b == b;
    }
  }

  lemma ExpandHead(dir: string, y: string, m: string)
    ensures Expand([Lit(dir), Year, Lit("/"), Month], y, m) == dir + y + "/" + m
  {
    var cs := [Lit(dir), Year, Lit("/"), Month];
    assert cs[4..] == [];
    assert Expand(cs[3..], y, m) == m by { assert cs[3..][1..] == cs[4..]; }
    assert Expand(cs[2..], y, m) == "/" + m by { assert cs[2..][1..] == cs[3..]; }
    assert Expand(cs[1..], y, m) == y + "/" + m by { assert cs[1..][1..] == cs[2..]; }
  }

  lemma ExpandTail(suffix: string, y: string, m: string)
    ensures Expand([Lit("/rfe"), Year, Lit("_"), Month, Lit(suffix)], y, m) == "/rfe" + y + "_" + m + suffix
  {
    var cs := [Lit("/rfe"), Year, Lit("_"), Month, Lit(suffix)];
    assert cs[5..] == [];
    assert Expand(cs[4..], y, m) == suffix by { assert cs[4..][1..] == cs[5..]; }
    assert Expand(cs[3..], y, m) == m + suffix by { assert cs[3..][1..] == cs[4..]; }
    assert Expand(cs[2..], y, m) == "_" + m + suffix by { assert cs[2..][1..] == cs[3..]; }
    assert Expand(cs[1..], y, m) == y + "_" + m + suffix by { assert cs[1..][1..] == cs[2..]; }
  }

  /** The template with the year and the month written in, both where they occur twice. */
  lemma ExpandChunks(dir: string, suffix: string, y: string, m: string)
    ensures Expand(Chunks(dir, suffix), y, m) == dir + y + "/" + m + "/rfe" + y + "_" + m + suffix
  {
    var head, tail := [Lit(dir), Year, Lit("/"), Month], [Lit("/rfe"), Year, Lit("_"), Month, Lit(suffix)];
    assert Chunks(dir, suffix) == head + tail;
    ExpandAppend(head, tail, y, m);
    ExpandHead(dir, y, m);
    ExpandTail(suffix, y, m);
  }

  /** A template's URL for a month: the base URL, then the template with every `{YYYY}` replaced by
      the year and every `{MM}` by the two-digit month. */
  lemma TemplateUrl(c: TamsatRainfall, dir: string, suffix: string, d: DateTime)
    requires '{' !in dir && '{' !in suffix && Valid(d)
    ensures var y, m := Strings.IntToString(d.year), Strings.ZeroPad(d.month, 2);
      ParamUrl(c, Render(Chunks(dir, suffix)), d) == c.baseDataUrl + (dir + y + "/" + m + "/rfe" + y + "_" + m + suffix)
  {
    ChunksPlain(dir, suffix);
    FillTemplate(Chunks(dir, suffix), d);
    ExpandChunks(dir, suffix, Strings.IntToString(d.year), Strings.ZeroPad(d.month, 2));
  }

  lemma ConfiguredPiecesPlain()
    ensures '{' !in "/monthly/" && '{' !in ".v3.1.nc" && '{' !in "/monthly-anomalies/" && '{' !in "_anom.v3.1.nc"
  {
  }

  /** The configured parameters are tried estimate first, then anomaly, each from its own directory. */
  lemma ConfiguredUrls(c: TamsatRainfall, d: DateTime)
    requires c.monthly == MonthlyPeriod && Valid(d)
    ensures var y, m := Strings.IntToString(d.year), Strings.ZeroPad(d.month, 2);
      && |c.monthly.templates| == 2
      && c.monthly.templates[0].0 == "rainfall_estimate" && c.monthly.templates[1].0 == "rainfall_anomaly"
      && ParamUrl(c, c.monthly.templates[0].1, d) == c.baseDataUrl + ("/monthly/" + y + "/" + m + "/rfe" + y + "_" + m + ".v3.1.nc")
      && ParamUrl(c, c.monthly.templates[1].1, d)
         == c.baseDataUrl + ("/monthly-anomalies/" + y + "/" + m + "/rfe" + y + "_" + m + "_anom.v3.1.nc")
  {
    ConfiguredPiecesPlain();
    TemplateUrl(c, "/monthly/", ".v3.1.nc", d);
    TemplateUrl(c, "/monthly-anomalies/", "_anom.v3.1.nc", d);
  }

  /** The commit points: the parameters recorded are the first ones of the list, each saved; when
      one is not saved the loop ends there, quietly for a 404 and by raising otherwise; the month is
      committed exactly when at least one parameter was saved. */
  lemma {:induction false} ParamsRunShape(c: TamsatRainfall, ts: seq<(string, string)>, d: DateTime, remote: TamsatRemote)
    requires Valid(d)
    ensures var plan := ParamsRun(c, ts, d, remote);
      var n := |plan.committed|;
      && n <= |ts|
      && (forall k :: 0 <= k < n ==> plan.committed[k] == ts[k].0 && Saved(c, ts[k], d, remote).0 == Pass)
      && (n == |ts| ==> plan.outcome == Pass)
      && (n < |ts| ==> Saved(c, ts[n], d, remote).0.Fail?
                       && plan.outcome == Skip404(Saved(c, ts[n], d, remote).0.error))
      && (plan.commit.Some? <==> n > 0)
      && (plan.commit.Some? ==> plan.commit == Some(MonthlyMarker(d)))
  {
    if ts != [] && Saved(c, ts[0], d, remote).0.Pass? {
      ParamsRunShape(c, ts[1..], d, remote);
      var plan, rest := ParamsRun(c, ts, d, remote), ParamsRun(c, ts[1..], d, remote);
      assert plan.committed == [ts[0].0] + rest.committed && plan.outcome == rest.outcome;
      var n := |plan.committed|;
      forall k | 1 <= k < n ensures plan.committed[k] == ts[k].0 && Saved(c, ts[k], d, remote).0 == Pass {
        assert ts[k] == ts[1..][k - 1] && plan.committed[k] == rest.committed[k - 1];
      }
      if n < |ts| {
        assert ts[n] == ts[1..][n - 1];
      }
    }
  }

  /** The downloads and ingest commands of the given parameters, one after another. */
  function Tried(c: TamsatRainfall, ts: seq<(string, string)>, d: DateTime, remote: TamsatRemote): seq<Event>
    requires Valid(d)
  {
    if ts == [] then [] else Saved(c, ts[0], d, remote).1 + Tried(c, ts[1..], d, remote)
  }

  /** The first parameters' events: those of the first, then those of the next ones. */
  lemma TriedFirst(c: TamsatRainfall, ts: seq<(string, string)>, m: nat, d: DateTime, remote: TamsatRemote)
    requires Valid(d) && 0 < m <= |ts|
    ensures Tried(c, ts[..m], d, remote) == Saved(c, ts[0], d, remote).1 + Tried(c, ts[1..][..m - 1], d, remote)
  {
    assert ts[..m][0] == ts[0] && ts[..m][1..] == ts[1..][..m - 1];
  }

  /** The events of the loop over `ts` are those of the recorded parameters and of the one that
      failed, if any. */
  predicate TriedUpToEnd(c: TamsatRainfall, ts: seq<(string, string)>, d: DateTime, remote: TamsatRemote)
    requires Valid(d)
  {
    var plan := ParamsRun(c, ts, d, remote);
    var n := |plan.committed|;
    n <= |ts| && plan.events == Tried(c, ts[..if n < |ts| then n + 1 else n], d, remote)
  }

  /** The parameters after the one that ends the loop are not tried: the events are those of the
      recorded parameters and of the one that failed, if any. */
  lemma {:induction false} ParamsRunTries(c: TamsatRainfall, ts: seq<(string, string)>, d: DateTime, remote: TamsatRemote)
    requires Valid(d)
    ensures var plan := ParamsRun(c, ts, d, remote);
      var n := |plan.committed|;
      n <= |ts| && plan.events == Tried(c, ts[..if n < |ts| then n + 1 else n], d, remote)
  {
    if ts != [] {
      if Saved(c, ts[0], d, remote).0.Fail? {
        TriedFirst(c, ts, 1, d, remote);
      } else {
        ParamsRunTries(c, ts[1..], d, remote);
        TriedAfterSaved(c, ts, d, remote);
      }
    }
    assert TriedUpToEnd(c, ts, d, remote);
  }

  /** A saved first parameter: its events, then those of the loop over the rest. */
  lemma TriedAfterSaved(c: TamsatRainfall, ts: seq<(string, string)>, d: DateTime, remote: TamsatRemote)
    requires Valid(d) && ts != [] && Saved(c, ts[0], d, remote).0.Pass? && TriedUpToEnd(c, ts[1..], d, remote)
    ensures TriedUpToEnd(c, ts, d, remote)
  {
    var plan, rest := ParamsRun(c, ts, d, remote), ParamsRun(c, ts[1..], d, remote);
    var n' := |rest.committed|;
    var k := if n' < |ts[1..]| then n' + 1 else n';
    assert rest.events == Tried(c, ts[1..][..k], d, remote);
    TriedFirst(c, ts, k + 1, d, remote);
    assert plan.events == Saved(c, ts[0], d, remote).1 + rest.events && |plan.committed| == n' + 1;
  }

  /** download_and_save_file sends exactly one ingest command per variable the dataset holds, in the
      order of the variables, under the namespace "{period}_{param}_{var}". */
  lemma {:induction false} SaveVariablesIngests(c: TamsatRainfall, period: string, param: string, vars: seq<string>,
                                                present: set<string>, d: DateTime, remote: TamsatRemote)
    requires Valid(d) && SaveVariables(c, period, param, vars, present, d, remote).0.Pass?
    ensures SaveVariables(c, period, param, vars, present, d, remote).1 == IngestsFor(c, period, param, Kept(vars, present))
  {
    if vars != [] {
      SaveVariablesIngests(c, period, param, vars[1..], present, d, remote);
      var rest := IngestsFor(c, period, param, Kept(vars[1..], present));
      if vars[0] in present {
        assert IngestsFor(c, period, param, Kept(vars, present))[1..] == rest;
      }
    }
  }

  /** The estimate's variables are ingested as monthly_rainfall_estimate_rfe and
      monthly_rainfall_estimate_rfe_filled. */
  lemma EstimateNamespaces()
    ensures Namespace("monthly", "rainfall_estimate", Variables[0]) == "monthly_rainfall_estimate_rfe"
    ensures Namespace("monthly", "rainfall_estimate", Variables[1]) == "monthly_rainfall_estimate_rfe_filled"
  {
  }

  /** When a later parameter ends the run, the months already recorded stay: the state reads back as
      the month; when none was recorded the state file is as get_state left it. */
  lemma EarlierCommitsStay(files: map<Path, Content>, path: Path, c: TamsatRainfall, remote: TamsatRemote)
    ensures var plan := MonthlyRun(files, path, c, remote);
      var after := AfterRun(files, path, c, plan);
      && (plan.committed == [] ==> after == ReadStateFiles(files, path, c.base.datasetId))
      && (plan.committed != [] ==>
            var d := NextDate(ReadStateValue(files, path, c.base.datasetId), c.monthly.startYear, c.monthly.startMonth).value;
            ReadStateValue(after, path, c.base.datasetId) == Some(Marker(MonthlyMarker(d))))
  {
    var next := NextDate(ReadStateValue(files, path, c.base.datasetId), c.monthly.startYear, c.monthly.startMonth);
    ReadHeals(files, path, c.base.datasetId);
    if next.Ok? {
      ParamsRunShape(c, c.monthly.templates, next.value, remote);
      CommitHealed(ReadStateFiles(files, path, c.base.datasetId), path, c.base.datasetId, MonthlyRun(files, path, c, remote).commit);
    }
  }

  /** The stored month is never read back: after any run that recorded a month, the next run starts
      again at the configured first month. */
  lemma EveryRunRestarts(files: map<Path, Content>, path: Path, c: TamsatRainfall, remote: TamsatRemote)
    requires MonthlyRun(files, path, c, remote).committed != []
    ensures var after := AfterRun(files, path, c, MonthlyRun(files, path, c, remote));
      NextDate(ReadStateValue(after, path, c.base.datasetId), c.monthly.startYear, c.monthly.startMonth)
        == MakeDate(c.monthly.startYear, c.monthly.startMonth, 1)
  {
    EarlierCommitsStay(files, path, c, remote);
    var d := NextDate(ReadStateValue(files, path, c.base.datasetId), c.monthly.startYear, c.monthly.startMonth).value;
    MonthlyNeverReadBack(d, c.monthly.startYear, c.monthly.startMonth);
  }
}
