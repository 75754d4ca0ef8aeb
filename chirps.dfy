/**
 * ingest/chirps_rainfall/__init__.py: ChirpsRainfall. A monthly run fetches the CHIRPS rainfall
 * estimate for the month after the stored "monthly" date, ingests it, and, with anomalies enabled,
 * obtains the climatological normal of that calendar month (from the cache recorded in the state,
 * or by downloading one file per climatology year), ingests the anomaly, and commits the month.
 */
module Chirps {
  import opened Wrappers
  import opened Errors
  import opened Json
  import opened DateUtils
  import opened Utils
  import opened Ingest
  import opened Monthly
  import opened Ranges
  import Strings

  /** CONFIG["periods"]["monthly"], with the start year and month as the integers int() makes of them. */
  datatype MonthlyConfig = MonthlyConfig(enabled: bool, startYear: int, startMonth: int, calculateAnomalies: bool,
                                         climatology: (int, int), fileTemplate: string)

  /** The configured file template, "/africa_monthly/tifs/chirps-v2.0.{YYYY}.{MM}.tif.gz", written as
      the pieces it is made of: the directory, the separator, the file name around the year and the
      month, and the two extensions. */
  const MonthlyChunks := [Lit("/africa_monthly/tifs"), Lit("/"), Lit("chirps-v2.0."), Year, Lit("."), Month, Lit(".tif"), Lit(".gz")]
  const MonthlyTemplate := Render(MonthlyChunks)
  const Config := MonthlyConfig(true, 1981, 1, true, (1981, 2011), MonthlyTemplate)
  const BaseDataUrl := "https://data.chc.ucsb.edu/products/CHIRPS-2.0"

  datatype ChirpsRainfall = ChirpsRainfall(base: DataIngest, monthly: MonthlyConfig, baseDataUrl: string)

  /** ChirpsRainfall.__init__, given the DataIngest the base class validated. */
  function NewChirpsRainfall(base: DataIngest): (c: ChirpsRainfall)
    ensures c.base == base && c.monthly == Config && c.baseDataUrl == BaseDataUrl
  {
    ChirpsRainfall(base, Config, BaseDataUrl)
  }

  /** The remote side of a run: the HTTP status download_file_temp gets for each URL, whether the month's
      raster, the climatological mean and the anomaly raster can be written, the paths that exist, the
      file descriptors the process has open, and the temporary directory the normals are downloaded into. */
  datatype ChirpsRemote = ChirpsRemote(
    status: string -> int,
    estimate: Outcome<Error>,
    normals: Outcome<Error>,
    anomaly: Outcome<Error>,
    existing: set<string>,
    descriptors: set<int>,
    tempDir: string)

  /** The download URL for a month. */
  function MonthUrl(c: ChirpsRainfall, d: DateTime): string
    requires Valid(d)
  {
    c.baseDataUrl + Fill(c.monthly.fileTemplate, d)
  }

  /** download_and_save_file(url, period, param, data_date): download and gunzip the file, write it
      as `{output_dir}/{period}_{param}/{period}_{param}_{stamp}.tif`, send its ingest command and
      return the written path. */
  function SaveFile(c: ChirpsRainfall, url: string, period: string, param: string, d: DateTime, remote: ChirpsRemote)
    : (Result<string, Error>, seq<Event>)
    requires Valid(d)
  {
    var namespace := period + "_" + param;
    var dataDir := Strings.PathJoin(c.base.outputDir, namespace);
    var outFile := Strings.PathJoin(dataDir, namespace + "_" + StampFormat(d) + ".tif");
    var download := DownloadFileTemp(url, remote.status(url));
    if download.Fail? then (Err(download.error), [Fetch(url)])
    else if remote.estimate.Fail? then (Err(remote.estimate.error), [Fetch(url)])
    else (Ok(outFile), [Fetch(url), Ingest(TifPayload(namespace, dataDir))])
  }

  // ---------------------------------------------------------------- get_month_normal

  /** The URL of one climatology year's file for a month. */
  function YearUrl(c: ChirpsRainfall, year: int, month: string): string
  {
    c.baseDataUrl + Substitute(c.monthly.fileTemplate, Strings.IntToString(year), month)
  }

  /** The local name of a downloaded year: the URL's basename without its last three characters. */
  function YearFile(tempDir: string, url: string): string
  {
    var name := Strings.Basename(url);
    Strings.PathJoin(tempDir, name[..if |name| >= 3 then |name| - 3 else 0])
  }

  /** The URLs of the given years, in order. */
  function YearUrls(c: ChirpsRainfall, years: seq<int>, month: string): (urls: seq<string>)
    ensures |urls| == |years| && forall k :: 0 <= k < |years| ==> urls[k] == YearUrl(c, years[k], month)
  {
    seq(|years|, k requires 0 <= k < |years| => YearUrl(c, years[k], month))
  }

  /** The URLs get_month_normal downloads: one per climatology year, both ends included. */
  function ClimatologyUrls(c: ChirpsRainfall, month: string): seq<string>
  {
    YearUrls(c, Range(c.monthly.climatology.0, c.monthly.climatology.1 + 1, 1), month)
  }

  /** The downloads of the climatology years, in order, stopping at the first that raises. */
  function FetchYears(urls: seq<string>, remote: ChirpsRemote): (Outcome<Error>, seq<Event>)
  {
    if urls == [] then (Pass, [])
    else
      var fetch := FetchTo(urls[0], YearFile(remote.tempDir, urls[0]));
      var download := DownloadFileTemp(urls[0], remote.status(urls[0]));
      if download.Fail? then (download, [fetch])
      else
        var rest := FetchYears(urls[1..], remote);
        (rest.0, [fetch] + rest.1)
  }

  /** Where the normal of a month is written. */
  function NormalFile(c: ChirpsRainfall, month: string): string
  {
    var (start, end) := c.monthly.climatology;
    var years := Strings.IntToString(start) + "_" + Strings.IntToString(end);
    Strings.PathJoin(c.base.outputDir + "/normals_" + years + "/monthly", "chirps_monthly_normal_" + month + "_" + years + ".tif")
  }

  /** What get_month_normal returns, the downloads it makes and the state it commits. */
  datatype NormalPlan = NormalPlan(result: Result<Json, Error>, events: seq<Event>, commit: Option<Json>)

  /** What the state says about a month's normal: a recorded value that `os.path.exists` accepts, or
      else the recorded normals that a fresh download is added to. */
  datatype Cache = Hit(normal: Json) | Miss(normals: map<string, Json>)

  const IntMin := -0x8000_0000
  const IntMax := 0x7fff_ffff

  /**
   * `os.path.exists(p)` on POSIX: `os.stat(p)`, with OSError and ValueError read as False. A string
   * is a path; an integer (a bool being 0 or 1) is a file descriptor, which exists when it is open,
   * and one outside C's `int` raises OverflowError; anything else makes `os.stat` raise TypeError.
   */
  function PathExists(p: Json, existing: set<string>, descriptors: set<int>): (r: Result<bool, Error>)
    ensures r.Err? <==> p.Null? || p.Arr? || p.Obj? || (p.Num? && !(IntMin <= p.n <= IntMax))
    ensures r.Err? ==> r.error == TypeError || r.error == OverflowError
    ensures p.Str? ==> r == Ok(p.s in existing)
    ensures p.Bool? ==> r == Ok((if p.b then 1 else 0) in descriptors)
    ensures p.Num? && IntMin <= p.n <= IntMax ==> r == Ok(p.n in descriptors)
  {
    match p
    case Str(s) => Ok(s in existing)
    case Bool(b) => Ok((if b then 1 else 0) in descriptors)
    case Num(n) => if IntMin <= n <= IntMax then Ok(n in descriptors) else Err(OverflowError)
    case _ => Err(TypeError)
  }

  /** The lookup that opens get_month_normal: the "monthly_normals" entry of the state, then the
      month's entry in it, which is returned when it is truthy and `os.path.exists` accepts it. */
  function LookupNormal(state: Option<Json>, month: string, existing: set<string>, descriptors: set<int>)
    : Result<Cache, Error>
  {
    match GetOr(OrEmpty(state), "monthly_normals", Obj(map[]))
    case Err(e) => Err(e)
    case Ok(normals) =>
      match Get(normals, month)
      case Err(e) => Err(e)
      case Ok(normal) =>
        if !Truthy(normal) then Ok(Miss(normals.fields))
        else
          match PathExists(normal, existing, descriptors)
          case Err(e) => Err(e)
          case Ok(found) => if found then Ok(Hit(normal)) else Ok(Miss(normals.fields))
  }

  /** The state get_month_normal commits: the recorded normals with this month's path added. */
  function NormalsCommit(normals: map<string, Json>, month: string, out: string): Json
  {
    Obj(map["monthly_normals" := Obj(normals[month := Str(out)])])
  }

  /** The download half of get_month_normal: the climatology years' files, then the mean written to
      `out`, then the commit. */
  function DownloadNormal(normals: map<string, Json>, month: string, urls: seq<string>, out: string,
                          remote: ChirpsRemote): NormalPlan
  {
    var (fetched, events) := FetchYears(urls, remote);
    if fetched.Fail? then NormalPlan(Err(fetched.error), events, None)
    else if remote.normals.Fail? then NormalPlan(Err(remote.normals.error), events, None)
    else NormalPlan(Ok(Str(out)), events, Some(NormalsCommit(normals, month, out)))
  }

  /** get_month_normal(month), given what its get_state returned. */
  function MonthNormal(state: Option<Json>, c: ChirpsRainfall, month: string, remote: ChirpsRemote): NormalPlan
  {
    match LookupNormal(state, month, remote.existing, remote.descriptors)
    case Err(e) => NormalPlan(Err(e), [], None)
    case Ok(Hit(p)) => NormalPlan(Ok(p), [], None)
    case Ok(Miss(normals)) => DownloadNormal(normals, month, ClimatologyUrls(c, month), NormalFile(c, month), remote)
  }

  /** The loop over the climatology years. */
  method FetchNormals(c: ChirpsRainfall, month: string, remote: ChirpsRemote) returns (r: Outcome<Error>, events: seq<Event>)
    ensures r == FetchYears(ClimatologyUrls(c, month), remote).0
    ensures events == FetchYears(ClimatologyUrls(c, month), remote).1
  {
    var years := Range(c.monthly.climatology.0, c.monthly.climatology.1 + 1, 1);
    assert ClimatologyUrls(c, month) == YearUrls(c, years, month);
    r, events := FetchEach(c, years, month, remote);
  }

  /** `for year in years:` download the year's file, stopping at the first download that raises. */
  method FetchEach(c: ChirpsRainfall, years: seq<int>, month: string, remote: ChirpsRemote)
    returns (r: Outcome<Error>, events: seq<Event>)
    ensures r == FetchYears(YearUrls(c, years, month), remote).0
    ensures events == FetchYears(YearUrls(c, years, month), remote).1
  {
    ghost var urls := YearUrls(c, years, month);
    events := [];
    var i := 0;
    assert urls[0..] == urls;
    while i < |years|
      invariant 0 <= i <= |years| == |urls|
      invariant FetchYears(urls, remote).0 == FetchYears(urls[i..], remote).0
      invariant FetchYears(urls, remote).1 == events + FetchYears(urls[i..], remote).1
    {
      var url := YearUrl(c, years[i], month);
      var fetch := FetchTo(url, YearFile(remote.tempDir, url));
      ghost var rest := urls[i..];
      assert rest[0] == url && rest[1..] == urls[i + 1..];
      ghost var step := FetchYears(rest, remote);
      ghost var before := events;
      events := events + [fetch];
      var download := DownloadFileTemp(url, remote.status(url));
      if download.Fail? {
        assert step == (download, [fetch]);
        return download, events;
      }
      assert step == (FetchYears(urls[i + 1..], remote).0, [fetch] + FetchYears(urls[i + 1..], remote).1);
      AppendAssociative(before, [fetch], FetchYears(urls[i + 1..], remote).1);
      i := i + 1;
    }
    assert urls[i..] == [];
    r := Pass;
  }

  /** get_month_normal(month). */
  method GetMonthNormal(disk: Disk, c: ChirpsRainfall, month: string, remote: ChirpsRemote)
    returns (r: Result<Json, Error>, events: seq<Event>)
    modifies disk
    ensures var plan := MonthNormal(ReadStateValue(old(disk.files), disk.stateFile, c.base.datasetId), c, month, remote);
      && r == plan.result && events == plan.events
      && disk.files == Committed(ReadStateFiles(old(disk.files), disk.stateFile, c.base.datasetId),
                                 disk.stateFile, c.base.datasetId, plan.commit)
  {
    var read := GetState(disk, c.base, NoFailure);
    var state := read.value;
    ReadHeals(old(disk.files), disk.stateFile, c.base.datasetId);
    r, events := NormalFrom(disk, state, c, month, remote);
  }

  /** The body of get_month_normal once the state has been read. */
  method NormalFrom(disk: Disk, state: Option<Json>, c: ChirpsRainfall, month: string, remote: ChirpsRemote)
    returns (r: Result<Json, Error>, events: seq<Event>)
    requires Healed(disk.files, disk.stateFile)
    modifies disk
    ensures var plan := MonthNormal(state, c, month, remote);
      && r == plan.result && events == plan.events
      && disk.files == Committed(old(disk.files), disk.stateFile, c.base.datasetId, plan.commit)
  {
    var cache := LookupNormal(state, month, remote.existing, remote.descriptors);
    match cache
    case Err(e) => r, events := Err(e), [];
    case Ok(Hit(p)) => r, events := Ok(p), [];
    case Ok(Miss(normals)) => r, events := DownloadNormals(disk, c, normals, month, remote);
  }

  /** The downloads, the mean and the commit of get_month_normal. */
  method DownloadNormals(disk: Disk, c: ChirpsRainfall, normals: map<string, Json>, month: string, remote: ChirpsRemote)
    returns (r: Result<Json, Error>, events: seq<Event>)
    requires Healed(disk.files, disk.stateFile)
    modifies disk
    ensures var plan := DownloadNormal(normals, month, ClimatologyUrls(c, month), NormalFile(c, month), remote);
      && r == plan.result && events == plan.events
      && disk.files == Committed(old(disk.files), disk.stateFile, c.base.datasetId, plan.commit)
  {
    var fetched;
    fetched, events := FetchNormals(c, month, remote);
    ghost var plan := DownloadNormal(normals, month, ClimatologyUrls(c, month), NormalFile(c, month), remote);
    if fetched.Fail? {
      return Err(fetched.error), events;
    }
    if remote.normals.Fail? {
      return Err(remote.normals.error), events;
    }
    var out := NormalFile(c, month);
    CommitHealed(disk.files, disk.stateFile, c.base.datasetId, Some(NormalsCommit(normals, month, out)));
    var u := UpdateState(disk, c.base, NormalsCommit(normals, month, out), NoFailure);
    r := Ok(Str(out));
  }

  // ---------------------------------------------------------------- run_monthly

  /** What a monthly run does: its outcome, its downloads and ingest commands, the normals it
      records on the way and the state it commits last. */
  datatype MonthlyPlan = MonthlyPlan(outcome: Outcome<Error>, events: seq<Event>, normals: Option<Json>, commit: Option<Json>)

  const EstimateParam := "chirps_rainfall_estimate"
  const AnomalyNamespace := "monthly_chirps_rainfall_anomaly"

  /** run_monthly(), from the file system it starts on. */
  function MonthlyRun(files: map<Path, Content>, path: Path, c: ChirpsRainfall, remote: ChirpsRemote): MonthlyPlan
  {
    match NextDate(ReadStateValue(files, path, c.base.datasetId), c.monthly.startYear, c.monthly.startMonth)
    case Err(e) => MonthlyPlan(Fail(e), [], None, None)
    case Ok(d) =>
      var (saved, fetched) := SaveFile(c, MonthUrl(c, d), "monthly", EstimateParam, d, remote);
      if saved.Err? then MonthlyPlan(Skip404(saved.error), fetched, None, None)
      else AfterEstimate(ReadStateFiles(files, path, c.base.datasetId), path, c, d, fetched, remote)
  }

  /** The rest of run_monthly once the estimate is ingested: with anomalies enabled, the month's
      normal and the anomaly; then the month's commit. `read` is the file system after get_state. */
  function AfterEstimate(read: map<Path, Content>, path: Path, c: ChirpsRainfall, d: DateTime, fetched: seq<Event>,
                         remote: ChirpsRemote): MonthlyPlan
    requires Valid(d)
  {
    if !c.monthly.calculateAnomalies then MonthlyPlan(Pass, fetched, None, Some(MonthlyMarker(d)))
    else
      var normal := MonthNormal(ReadStateValue(read, path, c.base.datasetId), c, Strings.ZeroPad(d.month, 2), remote);
      var events := fetched + normal.events;
      if normal.result.Err? then MonthlyPlan(Skip404(normal.result.error), events, None, None)
      else if remote.anomaly.Fail? then MonthlyPlan(Skip404(remote.anomaly.error), events, normal.commit, None)
      else
        var anomaly := Ingest(TifPayload(AnomalyNamespace, Strings.PathJoin(c.base.outputDir, AnomalyNamespace)));
        MonthlyPlan(Pass, events + [anomaly], normal.commit, Some(MonthlyMarker(d)))
  }

  /** The file system after a monthly run: the normals commit, then the month's commit. */
  function AfterRun(files: map<Path, Content>, path: Path, c: ChirpsRainfall, plan: MonthlyPlan): map<Path, Content>
  {
    var read := ReadStateFiles(files, path, c.base.datasetId);
    Committed(Committed(read, path, c.base.datasetId, plan.normals), path, c.base.datasetId, plan.commit)
  }

  /** run_monthly(). */
  method RunMonthly(disk: Disk, c: ChirpsRainfall, remote: ChirpsRemote) returns (r: Outcome<Error>, events: seq<Event>)
    modifies disk
    ensures var plan := MonthlyRun(old(disk.files), disk.stateFile, c, remote);
      && r == plan.outcome && events == plan.events
      && disk.files == AfterRun(old(disk.files), disk.stateFile, c, plan)
  {
    var read := GetState(disk, c.base, NoFailure);
    var state := read.value;
    ReadHeals(old(disk.files), disk.stateFile, c.base.datasetId);
    var next := NextDate(state, c.monthly.startYear, c.monthly.startMonth);
    if next.Err? {
      return Fail(next.error), [];
    }
    var d := next.value;
    var (saved, fetched) := SaveFile(c, MonthUrl(c, d), "monthly", EstimateParam, d, remote);
    if saved.Err? {
      return Skip404(saved.error), fetched;
    }
    r, events := FinishMonth(disk, c, d, fetched, remote);
  }

  /** run_monthly after the estimate: the normal, the anomaly and the commit. */
  method FinishMonth(disk: Disk, c: ChirpsRainfall, d: DateTime, fetched: seq<Event>, remote: ChirpsRemote)
    returns (r: Outcome<Error>, events: seq<Event>)
    requires Valid(d) && Healed(disk.files, disk.stateFile)
    modifies disk
    ensures var plan := AfterEstimate(old(disk.files), disk.stateFile, c, d, fetched, remote);
      && r == plan.outcome && events == plan.events
      && disk.files == Committed(Committed(old(disk.files), disk.stateFile, c.base.datasetId, plan.normals),
                                 disk.stateFile, c.base.datasetId, plan.commit)
  {
    events := fetched;
    if c.monthly.calculateAnomalies {
      ghost var read := disk.files;
      ghost var normalPlan := MonthNormal(ReadStateValue(read, disk.stateFile, c.base.datasetId),
                                          c, Strings.ZeroPad(d.month, 2), remote);
      ReadHeals(read, disk.stateFile, c.base.datasetId);
      var normal, downloads := GetMonthNormal(disk, c, Strings.ZeroPad(d.month, 2), remote);
      CommitHealed(read, disk.stateFile, c.base.datasetId, normalPlan.commit);
      events := events + downloads;
      if normal.Err? {
        return Skip404(normal.error), events;
      }
      if remote.anomaly.Fail? {
        return Skip404(remote.anomaly.error), events;
      }
      events := events + [Ingest(TifPayload(AnomalyNamespace, Strings.PathJoin(c.base.outputDir, AnomalyNamespace)))];
    }
    CommitMonth(disk, c, d);
    r := Pass;
  }

  /** `self.update_state({"monthly": next_date.isoformat()})` on a healed state file. */
  method CommitMonth(disk: Disk, c: ChirpsRainfall, d: DateTime)
    requires Valid(d) && Healed(disk.files, disk.stateFile)
    modifies disk
    ensures disk.files == Committed(old(disk.files), disk.stateFile, c.base.datasetId, Some(MonthlyMarker(d)))
  {
    CommitHealed(disk.files, disk.stateFile, c.base.datasetId, Some(MonthlyMarker(d)));
    var u := UpdateState(disk, c.base, MonthlyMarker(d), NoFailure);
  }

  /** run(): the monthly period is the only one, and runs when it is enabled. */
  method Run(disk: Disk, c: ChirpsRainfall, remote: ChirpsRemote) returns (r: Outcome<Error>, events: seq<Event>)
    modifies disk
    ensures !c.monthly.enabled ==> r == Pass && events == [] && disk.files == old(disk.files)
    ensures c.monthly.enabled ==>
      var plan := MonthlyRun(old(disk.files), disk.stateFile, c, remote);
      && r == plan.outcome && events == plan.events
      && disk.files == AfterRun(old(disk.files), disk.stateFile, c, plan)
  {
    if c.monthly.enabled {
      r, events := RunMonthly(disk, c, remote);
    } else {
      r, events := Pass, [];
    }
  }

  // ---------------------------------------------------------------- what a run promises

  /** No literal piece of the template holds a "{". */
  lemma MonthlyChunksPlain()
    ensures Plain(MonthlyChunks)
  {
    PiecesPlain();
  }

  lemma PiecesPlain()
    ensures '{' !in "/africa_monthly/tifs" && '{' !in "/" && '{' !in "chirps-v2.0."
    ensures '{' !in "." && '{' !in ".tif" && '{' !in ".gz"
  {
  }

  lemma ExpandMonthly(y: string, m: string)
    ensures Expand(MonthlyChunks, y, m) == "/africa_monthly/tifs" + "/" + "chirps-v2.0." + y + "." + m + ".tif" + ".gz"
  {
    ExpandMonthlyFile(y, m);
  }

  /** The template from the separator on. */
  lemma ExpandMonthlyFile(y: string, m: string)
    ensures Expand(MonthlyChunks[1..], y, m) == "/" + "chirps-v2.0." + y + "." + m + ".tif" + ".gz"
  {
    var cs := MonthlyChunks;
    ExpandMonthlyTail(y, m);
    assert Expand(cs[2..], y, m) == "chirps-v2.0." + y + "." + m + ".tif" + ".gz" by { assert cs[2..][1..] == cs[3..]; }
    assert cs[1..][1..] == cs[2..];
  }

  /** The template from the year on. */
  lemma ExpandMonthlyTail(y: string, m: string)
    ensures Expand(MonthlyChunks[3..], y, m) == y + "." + m + ".tif" + ".gz"
  {
    var cs := MonthlyChunks;
    assert cs[8..] == [];
    assert Expand(cs[7..], y, m) == ".gz" by { assert cs[7..][1..] == cs[8..]; }
    assert Expand(cs[6..], y, m) == ".tif" + ".gz" by { assert cs[6..][1..] == cs[7..]; }
    assert Expand(cs[5..], y, m) == m + ".tif" + ".gz" by { assert cs[5..][1..] == cs[6..]; }
    assert Expand(cs[4..], y, m) == "." + m + ".tif" + ".gz" by { assert cs[4..][1..] == cs[5..]; }
  }

  /** The same string, grouped two ways. */
  lemma Regroup(a: string, b: string, c: string, d: string, e: string, f: string, g: string, h: string, i: string)
    ensures a + (b + c + d + e + f + g + h + i) == a + b + c + d + e + f + g + h + i
    ensures a + b + c + d + e + f + g + h + i == (a + b) + c + (d + e + f + g + h + i)
  {
  }

  /** The month's URL is the base URL and the template with the year and two-digit month filled in. */
  lemma MonthUrlOf(c: ChirpsRainfall, d: DateTime)
    requires c.monthly.fileTemplate == MonthlyTemplate && Valid(d)
    ensures MonthUrl(c, d) == c.baseDataUrl + "/africa_monthly/tifs" + "/" + "chirps-v2.0." + Strings.IntToString(d.year)
                              + "." + Strings.ZeroPad(d.month, 2) + ".tif" + ".gz"
  {
    var y, m := Strings.IntToString(d.year), Strings.ZeroPad(d.month, 2);
    MonthlyChunksPlain();
    FillTemplate(MonthlyChunks, d);
    ExpandMonthly(y, m);
    Regroup(c.baseDataUrl, "/africa_monthly/tifs", "/", "chirps-v2.0.", y, ".", m, ".tif", ".gz");
  }

  /** A climatology year's URL, for the configured template. */
  lemma YearUrlOf(c: ChirpsRainfall, year: int, month: string)
    requires c.monthly.fileTemplate == MonthlyTemplate && '{' !in month
    ensures YearUrl(c, year, month) == c.baseDataUrl + "/africa_monthly/tifs" + "/" + "chirps-v2.0." + Strings.IntToString(year)
                                       + "." + month + ".tif" + ".gz"
  {
    var y := Strings.IntToString(year);
    MonthlyChunksPlain();
    NoBraceInNumber(year);
    SubstituteTemplate(MonthlyChunks, y, month);
    ExpandMonthly(y, month);
    Regroup(c.baseDataUrl, "/africa_monthly/tifs", "/", "chirps-v2.0.", y, ".", month, ".tif", ".gz");
  }

  /** Without a stored "monthly" date the run fetches January 1981. */
  lemma FirstRunFetchesJanuary1981(state: Option<Json>)
    requires state.None? || (state.value.Obj? && "monthly" !in state.value.fields)
    ensures NextDate(state, Config.startYear, Config.startMonth) == Ok(DateTime(1981, 1, 1, 0, 0, 0))
  {
    NextDateFresh(state, Config.startYear, Config.startMonth);
  }

  /** An HTTP error while fetching the month ends the run without a commit: quietly for a 404, by
      raising it otherwise. */
  lemma HttpErrorSkips(files: map<Path, Content>, path: Path, c: ChirpsRainfall, remote: ChirpsRemote, d: DateTime)
    requires NextDate(ReadStateValue(files, path, c.base.datasetId), c.monthly.startYear, c.monthly.startMonth) == Ok(d)
    requires RaisesForStatus(remote.status(MonthUrl(c, d)))
    ensures var plan := MonthlyRun(files, path, c, remote);
      && plan.commit.None? && plan.normals.None? && plan.events == [Fetch(MonthUrl(c, d))]
      && (remote.status(MonthUrl(c, d)) == 404 ==> plan.outcome == Pass)
      && (remote.status(MonthUrl(c, d)) != 404 ==> plan.outcome == Fail(HttpError(remote.status(MonthUrl(c, d)))))
  {
    var url := MonthUrl(c, d);
    assert SaveFile(c, url, "monthly", EstimateParam, d, remote) == (Err(HttpError(remote.status(url))), [Fetch(url)]);
  }

  /** The month is committed exactly when the estimate was fetched and written and, with anomalies
      enabled, the normal was obtained and the anomaly written; what is committed is the month. */
  lemma CommitIff(files: map<Path, Content>, path: Path, c: ChirpsRainfall, remote: ChirpsRemote, d: DateTime)
    requires NextDate(ReadStateValue(files, path, c.base.datasetId), c.monthly.startYear, c.monthly.startMonth) == Ok(d)
    ensures var plan := MonthlyRun(files, path, c, remote);
      var normal := MonthNormal(ReadStateValue(ReadStateFiles(files, path, c.base.datasetId), path, c.base.datasetId),
                                c, Strings.ZeroPad(d.month, 2), remote);
      && (plan.commit.Some? <==>
            && !RaisesForStatus(remote.status(MonthUrl(c, d))) && remote.estimate.Pass?
            && (c.monthly.calculateAnomalies ==> normal.result.Ok? && remote.anomaly.Pass?))
      && (plan.commit.Some? ==> plan.commit == Some(Obj(map["monthly" := Str(IsoFormat(d))])) && plan.outcome.Pass?)
  {
  }

  /** In a run that commits, the estimate's ingest command comes right after its download, and with
      anomalies enabled the anomaly's is the last command. */
  lemma CommitEvents(files: map<Path, Content>, path: Path, c: ChirpsRainfall, remote: ChirpsRemote, d: DateTime)
    requires NextDate(ReadStateValue(files, path, c.base.datasetId), c.monthly.startYear, c.monthly.startMonth) == Ok(d)
    requires MonthlyRun(files, path, c, remote).commit.Some?
    ensures var plan := MonthlyRun(files, path, c, remote);
      && |plan.events| >= 2
      && plan.events[0] == Fetch(MonthUrl(c, d))
      && plan.events[1] == Ingest(TifPayload(EstimateNamespace, Strings.PathJoin(c.base.outputDir, EstimateNamespace)))
      && (c.monthly.calculateAnomalies ==>
            plan.events[|plan.events| - 1] == Ingest(TifPayload(AnomalyNamespace, Strings.PathJoin(c.base.outputDir, AnomalyNamespace))))
  {
    var url := MonthUrl(c, d);
    var saved := SaveFile(c, url, "monthly", EstimateParam, d, remote);
    assert saved.1 == [Fetch(url), Ingest(TifPayload(EstimateNamespace, Strings.PathJoin(c.base.outputDir, EstimateNamespace)))];
  }

  const EstimateNamespace := "monthly" + "_" + EstimateParam

  /** The stored month is never read back: after any committed run, the next run fetches the
      configured first month again. */
  lemma EveryRunRestarts(files: map<Path, Content>, path: Path, c: ChirpsRainfall, remote: ChirpsRemote)
    requires MonthlyRun(files, path, c, remote).commit.Some?
    ensures var after := AfterRun(files, path, c, MonthlyRun(files, path, c, remote));
      NextDate(ReadStateValue(after, path, c.base.datasetId), c.monthly.startYear, c.monthly.startMonth)
        == MakeDate(c.monthly.startYear, c.monthly.startMonth, 1)
  {
    var plan := MonthlyRun(files, path, c, remote);
    var read := ReadStateFiles(files, path, c.base.datasetId);
    var d := NextDate(ReadStateValue(files, path, c.base.datasetId), c.monthly.startYear, c.monthly.startMonth).value;
    assert plan.commit == Some(MonthlyMarker(d));
    ReadHeals(files, path, c.base.datasetId);
    CommitHealed(read, path, c.base.datasetId, plan.normals);
    CommitHealed(Committed(read, path, c.base.datasetId, plan.normals), path, c.base.datasetId, plan.commit);
    MonthlyNeverReadBack(d, c.monthly.startYear, c.monthly.startMonth);
  }

  /** A normal recorded in the state whose file exists is returned without any download or commit. */
  lemma CachedNormalIsReused(state: Option<Json>, c: ChirpsRainfall, month: string, remote: ChirpsRemote, p: string)
    requires state.Some? && state.value.Obj? && "monthly_normals" in state.value.fields
    requires var normals := state.value.fields["monthly_normals"];
      normals.Obj? && month in normals.fields && normals.fields[month] == Str(p)
    requires p != "" && p in remote.existing
    ensures MonthNormal(state, c, month, remote) == NormalPlan(Ok(Str(p)), [], None)
  {
    assert OrEmpty(state) == state.value;
  }

  /** A truthy recorded normal goes through `os.path.exists`: a list or dict raises TypeError, an
      integer beyond C's `int` OverflowError, a value that exists (a path, or an open descriptor for
      an integer or bool) is returned as it is, and any other starts the download. */
  lemma RecordedNormalChecked(state: Option<Json>, c: ChirpsRainfall, month: string, remote: ChirpsRemote, x: Json)
    requires state.Some? && state.value.Obj? && "monthly_normals" in state.value.fields
    requires var normals := state.value.fields["monthly_normals"];
      normals.Obj? && month in normals.fields && normals.fields[month] == x
    requires Truthy(x)
    ensures x.Arr? || x.Obj? ==> MonthNormal(state, c, month, remote) == NormalPlan(Err(TypeError), [], None)
    ensures x.Num? && !(IntMin <= x.n <= IntMax) ==>
      MonthNormal(state, c, month, remote) == NormalPlan(Err(OverflowError), [], None)
    ensures PathExists(x, remote.existing, remote.descriptors) == Ok(true) ==>
      MonthNormal(state, c, month, remote) == NormalPlan(Ok(x), [], None)
    ensures PathExists(x, remote.existing, remote.descriptors) == Ok(false) ==>
      MonthNormal(state, c, month, remote) ==
      DownloadNormal(state.value.fields["monthly_normals"].fields, month, ClimatologyUrls(c, month), NormalFile(c, month), remote)
  {
    assert OrEmpty(state) == state.value;
  }

  /** The wrapper stores `{"last_update": {"monthly_normals": …}}`, so the cache is never found:
      after a commit, the normal is downloaded again. */
  lemma NormalCacheNeverHit(x: Json, c: ChirpsRainfall, month: string, remote: ChirpsRemote)
    ensures MonthNormal(Some(Marker(x)), c, month, remote).events == FetchYears(ClimatologyUrls(c, month), remote).1
  {
    assert "monthly_normals" !in Marker(x).fields;
    assert GetOr(OrEmpty(Some(Marker(x))), "monthly_normals", Obj(map[])) == Ok(Obj(map[]));
    assert Get(Obj(map[]), month) == Ok(Null);
    assert LookupNormal(Some(Marker(x)), month, remote.existing, remote.descriptors) == Ok(Miss(map[]));
    var f := FetchYears(ClimatologyUrls(c, month), remote);
    if f.0.Fail? {
      assert MonthNormal(Some(Marker(x)), c, month, remote) == NormalPlan(Err(f.0.error), f.1, None);
    } else if remote.normals.Fail? {
      assert MonthNormal(Some(Marker(x)), c, month, remote) == NormalPlan(Err(remote.normals.error), f.1, None);
    }
  }

  /** The downloads are made in order: the k-th is the k-th URL, into its file in the temporary
      directory. */
  lemma {:induction false} FetchYearsEventAt(urls: seq<string>, remote: ChirpsRemote, k: nat)
    requires k < |FetchYears(urls, remote).1|
    ensures k < |urls| && FetchYears(urls, remote).1[k] == FetchTo(urls[k], YearFile(remote.tempDir, urls[k]))
  {
    if k > 0 {
      assert !RaisesForStatus(remote.status(urls[0]));
      FetchYearsEventAt(urls[1..], remote, k - 1);
      assert urls[k] == urls[1..][k - 1];
    }
  }

  /** Every download but the last one made succeeded. */
  lemma {:induction false} FetchYearsContinue(urls: seq<string>, remote: ChirpsRemote)
    ensures var events := FetchYears(urls, remote).1;
      forall k :: 0 <= k < |events| - 1 ==> k < |urls| && !RaisesForStatus(remote.status(urls[k]))
  {
    if urls != [] {
      var tail := urls[1..];
      FetchYearsContinue(tail, remote);
      FetchYearsOutcome(tail, remote);
      if !RaisesForStatus(remote.status(urls[0])) {
        var rest := FetchYears(tail, remote).1;
        assert |FetchYears(urls, remote).1| == 1 + |rest|;
        forall k | 1 <= k < |rest| ensures k < |urls| && urls[k] == tail[k - 1] { }
      }
    }
  }

  /** The loop ends without error exactly when no download raises, after downloading every URL;
      otherwise it raises the HTTP error of the last URL it downloaded. */
  lemma {:induction false} FetchYearsOutcome(urls: seq<string>, remote: ChirpsRemote)
    ensures var (r, events) := FetchYears(urls, remote);
      && (r.Pass? <==> forall k :: 0 <= k < |urls| ==> !RaisesForStatus(remote.status(urls[k])))
      && (r.Pass? ==> |events| == |urls|)
      && (r.Fail? ==> 1 <= |events| <= |urls| && r == Fail(HttpError(remote.status(urls[|events| - 1]))))
  {
    if urls != [] {
      FetchYearsOutcome(urls[1..], remote);
      var rest := FetchYears(urls[1..], remote);
      if !RaisesForStatus(remote.status(urls[0])) {
        assert forall k :: 1 <= k < |urls| ==> urls[k] == urls[1..][k - 1];
        if rest.0.Fail? {
          assert urls[|rest.1|] == urls[1..][|rest.1| - 1];
        }
      }
    }
  }

  /** The climatology loop downloads every year from the first to the last inclusive when none
      raises, and never more than those. */
  lemma NormalDownloadCount(c: ChirpsRainfall, month: string, remote: ChirpsRemote)
    requires c.monthly.climatology.0 <= c.monthly.climatology.1
    ensures var start, end := c.monthly.climatology.0, c.monthly.climatology.1;
      var fetched := FetchYears(ClimatologyUrls(c, month), remote);
      && |fetched.1| <= end - start + 1
      && (fetched.0.Pass? ==> |fetched.1| == end - start + 1)
  {
    var start, end := c.monthly.climatology.0, c.monthly.climatology.1;
    var urls := ClimatologyUrls(c, month);
    assert urls == YearUrls(c, Range(start, end + 1, 1), month);
    RangeLength(start, end + 1, 1, end - start + 1);
    FetchYearsOutcome(urls, remote);
  }

  /** The climatology URLs are one per year from the first to the last inclusive, in order. */
  lemma ClimatologyUrlAt(c: ChirpsRainfall, month: string, k: nat)
    requires c.monthly.climatology.0 + k <= c.monthly.climatology.1
    ensures k < |ClimatologyUrls(c, month)|
    ensures ClimatologyUrls(c, month)[k] == YearUrl(c, c.monthly.climatology.0 + k, month)
  {
    var start, end := c.monthly.climatology.0, c.monthly.climatology.1;
    RangeLength(start, end + 1, 1, end - start + 1);
    RangeAt(start, end + 1, 1, k);
  }

  /** Each climatology file is the URL's basename without ".gz", in the temporary directory. */
  lemma YearFileName(c: ChirpsRainfall, year: nat, month: string, tempDir: string)
    requires c.monthly.fileTemplate == MonthlyTemplate && '/' !in month && '{' !in month
    ensures YearFile(tempDir, YearUrl(c, year, month))
      == Strings.PathJoin(tempDir, "chirps-v2.0." + Strings.NatToString(year) + "." + month + ".tif")
  {
    var y := Strings.NatToString(year);
    YearUrlOf(c, year, month);
    Regroup(c.baseDataUrl, "/africa_monthly/tifs", "/", "chirps-v2.0.", y, ".", month, ".tif", ".gz");
    var file := "chirps-v2.0." + y + "." + month + ".tif";
    FileHasNoSlash(y, month);
    YearFileOf(tempDir, c.baseDataUrl + "/africa_monthly/tifs", file + ".gz");
    assert (file + ".gz")[..|file + ".gz"| - 3] == file;
  }

  /** The local name of `dir/name` is `name` without its last three characters. */
  lemma YearFileOf(tempDir: string, dir: string, name: string)
    requires '/' !in name && |name| >= 3
    ensures YearFile(tempDir, dir + "/" + name) == Strings.PathJoin(tempDir, name[..|name| - 3])
  {
    Strings.BasenameOf(dir, name);
  }

  /** The file name part of a climatology URL holds no "/". */
  lemma FileHasNoSlash(y: string, month: string)
    requires Strings.AllDigits(y) && '/' !in month
    ensures '/' !in "chirps-v2.0." + y + "." + month + ".tif" + ".gz"
  {
    assert '/' !in y by {
      forall k | 0 <= k < |y| ensures y[k] != '/' { assert Strings.IsDigit(y[k]); }
    }
    PiecesNoSlash();
  }

  lemma PiecesNoSlash()
    ensures '/' !in "chirps-v2.0." && '/' !in "." && '/' !in ".tif" && '/' !in ".gz"
  {
  }
}
