/**
 * ingest/__init__.py: the DataIngest base every dataset extends. Its constructor checks, its state
 * accessors (which wrap every stored value as {"last_update": x}), the guard deciding whether an ingest
 * command reaches the GSKY webhook, and the cdo command that converts GRIB to netCDF.
 */
module Ingest {
  import opened Wrappers
  import opened Errors
  import opened Json
  import opened Utils
  import Strings

  /** The settings a DataIngest keeps (the shapefile path for clipping is not part of this model). */
  datatype DataIngest = DataIngest(datasetId: string, outputDir: string)

  /** DataIngest.__init__: ParameterMissing for an empty dataset id, then for an empty output dir. */
  function NewDataIngest(datasetId: string, outputDir: string): (r: Result<DataIngest, Error>)
    ensures r.Ok? <==> datasetId != "" && outputDir != ""
    ensures r.Ok? ==> r.value.datasetId == datasetId && r.value.outputDir == outputDir
    ensures datasetId == "" ==> r == Err(ParameterMissing("dataset_id not provided"))
    ensures datasetId != "" && outputDir == "" ==> r == Err(ParameterMissing("output_dir not provided"))
  {
    if datasetId == "" then Err(ParameterMissing("dataset_id not provided"))
    else if outputDir == "" then Err(ParameterMissing("output_dir not provided"))
    else Ok(DataIngest(datasetId, outputDir))
  }

  /** The keywords DataIngest.__init__ declares. */
  predicate InitKeyword(k: string)
  {
    k == "dataset_id" || k == "output_dir"
  }

  /** `DataIngest.__init__(self, **kwargs)` with the keyword names in `keywords`: Python binds the
      arguments before the body runs, so a keyword the signature does not declare raises TypeError and
      the ParameterMissing checks are never reached. */
  function InitWithKeywords(keywords: seq<string>, datasetId: string, outputDir: string): (r: Result<DataIngest, Error>)
    ensures (forall k :: k in keywords ==> InitKeyword(k)) ==> r == NewDataIngest(datasetId, outputDir)
    ensures (exists k :: k in keywords && !InitKeyword(k)) ==> r == Err(TypeError)
  {
    if forall k :: k in keywords ==> InitKeyword(k) then NewDataIngest(datasetId, outputDir) else Err(TypeError)
  }

  /** The CHIRPS, TAMSAT and CAMS constructors call `super().__init__` with `cleanup_old_data=`, which
      DataIngest.__init__ does not accept: the call raises TypeError even for arguments that the base
      constructor accepts. */
  lemma CleanupKeywordRaises(datasetId: string, outputDir: string)
    ensures InitWithKeywords(["dataset_id", "output_dir", "cleanup_old_data"], datasetId, outputDir) == Err(TypeError)
    ensures datasetId != "" && outputDir != "" ==> NewDataIngest(datasetId, outputDir).Ok?
  {
    var keywords := ["dataset_id", "output_dir", "cleanup_old_data"];
    assert keywords[2] in keywords && !InitKeyword(keywords[2]);
  }

  /** What DataIngest.update_state(x) stores for the dataset. */
  function Marker(lastUpdate: Json): (m: Json)
    ensures Truthy(m) && m.Obj? && m.fields.Keys == {"last_update"}
  {
    var m := Obj(map["last_update" := lastUpdate]);
    assert "last_update" in m.fields;
    m
  }

  /** get_state: read_state of the instance's dataset id. `fail` says where the healing write of an
      unparsable file stops, if it stops; reading a present, parsable file writes nothing. */
  method GetState(disk: Disk, ingest: DataIngest, fail: FailPoint) returns (r: Result<Option<Json>, Error>)
    modifies disk
    ensures fail == NoFailure || !NeedsHeal(old(disk.files), disk.stateFile) ==>
      && r == Ok(ReadStateValue(old(disk.files), disk.stateFile, ingest.datasetId))
      && disk.files == ReadStateFiles(old(disk.files), disk.stateFile, ingest.datasetId)
    ensures fail != NoFailure && NeedsHeal(old(disk.files), disk.stateFile) ==>
      && r.Err?
      && exists tmp :: tmp != disk.stateFile && tmp !in old(disk.files)
           && disk.files == AfterAtomicWrite(old(disk.files), disk.stateFile, tmp, Doc(EmptyDoc(ingest.datasetId)), fail)
  {
    ghost var tmp;
    r, tmp := disk.ReadState(ingest.datasetId, fail);
  }

  /** update_state(x): store {"last_update": x} under the instance's dataset id. `fail` says where the
      atomic write of the whole map stops, if it stops. */
  method UpdateState(disk: Disk, ingest: DataIngest, lastUpdate: Json, fail: FailPoint) returns (r: Outcome<Error>)
    modifies disk
    ensures var u := UpdateStateFiles(old(disk.files), disk.stateFile, ingest.datasetId, Marker(lastUpdate));
      && (u.Err? ==> r == Fail(u.error) && disk.files == old(disk.files))
      && (u.Ok? && fail == NoFailure ==> r == Pass && disk.files == u.value)
      && (u.Ok? && fail != NoFailure ==> r.Fail?)
      && (u.Ok? && fail != NoFailure ==>
            exists tmp :: tmp != disk.stateFile && tmp !in old(disk.files)
              && disk.files == AfterAtomicWrite(old(disk.files), disk.stateFile, tmp, u.value[disk.stateFile], fail))
  {
    var newState := Obj(map["last_update" := lastUpdate]);
    ghost var tmp;
    r, tmp := disk.UpdateState(ingest.datasetId, newState, fail);
  }

  /** Whatever x is, the next get_state after update_state(x) returns exactly {"last_update": x}, and
      the value a caller finds under "last_update" is x itself, nested under no other key. */
  lemma CommitThenGet(files: map<Path, Content>, path: Path, datasetId: string, x: Json)
    requires UpdateStateFiles(files, path, datasetId, Marker(x)).Ok?
    ensures var after := UpdateStateFiles(files, path, datasetId, Marker(x)).value;
      && ReadStateValue(after, path, datasetId) == Some(Marker(x))
      && Get(ReadStateValue(after, path, datasetId).value, "last_update") == Ok(x)
      && forall k :: k != "last_update" ==> Get(ReadStateValue(after, path, datasetId).value, k) == Ok(Null)
  {
    var after := UpdateStateFiles(files, path, datasetId, Marker(x)).value;
    UpdateThenRead(files, path, datasetId, Marker(x), datasetId + "'");
  }

  /** The file system after a run that commits `commit` (when there is one) through update_state. */
  function Committed(files: map<Path, Content>, path: Path, datasetId: string, commit: Option<Json>): map<Path, Content>
  {
    if commit.None? then files
    else match UpdateStateFiles(files, path, datasetId, Marker(commit.value))
      case Ok(after) => after
      case Err(_) => files
  }

  /** Once get_state has run the state file exists and decodes, so the commit succeeds; the file is then
      left as read_state finds it, and the next get_state returns {"last_update": x}. */
  lemma ReadThenCommit(files: map<Path, Content>, path: Path, datasetId: string, x: Json)
    ensures var read := ReadStateFiles(files, path, datasetId);
      && UpdateStateFiles(read, path, datasetId, Marker(x)).Ok?
      && var after := Committed(read, path, datasetId, Some(x));
      && ReadStateFiles(after, path, datasetId) == after
      && ReadStateValue(after, path, datasetId) == Some(Marker(x))
  {
    var read := ReadStateFiles(files, path, datasetId);
    var after := Committed(read, path, datasetId, Some(x));
    assert after == UpdateStateFiles(read, path, datasetId, Marker(x)).value;
    UpdateThenRead(read, path, datasetId, Marker(x), datasetId + "'");
  }

  /** A state file that read_state has already created or healed: present, and valid JSON. */
  predicate Healed(files: map<Path, Content>, path: Path)
  {
    path in files && files[path].Doc?
  }

  /** read_state leaves the file healed, and reading a healed file changes nothing. */
  lemma ReadHeals(files: map<Path, Content>, path: Path, datasetId: string)
    ensures Healed(ReadStateFiles(files, path, datasetId), path)
    ensures Healed(files, path) ==> ReadStateFiles(files, path, datasetId) == files
  {
  }

  /** On a healed file a commit cannot fail, keeps the file healed, and reads back as the marker. */
  lemma CommitHealed(files: map<Path, Content>, path: Path, datasetId: string, commit: Option<Json>)
    requires Healed(files, path)
    ensures Healed(Committed(files, path, datasetId, commit), path)
    ensures commit.Some? ==> UpdateStateFiles(files, path, datasetId, Marker(commit.value)).Ok?
    ensures commit.Some? ==> ReadStateValue(Committed(files, path, datasetId, commit), path, datasetId) == Some(Marker(commit.value))
  {
  }

  /** Committing the same value a second time leaves the file as the first commit did. */
  lemma CommitTwice(files: map<Path, Content>, path: Path, datasetId: string, x: Json)
    requires Healed(files, path)
    ensures var once := Committed(files, path, datasetId, Some(x));
      Committed(once, path, datasetId, Some(x)) == once
  {
    var once := Committed(files, path, datasetId, Some(x));
    assert once[path].state[datasetId := Marker(x)] == once[path].state;
  }

  /** The skip test of every run: the state is truthy and its last_update is truthy and equal to
      `version`. A falsy state short-circuits; a truthy state that is not an object has no `get`. */
  function UpToDate(state: Option<Json>, version: string): (r: Result<bool, Error>)
    ensures r == Ok(true) <==>
      state.Some? && state.value.Obj? && "last_update" in state.value.fields
      && state.value.fields["last_update"] == Str(version) && version != ""
    ensures r.Err? <==> state.Some? && Truthy(state.value) && !state.value.Obj?
    ensures r.Err? ==> r.error == AttributeError
  {
    if state.None? || !Truthy(state.value) then Ok(false)
    else match Get(state.value, "last_update")
      case Err(e) => Err(e)
      case Ok(stored) => Ok(Truthy(stored) && stored == Str(version))
  }

  // ---------------------------------------------------------------- ingest commands

  /** The form fields of an ingest command. */
  datatype Payload = Payload(namespace: string, path: string, dataType: string, args: string)

  /** The GeoTIFF ingest command every dataset sends for a namespace stored under `dataDir`. */
  function TifPayload(namespace: string, dataDir: string): Payload
  {
    Payload("-n " + namespace, "-p " + dataDir, "-t tif", "-x -conf /rulesets/namespace_yyy-mm-ddTH.tif.json")
  }

  /** An effect a sync run has outside the state file: a download attempt from a URL (into a
      temporary file, or into a named file), a client retrieve into a local target, or a
      send_ingest_command call. */
  datatype Event = Fetch(url: string) | FetchTo(url: string, file: string) | Retrieve(target: string) | Ingest(payload: Payload)

  lemma AppendAssociative(a: seq<Event>, b: seq<Event>, c: seq<Event>)
    ensures a + b + c == a + (b + c)
  {
  }

  /** What a sync run does: how it ends, its effects in order, and the value it hands to update_state
      as its last step, if it gets that far. */
  datatype Plan = Plan(outcome: Outcome<Error>, events: seq<Event>, commit: Option<Json>)

  /** The webhook settings; an unset setting is the empty string. */
  datatype Webhook = Webhook(url: string, secret: string)

  /** A signed POST of a payload to the webhook. */
  datatype Post = Post(url: string, body: Payload)

  /** send_ingest_command: POST only when both the webhook URL and the secret are set; the result says
      whether it posted. */
  function SendIngestCommand(hook: Webhook, payload: Payload): (r: (bool, seq<Post>))
    ensures r.0 <==> hook.url != "" && hook.secret != ""
    ensures r.0 ==> r.1 == [Post(hook.url, payload)]
    ensures !r.0 ==> r.1 == []
  {
    if hook.url != "" && hook.secret != "" then (true, [Post(hook.url, payload)]) else (false, [])
  }

  /** The POSTs a sequence of send_ingest_command calls makes. */
  function Posts(hook: Webhook, events: seq<Event>): seq<Post>
  {
    if events == [] then []
    else Posts(hook, events[..|events| - 1]) +
         (if events[|events| - 1].Ingest? then SendIngestCommand(hook, events[|events| - 1].payload).1 else [])
  }

  function IngestCount(events: seq<Event>): nat
  {
    if events == [] then 0 else IngestCount(events[..|events| - 1]) + (if events[|events| - 1].Ingest? then 1 else 0)
  }

  /** With the webhook configured every ingest command of a run is posted, and none is otherwise. */
  lemma {:induction false} PostsPerIngest(hook: Webhook, events: seq<Event>)
    ensures hook.url != "" && hook.secret != "" ==> |Posts(hook, events)| == IngestCount(events)
    ensures !(hook.url != "" && hook.secret != "") ==> Posts(hook, events) == []
  {
    if events != [] {
      PostsPerIngest(hook, events[..|events| - 1]);
    }
  }

  // ---------------------------------------------------------------- grib_to_netcdf

  /** The shell command grib_to_netcdf runs. */
  function CdoCommand(input: string, output: string): string
  {
    "cdo -f nc copy " + input + " " + output
  }

  /** For space-free paths the shell sees exactly the words cdo -f nc copy <input> <output>. */
  lemma CdoCommandWords(input: string, output: string)
    requires ' ' !in input && ' ' !in output
    ensures Strings.Split(CdoCommand(input, output), ' ') == ["cdo", "-f", "nc", "copy", input, output]
  {
    var words := ["cdo", "-f", "nc", "copy", input, output];
    CdoJoin(input, output);
    forall k | 0 <= k < |words| ensures ' ' !in words[k] {
    }
    Strings.SplitJoin(words, ' ');
  }

  lemma CdoJoin(input: string, output: string)
    ensures Strings.Join(["cdo", "-f", "nc", "copy", input, output], " ") == CdoCommand(input, output)
  {
    var w := ["cdo", "-f", "nc", "copy", input, output];
    JoinCons("cdo", w[1..]);
    JoinCons("-f", w[2..]);
    JoinCons("nc", w[3..]);
    JoinCons("copy", w[4..]);
    JoinCons(input, w[5..]);
    assert w[1..] == ["-f"] + w[2..] && w[2..] == ["nc"] + w[3..] && w[3..] == ["copy"] + w[4..];
    assert w[4..] == [input] + w[5..] && w[5..] == [output] && w == ["cdo"] + w[1..];
    assert "cdo" + " " + ("-f" + " " + ("nc" + " " + ("copy" + " " + (input + " " + output))))
        == "cdo -f nc copy " + input + " " + output;
  }

  lemma JoinCons(a: string, rest: seq<string>)
    requires rest != []
    ensures Strings.Join([a] + rest, " ") == a + " " + Strings.Join(rest, " ")
  {
    assert ([a] + rest)[1..] == rest;
  }

  /** grib_to_netcdf with the process's exit status: the output path, or CalledProcessError. */
  function GribToNetcdf(input: string, output: string, exitStatus: int): (r: Result<string, Error>)
    ensures r.Ok? <==> exitStatus == 0
    ensures r.Ok? ==> r.value == output
    ensures r.Err? ==> r.error == CalledProcessError(CdoCommand(input, output))
  {
    if exitStatus == 0 then Ok(output) else Err(CalledProcessError(CdoCommand(input, output)))
  }

  /** download_file_temp(url): HTTPError when the response status raises. */
  function DownloadFileTemp(url: string, status: int): (r: Outcome<Error>)
    ensures r.Fail? <==> RaisesForStatus(status)
    ensures r.Fail? ==> r.error == HttpError(status)
  {
    if RaisesForStatus(status) then Fail(HttpError(status)) else Pass
  }
}
