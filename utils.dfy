/**
 * ingest/utils.py: the crash-safe state store (atomic_write, write_empty_state, read_state,
 * update_state), the sweep that deletes data files older than the latest date, and convert_data.
 *
 * The file system is a map from path to content. A file's content is either a document that
 * json.load decodes as an object (what json.dumps of a dict writes) or raw text that is not valid JSON.
 */
module Utils {
  import opened Wrappers
  import opened Errors
  import opened Json
  import opened DateUtils
  import Strings

  type Path = string

  datatype Content = Doc(state: map<string, Json>) | Raw(text: string)

  /** Where an atomic write may stop: a process crash, or an exception inside the try block. */
  datatype FailPoint = NoFailure | CrashBeforeReplace | ErrorBeforeReplace

  /** The file system after `atomic_write(c, target)` with temporary file `tmp`. */
  function AfterAtomicWrite(files: map<Path, Content>, target: Path, tmp: Path, c: Content, fail: FailPoint)
    : map<Path, Content>
  {
    match fail
    case NoFailure => files[target := c]
    case CrashBeforeReplace => files[tmp := c]
    case ErrorBeforeReplace => files
  }

  /** A successful atomic write leaves exactly the new contents at the target and no temporary file. */
  lemma AtomicWriteReplaces(files: map<Path, Content>, target: Path, tmp: Path, c: Content)
    requires tmp !in files && tmp != target
    ensures var after := AfterAtomicWrite(files, target, tmp, c, NoFailure);
      && after[target] == c
      && after.Keys == files.Keys + {target}
      && forall p :: p in files && p != target ==> after[p] == files[p]
  {
  }

  /** A write that stops before the rename leaves the target as it was. */
  lemma FailedWriteKeepsTarget(files: map<Path, Content>, target: Path, tmp: Path, c: Content, fail: FailPoint)
    requires tmp !in files && tmp != target && fail != NoFailure
    ensures var after := AfterAtomicWrite(files, target, tmp, c, fail);
      && (target in after <==> target in files)
      && (target in files ==> after[target] == files[target])
      && (fail == ErrorBeforeReplace ==> after == files)
  {
  }

  // ---------------------------------------------------------------- the state file

  /** The document write_empty_state writes. */
  function EmptyDoc(datasetId: string): map<string, Json>
  {
    if datasetId != "" then map[datasetId := Obj(map["last_update" := Str("")])] else map[]
  }

  /** The value write_empty_state returns: the dataset's entry, or the whole (empty) document. */
  function EmptyEntry(datasetId: string): Json
  {
    if datasetId != "" then Obj(map["last_update" := Str("")]) else Obj(map[])
  }

  /** The file system once read_state has created a missing state file. */
  function Created(files: map<Path, Content>, path: Path): (r: map<Path, Content>)
    ensures path in r
  {
    if path in files then files else files[path := Doc(map[])]
  }

  predicate NeedsHeal(files: map<Path, Content>, path: Path)
  {
    path in files && files[path].Raw?
  }

  /** The file system after a read_state whose writes all succeed. */
  function ReadStateFiles(files: map<Path, Content>, path: Path, datasetId: string): map<Path, Content>
  {
    if NeedsHeal(files, path) then files[path := Doc(EmptyDoc(datasetId))] else Created(files, path)
  }

  /** What read_state returns: `state.get(id)` if truthy, else None, where `state` is the decoded
      file, or, for an unparsable file, the value write_empty_state returned. */
  function ReadStateValue(files: map<Path, Content>, path: Path, datasetId: string): Option<Json>
  {
    var state := if NeedsHeal(files, path) then EmptyEntry(datasetId) else Obj(Created(files, path)[path].state);
    var entry := Get(state, datasetId).value;
    if Truthy(entry) then Some(entry) else None
  }

  /** read_state on a well-formed (or missing) file: the dataset's entry when it is truthy. */
  lemma ReadStateFindsEntry(files: map<Path, Content>, path: Path, datasetId: string)
    requires !NeedsHeal(files, path)
    ensures path !in files ==> ReadStateFiles(files, path, datasetId)[path] == Doc(map[])
    ensures ReadStateValue(files, path, datasetId) ==
      if path in files && datasetId in files[path].state && Truthy(files[path].state[datasetId])
      then Some(files[path].state[datasetId]) else None
  {
  }

  /** Self-healing: an unparsable state file reads as None for every id, and is rewritten to hold
      the requesting dataset's empty entry only, which drops every other dataset's entry. */
  lemma CorruptStateHeals(files: map<Path, Content>, path: Path, datasetId: string)
    requires NeedsHeal(files, path)
    ensures ReadStateValue(files, path, datasetId) == None
    ensures var healed := ReadStateFiles(files, path, datasetId)[path];
      && healed == Doc(EmptyDoc(datasetId))
      && forall other :: other != datasetId ==> other !in healed.state
  {
    if datasetId != "" {
      assert Get(EmptyEntry(datasetId), datasetId).value ==
        (if datasetId == "last_update" then Str("") else Null);
    }
  }

  /** What update_state makes of the file system: FileNotFound for a missing file, JSONDecodeError
      for an unparsable one, else the document with `id` mapped to the new state. */
  function UpdateStateFiles(files: map<Path, Content>, path: Path, datasetId: string, newState: Json)
    : Result<map<Path, Content>, Error>
  {
    if path !in files then Err(FileNotFound(path))
    else if files[path].Raw? then Err(JsonDecodeError)
    else Ok(files[path := Doc(files[path].state[datasetId := newState])])
  }

  /** After update_state(id, s) the map has map[id] == s and every other entry unchanged, so a read
      of `id` returns s (when truthy) and reads of other ids return what they did before. */
  lemma UpdateThenRead(files: map<Path, Content>, path: Path, datasetId: string, newState: Json, other: string)
    requires UpdateStateFiles(files, path, datasetId, newState).Ok?
    requires other != datasetId
    ensures var after := UpdateStateFiles(files, path, datasetId, newState).value;
      && after[path].state[datasetId] == newState
      && after[path].state - {datasetId} == files[path].state - {datasetId}
      && ReadStateValue(after, path, datasetId) == (if Truthy(newState) then Some(newState) else None)
      && ReadStateValue(after, path, other) == ReadStateValue(files, path, other)
  {
  }

  /** A crash or error inside the commit's atomic write leaves every read as it was. */
  lemma InterruptedCommitKeepsState(files: map<Path, Content>, path: Path, tmp: Path, c: Content,
                                    fail: FailPoint, datasetId: string)
    requires tmp !in files && tmp != path && fail != NoFailure
    ensures ReadStateValue(AfterAtomicWrite(files, path, tmp, c, fail), path, datasetId) ==
            ReadStateValue(files, path, datasetId)
  {
    FailedWriteKeepsTarget(files, path, tmp, c, fail);
  }

  // ---------------------------------------------------------------- removing stale data files

  /** A timestamp `\d{4}-\d{2}-\d{2}T\d{2}:\d{2}:\d{2}\.\d{3}Z` starting at position i of p. */
  predicate StampAt(p: string, i: int)
  {
    && 0 <= i && i + 24 <= |p|
    && DigitsAt(p, i, 4) && p[i + 4] == '-' && DigitsAt(p, i + 5, 2) && p[i + 7] == '-'
    && DigitsAt(p, i + 8, 2) && p[i + 10] == 'T' && DigitsAt(p, i + 11, 2) && p[i + 13] == ':'
    && DigitsAt(p, i + 14, 2) && p[i + 16] == ':' && DigitsAt(p, i + 17, 2) && p[i + 19] == '.'
    && DigitsAt(p, i + 20, 3) && p[i + 23] == 'Z'
  }

  /** `re.search(pattern, p)` from position `from` on: the leftmost stamp. */
  function FindStamp(p: string, from: nat): (r: Option<nat>)
    requires from <= |p|
    ensures r.Some? ==> from <= r.value && StampAt(p, r.value)
    ensures forall j :: from <= j && (r.None? || j < r.value) ==> !StampAt(p, j)
    decreases |p| - from
  {
    if from + 24 > |p| then None
    else if StampAt(p, from) then Some(from)
    else FindStamp(p, from + 1)
  }

  /** A UTC instant with millisecond resolution. */
  datatype Instant = Instant(at: DateTime, millis: int)

  predicate InstantBefore(a: Instant, b: Instant)
  {
    Before(a.at, b.at) || (a.at == b.at && a.millis < b.millis)
  }

  /** `parser.parse` of the stamp at position i: ValueError for an impossible date or time. */
  function ParseStamp(p: string, i: nat): Result<Instant, Error>
    requires StampAt(p, i)
  {
    var t := DateTime(NumberAt(p, i, 4), NumberAt(p, i + 5, 2), NumberAt(p, i + 8, 2),
                      NumberAt(p, i + 11, 2), NumberAt(p, i + 14, 2), NumberAt(p, i + 17, 2));
    if Valid(t) then Ok(Instant(t, NumberAt(p, i + 20, 3))) else Err(ValueError("day is out of range for month"))
  }

  /** Whether delete_past_data_files removes `p`: its first stamp is strictly earlier than `latest`. */
  function Stale(p: Path, latest: Instant): Result<bool, Error>
  {
    match FindStamp(p, 0)
    case None => Ok(false)
    case Some(i) =>
      match ParseStamp(p, i)
      case Err(e) => Err(e)
      case Ok(t) => Ok(InstantBefore(t, latest))
  }

  /** The progress of the sweep over the walked files. */
  datatype Sweep = Sweep(files: map<Path, Content>, count: nat, error: Option<Error>)

  function SweepOf(files: map<Path, Content>, walk: seq<Path>, latest: Instant): Sweep
  {
    if walk == [] then Sweep(files, 0, None)
    else
      var s := SweepOf(files, walk[..|walk| - 1], latest);
      var p := walk[|walk| - 1];
      if s.error.Some? then s
      else match Stale(p, latest)
        case Err(e) => s.(error := Some(e))
        case Ok(false) => s
        case Ok(true) =>
          if p in s.files then Sweep(s.files - {p}, s.count + 1, None) else s.(error := Some(FileNotFound(p)))
  }

  /** The walked files whose first stamp is strictly earlier than `latest`. */
  function StaleSet(walk: seq<Path>, latest: Instant): set<Path>
  {
    if walk == [] then {}
    else StaleSet(walk[..|walk| - 1], latest) +
         (if Stale(walk[|walk| - 1], latest) == Ok(true) then {walk[|walk| - 1]} else {})
  }

  lemma {:induction false} StaleSetIn(walk: seq<Path>, latest: Instant)
    ensures forall q :: q in StaleSet(walk, latest) ==> q in walk && Stale(q, latest) == Ok(true)
  {
    if walk != [] {
      StaleSetIn(walk[..|walk| - 1], latest);
    }
  }

  /** Over a listing of distinct existing files whose stamps all parse, the sweep deletes exactly the
      stale ones, keeps every other file, and its count is the number deleted. */
  lemma {:induction false} SweepDeletesExactlyStale(files: map<Path, Content>, walk: seq<Path>, latest: Instant)
    requires forall i, j :: 0 <= i < j < |walk| ==> walk[i] != walk[j]
    requires forall i :: 0 <= i < |walk| ==> walk[i] in files && Stale(walk[i], latest).Ok?
    ensures SweepOf(files, walk, latest) == Sweep(files - StaleSet(walk, latest), |StaleSet(walk, latest)|, None)
  {
    if walk != [] {
      var w := walk[..|walk| - 1];
      var p := walk[|walk| - 1];
      SweepDeletesExactlyStale(files, w, latest);
      StaleSetIn(w, latest);
      assert p !in w by {
        forall i | 0 <= i < |w| ensures w[i] != p {
          assert w[i] == walk[i] && p == walk[|walk| - 1];
        }
      }
      SweepStep(files, w, p, latest);
      assert w + [p] == walk;
    }
  }

  lemma SweepStep(files: map<Path, Content>, w: seq<Path>, p: Path, latest: Instant)
    requires SweepOf(files, w, latest) == Sweep(files - StaleSet(w, latest), |StaleSet(w, latest)|, None)
    requires p in files && p !in StaleSet(w, latest) && Stale(p, latest).Ok?
    ensures SweepOf(files, w + [p], latest) == Sweep(files - StaleSet(w + [p], latest), |StaleSet(w + [p], latest)|, None)
  {
    var walk := w + [p];
    assert walk[..|walk| - 1] == w && walk[|walk| - 1] == p;
    if Stale(p, latest) == Ok(true) {
      SweepStepStale(files, w, p, latest);
    } else {
      assert StaleSet(walk, latest) == StaleSet(w, latest);
      assert SweepOf(files, walk, latest) == SweepOf(files, w, latest);
    }
  }

  /** A stale file the sweep has not deleted yet is deleted and counted. */
  lemma SweepStepStale(files: map<Path, Content>, w: seq<Path>, p: Path, latest: Instant)
    requires SweepOf(files, w, latest) == Sweep(files - StaleSet(w, latest), |StaleSet(w, latest)|, None)
    requires p in files && p !in StaleSet(w, latest) && Stale(p, latest) == Ok(true)
    ensures SweepOf(files, w + [p], latest) == Sweep(files - StaleSet(w + [p], latest), |StaleSet(w + [p], latest)|, None)
  {
    var walk := w + [p];
    assert walk[..|walk| - 1] == w && walk[|walk| - 1] == p;
    var before, s := StaleSet(w, latest), SweepOf(files, w, latest);
    RemoveOneMore(files, before, p);
    assert StaleSet(walk, latest) == before + {p};
    assert SweepOf(files, walk, latest) == Sweep(s.files - {p}, s.count + 1, None);
  }

  /** Deleting one more file that is still there. */
  lemma RemoveOneMore(files: map<Path, Content>, before: set<Path>, p: Path)
    requires p in files && p !in before
    ensures p in files - before && |before + {p}| == |before| + 1
    ensures (files - before) - {p} == files - (before + {p})
  {
  }

  /** Once the sweep has failed, later files do not change it. */
  lemma {:induction false} SweepStops(files: map<Path, Content>, walk: seq<Path>, k: nat, latest: Instant)
    requires k <= |walk| && SweepOf(files, walk[..k], latest).error.Some?
    ensures SweepOf(files, walk, latest) == SweepOf(files, walk[..k], latest)
    decreases |walk| - k
  {
    if k < |walk| {
      var w := walk[..|walk| - 1];
      assert w[..k] == walk[..k];
      SweepStops(files, w, k, latest);
    } else {
      assert walk[..k] == walk;
    }
  }

  // ---------------------------------------------------------------- convert_data

  datatype Operation = Multiply | Divide | Subtract | Add

  function ParseOperation(operation: string): Result<Operation, Error>
  {
    if operation == "multiply" then Ok(Multiply)
    else if operation == "divide" then Ok(Divide)
    else if operation == "subtract" then Ok(Subtract)
    else if operation == "add" then Ok(Add)
    else Err(UnknownDataConvertOperation("Unknown operation: " + operation))
  }

  function Apply(op: Operation, x: real, constant: real): real
    requires op == Divide ==> constant != 0.0
  {
    match op
    case Multiply => x * constant
    case Divide => x / constant
    case Subtract => x - constant
    case Add => x + constant
  }

  /** convert_data on the values of a data array, element by element. */
  function ConvertData(data: seq<real>, constant: real, operation: string): (r: Result<seq<real>, Error>)
    requires operation == "divide" ==> constant != 0.0
    ensures r.Err? <==> operation !in {"multiply", "divide", "subtract", "add"}
    ensures r.Err? ==> r.error == UnknownDataConvertOperation("Unknown operation: " + operation)
    ensures r.Ok? ==> |r.value| == |data|
    ensures operation == "multiply" ==> forall i :: 0 <= i < |data| ==> r.value[i] == data[i] * constant
    ensures operation == "divide" ==> forall i :: 0 <= i < |data| ==> r.value[i] == data[i] / constant
    ensures operation == "subtract" ==> forall i :: 0 <= i < |data| ==> r.value[i] == data[i] - constant
    ensures operation == "add" ==> forall i :: 0 <= i < |data| ==> r.value[i] == data[i] + constant
  {
    match ParseOperation(operation)
    case Err(e) => Err(e)
    case Ok(op) => Ok(seq(|data|, i requires 0 <= i < |data| => Apply(op, data[i], constant)))
  }

  /** Subtracting undoes adding and dividing undoes multiplying by a non-zero constant. */
  lemma ConvertInverse(data: seq<real>, constant: real)
    ensures ConvertData(ConvertData(data, constant, "add").value, constant, "subtract") == Ok(data)
    ensures constant != 0.0 ==>
      ConvertData(ConvertData(data, constant, "multiply").value, constant, "divide") == Ok(data)
  {
    var added := ConvertData(data, constant, "add").value;
    assert ConvertData(added, constant, "subtract").value == data;
    if constant != 0.0 {
      var scaled := ConvertData(data, constant, "multiply").value;
      forall i | 0 <= i < |data| ensures scaled[i] / constant == data[i] {
        assert scaled[i] == data[i] * constant;
      }
      assert ConvertData(scaled, constant, "divide").value == data;
    }
  }

  // ---------------------------------------------------------------- the disk

  /** A name that is not in `used`: longer than all of them. */
  method FreshName(used: set<Path>, prefix: Path) returns (t: Path)
    ensures t !in used
  {
    var longest := 0;
    var rest := used;
    while rest != {}
      invariant longest >= 0 && rest <= used
      invariant forall q :: q in used - rest ==> |q| <= longest
      decreases rest
    {
      var q :| q in rest;
      if |q| > longest {
        longest := |q|;
      }
      rest := rest - {q};
    }
    t := prefix + seq(longest + 1, _ => 'x');
    assert forall q :: q in used ==> |q| < |t|;
  }

  /** Removing a temporary file that was not there before leaves the file system as it was. */
  lemma DropTemp(files: map<Path, Content>, tmp: Path, c: Content)
    requires tmp !in files
    ensures files[tmp := c] - {tmp} == files
  {
  }

  class Disk {
    /** DATASET_STATE_FILE: `state.json` in the configured state directory. */
    const stateFile: Path
    var files: map<Path, Content>

    constructor (stateFile: Path, files: map<Path, Content>)
      ensures this.stateFile == stateFile && this.files == files
    {
      this.stateFile := stateFile;
      this.files := files;
    }

    /** atomic_write(contents, target) in mode "w": write a fresh temporary file, fsync it, rename it
        over the target; an exception before the rename removes the temporary file, a crash does not. */
    method AtomicWrite(contents: Content, target: Path, fail: FailPoint) returns (r: Outcome<Error>, ghost tmp: Path)
      modifies this
      ensures tmp != target && tmp !in old(files)
      ensures files == AfterAtomicWrite(old(files), target, tmp, contents, fail)
      ensures r.Pass? <==> fail == NoFailure
    {
      var name := FreshName(files.Keys + {target}, target + ".");
      tmp := name;
      files := files[name := Raw("")];
      if target in files {
        files := files[name := files[target]];
      }
      files := files[name := contents];
      if fail == CrashBeforeReplace {
        return Fail(ExternalFailure("crash before os.replace")), tmp;
      }
      assert files == old(files)[name := contents];
      if fail == ErrorBeforeReplace {
        files := files - {name};
        DropTemp(old(files), name, contents);
        return Fail(ExternalFailure("error before os.replace")), tmp;
      }
      var written := files[name];
      files := (files - {name})[target := written];
      DropTemp(old(files), name, contents);
      r := Pass;
    }

    /** write_empty_state(id). */
    method WriteEmptyState(datasetId: string, fail: FailPoint) returns (r: Result<Json, Error>, ghost tmp: Path)
      modifies this
      ensures tmp != stateFile && tmp !in old(files)
      ensures files == AfterAtomicWrite(old(files), stateFile, tmp, Doc(EmptyDoc(datasetId)), fail)
      ensures r.Ok? <==> fail == NoFailure
      ensures r.Ok? ==> r.value == EmptyEntry(datasetId)
    {
      var content: map<string, Json> := map[];
      if datasetId != "" {
        content := content[datasetId := Obj(map["last_update" := Str("")])];
      }
      var w;
      w, tmp := AtomicWrite(Doc(content), stateFile, fail);
      if w.Fail? {
        return Err(w.error), tmp;
      }
      if datasetId != "" {
        return Ok(content[datasetId]), tmp;
      }
      r := Ok(Obj(content));
    }

    /** read_state(id): create a missing file, heal an unparsable one, return the entry when truthy. */
    method ReadState(datasetId: string, fail: FailPoint) returns (r: Result<Option<Json>, Error>, ghost tmp: Path)
      modifies this
      ensures fail == NoFailure || !NeedsHeal(old(files), stateFile) ==>
        r == Ok(ReadStateValue(old(files), stateFile, datasetId)) && files == ReadStateFiles(old(files), stateFile, datasetId)
      ensures fail != NoFailure && NeedsHeal(old(files), stateFile) ==>
        && r.Err? && tmp != stateFile && tmp !in old(files)
        && files == AfterAtomicWrite(old(files), stateFile, tmp, Doc(EmptyDoc(datasetId)), fail)
    {
      tmp := stateFile;
      if stateFile !in files {
        files := files[stateFile := Doc(map[])];
      }
      var state: Json;
      match files[stateFile] {
        case Doc(m) =>
          state := Obj(m);
        case Raw(_) =>
          var healed;
          healed, tmp := WriteEmptyState(datasetId, fail);
          if healed.Err? {
            return Err(healed.error), tmp;
          }
          state := healed.value;
      }
      var entry := Get(state, datasetId).value;
      if Truthy(entry) {
        return Ok(Some(entry)), tmp;
      }
      r := Ok(None);
    }

    /** update_state(id, s): load the whole map, set map[id] := s, write the whole map back. */
    method UpdateState(datasetId: string, newState: Json, fail: FailPoint) returns (r: Outcome<Error>, ghost tmp: Path)
      modifies this
      ensures UpdateStateFiles(old(files), stateFile, datasetId, newState).Err? ==>
        files == old(files) && r == Fail(UpdateStateFiles(old(files), stateFile, datasetId, newState).error)
      ensures UpdateStateFiles(old(files), stateFile, datasetId, newState).Ok? ==>
        && tmp != stateFile && tmp !in old(files)
        && files == AfterAtomicWrite(old(files), stateFile, tmp,
                                     Doc(old(files)[stateFile].state[datasetId := newState]), fail)
        && (r.Pass? <==> fail == NoFailure)
        && (fail == NoFailure ==> files == UpdateStateFiles(old(files), stateFile, datasetId, newState).value)
    {
      tmp := stateFile;
      if stateFile !in files {
        return Fail(FileNotFound(stateFile)), tmp;
      }
      match files[stateFile] {
        case Raw(_) =>
          r := Fail(JsonDecodeError);
        case Doc(m) =>
          var state := m[datasetId := newState];
          r, tmp := AtomicWrite(Doc(state), stateFile, fail);
      }
    }

    /** delete_past_data_files(latest, dir) over the files os.walk lists, in walk order; returns the
        logged count. A stamp that does not parse raises and ends the sweep where it is. */
    method DeletePastDataFiles(latest: Instant, walk: seq<Path>) returns (r: Result<nat, Error>)
      modifies this
      ensures var s := SweepOf(old(files), walk, latest);
        files == s.files && r == (if s.error.Some? then Err(s.error.value) else Ok(s.count))
    {
      var count := 0;
      var i := 0;
      while i < |walk|
        invariant 0 <= i <= |walk|
        invariant SweepOf(old(files), walk[..i], latest) == Sweep(files, count, None)
      {
        assert walk[..i + 1][..i] == walk[..i];
        var p := walk[i];
        var stale := Stale(p, latest);
        if stale.Err? {
          SweepStops(old(files), walk, i + 1, latest);
          return Err(stale.error);
        }
        if stale.value {
          if p !in files {
            SweepStops(old(files), walk, i + 1, latest);
            return Err(FileNotFound(p));
          }
          files := files - {p};
          count := count + 1;
        }
        i := i + 1;
      }
      assert walk[..|walk|] == walk;
      r := Ok(count);
    }
  }
}
