# data-ingestion-auto, modelled in Dafny

data-ingestion-auto keeps a set of gridded weather and climate datasets current in a map server.
Each dataset runs an incremental sync:

1. find the newest remote version (a catalog date, ECMWF's latest run, the next month, the next day);
2. compare it with the marker stored for the dataset in a JSON state file;
3. fetch and convert the data;
4. send one ingest command per layer to a webhook;
5. only then write the new marker.

This project models that core. It covers:

- the state store: `ingest/utils.py`, and `DataIngest` in `ingest/__init__.py`;
- the ECMWF open-data client's bounded search for the latest run, its URL expansion and its index-driven partial fetch;
- the five dataset workflows: dust, ECMWF, CHIRPS, TAMSAT and CAMS;
- the MODIS listing helpers;
- the vector-table helpers in `ingest/raster_vector.py`.

Everything it proves is stated about this model.

How the model is built:

- **File system.** The file system is the class `Utils.Disk`, a map from path to content. `atomic_write`, `read_state`, `update_state`, `write_empty_state` and `delete_past_data_files` are methods on it, each with its whole new state in its contract. A crash or an error before `os.replace` is a parameter.
- **Outside world.** The network, the shell tools and the raster libraries are parameters of each workflow: oracle functions from URL to status, from request to outcome, and so on. A workflow is a method over the disk and these oracles. It returns its outcome and the ordered trace of its external effects: downloads, retrieves and ingest commands. It is proved equal to a `RunPlan` function. The lemmas about idempotence, commit points and skip rules are stated on that function.
- **Dates.** A datetime is a tuple of integers. `fromisoformat`, `isoformat`, `strftime` and `strptime` are written out for the formats the code uses.
- **JSON and dicts.** JSON values are a datatype. A Python dict whose key order matters is a sequence of pairs.

Modules follow the source files:

| module | file | source |
|---|---|---|
| `Utils` | utils.dfy | `ingest/utils.py` |
| `Ingest` | ingest.dfy | `ingest/__init__.py` |
| `DateUtils` | dateutils.dfy | `ingest/dateutils.py`, plus the date formats |
| `Monthly` | monthly.dfy | the next-month and template logic CHIRPS and TAMSAT share |
| `EcmwfRequest` | ecmwf_request.dfy | the dict, product and deduplication helpers of the ECMWF client |
| `EcmwfClient` | ecmwf_client.dfy | `ingest/ecmwf_opendata/client.py` |
| `EcmwfClientLemmas` | ecmwf_client_lemmas.dfy | the client's properties |
| `EcmwfOpenData` | ecmwf_opendata.dfy | `ingest/ecmwf_opendata/__init__.py` |
| `DustForecast` | dustforecast.dfy | the dust workflow |
| `Chirps` | chirps.dfy | the CHIRPS workflow |
| `Tamsat` | tamsat.dfy | the TAMSAT workflow |
| `Cams` | cams.dfy | the CAMS workflow |
| `Modis` | pymodis.dfy | `ingest/modis/pymodis.py` |
| `RasterVector` | raster_vector.dfy | `ingest/raster_vector.py` |

`Wrappers`, `Errors`, `Json`, `Strings` and `Ranges` are small supporting modules. They cover Result and Option, the exception kinds, JSON values with Python truthiness, the string builtins the code calls, and `range`.

Some behaviours of the code are modelled as written, because they are what the code does:

- **CHIRPS and TAMSAT.** `DataIngest.update_state` wraps its argument as `{"last_update": x}`, but these two read `state.get("monthly")`. So the stored month is never read back, and every run starts again at the configured first month (`Chirps.EveryRunRestarts`, `Tamsat.EveryRunRestarts`). For the same reason, CHIRPS never finds its cached normals (`Chirps.NormalCacheNeverHit`).
- **CAMS.** CAMS commits `{"last_update": iso}`, which lands as `{"last_update": {"last_update": iso}}`. From its second run on, it raises TypeError before retrieving (`Cams.SecondRunRaises`).
- **Corrupt state file.** A corrupt state file heals into `{id: {"last_update": ""}}` and drops every other dataset's entry (`Utils.CorruptStateHeals`).
- **`get_tiles` with jpeg.** `get_tiles` with jpeg set compares component 3 first, and then, by the `elif`, still compares component 2. An id can therefore be added for either component (`Modis.TileHitsAreId`).

## Model

| member | source | states |
|---|---|---|
| DateUtils.MakeDate | ingest/dateutils.py:14 | `datetime(y, m, d)` succeeds exactly for a real calendar date in years 1..9999, and gives its midnight |
| DateUtils.FromIsoFormat | ingest/dateutils.py:5 | whatever fromisoformat accepts is a valid datetime |
| DateUtils.IsoRoundTrip | ingest/dateutils.py:5 | fromisoformat gives back every datetime from its isoformat rendering |
| DateUtils.IsoCanonical | ingest/dateutils.py:5 | conversely, a full `YYYY-MM-DDTHH:MM:SS` string that parses is the isoformat rendering of its value |
| DateUtils.NextMonthSpec | ingest/dateutils.py:4-14 | the result is midnight of the first day of the following month (January of the next year after December): it is later than the input and no first-of-month midnight lies between them; it raises only after December 9999 |
| DateUtils.MonthFields | ingest/dustforecast/__init__.py:52 | the alternatives `1[0-2]`, `0[1-9]` and `[1-9]` of strptime's `%m` that match at a position, in the order the regex tries them; each takes one or two characters and reads a month from 1 to 12 |
| DateUtils.DayField | ingest/dustforecast/__init__.py:52 | the first of strptime's `%d` alternatives `3[0-1]`, `[1-2]\d`, `0[1-9]`, `[1-9]` and ` [1-9]` that matches at a position; it takes one or two characters and reads a day from 1 to 31 |
| DateUtils.MatchMonthDay | ingest/dustforecast/__init__.py:52 | the regex's backtracking: the first month alternative after which a day matches, with that day; there is none exactly when no month alternative is followed by a day |
| DateUtils.ParseCompactDate | ingest/dustforecast/__init__.py:52 | strptime with "%Y%m%d" matches four digits, then `%m`, then `%d`, and raises ValueError when nothing matches, when characters remain after the match, or when the date does not exist; a result is a valid midnight whose year is the first four digits, read from a string of six to eight characters |
| DateUtils.CompactEightDigits | ingest/dustforecast/__init__.py:52 | on eight ASCII digits, strptime succeeds exactly when YYYY, MM and DD form a calendar date, and then yields that date at midnight |
| DateUtils.CompactRoundTrip | ingest/dustforecast/__init__.py:52 | the eight digits YYYYMMDD of any date parse back to that date's midnight |
| DateUtils.CompactCanonical | ingest/dustforecast/__init__.py:52 | every string that parses spells the date it yields: four year digits, the month in two digits or (below 10) one, the day in two digits or (below 10) one digit or a space and one digit; a parsed string of eight ASCII digits is exactly the YYYYMMDD rendering. The converse does not hold: "2024111" spells 11 January but parses as 1 November |
| DateUtils.CompactShortForms | ingest/dustforecast/__init__.py:52 | "2024011", "202411" and "202401 1" parse as 1 January 2024, "2024110" as 10 January (the month "11" leaves no day, so the regex backtracks to "1"), and "2024111" as 1 November (the two-digit month is tried first) |
| DateUtils.AddDayIsOneDay | ingest/cams_forecast/__init__.py:56 | adding 24 hours advances the day number by exactly one and keeps the time of day; it overflows only from 9999-12-31 |
| DateUtils.DateRoundTrip | ingest/cams_forecast/__init__.py:68 | fromisoformat of `strftime("%Y-%m-%d")` gives back the midnight of the same day |
| Utils.Disk.constructor | ingest/utils.py:19-21 | the disk starts with the given state-file path (DATASET_STATE_FILE) and the given files |
| Utils.FreshName | ingest/utils.py:47-49 | the temporary name NamedTemporaryFile picks is not a file that already exists |
| Utils.Disk.AtomicWrite | ingest/utils.py:38-65 | the new file system is the one AfterAtomicWrite describes for a fresh temporary name that is neither the target nor an existing file; the call passes exactly when no failure point is hit |
| Utils.AtomicWriteReplaces | ingest/utils.py:47-63 | a completed atomic write leaves exactly the new contents at the target, no temporary file, and every other file unchanged |
| Utils.FailedWriteKeepsTarget | ingest/utils.py:50-65 | a write stopped before os.replace leaves the target as it was (present or absent); an exception inside the try, followed by the unlink in finally, leaves the whole file system as it was |
| Utils.Disk.WriteEmptyState | ingest/utils.py:81-91 | writes `{id: {"last_update": ""}}` (`{}` for an empty id) through atomic_write, and returns the dataset's entry (or the whole document) exactly when the write completes |
| Utils.Disk.ReadState | ingest/utils.py:94-109 | when no write fails (or no healing is needed) the result and the new file system are ReadStateValue and ReadStateFiles; a failing heal raises and leaves the interrupted atomic write's file system |
| Utils.ReadStateFindsEntry | ingest/utils.py:94-109 | on a missing or parsable file: a missing file is created as `{}`, and the result is the dataset's entry when it is truthy, otherwise None |
| Utils.CorruptStateHeals | ingest/utils.py:99-107 | an unparsable state file reads as None for every id and is rewritten to hold only the requesting dataset's empty entry, so every other dataset's entry is dropped |
| Utils.Disk.UpdateState | ingest/utils.py:112-118 | a missing or unparsable file raises and changes nothing; otherwise the whole map is written back with `map[id] := s` by an atomic write, which passes exactly when no failure point is hit |
| Utils.UpdateThenRead | ingest/utils.py:112-118 | after update_state(id, s) the entry of id is s, every other entry is unchanged, a read of id returns s when truthy (else None) and a read of any other id returns what it did before |
| Utils.InterruptedCommitKeepsState | ingest/utils.py:112-118 | a crash or an exception inside update_state's atomic write leaves every read_state result as it was |
| Utils.FindStamp | ingest/utils.py:131-139 | re.search finds the leftmost position at which the `YYYY-MM-DDTHH:MM:SS.mmmZ` pattern matches, and no position before it matches |
| Utils.Disk.DeletePastDataFiles | ingest/utils.py:129-152 | walks the files in order, removes each whose first stamp is strictly earlier than the latest date, and returns the count; a stamp that does not parse raises and leaves the deletions made so far |
| Utils.SweepDeletesExactlyStale | ingest/utils.py:135-150 | over distinct existing files whose stamps parse, the sweep deletes exactly the stale files, keeps every other file, and counts the deletions |
| Utils.SweepStops | ingest/utils.py:145 | once parsing a stamp has raised, the files later in the walk change nothing |
| Utils.ConvertData | ingest/utils.py:155-165 | "multiply", "divide", "subtract" and "add" give, element by element, the input multiplied by, divided by, minus or plus the constant; any other operation name raises UnknownDataConvertOperation("Unknown operation: ...") |
| Utils.ConvertInverse | ingest/utils.py:155-163 | subtracting undoes adding, and dividing undoes multiplying by a non-zero constant |
| Ingest.NewDataIngest | ingest/__init__.py:20-28 | construction succeeds exactly when both the dataset id and the output dir are non-empty; otherwise ParameterMissing, with the dataset id checked first |
| Ingest.InitWithKeywords | ingest/__init__.py:19-25 | calling `DataIngest.__init__` with keyword arguments: when every keyword is `dataset_id` or `output_dir` it behaves as the constructor; any other keyword raises TypeError before the ParameterMissing checks |
| Ingest.CleanupKeywordRaises | ingest/chirps_rainfall/__init__.py:33-34 | the `super().__init__(..., cleanup_old_data=...)` call of the CHIRPS, TAMSAT and CAMS constructors raises TypeError even for a dataset id and output dir the base constructor accepts |
| Ingest.Marker | ingest/__init__.py:38-41 | what update_state stores is a truthy object whose only key is "last_update" |
| Ingest.GetState | ingest/__init__.py:34-36 | get_state returns read_state of the instance's dataset id and leaves the file system as read_state does; when the healing write of an unparsable file stops before its rename, it raises and the file system is that interrupted write's |
| Ingest.UpdateState | ingest/__init__.py:38-41 | update_state stores `{"last_update": x}` under the dataset id; when the state file is missing or unparsable it raises and nothing changes; when the atomic write stops before its rename it raises and the file system is that interrupted write's |
| Ingest.CommitThenGet | ingest/__init__.py:34-41 | after update_state(x) the next get_state returns exactly `{"last_update": x}`: x is under "last_update" and no other key has a value |
| Ingest.ReadThenCommit | ingest/__init__.py:34-41 | after get_state the commit cannot raise FileNotFound or JSONDecodeError (only its write can fail), the next read changes no file, and the next get_state returns the marker |
| Ingest.ReadHeals | ingest/utils.py:94-107 | read_state leaves the state file present and parsable, and reading such a file changes nothing |
| Ingest.CommitHealed | ingest/utils.py:112-118 | on a present, parsable state file a commit whose write completes succeeds (it cannot raise FileNotFound or JSONDecodeError), keeps the file parsable, and reads back as the marker |
| Ingest.CommitTwice | ingest/utils.py:112-118 | committing the same value a second time leaves the file as the first commit did |
| Ingest.SendIngestCommand | ingest/__init__.py:73-89 | posts exactly when both the webhook URL and the secret are set, one POST of the payload to the URL, and the result says whether it posted |
| Ingest.PostsPerIngest | ingest/__init__.py:73-89 | with the webhook configured, every ingest command of a run is posted once; without it, none is |
| Ingest.CdoCommandWords | ingest/__init__.py:65-69 | for paths without spaces the shell splits the command into exactly `cdo -f nc copy <input> <output>` |
| Ingest.CdoJoin | ingest/__init__.py:66 | the command is the six words joined by single spaces |
| Ingest.GribToNetcdf | ingest/__init__.py:53-71 | returns the output path exactly when the command exits with 0, and raises CalledProcessError naming the command otherwise (check=True) |
| Ingest.DownloadFileTemp | ingest/utils.py:121-126 | the download raises HTTPError exactly when raise_for_status raises for the response status |
| Ingest.UpToDate | ingest/dustforecast/__init__.py:56-57 | the skip test holds exactly when the state is an object whose "last_update" equals the non-empty version; a falsy state skips nothing; a truthy state that is not an object raises AttributeError (the same test is at ingest/ecmwf_opendata/__init__.py:53) |
| Monthly.NextDate | ingest/chirps_rainfall/__init__.py:52-60 | the month a run works on is always a valid first-of-month at midnight, or an error |
| Monthly.NextDateFresh | ingest/chirps_rainfall/__init__.py:55-60 | with no stored "monthly" date the run starts at the configured start year and month (ingest/tamsat_rainfall/__init__.py:101-106 is the same) |
| Monthly.NextDateNotDict | ingest/chirps_rainfall/__init__.py:52-53 | a truthy state that is not a dict raises AttributeError at `.get` |
| Monthly.NextDateAdvances | ingest/chirps_rainfall/__init__.py:55-56 | with a stored date the run moves strictly forward to the first of the following month, wrapping December into January of the next year, and fails only after December 9999 |
| Monthly.MonthlyNeverReadBack | ingest/chirps_rainfall/__init__.py:125 | the state written after a month, `{"last_update": {"monthly": …}}`, has no top-level "monthly", so the next run starts again at the configured first month |
| Monthly.SubstituteTemplate | ingest/chirps_rainfall/__init__.py:66-68 | the two chained replaces put the year in place of every `{YYYY}` and the month in place of every `{MM}`, and leave the rest of the template unchanged (also ingest/tamsat_rainfall/__init__.py:113-115) |
| Monthly.FillTemplate | ingest/chirps_rainfall/__init__.py:64-68 | for a date, the year goes in as its decimal string and the month as two digits |
| Monthly.Skip404 | ingest/chirps_rainfall/__init__.py:116-123 | an HTTP error is swallowed exactly when its status is 404; any other error is raised unchanged (also ingest/tamsat_rainfall/__init__.py:128-135) |
| Json.GetOr | ingest/chirps_rainfall/__init__.py:130 | `d.get(k, default)` yields the stored value or the default, and raises AttributeError exactly when `d` is not a dict |
| Json.At | ingest/raster_vector.py:122 | `d[k]` succeeds exactly when `d` is a dict holding `k` and then yields its value; otherwise KeyError for a dict, TypeError for anything else |
| Json.OrEmpty | ingest/chirps_rainfall/__init__.py:52 | `state or {}` keeps a truthy state and turns a missing one into the empty dict |
| Ranges.RangeLength | ingest/cams_forecast/__init__.py:21 | `range(start, stop, step)` has as many values as steps from `start` that stay below `stop` |
| Ranges.RangeAt | ingest/ecmwf_opendata/__init__.py:29 | the i-th value of a range is `start + step * i` and lies in `[start, stop)` |
| Strings.ZeroPadRoundTrip | ingest/chirps_rainfall/__init__.py:64 | `f"{n:02d}"` for a number below 100 is exactly two characters and reads back as the number |
| Strings.JoinSplit | ingest/modis/pymodis.py:80 | joining the fields of `s.split(c)` with `c` gives back `s` |
| Strings.SplitJoin | ingest/modis/pymodis.py:80 | splitting a `c`-join of fields that contain no `c` gives back the fields |
| Strings.RFind | ingest/ecmwf_opendata/client.py:120 | the position found holds the character and no later position does; -1 means it does not occur |
| Strings.BasenameOf | ingest/chirps_rainfall/__init__.py:146 | the basename of `dir + "/" + name` is `name` when `name` has no "/" |
| Strings.RStrip | ingest/modis/pymodis.py:112 | `rstrip(c)` removes exactly the trailing run of `c`: the result is a prefix, does not end in `c`, and everything cut off was `c` |
| Strings.RemoveChar | ingest/modis/pymodis.py:57 | `replace("/", "")` leaves no "/" and adds no character |
| Strings.RemoveCharOne | ingest/modis/pymodis.py:57 | a one-character string disappears exactly when it is the removed character, and is kept otherwise |
| Strings.RemoveCharConcat | ingest/modis/pymodis.py:57 | removing from a concatenation concatenates the removals, so with RemoveCharOne every other character is kept, in order |
| Strings.RemoveCharAbsent | ingest/modis/pymodis.py:57 | a string without the character is returned unchanged |
| Strings.ReplaceAbsent | ingest/chirps_rainfall/__init__.py:66-68 | `replace` leaves a string in which the pattern does not occur unchanged |
| Strings.SortedStrings | ingest/modis/pymodis.py:66-67 | `sorted(set(xs))` is strictly increasing under Python's string order and holds exactly the members of the set |
| Strings.StrLessTransitive | ingest/modis/pymodis.py:67 | Python's string order is transitive |
| Strings.StrLessTotal | ingest/modis/pymodis.py:67 | any two different strings are ordered one way or the other |
| EcmwfRequest.LookupOrFound | ingest/ecmwf_opendata/client.py:36 | `params.get(k, default)` yields the default exactly when the key is absent, and otherwise a value stored under the key |
| EcmwfRequest.PutNames | ingest/ecmwf_opendata/client.py:88-92 | `args[k] = v` keeps the key order, appending `k` only when it is new, and afterwards `k` maps to `v` |
| EcmwfRequest.PutOther | ingest/ecmwf_opendata/client.py:88-92 | `args[k] = v` leaves every other key's value as it was |
| EcmwfRequest.RemoveNames | ingest/ecmwf_opendata/client.py:86 | after `args.pop(k, None)` exactly the other keys remain and the dict does not grow |
| EcmwfRequest.ZipNames | ingest/ecmwf_opendata/client.py:83 | `dict(zip(keys, x))` over lists of equal length has exactly those keys, in order, with the values of `x` |
| EcmwfRequest.ProductMembers | ingest/ecmwf_opendata/client.py:83 | `itertools.product(*values)` holds exactly the tuples that pick one value from each list, and has the product of the list sizes as its length |
| EcmwfRequest.ProductOrder | ingest/ecmwf_opendata/client.py:83 | `itertools.product` order: the tuple at position `i * n + k` (n the size of the product of the later lists) is the i-th value of the first list followed by the k-th later tuple, so the last list varies fastest |
| EcmwfRequest.Dedup | ingest/ecmwf_opendata/client.py:95-97 | the `seen` loop keeps every URL it meets and no other, and no URL twice |
| EcmwfRequest.DedupFirstOccurrenceOrder | ingest/ecmwf_opendata/client.py:95-97 | the kept URLs appear in the order of their first occurrence |
| EcmwfRequest.InsertSorted | ingest/ecmwf_opendata/client.py:87 | the set of dates, kept as its ascending listing (`sorted(dates)` at line 106), stays strictly increasing and gains exactly the new date |
| EcmwfRequest.Splitext | ingest/ecmwf_opendata/client.py:120 | `os.path.splitext` splits the URL into a base and an extension that concatenate back to it; the extension is empty or one "." followed by no "." or "/" |
| EcmwfRequest.SplitextOf | ingest/ecmwf_opendata/client.py:120-121 | for `base + "." + ext` with a plain extension the base comes back, so the index URL is `base + ".index"` |
| EcmwfClient.InsertPart | ingest/ecmwf_opendata/client.py:145 | inserting a part into a sorted list keeps it sorted and adds exactly that part |
| EcmwfClient.SortParts | ingest/ecmwf_opendata/client.py:145 | `sorted(parts)` orders the parts by their match key and then by their byte range, and is a permutation of them |
| EcmwfClient.KeyLessTotal | ingest/ecmwf_opendata/client.py:145 | two different match keys are always ordered one way or the other, so the sort is well defined |
| EcmwfClient.Ranges | ingest/ecmwf_opendata/client.py:145 | `tuple(p[1] for p in parts)` keeps exactly the byte ranges of the parts, in order |
| EcmwfClient.Collect | ingest/ecmwf_opendata/client.py:82-94 | the product loop succeeds exactly when every combination formats, and then yields one URL per combination, in order, and the ascending listing of exactly the combinations' dates |
| EcmwfClient.Expand | ingest/ecmwf_opendata/client.py:70-97 | once the request has a date, the expansion yields plain (unindexed) URLs |
| EcmwfClient.UrlsFor | ingest/ecmwf_opendata/client.py:99-101 | the URLs are narrowed to index byte ranges exactly when an index is asked for and for_index is non-empty |
| EcmwfClient.GetUrlsSpec | ingest/ecmwf_opendata/client.py:59-109 | the same holds for the whole of `_get_urls`, including when the date is first filled in by latest (line 67-68) |
| EcmwfClient.RepeatsKeyword | ingest/ecmwf_opendata/client.py:41-49 | `**params` clashes exactly when the request holds one of the keywords latest passes explicitly |
| EcmwfClient.ProbeCall | ingest/ecmwf_opendata/client.py:41-49 | when the call binds, the kwargs carry the candidate date |
| EcmwfClient.MatchLine | ingest/ecmwf_opendata/client.py:128-139 | the loop over for_index yields exactly the matches of LineMatches for the whole of for_index, or its KeyError, and records every value seen per dimension |
| EcmwfClient.ScanLine | ingest/ecmwf_opendata/client.py:126-142 | one index line is decoded, matched and its part kept exactly as LinePart says |
| EcmwfClient.ScanIndex | ingest/ecmwf_opendata/client.py:126-142 | the loop over an index's lines yields exactly LinesParts, and on success the values seen are those ObserveLines records |
| EcmwfClient.GetParts | ingest/ecmwf_opendata/client.py:111-160 | get_parts returns exactly the result and the warnings of GetPartsSpec: the sorted ranges of each URL that kept a part, the first error raised, or ValueError when no URL kept any |
| EcmwfClient.HeadAll | ingest/ecmwf_opendata/client.py:50-53 | the HEAD check is true exactly when there is at least one URL and every one answers 200 |
| EcmwfClient.ProbeDate | ingest/ecmwf_opendata/client.py:41-53 | one iteration of latest computes exactly Probe for its date |
| EcmwfClient.ProbeCandidate | ingest/ecmwf_opendata/client.py:40-55 | probing the candidate `back` hours before the start either ends latest (its error, or the date when all is there) or moves on `Step` hours further back |
| EcmwfClient.LatestFromStep | ingest/ecmwf_opendata/client.py:40-55 | one unfolding of latest's loop: an error ends it, a complete run is returned, an incomplete one moves back by the step |
| EcmwfClient.SearchStep | ingest/ecmwf_opendata/client.py:40-55 | the same unfolding for the reference search over given probe outcomes |
| EcmwfClient.Latest | ingest/ecmwf_opendata/client.py:25-57 | latest computes exactly LatestSpec |
| EcmwfClient.LatestLoop | ingest/ecmwf_opendata/client.py:38-57 | the while loop computes exactly LatestFrom from the start date |
| EcmwfClient.LatestSpecStart | ingest/ecmwf_opendata/client.py:36 | latest first fetches the newest run's start for `params.get("time", 18)`; its error is raised, otherwise the loop runs from it |
| EcmwfClient.LatestFromDone | ingest/ecmwf_opendata/client.py:40-57 | once the candidate reaches start - 30h the loop stops with "Cannot etablish latest date" |
| EcmwfClient.CollectUrls | ingest/ecmwf_opendata/client.py:77-97 | the product loop with `seen` yields exactly the deduplicated URLs of Collect and its sorted dates, or its error |
| EcmwfClient.GetUrls | ingest/ecmwf_opendata/client.py:59-109 | `_get_urls` computes exactly GetUrlsSpec |
| EcmwfClient.GetDatedUrls | ingest/ecmwf_opendata/client.py:70-109 | the rest of `_get_urls` once the date is known computes exactly UrlsFor |
| EcmwfClient.CandidatesShape | ingest/ecmwf_opendata/client.py:32-55 | the candidates are newest first, start at the start date, are `step` hours apart and all lie strictly after start - 30h and at or before the start |
| EcmwfClient.CandidateCount | ingest/ecmwf_opendata/client.py:31-38 | at the 6-hour step latest tries five runs, at the daily step two |
| EcmwfClient.SearchReturnsNewestAvailable | ingest/ecmwf_opendata/client.py:40-55 | the date latest returns is a candidate whose probe is true, and every newer candidate was probed and found incomplete |
| EcmwfClient.SearchRaisesIff | ingest/ecmwf_opendata/client.py:53-57 | when every probe completes, latest raises exactly when no candidate is complete |
| EcmwfClient.LatestFromIsSearch | ingest/ecmwf_opendata/client.py:38-55 | latest's loop is the reference search over the probes at the request's step |
| EcmwfClient.LatestIsSearch | ingest/ecmwf_opendata/client.py:25-57 | latest steps 6 hours without a "time" in the request and a day with one, and is the reference search from the newest start, or the start's error |
| EcmwfClient.ProbeTrueIff | ingest/ecmwf_opendata/client.py:41-54 | a probe is true exactly when the date's URL list is non-empty and every HEAD answers 200 |
| EcmwfClient.Download | ingest/ecmwf_opendata/client.py:15-18 | download expands the request without the index and hands the plain URLs to the transport; its error, or the size written |
| EcmwfClient.Retrieve | ingest/ecmwf_opendata/client.py:20-23 | retrieve does the same with the index, and the URLs are narrowed exactly when for_index is non-empty |
| EcmwfClientLemmas.CollectListing | ingest/ecmwf_opendata/client.py:82-94 | the product loop succeeds exactly when every entry formats, and then lists the entries' URLs in product order and exactly their dates as an ascending set |
| EcmwfClientLemmas.ExpandListing | ingest/ecmwf_opendata/client.py:73-97 | the URLs are those of the product entries of for_urls, each exactly once, in the order of first occurrence; the dates are exactly the entries' dates, ascending; for_urls carries `_url` as the client's URL |
| EcmwfClientLemmas.DateFilled | ingest/ecmwf_opendata/client.py:67-68 | a request with a date is expanded as it is; one without has latest's answer appended under "date", and latest's error becomes `_get_urls`' error |
| EcmwfClientLemmas.IndexUrlOf | ingest/ecmwf_opendata/client.py:120-121 | the index of `base.ext` is `base.index` |
| EcmwfClientLemmas.PositionsCount | ingest/ecmwf_opendata/client.py:135-137 | the preserve-order loop adds one match per occurrence of the value in the requested list |
| EcmwfClientLemmas.LineMatchesCount | ingest/ecmwf_opendata/client.py:128-139 | a record collects at most one match per dimension (with duplicate-free value lists), and a match for every dimension exactly when each of its values is requested |
| EcmwfClientLemmas.LineKeptIff | ingest/ecmwf_opendata/client.py:141-142 | a well-formed index record is kept exactly when its value for each index dimension is one of the requested values |
| EcmwfClientLemmas.DuplicateValueDropsRecord | ingest/ecmwf_opendata/client.py:135-141 | a value requested twice makes a matching record collect two matches, so with preserve_request_order the record is dropped, while the offset mode keeps it |
| EcmwfClientLemmas.UrlsPartsLast | ingest/ecmwf_opendata/client.py:119-145 | each URL adds its sorted ranges to the result when its index kept something, and nothing otherwise |
| EcmwfClientLemmas.UrlsPartsRead | ingest/ecmwf_opendata/client.py:122-123 | a result is built only when every index was read without an error |
| EcmwfClientLemmas.UrlsPartsKept | ingest/ecmwf_opendata/client.py:144-145 | get_parts keeps exactly the URLs whose index keeps a record, in order |
| EcmwfClientLemmas.UrlsPartsRanges | ingest/ecmwf_opendata/client.py:145 | each kept URL carries the byte ranges of its kept records, sorted by match key |
| EcmwfClientLemmas.KeptUrlsEmpty | ingest/ecmwf_opendata/client.py:144-145 | no URL is kept exactly when every index keeps nothing |
| EcmwfClientLemmas.GetPartsRaisesIff | ingest/ecmwf_opendata/client.py:157-158 | get_parts raises "Cannot find index entries matching" exactly when no URL's index kept a record |
| EcmwfClientLemmas.ObserveUrlsSeen | ingest/ecmwf_opendata/client.py:130-132 | possible_values of an index dimension is exactly the set of non-None values the indexes carry under that name |
| EcmwfClientLemmas.WarningsIffUnseen | ingest/ecmwf_opendata/client.py:147-155 | "No index entries for name=d" is warned exactly for the requested values of a dimension that no index carries |
| EcmwfOpenData.Process | ingest/ecmwf_opendata/__init__.py:84-128 | process never returns False: it returns True exactly when the GRIB conversion exits with 0 and every raster is written, and raises otherwise |
| EcmwfOpenData.ECMWFOpenData.constructor | ingest/ecmwf_opendata/__init__.py:15-37 | the parameters, the steps and the request are as __init__ builds them, and the request names its stream and type |
| EcmwfOpenData.ECMWFOpenData.Run | ingest/ecmwf_opendata/__init__.py:41-82 | run reads the state, then its outcome, its ingest commands, the request it leaves and the state file are exactly those of RunPlan |
| EcmwfOpenData.ECMWFOpenData.Fetch | ingest/ecmwf_opendata/__init__.py:57-82 | after the skip test: the target is stored, the forecast retrieved and processed, and the ingest commands and the commit are exactly those of Fetched |
| EcmwfOpenData.SendIngestCommands | ingest/ecmwf_opendata/__init__.py:68-80 | the loop sends exactly one ingest command per parameter, in order, under `{stream}_{type}_{layer}` with path `{output_dir}/{layer}` |
| EcmwfOpenData.TargetKeepsNames | ingest/ecmwf_opendata/__init__.py:59 | `request.update({"target": …})` leaves the stream and type the namespace is built from as they were |
| EcmwfOpenData.StepsAre | ingest/ecmwf_opendata/__init__.py:29 | the steps are 0, 3, …, 144: 49 of them |
| EcmwfOpenData.RequestAsksForParams | ingest/ecmwf_opendata/__init__.py:31-37 | the request asks for 2t, tp, msl, 10u and 10v in that order, at time 0, for every step, and has exactly the keys stream, type, param, time and step |
| EcmwfOpenData.LayerNames | ingest/ecmwf_opendata/__init__.py:18-24 | the layers are t2m for 2t and the variable itself for the others (also line 69) |
| EcmwfOpenData.SkipWhenCurrent | ingest/ecmwf_opendata/__init__.py:49-55 | a falsy latest(), or a stored last_update equal to latest's isoformat, does nothing and leaves the request as it was |
| EcmwfOpenData.FetchedCommitIff | ingest/ecmwf_opendata/__init__.py:57-82 | a fetching run always retrieves first; it commits exactly when the retrieve, the conversion and the rasters all succeed, and then commits latest's string, passes and sends one ingest command per parameter |
| EcmwfOpenData.FetchedIngests | ingest/ecmwf_opendata/__init__.py:68-80 | the i-th ingest command of a committing run is for `oper_fc_{layer}` of the i-th parameter, with path `{output_dir}/{layer}` |
| EcmwfOpenData.CommitIff | ingest/ecmwf_opendata/__init__.py:47-82 | a run gets past the skip test exactly when latest() names a run other than the stored one; otherwise it sends and commits nothing and leaves the request unchanged |
| EcmwfOpenData.SecondRunDoesNothing | ingest/ecmwf_opendata/__init__.py:53-82 | after a run that committed, a second run that sees the same latest() does nothing |
| DustForecast.NewDustForecastIngest | ingest/dustforecast/__init__.py:17-35 | construction succeeds exactly when the dataset id, the output dir, the username and the password are all non-empty; the base's checks come first, then "username required", then "password required"; the two dust variables are set |
| DustForecast.Run | ingest/dustforecast/__init__.py:37-84 | run reads the state, then its outcome, its downloads and ingest commands and the state file are exactly those of RunPlan |
| DustForecast.SendLayers | ingest/dustforecast/__init__.py:70-82 | the loop sends one ingest command per variable, in order, after what was sent before |
| DustForecast.CatalogVersionOf | ingest/dustforecast/__init__.py:48-52 | a catalog name whose first "_"-field strptime accepts with "%Y%m%d" (eight digits or one of the shorter spellings) has that day's midnight, in ISO form, as its version |
| DustForecast.SkipWhenCurrent | ingest/dustforecast/__init__.py:56-59 | when the stored last_update is the catalog's version a run downloads, sends and commits nothing |
| DustForecast.CommitIff | ingest/dustforecast/__init__.py:56-84 | a run commits exactly when the catalog was fetched and parsed, its version is not the stored one, the download succeeded and processing returned true |
| DustForecast.CommittedRun | ingest/dustforecast/__init__.py:61-84 | a committing run downloads the catalog's file from the file server first, then sends one ingest command per variable in order under the variable's name with path `{output_dir}/{name}`, and commits the version |
| DustForecast.IngestsAfter | ingest/dustforecast/__init__.py:70-82 | after the single download the i-th variable's ingest command is at position i + 1 |
| DustForecast.SecondRunDoesNothing | ingest/dustforecast/__init__.py:56-84 | after a run that committed, a second run against the same catalog does nothing and leaves the file system as the first left it |
| Chirps.NewChirpsRainfall | ingest/chirps_rainfall/__init__.py:33-37 | the instance keeps the validated base, the monthly configuration and the CHIRPS base URL |
| Chirps.YearUrls | ingest/chirps_rainfall/__init__.py:140-144 | one URL per year, in order, each the template filled for that year and month |
| Chirps.FetchNormals | ingest/chirps_rainfall/__init__.py:139-149 | the climatology loop downloads exactly as FetchYears over the climatology URLs says, and ends as it does |
| Chirps.FetchEach | ingest/chirps_rainfall/__init__.py:140-149 | `for year in years` downloads each year's file in turn, stopping at the first download that raises |
| Chirps.GetMonthNormal | ingest/chirps_rainfall/__init__.py:128-175 | get_month_normal reads the state, then its result, its downloads and the state file are exactly those of MonthNormal |
| Chirps.NormalFrom | ingest/chirps_rainfall/__init__.py:130-175 | once the state is read, the cached normal or the download, the mean and the commit are exactly those of MonthNormal |
| Chirps.DownloadNormals | ingest/chirps_rainfall/__init__.py:136-175 | the downloads, the mean written to the normals directory and the commit are exactly those of DownloadNormal |
| Chirps.RunMonthly | ingest/chirps_rainfall/__init__.py:45-125 | run_monthly's outcome, downloads, ingest commands and file system are exactly those of MonthlyRun |
| Chirps.FinishMonth | ingest/chirps_rainfall/__init__.py:78-125 | after the estimate: the normal, the anomaly and the month's commit, exactly as AfterEstimate says |
| Chirps.CommitMonth | ingest/chirps_rainfall/__init__.py:125 | the commit stores `{"monthly": isoformat}` through the wrapper |
| Chirps.Run | ingest/chirps_rainfall/__init__.py:39-43 | run does nothing when the monthly period is disabled, and otherwise is run_monthly |
| Chirps.MonthlyChunksPlain | ingest/chirps_rainfall/__init__.py:26 | the configured template's literal pieces hold no "{", so only the placeholders get replaced |
| Chirps.MonthUrlOf | ingest/chirps_rainfall/__init__.py:62-70 | the month's URL is the base URL followed by `/africa_monthly/tifs/chirps-v2.0.{year}.{MM}.tif.gz` with the year in decimal and the month in two digits |
| Chirps.YearUrlOf | ingest/chirps_rainfall/__init__.py:141-144 | a climatology year's URL is the same template filled with that year and the month |
| Chirps.FirstRunFetchesJanuary1981 | ingest/chirps_rainfall/__init__.py:21-60 | without a stored "monthly" date the run fetches January 1981 |
| Chirps.HttpErrorSkips | ingest/chirps_rainfall/__init__.py:116-123 | an HTTP error fetching the month ends the run after that one download with no commit: quietly for 404, raised otherwise |
| Chirps.CommitIff | ingest/chirps_rainfall/__init__.py:74-125 | the month is committed exactly when the estimate was fetched and written and, with anomalies enabled, the normal was obtained and the anomaly written; what is committed is the month's isoformat under "monthly" |
| Chirps.CommitEvents | ingest/chirps_rainfall/__init__.py:76-115 | in a committing run the estimate's ingest command comes right after its download, and with anomalies enabled the anomaly's is the last command (also lines 207-216) |
| Chirps.EveryRunRestarts | ingest/chirps_rainfall/__init__.py:53-60 | after any committed run the next run fetches the configured first month again, because the wrapper nests "monthly" under "last_update" (also line 125) |
| Chirps.PathExists | ingest/chirps_rainfall/__init__.py:133 | `os.path.exists` of a recorded normal: a string is a path that exists or not; an integer, or a bool as 0 or 1, is a file descriptor that exists when open; OverflowError for an integer outside C's `int`, TypeError for None, a list or a dict |
| Chirps.RecordedNormalChecked | ingest/chirps_rainfall/__init__.py:129-134 | a truthy recorded list or dict raises TypeError and a huge integer OverflowError, with no download; a recorded value that exists is returned as it is, and one that does not starts the download |
| Chirps.CachedNormalIsReused | ingest/chirps_rainfall/__init__.py:129-134 | a recorded normal whose file exists is returned with no download and no commit |
| Chirps.NormalCacheNeverHit | ingest/chirps_rainfall/__init__.py:130 | after the normals commit the cache is not found again, so every later call downloads the climatology once more (also line 173) |
| Chirps.FetchYearsEventAt | ingest/chirps_rainfall/__init__.py:140-149 | the k-th download is of the k-th URL, into its file in the temporary directory |
| Chirps.FetchYearsContinue | ingest/chirps_rainfall/__init__.py:140-149 | every download but the last one made succeeded |
| Chirps.FetchYearsOutcome | ingest/chirps_rainfall/__init__.py:140-149 | the loop ends without error exactly when no download raises, after downloading every URL; otherwise it raises the HTTP error of the last URL it tried |
| Chirps.NormalDownloadCount | ingest/chirps_rainfall/__init__.py:140 | the climatology loop downloads at most one file per year from the first to the last inclusive, and all of them when none raises |
| Chirps.ClimatologyUrlAt | ingest/chirps_rainfall/__init__.py:140-144 | the k-th climatology URL is that of the k-th year from the first |
| Chirps.YearFileName | ingest/chirps_rainfall/__init__.py:146-147 | each climatology file is the URL's basename without ".gz", in the temporary directory |
| Chirps.YearFileOf | ingest/chirps_rainfall/__init__.py:146 | `basename(url)[:-3]` of `dir/name` is `name` without its last three characters |
| Tamsat.NewTamsatRainfall | ingest/tamsat_rainfall/__init__.py:81-86 | the instance keeps the validated base, the parameters, the monthly period and the TAMSAT base URL |
| Tamsat.Kept | ingest/tamsat_rainfall/__init__.py:149-152 | the variables saved are exactly those listed that the dataset holds |
| Tamsat.IngestsFor | ingest/tamsat_rainfall/__init__.py:149-173 | one ingest command per saved variable |
| Tamsat.DownloadAndSaveFile | ingest/tamsat_rainfall/__init__.py:137-173 | download_and_save_file's outcome and events are exactly those of SaveFile: the download, opening the dataset, then the variables; None as the variables raises TypeError once the file is open |
| Tamsat.SaveEach | ingest/tamsat_rainfall/__init__.py:149-173 | the loop over the variables writes and ingests each one the dataset holds, stopping at a raster that cannot be written |
| Tamsat.RunMonthly | ingest/tamsat_rainfall/__init__.py:94-135 | run_monthly's outcome, events and file system are exactly those of MonthlyRun |
| Tamsat.TryParams | ingest/tamsat_rainfall/__init__.py:108-135 | the loop over the templates saves each parameter in turn and records the month after each; a 404 returns, another error is raised |
| Tamsat.ParamsRunStep | ingest/tamsat_rainfall/__init__.py:121-135 | one pass: a failed save ends the loop with Skip404 of its error and the commits so far; a saved one records the month and goes on |
| Tamsat.TryParam | ingest/tamsat_rainfall/__init__.py:121-126 | the loop body saves the parameter's file and, only when that succeeds, records the month |
| Tamsat.CommitMonth | ingest/tamsat_rainfall/__init__.py:124-125 | the commit stores `{"monthly": isoformat}` through the wrapper, whether or not an earlier parameter already did |
| Tamsat.Run | ingest/tamsat_rainfall/__init__.py:88-92 | of the configured periods only the monthly one runs, and only when enabled |
| Tamsat.FirstRunStartsIn1983 | ingest/tamsat_rainfall/__init__.py:56-57 | without a stored "monthly" date the run starts at January 1983 (also lines 104-106) |
| Tamsat.ExpandChunks | ingest/tamsat_rainfall/__init__.py:59-60 | the templates, with both occurrences of `{YYYY}` and of `{MM}` filled in |
| Tamsat.TemplateUrl | ingest/tamsat_rainfall/__init__.py:113-117 | a template's URL is the base URL followed by the template with every `{YYYY}` replaced by the year and every `{MM}` by the two-digit month |
| Tamsat.ConfiguredUrls | ingest/tamsat_rainfall/__init__.py:58-61 | the estimate is tried before the anomaly, each from its own directory with its own suffix (also lines 108-117) |
| Tamsat.ParamsRunShape | ingest/tamsat_rainfall/__init__.py:108-135 | the loop records a prefix of the parameters, each saved successfully; it passes when all were saved, otherwise it ends with Skip404 of the first failure; the month is committed exactly when at least one parameter was saved |
| Tamsat.TriedFirst | ingest/tamsat_rainfall/__init__.py:108-123 | the events of the first parameters are those of the first followed by those of the next |
| Tamsat.ParamsRunTries | ingest/tamsat_rainfall/__init__.py:128-135 | the parameters after the one that ends the loop are never tried: the events are those of the saved parameters and of the one that failed |
| Tamsat.TriedAfterSaved | ingest/tamsat_rainfall/__init__.py:121-127 | a saved first parameter contributes its events and the loop goes on with the rest |
| Tamsat.SaveVariablesIngests | ingest/tamsat_rainfall/__init__.py:149-173 | download_and_save_file sends one ingest command per variable the dataset holds, in order, under `{period}_{param}_{var}` |
| Tamsat.EstimateNamespaces | ingest/tamsat_rainfall/__init__.py:17 | the estimate's variables are ingested as monthly_rainfall_estimate_rfe and monthly_rainfall_estimate_rfe_filled (also line 150) |
| Tamsat.EarlierCommitsStay | ingest/tamsat_rainfall/__init__.py:124-135 | when a later parameter ends the run the month already recorded stays; when none was recorded the state file is as get_state left it |
| Tamsat.EveryRunRestarts | ingest/tamsat_rainfall/__init__.py:98-125 | after any run that recorded a month the next run starts again at the configured first month |
| Cams.NewCamsForecast | ingest/cams_forecast/__init__.py:26-31 | the instance keeps the validated base, the parameters, the lead times and the CAMS URL |
| Cams.BaseOptions | ingest/cams_forecast/__init__.py:41-50 | the request lists the variable of every parameter, in order |
| Cams.NextDate | ingest/cams_forecast/__init__.py:52-61 | the forecast date is always a valid date, or the error raised computing it |
| Cams.Run | ingest/cams_forecast/__init__.py:39-120 | run reads the state, then its outcome, its retrieve and ingest commands and the state file are exactly those of RunPlan |
| Cams.SendEach | ingest/cams_forecast/__init__.py:80-114 | the loop over the parameters writes the rasters of each parameter the dataset holds, then sends its ingest command, stopping at a raster that cannot be written |
| Cams.LeadTimesAreHours | ingest/cams_forecast/__init__.py:21 | the lead times are the hours 0 to 120, both included |
| Cams.FirstRunFetchesToday | ingest/cams_forecast/__init__.py:57-61 | without a stored last_update the forecast fetched is today's, from midnight |
| Cams.NextDateIsOneDayLater | ingest/cams_forecast/__init__.py:55-56 | with a stored last_update the forecast fetched starts exactly one day later at the same time of day, and fails only after 31 December 9999 |
| Cams.RequestNamesTheDay | ingest/cams_forecast/__init__.py:41-68 | the request asks for every variable, all lead times, the 00:00 forecast as netCDF, and the day written YYYY-MM-DD, which reads back as that day |
| Cams.RetrieveFailureSkips | ingest/cams_forecast/__init__.py:70-75 | a retrieve that raises ends the run quietly: nothing is sent and nothing committed |
| Cams.SendParamsIngests | ingest/cams_forecast/__init__.py:80-114 | when the rasters are written, one ingest command is sent per parameter, in order, whether or not the dataset holds it |
| Cams.CommitIff | ingest/cams_forecast/__init__.py:52-120 | a run commits exactly when the date is known, the retrieve succeeded, the file opened and every raster was written; it then commits `{"last_update": date}` after the retrieve and one ingest command per parameter |
| Cams.SecondRunRaises | ingest/cams_forecast/__init__.py:53-56 | the wrapper nests the committed dict under "last_update", so after one committed run every later run reads a dict where it expects a string and raises TypeError before it retrieves anything (also line 120) |
| Modis.UrlJoinThree | ingest/modis/pymodis.py:105-112 | three pieces are joined by single slashes after their trailing slashes are stripped; a leading slash of a later piece is kept and gives a double slash |
| Modis.UrlJoinSplit | ingest/modis/pymodis.py:105-112 | slash-free pieces come back out when the joined URL is split at its slashes |
| Modis.AttrLookup | ingest/modis/pymodis.py:56-57 | `dict(attrs)[key]` succeeds exactly when some attribute has that name, and raises KeyError(key) otherwise |
| Modis.Anchor | ingest/modis/pymodis.py:54-57 | only an "a" tag records anything; it records the value of its (last) href with every "/" removed, raises KeyError("href") when there is no href and AttributeError when the href has no value |
| Modis.ScanRecordsAnchors | ingest/modis/pymodis.py:48-57 | a listing feeds without error exactly when each of its "a" tags carries an href with a value; it then records one slash-free id per "a" tag |
| Modis.ScanRecordsHrefs | ingest/modis/pymodis.py:54-57 | when feeding does not raise, the k-th recorded id is the href of the k-th "a" tag with every "/" removed |
| Modis.ModisHtmlParser.constructor | ingest/modis/pymodis.py:48-51 | the parser starts with no recorded ids |
| Modis.ModisHtmlParser.HandleStartTag | ingest/modis/pymodis.py:54-57 | handle_starttag raises exactly when Anchor does, and otherwise appends what Anchor records, if anything |
| Modis.ModisHtmlParser.Feed | ingest/modis/pymodis.py:52 | feeding the listing hands its start tags to handle_starttag in order, stopping at the first that raises |
| Modis.ModisHtmlParser.GetDates | ingest/modis/pymodis.py:63-67 | get_dates is strictly sorted and holds exactly the recorded ids that match YYYY[/.-]MM[/.-]DD to their end |
| Modis.ModisHtmlParser.GetTiles | ingest/modis/pymodis.py:69-102 | get_tiles computes exactly Tiles over the recorded ids |
| Modis.DotDateIsDateId | ingest/modis/pymodis.py:65 | the directory check_availability_for_date asks for is one get_dates lists (also line 136) |
| Modis.FileTilesOf | ingest/modis/pymodis.py:77-101 | one pass of the outer loop, with its inner loop over the tiles, computes exactly FileTiles |
| Modis.TilesOfProduct | ingest/modis/pymodis.py:80-88 | every id get_tiles returns is a listed one that names the product as a "."-component and has no "xml" component |
| Modis.TileHitsAreId | ingest/modis/pymodis.py:94-101 | with tiles, an id is added once per tile matching component 2, and with jpeg also once per tile matching a different component 3; only a name too short for the component read raises IndexError |
| Modis.TilesWithoutTiles | ingest/modis/pymodis.py:90-92 | without tiles, get_tiles keeps in order the product's files that are neither xml, jpg nor a BROWSE image |
| Modis.HdfIds | ingest/modis/pymodis.py:90-92 | the kept ids are exactly the listed ids that are such files |
| Modis.NewModisDownloader | ingest/modis/pymodis.py:116-132 | the versioned product code is `code.version` when a version is given and the code otherwise, and the data path is the product path joined with it |
| Modis.CheckAvailability | ingest/modis/pymodis.py:134-145 | for a parseable date: (False, url) exactly on 404, (True, url) exactly when raise_for_status does not raise (a status below 400 or from 600 up), HTTPError otherwise; an unparseable date raises fromisoformat's error |
| Modis.DataPathOf | ingest/modis/pymodis.py:132 | `urljoin(path, code)` of slash-free pieces is `path/code` |
| Modis.AvailabilityUrl | ingest/modis/pymodis.py:132-137 | the URL probed is `base/path/code/YYYY.MM.DD` |
| Modis.Enumerate | ingest/modis/pymodis.py:35-40 | the two nested loops produce the cell labels row by row, from iv_min to iv_max and ih_min to ih_max |
| Modis.GridRowsLength | ingest/modis/pymodis.py:35-40 | there are (rows × columns) labels |
| Modis.GridRowsSplit | ingest/modis/pymodis.py:35-40 | row r of the enumeration comes after the r rows before it |
| Modis.ModlandGridsAsWritten | ingest/modis/pymodis.py:38 | as written, cell (iv, ih) is labelled with iv after "h" and ih after "v" |
| Modis.ModlandGrids | ingest/modis/pymodis.py:35-40 | corrected: cell (iv, ih) is labelled with the horizontal index after "h" and the vertical after "v", in row-major order |
| Modis.TileLabelReadsBack | ingest/modis/pymodis.py:38 | within the 18 × 36 grid, a label is six characters and reads back as its two indices |
| Modis.SwappedLabel | ingest/modis/pymodis.py:38 | the cell at vertical 8 and horizontal 21 is written "h08v21", while MODIS names it "h21v08" |
| RasterVector.Clamp | ingest/raster_vector.py:15-16 | the clamped value lies in the bounds, equals the value when it already does, and is the nearer bound otherwise |
| RasterVector.FixCoordinates | ingest/raster_vector.py:14-23 | one clamped pair per pair, in order; every result lies inside the world and pairs already inside stay unchanged |
| RasterVector.ValidGeomTypes | ingest/raster_vector.py:31-34 | exactly the six simple-feature names are accepted, spelled as GeoJSON spells them |
| RasterVector.NewVectorDbManager | ingest/raster_vector.py:38-53 | construction fails with "Unknown geom type" exactly for a type outside the six, and otherwise keeps the table name `schema.table`, the type, the columns, the SRID and the pruning flag |
| RasterVector.ColumnsSqlEach | ingest/raster_vector.py:71-73 | the fragment declares every column as REAL, in order, each after ", "; with no column it is a bare ", " |
| RasterVector.ColumnValues | ingest/raster_vector.py:137-140 | one value per column, each the feature's property under that column |
| RasterVector.FeatureRow | ingest/raster_vector.py:122-142 | a row exists only when the feature's geometry has the table's type; it holds the parsed date, the WKT of the geometry (clamped to the world first for a LineString table), and the feature's properties under the data columns, in column order |
| RasterVector.ProcessGeojson | ingest/raster_vector.py:117-144 | process_geojson computes exactly GeojsonRows |
| RasterVector.RowsFollowFeatures | ingest/raster_vector.py:122-142 | one row per feature, in order, each holding the date, that feature's geometry WKT (world-clamped for LineString) and that feature's values of the data columns in column order |
| RasterVector.MismatchRaises | ingest/raster_vector.py:127-129 | a feature whose geometry type is not the table's raises UnKnownGeomType unless an earlier feature already raised |
| RasterVector.Database.constructor | ingest/raster_vector.py:151 | the database starts with the given tables |
| RasterVector.Database.CreateTableIfNotExists | ingest/raster_vector.py:71-81 | an absent table is created empty; an existing one is left as it is |
| RasterVector.Database.InsertUpdateData | ingest/raster_vector.py:146-164 | an error building the rows, a missing table or an unparseable date leaves the tables unchanged; otherwise the table becomes Inserted and nothing else changes |
| RasterVector.OffDateTwice | ingest/raster_vector.py:157 | deleting a date twice is deleting it once |
| RasterVector.SinceTwice | ingest/raster_vector.py:164 | pruning before a date twice is pruning once |
| RasterVector.OffDateSince | ingest/raster_vector.py:157-164 | deleting a date and pruning commute |
| RasterVector.InsertReplacesDate | ingest/raster_vector.py:153-164 | after an insert the rows of the date are exactly the new ones and every other date keeps exactly its rows, except what the pruning removes |
| RasterVector.NoRowBeforeLatest | ingest/raster_vector.py:163-164 | with past data deleted and a latest date given, no row dated before it remains |
| RasterVector.InsertTwice | ingest/raster_vector.py:153-164 | loading the same rows for the same date twice leaves the table as loading them once |

## Left out

- Raster and array work (xarray, rioxarray, numpy, GDAL, cdo, the anomaly arithmetic, nodata handling, `convert_nc_to_geotiff`, `copy_with_metadata`, `clip_to_africa`, `generate_contour_geojson`, `create_contour_data`, all of `ingest/modis/convertmodis.py`). Each raster step is one pass/fail oracle in the workflow that calls it, because it is floating-point library code.
- Cams.Run: the per-time-step raster loop of `run` (lines 86-103) is collapsed into one oracle result per parameter. The time values come from the opened dataset, which is not modelled.
- Cams.Run: the temporary file names (supplied as parameters) are not modelled.
- The `os.remove` of downloaded and temporary files is not modelled in Cams.Run (`ingest/cams_forecast/__init__.py:117`), EcmwfOpenData.Process (`ingest/ecmwf_opendata/__init__.py:125-126`), the dust `process` oracle of DustForecast.Run (`ingest/dustforecast/__init__.py:130`) or the CHIRPS estimate step of Chirps.FinishMonth (`ingest/chirps_rainfall/__init__.py:219`). Those files live outside the state store, so the state contracts are unaffected; a failing remove, which would raise before the commit, is not modelled.
- The network: `requests`, `robust` retries, `multiurl.download`, `cdsapi`, the xmltodict catalog fetch and `download_file_temp`. These are oracles: a status per URL, a list of index lines per URL, a retrieve outcome. Timeouts are not modelled.
- The HMAC signing and the HTTP POST of `send_ingest_command`. Only the guard on the webhook settings and the payload are modelled.
- The ECMWF library's `full_date`, `PATTERNS`, `EXTENSIONS`, `prepare_request` and `patch_stream`. These are uninterpreted functions of the client, and dates there are hours since an epoch.
- `ECMWFOpenData.run` uses the library's own client. Its `latest` and `retrieve` are oracles and are not linked to `EcmwfClient`.
- EcmwfClient.GetParts: `warning_once` is modelled as the set of (name, value) pairs warned about. Its once-only de-duplication and the `did_you_mean` hint are not modelled.
- `latest` and `_get_urls` pass `timeout`, `maximum_tries` and `retry_after` only to the transport. Only the keyword clash those names can cause is modelled (`EcmwfClient.ProbeCall`).
- Date parsing: `fromisoformat` is modelled for `YYYY-MM-DD`, optionally followed by any one separator and `HH`, `HH:MM` or `HH:MM:SS`. Fractional seconds and time zones are not modelled; such strings are a ValueError in the model. dateutil's `parser.parse` is modelled only for the `YYYY-MM-DDTHH:MM:SS.mmmZ` stamps the file names carry.
- DateUtils.ParseCompactDate: `strptime(s, "%Y%m%d")` is modelled as the regex Python builds for it, with the same alternatives in the same order. Its `\d` also matches non-ASCII digits, and `int()` reads them; the model accepts only ASCII digits, so such a string is a ValueError in the model. The `re.IGNORECASE` flag changes nothing for this pattern.
- `strftime("%Y")` for years below 1000: the model pads to four digits. Padding differs between C libraries.
- Chirps.PathExists: the set of existing paths is given, so the ValueError that `os.stat` raises for a path holding a NUL character (read as False) is covered only by leaving such a path out of the set. Windows' `os.path.exists` is not modelled.
- RasterVector.Shown: a geometry type that is a list or dict is shown as "..." in the UnKnownGeomType message, where Python's f-string prints its repr (`['a']`). Only the message text differs. Strings, None, booleans and integers are shown as Python shows them.
- RasterVector.Clamp, RasterVector.FixCoordinates: coordinates are Dafny reals, not floats. In Python a NaN passes `max(min(nan, 180), -180)` unchanged, so the "within the world" bound does not hold for NaN coordinates; NaN is not modelled.
- Utils.ConvertData: numbers are Dafny reals, not floats. The contract requires a non-zero constant for "divide", where numpy would produce inf or nan. NaN and rounding are not modelled.
- RasterVector: shapely's `shape`, `simplify`, `is_simple` and WKT writing, and geojson's `loads`, are oracles. The coordinates given to `FixCoordinates` are the 2-D pairs of the line, and 3-D coordinates are not modelled.
- RasterVector: the psycopg2 connection, `CREATE EXTENSION`, `CREATE SCHEMA`, the index and the MVT function are not modelled, nor are SQL errors outside the missing table. The table is modelled only by its effect: a sequence of rows.
- RasterVector.Database.InsertUpdateData: `date_str` and `latest_date_str` are given already parsed. The WHERE clauses compare dates rather than their strings.
- RasterVector.Database.InsertUpdateData: with no features, a bad date string raises nothing in the source, but the model fails with the parse error.
- ModisHtmlParser: HTML tokenisation is not modelled. The parser is fed the start tags the tokenizer would report.
- The `BearerAuth` object, `download_hdf_file`, `get_date_tile_files` and `extent_tiles` are not modelled. They are downloads, or the float projection.
- The float sinusoidal projection of `get_modland_grids` (lines 16-32) is not modelled. The model starts from the integer tile bounds. As written, that projection returns metres (`r * np.radians(...)`), and lines 29-32 then floor `(90 + y) / 10` and `(180 + x) / 10` as if `y` and `x` were degrees. So the indices fall in the 18 × 36 grid only for a bounding box within metres of (0, 0), and even in degrees `iv` would count rows from the south, where MODIS counts `v` from the north. The model does not capture this, and the row of "## Findings" is about the label order alone.
- Modis.DateId: Python's `\d` also matches non-ASCII digits. The model accepts only ASCII digits.
- Utils.FindStamp: the same holds for the stamp pattern of `delete_past_data_files` (`ingest/utils.py:130`): its `\d` matches any Unicode digit, the model's IsDigit only ASCII ones, so a path whose stamp uses other digits is kept by the model.
- Utils.Disk.AtomicWrite: mode "a" is not modelled, because no caller uses it. fsync and durability are not modelled. A crash is a fail point before the replace.
- Utils.Disk: `json.dump`/`json.load` are modelled as a lossless round trip on the `Doc` content. Any other file content is `Raw` and does not parse.
- Utils.Disk.ReadState: a state file holding valid JSON that is not an object (`[]`, `null`, `3`) parses in Python, and read_state then raises AttributeError at `state.get` (`ingest/utils.py:106`). The model has no content of that kind: such a file is `Raw`, and ReadState heals it like an unparsable one. Utils.Disk.UpdateState likewise reports JSONDecodeError for it where Python raises TypeError at `state[dataset_id] = new_state` (`ingest/utils.py:116`).
- Ingest.GetState, Ingest.UpdateState: the workflows (DustForecast.Run, EcmwfOpenData.ECMWFOpenData.Run, Chirps.RunMonthly, Tamsat.RunMonthly, Cams.Run) call them with writes that complete. An I/O failure of read_state's healing write, or of the commit's atomic_write, is not carried into the workflows. In the source it ends `run()` with an exception, after the ingest commands were sent and before the state advances, and every workflow's contract then still says Pass and a commit. What such a failure leaves on disk is stated by Utils.Disk.ReadState, Utils.Disk.UpdateState and Utils.InterruptedCommitKeepsState.
- Utils.Disk.DeletePastDataFiles: `os.walk`'s order is a parameter. The logging is not modelled, apart from the count the contract states.
- TAMSAT periods other than monthly (daily, pentadal, dekadal, seasonal) are disabled in the configuration, and `run` never calls them. They are not modelled.
- The order in which Python iterates dicts (`self.periods`, the templates) is the order of the configuration literal, written as a sequence.
- Concurrency and scheduling (`main.py`, `ingest/jobs.py`), and configuration loading (`ingest/config`), are not modelled.
- The subclasses pass a `cleanup_old_data` argument that `DataIngest.__init__` does not accept (see "## Findings"). The workflows are modelled as if construction had succeeded, starting from a validated `DataIngest`.
- `ingest/modis/__init__.py` is not part of this model.

## Findings

| source | as written | input that shows it | evidently intended | confidence | as-written member | corrected member |
|---|---|---|---|---|---|---|
| ingest/modis/pymodis.py:38 | the label is `f'h{iv:02d}v{ih:02d}'`, which puts the vertical index after "h" and the horizontal index after "v" | a cell at vertical index 8 and horizontal index 21 gives "h08v21"; MODIS has only 18 vertical rows (given the indices; as written, lines 16-32 produce in-grid indices only for boxes near (0, 0), see "## Left out") | `f'h{ih:02d}v{iv:02d}'`, the MODIS tile name "h21v08" | medium, not executed | Modis.ModlandGridsAsWritten, Modis.SwappedLabel | Modis.ModlandGrids, Modis.TileLabelReadsBack |
| ingest/chirps_rainfall/__init__.py:34 | `super().__init__(dataset_id=..., output_dir=..., cleanup_old_data=...)`, while `DataIngest.__init__` (ingest/__init__.py:19) declares only `dataset_id` and `output_dir`; the TAMSAT (ingest/tamsat_rainfall/__init__.py:82) and CAMS (ingest/cams_forecast/__init__.py:27) constructors make the same call | any construction, e.g. dataset id "chirps", output dir "/data": Python raises TypeError (unexpected keyword argument), so none of the three datasets can be built | `DataIngest.__init__` accepting (or the subclasses not passing) `cleanup_old_data`, so construction checks only the dataset id and output dir | high, not executed | Ingest.InitWithKeywords, Ingest.CleanupKeywordRaises | Ingest.NewDataIngest, Chirps.NewChirpsRainfall, Tamsat.NewTamsatRainfall, Cams.NewCamsForecast |
