/**
 * ingest/ecmwf_opendata/client.py: ECWMFPatchedClient.
 *  - `latest` probes candidate run dates backwards from the newest and accepts the first whose URLs
 *    all answer HEAD with 200.
 *  - `_get_urls` expands a request into the deduplicated URLs of its cartesian product.
 *  - `get_parts` narrows each URL to the byte ranges whose index records match the request.
 * The library's prepare_request, full_date, PATTERNS/EXTENSIONS formatting and the HTTP transport
 * are the `Remote` collaborators.
 */
module EcmwfClient {
  import opened Wrappers
  import opened Errors
  import opened EcmwfRequest

  /** Per-dimension value lists, as prepare_request returns them (for_urls and for_index). */
  type Coords = Dict<seq<Value>>

  /** (offset, length) of a byte range. */
  type Range = (int, int)

  /** One decoded line of an index file: its fields, and its integer "_offset" and "_length". */
  datatype Record = Record(fields: map<string, Value>, offset: Option<int>, length: Option<int>)

  /** The response to a GET of an index URL; a line json.loads rejects is None. */
  datatype IndexResponse = IndexResponse(status: int, lines: seq<Option<Record>>)

  datatype Remote = Remote(
    // prepare_request(params): (for_urls, for_index)
    prepare: Dict<Value> -> Result<(Coords, Coords), Error>,
    // full_date(0, time): the newest candidate run, which also reads the clock
    startDate: Value -> Result<int, Error>,
    // for one product entry: full_date of its date and time, and the URL its PATTERNS entry formats
    format: Dict<Value> -> Result<(string, int), Error>,
    // the status code of a HEAD of a URL (with retries)
    head: string -> int,
    // the GET of an index URL (with retries)
    index: string -> IndexResponse)

  datatype Client = Client(url: string, preserveRequestOrder: bool, remote: Remote)

  /** `Result.urls`: plain URLs, or (URL, byte ranges) pairs once get_parts has narrowed them. */
  datatype Urls = Plain(list: seq<string>) | Indexed(parts: seq<(string, seq<Range>)>)

  datatype UrlsResult = UrlsResult(urls: Urls, target: Value, dates: seq<int>, forUrls: Coords, forIndex: Coords)

  type Warning = (string, Value)

  // ---------------------------------------------------------------- get_parts, one record

  /** A match: (dimension, position in its value list) when preserving request order, else the offset. */
  datatype Match = Pos(i: nat, j: nat) | Off(o: int)

  /** A kept record: its sort key (the flattened match tuple, compared like Python tuples of equal
      length) and its byte range. */
  datatype Part = Part(key: seq<int>, range: Range)

  function FieldOf(rec: Record, name: string): Value
  {
    if name in rec.fields then rec.fields[name] else Nil
  }

  /** `[(i, j) for j, v in enumerate(values) if v == idx]`. */
  function Positions(i: nat, values: seq<Value>, idx: Value): seq<Match>
  {
    if values == [] then []
    else Positions(i, values[..|values| - 1], idx) + (if values[|values| - 1] == idx then [Pos(i, |values| - 1)] else [])
  }

  function Flatten(ms: seq<Match>): seq<int>
  {
    if ms == [] then [] else (match ms[0] case Pos(i, j) => [i as int, j as int] case Off(o) => [o]) + Flatten(ms[1..])
  }

  /** The matches a record collects over the first k dimensions of for_index. */
  function LineMatches(preserve: bool, forIndex: Coords, rec: Record, k: nat): Result<seq<Match>, Error>
    requires k <= |forIndex|
  {
    if k == 0 then Ok([])
    else
      match LineMatches(preserve, forIndex, rec, k - 1)
      case Err(e) => Err(e)
      case Ok(ms) =>
        var idx := FieldOf(rec, forIndex[k - 1].0);
        if idx !in forIndex[k - 1].1 then Ok(ms)
        else if preserve then Ok(ms + Positions(k - 1, forIndex[k - 1].1, idx))
        else if rec.offset.None? then Err(KeyError("_offset"))
        else Ok(ms + [Off(rec.offset.value)])
  }

  /** possible_values, the values seen per index dimension (a defaultdict(set)). */
  type Possible = map<string, set<Value>>

  function Seen(p: Possible, name: string): set<Value>
  {
    if name in p then p[name] else {}
  }

  function Observe(p: Possible, name: string, idx: Value): Possible
  {
    if idx != Nil then p[name := Seen(p, name) + {idx}] else p
  }

  function ObserveLine(forIndex: Coords, rec: Record, k: nat, p: Possible): Possible
    requires k <= |forIndex|
  {
    if k == 0 then p else Observe(ObserveLine(forIndex, rec, k - 1, p), forIndex[k - 1].0, FieldOf(rec, forIndex[k - 1].0))
  }

  /** One index line: JSONDecodeError, KeyError for a kept record without offset or length, the
      kept part, or None when the line does not match every dimension. */
  function LinePart(preserve: bool, forIndex: Coords, line: Option<Record>): Result<Option<Part>, Error>
  {
    match line
    case None => Err(JsonDecodeError)
    case Some(rec) =>
      match LineMatches(preserve, forIndex, rec, |forIndex|)
      case Err(e) => Err(e)
      case Ok(ms) =>
        if |ms| != |forIndex| then Ok(None)
        else if rec.offset.None? then Err(KeyError("_offset"))
        else if rec.length.None? then Err(KeyError("_length"))
        else Ok(Some(Part(Flatten(ms), (rec.offset.value, rec.length.value))))
  }

  // ---------------------------------------------------------------- get_parts, one URL

  function LinesParts(preserve: bool, forIndex: Coords, lines: seq<Option<Record>>): Result<seq<Part>, Error>
  {
    if lines == [] then Ok([])
    else
      match LinesParts(preserve, forIndex, lines[..|lines| - 1])
      case Err(e) => Err(e)
      case Ok(parts) =>
        match LinePart(preserve, forIndex, lines[|lines| - 1])
        case Err(e) => Err(e)
        case Ok(None) => Ok(parts)
        case Ok(Some(part)) => Ok(parts + [part])
  }

  function ObserveLines(forIndex: Coords, lines: seq<Option<Record>>, p: Possible): Possible
  {
    if lines == [] then p
    else
      var before := ObserveLines(forIndex, lines[..|lines| - 1], p);
      match lines[|lines| - 1]
      case None => before
      case Some(rec) => ObserveLine(forIndex, rec, |forIndex|, before)
  }

  /** The index of a data URL: its extension replaced by ".index". */
  function IndexUrl(url: string): string
  {
    Splitext(url).0 + ".index"
  }

  /** The parts one URL's index keeps, or the HTTPError its GET raises. */
  function KeptParts(c: Client, forIndex: Coords, url: string): Result<seq<Part>, Error>
  {
    var response := c.remote.index(IndexUrl(url));
    if RaisesForStatus(response.status) then Err(HttpError(response.status))
    else LinesParts(c.preserveRequestOrder, forIndex, response.lines)
  }

  // ---------------------------------------------------------------- sorting the parts of a URL

  /** Python's order on equal-shaped int tuples: strict lexicographic. */
  predicate KeyLess(a: seq<int>, b: seq<int>)
  {
    if a == [] then b != [] else if b == [] then false else a[0] < b[0] || (a[0] == b[0] && KeyLess(a[1..], b[1..]))
  }

  /** `(key, (offset, length)) <= (key', (offset', length'))`. */
  predicate PartLe(p: Part, q: Part)
  {
    KeyLess(p.key, q.key) ||
    (p.key == q.key && (p.range.0 < q.range.0 || (p.range.0 == q.range.0 && p.range.1 <= q.range.1)))
  }

  lemma {:induction false} KeyLessTotal(a: seq<int>, b: seq<int>)
    requires a != b
    ensures KeyLess(a, b) || KeyLess(b, a)
  {
    if a != [] && b != [] && a[0] == b[0] {
      assert a == [a[0]] + a[1..] && b == [b[0]] + b[1..];
      KeyLessTotal(a[1..], b[1..]);
    }
  }

  predicate SortedParts(s: seq<Part>)
  {
    forall i :: 0 <= i < |s| - 1 ==> PartLe(s[i], s[i + 1])
  }

  /** A part that sorts before the head of a sorted list can go in front of it. */
  lemma ConsSorted(p: Part, s: seq<Part>)
    requires SortedParts(s) && (s == [] || PartLe(p, s[0]))
    ensures SortedParts([p] + s)
  {
    assert forall i :: 1 <= i < |s| + 1 ==> ([p] + s)[i] == s[i - 1];
  }

  function InsertPart(p: Part, s: seq<Part>): (r: seq<Part>)
    requires SortedParts(s)
    ensures SortedParts(r)
    ensures multiset(r) == multiset(s) + multiset{p}
    ensures r[0] == p || (s != [] && r[0] == s[0])
  {
    if s == [] then [p]
    else if PartLe(p, s[0]) then ConsSorted(p, s); [p] + s
    else
      var t := InsertPart(p, s[1..]);
      assert PartLe(s[0], p) by {
        if p.key != s[0].key { KeyLessTotal(p.key, s[0].key); }
      }
      assert s == [s[0]] + s[1..];
      ConsSorted(s[0], t);
      [s[0]] + t
  }

  /** `sorted(parts)`. */
  function SortParts(s: seq<Part>): (r: seq<Part>)
    ensures SortedParts(r)
    ensures multiset(r) == multiset(s)
  {
    if s == [] then []
    else
      assert s == s[..|s| - 1] + [s[|s| - 1]];
      InsertPart(s[|s| - 1], SortParts(s[..|s| - 1]))
  }

  /** `tuple(p[1] for p in parts)`. */
  function Ranges(ps: seq<Part>): (r: seq<Range>)
    ensures |r| == |ps| && forall k :: 0 <= k < |ps| ==> r[k] == ps[k].range
  {
    seq(|ps|, k requires 0 <= k < |ps| => ps[k].range)
  }

  // ---------------------------------------------------------------- get_parts, all URLs

  function UrlsParts(c: Client, forIndex: Coords, urls: seq<string>): Result<seq<(string, seq<Range>)>, Error>
  {
    if urls == [] then Ok([])
    else
      match UrlsParts(c, forIndex, urls[..|urls| - 1])
      case Err(e) => Err(e)
      case Ok(result) =>
        var url := urls[|urls| - 1];
        match KeptParts(c, forIndex, url)
        case Err(e) => Err(e)
        case Ok(parts) => if parts == [] then Ok(result) else Ok(result + [(url, Ranges(SortParts(parts)))])
  }

  function ObserveUrls(c: Client, forIndex: Coords, urls: seq<string>): Possible
  {
    if urls == [] then map[]
    else ObserveLines(forIndex, c.remote.index(IndexUrl(urls[|urls| - 1])).lines, ObserveUrls(c, forIndex, urls[..|urls| - 1]))
  }

  /** The "No index entries for name=value" warnings: requested values never seen for the dimension. */
  function Warnings(forIndex: Coords, p: Possible): set<Warning>
  {
    set i, d | 0 <= i < |forIndex| && d in forIndex[i].1 && d !in Seen(p, forIndex[i].0) :: (forIndex[i].0, d)
  }

  const NoIndexEntries := ValueError("Cannot find index entries matching")
  const NoLatest := ValueError("Cannot etablish latest date")

  /** get_parts: the kept (URL, sorted ranges) pairs, or the error it raises, with the warnings logged. */
  function GetPartsSpec(c: Client, urls: seq<string>, forIndex: Coords): (Result<seq<(string, seq<Range>)>, Error>, set<Warning>)
  {
    match UrlsParts(c, forIndex, urls)
    case Err(e) => (Err(e), {})
    case Ok(result) =>
      (if result == [] then Err(NoIndexEntries) else Ok(result), Warnings(forIndex, ObserveUrls(c, forIndex, urls)))
  }

  // ---------------------------------------------------------------- _get_urls and latest

  /** The (URL, date) of each product entry in turn; the dates kept as the ascending listing of a set. */
  function Collect(remote: Remote, names: seq<string>, combos: seq<seq<Value>>): (r: Result<(seq<string>, seq<int>), Error>)
    ensures r.Ok? <==> forall k :: 0 <= k < |combos| ==> remote.format(Zip(names, combos[k])).Ok?
    ensures r.Ok? ==> |r.value.0| == |combos| && Increasing(r.value.1)
    ensures r.Ok? ==> forall k :: 0 <= k < |combos| ==> r.value.0[k] == remote.format(Zip(names, combos[k])).value.0
    ensures r.Ok? ==> forall d :: d in r.value.1 <==>
      exists k :: 0 <= k < |combos| && remote.format(Zip(names, combos[k])).value.1 == d
  {
    if combos == [] then Ok(([], []))
    else
      var prefix := combos[..|combos| - 1];
      assert forall k :: 0 <= k < |prefix| ==> prefix[k] == combos[k];
      match Collect(remote, names, prefix)
      case Err(e) => Err(e)
      case Ok(acc) =>
        match remote.format(Zip(names, combos[|combos| - 1]))
        case Err(e) => Err(e)
        case Ok(entry) => Ok((acc.0 + [entry.0], InsertSorted(entry.1, acc.1)))
  }

  /** `for_urls["_url"] = [self.url]`. */
  function WithUrl(c: Client, forUrls: Coords): Coords
  {
    Put(forUrls, "_url", [Str(c.url)])
  }

  /** _get_urls once the request has a date, before any index is read: the target taken out, and the
      product of for_urls expanded into its deduplicated URLs and the sorted set of their dates. */
  function Expand(c: Client, params: Dict<Value>, target: Value): (r: Result<UrlsResult, Error>)
    ensures r.Ok? ==> r.value.urls.Plain?
  {
    var target' := if target == Nil then LookupOr(params, "target", Nil) else target;
    var params' := if target == Nil then Remove(params, "target") else params;
    match c.remote.prepare(params')
    case Err(e) => Err(e)
    case Ok(prepared) =>
      var forUrls := WithUrl(c, prepared.0);
      match Collect(c.remote, Names(forUrls), Product(Values(forUrls)))
      case Err(e) => Err(e)
      case Ok(collected) => Ok(UrlsResult(Plain(Dedup(collected.0)), target', collected.1, forUrls, prepared.1))
  }

  /** The index filtering step of _get_urls, applied when an index is used and for_index is non-empty. */
  function UrlsFor(c: Client, params: Dict<Value>, target: Value, useIndex: bool): (r: Result<UrlsResult, Error>)
    ensures r.Ok? ==> (r.value.urls.Indexed? <==> useIndex && r.value.forIndex != [])
  {
    match Expand(c, params, target)
    case Err(e) => Err(e)
    case Ok(plain) =>
      if plain.forIndex != [] && useIndex then
        match GetPartsSpec(c, plain.urls.list, plain.forIndex).0
        case Err(e) => Err(e)
        case Ok(parts) => Ok(plain.(urls := Indexed(parts)))
      else Ok(plain)
  }

  /** The step back between candidates: 6 hours without a "time" in the request, else a day. */
  function Step(params: Dict<Value>): nat
  {
    if "time" !in Names(params) then 6 else 24
  }

  /** The keyword arguments latest passes to _get_urls explicitly; **params must not repeat them. */
  const ExplicitKeywords: set<string> := {"request", "use_index", "date", "timeout", "maximum_tries", "retry_after"}

  /** Whether **params repeats one of the explicit keywords. */
  predicate RepeatsKeyword(params: Dict<Value>)
    ensures RepeatsKeyword(params) <==> exists k :: k in Names(params) && k in ExplicitKeywords
  {
    var names := Names(params);
    "request" in names || "use_index" in names || "date" in names || "timeout" in names ||
    "maximum_tries" in names || "retry_after" in names
  }

  /** The binding of `_get_urls(request=None, use_index=False, date=date, ..., **params)`: TypeError for
      a repeated keyword; else the kwargs (date first) and the target, which binds its own parameter. */
  function ProbeCall(params: Dict<Value>, date: int): (r: Result<(Dict<Value>, Value), Error>)
    ensures r.Ok? ==> "date" in Names(r.value.0)
  {
    if RepeatsKeyword(params) then Err(TypeError)
    else
      var kwargs := [("date", When(date))] + Remove(params, "target");
      assert Names(kwargs)[0] == "date";
      Ok((kwargs, LookupOr(params, "target", Nil)))
  }

  /** Every URL answers HEAD with 200, and there is at least one. */
  predicate AllAvailable(remote: Remote, urls: seq<string>)
  {
    |urls| > 0 && forall k :: 0 <= k < |urls| ==> remote.head(urls[k]) == 200
  }

  /** Whether the run at `date` is complete on the server. */
  function Probe(c: Client, params: Dict<Value>, date: int): Result<bool, Error>
    decreases 1, 0
  {
    var call := ProbeCall(params, date);
    if call.Err? then Err(call.error)
    else
      var result := GetUrlsSpec(c, call.value.0, call.value.1, false);
      if result.Err? then Err(result.error)
      else Ok(AllAvailable(c.remote, result.value.urls.list))
  }

  /** latest's loop from `back` hours before the start on: the candidates strictly later than
      start - 30h are probed, newest first, every Step(params) hours. */
  function LatestFrom(c: Client, params: Dict<Value>, start: int, back: nat): Result<int, Error>
    decreases 2, 30 - back
  {
    if back >= 30 then Err(NoLatest)
    else
      match Probe(c, params, start - back)
      case Err(e) => Err(e)
      case Ok(true) => Ok(start - back)
      case Ok(false) => LatestFrom(c, params, start, back + Step(params))
  }

  /** The dates latest probes from `back` hours before the start on: every `step` hours while the
      candidate is strictly later than start - 30h, newest first. */
  function Candidates(start: int, step: nat, back: nat): seq<int>
    requires step > 0
    decreases 30 - back
  {
    if back >= 30 then [] else [start - back] + Candidates(start, step, back + step)
  }

  /** latest's loop from `back` hours before the start on, given the probe outcome of each date. */
  function Search(probe: int -> Result<bool, Error>, start: int, step: nat, back: nat): Result<int, Error>
    requires step > 0
    decreases 30 - back
  {
    if back >= 30 then Err(NoLatest)
    else
      match probe(start - back)
      case Err(e) => Err(e)
      case Ok(true) => Ok(start - back)
      case Ok(false) => Search(probe, start, step, back + step)
  }

  /** The probe of each candidate date. */
  function Probes(c: Client, params: Dict<Value>): int -> Result<bool, Error>
  {
    (date: int) => Probe(c, params, date)
  }

  function LatestSpec(c: Client, params: Dict<Value>): Result<int, Error>
    decreases 2, 31
  {
    match c.remote.startDate(LookupOr(params, "time", Num(18)))
    case Err(e) => Err(e)
    case Ok(start) => LatestFrom(c, params, start, 0)
  }

  /** _get_urls: a missing date is first filled in by latest. */
  function GetUrlsSpec(c: Client, params: Dict<Value>, target: Value, useIndex: bool): (r: Result<UrlsResult, Error>)
    ensures r.Ok? ==> (r.value.urls.Indexed? <==> useIndex && r.value.forIndex != [])
    decreases if "date" in Names(params) then 0 else 3, 0
  {
    if "date" in Names(params) then UrlsFor(c, params, target, useIndex)
    else
      match LatestSpec(c, params)
      case Err(e) => Err(e)
      case Ok(d) => UrlsFor(c, Put(params, "date", When(d)), target, useIndex)
  }

  // ---------------------------------------------------------------- an error ends each loop

  lemma {:induction false} LineMatchesStops(preserve: bool, forIndex: Coords, rec: Record, i: nat, k: nat)
    requires i <= k <= |forIndex| && LineMatches(preserve, forIndex, rec, i).Err?
    ensures LineMatches(preserve, forIndex, rec, k) == LineMatches(preserve, forIndex, rec, i)
    decreases k
  {
    if i < k {
      LineMatchesStops(preserve, forIndex, rec, i, k - 1);
    }
  }

  lemma {:induction false} LinesPartsStops(preserve: bool, forIndex: Coords, lines: seq<Option<Record>>, i: nat)
    requires i <= |lines| && LinesParts(preserve, forIndex, lines[..i]).Err?
    ensures LinesParts(preserve, forIndex, lines) == LinesParts(preserve, forIndex, lines[..i])
    decreases |lines|
  {
    if i < |lines| {
      var w := lines[..|lines| - 1];
      assert w[..i] == lines[..i];
      LinesPartsStops(preserve, forIndex, w, i);
    } else {
      assert lines[..i] == lines;
    }
  }

  lemma {:induction false} UrlsPartsStops(c: Client, forIndex: Coords, urls: seq<string>, i: nat)
    requires i <= |urls| && UrlsParts(c, forIndex, urls[..i]).Err?
    ensures UrlsParts(c, forIndex, urls) == UrlsParts(c, forIndex, urls[..i])
    decreases |urls|
  {
    if i < |urls| {
      var w := urls[..|urls| - 1];
      assert w[..i] == urls[..i];
      UrlsPartsStops(c, forIndex, w, i);
    } else {
      assert urls[..i] == urls;
    }
  }

  // ---------------------------------------------------------------- the client's methods

  lemma {:induction false} CollectStops(remote: Remote, names: seq<string>, combos: seq<seq<Value>>, i: nat)
    requires i <= |combos| && Collect(remote, names, combos[..i]).Err?
    ensures Collect(remote, names, combos) == Collect(remote, names, combos[..i])
    decreases |combos|
  {
    if i < |combos| {
      var w := combos[..|combos| - 1];
      assert w[..i] == combos[..i];
      CollectStops(remote, names, w, i);
    } else {
      assert combos[..i] == combos;
    }
  }

  // ---------------------------------------------------------------- the client's methods

  /** The inner loop of get_parts over the index dimensions for one decoded line. */
  method MatchLine(preserve: bool, forIndex: Coords, line: Record, possible: Possible)
    returns (r: Result<seq<Match>, Error>, possible': Possible)
    ensures r == LineMatches(preserve, forIndex, line, |forIndex|)
    ensures possible' == ObserveLine(forIndex, line, |forIndex|, possible)
  {
    possible' := possible;
    var matches: seq<Match> := [];
    var i := 0;
    while i < |forIndex|
      invariant 0 <= i <= |forIndex|
      invariant LineMatches(preserve, forIndex, line, i) == Ok(matches)
      invariant possible' == ObserveLine(forIndex, line, i, possible)
    {
      var (name, values) := forIndex[i];
      var idx := FieldOf(line, name);
      if idx != Nil {
        possible' := possible'[name := Seen(possible', name) + {idx}];
      }
      if idx in values {
        if preserve {
          matches := matches + Positions(i, values, idx);
        } else {
          if line.offset.None? {
            LineMatchesStops(preserve, forIndex, line, i + 1, |forIndex|);
            possible' := ObserveLine(forIndex, line, |forIndex|, possible);
            return Err(KeyError("_offset")), possible';
          }
          matches := matches + [Off(line.offset.value)];
        }
      }
      i := i + 1;
    }
    r := Ok(matches);
  }

  /** One pass of get_parts' loop over an index: decode the line, match it, keep its part. */
  method ScanLine(preserve: bool, forIndex: Coords, line: Option<Record>, possible: Possible)
    returns (r: Result<Option<Part>, Error>, possible': Possible)
    ensures r == LinePart(preserve, forIndex, line)
    ensures line.Some? ==> possible' == ObserveLine(forIndex, line.value, |forIndex|, possible)
  {
    possible' := possible;
    if line.None? {
      return Err(JsonDecodeError), possible';
    }
    var rec := line.value;
    var matches;
    matches, possible' := MatchLine(preserve, forIndex, rec, possible');
    if matches.Err? {
      return Err(matches.error), possible';
    }
    if |matches.value| != |forIndex| {
      return Ok(None), possible';
    }
    if rec.offset.None? || rec.length.None? {
      return Err(KeyError(if rec.offset.None? then "_offset" else "_length")), possible';
    }
    r := Ok(Some(Part(Flatten(matches.value), (rec.offset.value, rec.length.value))));
  }

  /** The loop of get_parts over the lines of one URL's index. */
  method ScanIndex(preserve: bool, forIndex: Coords, lines: seq<Option<Record>>, possible: Possible)
    returns (r: Result<seq<Part>, Error>, possible': Possible)
    ensures r == LinesParts(preserve, forIndex, lines)
    ensures r.Ok? ==> possible' == ObserveLines(forIndex, lines, possible)
  {
    possible' := possible;
    var parts: seq<Part> := [];
    var l := 0;
    while l < |lines|
      invariant 0 <= l <= |lines|
      invariant LinesParts(preserve, forIndex, lines[..l]) == Ok(parts)
      invariant possible' == ObserveLines(forIndex, lines[..l], possible)
    {
      assert lines[..l + 1][..l] == lines[..l];
      var part;
      part, possible' := ScanLine(preserve, forIndex, lines[l], possible');
      if part.Err? {
        LinesPartsStops(preserve, forIndex, lines, l + 1);
        return Err(part.error), possible';
      }
      if part.value.Some? {
        parts := parts + [part.value.value];
      }
      l := l + 1;
    }
    assert lines[..l] == lines;
    r := Ok(parts);
  }

  /** get_parts(data_urls, for_index). */
  method GetParts(c: Client, dataUrls: seq<string>, forIndex: Coords)
    returns (r: Result<seq<(string, seq<Range>)>, Error>, warnings: set<Warning>)
    ensures (r, warnings) == GetPartsSpec(c, dataUrls, forIndex)
  {
    var result: seq<(string, seq<Range>)> := [];
    var possible: Possible := map[];
    var u := 0;
    while u < |dataUrls|
      invariant 0 <= u <= |dataUrls|
      invariant UrlsParts(c, forIndex, dataUrls[..u]) == Ok(result)
      invariant possible == ObserveUrls(c, forIndex, dataUrls[..u])
    {
      var url := dataUrls[u];
      assert dataUrls[..u + 1][..u] == dataUrls[..u];
      var response := c.remote.index(IndexUrl(url));
      if RaisesForStatus(response.status) {
        UrlsPartsStops(c, forIndex, dataUrls, u + 1);
        return Err(HttpError(response.status)), {};
      }
      var parts;
      parts, possible := ScanIndex(c.preserveRequestOrder, forIndex, response.lines, possible);
      if parts.Err? {
        UrlsPartsStops(c, forIndex, dataUrls, u + 1);
        return Err(parts.error), {};
      }
      if parts.value != [] {
        result := result + [(url, Ranges(SortParts(parts.value)))];
      }
      u := u + 1;
    }
    assert dataUrls[..u] == dataUrls;
    warnings := Warnings(forIndex, possible);
    if result == [] {
      return Err(NoIndexEntries), warnings;
    }
    r := Ok(result);
  }

  /** The status codes of HEAD requests to `urls`: true iff there is at least one and all are 200. */
  method HeadAll(remote: Remote, urls: seq<string>) returns (available: bool)
    ensures available == AllAvailable(remote, urls)
  {
    var codes: seq<int> := [];
    var i := 0;
    while i < |urls|
      invariant 0 <= i <= |urls| && |codes| == i
      invariant forall j :: 0 <= j < i ==> codes[j] == remote.head(urls[j])
    {
      codes := codes + [remote.head(urls[i])];
      i := i + 1;
    }
    available := |codes| > 0 && forall j :: 0 <= j < |codes| ==> codes[j] == 200;
  }

  /** One iteration of latest: the URLs for `date`, and whether all of them answer HEAD with 200. */
  method ProbeDate(c: Client, params: Dict<Value>, date: int) returns (r: Result<bool, Error>)
    ensures r == Probe(c, params, date)
    decreases 1
  {
    var call := ProbeCall(params, date);
    if call.Err? {
      return Err(call.error);
    }
    var result := GetUrls(c, call.value.0, call.value.1, false);
    if result.Err? {
      return Err(result.error);
    }
    var available := HeadAll(c.remote, result.value.urls.list);
    r := Ok(available);
  }

  /** One iteration of latest's loop, as Search unfolds it. */
  lemma SearchStep(probe: int -> Result<bool, Error>, start: int, step: nat, back: nat, outcome: Result<bool, Error>)
    requires step > 0 && back < 30 && probe(start - back) == outcome
    ensures outcome.Err? ==> Search(probe, start, step, back) == Err(outcome.error)
    ensures outcome == Ok(true) ==> Search(probe, start, step, back) == Ok(start - back)
    ensures outcome == Ok(false) ==> Search(probe, start, step, back) == Search(probe, start, step, back + step)
  {
  }

  /** One iteration of latest's loop, as LatestFrom unfolds it. */
  lemma LatestFromStep(c: Client, params: Dict<Value>, start: int, back: nat, outcome: Result<bool, Error>)
    requires back < 30
    ensures Probe(c, params, start - back) == outcome ==>
      (outcome.Err? ==> LatestFrom(c, params, start, back) == Err(outcome.error)) &&
      (outcome == Ok(true) ==> LatestFrom(c, params, start, back) == Ok(start - back)) &&
      (outcome == Ok(false) ==> LatestFrom(c, params, start, back) == LatestFrom(c, params, start, back + Step(params)))
  {
  }

  /** One pass of latest's loop: probe the candidate `back` hours before the start. */
  method ProbeCandidate(c: Client, params: Dict<Value>, start: int, back: nat) returns (r: Result<bool, Error>)
    requires back < 30
    ensures r.Err? ==> LatestFrom(c, params, start, back) == Err(r.error)
    ensures r == Ok(true) ==> LatestFrom(c, params, start, back) == Ok(start - back)
    ensures r == Ok(false) ==> LatestFrom(c, params, start, back) == LatestFrom(c, params, start, back + Step(params))
    decreases 2, 0
  {
    r := ProbeDate(c, params, start - back);
    LatestFromStep(c, params, start, back, r);
  }

  /** latest(request). */
  method Latest(c: Client, params: Dict<Value>) returns (r: Result<int, Error>)
    ensures r == LatestSpec(c, params)
    decreases 2, 2
  {
    var start := c.remote.startDate(LookupOr(params, "time", Num(18)));
    LatestSpecStart(c, params, start);
    if start.Err? {
      return Err(start.error);
    }
    r := LatestLoop(c, params, start.value);
  }

  /** latest's loop over the candidates, newest first, from the start date of the newest run. */
  method LatestLoop(c: Client, params: Dict<Value>, start: int) returns (r: Result<int, Error>)
    ensures r == LatestFrom(c, params, start, 0)
    decreases 2, 1
  {
    var delta := if "time" !in Names(params) then 6 else 24;
    var back: nat := 0;
    while back < 30
      invariant delta == Step(params)
      invariant LatestFrom(c, params, start, back) == LatestFrom(c, params, start, 0)
      decreases 30 - back
    {
      var available := ProbeCandidate(c, params, start, back);
      if available.Err? {
        return Err(available.error);
      }
      if available.value {
        return Ok(start - back);
      }
      back := back + delta;
    }
    LatestFromDone(c, params, start, back);
    r := Err(NoLatest);
  }

  /** latest's first step: the start date of the newest run, or the error that fetching it raises. */
  lemma LatestSpecStart(c: Client, params: Dict<Value>, start: Result<int, Error>)
    requires start == c.remote.startDate(LookupOr(params, "time", Num(18)))
    ensures start.Err? ==> LatestSpec(c, params) == Err(start.error)
    ensures start.Ok? ==> LatestSpec(c, params) == LatestFrom(c, params, start.value, 0)
  {
  }

  /** latest's loop past start - 30h: no run was found. */
  lemma LatestFromDone(c: Client, params: Dict<Value>, start: int, back: nat)
    requires back >= 30
    ensures LatestFrom(c, params, start, back) == Err(NoLatest)
  {
  }

  /** The product loop of _get_urls: each entry's URL once, in first-occurrence order, and its date. */
  method CollectUrls(remote: Remote, names: seq<string>, combos: seq<seq<Value>>)
    returns (r: Result<(seq<string>, seq<int>), Error>)
    ensures Collect(remote, names, combos).Err? ==> r == Collect(remote, names, combos)
    ensures Collect(remote, names, combos).Ok? ==>
      r == Ok((Dedup(Collect(remote, names, combos).value.0), Collect(remote, names, combos).value.1))
  {
    var seen: set<string> := {};
    var dataUrls: seq<string> := [];
    var dates: seq<int> := [];
    ghost var raw: seq<string> := [];
    var k := 0;
    while k < |combos|
      invariant 0 <= k <= |combos|
      invariant Collect(remote, names, combos[..k]) == Ok((raw, dates))
      invariant dataUrls == Dedup(raw)
      invariant forall x :: x in seen <==> x in raw
    {
      assert combos[..k + 1][..k] == combos[..k];
      var entry := remote.format(Zip(names, combos[k]));
      if entry.Err? {
        CollectStops(remote, names, combos, k + 1);
        return Err(entry.error);
      }
      var (url, date) := entry.value;
      dates := InsertSorted(date, dates);
      if url !in seen {
        dataUrls := dataUrls + [url];
        seen := seen + {url};
      }
      assert (raw + [url])[..|raw|] == raw;
      raw := raw + [url];
      k := k + 1;
    }
    assert combos[..k] == combos;
    r := Ok((dataUrls, dates));
  }

  /** _get_urls(request, use_index, target). */
  method GetUrls(c: Client, params: Dict<Value>, target: Value, useIndex: bool) returns (r: Result<UrlsResult, Error>)
    ensures r == GetUrlsSpec(c, params, target, useIndex)
    decreases if "date" in Names(params) then 0 else 3
  {
    var ps := params;
    if "date" !in Names(ps) {
      var latest := Latest(c, ps);
      if latest.Err? {
        return Err(latest.error);
      }
      ps := Put(ps, "date", When(latest.value));
    }
    r := GetDatedUrls(c, ps, target, useIndex);
  }

  /** The rest of _get_urls once the request has a date: the target, the expansion and the index. */
  method GetDatedUrls(c: Client, params: Dict<Value>, target: Value, useIndex: bool) returns (r: Result<UrlsResult, Error>)
    ensures r == UrlsFor(c, params, target, useIndex)
  {
    var ps := params;
    var target' := target;
    if target' == Nil {
      target' := LookupOr(ps, "target", Nil);
      ps := Remove(ps, "target");
    }
    var prepared := c.remote.prepare(ps);
    if prepared.Err? {
      return Err(prepared.error);
    }
    var forUrls := Put(prepared.value.0, "_url", [Str(c.url)]);
    var forIndex := prepared.value.1;
    var collected := CollectUrls(c.remote, Names(forUrls), Product(Values(forUrls)));
    if collected.Err? {
      return Err(collected.error);
    }
    var urls := Plain(collected.value.0);
    if forIndex != [] && useIndex {
      var parts, warnings := GetParts(c, collected.value.0, forIndex);
      if parts.Err? {
        return Err(parts.error);
      }
      urls := Indexed(parts.value);
    }
    r := Ok(UrlsResult(urls, target', collected.value.1, forUrls, forIndex));
  }

  // ---------------------------------------------------------------- properties of latest

  /** The candidates are newest first, `step` hours apart, and strictly later than start - 30h. */
  lemma {:induction false} CandidatesShape(start: int, step: nat, back: nat)
    requires step > 0
    ensures var cs := Candidates(start, step, back);
      (cs != [] <==> back < 30) && (cs != [] ==> cs[0] == start - back) &&
      (forall i :: 0 <= i < |cs| ==> start - 30 < cs[i] <= start - back) &&
      (forall i :: 0 <= i < |cs| - 1 ==> cs[i + 1] == cs[i] - step)
    decreases 30 - back
  {
    if back < 30 {
      CandidatesShape(start, step, back + step);
      var cs := Candidates(start, step, back);
      assert forall i :: 1 <= i < |cs| ==> cs[i] == Candidates(start, step, back + step)[i - 1];
    }
  }

  /** Five candidates at the 6-hour step, two at the daily step. */
  lemma CandidateCount(start: int)
    ensures Candidates(start, 6, 0) == [start, start - 6, start - 12, start - 18, start - 24]
    ensures Candidates(start, 24, 0) == [start, start - 24]
  {
    assert Candidates(start, 6, 24) == [start - 24];
    assert Candidates(start, 6, 12) == [start - 12, start - 18, start - 24];
    assert Candidates(start, 24, 24) == [start - 24];
  }

  /** The search returns the first candidate, newest first, whose probe is true; every newer
      candidate was probed and found incomplete. */
  lemma {:induction false} SearchReturnsNewestAvailable(probe: int -> Result<bool, Error>, start: int, step: nat, back: nat, d: int)
    requires step > 0 && Search(probe, start, step, back) == Ok(d)
    ensures d in Candidates(start, step, back) && probe(d) == Ok(true)
    ensures forall e :: e in Candidates(start, step, back) && e > d ==> probe(e) == Ok(false)
    decreases 30 - back
  {
    assert back < 30 && probe(start - back).Ok?;
    var cs := Candidates(start, step, back);
    var rest := Candidates(start, step, back + step);
    assert cs == [start - back] + rest;
    if probe(start - back) == Ok(false) {
      SearchReturnsNewestAvailable(probe, start, step, back + step, d);
    } else {
      CandidatesShape(start, step, back);
      assert forall e :: e in cs ==> e <= d by {
        forall e | e in cs ensures e <= d {
          var i :| 0 <= i < |cs| && cs[i] == e;
        }
      }
    }
  }

  /** When every probe completes, the search raises "Cannot etablish latest date" exactly when no
      candidate is available. */
  lemma {:induction false} SearchRaisesIff(probe: int -> Result<bool, Error>, start: int, step: nat, back: nat)
    requires step > 0
    requires forall d :: d in Candidates(start, step, back) ==> probe(d).Ok?
    ensures Search(probe, start, step, back) == Err(NoLatest) <==>
      forall d :: d in Candidates(start, step, back) ==> probe(d) == Ok(false)
    decreases 30 - back
  {
    if back < 30 {
      var cs := Candidates(start, step, back);
      assert forall d :: d in cs <==> d == start - back || d in Candidates(start, step, back + step);
      SearchRaisesIff(probe, start, step, back + step);
    }
  }

  lemma {:induction false} LatestFromIsSearch(c: Client, params: Dict<Value>, start: int, back: nat)
    ensures LatestFrom(c, params, start, back) == Search(Probes(c, params), start, Step(params), back)
    decreases 30 - back
  {
    if back < 30 {
      SearchStep(Probes(c, params), start, Step(params), back, Probe(c, params, start - back));
      LatestFromIsSearch(c, params, start, back + Step(params));
    }
  }

  /** latest is the search over the candidates from the start on, 6 hours apart without a "time" in
      the request and a day apart with one, each probed by expanding the request for that date. */
  lemma LatestIsSearch(c: Client, params: Dict<Value>)
    ensures Step(params) == (if "time" !in Names(params) then 6 else 24)
    ensures c.remote.startDate(LookupOr(params, "time", Num(18))).Err? ==>
      LatestSpec(c, params) == Err(c.remote.startDate(LookupOr(params, "time", Num(18))).error)
    ensures c.remote.startDate(LookupOr(params, "time", Num(18))).Ok? ==>
      var start := c.remote.startDate(LookupOr(params, "time", Num(18))).value;
      LatestSpec(c, params) == Search(Probes(c, params), start, Step(params), 0)
  {
    if c.remote.startDate(LookupOr(params, "time", Num(18))).Ok? {
      LatestFromIsSearch(c, params, c.remote.startDate(LookupOr(params, "time", Num(18))).value, 0);
    }
  }

  /** A probe succeeds exactly when the date's URL list is non-empty and every HEAD answers 200. */
  lemma ProbeTrueIff(c: Client, params: Dict<Value>, date: int)
    requires ProbeCall(params, date).Ok?
    requires UrlsFor(c, ProbeCall(params, date).value.0, ProbeCall(params, date).value.1, false).Ok?
    ensures var urls := UrlsFor(c, ProbeCall(params, date).value.0, ProbeCall(params, date).value.1, false).value.urls;
      urls.Plain? &&
      (Probe(c, params, date) == Ok(true) <==>
        |urls.list| > 0 && forall k :: 0 <= k < |urls.list| ==> c.remote.head(urls.list[k]) == 200)
  {
  }

  /** download(request, target): the plain URLs of the request handed to the transport, which
      returns the size written. */
  method Download(c: Client, request: Dict<Value>, target: Value, transfer: (Urls, Value) -> Result<int, Error>)
    returns (r: Result<(UrlsResult, int), Error>)
    ensures GetUrlsSpec(c, request, target, false).Err? ==> r == Err(GetUrlsSpec(c, request, target, false).error)
    ensures GetUrlsSpec(c, request, target, false).Ok? ==>
      var result := GetUrlsSpec(c, request, target, false).value;
      && result.urls.Plain?
      && r == (match transfer(result.urls, result.target) case Ok(size) => Ok((result, size)) case Err(e) => Err(e))
  {
    var result := GetUrls(c, request, target, false);
    if result.Err? {
      return Err(result.error);
    }
    var size := transfer(result.value.urls, result.value.target);
    if size.Err? {
      return Err(size.error);
    }
    r := Ok((result.value, size.value));
  }

  /** retrieve(request, target): as download, but narrowed to the index's byte ranges. */
  method Retrieve(c: Client, request: Dict<Value>, target: Value, transfer: (Urls, Value) -> Result<int, Error>)
    returns (r: Result<(UrlsResult, int), Error>)
    ensures GetUrlsSpec(c, request, target, true).Err? ==> r == Err(GetUrlsSpec(c, request, target, true).error)
    ensures GetUrlsSpec(c, request, target, true).Ok? ==>
      var result := GetUrlsSpec(c, request, target, true).value;
      && (result.urls.Indexed? <==> result.forIndex != [])
      && r == (match transfer(result.urls, result.target) case Ok(size) => Ok((result, size)) case Err(e) => Err(e))
  {
    var result := GetUrls(c, request, target, true);
    if result.Err? {
      return Err(result.error);
    }
    var size := transfer(result.value.urls, result.value.target);
    if size.Err? {
      return Err(size.error);
    }
    r := Ok((result.value, size.value));
  }
}
