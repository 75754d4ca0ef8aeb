/**
 * ingest/modis/pymodis.py: the MODIS listing helpers. `urljoin`, the anchor collection of the
 * directory-listing parser with its date and tile filters, the date check of ModisDownloader and the
 * enumeration of grid labels between integer tile bounds.
 */
module Modis {
  import opened Wrappers
  import opened Errors
  import opened DateUtils
  import opened Strings

  // ---------------------------------------------------------------- urljoin

  /** `"/".join([str(x).rstrip('/') for x in args])`. */
  function UrlJoin(args: seq<string>): string
  {
    Join(seq(|args|, k requires 0 <= k < |args| => RStrip(args[k], '/')), "/")
  }

  lemma RStripKeeps(s: string)
    requires s == [] || s[|s| - 1] != '/'
    ensures RStrip(s, '/') == s
  {
  }

  lemma RStripNoSlash(s: string)
    requires '/' !in s
    ensures RStrip(s, '/') == s
  {
    assert s != [] ==> s[|s| - 1] in s;
    RStripKeeps(s);
  }

  lemma JoinThree(x: string, y: string, z: string)
    ensures Join([x, y, z], "/") == x + "/" + y + "/" + z
  {
    assert [x, y, z][1..] == [y, z] && [y, z][1..] == [z];
    assert Join([y, z], "/") == y + "/" + z;
  }

  lemma UrlJoinPieces(a: string, b: string, c: string)
    ensures UrlJoin([a, b, c]) == Join([RStrip(a, '/'), RStrip(b, '/'), RStrip(c, '/')], "/")
  {
    var pieces := seq(3, k requires 0 <= k < 3 => RStrip([a, b, c][k], '/'));
    assert pieces == [RStrip(a, '/'), RStrip(b, '/'), RStrip(c, '/')];
  }

  /** Three pieces are joined by single slashes after their trailing slashes are stripped; a leading
      slash of a later piece is kept, giving a double slash. */
  lemma UrlJoinThree(a: string, b: string, c: string)
    ensures UrlJoin([a, b, c]) == RStrip(a, '/') + "/" + RStrip(b, '/') + "/" + RStrip(c, '/')
    ensures b != [] && b[0] == '/' && a != [] && a[|a| - 1] != '/' ==> UrlJoin([a, b, c])[|a|..|a| + 2] == "//"
  {
    UrlJoinPieces(a, b, c);
    var x, y, z := RStrip(a, '/'), RStrip(b, '/'), RStrip(c, '/');
    JoinThree(x, y, z);
    if b != [] && b[0] == '/' && a != [] && a[|a| - 1] != '/' {
      assert |x| == |a|;
      assert y != [] ==> y[0] == '/';
      var u := x + "/" + y + "/" + z;
      assert u[|a|] == '/';
      if y == [] {
        assert u[|a| + 1] == '/';
      } else {
        assert u[|a| + 1] == y[0];
      }
    }
  }

  /** Slash-free pieces come back out when the joined URL is split at its slashes. */
  lemma UrlJoinSplit(args: seq<string>)
    requires |args| >= 1 && forall k :: 0 <= k < |args| ==> '/' !in args[k]
    ensures Split(UrlJoin(args), '/') == args
  {
    var pieces := seq(|args|, k requires 0 <= k < |args| => RStrip(args[k], '/'));
    forall k | 0 <= k < |args| ensures pieces[k] == args[k] {
      RStripNoSlash(args[k]);
    }
    assert pieces == args;
    SplitJoin(args, '/');
  }

  // ---------------------------------------------------------------- the listing parser

  /** One start tag as html.parser reports it: the lower-cased name, then the attributes in order,
      each with its value or None for an attribute written without one. */
  datatype StartTag = StartTag(tag: string, attrs: seq<(string, Option<string>)>)

  /** `dict(attrs)[key]`: the last attribute of that name wins. */
  function AttrLookup(attrs: seq<(string, Option<string>)>, key: string): (r: Result<Option<string>, Error>)
    ensures r.Ok? <==> exists k :: 0 <= k < |attrs| && attrs[k].0 == key
    ensures r.Err? ==> r.error == KeyError(key)
  {
    if attrs == [] then Err(KeyError(key))
    else if attrs[|attrs| - 1].0 == key then Ok(attrs[|attrs| - 1].1)
    else
      var r := AttrLookup(attrs[..|attrs| - 1], key);
      assert forall k :: 0 <= k < |attrs| - 1 ==> attrs[..|attrs| - 1][k] == attrs[k];
      r
  }

  /** The value of a tag's last href attribute, or "" when it has none or none with a value. */
  function HrefOf(t: StartTag): string
  {
    match AttrLookup(t.attrs, "href")
    case Ok(Some(href)) => href
    case _ => ""
  }

  /** What handle_starttag records for a tag: for an "a" tag its href with every "/" removed; an
      anchor without href raises KeyError, one whose href has no value AttributeError. */
  function Anchor(t: StartTag): (r: Result<Option<string>, Error>)
    ensures t.tag != "a" ==> r == Ok(None)
    ensures r.Ok? && r.value.Some? ==> t.tag == "a" && '/' !in r.value.value
    ensures t.tag == "a" && r.Ok? ==> r.value.Some?
    ensures t.tag == "a" ==>
      (r.Ok? <==> AttrLookup(t.attrs, "href").Ok? && AttrLookup(t.attrs, "href").value.Some?)
    ensures t.tag == "a" && r.Ok? ==> r.value.value == RemoveChar(HrefOf(t), '/')
    ensures t.tag == "a" && AttrLookup(t.attrs, "href").Err? ==> r == Err(KeyError("href"))
    ensures t.tag == "a" && AttrLookup(t.attrs, "href") == Ok(None) ==> r == Err(AttributeError)
  {
    if t.tag != "a" then Ok(None)
    else match AttrLookup(t.attrs, "href")
      case Err(e) => Err(e)
      case Ok(None) => Err(AttributeError)
      case Ok(Some(href)) => Ok(Some(RemoveChar(href, '/')))
  }

  /** Feeding a listing: the ids recorded before the first tag that raises, and that error. */
  function Scan(tags: seq<StartTag>): (Outcome<Error>, seq<string>)
  {
    if tags == [] then (Pass, [])
    else match Anchor(tags[0])
      case Err(e) => (Fail(e), [])
      case Ok(id) =>
        var rest := Scan(tags[1..]);
        (rest.0, (if id.Some? then [id.value] else []) + rest.1)
  }

  /** The ids one tag adds to the list when it does not raise. */
  function Recorded(t: StartTag): seq<string>
  {
    if Anchor(t).Ok? && Anchor(t).value.Some? then [Anchor(t).value.value] else []
  }

  /** Feeding the listing from tag `i` on is handling tag `i`, then feeding the rest. */
  lemma ScanStep(tags: seq<StartTag>, i: nat)
    requires i < |tags|
    ensures Anchor(tags[i]).Err? ==> Scan(tags[i..]) == (Fail(Anchor(tags[i]).error), [])
    ensures Anchor(tags[i]).Ok? ==>
      Scan(tags[i..]) == (Scan(tags[i + 1..]).0, Recorded(tags[i]) + Scan(tags[i + 1..]).1)
  {
    assert tags[i..][0] == tags[i] && tags[i..][1..] == tags[i + 1..];
  }

  /** The "a" tags of a listing, in order. */
  function Anchors(tags: seq<StartTag>): seq<StartTag>
  {
    if tags == [] then [] else (if tags[0].tag == "a" then [tags[0]] else []) + Anchors(tags[1..])
  }

  /** A listing feeds without error exactly when each of its "a" tags carries an href with a value;
      it then records one slash-free id per "a" tag, in order. */
  lemma {:induction false} ScanRecordsAnchors(tags: seq<StartTag>)
    ensures Scan(tags).0.Pass? <==> forall k :: 0 <= k < |tags| && tags[k].tag == "a" ==> Anchor(tags[k]).Ok?
    ensures Scan(tags).0.Pass? ==> |Scan(tags).1| == |Anchors(tags)|
    ensures forall k :: 0 <= k < |Scan(tags).1| ==> '/' !in Scan(tags).1[k]
  {
    if tags != [] {
      ScanRecordsAnchors(tags[1..]);
      assert forall k :: 1 <= k < |tags| ==> tags[k] == tags[1..][k - 1];
      var ids := Scan(tags).1;
      if Anchor(tags[0]).Ok? {
        var rest := Scan(tags[1..]).1;
        var first: seq<string> := if Anchor(tags[0]).value.Some? then [Anchor(tags[0]).value.value] else [];
        assert ids == first + rest;
        forall k | 0 <= k < |ids| ensures '/' !in ids[k] {
          if k >= |first| {
            assert ids[k] == rest[k - |first|];
          }
        }
      }
    }
  }

  /** When feeding does not raise, the k-th recorded id is the href of the k-th "a" tag with every "/"
      removed. */
  lemma {:induction false} ScanRecordsHrefs(tags: seq<StartTag>)
    requires Scan(tags).0.Pass?
    ensures |Scan(tags).1| == |Anchors(tags)|
    ensures forall k :: 0 <= k < |Scan(tags).1| ==> Scan(tags).1[k] == RemoveChar(HrefOf(Anchors(tags)[k]), '/')
  {
    if tags != [] {
      var ids := Scan(tags).1;
      assert Anchor(tags[0]).Ok?;
      ScanRecordsHrefs(tags[1..]);
      var rest := Scan(tags[1..]).1;
      var first := Recorded(tags[0]);
      var heads: seq<StartTag> := if tags[0].tag == "a" then [tags[0]] else [];
      assert ids == first + rest;
      assert Anchors(tags) == heads + Anchors(tags[1..]);
      forall k | 0 <= k < |ids| ensures ids[k] == RemoveChar(HrefOf(Anchors(tags)[k]), '/') {
        if k >= |first| {
          assert ids[k] == rest[k - |first|];
          assert Anchors(tags)[k] == Anchors(tags[1..])[k - |heads|];
        }
      }
    }
  }

  /** ModisHtmlParser: the ids of the anchors of one directory listing. */
  class ModisHtmlParser {
    var fileIds: seq<string>

    /** handle_starttag strips every "/" from an href, so no recorded id holds one. */
    ghost predicate Valid()
      reads this
    {
      forall k :: 0 <= k < |fileIds| ==> '/' !in fileIds[k]
    }

    constructor ()
      ensures fileIds == [] && Valid()
    {
      fileIds := [];
    }

    /** handle_starttag. */
    method HandleStartTag(t: StartTag) returns (r: Outcome<Error>)
      requires Valid()
      modifies this
      ensures Valid()
      ensures r.Fail? <==> Anchor(t).Err?
      ensures r.Fail? ==> r.error == Anchor(t).error
      ensures fileIds == old(fileIds) + Recorded(t)
    {
      if t.tag == "a" {
        var href := AttrLookup(t.attrs, "href");
        if href.Err? {
          return Fail(href.error);
        }
        if href.value.None? {
          return Fail(AttributeError);
        }
        fileIds := fileIds + [RemoveChar(href.value.value, '/')];
      }
      r := Pass;
    }

    /** `self.feed(...)`: the start tags of the listing, handed to handle_starttag one by one. */
    method Feed(tags: seq<StartTag>) returns (r: Outcome<Error>)
      requires Valid()
      modifies this
      ensures Valid()
      ensures r == Scan(tags).0 && fileIds == old(fileIds) + Scan(tags).1
    {
      var i := 0;
      while i < |tags|
        invariant 0 <= i <= |tags| && Valid()
        invariant Scan(tags).0 == Scan(tags[i..]).0
        invariant old(fileIds) + Scan(tags).1 == fileIds + Scan(tags[i..]).1
      {
        ScanStep(tags, i);
        ghost var before := fileIds;
        r := HandleStartTag(tags[i]);
        if r.Fail? {
          assert fileIds + [] == fileIds;
          return;
        }
        assert before + (Recorded(tags[i]) + Scan(tags[i + 1..]).1) == fileIds + Scan(tags[i + 1..]).1;
        i := i + 1;
      }
      r := Pass;
      assert fileIds + [] == fileIds;
    }

    /** get_dates: the distinct ids that match YYYY[/.-]MM[/.-]DD to their end, sorted. */
    method GetDates() returns (dates: seq<string>)
      ensures StrictlySorted(dates)
      ensures forall x :: x in dates <==> x in fileIds && DateId(x)
    {
      var matching := set x | x in fileIds && DateId(x);
      dates := SortedStrings(matching);
    }

    /** get_tiles: the ids of the product's files, optionally restricted to some tiles. */
    method GetTiles(productCode: string, tiles: seq<string>, jpeg: bool) returns (r: Result<seq<string>, Error>)
      ensures r == Tiles(fileIds, productCode, tiles, jpeg)
    {
      var finalList: seq<string> := [];
      var i := 0;
      assert fileIds[0..] == fileIds;
      PrependNil(Tiles(fileIds, productCode, tiles, jpeg));
      while i < |fileIds|
        invariant 0 <= i <= |fileIds|
        invariant Tiles(fileIds, productCode, tiles, jpeg) == Prepend(finalList, Tiles(fileIds[i..], productCode, tiles, jpeg))
      {
        assert fileIds[i..][0] == fileIds[i] && fileIds[i..][1..] == fileIds[i + 1..];
        var found := FileTilesOf(fileIds[i], productCode, tiles, jpeg);
        if found.Err? {
          assert Tiles(fileIds[i..], productCode, tiles, jpeg) == Err(found.error);
          return Err(found.error);
        }
        PrependAppend(finalList, found.value, Tiles(fileIds[i + 1..], productCode, tiles, jpeg));
        finalList := finalList + found.value;
        i := i + 1;
      }
      assert fileIds[i..] == [] && finalList + [] == finalList;
      r := Ok(finalList);
    }
  }

  /** The whole-string pattern `(\d{4})[/.-](\d{2})[/.-](\d{2})$`, where `$` also matches before a
      final newline. */
  predicate DateId(s: string)
  {
    && (|s| == 10 || (|s| == 11 && s[10] == '\n'))
    && IsDigit(s[0]) && IsDigit(s[1]) && IsDigit(s[2]) && IsDigit(s[3])
    && s[4] in "/.-" && IsDigit(s[5]) && IsDigit(s[6])
    && s[7] in "/.-" && IsDigit(s[8]) && IsDigit(s[9])
  }

  /** `date.strftime("%Y.%m.%d")`, the name of a day's directory. */
  function DotDate(d: DateTime): string
    requires Valid(d)
  {
    ZeroPad(d.year, 4) + "." + ZeroPad(d.month, 2) + "." + ZeroPad(d.day, 2)
  }

  /** The directory check_availability_for_date asks for is one that get_dates lists. */
  lemma DotDateIsDateId(d: DateTime)
    requires Valid(d)
    ensures DateId(DotDate(d)) && '/' !in DotDate(d)
  {
    ZeroPadRoundTrip(d.year, 4);
    ZeroPadRoundTrip(d.month, 2);
    ZeroPadRoundTrip(d.day, 2);
    var y, mo, dd := ZeroPad(d.year, 4), ZeroPad(d.month, 2), ZeroPad(d.day, 2);
    var s := DotDate(d);
    assert s[0] == y[0] && s[1] == y[1] && s[2] == y[2] && s[3] == y[3] && s[4] == '.';
    assert s[5] == mo[0] && s[6] == mo[1] && s[7] == '.' && s[8] == dd[0] && s[9] == dd[1];
    forall k | 0 <= k < |s| ensures s[k] != '/' {
      if k != 4 && k != 7 {
        assert IsDigit(s[k]);
      }
    }
  }

  // ---------------------------------------------------------------- get_tiles

  /** The inner loop over the tiles for a file whose "."-components are `name`: the id once per tile
      found at component 3 when jpeg is set, or else at component 2. Reading a component the name does
      not have raises IndexError. */
  function TileHits(name: seq<string>, tiles: seq<string>, jpeg: bool, id: string): Result<seq<string>, Error>
  {
    if tiles == [] then Ok([])
    else if jpeg && |name| <= 3 then Err(IndexError)
    else if jpeg && tiles[0] == name[3] then Prepend([id], TileHits(name, tiles[1..], jpeg, id))
    else if |name| <= 2 then Err(IndexError)
    else if tiles[0] == name[2] then Prepend([id], TileHits(name, tiles[1..], jpeg, id))
    else TileHits(name, tiles[1..], jpeg, id)
  }

  /** What one id contributes to get_tiles. */
  function FileTiles(id: string, productCode: string, tiles: seq<string>, jpeg: bool): Result<seq<string>, Error>
  {
    var name := Split(id, '.');
    if productCode !in name || "xml" in name then Ok([])
    else if tiles == [] then Ok(if "jpg" in name || "BROWSE" in name then [] else [id])
    else TileHits(name, tiles, jpeg, id)
  }

  /** get_tiles over a list of ids, stopping at the first IndexError. */
  function Tiles(ids: seq<string>, productCode: string, tiles: seq<string>, jpeg: bool): Result<seq<string>, Error>
  {
    if ids == [] then Ok([])
    else match FileTiles(ids[0], productCode, tiles, jpeg)
      case Err(e) => Err(e)
      case Ok(found) => Prepend(found, Tiles(ids[1..], productCode, tiles, jpeg))
  }

  /** One pass of get_tiles' outer loop, with its inner loop over the tiles. */
  method FileTilesOf(id: string, productCode: string, tiles: seq<string>, jpeg: bool) returns (r: Result<seq<string>, Error>)
    ensures r == FileTiles(id, productCode, tiles, jpeg)
  {
    var name := Split(id, '.');
    if productCode !in name || "xml" in name {
      return Ok([]);
    }
    var found: seq<string> := [];
    if tiles == [] && !("jpg" in name || "BROWSE" in name) {
      found := [id];
    }
    if tiles != [] {
      var j := 0;
      assert tiles[0..] == tiles;
      PrependNil(TileHits(name, tiles, jpeg, id));
      while j < |tiles|
        invariant 0 <= j <= |tiles|
        invariant TileHits(name, tiles, jpeg, id) == Prepend(found, TileHits(name, tiles[j..], jpeg, id))
      {
        assert tiles[j..][0] == tiles[j] && tiles[j..][1..] == tiles[j + 1..];
        if jpeg && |name| <= 3 {
          return Err(IndexError);
        }
        if jpeg && tiles[j] == name[3] {
          PrependAppend(found, [id], TileHits(name, tiles[j + 1..], jpeg, id));
          found := found + [id];
        } else {
          if |name| <= 2 {
            return Err(IndexError);
          }
          if tiles[j] == name[2] {
            PrependAppend(found, [id], TileHits(name, tiles[j + 1..], jpeg, id));
            found := found + [id];
          }
        }
        j := j + 1;
      }
      assert tiles[j..] == [] && found + [] == found;
    }
    r := Ok(found);
  }

  /** Every id get_tiles returns is one of the listing's, names the product as a "."-component and has
      no "xml" component. */
  lemma {:induction false} TilesOfProduct(ids: seq<string>, productCode: string, tiles: seq<string>, jpeg: bool)
    ensures var r := Tiles(ids, productCode, tiles, jpeg);
      r.Ok? ==> forall x :: x in r.value ==> x in ids && productCode in Split(x, '.') && "xml" !in Split(x, '.')
  {
    if ids != [] {
      TilesOfProduct(ids[1..], productCode, tiles, jpeg);
      var found := FileTiles(ids[0], productCode, tiles, jpeg);
      if found.Ok? && Tiles(ids[1..], productCode, tiles, jpeg).Ok? {
        TileHitsAreId(Split(ids[0], '.'), tiles, jpeg, ids[0]);
        assert forall x :: x in found.value ==> x == ids[0];
        assert forall x :: x in ids[1..] ==> x in ids;
      }
    }
  }

  /** The id repeated: once for every tile matching component 2, plus, with jpeg, once for every tile
      matching a different component 3. Only a name too short for the component read raises. */
  lemma {:induction false} TileHitsAreId(name: seq<string>, tiles: seq<string>, jpeg: bool, id: string)
    ensures var r := TileHits(name, tiles, jpeg, id);
      && (r.Err? <==> tiles != [] && |name| <= (if jpeg then 3 else 2))
      && (r.Ok? ==> forall x :: x in r.value ==> x == id)
      && (r.Ok? && tiles != [] ==> |r.value| == multiset(tiles)[name[2]]
                                    + (if jpeg && name[3] != name[2] then multiset(tiles)[name[3]] else 0))
  {
    if tiles != [] {
      TileHitsAreId(name, tiles[1..], jpeg, id);
      assert tiles == [tiles[0]] + tiles[1..];
      assert multiset(tiles) == multiset{tiles[0]} + multiset(tiles[1..]);
    }
  }

  /** Without tiles, get_tiles keeps, in order, the product's files that are neither xml, jpg nor a
      BROWSE image. */
  lemma {:induction false} TilesWithoutTiles(ids: seq<string>, productCode: string, jpeg: bool)
    ensures Tiles(ids, productCode, [], jpeg) == Ok(HdfIds(ids, productCode))
  {
    if ids != [] {
      TilesWithoutTiles(ids[1..], productCode, jpeg);
    }
  }

  /** A product file that is neither xml, a jpg nor a BROWSE image. */
  predicate HdfId(id: string, productCode: string)
  {
    var name := Split(id, '.');
    productCode in name && "xml" !in name && "jpg" !in name && "BROWSE" !in name
  }

  /** The ids satisfying HdfId, in order. */
  function HdfIds(ids: seq<string>, productCode: string): (r: seq<string>)
    ensures forall x :: x in r <==> x in ids && HdfId(x, productCode)
  {
    if ids == [] then []
    else (if HdfId(ids[0], productCode) then [ids[0]] else []) + HdfIds(ids[1..], productCode)
  }

  // ---------------------------------------------------------------- ModisDownloader

  /** The settings of a ModisDownloader (the bearer token is kept as given). */
  datatype ModisDownloader = ModisDownloader(authToken: string, baseUrl: string, productPath: string,
                                             productCode: string, productVersion: string,
                                             productCodeWithVersion: string, dataPath: string)

  /** ModisDownloader.__init__; an empty product version stands for None. */
  function NewModisDownloader(authToken: string, productCode: string, baseUrl: string, productPath: string,
                              productVersion: string): (m: ModisDownloader)
    ensures m.productCodeWithVersion == if productVersion == "" then productCode else productCode + "." + productVersion
    ensures m.dataPath == UrlJoin([productPath, m.productCodeWithVersion])
  {
    var withVersion := if productVersion == "" then productCode else productCode + "." + productVersion;
    ModisDownloader(authToken, baseUrl, productPath, productCode, productVersion, withVersion,
                    UrlJoin([productPath, withVersion]))
  }

  const DefaultBaseUrl := "https://e4ftl01.cr.usgs.gov"
  const DefaultProductPath := "MOLA"

  /** check_availability_for_date, given the status `requests.get` answers for a URL: (False, url) on
      404, (True, url) on any status below 400, HTTPError for the other error statuses. */
  function CheckAvailability(m: ModisDownloader, date: string, status: string -> int): (r: Result<(bool, string), Error>)
    ensures FromIsoFormat(date).Err? ==> r == Err(FromIsoFormat(date).error)
    ensures FromIsoFormat(date).Ok? ==>
      var url := UrlJoin([m.baseUrl, m.dataPath, DotDate(FromIsoFormat(date).value)]);
      && (r == Ok((false, url)) <==> status(url) == 404)
      && (r == Ok((true, url)) <==> !RaisesForStatus(status(url)))
      && (r.Err? <==> RaisesForStatus(status(url)) && status(url) != 404)
      && (r.Err? ==> r.error == HttpError(status(url)))
  {
    match FromIsoFormat(date)
    case Err(e) => Err(e)
    case Ok(d) =>
      var url := UrlJoin([m.baseUrl, m.dataPath, DotDate(d)]);
      var s := status(url);
      if s == 404 then Ok((false, url))
      else if RaisesForStatus(s) then Err(HttpError(s))
      else Ok((true, url))
  }

  /** `urljoin(product_path, code)` for slash-free pieces, which keeps its last character. */
  lemma DataPathOf(productPath: string, code: string)
    requires '/' !in productPath && '/' !in code && code != ""
    ensures UrlJoin([productPath, code]) == productPath + "/" + code
    ensures RStrip(productPath + "/" + code, '/') == productPath + "/" + code
  {
    RStripNoSlash(productPath);
    RStripNoSlash(code);
    var pieces := seq(2, k requires 0 <= k < 2 => RStrip([productPath, code][k], '/'));
    assert pieces == [productPath, code];
    assert pieces[1..] == [code];
    assert Join(pieces, "/") == productPath + "/" + Join([code], "/");
    var p := productPath + "/" + code;
    assert code[|code| - 1] in code;
    assert p[|p| - 1] == code[|code| - 1];
    RStripKeeps(p);
  }

  lemma CodeWithVersion(productCode: string, productVersion: string)
    requires '/' !in productCode && '/' !in productVersion && productCode != ""
    ensures var code := productCode + (if productVersion == "" then "" else "." + productVersion);
      '/' !in code && code != ""
  {
    var code := productCode + (if productVersion == "" then "" else "." + productVersion);
    forall k | 0 <= k < |code| ensures code[k] != '/' {
      if k < |productCode| {
        assert code[k] == productCode[k];
      } else if k > |productCode| {
        assert code[k] == productVersion[k - |productCode| - 1];
      }
    }
  }

  /** For slash-free settings the URL check_availability_for_date asks for is
      `base/path/code.version/YYYY.MM.DD` (`base/path/code/YYYY.MM.DD` without a version: see
      NewModisDownloader). */
  lemma AvailabilityUrl(authToken: string, productCode: string, baseUrl: string, productPath: string,
                        productVersion: string, d: DateTime)
    requires '/' !in productPath && '/' !in productCode && '/' !in productVersion && productCode != ""
    requires baseUrl == [] || baseUrl[|baseUrl| - 1] != '/'
    requires Valid(d)
    ensures var m := NewModisDownloader(authToken, productCode, baseUrl, productPath, productVersion);
      UrlJoin([m.baseUrl, m.dataPath, DotDate(d)])
        == baseUrl + "/" + productPath + "/" + m.productCodeWithVersion + "/" + DotDate(d)
  {
    var code := productCode + (if productVersion == "" then "" else "." + productVersion);
    CodeWithVersion(productCode, productVersion);
    var m := NewModisDownloader(authToken, productCode, baseUrl, productPath, productVersion);
    assert m.productCodeWithVersion == code by {
      if productVersion == "" {
        assert productCode + "" == productCode;
      }
    }
    DotDateIsDateId(d);
    JoinedUrl(baseUrl, productPath, code, DotDate(d));
  }

  lemma JoinedUrl(baseUrl: string, productPath: string, code: string, z: string)
    requires '/' !in productPath && '/' !in code && code != "" && '/' !in z
    requires baseUrl == [] || baseUrl[|baseUrl| - 1] != '/'
    ensures UrlJoin([baseUrl, UrlJoin([productPath, code]), z]) == baseUrl + "/" + productPath + "/" + code + "/" + z
  {
    DataPathOf(productPath, code);
    var y := productPath + "/" + code;
    RStripNoSlash(z);
    RStripKeeps(baseUrl);
    UrlJoinThree(baseUrl, y, z);
    SlashAssociative(baseUrl, productPath, code, z);
  }

  lemma SlashAssociative(a: string, b: string, c: string, d: string)
    ensures a + "/" + (b + "/" + c) + "/" + d == a + "/" + b + "/" + c + "/" + d
  {
  }

  // ---------------------------------------------------------------- get_modland_grids

  /** `f"{n:02d}"`: at least two digits for n >= 0; a minus sign and the digits otherwise. */
  function Format02(n: int): string
  {
    if n >= 0 then ZeroPad(n, 2) else "-" + NatToString(-n)
  }

  /** The label get_modland_grids writes for the cell (iv, ih): `f'h{iv:02d}v{ih:02d}'`. */
  function WrittenLabel(iv: int, ih: int): string
  {
    "h" + Format02(iv) + "v" + Format02(ih)
  }

  /** The name MODIS gives the tile at vertical index iv and horizontal index ih: `hHHvVV`. */
  function TileLabel(iv: int, ih: int): string
  {
    "h" + Format02(ih) + "v" + Format02(iv)
  }

  /** The number of values in range(lo, hi + 1). */
  function Width(lo: int, hi: int): nat
  {
    if hi >= lo then hi - lo + 1 else 0
  }

  /** One row of the enumeration: the cells (iv, ihMin), ..., (iv, ihMin + w - 1). */
  function GridRow(cell: (int, int) -> string, iv: int, ihMin: int, w: nat): seq<string>
  {
    seq(w, j requires 0 <= j < w => cell(iv, ihMin + j))
  }

  /** `rows` rows starting at `iv`, in row-major order. */
  function GridRows(cell: (int, int) -> string, iv: int, rows: nat, ihMin: int, w: nat): seq<string>
    decreases rows
  {
    if rows == 0 then [] else GridRow(cell, iv, ihMin, w) + GridRows(cell, iv + 1, rows - 1, ihMin, w)
  }

  lemma {:induction false} GridRowsSnoc(cell: (int, int) -> string, iv: int, rows: nat, ihMin: int, w: nat)
    ensures GridRows(cell, iv, rows + 1, ihMin, w) == GridRows(cell, iv, rows, ihMin, w) + GridRow(cell, iv + rows, ihMin, w)
    decreases rows
  {
    if rows > 0 {
      GridRowsSnoc(cell, iv + 1, rows - 1, ihMin, w);
      assert GridRows(cell, iv, rows + 1, ihMin, w)
          == GridRow(cell, iv, ihMin, w) + GridRows(cell, iv + 1, rows, ihMin, w);
    }
  }

  lemma MulSucc(a: nat, w: nat)
    ensures (a + 1) * w == a * w + w
  {
  }

  /** The enumeration has rows * w labels. */
  lemma {:induction false} GridRowsLength(cell: (int, int) -> string, iv: int, rows: nat, ihMin: int, w: nat)
    ensures |GridRows(cell, iv, rows, ihMin, w)| == rows * w
    decreases rows
  {
    if rows > 0 {
      GridRowsLength(cell, iv + 1, rows - 1, ihMin, w);
      MulSucc(rows - 1, w);
    }
  }

  /** Row r of the enumeration comes after the r rows before it. */
  lemma {:induction false} GridRowsSplit(cell: (int, int) -> string, iv: int, rows: nat, ihMin: int, w: nat, r: nat)
    requires r < rows
    ensures GridRows(cell, iv, rows, ihMin, w)
         == GridRows(cell, iv, r, ihMin, w) + GridRow(cell, iv + r, ihMin, w) + GridRows(cell, iv + r + 1, rows - r - 1, ihMin, w)
    decreases r
  {
    if r > 0 {
      GridRowsSplit(cell, iv + 1, rows - 1, ihMin, w, r - 1);
      assert GridRows(cell, iv, r, ihMin, w) == GridRow(cell, iv, ihMin, w) + GridRows(cell, iv + 1, r - 1, ihMin, w);
    }
  }

  /** get_modland_grids from the integer tile bounds on: the loops over range(iv_min, iv_max + 1)
      and range(ih_min, ih_max + 1), with the cell they write. */
  method Enumerate(cell: (int, int) -> string, ivMin: int, ivMax: int, ihMin: int, ihMax: int)
    returns (grids: seq<string>)
    ensures grids == GridRows(cell, ivMin, Width(ivMin, ivMax), ihMin, Width(ihMin, ihMax))
  {
    var w := Width(ihMin, ihMax);
    grids := [];
    var iv := ivMin;
    while iv < ivMax + 1
      invariant ivMin <= iv <= ivMin + Width(ivMin, ivMax)
      invariant grids == GridRows(cell, ivMin, iv - ivMin, ihMin, w)
    {
      var ih := ihMin;
      while ih < ihMax + 1
        invariant ihMin <= ih <= ihMin + w
        invariant grids == GridRows(cell, ivMin, iv - ivMin, ihMin, w) + GridRow(cell, iv, ihMin, ih - ihMin)
      {
        grids := grids + [cell(iv, ih)];
        ih := ih + 1;
      }
      assert ih - ihMin == w;
      GridRowsSnoc(cell, ivMin, iv - ivMin, ihMin, w);
      iv := iv + 1;
    }
    assert iv - ivMin == Width(ivMin, ivMax);
  }

  /** get_modland_grids as written: the cell in row iv and column ih is labelled with iv after "h"
      and ih after "v"; there are (iv_max - iv_min + 1) * (ih_max - ih_min + 1) labels, row-major. */
  method ModlandGridsAsWritten(ivMin: int, ivMax: int, ihMin: int, ihMax: int) returns (grids: seq<string>)
    ensures |grids| == Width(ivMin, ivMax) * Width(ihMin, ihMax)
    ensures grids == GridRows(WrittenLabel, ivMin, Width(ivMin, ivMax), ihMin, Width(ihMin, ihMax))
  {
    grids := Enumerate(WrittenLabel, ivMin, ivMax, ihMin, ihMax);
    GridRowsLength(WrittenLabel, ivMin, Width(ivMin, ivMax), ihMin, Width(ihMin, ihMax));
  }

  /** get_modland_grids as evidently intended: the same row-major enumeration, each cell named as
      MODIS names its tile; within the 36 x 18 grid a label reads back as the horizontal index after
      "h" and the vertical index after "v". */
  method ModlandGrids(ivMin: int, ivMax: int, ihMin: int, ihMax: int) returns (grids: seq<string>)
    ensures |grids| == Width(ivMin, ivMax) * Width(ihMin, ihMax)
    ensures grids == GridRows(TileLabel, ivMin, Width(ivMin, ivMax), ihMin, Width(ihMin, ihMax))
  {
    grids := Enumerate(TileLabel, ivMin, ivMax, ihMin, ihMax);
    GridRowsLength(TileLabel, ivMin, Width(ivMin, ivMax), ihMin, Width(ihMin, ihMax));
  }

  /** Within the grid, a tile's label is six characters and reads back as its two indices. */
  lemma TileLabelReadsBack(iv: int, ih: int)
    requires 0 <= iv < 18 && 0 <= ih < 36
    ensures var s := TileLabel(iv, ih);
      && |s| == 6 && s[0] == 'h' && s[3] == 'v'
      && DigitsAt(s, 1, 2) && NumberAt(s, 1, 2) == ih && DigitsAt(s, 4, 2) && NumberAt(s, 4, 2) == iv
  {
    ZeroPadRoundTrip(ih, 2);
    ZeroPadRoundTrip(iv, 2);
    var s := TileLabel(iv, ih);
    assert s[1..3] == ZeroPad(ih, 2);
    assert s[4..6] == ZeroPad(iv, 2);
  }

  /** As written, the cell at vertical index 8 and horizontal index 21 is labelled "h08v21", a "v"
      number outside the 18 rows of the grid, where MODIS names that tile "h21v08". */
  lemma SwappedLabel()
    ensures WrittenLabel(8, 21) == "h08v21"
    ensures TileLabel(8, 21) == "h21v08"
  {
    assert NatToString(2) == "2";
    assert NatToString(21) == "21";
    assert NatToString(8) == "8";
  }
}
