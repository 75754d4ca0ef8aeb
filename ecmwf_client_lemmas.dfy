/**
 * What ECWMFPatchedClient's _get_urls and get_parts promise (ingest/ecmwf_opendata/client.py), stated
 * against independent descriptions of the request's product, the index records and the values seen.
 */
module EcmwfClientLemmas {
  import opened Wrappers
  import opened Errors
  import opened EcmwfRequest
  import opened EcmwfClient
  import Strings

  // ---------------------------------------------------------------- _get_urls

  /** What each product entry formats to, in product order. */
  function Formatted(remote: Remote, names: seq<string>, combos: seq<seq<Value>>): seq<Result<(string, int), Error>>
  {
    seq(|combos|, k requires 0 <= k < |combos| => remote.format(Zip(names, combos[k])))
  }

  /** What each entry of the product of for_urls formats to. */
  function Entries(c: Client, forUrls: Coords): seq<Result<(string, int), Error>>
  {
    Formatted(c.remote, Names(forUrls), Product(Values(forUrls)))
  }

  predicate AllFormatted(es: seq<Result<(string, int), Error>>)
  {
    forall k :: 0 <= k < |es| ==> es[k].Ok?
  }

  function EntryUrls(es: seq<Result<(string, int), Error>>): seq<string>
    requires AllFormatted(es)
  {
    seq(|es|, k requires 0 <= k < |es| => es[k].value.0)
  }

  function EntryDates(es: seq<Result<(string, int), Error>>): seq<int>
    requires AllFormatted(es)
  {
    seq(|es|, k requires 0 <= k < |es| => es[k].value.1)
  }

  /** The product loop succeeds exactly when every entry formats, and then lists the entries' URLs in
      product order and their dates as an ascending set. */
  lemma CollectListing(remote: Remote, names: seq<string>, combos: seq<seq<Value>>)
    ensures Collect(remote, names, combos).Ok? <==> AllFormatted(Formatted(remote, names, combos))
    ensures Collect(remote, names, combos).Ok? ==>
      var es := Formatted(remote, names, combos);
      && Collect(remote, names, combos).value.0 == EntryUrls(es)
      && Increasing(Collect(remote, names, combos).value.1)
      && (forall d :: d in Collect(remote, names, combos).value.1 <==> d in EntryDates(es))
  {
    var es := Formatted(remote, names, combos);
    if AllFormatted(es) {
      forall k | 0 <= k < |combos| ensures remote.format(Zip(names, combos[k])).Ok? {
        assert es[k] == remote.format(Zip(names, combos[k]));
      }
    }
    if Collect(remote, names, combos).Ok? {
      var collected := Collect(remote, names, combos).value;
      assert AllFormatted(es);
      assert collected.0 == EntryUrls(es);
      forall d ensures d in collected.1 <==> d in EntryDates(es) {
        if d in collected.1 {
          var k :| 0 <= k < |combos| && remote.format(Zip(names, combos[k])).value.1 == d;
          assert EntryDates(es)[k] == d;
        }
        if d in EntryDates(es) {
          var k :| 0 <= k < |es| && EntryDates(es)[k] == d;
          assert remote.format(Zip(names, combos[k])).value.1 == d;
        }
      }
    }
  }

  /** The URLs of _get_urls are those of the product entries, each exactly once, in the order of their
      first occurrence; its dates are the entries' dates, ascending; for_urls carries `_url`. */
  lemma ExpandListing(c: Client, params: Dict<Value>, target: Value)
    requires Expand(c, params, target).Ok?
    ensures var r := Expand(c, params, target).value;
      var es := Entries(c, r.forUrls);
      && AllFormatted(es)
      && |es| == SizeOf(Values(r.forUrls))
      && r.urls.Plain?
      && Distinct(r.urls.list)
      && (forall u :: u in r.urls.list <==> u in EntryUrls(es))
      && (forall i, j :: 0 <= i < j < |r.urls.list| ==>
            FirstIndex(EntryUrls(es), r.urls.list[i]) < FirstIndex(EntryUrls(es), r.urls.list[j]))
      && Increasing(r.dates)
      && (forall d :: d in r.dates <==> d in EntryDates(es))
      && "_url" in Names(r.forUrls) && LookupOr(r.forUrls, "_url", []) == [Str(c.url)]
  {
    var r := Expand(c, params, target).value;
    var params' := if target == Nil then Remove(params, "target") else params;
    var prepared := c.remote.prepare(params').value;
    var forUrls := WithUrl(c, prepared.0);
    var combos := Product(Values(forUrls));
    var collected := Collect(c.remote, Names(forUrls), combos).value;
    assert r.urls == Plain(Dedup(collected.0)) && r.dates == collected.1 && r.forUrls == forUrls;
    CollectListing(c.remote, Names(forUrls), combos);
    DedupFirstOccurrenceOrder(collected.0);
    ProductMembers(Values(forUrls), []);
    PutNames(prepared.0, "_url", [Str(c.url)]);
  }

  /** A request with a date is expanded as it is; one without a date is expanded as if latest's
      answer had been added under "date", and latest's error is _get_urls' error. */
  lemma DateFilled(c: Client, params: Dict<Value>, target: Value, useIndex: bool)
    ensures "date" in Names(params) ==> GetUrlsSpec(c, params, target, useIndex) == UrlsFor(c, params, target, useIndex)
    ensures "date" !in Names(params) && LatestSpec(c, params).Err? ==>
      GetUrlsSpec(c, params, target, useIndex) == Err(LatestSpec(c, params).error)
    ensures "date" !in Names(params) && LatestSpec(c, params).Ok? ==>
      var dated := Put(params, "date", When(LatestSpec(c, params).value));
      && Names(dated) == Names(params) + ["date"]
      && LookupOr(dated, "date", Nil) == When(LatestSpec(c, params).value)
      && GetUrlsSpec(c, params, target, useIndex) == GetUrlsSpec(c, dated, target, useIndex)
  {
    if "date" !in Names(params) && LatestSpec(c, params).Ok? {
      PutNames(params, "date", When(LatestSpec(c, params).value));
    }
  }

  // ---------------------------------------------------------------- get_parts: the index URL

  /** A data URL with a one-component extension has its index next to it under ".index". */
  lemma IndexUrlOf(base: string, ext: string)
    requires '/' !in ext && '.' !in ext
    requires HasNameBefore(base, Strings.RFind(base, '/'), |base|)
    ensures IndexUrl(base + "." + ext) == base + ".index"
  {
    SplitextOf(base, ext);
  }

  // ---------------------------------------------------------------- get_parts: one record

  lemma {:induction false} PositionsCount(i: nat, values: seq<Value>, idx: Value)
    ensures |Positions(i, values, idx)| == multiset(values)[idx]
  {
    if values != [] {
      PositionsCount(i, values[..|values| - 1], idx);
      assert values == values[..|values| - 1] + [values[|values| - 1]];
    }
  }

  lemma {:induction false} DistinctCount(values: seq<Value>, x: Value)
    requires Distinct(values)
    ensures multiset(values)[x] == if x in values then 1 else 0
  {
    if values != [] {
      var init := values[..|values| - 1];
      assert values == init + [values[|values| - 1]];
      assert Distinct(init);
      DistinctCount(init, x);
      assert values[|values| - 1] !in init;
    }
  }

  /** With an offset, and duplicate-free value lists when preserving request order, a record collects
      one match per dimension whose value it has, and none for the others. */
  lemma {:induction false} LineMatchesCount(preserve: bool, forIndex: Coords, rec: Record, k: nat)
    requires k <= |forIndex| && rec.offset.Some?
    requires preserve ==> forall i :: 0 <= i < k ==> Distinct(forIndex[i].1)
    ensures LineMatches(preserve, forIndex, rec, k).Ok?
    ensures |LineMatches(preserve, forIndex, rec, k).value| <= k
    ensures |LineMatches(preserve, forIndex, rec, k).value| == k <==>
      forall i :: 0 <= i < k ==> FieldOf(rec, forIndex[i].0) in forIndex[i].1
  {
    if k > 0 {
      LineMatchesCount(preserve, forIndex, rec, k - 1);
      var idx := FieldOf(rec, forIndex[k - 1].0);
      if preserve && idx in forIndex[k - 1].1 {
        PositionsCount(k - 1, forIndex[k - 1].1, idx);
        DistinctCount(forIndex[k - 1].1, idx);
      }
    }
  }

  /** A well-formed record is kept exactly when, for each index dimension, its value is one of the
      requested values, provided the value lists are duplicate-free when preserving request order. */
  lemma LineKeptIff(preserve: bool, forIndex: Coords, rec: Record)
    requires rec.offset.Some? && rec.length.Some?
    requires preserve ==> forall i :: 0 <= i < |forIndex| ==> Distinct(forIndex[i].1)
    ensures LinePart(preserve, forIndex, Some(rec)).Ok?
    ensures LinePart(preserve, forIndex, Some(rec)).value.Some? <==>
      forall i :: 0 <= i < |forIndex| ==> FieldOf(rec, forIndex[i].0) in forIndex[i].1
  {
    LineMatchesCount(preserve, forIndex, rec, |forIndex|);
  }

  /** A repeated requested value makes a record that matches it collect two matches, so in
      preserve-request-order mode the record is dropped, while the offset mode keeps it. */
  lemma DuplicateValueDropsRecord()
    ensures var forIndex: Coords := [("param", [Str("2t"), Str("2t")])];
      var rec := Record(map["param" := Str("2t")], Some(0), Some(10));
      && LinePart(true, forIndex, Some(rec)) == Ok(None)
      && LinePart(false, forIndex, Some(rec)) == Ok(Some(Part([0], (0, 10))))
  {
    var forIndex: Coords := [("param", [Str("2t"), Str("2t")])];
    var rec := Record(map["param" := Str("2t")], Some(0), Some(10));
    assert FieldOf(rec, "param") == Str("2t");
    assert Positions(0, forIndex[0].1, Str("2t")) == [Pos(0, 0), Pos(0, 1)] by {
      assert forIndex[0].1[..1] == [Str("2t")];
      assert forIndex[0].1[..1][..0] == [];
    }
    assert LineMatches(true, forIndex, rec, 0) == Ok([]) && LineMatches(false, forIndex, rec, 0) == Ok([]);
    assert Str("2t") in forIndex[0].1 && forIndex[0].0 == "param";
    assert [] + [Pos(0, 0), Pos(0, 1)] == [Pos(0, 0), Pos(0, 1)] && [] + [Off(0)] == [Off(0)];
    assert LineMatches(true, forIndex, rec, 1) == Ok([Pos(0, 0), Pos(0, 1)]);
    assert LineMatches(false, forIndex, rec, 1) == Ok([Off(0)]);
    assert Flatten([Off(0)]) == [0];
  }

  // ---------------------------------------------------------------- get_parts: all URLs

  /** The URLs of get_parts' result, in order. */
  function UrlsOf(result: seq<(string, seq<Range>)>): seq<string>
  {
    seq(|result|, i requires 0 <= i < |result| => result[i].0)
  }

  lemma UrlsOfAppend(a: seq<(string, seq<Range>)>, b: seq<(string, seq<Range>)>)
    ensures UrlsOf(a + b) == UrlsOf(a) + UrlsOf(b)
  {
    assert forall i :: 0 <= i < |a + b| ==> UrlsOf(a + b)[i] == (UrlsOf(a) + UrlsOf(b))[i];
  }

  /** The data URLs whose index keeps at least one record, in order. */
  function KeptUrls(c: Client, forIndex: Coords, urls: seq<string>): seq<string>
  {
    if urls == [] then []
    else
      var last := urls[|urls| - 1];
      KeptUrls(c, forIndex, urls[..|urls| - 1]) +
        (if KeptParts(c, forIndex, last).Ok? && KeptParts(c, forIndex, last).value != [] then [last] else [])
  }

  /** One step of get_parts' loop over the URLs. */
  lemma UrlsPartsLast(c: Client, forIndex: Coords, urls: seq<string>)
    requires urls != [] && UrlsParts(c, forIndex, urls).Ok?
    ensures UrlsParts(c, forIndex, urls[..|urls| - 1]).Ok? && KeptParts(c, forIndex, urls[|urls| - 1]).Ok?
    ensures var kept := KeptParts(c, forIndex, urls[|urls| - 1]).value;
      UrlsParts(c, forIndex, urls).value == UrlsParts(c, forIndex, urls[..|urls| - 1]).value +
        (if kept == [] then [] else [(urls[|urls| - 1], Ranges(SortParts(kept)))])
  {
  }

  /** get_parts' result is built only when every index was read without an error. */
  lemma {:induction false} UrlsPartsRead(c: Client, forIndex: Coords, urls: seq<string>)
    requires UrlsParts(c, forIndex, urls).Ok?
    ensures forall u :: u in urls ==> KeptParts(c, forIndex, u).Ok?
  {
    if urls != [] {
      var init := urls[..|urls| - 1];
      UrlsPartsLast(c, forIndex, urls);
      UrlsPartsRead(c, forIndex, init);
      forall u | u in urls ensures KeptParts(c, forIndex, u).Ok? {
        var k :| 0 <= k < |urls| && urls[k] == u;
        if k < |urls| - 1 {
          assert init[k] == u;
        }
      }
    }
  }

  /** get_parts keeps exactly the URLs whose index keeps a record, in order. */
  lemma {:induction false} UrlsPartsKept(c: Client, forIndex: Coords, urls: seq<string>)
    requires UrlsParts(c, forIndex, urls).Ok?
    ensures UrlsOf(UrlsParts(c, forIndex, urls).value) == KeptUrls(c, forIndex, urls)
  {
    if urls != [] {
      UrlsPartsLast(c, forIndex, urls);
      UrlsPartsKept(c, forIndex, urls[..|urls| - 1]);
      UrlsOfAppend(UrlsParts(c, forIndex, urls[..|urls| - 1]).value,
        if KeptParts(c, forIndex, urls[|urls| - 1]).value == [] then []
        else [(urls[|urls| - 1], Ranges(SortParts(KeptParts(c, forIndex, urls[|urls| - 1]).value)))]);
    }
  }

  /** Each kept URL carries the ranges of its index's kept records, sorted by match key. */
  lemma {:induction false} UrlsPartsRanges(c: Client, forIndex: Coords, urls: seq<string>)
    requires UrlsParts(c, forIndex, urls).Ok?
    ensures forall e :: e in UrlsParts(c, forIndex, urls).value ==>
      KeptParts(c, forIndex, e.0).Ok? && e.1 == Ranges(SortParts(KeptParts(c, forIndex, e.0).value))
  {
    if urls != [] {
      UrlsPartsLast(c, forIndex, urls);
      UrlsPartsRanges(c, forIndex, urls[..|urls| - 1]);
    }
  }

  /** KeptUrls is empty exactly when no URL's index keeps a record. */
  lemma {:induction false} KeptUrlsEmpty(c: Client, forIndex: Coords, urls: seq<string>)
    requires forall u :: u in urls ==> KeptParts(c, forIndex, u).Ok?
    ensures KeptUrls(c, forIndex, urls) == [] <==> forall u :: u in urls ==> KeptParts(c, forIndex, u) == Ok([])
  {
    if urls != [] {
      var init := urls[..|urls| - 1];
      assert urls == init + [urls[|urls| - 1]];
      KeptUrlsEmpty(c, forIndex, init);
    }
  }

  /** get_parts raises "Cannot find index entries matching" exactly when every index was read and no
      URL kept a record; a URL that keeps nothing is otherwise dropped silently. */
  lemma GetPartsRaisesIff(c: Client, urls: seq<string>, forIndex: Coords)
    requires UrlsParts(c, forIndex, urls).Ok?
    ensures GetPartsSpec(c, urls, forIndex).0 == Err(NoIndexEntries) <==>
      forall u :: u in urls ==> KeptParts(c, forIndex, u) == Ok([])
  {
    UrlsPartsRead(c, forIndex, urls);
    UrlsPartsKept(c, forIndex, urls);
    KeptUrlsEmpty(c, forIndex, urls);
  }

  // ---------------------------------------------------------------- get_parts: the warnings

  /** The values other than None that the records carry under `name`. */
  function FieldValues(lines: seq<Option<Record>>, name: string): set<Value>
  {
    if lines == [] then {}
    else
      FieldValues(lines[..|lines| - 1], name) +
        (match lines[|lines| - 1]
         case None => {}
         case Some(rec) => if FieldOf(rec, name) != Nil then {FieldOf(rec, name)} else {})
  }

  /** The values other than None that the indexes of the URLs carry under `name`. */
  function IndexedValues(c: Client, urls: seq<string>, name: string): set<Value>
  {
    if urls == [] then {}
    else IndexedValues(c, urls[..|urls| - 1], name) + FieldValues(c.remote.index(IndexUrl(urls[|urls| - 1])).lines, name)
  }

  lemma {:induction false} ObserveLineSeen(forIndex: Coords, rec: Record, k: nat, p: Possible, name: string)
    requires k <= |forIndex|
    ensures Seen(ObserveLine(forIndex, rec, k, p), name) ==
      Seen(p, name) + (if name in Names(forIndex[..k]) && FieldOf(rec, name) != Nil then {FieldOf(rec, name)} else {})
  {
    if k > 0 {
      ObserveLineSeen(forIndex, rec, k - 1, p, name);
      assert Names(forIndex[..k]) == Names(forIndex[..k - 1]) + [forIndex[k - 1].0];
    }
  }

  lemma {:induction false} ObserveLinesSeen(forIndex: Coords, lines: seq<Option<Record>>, p: Possible, name: string)
    ensures Seen(ObserveLines(forIndex, lines, p), name) ==
      Seen(p, name) + (if name in Names(forIndex) then FieldValues(lines, name) else {})
  {
    if lines != [] {
      ObserveLinesSeen(forIndex, lines[..|lines| - 1], p, name);
      match lines[|lines| - 1]
      case None =>
      case Some(rec) =>
        ObserveLineSeen(forIndex, rec, |forIndex|, ObserveLines(forIndex, lines[..|lines| - 1], p), name);
        assert forIndex[..|forIndex|] == forIndex;
    }
  }

  /** possible_values[name], for an index dimension, is every non-None value the indexes carry. */
  lemma {:induction false} ObserveUrlsSeen(c: Client, forIndex: Coords, urls: seq<string>, name: string)
    requires name in Names(forIndex)
    ensures Seen(ObserveUrls(c, forIndex, urls), name) == IndexedValues(c, urls, name)
  {
    if urls != [] {
      ObserveUrlsSeen(c, forIndex, urls[..|urls| - 1], name);
      ObserveLinesSeen(forIndex, c.remote.index(IndexUrl(urls[|urls| - 1])).lines, ObserveUrls(c, forIndex, urls[..|urls| - 1]), name);
    }
  }

  /** Over a for_index with distinct dimension names, "No index entries for name=d" is warned exactly
      for the requested values d of a dimension that no index carries under that name. */
  lemma WarningsIffUnseen(c: Client, urls: seq<string>, forIndex: Coords, i: nat, d: Value)
    requires i < |forIndex| && Distinct(Names(forIndex))
    ensures (forIndex[i].0, d) in Warnings(forIndex, ObserveUrls(c, forIndex, urls)) <==>
      d in forIndex[i].1 && d !in IndexedValues(c, urls, forIndex[i].0)
  {
    var p := ObserveUrls(c, forIndex, urls);
    assert Names(forIndex)[i] == forIndex[i].0;
    ObserveUrlsSeen(c, forIndex, urls, forIndex[i].0);
    if (forIndex[i].0, d) in Warnings(forIndex, p) {
      var i', d' :| 0 <= i' < |forIndex| && d' in forIndex[i'].1 && d' !in Seen(p, forIndex[i'].0) &&
        (forIndex[i'].0, d') == (forIndex[i].0, d);
      assert Names(forIndex)[i'] == forIndex[i'].0;
    }
  }
}
