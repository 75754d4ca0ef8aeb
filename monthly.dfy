/**
 * The monthly-period logic that ingest/chirps_rainfall/__init__.py and
 * ingest/tamsat_rainfall/__init__.py share: the next month to fetch, read from the "monthly" key of
 * the dataset's state, the `{YYYY}`/`{MM}` substitution into a file template, and the rule that an
 * HTTP 404 ends a run quietly while every other error propagates.
 */
module Monthly {
  import opened Wrappers
  import opened Errors
  import opened Json
  import opened DateUtils
  import opened Ingest
  import Strings

  /** The next month to fetch: the first of the month after the stored `monthly` date when there
      is one, else the first day of the configured start month. `state` is what get_state returned;
      a state that is not a dict raises AttributeError, a stored date that is not a string TypeError. */
  function NextDate(state: Option<Json>, startYear: int, startMonth: int): (r: Result<DateTime, Error>)
    ensures r.Ok? ==> Valid(r.value) && r.value.day == 1 && IsMidnight(r.value)
  {
    match Get(OrEmpty(state), "monthly")
    case Err(e) => Err(e)
    case Ok(last) =>
      if !Truthy(last) then MakeDate(startYear, startMonth, 1)
      else if last.Str? then GetNextMonthDate(last.s)
      else Err(TypeError)
  }

  /** With no stored `monthly` date, a run starts at the configured month. */
  lemma NextDateFresh(state: Option<Json>, startYear: int, startMonth: int)
    requires state.None? || (state.value.Obj? && "monthly" !in state.value.fields)
    ensures NextDate(state, startYear, startMonth) == MakeDate(startYear, startMonth, 1)
  {
  }

  /** A state that is not a dict raises AttributeError. */
  lemma NextDateNotDict(state: Option<Json>, startYear: int, startMonth: int)
    requires state.Some? && Truthy(state.value) && !state.value.Obj?
    ensures NextDate(state, startYear, startMonth) == Err(AttributeError)
  {
  }

  /** With a stored date, a run moves to the first of the following month, and fails only after
      December 9999. */
  lemma NextDateAdvances(state: Option<Json>, startYear: int, startMonth: int)
    requires state.Some? && state.value.Obj? && "monthly" in state.value.fields
    requires state.value.fields["monthly"].Str? && state.value.fields["monthly"].s != ""
    requires FromIsoFormat(state.value.fields["monthly"].s).Ok?
    ensures var last := FromIsoFormat(state.value.fields["monthly"].s).value;
      var r := NextDate(state, startYear, startMonth);
      && (r.Err? <==> last.year == 9999 && last.month == 12)
      && (r.Ok? ==> Before(last, r.value)
                    && (last.month == 12 ==> r.value.year == last.year + 1 && r.value.month == 1)
                    && (last.month < 12 ==> r.value.year == last.year && r.value.month == last.month + 1))
  {
    NextMonthSpec(state.value.fields["monthly"].s);
  }

  /** What `update_state({"monthly": next_date.isoformat()})` passes to the wrapper. */
  function MonthlyMarker(d: DateTime): Json
    requires Valid(d)
  {
    Obj(map["monthly" := Str(IsoFormat(d))])
  }

  /** The wrapper stores `{"last_update": {"monthly": …}}`, so the next read of "monthly" finds
      nothing: every run starts again at the configured first month. */
  lemma MonthlyNeverReadBack(d: DateTime, startYear: int, startMonth: int)
    requires Valid(d)
    ensures NextDate(Some(Marker(MonthlyMarker(d))), startYear, startMonth) == MakeDate(startYear, startMonth, 1)
  {
  }

  // ---------------------------------------------------------------- templates

  /** A file template as the pieces it is written in: literal text, `{YYYY}` and `{MM}`. */
  datatype Chunk = Lit(text: string) | Year | Month

  function Render(cs: seq<Chunk>): string
  {
    if cs == [] then ""
    else (match cs[0] case Lit(t) => t case Year => "{YYYY}" case Month => "{MM}") + Render(cs[1..])
  }

  /** The template with the year and the month written in. */
  function Expand(cs: seq<Chunk>, year: string, month: string): string
  {
    if cs == [] then ""
    else (match cs[0] case Lit(t) => t case Year => year case Month => month) + Expand(cs[1..], year, month)
  }

  /** The literal pieces hold no "{", so they cannot be mistaken for a placeholder. */
  predicate Plain(cs: seq<Chunk>)
  {
    forall i :: 0 <= i < |cs| && cs[i].Lit? ==> '{' !in cs[i].text
  }

  /** `template.replace("{YYYY}", year).replace("{MM}", month)`. */
  function Substitute(template: string, year: string, month: string): string
  {
    Strings.Replace(Strings.Replace(template, "{YYYY}", year), "{MM}", month)
  }

  /** The substitution a run makes for a date: the year in decimal, the month in two digits. */
  function Fill(template: string, d: DateTime): string
    requires Valid(d)
  {
    Substitute(template, Strings.IntToString(d.year), Strings.ZeroPad(d.month, 2))
  }

  /** The template after the first substitution: the year written in, `{MM}` still in place. */
  function HalfExpand(cs: seq<Chunk>, year: string): string
  {
    if cs == [] then ""
    else (match cs[0] case Lit(t) => t case Year => year case Month => "{MM}") + HalfExpand(cs[1..], year)
  }

  /** A `{MM}` is not the start of a `{YYYY}`. */
  lemma ReplaceYearSkipsMonth(y: string, r: string)
    ensures Strings.Replace("{MM}" + y, "{YYYY}", r) == "{MM}" + Strings.Replace(y, "{YYYY}", r)
  {
    var s := "{MM}" + y;
    if |s| >= 6 {
      assert s[..6][1] == 'M';
      assert s[1..] == "MM}" + y;
      Strings.ReplaceSkip("MM}", y, "{YYYY}", r);
    } else {
      assert Strings.Replace(y, "{YYYY}", r) == y;
    }
  }

  lemma {:induction false} FirstPass(cs: seq<Chunk>, year: string)
    requires Plain(cs)
    ensures Strings.Replace(Render(cs), "{YYYY}", year) == HalfExpand(cs, year)
  {
    if cs != [] {
      assert Plain(cs[1..]) by {
        forall i | 0 <= i < |cs[1..]| && cs[1..][i].Lit? ensures '{' !in cs[1..][i].text {
          assert cs[1..][i] == cs[i + 1];
        }
      }
      FirstPass(cs[1..], year);
      match cs[0]
      case Lit(t) => Strings.ReplaceSkip(t, Render(cs[1..]), "{YYYY}", year);
      case Year => Strings.ReplaceFront(Render(cs[1..]), "{YYYY}", year);
      case Month => ReplaceYearSkipsMonth(Render(cs[1..]), year);
    }
  }

  lemma {:induction false} SecondPass(cs: seq<Chunk>, year: string, month: string)
    requires Plain(cs) && '{' !in year
    ensures Strings.Replace(HalfExpand(cs, year), "{MM}", month) == Expand(cs, year, month)
  {
    if cs != [] {
      assert Plain(cs[1..]) by {
        forall i | 0 <= i < |cs[1..]| && cs[1..][i].Lit? ensures '{' !in cs[1..][i].text {
          assert cs[1..][i] == cs[i + 1];
        }
      }
      SecondPass(cs[1..], year, month);
      match cs[0]
      case Lit(t) => Strings.ReplaceSkip(t, HalfExpand(cs[1..], year), "{MM}", month);
      case Year => Strings.ReplaceSkip(year, HalfExpand(cs[1..], year), "{MM}", month);
      case Month => Strings.ReplaceFront(HalfExpand(cs[1..], year), "{MM}", month);
    }
  }

  /** A decimal number holds no "{". */
  lemma NoBraceInNumber(i: int)
    ensures '{' !in Strings.IntToString(i)
  {
    var d := Strings.NatToString(if i < 0 then -i else i);
    assert '{' !in d by {
      forall k | 0 <= k < |d| ensures d[k] != '{' {
        assert Strings.IsDigit(d[k]);
      }
    }
  }

  /** Substituting into a template replaces every `{YYYY}` by the year and every `{MM}` by the
      month, and changes nothing else. */
  lemma SubstituteTemplate(cs: seq<Chunk>, year: string, month: string)
    requires Plain(cs) && '{' !in year
    ensures Substitute(Render(cs), year, month) == Expand(cs, year, month)
  {
    FirstPass(cs, year);
    SecondPass(cs, year, month);
  }

  /** For a date, the year goes in as `str(year)` and the month as two digits. */
  lemma FillTemplate(cs: seq<Chunk>, d: DateTime)
    requires Plain(cs) && Valid(d)
    ensures Fill(Render(cs), d) == Expand(cs, Strings.IntToString(d.year), Strings.ZeroPad(d.month, 2))
  {
    NoBraceInNumber(d.year);
    SubstituteTemplate(cs, Strings.IntToString(d.year), Strings.ZeroPad(d.month, 2));
  }

  // ---------------------------------------------------------------- errors

  /** `except requests.exceptions.HTTPError as e`: a 404 returns quietly, anything else is raised. */
  function Skip404(e: Error): (r: Outcome<Error>)
    ensures r.Pass? <==> e == HttpError(404)
    ensures r.Fail? ==> r.error == e
  {
    if e == HttpError(404) then Pass else Fail(e)
  }
}
