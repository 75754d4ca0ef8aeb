/**
 * Calendar datetimes (naive, second resolution) as Python's `datetime` handles them in the
 * ingest code: `isoformat`, `fromisoformat`, `strptime(s, "%Y%m%d")`, `strftime`, the month
 * rollover of ingest/dateutils.py and the addition of 24 hours.
 */
module DateUtils {
  import opened Wrappers
  import opened Errors
  import opened Strings

  datatype DateTime = DateTime(year: int, month: int, day: int, hour: int, minute: int, second: int)

  predicate IsLeapYear(y: int)
  {
    y % 4 == 0 && (y % 100 != 0 || y % 400 == 0)
  }

  function DaysInMonth(y: int, m: int): (n: int)
    requires 1 <= m <= 12
    ensures 28 <= n <= 31
  {
    if m == 2 then (if IsLeapYear(y) then 29 else 28)
    else if m == 4 || m == 6 || m == 9 || m == 11 then 30
    else 31
  }

  /** The values `datetime(...)` accepts: years 1..9999 (MINYEAR..MAXYEAR), real calendar days. */
  predicate Valid(d: DateTime)
  {
    && 1 <= d.year <= 9999
    && 1 <= d.month <= 12
    && 1 <= d.day <= DaysInMonth(d.year, d.month)
    && 0 <= d.hour < 24 && 0 <= d.minute < 60 && 0 <= d.second < 60
  }

  predicate IsMidnight(d: DateTime)
  {
    d.hour == 0 && d.minute == 0 && d.second == 0
  }

  /** Chronological order (`a < b` on datetimes). */
  predicate Before(a: DateTime, b: DateTime)
  {
    || a.year < b.year
    || (a.year == b.year && a.month < b.month)
    || (a.year == b.year && a.month == b.month && a.day < b.day)
    || (a.year == b.year && a.month == b.month && a.day == b.day && a.hour < b.hour)
    || (a.year == b.year && a.month == b.month && a.day == b.day && a.hour == b.hour && a.minute < b.minute)
    || (a.year == b.year && a.month == b.month && a.day == b.day && a.hour == b.hour && a.minute == b.minute
        && a.second < b.second)
  }

  /** `datetime(y, m, d)`: midnight of a date, or ValueError for an impossible one. */
  function MakeDate(y: int, m: int, d: int): (r: Result<DateTime, Error>)
    ensures r.Ok? <==> Valid(DateTime(y, m, d, 0, 0, 0))
    ensures r.Ok? ==> r.value == DateTime(y, m, d, 0, 0, 0)
  {
    var t := DateTime(y, m, d, 0, 0, 0);
    if Valid(t) then Ok(t) else Err(ValueError("day is out of range for month"))
  }

  /** `datetime.combine(d.date(), time(0, 0, 0))`. */
  function Midnight(d: DateTime): DateTime
  {
    DateTime(d.year, d.month, d.day, 0, 0, 0)
  }

  // ---------------------------------------------------------------- rendering

  /** `d.strftime("%Y-%m-%d")`. */
  function DateFormat(d: DateTime): string
    requires Valid(d)
  {
    ZeroPad(d.year, 4) + "-" + ZeroPad(d.month, 2) + "-" + ZeroPad(d.day, 2)
  }

  /** `d.isoformat()` for a datetime without microseconds: `YYYY-MM-DDTHH:MM:SS`. */
  function IsoFormat(d: DateTime): string
    requires Valid(d)
  {
    DateFormat(d) + "T" + ZeroPad(d.hour, 2) + ":" + ZeroPad(d.minute, 2) + ":" + ZeroPad(d.second, 2)
  }

  /** `d.strftime("%Y-%m-%dT%H:%M:%S.000Z")`, the stamp the output file names carry. */
  function StampFormat(d: DateTime): string
    requires Valid(d)
  {
    IsoFormat(d) + ".000Z"
  }

  // ---------------------------------------------------------------- parsing

  predicate DigitsAt(s: string, from: nat, len: nat)
  {
    from + len <= |s| && AllDigits(s[from..from + len])
  }

  function NumberAt(s: string, from: nat, len: nat): nat
    requires DigitsAt(s, from, len)
  {
    ParseNat(s[from..from + len])
  }

  /** The shape `YYYY-MM-DD` at the start of `s`. */
  predicate DatePart(s: string)
  {
    |s| >= 10 && DigitsAt(s, 0, 4) && s[4] == '-' && DigitsAt(s, 5, 2) && s[7] == '-' && DigitsAt(s, 8, 2)
  }

  /**
   * `datetime.fromisoformat(s)` for the forms `YYYY-MM-DD`, `YYYY-MM-DD?HH`, `YYYY-MM-DD?HH:MM` and
   * `YYYY-MM-DD?HH:MM:SS`, where `?` is any one character; anything else is a ValueError.
   */
  function FromIsoFormat(s: string): (r: Result<DateTime, Error>)
    ensures r.Ok? ==> Valid(r.value)
  {
    if !DatePart(s) || !(|s| in {10, 13, 16, 19}) then Err(ValueError("Invalid isoformat string"))
    else if |s| >= 13 && !DigitsAt(s, 11, 2) then Err(ValueError("Invalid isoformat string"))
    else if |s| >= 16 && !(s[13] == ':' && DigitsAt(s, 14, 2)) then Err(ValueError("Invalid isoformat string"))
    else if |s| == 19 && !(s[16] == ':' && DigitsAt(s, 17, 2)) then Err(ValueError("Invalid isoformat string"))
    else
      var t := DateTime(NumberAt(s, 0, 4), NumberAt(s, 5, 2), NumberAt(s, 8, 2),
                        if |s| >= 13 then NumberAt(s, 11, 2) else 0,
                        if |s| >= 16 then NumberAt(s, 14, 2) else 0,
                        if |s| == 19 then NumberAt(s, 17, 2) else 0);
      if Valid(t) then Ok(t) else Err(ValueError("Invalid isoformat string"))
  }

  // ---------------------------------------------------------------- strptime(s, "%Y%m%d")

  /** A group the format regex captured: the value `int()` reads from it and how many characters it took. */
  datatype Field = Field(value: nat, len: nat)

  /** The alternatives of `%m`, the regex `1[0-2]|0[1-9]|[1-9]`, that match at `i`, in the order the
      regex tries them (the first two exclude each other). */
  function MonthFields(s: string, i: nat): (r: seq<Field>)
    ensures |r| <= 2
    ensures forall k :: 0 <= k < |r| ==> 1 <= r[k].len <= 2 && i + r[k].len <= |s| && 1 <= r[k].value <= 12
  {
    (if i + 2 <= |s| && s[i] == '1' && '0' <= s[i + 1] <= '2' then [Field(10 + DigitValue(s[i + 1]), 2)]
     else if i + 2 <= |s| && s[i] == '0' && '1' <= s[i + 1] <= '9' then [Field(DigitValue(s[i + 1]), 2)]
     else [])
    + (if i < |s| && '1' <= s[i] <= '9' then [Field(DigitValue(s[i]), 1)] else [])
  }

  /** The first alternative of `%d`, the regex `3[0-1]|[1-2]\d|0[1-9]|[1-9]| [1-9]`, that matches at `i`. */
  function DayField(s: string, i: nat): (r: Option<Field>)
    ensures r.Some? ==> 1 <= r.value.len <= 2 && i + r.value.len <= |s| && 1 <= r.value.value <= 31
  {
    if i + 2 <= |s| && s[i] == '3' && '0' <= s[i + 1] <= '1' then Some(Field(30 + DigitValue(s[i + 1]), 2))
    else if i + 2 <= |s| && '1' <= s[i] <= '2' && IsDigit(s[i + 1]) then
      Some(Field(10 * DigitValue(s[i]) + DigitValue(s[i + 1]), 2))
    else if i + 2 <= |s| && s[i] == '0' && '1' <= s[i + 1] <= '9' then Some(Field(DigitValue(s[i + 1]), 2))
    else if i < |s| && '1' <= s[i] <= '9' then Some(Field(DigitValue(s[i]), 1))
    else if i + 2 <= |s| && s[i] == ' ' && '1' <= s[i + 1] <= '9' then Some(Field(DigitValue(s[i + 1]), 2))
    else None
  }

  /** The month and day `re.match` settles on: the first month alternative after which a day matches.
      Nothing follows `%d` in the pattern, so the day's first matching alternative is kept. */
  function MatchMonthDay(s: string, at: nat, months: seq<Field>): (r: Option<(Field, Field)>)
    ensures r.Some? ==> r.value.0 in months && DayField(s, at + r.value.0.len) == Some(r.value.1)
    ensures r.None? <==> forall k :: 0 <= k < |months| ==> DayField(s, at + months[k].len).None?
  {
    if months == [] then None
    else match DayField(s, at + months[0].len)
      case Some(d) => Some((months[0], d))
      case None => MatchMonthDay(s, at, months[1..])
  }

  /**
   * `datetime.strptime(s, "%Y%m%d")`: `re.match` of `(\d\d\d\d)(%m)(%d)` at the start of `s`, a
   * ValueError when nothing matches or characters remain after the match, then `datetime(y, m, d)`.
   * So a one-digit month or day, and a day written as a space and one digit, are read as well.
   */
  function ParseCompactDate(s: string): (r: Result<DateTime, Error>)
    ensures r.Ok? ==> Valid(r.value) && IsMidnight(r.value)
    ensures r.Ok? ==> 6 <= |s| <= 8 && DigitsAt(s, 0, 4) && r.value.year == NumberAt(s, 0, 4)
    ensures r.Err? ==> r.error.ValueError?
  {
    if !DigitsAt(s, 0, 4) then Err(ValueError("time data does not match format '%Y%m%d'"))
    else
      match MatchMonthDay(s, 4, MonthFields(s, 4))
      case None => Err(ValueError("time data does not match format '%Y%m%d'"))
      case Some((m, d)) =>
        if 4 + m.len + d.len != |s| then Err(ValueError("unconverted data remains"))
        else MakeDate(NumberAt(s, 0, 4), m.value, d.value)
  }

  /** `d.strftime("%Y%m%d")`. */
  function CompactFormat(d: DateTime): string
    requires Valid(d)
  {
    ZeroPad(d.year, 4) + ZeroPad(d.month, 2) + ZeroPad(d.day, 2)
  }

  /** How `%m` (not spaced) or `%d` (spaced) can spell `n`: two digits, one digit when n < 10, or for
      a day a space and one digit. */
  predicate SpelledAs(t: string, n: nat, spaced: bool)
  {
    || t == ZeroPad(n, 2)
    || (n < 10 && t == [DigitChar(n)])
    || (spaced && n < 10 && t == [' ', DigitChar(n)])
  }

  /** `s` spells `d` in one of the ways "%Y%m%d" reads: four year digits, the month, then the day. */
  predicate CompactSpelling(s: string, d: DateTime)
    requires Valid(d)
  {
    && |s| >= 6 && s[..4] == ZeroPad(d.year, 4)
    && (|| (SpelledAs(s[4..5], d.month, false) && SpelledAs(s[5..], d.day, true))
        || (SpelledAs(s[4..6], d.month, false) && SpelledAs(s[6..], d.day, true)))
  }

  lemma TwoDigitsAt(s: string, i: nat)
    requires i + 2 <= |s| && IsDigit(s[i]) && IsDigit(s[i + 1])
    ensures DigitsAt(s, i, 2) && NumberAt(s, i, 2) == 10 * DigitValue(s[i]) + DigitValue(s[i + 1])
    ensures ZeroPad(NumberAt(s, i, 2), 2) == s[i..i + 2]
  {
    var t := s[i..i + 2];
    assert t[..1][..0] == [] && t[..1] == [s[i]] && t[1] == s[i + 1];
    assert ParseNat(t[..1]) == DigitValue(s[i]) by {
      assert ParseNat(t[..1]) == 10 * ParseNat(t[..1][..0]) + DigitValue(t[..1][0]);
    }
    assert ParseNat(t) == 10 * ParseNat(t[..1]) + DigitValue(t[1]);
    PadOfDigits(s, i, 2);
  }

  lemma OneDigit(c: char)
    requires IsDigit(c)
    ensures DigitChar(DigitValue(c)) == c
  {
  }

  /** Each month alternative spells its value. */
  lemma MonthFieldSpelled(s: string, i: nat, f: Field)
    requires f in MonthFields(s, i)
    ensures i + f.len <= |s| && SpelledAs(s[i..i + f.len], f.value, false)
  {
    if f.len == 2 {
      TwoDigitsAt(s, i);
    } else {
      OneDigit(s[i]);
      assert s[i..i + 1] == [s[i]];
    }
  }

  /** The day alternative that matched spells its value. */
  lemma DayFieldSpelled(s: string, i: nat)
    requires DayField(s, i).Some?
    ensures var f := DayField(s, i).value; SpelledAs(s[i..i + f.len], f.value, true)
  {
    var f := DayField(s, i).value;
    if f.len == 1 {
      OneDigit(s[i]);
      assert s[i..i + 1] == [s[i]];
    } else if s[i] == ' ' {
      OneDigit(s[i + 1]);
      assert s[i..i + 2] == [' ', s[i + 1]];
    } else {
      TwoDigitsAt(s, i);
    }
  }

  /** The month and day alternatives behind a successful parse, which take the rest of the string. */
  lemma ParsedFields(s: string) returns (m: Field, dd: Field)
    requires ParseCompactDate(s).Ok?
    ensures DigitsAt(s, 0, 4) && m in MonthFields(s, 4) && DayField(s, 4 + m.len) == Some(dd)
    ensures 4 + m.len + dd.len == |s|
    ensures ParseCompactDate(s).value == DateTime(NumberAt(s, 0, 4), m.value, dd.value, 0, 0, 0)
  {
    m, dd := MatchMonthDay(s, 4, MonthFields(s, 4)).value.0, MatchMonthDay(s, 4, MonthFields(s, 4)).value.1;
  }

  /** Every string strptime reads with "%Y%m%d" spells the date it yields, and one of eight ASCII
      digits is exactly that date's rendering. */
  lemma CompactCanonical(s: string)
    requires ParseCompactDate(s).Ok?
    ensures CompactSpelling(s, ParseCompactDate(s).value)
    ensures |s| == 8 && AllDigits(s) ==> CompactFormat(ParseCompactDate(s).value) == s
  {
    var d := ParseCompactDate(s).value;
    var m, dd := ParsedFields(s);
    PadOfDigits(s, 0, 4);
    assert s[..4] == s[0..4];
    MonthFieldSpelled(s, 4, m);
    DayFieldSpelled(s, 4 + m.len);
    assert s[4 + m.len..] == s[4 + m.len..4 + m.len + dd.len];
    if m.len == 1 {
      assert SpelledAs(s[4..5], d.month, false) && SpelledAs(s[5..], d.day, true);
    } else {
      assert SpelledAs(s[4..6], d.month, false) && SpelledAs(s[6..], d.day, true);
    }
    if |s| == 8 && AllDigits(s) {
      EightDigitSpelling(s, d);
    }
  }

  /** Of the spellings, only the padded one is eight ASCII digits long. */
  lemma EightDigitSpelling(s: string, d: DateTime)
    requires Valid(d) && CompactSpelling(s, d) && |s| == 8 && AllDigits(s)
    ensures CompactFormat(d) == s
  {
    ZeroPadRoundTrip(d.month, 2);
    ZeroPadRoundTrip(d.day, 2);
    assert SpelledAs(s[4..6], d.month, false) && SpelledAs(s[6..], d.day, true);
    assert s[6] != ' ';
    assert s[4..6] == ZeroPad(d.month, 2) && s[6..] == ZeroPad(d.day, 2);
    assert s == s[..4] + s[4..6] + s[6..];
  }

  /** On eight digits strptime with "%Y%m%d" is `datetime(YYYY, MM, DD)`: it succeeds exactly when the
      digits name a calendar date, and yields that date. */
  lemma CompactEightDigits(s: string)
    requires |s| == 8 && AllDigits(s)
    ensures var t := DateTime(NumberAt(s, 0, 4), NumberAt(s, 4, 2), NumberAt(s, 6, 2), 0, 0, 0);
      && (ParseCompactDate(s).Ok? <==> Valid(t))
      && (ParseCompactDate(s).Ok? ==> ParseCompactDate(s).value == t)
  {
    var t := DateTime(NumberAt(s, 0, 4), NumberAt(s, 4, 2), NumberAt(s, 6, 2), 0, 0, 0);
    if ParseCompactDate(s).Ok? {
      EightDigitsParsed(s);
    } else if Valid(t) {
      EightDigitsMatch(s);
      assert false;
    }
  }

  /** A parse of eight digits took two digits each for the month and the day. */
  lemma EightDigitsParsed(s: string)
    requires |s| == 8 && AllDigits(s) && ParseCompactDate(s).Ok?
    ensures ParseCompactDate(s).value == DateTime(NumberAt(s, 0, 4), NumberAt(s, 4, 2), NumberAt(s, 6, 2), 0, 0, 0)
  {
    var m, dd := ParsedFields(s);
    TwoDigitsAt(s, 4);
    TwoDigitsAt(s, 6);
    assert m.len == 2 && dd.len == 2;
    assert m.value == NumberAt(s, 4, 2);
    assert dd.value == NumberAt(s, 6, 2);
  }

  /** When eight digits name a date, the regex takes two digits each for the month and the day. */
  lemma EightDigitsMatch(s: string)
    requires |s| == 8 && AllDigits(s)
    requires Valid(DateTime(NumberAt(s, 0, 4), NumberAt(s, 4, 2), NumberAt(s, 6, 2), 0, 0, 0))
    ensures ParseCompactDate(s) == Ok(DateTime(NumberAt(s, 0, 4), NumberAt(s, 4, 2), NumberAt(s, 6, 2), 0, 0, 0))
  {
    TwoDigitsAt(s, 4);
    TwoDigitsAt(s, 6);
    var months := MonthFields(s, 4);
    assert months[0] == Field(NumberAt(s, 4, 2), 2);
    assert DayField(s, 6) == Some(Field(NumberAt(s, 6, 2), 2));
    assert MatchMonthDay(s, 4, months) == Some((months[0], Field(NumberAt(s, 6, 2), 2)));
  }

  /** strptime with "%Y%m%d" reads the eight digits of any date back as that date's midnight. */
  lemma CompactRoundTrip(d: DateTime)
    requires Valid(d)
    ensures ParseCompactDate(CompactFormat(d)) == Ok(Midnight(d))
  {
    var s := CompactFormat(d);
    ZeroPadRoundTrip(d.year, 4);
    ZeroPadRoundTrip(d.month, 2);
    ZeroPadRoundTrip(d.day, 2);
    var y, mo, dd := ZeroPad(d.year, 4), ZeroPad(d.month, 2), ZeroPad(d.day, 2);
    assert s[0..4] == y && s[4..6] == mo && s[6..8] == dd;
    assert AllDigits(s) by {
      forall i | 0 <= i < 8 ensures IsDigit(s[i]) {
        if i < 4 { assert s[i] == y[i]; }
        else if i < 6 { assert s[i] == mo[i - 4]; }
        else { assert s[i] == dd[i - 6]; }
      }
    }
    EightDigitsMatch(s);
  }

  /** Shorter spellings strptime also reads: a one-digit month or day, and a space-padded day. The
      month's two-digit alternative is tried first, so "2024111" is the first of November. */
  lemma CompactShortForms()
    ensures ParseCompactDate("2024011") == Ok(DateTime(2024, 1, 1, 0, 0, 0))
    ensures ParseCompactDate("202411") == Ok(DateTime(2024, 1, 1, 0, 0, 0))
    ensures ParseCompactDate("2024110") == Ok(DateTime(2024, 1, 10, 0, 0, 0))
    ensures ParseCompactDate("202401 1") == Ok(DateTime(2024, 1, 1, 0, 0, 0))
    ensures ParseCompactDate("2024111") == Ok(DateTime(2024, 11, 1, 0, 0, 0))
  {
    OneDigitDay();
    OneDigitMonthAndDay();
    MonthBacktracks();
    SpacedDay();
    LongMonthFirst();
  }

  lemma OneDigitDay()
    ensures ParseCompactDate("2024011") == Ok(DateTime(2024, 1, 1, 0, 0, 0))
  {
    var s := "2024011";
    Year2024(s);
    assert MonthFields(s, 4) == [Field(1, 2)];
    assert DayField(s, 6) == Some(Field(1, 1));
  }

  lemma OneDigitMonthAndDay()
    ensures ParseCompactDate("202411") == Ok(DateTime(2024, 1, 1, 0, 0, 0))
  {
    var s := "202411";
    Year2024(s);
    assert MonthFields(s, 4) == [Field(11, 2), Field(1, 1)];
    assert DayField(s, 6) == None;
    assert DayField(s, 5) == Some(Field(1, 1));
  }

  /** "11" leaves "0", which no day alternative takes, so the regex falls back to the month "1". */
  lemma MonthBacktracks()
    ensures ParseCompactDate("2024110") == Ok(DateTime(2024, 1, 10, 0, 0, 0))
  {
    var s := "2024110";
    Year2024(s);
    assert MonthFields(s, 4) == [Field(11, 2), Field(1, 1)];
    assert DayField(s, 6) == None;
    assert DayField(s, 5) == Some(Field(10, 2));
  }

  lemma SpacedDay()
    ensures ParseCompactDate("202401 1") == Ok(DateTime(2024, 1, 1, 0, 0, 0))
  {
    var s := "202401 1";
    Year2024(s);
    assert MonthFields(s, 4) == [Field(1, 2)];
    assert DayField(s, 6) == Some(Field(1, 2));
  }

  lemma LongMonthFirst()
    ensures ParseCompactDate("2024111") == Ok(DateTime(2024, 11, 1, 0, 0, 0))
  {
    var s := "2024111";
    Year2024(s);
    assert MonthFields(s, 4) == [Field(11, 2), Field(1, 1)];
    assert DayField(s, 6) == Some(Field(1, 1));
  }

  lemma Year2024(s: string)
    requires |s| >= 4 && s[..4] == "2024"
    ensures DigitsAt(s, 0, 4) && NumberAt(s, 0, 4) == 2024
  {
    assert s[0..4] == "2024";
    assert "2024"[..3] == "202" && "202"[..2] == "20" && "20"[..1] == "2" && "2"[..0] == "";
  }

  lemma PadAt(s: string, from: nat, n: nat, w: nat)
    requires w >= 1 && n < Pow10(w)
    requires from + w <= |s| && s[from..from + w] == ZeroPad(n, w)
    ensures DigitsAt(s, from, w) && NumberAt(s, from, w) == n
  {
    ZeroPadRoundTrip(n, w);
  }

  /** `fromisoformat(d.isoformat())` gives back `d`. */
  lemma IsoRoundTrip(d: DateTime)
    requires Valid(d)
    ensures FromIsoFormat(IsoFormat(d)) == Ok(d)
  {
    var s := IsoFormat(d);
    var y, mo, dd := ZeroPad(d.year, 4), ZeroPad(d.month, 2), ZeroPad(d.day, 2);
    var h, mi, se := ZeroPad(d.hour, 2), ZeroPad(d.minute, 2), ZeroPad(d.second, 2);
    ZeroPadRoundTrip(d.year, 4);
    ZeroPadRoundTrip(d.month, 2);
    ZeroPadRoundTrip(d.day, 2);
    ZeroPadRoundTrip(d.hour, 2);
    ZeroPadRoundTrip(d.minute, 2);
    ZeroPadRoundTrip(d.second, 2);
    IsoLayout(y, mo, dd, h, mi, se);
    PadAt(s, 0, d.year, 4);
    PadAt(s, 5, d.month, 2);
    PadAt(s, 8, d.day, 2);
    PadAt(s, 11, d.hour, 2);
    PadAt(s, 14, d.minute, 2);
    PadAt(s, 17, d.second, 2);
    ParseFullIso(s, d);
  }

  /** `fromisoformat(d.strftime("%Y-%m-%d"))` gives back the midnight of `d`'s day. */
  lemma DateRoundTrip(d: DateTime)
    requires Valid(d)
    ensures FromIsoFormat(DateFormat(d)) == Ok(Midnight(d))
  {
    var s := DateFormat(d);
    ZeroPadRoundTrip(d.year, 4);
    ZeroPadRoundTrip(d.month, 2);
    ZeroPadRoundTrip(d.day, 2);
    DateLayout(ZeroPad(d.year, 4), ZeroPad(d.month, 2), ZeroPad(d.day, 2));
    PadAt(s, 0, d.year, 4);
    PadAt(s, 5, d.month, 2);
    PadAt(s, 8, d.day, 2);
    ParseDateOnly(s, d);
  }

  /** Where the fields and separators of `YYYY-MM-DD` sit. */
  lemma DateLayout(y: string, mo: string, dd: string)
    requires |y| == 4 && |mo| == 2 && |dd| == 2
    ensures var s := y + "-" + mo + "-" + dd;
      && |s| == 10 && s[0..4] == y && s[4] == '-' && s[5..7] == mo && s[7] == '-' && s[8..10] == dd
  {
  }

  /** A 10-character string with the separators in place and the fields' numbers those of `d`'s
      day parses as the midnight of that day. */
  lemma ParseDateOnly(s: string, d: DateTime)
    requires Valid(d) && |s| == 10 && s[4] == '-' && s[7] == '-'
    requires DigitsAt(s, 0, 4) && NumberAt(s, 0, 4) == d.year
    requires DigitsAt(s, 5, 2) && NumberAt(s, 5, 2) == d.month
    requires DigitsAt(s, 8, 2) && NumberAt(s, 8, 2) == d.day
    ensures FromIsoFormat(s) == Ok(Midnight(d))
  {
  }

  /** Where the fields and separators of `YYYY-MM-DDTHH:MM:SS` sit. */
  lemma IsoLayout(y: string, mo: string, dd: string, h: string, mi: string, se: string)
    requires |y| == 4 && |mo| == 2 && |dd| == 2 && |h| == 2 && |mi| == 2 && |se| == 2
    ensures var s := y + "-" + mo + "-" + dd + "T" + h + ":" + mi + ":" + se;
      && |s| == 19 && s[0..4] == y && s[4] == '-' && s[5..7] == mo && s[7] == '-' && s[8..10] == dd
      && s[11..13] == h && s[13] == ':' && s[14..16] == mi && s[16] == ':' && s[17..19] == se
  {
  }

  /** A 19-character string with the separators in place and the fields' numbers those of `d`
      parses as `d`. */
  lemma ParseFullIso(s: string, d: DateTime)
    requires Valid(d) && |s| == 19 && s[4] == '-' && s[7] == '-' && s[13] == ':' && s[16] == ':'
    requires DigitsAt(s, 0, 4) && NumberAt(s, 0, 4) == d.year
    requires DigitsAt(s, 5, 2) && NumberAt(s, 5, 2) == d.month
    requires DigitsAt(s, 8, 2) && NumberAt(s, 8, 2) == d.day
    requires DigitsAt(s, 11, 2) && NumberAt(s, 11, 2) == d.hour
    requires DigitsAt(s, 14, 2) && NumberAt(s, 14, 2) == d.minute
    requires DigitsAt(s, 17, 2) && NumberAt(s, 17, 2) == d.second
    ensures FromIsoFormat(s) == Ok(d)
  {
  }

  lemma {:induction false} ParseNatBound(t: string)
    requires AllDigits(t)
    ensures ParseNat(t) < Pow10(|t|)
  {
    if t != [] {
      ParseNatBound(t[..|t| - 1]);
    }
  }

  lemma {:induction false} ParseNatInjective(a: string, b: string)
    requires AllDigits(a) && AllDigits(b) && |a| == |b| && ParseNat(a) == ParseNat(b)
    ensures a == b
  {
    if a != [] {
      var a', b' := a[..|a| - 1], b[..|b| - 1];
      assert 10 * ParseNat(a') + DigitValue(a[|a| - 1]) == 10 * ParseNat(b') + DigitValue(b[|b| - 1]);
      ParseNatInjective(a', b');
      assert a[|a| - 1] == b[|b| - 1];
      assert a == a' + [a[|a| - 1]] && b == b' + [b[|b| - 1]];
    }
  }

  lemma PadOfDigits(s: string, from: nat, w: nat)
    requires w >= 1 && DigitsAt(s, from, w)
    ensures NumberAt(s, from, w) < Pow10(w) && ZeroPad(NumberAt(s, from, w), w) == s[from..from + w]
  {
    var t := s[from..from + w];
    ParseNatBound(t);
    ZeroPadRoundTrip(ParseNat(t), w);
    ParseNatInjective(ZeroPad(ParseNat(t), w), t);
  }

  lemma IsoFields(s: string)
    requires |s| == 19 && FromIsoFormat(s).Ok?
    ensures DigitsAt(s, 0, 4) && DigitsAt(s, 5, 2) && DigitsAt(s, 8, 2)
    ensures DigitsAt(s, 11, 2) && DigitsAt(s, 14, 2) && DigitsAt(s, 17, 2)
    ensures s[4] == '-' && s[7] == '-' && s[13] == ':' && s[16] == ':'
    ensures FromIsoFormat(s).value == DateTime(NumberAt(s, 0, 4), NumberAt(s, 5, 2), NumberAt(s, 8, 2),
                                               NumberAt(s, 11, 2), NumberAt(s, 14, 2), NumberAt(s, 17, 2))
  {
  }

  /** The other direction: a full `YYYY-MM-DDTHH:MM:SS` string that parses is the rendering of its value. */
  lemma IsoCanonical(s: string)
    requires |s| == 19 && s[10] == 'T' && FromIsoFormat(s).Ok?
    ensures IsoFormat(FromIsoFormat(s).value) == s
  {
    IsoFields(s);
    PadOfDigits(s, 0, 4);
    PadOfDigits(s, 5, 2);
    PadOfDigits(s, 8, 2);
    PadOfDigits(s, 11, 2);
    PadOfDigits(s, 14, 2);
    PadOfDigits(s, 17, 2);
    Recompose(s);
  }

  /** A 19-character string is its fields and separators put back together. */
  lemma Recompose(s: string)
    requires |s| == 19 && s[4] == '-' && s[7] == '-' && s[10] == 'T' && s[13] == ':' && s[16] == ':'
    ensures s == s[0..4] + "-" + s[5..7] + "-" + s[8..10] + "T" + s[11..13] + ":" + s[14..16] + ":" + s[17..19]
  {
    assert s[0..5] == s[0..4] + "-";
    assert s[0..7] == s[0..5] + s[5..7];
    assert s[0..8] == s[0..7] + "-";
    assert s[0..10] == s[0..8] + s[8..10];
    assert s[0..11] == s[0..10] + "T";
    assert s[0..13] == s[0..11] + s[11..13];
    assert s[0..14] == s[0..13] + ":";
    assert s[0..16] == s[0..14] + s[14..16];
    assert s[0..17] == s[0..16] + ":";
    assert s[0..19] == s[0..17] + s[17..19];
    assert s == s[0..19];
  }

  // ---------------------------------------------------------------- month rollover

  /** ingest/dateutils.py `get_next_month_date`: midnight of the first day of the next month. */
  function GetNextMonthDate(iso: string): (r: Result<DateTime, Error>)
  {
    match FromIsoFormat(iso)
    case Err(e) => Err(e)
    case Ok(d) =>
      var (y, m) := if d.month == 12 then (d.year + 1, 1) else (d.year, d.month + 1);
      MakeDate(y, m, 1)
  }

  /** What the rollover promises: the first moment of the following month, and nothing in between. */
  lemma NextMonthSpec(iso: string)
    requires FromIsoFormat(iso).Ok?
    ensures var d := FromIsoFormat(iso).value;
      var r := GetNextMonthDate(iso);
      && (r.Err? <==> d.year == 9999 && d.month == 12)
      && (r.Ok? ==>
            && r.value.day == 1 && IsMidnight(r.value)
            && (d.month == 12 ==> r.value.year == d.year + 1 && r.value.month == 1)
            && (d.month < 12 ==> r.value.year == d.year && r.value.month == d.month + 1)
            && Before(d, r.value)
            && forall e :: Valid(e) && e.day == 1 && IsMidnight(e) && Before(d, e) ==>
                 e == r.value || Before(r.value, e))
  {
  }

  // ---------------------------------------------------------------- adding 24 hours

  /** Days in the years 1 .. y-1. */
  function DaysBeforeYear(y: int): int
    requires y >= 1
  {
    if y == 1 then 0 else DaysBeforeYear(y - 1) + DaysBeforeMonth(y - 1, 13)
  }

  /** Days in the months 1 .. m-1 of year y. */
  function DaysBeforeMonth(y: int, m: int): int
    requires 1 <= m <= 13
  {
    if m == 1 then 0 else DaysBeforeMonth(y, m - 1) + DaysInMonth(y, m - 1)
  }

  /** The proleptic Gregorian day number (`date.toordinal()`): 0001-01-01 is day 1. */
  function Ordinal(d: DateTime): int
    requires Valid(d)
  {
    DaysBeforeYear(d.year) + DaysBeforeMonth(d.year, d.month) + d.day
  }

  /** `d + timedelta(hours=24)`: the next calendar day at the same time of day. */
  function AddDay(d: DateTime): (r: Result<DateTime, Error>)
    requires Valid(d)
    ensures r.Ok? ==> Valid(r.value)
  {
    if d.day < DaysInMonth(d.year, d.month) then Ok(d.(day := d.day + 1))
    else if d.month < 12 then Ok(d.(month := d.month + 1, day := 1))
    else if d.year < 9999 then Ok(d.(year := d.year + 1, month := 1, day := 1))
    else Err(OverflowError)
  }

  /** Adding 24 hours advances the day number by exactly one and keeps the time of day. */
  lemma AddDayIsOneDay(d: DateTime)
    requires Valid(d)
    ensures AddDay(d).Err? <==> d.year == 9999 && d.month == 12 && d.day == 31
    ensures AddDay(d).Ok? ==>
      var e := AddDay(d).value;
      && Ordinal(e) == Ordinal(d) + 1
      && e.hour == d.hour && e.minute == d.minute && e.second == d.second
      && Before(d, e)
  {
    if d.day == DaysInMonth(d.year, d.month) && d.month == 12 && d.year < 9999 {
      assert DaysBeforeYear(d.year + 1) == DaysBeforeYear(d.year) + DaysBeforeMonth(d.year, 13);
    }
  }
}
