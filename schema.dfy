/**
 * The canonical record every connector produces, and the field parsers that
 * turn raw CSV text into its typed fields (adpulse/ingestion/schema.py).
 *
 * Money and metric values are exact reals; Python floats are not modelled.
 */
module Schema {
  import opened Wrappers
  import opened Text
  import opened Errors

  // ---------------------------------------------------------------------
  // Calendar dates
  // ---------------------------------------------------------------------

  datatype Date = Date(year: nat, month: nat, day: nat)

  predicate IsLeapYear(y: nat) {
    y % 4 == 0 && (y % 100 != 0 || y % 400 == 0)
  }

  function DaysInMonth(y: nat, m: nat): nat
    requires 1 <= m <= 12
  {
    if m == 2 then (if IsLeapYear(y) then 29 else 28)
    else if m == 4 || m == 6 || m == 9 || m == 11 then 30
    else 31
  }

  /** The dates Python's `datetime.date` can hold (years 1 to 9999). */
  predicate ValidDate(d: Date) {
    && 1 <= d.year <= 9999
    && 1 <= d.month <= 12
    && 1 <= d.day <= DaysInMonth(d.year, d.month)
  }

  type CalendarDate = d: Date | ValidDate(d) witness Date(1970, 1, 1)

  /** Chronological order. */
  predicate DateLe(a: Date, b: Date) {
    a.year < b.year
    || (a.year == b.year && (a.month < b.month || (a.month == b.month && a.day <= b.day)))
  }

  /** `date.isoformat()`: `YYYY-MM-DD`, every field zero padded. */
  function IsoFormat(d: CalendarDate): (s: string)
    ensures |s| == 10 && s[4] == '-' && s[7] == '-'
    ensures AllDigits(s[..4]) && AllDigits(s[5..7]) && AllDigits(s[8..])
  {
    var s := Pad(d.year, 4) + "-" + Pad(d.month, 2) + "-" + Pad(d.day, 2);
    assert s[..4] == Pad(d.year, 4) && s[5..7] == Pad(d.month, 2) && s[8..] == Pad(d.day, 2);
    s
  }

  /** A date written `MM/DD/YYYY`, the Meta export's `%m/%d/%Y` layout. */
  function MonthFirstText(d: CalendarDate): string {
    Pad(d.month, 2) + "/" + Pad(d.day, 2) + "/" + Pad(d.year, 4)
  }

  /** A date written `YYYY/MM/DD`, the TikTok export's `%Y/%m/%d` layout. */
  function YearFirstText(d: CalendarDate): string {
    Pad(d.year, 4) + "/" + Pad(d.month, 2) + "/" + Pad(d.day, 2)
  }

  // ---------------------------------------------------------------------
  // The canonical record and its database tuple
  // ---------------------------------------------------------------------

  datatype NormalizedRecord = NormalizedRecord(
    platform: string,
    campaignId: string,
    campaignName: string,
    eventDate: CalendarDate,
    impressions: int,
    clicks: int,
    spend: real,
    conversions: int,
    revenue: real)

  /** One row of the `ad_performance` table, without the generated `id` and `created_at`. */
  datatype DbRow = DbRow(
    platform: string,
    campaignId: string,
    campaignName: string,
    eventDate: string,
    impressions: int,
    clicks: int,
    spend: real,
    conversions: int,
    revenue: real)

  /** `NormalizedRecord.as_db_tuple`: the nine columns in insert order, the date as ISO text. */
  function AsDbTuple(r: NormalizedRecord): (t: DbRow)
    ensures FromIsoFormat(t.eventDate) == Some(r.eventDate)
    ensures t.platform == r.platform && t.campaignId == r.campaignId && t.campaignName == r.campaignName
    ensures t.impressions == r.impressions && t.clicks == r.clicks && t.spend == r.spend
    ensures t.conversions == r.conversions && t.revenue == r.revenue
  {
    IsoFormatRoundTrip(r.eventDate);
    DbRow(r.platform, r.campaignId, r.campaignName, IsoFormat(r.eventDate),
          r.impressions, r.clicks, r.spend, r.conversions, r.revenue)
  }

  // ---------------------------------------------------------------------
  // Numbers: parse_int and parse_float
  // ---------------------------------------------------------------------

  /** The value of `whole.frac` written in decimal digits. */
  function DecimalValue(whole: string, frac: string): (x: real)
    requires AllDigits(whole) && AllDigits(frac)
    ensures DigitsValue(whole) as real <= x < DigitsValue(whole) as real + 1.0
    ensures frac == [] ==> x == DigitsValue(whole) as real
  {
    FractionBelowOne(DigitsValue(frac), Pow10(|frac|));
    DigitsValue(whole) as real + DigitsValue(frac) as real / Pow10(|frac|) as real
  }

  lemma FractionBelowOne(f: nat, p: nat)
    requires f < p
    ensures 0.0 <= f as real / p as real < 1.0
    ensures f == 0 ==> f as real / p as real == 0.0
  {
    var q := f as real / p as real;
    assert q * p as real == f as real;
  }

  /** `digits[.digits]` or `.digits`, without sign or surrounding whitespace. */
  function ParseUnsigned(s: string): (r: Option<real>)
    ensures r.Some? ==> r.value >= 0.0
  {
    var i := IndexOf(s, '.');
    var whole := s[..i];
    var frac := if i < |s| then s[i + 1..] else [];
    if AllDigits(whole) && AllDigits(frac) && (whole != [] || frac != []) then
      Some(DecimalValue(whole, frac))
    else
      None
  }

  /** An optional sign followed by `digits[.digits]` or `.digits`. */
  function ParseSigned(t: string): Option<real> {
    if t == [] then None
    else if t[0] == '-' then
      match ParseUnsigned(t[1..])
      case Some(x) => Some(-x)
      case None => None
    else if t[0] == '+' then ParseUnsigned(t[1..])
    else ParseUnsigned(t)
  }

  /**
   * Python's `float(s)` on plain decimals: surrounding whitespace, an optional
   * sign, then `digits[.digits]` or `.digits`. Anything else is rejected.
   */
  function ParseDecimal(s: string): Option<real> {
    ParseSigned(Strip(s))
  }

  /** Python's `int(x)` on a float: truncation toward zero. */
  function Truncate(x: real): (n: int)
    ensures x >= 0.0 ==> 0 <= n && n as real <= x < n as real + 1.0
    ensures x < 0.0 ==> n <= 0 && n as real - 1.0 < x <= n as real
  {
    if x >= 0.0 then x.Floor else -((-x).Floor)
  }

  /**
   * `parse_int(value, default)`: `int(float(value))`, with `default` for a
   * missing or empty value and for text `float` rejects.
   */
  function ParseInt(value: Option<string>, default: int): (n: int)
    ensures value.None? || value == Some("") ==> n == default
    ensures value.Some? && value.value != "" && ParseDecimal(value.value).None? ==> n == default
    ensures value.Some? && value.value != "" && ParseDecimal(value.value).Some? ==>
      var x := ParseDecimal(value.value).value;
      if x >= 0.0 then 0 <= n && n as real <= x < n as real + 1.0
      else n <= 0 && n as real - 1.0 < x <= n as real
  {
    if value.None? || value.value == "" then default
    else
      match ParseDecimal(value.value)
      case Some(x) => Truncate(x)
      case None => default
  }

  /** `parse_float(value, default)`: `float(value)`, with `default` for `None` and rejected text. */
  function ParseFloat(value: Option<string>, default: real): (x: real)
    ensures value.None? ==> x == default
    ensures value.Some? && ParseDecimal(value.value).None? ==> x == default
    ensures value.Some? && ParseDecimal(value.value).Some? ==> x == ParseDecimal(value.value).value
  {
    if value.None? then default else ParseDecimal(value.value).GetOr(default)
  }

  /** Digits with no sign and no point parse to the number they spell. */
  lemma ParseUnsignedDigits(s: string)
    requires s != [] && AllDigits(s)
    ensures ParseUnsigned(s) == Some(DigitsValue(s) as real)
  {
    assert forall i :: 0 <= i < |s| ==> IsDigit(s[i]) && s[i] != '.';
    IndexOfAbsent(s, '.');
    assert s[..|s|] == s;
  }

  /** Whole and fractional digits around one point parse to their value. */
  lemma ParseUnsignedPoint(whole: string, frac: string)
    requires AllDigits(whole) && AllDigits(frac) && (whole != [] || frac != [])
    ensures ParseUnsigned(whole + "." + frac)
         == Some(DecimalValue(whole, frac))
  {
    var s := whole + ['.'] + frac;
    assert '.' !in whole by {
      assert forall i :: 0 <= i < |whole| ==> IsDigit(whole[i]);
    }
    IndexOfConcat(whole, '.', frac);
    var i := IndexOf(s, '.');
    assert i == |whole| < |s|;
    assert s[..i] == whole;
    assert s[i + 1..] == frac;
  }

  /** `n` written with `w` digits parses back to `n` under both parsers. */
  lemma {:induction false} ParsePadded(n: nat, w: nat, intDefault: int, floatDefault: real)
    requires 0 < w && n < Pow10(w)
    ensures ParseInt(Some(Pad(n, w)), intDefault) == n
    ensures ParseFloat(Some(Pad(n, w)), floatDefault) == n as real
  {
    var s := Pad(n, w);
    assert IsDigit(s[0]) && IsDigit(s[|s| - 1]);
    StripUnchanged(s);
    ParseUnsignedDigits(s);
    PadRoundTrip(n, w);
  }

  /** `a.b` written as padded digits parses back to `a + b / 10^k`. */
  lemma {:induction false} ParsePaddedPoint(a: nat, n: nat, b: nat, k: nat, floatDefault: real)
    requires 0 < n && a < Pow10(n) && b < Pow10(k)
    ensures ParseFloat(Some(Pad(a, n) + "." + Pad(b, k)), floatDefault)
         == a as real + b as real / Pow10(k) as real
  {
    var whole, frac := Pad(a, n), Pad(b, k);
    PaddedPointDecimal(whole, frac);
    assert DecimalValue(whole, frac) == a as real + b as real / Pow10(k) as real by {
      PadRoundTrip(a, n);
      PadRoundTrip(b, k);
    }
  }

  /** Digits around one point, with no sign, are read as that decimal. */
  lemma ParseSignedPoint(whole: string, frac: string)
    requires whole != [] && AllDigits(whole) && AllDigits(frac)
    ensures ParseSigned(whole + "." + frac) == Some(DecimalValue(whole, frac))
  {
    var s := whole + "." + frac;
    assert s[0] == whole[0];
    ParseUnsignedPoint(whole, frac);
  }

  /** Digits around one point, with nothing to strip, are read as that decimal. */
  lemma PaddedPointDecimal(whole: string, frac: string)
    requires whole != [] && AllDigits(whole) && AllDigits(frac)
    ensures ParseDecimal(whole + "." + frac) == Some(DecimalValue(whole, frac))
  {
    ParseSignedPoint(whole, frac);
    StripPaddedPoint(whole, frac);
  }

  lemma StripPaddedPoint(whole: string, frac: string)
    requires whole != [] && AllDigits(whole) && AllDigits(frac)
    ensures Strip(whole + "." + frac) == whole + "." + frac
  {
    var s := whole + "." + frac;
    assert IsDigit(s[0]);
    assert !IsSpace(s[|s| - 1]) by {
      if frac != [] {
        assert s[|s| - 1] == frac[|frac| - 1];
        assert IsDigit(frac[|frac| - 1]);
      } else {
        assert s[|s| - 1] == '.';
      }
    }
    StripUnchanged(s);
  }

  /** `parse_int` truncates toward zero: `"a.b"` gives `a` whatever the fraction. */
  lemma ParseIntTruncates(a: nat, n: nat, b: nat, k: nat, intDefault: int)
    requires 0 < n && a < Pow10(n) && b < Pow10(k)
    ensures ParseInt(Some(Pad(a, n) + "." + Pad(b, k)), intDefault) == a
  {
    var whole, frac := Pad(a, n), Pad(b, k);
    PaddedPointDecimal(whole, frac);
    PadRoundTrip(a, n);
    var x := DecimalValue(whole, frac);
    assert a as real <= x < a as real + 1.0;
  }

  /**
   * Text that starts with neither whitespace, a sign, a digit nor a point is
   * not a number: both parsers fall back to their default.
   */
  lemma NonNumericGivesDefault(s: string, intDefault: int, floatDefault: real)
    requires s != [] && !IsSpace(s[0]) && !IsDigit(s[0]) && s[0] != '+' && s[0] != '-' && s[0] != '.'
    ensures ParseDecimal(s).None?
    ensures ParseInt(Some(s), intDefault) == intDefault
    ensures ParseFloat(Some(s), floatDefault) == floatDefault
  {
    var t := Strip(s);
    assert TrimStart(s, Space) == s;
    if t != [] {
      assert t[0] == s[0];
      var i := IndexOf(t, '.');
      assert i > 0;
      assert t[..i][0] == s[0];
    }
  }

  /** "12.0" and "12.7" both give 12. */
  lemma ParseIntTwelve(intDefault: int)
    ensures ParseInt(Some("12.0"), intDefault) == 12
    ensures ParseInt(Some("12.7"), intDefault) == 12
  {
    assert "12.0" == Pad(12, 2) + "." + Pad(0, 1);
    assert "12.7" == Pad(12, 2) + "." + Pad(7, 1);
    ParseIntTruncates(12, 2, 0, 1, intDefault);
    ParseIntTruncates(12, 2, 7, 1, intDefault);
  }

  /** "abc" and "$5.00" are not numbers. */
  lemma NonNumericExamples(intDefault: int, floatDefault: real)
    ensures ParseInt(Some("abc"), intDefault) == intDefault
    ensures ParseFloat(Some("abc"), floatDefault) == floatDefault
    ensures ParseFloat(Some("$5.00"), floatDefault) == floatDefault
  {
    NonNumericGivesDefault("abc", intDefault, floatDefault);
    NonNumericGivesDefault("$5.00", intDefault, floatDefault);
  }

  // ---------------------------------------------------------------------
  // Dates: parse_date
  // ---------------------------------------------------------------------

  /** The three `strptime` formats `parse_date` tries, in this order. */
  datatype DateFormat =
    | IsoDash         // "%Y-%m-%d"
    | MonthFirstSlash // "%m/%d/%Y"
    | YearFirstSlash  // "%Y/%m/%d"

  /** `s` cut at the first two occurrences of `sep`. */
  function Split3(s: string, sep: char): (r: Option<(string, string, string)>)
    ensures r.Some? ==> s == r.value.0 + [sep] + r.value.1 + [sep] + r.value.2
    ensures r.Some? ==> sep !in r.value.0 && sep !in r.value.1
  {
    var i := IndexOf(s, sep);
    if i == |s| then None
    else
      var rest := s[i + 1..];
      var j := IndexOf(rest, sep);
      if j == |rest| then None
      else
        SplitTwice(s, i, j);
        Some((s[..i], rest[..j], rest[j + 1..]))
  }

  lemma SplitTwice(s: string, i: nat, j: nat)
    requires i < |s| && j < |s[i + 1..]|
    ensures s == s[..i] + [s[i]] + s[i + 1..][..j] + [s[i + 1..][j]] + s[i + 1..][j + 1..]
  {
    var rest := s[i + 1..];
    assert rest == rest[..j] + [rest[j]] + rest[j + 1..];
    assert s == s[..i] + [s[i]] + rest;
  }

  lemma Split3Parts(a: string, b: string, c: string, sep: char)
    requires sep !in a && sep !in b
    ensures Split3(a + [sep] + b + [sep] + c, sep) == Some((a, b, c))
  {
    var s := a + [sep] + b + [sep] + c;
    IndexOfConcat(a, sep, b + [sep] + c);
    assert s == a + [sep] + (b + [sep] + c);
    var rest := s[|a| + 1..];
    assert rest == b + [sep] + c;
    IndexOfConcat(b, sep, c);
    assert rest[..|b|] == b && rest[|b| + 1..] == c;
    assert s[..|a|] == a;
  }

  /** What `%Y` matches: exactly four ASCII digits. */
  predicate YearToken(s: string) {
    |s| == 4 && AllDigits(s)
  }

  /** What `%m` matches: `1[0-2]|0[1-9]|[1-9]`. */
  predicate MonthToken(s: string) {
    || (|s| == 1 && '1' <= s[0] <= '9')
    || (|s| == 2 && s[0] == '0' && '1' <= s[1] <= '9')
    || (|s| == 2 && s[0] == '1' && '0' <= s[1] <= '2')
  }

  /** What `%d` matches: `3[01]|[12]\d|0[1-9]|[1-9]| [1-9]`. */
  predicate DayToken(s: string) {
    || (|s| == 1 && '1' <= s[0] <= '9')
    || (|s| == 2 && s[0] == ' ' && '1' <= s[1] <= '9')
    || (|s| == 2 && s[0] == '0' && '1' <= s[1] <= '9')
    || (|s| == 2 && '1' <= s[0] <= '2' && IsDigit(s[1]))
    || (|s| == 2 && s[0] == '3' && '0' <= s[1] <= '1')
  }

  function DayValue(s: string): nat
    requires DayToken(s)
  {
    if s[0] == ' ' then DigitValue(s[1]) else DigitsValue(s)
  }

  /** The date three matched fields denote, if it is on the calendar. */
  function DateOf(y: string, m: string, d: string): (r: Option<CalendarDate>)
    ensures r.Some? ==> YearToken(y) && MonthToken(m) && DayToken(d)
  {
    if YearToken(y) && MonthToken(m) && DayToken(d) then
      var date := Date(DigitsValue(y), DigitsValue(m), DayValue(d));
      if ValidDate(date) then Some(date) else None
    else None
  }

  /**
   * `datetime.strptime(s, fmt).date()`: the whole of `s` must match the
   * format, and the fields must name a real calendar date.
   */
  function Strptime(s: string, fmt: DateFormat): Option<CalendarDate> {
    match fmt
    case IsoDash =>
      (match Split3(s, '-')
       case Some((y, m, d)) => DateOf(y, m, d)
       case None => None)
    case MonthFirstSlash =>
      (match Split3(s, '/')
       case Some((m, d, y)) => DateOf(y, m, d)
       case None => None)
    case YearFirstSlash =>
      (match Split3(s, '/')
       case Some((y, m, d)) => DateOf(y, m, d)
       case None => None)
  }

  /** `YYYY-MM-DD` in ASCII digits: the only text `date.fromisoformat` reads fields from here. */
  predicate IsoText(s: string) {
    && |s| == 10 && s[4] == '-' && s[7] == '-'
    && AllDigits(s[..4]) && AllDigits(s[5..7]) && AllDigits(s[8..])
  }

  /** The year, month and day ISO text spells, before any range check. */
  function IsoFields(s: string): Date
    requires IsoText(s)
  {
    Date(DigitsValue(s[..4]), DigitsValue(s[5..7]), DigitsValue(s[8..]))
  }

  /** `date.fromisoformat(s)` in its basic form: exactly `YYYY-MM-DD` naming a calendar day. */
  function FromIsoFormat(s: string): Option<CalendarDate> {
    if IsoText(s) && ValidDate(IsoFields(s)) then Some(IsoFields(s)) else None
  }

  /**
   * The `ValueError` `date.fromisoformat(s)` raises, if any: text that is not
   * `YYYY-MM-DD` is not an ISO string; otherwise the `date` constructor checks
   * the fields it read, the year first, then the month, then the day.
   */
  function IsoFormatError(s: string): (e: Option<Error>)
    ensures e.None? <==> FromIsoFormat(s).Some?
    ensures e == Some(InvalidDate(s)) <==> !IsoText(s)
    ensures e == Some(YearOutOfRange) <==> IsoText(s) && IsoFields(s).year == 0
    ensures e == Some(MonthOutOfRange) <==>
      IsoText(s) && IsoFields(s).year != 0 && !(1 <= IsoFields(s).month <= 12)
    ensures e == Some(DayOutOfRange) <==>
      && IsoText(s) && IsoFields(s).year != 0 && 1 <= IsoFields(s).month <= 12
      && !(1 <= IsoFields(s).day <= DaysInMonth(IsoFields(s).year, IsoFields(s).month))
  {
    if !IsoText(s) then Some(InvalidDate(s))
    else
      var d := IsoFields(s);
      assert d.year < 10000 by { assert Pow10(4) == 10000; }
      if d.year == 0 then Some(YearOutOfRange)
      else if !(1 <= d.month <= 12) then Some(MonthOutOfRange)
      else if !(1 <= d.day <= DaysInMonth(d.year, d.month)) then Some(DayOutOfRange)
      else None
  }

  /**
   * `parse_date(value)`: a missing or empty value is an error; otherwise the
   * three formats are tried in order and the first success wins, then
   * `date.fromisoformat`, whose error is the one raised.
   */
  function ParseDate(value: Option<string>): (r: Result<CalendarDate, Error>)
    ensures value.None? || value == Some("") ==> r == Err(MissingDate)
    ensures value.Some? && value.value != "" && r.Err? ==> Some(r.error) == IsoFormatError(value.value)
    ensures value.Some? && Strptime(value.value, IsoDash).Some? ==>
      r == Ok(Strptime(value.value, IsoDash).value)
  {
    if value.None? || value.value == "" then Err(MissingDate)
    else
      var s := value.value;
      match Strptime(s, IsoDash)
      case Some(d) => Ok(d)
      case None =>
        match Strptime(s, MonthFirstSlash)
        case Some(d) => Ok(d)
        case None =>
          match Strptime(s, YearFirstSlash)
          case Some(d) => Ok(d)
          case None =>
            match FromIsoFormat(s)
            case Some(d) => Ok(d)
            case None => Err(IsoFormatError(s).value)
  }

  /** A two-digit field between 1 and 12 is a `%m` token. */
  lemma TwoDigitMonth(s: string)
    requires |s| == 2 && AllDigits(s) && 1 <= DigitsValue(s) <= 12
    ensures MonthToken(s)
  {
    assert s[..1][..0] == [];
    assert DigitsValue(s) == 10 * DigitValue(s[0]) + DigitValue(s[1]);
  }

  /** A two-digit field between 1 and 31 is a `%d` token with the same value. */
  lemma TwoDigitDay(s: string)
    requires |s| == 2 && AllDigits(s) && 1 <= DigitsValue(s) <= 31
    ensures DayToken(s) && DayValue(s) == DigitsValue(s)
  {
    assert s[..1][..0] == [];
    assert DigitsValue(s) == 10 * DigitValue(s[0]) + DigitValue(s[1]);
  }

  /** The `date.fromisoformat` fallback never accepts what `%Y-%m-%d` rejected. */
  lemma FromIsoFormatSubsumed(s: string)
    requires FromIsoFormat(s).Some?
    ensures Strptime(s, IsoDash) == FromIsoFormat(s)
  {
    var y, m, d := s[..4], s[5..7], s[8..];
    assert s == y + "-" + m + "-" + d;
    assert '-' !in y && '-' !in m by {
      assert forall i :: 0 <= i < |y| ==> IsDigit(y[i]);
      assert forall i :: 0 <= i < |m| ==> IsDigit(m[i]);
    }
    Split3Parts(y, m, d, '-');
    TwoDigitMonth(m);
    TwoDigitDay(d);
  }

  /** `date.isoformat` and `date.fromisoformat` are inverse. */
  lemma IsoFormatRoundTrip(d: CalendarDate)
    ensures FromIsoFormat(IsoFormat(d)) == Some(d)
  {
    var s := IsoFormat(d);
    assert s[..4] == Pad(d.year, 4) && s[5..7] == Pad(d.month, 2) && s[8..] == Pad(d.day, 2);
    PadRoundTrip(d.year, 4);
    PadRoundTrip(d.month, 2);
    PadRoundTrip(d.day, 2);
  }

  /** The ISO text is the only spelling `date.fromisoformat` accepts for a date. */
  lemma FromIsoFormatOnly(s: string)
    requires FromIsoFormat(s).Some?
    ensures IsoFormat(FromIsoFormat(s).value) == s
  {
    var y, m, d := s[..4], s[5..7], s[8..];
    DigitsPadRoundTrip(y);
    DigitsPadRoundTrip(m);
    DigitsPadRoundTrip(d);
    assert s == y + "-" + m + "-" + d;
  }

  /** `parse_date` reads back the ISO text `as_db_tuple` writes. */
  lemma ParseDateIsoRoundTrip(d: CalendarDate)
    ensures ParseDate(Some(IsoFormat(d))) == Ok(d)
  {
    IsoFormatRoundTrip(d);
    FromIsoFormatSubsumed(IsoFormat(d));
  }

  /**
   * `parse_date` succeeds exactly when one of the three formats matches: the
   * `date.fromisoformat` fallback adds nothing, and no result is off the calendar.
   */
  lemma ParseDateSucceedsIff(s: string)
    requires s != ""
    ensures ParseDate(Some(s)).Ok? <==>
      (Strptime(s, IsoDash).Some? || Strptime(s, MonthFirstSlash).Some? || Strptime(s, YearFirstSlash).Some?)
  {
    if FromIsoFormat(s).Some? {
      FromIsoFormatSubsumed(s);
    }
  }

  /** Zero-padded digits contain no separator. */
  lemma PadHasNo(n: nat, w: nat, c: char)
    requires !IsDigit(c)
    ensures c !in Pad(n, w)
  {
    var p := Pad(n, w);
    assert forall i :: 0 <= i < |p| ==> IsDigit(p[i]);
  }

  /** Padded fields in range denote the date they spell, if it is on the calendar. */
  lemma DateOfPadded(y: nat, m: nat, d: nat)
    requires y < 10000 && 1 <= m <= 12 && 1 <= d <= 31
    ensures DateOf(Pad(y, 4), Pad(m, 2), Pad(d, 2))
         == if ValidDate(Date(y, m, d)) then Some(Date(y, m, d)) else None
  {
    PadRoundTrip(y, 4);
    PadRoundTrip(m, 2);
    PadRoundTrip(d, 2);
    TwoDigitMonth(Pad(m, 2));
    TwoDigitDay(Pad(d, 2));
  }

  /** Text without a `-` fails `%Y-%m-%d`; text without a `/` fails both slash formats. */
  lemma StrptimeNeedsSeparator(s: string)
    ensures '-' !in s ==> Strptime(s, IsoDash).None?
    ensures '/' !in s ==> Strptime(s, MonthFirstSlash).None? && Strptime(s, YearFirstSlash).None?
  {
    if '-' !in s {
      IndexOfAbsent(s, '-');
    }
    if '/' !in s {
      IndexOfAbsent(s, '/');
    }
  }

  /**
   * `MM/DD/YYYY` text is read month first, as `%m/%d/%Y`: "01/02/2024" is
   * 2 January 2024.
   */
  lemma ParseDateMonthFirst(date: CalendarDate)
    ensures ParseDate(Some(MonthFirstText(date))) == Ok(date)
  {
    var y, m, d := date.year, date.month, date.day;
    var s := Pad(m, 2) + "/" + Pad(d, 2) + "/" + Pad(y, 4);
    assert Strptime(s, IsoDash).None? by {
      PadHasNo(m, 2, '-');
      PadHasNo(d, 2, '-');
      PadHasNo(y, 4, '-');
      StrptimeNeedsSeparator(s);
    }
    assert Strptime(s, MonthFirstSlash) == Some(Date(y, m, d)) by {
      PadHasNo(m, 2, '/');
      PadHasNo(d, 2, '/');
      Split3Parts(Pad(m, 2), Pad(d, 2), Pad(y, 4), '/');
      DateOfPadded(y, m, d);
    }
  }

  /**
   * `YYYY/MM/DD` text fails `%m/%d/%Y` (a four-digit first field is no
   * month) and is read year first: "2024/03/01" is 1 March 2024.
   */
  lemma ParseDateYearFirst(date: CalendarDate)
    ensures ParseDate(Some(YearFirstText(date))) == Ok(date)
  {
    var y, m, d := date.year, date.month, date.day;
    var s := Pad(y, 4) + "/" + Pad(m, 2) + "/" + Pad(d, 2);
    assert Strptime(s, IsoDash).None? by {
      PadHasNo(m, 2, '-');
      PadHasNo(d, 2, '-');
      PadHasNo(y, 4, '-');
      StrptimeNeedsSeparator(s);
    }
    YearFirstFields(y, m, d);
  }

  /** The slash formats on `YYYY/MM/DD` text: only the year-first one matches. */
  lemma YearFirstFields(y: nat, m: nat, d: nat)
    requires ValidDate(Date(y, m, d))
    ensures var s := Pad(y, 4) + "/" + Pad(m, 2) + "/" + Pad(d, 2);
      Strptime(s, MonthFirstSlash).None? && Strptime(s, YearFirstSlash) == Some(Date(y, m, d))
  {
    PadHasNo(y, 4, '/');
    PadHasNo(m, 2, '/');
    Split3Parts(Pad(y, 4), Pad(m, 2), Pad(d, 2), '/');
    assert !YearToken(Pad(d, 2));
    DateOfPadded(y, m, d);
  }

  /** The ISO text of in-range fields. */
  lemma IsoShaped(y: nat, m: nat, d: nat)
    requires y < 10000 && 1 <= m <= 12 && 1 <= d <= 31
    ensures var s := Pad(y, 4) + "-" + Pad(m, 2) + "-" + Pad(d, 2);
      && Strptime(s, IsoDash) == DateOf(Pad(y, 4), Pad(m, 2), Pad(d, 2))
      && Strptime(s, MonthFirstSlash).None? && Strptime(s, YearFirstSlash).None?
      && FromIsoFormat(s) == DateOf(Pad(y, 4), Pad(m, 2), Pad(d, 2))
  {
    IsoNoSlash(y, m, d);
    IsoDashFields(y, m, d);
    IsoFromIsoFormat(y, m, d);
  }

  lemma IsoNoSlash(y: nat, m: nat, d: nat)
    ensures var s := Pad(y, 4) + "-" + Pad(m, 2) + "-" + Pad(d, 2);
      Strptime(s, MonthFirstSlash).None? && Strptime(s, YearFirstSlash).None?
  {
    var s := Pad(y, 4) + "-" + Pad(m, 2) + "-" + Pad(d, 2);
    assert '/' !in s by {
      PadHasNo(y, 4, '/');
      PadHasNo(m, 2, '/');
      PadHasNo(d, 2, '/');
    }
    StrptimeNeedsSeparator(s);
  }

  lemma IsoDashFields(y: nat, m: nat, d: nat)
    ensures var s := Pad(y, 4) + "-" + Pad(m, 2) + "-" + Pad(d, 2);
      Strptime(s, IsoDash) == DateOf(Pad(y, 4), Pad(m, 2), Pad(d, 2))
  {
    PadHasNo(y, 4, '-');
    PadHasNo(m, 2, '-');
    Split3Parts(Pad(y, 4), Pad(m, 2), Pad(d, 2), '-');
  }

  lemma IsoFromIsoFormat(y: nat, m: nat, d: nat)
    requires y < 10000 && 1 <= m <= 12 && 1 <= d <= 31
    ensures var s := Pad(y, 4) + "-" + Pad(m, 2) + "-" + Pad(d, 2);
      FromIsoFormat(s) == DateOf(Pad(y, 4), Pad(m, 2), Pad(d, 2))
  {
    var s := Pad(y, 4) + "-" + Pad(m, 2) + "-" + Pad(d, 2);
    assert |s| == 10 && s[4] == '-' && s[7] == '-';
    assert s[..4] == Pad(y, 4) && s[5..7] == Pad(m, 2) && s[8..] == Pad(d, 2);
    DateOfPadded(y, m, d);
    PadRoundTrip(y, 4);
    PadRoundTrip(m, 2);
    PadRoundTrip(d, 2);
  }

  /**
   * ISO-shaped text whose fields are in range but name no calendar day is
   * rejected by every format, and the error is the `date` constructor's:
   * "2023-02-29" fails because 2023 is not a leap year, with "day is out of
   * range for month"; "0000-01-01" fails with "year 0 is out of range".
   */
  lemma ParseDateRejectsOffCalendar(y: nat, m: nat, d: nat)
    requires y < 10000 && 1 <= m <= 12 && 1 <= d <= 31 && !ValidDate(Date(y, m, d))
    ensures var s := Pad(y, 4) + "-" + Pad(m, 2) + "-" + Pad(d, 2);
      ParseDate(Some(s)) == Err(if y == 0 then YearOutOfRange else DayOutOfRange)
  {
    var s := Pad(y, 4) + "-" + Pad(m, 2) + "-" + Pad(d, 2);
    IsoShaped(y, m, d);
    DateOfPadded(y, m, d);
    IsoTextPadded(y, m, d);
    assert IsoFormatError(s) == Some(if y == 0 then YearOutOfRange else DayOutOfRange);
    ParseDateFallback(s);
  }

  /**
   * ISO-shaped text with a month outside 1..12 fails every format with the
   * `date` constructor's month error: "2023-13-01".
   */
  lemma ParseDateRejectsMonth(y: nat, m: nat, d: nat)
    requires 1 <= y < 10000 && (m == 0 || 12 < m < 100) && d < 100
    ensures var s := Pad(y, 4) + "-" + Pad(m, 2) + "-" + Pad(d, 2);
      ParseDate(Some(s)) == Err(MonthOutOfRange)
  {
    var s := Pad(y, 4) + "-" + Pad(m, 2) + "-" + Pad(d, 2);
    IsoNoSlash(y, m, d);
    PaddedMonthToken(m);
    IsoDashNone(y, m, d);
    IsoTextPadded(y, m, d);
    assert IsoFormatError(s) == Some(MonthOutOfRange);
    ParseDateFallback(s);
  }

  /** Text no format reads fails with the error `date.fromisoformat` raises. */
  lemma ParseDateFallback(s: string)
    requires s != "" && Strptime(s, IsoDash).None?
    requires Strptime(s, MonthFirstSlash).None? && Strptime(s, YearFirstSlash).None?
    ensures IsoFormatError(s).Some? ==> ParseDate(Some(s)) == Err(IsoFormatError(s).value)
  {
  }

  lemma IsoDashNone(y: nat, m: nat, d: nat)
    requires !MonthToken(Pad(m, 2))
    ensures Strptime(Pad(y, 4) + "-" + Pad(m, 2) + "-" + Pad(d, 2), IsoDash).None?
  {
    IsoDashFields(y, m, d);
  }

  /** A two-digit month outside 1..12 is no `%m` token. */
  lemma PaddedMonthToken(m: nat)
    requires m == 0 || 12 < m < 100
    ensures !MonthToken(Pad(m, 2))
  {
    var s := Pad(m, 2);
    PadRoundTrip(m, 2);
    assert s[..1][..0] == [];
    assert m == 10 * DigitValue(s[0]) + DigitValue(s[1]);
  }

  /** Zero-padded fields joined by dashes are ISO text spelling those fields. */
  lemma IsoTextPadded(y: nat, m: nat, d: nat)
    requires y < 10000 && m < 100 && d < 100
    ensures var s := Pad(y, 4) + "-" + Pad(m, 2) + "-" + Pad(d, 2);
      IsoText(s) && IsoFields(s) == Date(y, m, d)
  {
    var s := Pad(y, 4) + "-" + Pad(m, 2) + "-" + Pad(d, 2);
    assert s[..4] == Pad(y, 4) && s[5..7] == Pad(m, 2) && s[8..] == Pad(d, 2);
    PadRoundTrip(y, 4);
    PadRoundTrip(m, 2);
    PadRoundTrip(d, 2);
  }
}
