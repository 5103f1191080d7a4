/**
 * The helpers behind the metrics API (adpulse/api/utils.py): the guarded
 * ratios, the inclusive date-range filter on the stored ISO date text, and
 * reading a stored date back.
 */
module ApiUtils {
  import opened Wrappers
  import opened Text
  import opened Errors
  import opened Schema

  // ---------------------------------------------------------------------
  // round(x, 4) and the ratios
  // ---------------------------------------------------------------------

  /** The integer nearest `s`, ties to the even one. */
  function RoundHalfEven(s: real): (n: int)
    ensures -(1.0 / 2.0) <= n as real - s <= 1.0 / 2.0
  {
    var f := s.Floor;
    var frac := s - f as real;
    if frac < 1.0 / 2.0 then f
    else if frac > 1.0 / 2.0 then f + 1
    else if f % 2 == 0 then f
    else f + 1
  }

  /** `round(x, 4)` on an exact real: the nearest multiple of 1/10000, ties to even. */
  function Round4(x: real): (y: real)
    ensures -(1.0 / 20000.0) <= y - x <= 1.0 / 20000.0
    ensures (y * 10000.0).Floor as real == y * 10000.0
  {
    var n := RoundHalfEven(x * 10000.0);
    assert n as real / 10000.0 - x == (n as real - x * 10000.0) / 10000.0;
    assert (n as real / 10000.0) * 10000.0 == n as real;
    assert (n as real).Floor == n;
    n as real / 10000.0
  }

  /** A value with at most four decimals is left as it is by rounding. */
  lemma Round4Exact(n: int)
    ensures Round4(n as real / 10000.0) == n as real / 10000.0
  {
    assert (n as real / 10000.0) * 10000.0 == n as real;
    assert (n as real).Floor == n;
  }

  /** `calc_ctr`: clicks over impressions to four places, and 0.0 when there are no impressions. */
  function CalcCtr(clicks: int, impressions: int): (r: real)
    ensures impressions == 0 ==> r == 0.0
    ensures impressions != 0 ==>
      -(1.0 / 20000.0) <= r - clicks as real / impressions as real <= 1.0 / 20000.0
    ensures (r * 10000.0).Floor as real == r * 10000.0
  {
    if impressions != 0 then Round4(clicks as real / impressions as real) else 0.0
  }

  /** `calc_rate`: a ratio to four places, and 0.0 for a zero denominator. */
  function CalcRate(numerator: real, denominator: real): (r: real)
    ensures denominator == 0.0 ==> r == 0.0
    ensures denominator != 0.0 ==> -(1.0 / 20000.0) <= r - numerator / denominator <= 1.0 / 20000.0
    ensures (r * 10000.0).Floor as real == r * 10000.0
  {
    if denominator != 0.0 then Round4(numerator / denominator) else 0.0
  }

  /** The summary test's figures: a CTR of 100 clicks in 1000 impressions is 0.1, a ROAS of 500 over 200 is 2.5. */
  lemma SummaryTestRatios()
    ensures CalcCtr(100, 1000) == 0.1
    ensures CalcRate(500.0, 200.0) == 2.5
  {
    Round4Exact(1000);
    assert 100 as real / 1000 as real == 1000 as real / 10000.0;
    Round4Exact(25000);
    assert 500.0 / 200.0 == 25000 as real / 10000.0;
  }

  // ---------------------------------------------------------------------
  // apply_date_filters
  // ---------------------------------------------------------------------

  /**
   * The conditions `apply_date_filters` adds on the stored `event_date`
   * text: at or after the start's ISO text, at or before the end's; an
   * absent bound adds nothing.
   */
  predicate InDateRange(eventDate: string, start: Option<CalendarDate>, end: Option<CalendarDate>) {
    && (start.Some? ==> LexLe(IsoFormat(start.value), eventDate))
    && (end.Some? ==> LexLe(eventDate, IsoFormat(end.value)))
  }

  /** The stored rows the filtered query returns, in table order. */
  function ApplyDateFilters(t: seq<DbRow>, start: Option<CalendarDate>, end: Option<CalendarDate>): (kept: seq<DbRow>)
    ensures forall r :: r in kept <==> r in t && InDateRange(r.eventDate, start, end)
    ensures forall r :: multiset(kept)[r] == if InDateRange(r.eventDate, start, end) then multiset(t)[r] else 0
  {
    if t == [] then []
    else
      var rest := ApplyDateFilters(t[1..], start, end);
      var kept := if InDateRange(t[0].eventDate, start, end) then [t[0]] + rest else rest;
      assert t == [t[0]] + t[1..];
      assert multiset(t) == multiset{t[0]} + multiset(t[1..]);
      assert multiset(kept) == if InDateRange(t[0].eventDate, start, end) then multiset{t[0]} + multiset(rest) else multiset(rest);
      kept
  }

  /** Filtering keeps table order: the rows kept from two runs of rows, one after the other. */
  lemma {:induction false} ApplyDateFiltersConcat(a: seq<DbRow>, b: seq<DbRow>, start: Option<CalendarDate>, end: Option<CalendarDate>)
    ensures ApplyDateFilters(a + b, start, end) == ApplyDateFilters(a, start, end) + ApplyDateFilters(b, start, end)
    decreases |a|
  {
    if a == [] {
      assert a + b == b;
    } else {
      assert (a + b)[0] == a[0] && (a + b)[1..] == a[1..] + b;
      ApplyDateFiltersConcat(a[1..], b, start, end);
      var head := if InDateRange(a[0].eventDate, start, end) then [a[0]] else [];
      RowsAssoc(head, ApplyDateFilters(a[1..], start, end), ApplyDateFilters(b, start, end));
    }
  }

  lemma RowsAssoc(a: seq<DbRow>, b: seq<DbRow>, c: seq<DbRow>)
    ensures a + (b + c) == a + b + c
  {
  }

  lemma IsoParts(d: CalendarDate)
    ensures IsoFormat(d) == Pad(d.year, 4) + ("-" + (Pad(d.month, 2) + ("-" + Pad(d.day, 2))))
  {
  }

  /** Comparing ISO texts as strings is comparing the dates. */
  lemma IsoOrder(a: CalendarDate, b: CalendarDate)
    ensures LexLe(IsoFormat(a), IsoFormat(b)) <==> DateLe(a, b)
  {
    var ya, ma, da := Pad(a.year, 4), Pad(a.month, 2), Pad(a.day, 2);
    var yb, mb, db := Pad(b.year, 4), Pad(b.month, 2), Pad(b.day, 2);
    IsoParts(a);
    IsoParts(b);
    assert Pow10(4) == 10000 && Pow10(2) == 100;
    PadOrder(a.year, b.year, 4);
    PadOrder(a.month, b.month, 2);
    PadOrder(a.day, b.day, 2);
    LexLeConcat(ya, "-" + (ma + ("-" + da)), yb, "-" + (mb + ("-" + db)));
    LexLeConcat("-", ma + ("-" + da), "-", mb + ("-" + db));
    LexLeConcat(ma, "-" + da, mb, "-" + db);
    LexLeConcat("-", da, "-", db);
  }

  /**
   * On rows written by `as_db_tuple`, the string filter is a true date
   * range: a row is kept exactly when its date lies between the bounds,
   * both included.
   */
  lemma DateFilterIsRange(d: CalendarDate, start: Option<CalendarDate>, end: Option<CalendarDate>)
    ensures InDateRange(IsoFormat(d), start, end) <==>
      (start.Some? ==> DateLe(start.value, d)) && (end.Some? ==> DateLe(d, end.value))
  {
    if start.Some? {
      IsoOrder(start.value, d);
    }
    if end.Some? {
      IsoOrder(d, end.value);
    }
  }

  // ---------------------------------------------------------------------
  // parse_event_date
  // ---------------------------------------------------------------------

  /** `parse_event_date`: `date.fromisoformat` of the stored text. */
  function ParseEventDate(value: string): (r: Result<CalendarDate, Error>)
    ensures r.Ok? ==> IsoFormat(r.value) == value
    ensures r.Err? ==> Some(r.error) == IsoFormatError(value)
  {
    match FromIsoFormat(value)
    case Some(d) =>
      FromIsoFormatOnly(value);
      Ok(d)
    case None => Err(IsoFormatError(value).value)
  }

  /** Reading back the date `as_db_tuple` stored gives the record's date. */
  lemma ParseEventDateInverts(r: NormalizedRecord)
    ensures ParseEventDate(AsDbTuple(r).eventDate) == Ok(r.eventDate)
  {
  }
}
