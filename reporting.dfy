/**
 * The pure parts of report building (adpulse/reporting/report_service.py):
 * reading the date arguments, choosing the ten campaigns with the largest
 * spend, and naming the PDF. Fetching the summaries over HTTP, asking for
 * AI text and drawing the PDF are not part of this model; the campaign
 * summaries arrive as a parameter.
 */
module Reporting {
  import opened Wrappers
  import opened Errors
  import opened Schema

  // ---------------------------------------------------------------------
  // _ensure_date
  // ---------------------------------------------------------------------

  /** The argument a caller passes for a date: a `date`, a string, or anything else. */
  datatype DateArg = DateValue(date: CalendarDate) | TextValue(text: string) | OtherValue

  /**
   * `_ensure_date`: a date is returned as it is; a string is read by
   * `fromisoformat`; anything else is refused.
   */
  function EnsureDate(v: DateArg): (r: Result<CalendarDate, Error>)
    ensures v.DateValue? ==> r == Ok(v.date)
    ensures v.OtherValue? ==> r == Err(NotADate)
    ensures v.TextValue? && r.Ok? ==> IsoFormat(r.value) == v.text
    ensures v.TextValue? && r.Err? ==> Some(r.error) == IsoFormatError(v.text)
  {
    match v
    case DateValue(d) => Ok(d)
    case TextValue(s) =>
      (match FromIsoFormat(s)
       case Some(d) =>
         FromIsoFormatOnly(s);
         Ok(d)
       case None => Err(IsoFormatError(s).value))
    case OtherValue => Err(NotADate)
  }

  /** A date and its ISO text are read as the same date. */
  lemma EnsureDateText(d: CalendarDate)
    ensures EnsureDate(TextValue(IsoFormat(d))) == EnsureDate(DateValue(d))
  {
    IsoFormatRoundTrip(d);
  }

  // ---------------------------------------------------------------------
  // Top campaigns
  // ---------------------------------------------------------------------

  /** One row of `/campaigns/summary`; `totalSpend` is `None` when the key is absent. */
  datatype CampaignSummary = CampaignSummary(campaignId: string, campaignName: string, totalSpend: Option<real>)

  /** The sort key `row.get("total_spend", 0)`. */
  function SpendKey(c: CampaignSummary): real {
    if c.totalSpend.Some? then c.totalSpend.value else 0.0
  }

  predicate NonIncreasing(s: seq<CampaignSummary>) {
    forall i, j :: 0 <= i < j < |s| ==> SpendKey(s[j]) <= SpendKey(s[i])
  }

  /** `c` placed after every row whose key is at least its own. */
  function Insert(s: seq<CampaignSummary>, c: CampaignSummary): (r: seq<CampaignSummary>)
    ensures multiset(r) == multiset(s) + multiset{c}
  {
    if s == [] then [c]
    else if SpendKey(s[0]) < SpendKey(c) then [c] + s
    else
      assert s == [s[0]] + s[1..];
      [s[0]] + Insert(s[1..], c)
  }

  /** `sorted(rows, key=total_spend, reverse=True)`: a stable sort by decreasing spend. */
  function SortBySpend(rows: seq<CampaignSummary>): seq<CampaignSummary> {
    if rows == [] then [] else Insert(SortBySpend(rows[..|rows| - 1]), rows[|rows| - 1])
  }

  /** A row as the rows of key `k` see it: itself if its key is `k`, else nothing. */
  function Keyed(c: CampaignSummary, k: real): seq<CampaignSummary> {
    if SpendKey(c) == k then [c] else []
  }

  /** The rows whose spend key is `k`, in their order. */
  function WithSpend(s: seq<CampaignSummary>, k: real): seq<CampaignSummary> {
    if s == [] then [] else Keyed(s[0], k) + WithSpend(s[1..], k)
  }

  lemma WithSpendCons(c: CampaignSummary, s: seq<CampaignSummary>, k: real)
    ensures WithSpend([c] + s, k) == Keyed(c, k) + WithSpend(s, k)
  {
    assert ([c] + s)[0] == c && ([c] + s)[1..] == s;
  }

  lemma ConcatAssoc(a: seq<CampaignSummary>, b: seq<CampaignSummary>, c: seq<CampaignSummary>)
    ensures a + (b + c) == a + b + c
  {
  }

  lemma WithSpendSingle(c: CampaignSummary, k: real)
    ensures WithSpend([c], k) == Keyed(c, k)
  {
    assert [c][1..] == [];
  }

  lemma {:induction false} WithSpendConcat(a: seq<CampaignSummary>, b: seq<CampaignSummary>, k: real)
    ensures WithSpend(a + b, k) == WithSpend(a, k) + WithSpend(b, k)
    decreases |a|
  {
    if a == [] {
      assert a + b == b;
    } else {
      WithSpendConcat(a[1..], b, k);
      assert a + b == [a[0]] + (a[1..] + b);
      WithSpendCons(a[0], a[1..] + b, k);
      ConcatAssoc(Keyed(a[0], k), WithSpend(a[1..], k), WithSpend(b, k));
    }
  }

  /** Inserting a row of key at most `b` among rows of keys at most `b` keeps every key at most `b`. */
  lemma {:induction false} InsertBounded(s: seq<CampaignSummary>, c: CampaignSummary, b: real)
    requires forall i :: 0 <= i < |s| ==> SpendKey(s[i]) <= b
    requires SpendKey(c) <= b
    ensures forall i :: 0 <= i < |Insert(s, c)| ==> SpendKey(Insert(s, c)[i]) <= b
    decreases |s|
  {
    if s != [] && SpendKey(c) <= SpendKey(s[0]) {
      InsertBounded(s[1..], c, b);
      var r := Insert(s[1..], c);
      assert Insert(s, c) == [s[0]] + r;
      forall i | 0 <= i < |Insert(s, c)| ensures SpendKey(Insert(s, c)[i]) <= b {
        if i > 0 {
          assert Insert(s, c)[i] == r[i - 1];
        }
      }
    }
  }

  /** Inserting into a sorted list keeps it sorted. */
  lemma {:induction false} InsertSorted(s: seq<CampaignSummary>, c: CampaignSummary)
    requires NonIncreasing(s)
    ensures NonIncreasing(Insert(s, c))
    decreases |s|
  {
    if s != [] && SpendKey(c) <= SpendKey(s[0]) {
      var r := Insert(s[1..], c);
      InsertSorted(s[1..], c);
      InsertBounded(s[1..], c, SpendKey(s[0]));
      var r' := [s[0]] + r;
      forall i, j | 0 <= i < j < |r'| ensures SpendKey(r'[j]) <= SpendKey(r'[i]) {
        if i == 0 {
          assert r'[j] == r[j - 1];
        } else {
          assert r'[i] == r[i - 1] && r'[j] == r[j - 1];
        }
      }
    }
  }

  /** In a sorted list whose first key is below `k`, no row has key `k`. */
  lemma {:induction false} NoneAbove(s: seq<CampaignSummary>, k: real)
    requires NonIncreasing(s) && s != [] && SpendKey(s[0]) < k
    ensures WithSpend(s, k) == []
    decreases |s|
  {
    if |s| > 1 {
      assert SpendKey(s[1]) <= SpendKey(s[0]);
      NoneAbove(s[1..], k);
    }
  }

  /** Inserting before a row of smaller key: `c` is the only new row of its key, placed last. */
  lemma InsertFrontStable(s: seq<CampaignSummary>, c: CampaignSummary, k: real)
    requires NonIncreasing(s) && s != [] && SpendKey(s[0]) < SpendKey(c)
    ensures WithSpend(Insert(s, c), k) == WithSpend(s, k) + Keyed(c, k)
  {
    assert Insert(s, c) == [c] + s;
    WithSpendCons(c, s, k);
    if SpendKey(c) == k {
      NoneAbove(s, k);
      assert WithSpend(s, k) + Keyed(c, k) == [c];
    } else {
      assert Keyed(c, k) == [];
    }
  }

  /** Passing over the first row: it stays first. */
  lemma InsertPast(s: seq<CampaignSummary>, c: CampaignSummary, k: real)
    requires s != [] && SpendKey(c) <= SpendKey(s[0])
    ensures WithSpend(Insert(s, c), k) == Keyed(s[0], k) + WithSpend(Insert(s[1..], c), k)
  {
    assert Insert(s, c) == [s[0]] + Insert(s[1..], c);
    WithSpendCons(s[0], Insert(s[1..], c), k);
  }

  /**
   * Inserting keeps every run of equal keys in order: `c` comes after the
   * rows of its own key already there.
   */
  lemma {:induction false} InsertStable(s: seq<CampaignSummary>, c: CampaignSummary, k: real)
    requires NonIncreasing(s)
    ensures WithSpend(Insert(s, c), k) == WithSpend(s, k) + Keyed(c, k)
    decreases |s|
  {
    if s == [] {
      WithSpendCons(c, [], k);
    } else if SpendKey(s[0]) < SpendKey(c) {
      InsertFrontStable(s, c, k);
    } else {
      var h, rest := Keyed(s[0], k), WithSpend(s[1..], k);
      InsertStable(s[1..], c, k);
      InsertPast(s, c, k);
      assert WithSpend(s, k) == h + rest;
      ConcatAssoc(h, rest, Keyed(c, k));
    }
  }

  /** The sort is a permutation of its input. */
  lemma {:induction false} SortBySpendPermutes(rows: seq<CampaignSummary>)
    ensures multiset(SortBySpend(rows)) == multiset(rows)
  {
    if rows != [] {
      SortBySpendPermutes(rows[..|rows| - 1]);
      assert rows == rows[..|rows| - 1] + [rows[|rows| - 1]];
    }
  }

  /** The sort orders by non-increasing spend. */
  lemma {:induction false} SortBySpendSorted(rows: seq<CampaignSummary>)
    ensures NonIncreasing(SortBySpend(rows))
  {
    if rows != [] {
      SortBySpendSorted(rows[..|rows| - 1]);
      InsertSorted(SortBySpend(rows[..|rows| - 1]), rows[|rows| - 1]);
    }
  }

  /** The sort is stable: the rows of any one spend come out in their input order. */
  lemma {:induction false} SortBySpendStable(rows: seq<CampaignSummary>, k: real)
    ensures WithSpend(SortBySpend(rows), k) == WithSpend(rows, k)
  {
    if rows != [] {
      var init, last := rows[..|rows| - 1], rows[|rows| - 1];
      var sorted := SortBySpend(init);
      assert SortBySpend(rows) == Insert(sorted, last);
      SortBySpendStable(init, k);
      SortBySpendSorted(init);
      InsertStable(sorted, last, k);
      assert WithSpend(SortBySpend(rows), k) == WithSpend(init, k) + Keyed(last, k);
      assert rows == init + [last];
      WithSpendConcat(init, [last], k);
      WithSpendSingle(last, k);
    }
  }

  /** The sorted rows, cut to the first ten. */
  function TopCampaigns(rows: seq<CampaignSummary>): (top: seq<CampaignSummary>)
    ensures |top| <= 10 && (|rows| <= 10 ==> |top| == |rows|) && (|rows| > 10 ==> |top| == 10)
  {
    var sorted := SortBySpend(rows);
    SortBySpendPermutes(rows);
    assert |sorted| == |multiset(sorted)| == |multiset(rows)| == |rows|;
    if |sorted| <= 10 then sorted else sorted[..10]
  }

  /**
   * The top campaigns are rows of the input, in non-increasing spend, and no
   * row left out spent more than any row kept.
   */
  lemma TopCampaignsChosen(rows: seq<CampaignSummary>)
    ensures forall c :: c in TopCampaigns(rows) ==> c in rows
    ensures NonIncreasing(TopCampaigns(rows))
    ensures forall i, j :: 0 <= i < |TopCampaigns(rows)| <= j < |SortBySpend(rows)| ==>
      SpendKey(SortBySpend(rows)[j]) <= SpendKey(TopCampaigns(rows)[i])
  {
    var sorted := SortBySpend(rows);
    SortBySpendPermutes(rows);
    SortBySpendSorted(rows);
    forall c | c in TopCampaigns(rows) ensures c in rows {
      assert c in sorted;
      assert c in multiset(sorted);
    }
  }

  // ---------------------------------------------------------------------
  // The report
  // ---------------------------------------------------------------------

  /** `f"adpulse_report_{start.isoformat()}_{end.isoformat()}.pdf"`. */
  function ReportFileName(start: CalendarDate, end: CalendarDate): (name: string)
    ensures |name| == 40
  {
    "adpulse_report_" + IsoFormat(start) + "_" + IsoFormat(end) + ".pdf"
  }

  /** The file name gives both dates back: different periods never share a file. */
  lemma ReportFileNameInjective(s1: CalendarDate, e1: CalendarDate, s2: CalendarDate, e2: CalendarDate)
    requires ReportFileName(s1, e1) == ReportFileName(s2, e2)
    ensures s1 == s2 && e1 == e2
  {
    var n1, n2 := ReportFileName(s1, e1), ReportFileName(s2, e2);
    assert n1[15..25] == IsoFormat(s1) && n1[26..36] == IsoFormat(e1);
    assert n2[15..25] == IsoFormat(s2) && n2[26..36] == IsoFormat(e2);
    IsoFormatRoundTrip(s1);
    IsoFormatRoundTrip(s2);
    IsoFormatRoundTrip(e1);
    IsoFormatRoundTrip(e2);
  }

  /** What `build_weekly_report` hands to the PDF generator, and the file it names. */
  datatype ReportPlan = ReportPlan(fileName: string, dateRange: string, topCampaigns: seq<CampaignSummary>)

  /**
   * `build_weekly_report`: the start is read first, then the end (the first
   * that fails is the error); the report covers `start to end`, lists the
   * top campaigns and is named after both dates.
   */
  function WeeklyReport(start: DateArg, end: DateArg, campaigns: seq<CampaignSummary>): (r: Result<ReportPlan, Error>)
    ensures EnsureDate(start).Err? ==> r == Err(EnsureDate(start).error)
    ensures EnsureDate(start).Ok? && EnsureDate(end).Err? ==> r == Err(EnsureDate(end).error)
    ensures r.Ok? <==> EnsureDate(start).Ok? && EnsureDate(end).Ok?
    ensures r.Ok? ==> r.value.fileName == ReportFileName(EnsureDate(start).value, EnsureDate(end).value)
    ensures r.Ok? ==>
      r.value.dateRange == IsoFormat(EnsureDate(start).value) + " to " + IsoFormat(EnsureDate(end).value)
    ensures r.Ok? ==> r.value.topCampaigns == TopCampaigns(campaigns)
  {
    match EnsureDate(start)
    case Err(e) => Err(e)
    case Ok(s) =>
      match EnsureDate(end)
      case Err(e) => Err(e)
      case Ok(t) =>
        Ok(ReportPlan(ReportFileName(s, t), IsoFormat(s) + " to " + IsoFormat(t), TopCampaigns(campaigns)))
  }

  /** `build_daily_report`: the weekly report with the same day as start and end. */
  function DailyReport(target: DateArg, campaigns: seq<CampaignSummary>): (r: Result<ReportPlan, Error>)
    ensures EnsureDate(target).Err? ==> r == Err(EnsureDate(target).error)
    ensures EnsureDate(target).Ok? ==>
      r == WeeklyReport(DateValue(EnsureDate(target).value), DateValue(EnsureDate(target).value), campaigns)
  {
    match EnsureDate(target)
    case Err(e) => Err(e)
    case Ok(day) => WeeklyReport(DateValue(day), DateValue(day), campaigns)
  }

  /** A daily report is named after its one day twice, and only that day's file has that name. */
  lemma DailyReportName(target: DateArg, campaigns: seq<CampaignSummary>, s: CalendarDate, e: CalendarDate)
    requires DailyReport(target, campaigns).Ok?
    requires DailyReport(target, campaigns).value.fileName == ReportFileName(s, e)
    ensures s == e && EnsureDate(target) == Ok(s)
  {
    var day := EnsureDate(target).value;
    ReportFileNameInjective(day, day, s, e);
  }
}
