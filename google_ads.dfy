/**
 * The Google Ads export (adpulse/connectors/google_ads.py): its column
 * names, the money clean-up applied to `Cost`, and its revenue columns.
 */
module GoogleAds {
  import opened Wrappers
  import opened Text
  import opened Errors
  import opened Schema
  import opened ConnectorBase

  const Slug := "google"
  const Name := "Google Ads"

  /** The revenue columns `_resolve_revenue` tries, in order. */
  const RevenueKeys := ["Revenue", "ConversionValue", "Conversion value", "PurchaseValue"]

  /**
   * `_clean_money(value)`: `None` stays `None`; otherwise every `$` and `,`
   * is removed and the rest is stripped of surrounding whitespace.
   */
  function CleanMoney(value: Option<string>): (r: Option<string>)
    ensures r.None? <==> value.None?
    ensures r.Some? ==> '$' !in r.value && ',' !in r.value
  {
    match value
    case None => None
    case Some(v) =>
      var t := Without(Without(v, '$'), ',');
      StripOmits(t, ',');
      WithoutKeepsOut(Without(v, '$'), ',', '$');
      StripOmits(t, '$');
      Some(Strip(t))
  }

  /** The columns `normalize_rows` reads from one Google Ads row. */
  function Fields(row: Row): RawFields {
    RawFields(
      campaign := Get(row, "Campaign"),
      campaignId := Get(row, "Campaign ID"),
      conversions := Get(row, "Conversions"),
      date := Get(row, "Date"),
      impressions := Get(row, "Impressions"),
      clicks := Get(row, "Clicks"),
      spend := CleanMoney(Get(row, "Cost")))
  }

  /** One pass of the `normalize_rows` loop for a connector with `slug` and `name`. */
  function NormalizeRow(slug: string, name: string, row: Row): Result<NormalizedRecord, Error> {
    MakeRecord(slug, name, Fields(row), RevenueKeys, row)
  }

  /** A row normalizes exactly when its `Date` parses; an empty or missing `Date` is `MissingDate`. */
  lemma RowNeedsDate(slug: string, name: string, row: Row)
    ensures NormalizeRow(slug, name, row).Ok? <==> ParseDate(Get(row, "Date")).Ok?
    ensures !Present(Get(row, "Date")) ==> NormalizeRow(slug, name, row) == Err(MissingDate)
  {
  }

  /** Digits are left alone by the money clean-up. */
  lemma CleanDigits(t: string)
    requires AllDigits(t)
    ensures Without(Without(t, '$'), ',') == t
  {
    WithoutAbsent(t, '$');
    WithoutAbsent(t, ',');
  }

  /** The number whose digits are those of `a` followed by the three-digit group `b`. */
  function Grouped(a: nat, b: nat): nat {
    a * 1000 + b
  }

  /**
   * A cost with a currency sign and a thousands separator loses both:
   * "$1,234.50" is `a = 1`, `b = 234`, `c = 50` and becomes "1234.50".
   */
  lemma CleanThousands(a: nat, n: nat, b: nat, c: nat, k: nat)
    requires 0 < n && a < Pow10(n) && b < 1000 && c < Pow10(k)
    ensures CleanMoney(Some("$" + Pad(a, n) + "," + (Pad(b, 3) + "." + Pad(c, k))))
         == Some(Pad(Grouped(a, b), n + 3) + "." + Pad(c, k))
  {
    var pa, pb, pc := Pad(a, n), Pad(b, 3), Pad(c, k);
    var tail := pb + "." + pc;
    assert Without(Without("$" + pa + "," + tail, '$'), ',') == pa + tail by {
      PadHasNo(a, n, '$');
      PadHasNo(a, n, ',');
      MoneyTail(b, c, k);
      WithoutBoth('$', ',', pa, tail);
    }
    assert pa + tail == Pad(Grouped(a, b), n + 3) + "." + pc by {
      assert Pow10(3) == 1000;
      ThousandsDigits(a, n, b, 3, c, k);
    }
    StripPaddedPoint(Pad(Grouped(a, b), n + 3), pc);
  }

  /** Once the separator is gone, the two digit groups read as one number. */
  lemma ThousandsDigits(a: nat, n: nat, b: nat, g: nat, c: nat, k: nat)
    requires b < Pow10(g)
    ensures Pad(a, n) + (Pad(b, g) + "." + Pad(c, k)) == Pad(a * Pow10(g) + b, n + g) + "." + Pad(c, k)
  {
    var pa, pb, pc := Pad(a, n), Pad(b, g), Pad(c, k);
    ConcatAssoc(pa, pb, "." + pc);
    ConcatAssoc(pb, ".", pc);
    ConcatAssoc(pa + pb, ".", pc);
    PadConcat(a, n, b, g);
  }

  /** The digits after the thousands separator hold no `$` and no `,`. */
  lemma MoneyTail(b: nat, c: nat, k: nat)
    ensures '$' !in Pad(b, 3) + "." + Pad(c, k)
    ensures ',' !in Pad(b, 3) + "." + Pad(c, k)
  {
    PadHasNo(b, 3, '$');
    PadHasNo(c, k, '$');
    PadHasNo(b, 3, ',');
    PadHasNo(c, k, ',');
  }

  /** So such a cost becomes the spend `a * 1000 + b + c / 10^k` (1234.5 for "$1,234.50"). */
  lemma CostThousands(a: nat, n: nat, b: nat, c: nat, k: nat)
    requires 0 < n && a < Pow10(n) && b < 1000 && c < Pow10(k)
    ensures ParseFloat(CleanMoney(Some("$" + Pad(a, n) + "," + (Pad(b, 3) + "." + Pad(c, k)))), 0.0)
         == Grouped(a, b) as real + c as real / Pow10(k) as real
  {
    CleanThousands(a, n, b, c, k);
    GroupBound(a, n, b);
    ParsePaddedPoint(Grouped(a, b), n + 3, c, k, 0.0);
  }

  /** Appending a three-digit group keeps the number within `n + 3` digits. */
  lemma GroupBound(a: nat, n: nat, b: nat)
    requires a < Pow10(n) && b < 1000
    ensures Grouped(a, b) < Pow10(n + 3)
  {
    PowAdd(n);
    assert a * 1000 <= (Pow10(n) - 1) * 1000;
  }

  lemma PowAdd(n: nat)
    ensures Pow10(n + 3) == Pow10(n) * 1000
  {
    assert Pow10(n + 3) == 10 * Pow10(n + 2) == 100 * Pow10(n + 1) == 1000 * Pow10(n);
  }

  /** A cost with neither `$` nor `,` passes the clean-up unchanged. */
  lemma CleanPlainCost(a: nat, n: nat, c: nat, k: nat)
    requires 0 < n
    ensures CleanMoney(Some(Pad(a, n) + "." + Pad(c, k))) == Some(Pad(a, n) + "." + Pad(c, k))
  {
    var t := Pad(a, n) + "." + Pad(c, k);
    PadHasNo(a, n, '$');
    PadHasNo(c, k, '$');
    PadHasNo(a, n, ',');
    PadHasNo(c, k, ',');
    WithoutAbsent(t, '$');
    WithoutAbsent(t, ',');
    StripPaddedPoint(Pad(a, n), Pad(c, k));
  }

  /**
   * The row of the Google Ads connector test, stated for any values of its
   * shape (the test itself writes Brand, 2024-01-01, 1000, 25 and 5): the
   * record is for "Google Ads", keeps the campaign name, date and counters,
   * has an ID starting "google-" and values each conversion at 25.0.
   */
  lemma TestRow(row: Row, campaign: string, d: CalendarDate, imp: nat, wi: nat, clk: nat, wc: nat, conv: nat, wv: nat)
    requires campaign != [] && !IsSpace(campaign[0]) && !IsSpace(campaign[|campaign| - 1])
    requires Get(row, "Campaign") == Some(campaign) && Get(row, "Date") == Some(IsoFormat(d))
    requires 0 < wi && imp < Pow10(wi) && Get(row, "Impressions") == Some(Pad(imp, wi))
    requires 0 < wc && clk < Pow10(wc) && Get(row, "Clicks") == Some(Pad(clk, wc))
    requires 0 < wv && conv < Pow10(wv) && Get(row, "Conversions") == Some(Pad(conv, wv))
    requires "Campaign ID" !in row
    requires NoColumn(row, RevenueKeys)
    ensures var r := NormalizeRow(Slug, Name, row);
      && r.Ok?
      && r.value.platform == Name && r.value.campaignId[..|Slug| + 1] == Slug + "-"
      && r.value.campaignName == campaign && r.value.eventDate == d
      && r.value.impressions == imp && r.value.clicks == clk && r.value.conversions == conv
      && r.value.revenue == conv as real * 25.0
  {
    var f := Fields(row);
    assert f == RawFields(Some(campaign), None, Some(Pad(conv, wv)), Some(IsoFormat(d)), Some(Pad(imp, wi)),
                          Some(Pad(clk, wc)), CleanMoney(Get(row, "Cost"))) by {
      TestRowFields(row, campaign, IsoFormat(d), Pad(imp, wi), Pad(clk, wc), Pad(conv, wv));
    }
    ParseDateIsoRoundTrip(d);
    PlainRowRecord(Slug, Name, f, RevenueKeys, row, campaign, imp, wi, clk, wc, conv, wv);
    RecordIdentity(Slug, Name, f, RevenueKeys, row);
  }

  /**
   * A plain decimal cost such as the test's 12.3 is the spend `a + c / 10^k`
   * of any row whose date parses.
   */
  lemma TestRowSpend(row: Row, a: nat, n: nat, c: nat, k: nat)
    requires 0 < n && a < Pow10(n) && c < Pow10(k) && Get(row, "Cost") == Some(Pad(a, n) + "." + Pad(c, k))
    requires ParseDate(Get(row, "Date")).Ok?
    ensures NormalizeRow(Slug, Name, row).Ok?
    ensures NormalizeRow(Slug, Name, row).value.spend == a as real + c as real / Pow10(k) as real
  {
    RecordMetrics(Slug, Name, Fields(row), RevenueKeys, row);
    CleanPlainCost(a, n, c, k);
    ParsePaddedPoint(a, n, c, k, 0.0);
  }

  /** The fields picked from a row with exactly the test's columns. */
  lemma TestRowFields(row: Row, campaign: string, date: string, imp: string, clk: string, conv: string)
    requires Get(row, "Campaign") == Some(campaign) && Get(row, "Date") == Some(date)
    requires Get(row, "Impressions") == Some(imp) && Get(row, "Clicks") == Some(clk)
    requires Get(row, "Conversions") == Some(conv)
    requires "Campaign ID" !in row
    ensures Fields(row) == RawFields(Some(campaign), None, Some(conv), Some(date), Some(imp), Some(clk), CleanMoney(Get(row, "Cost")))
  {
  }
}
