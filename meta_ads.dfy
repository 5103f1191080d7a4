/**
 * The Meta Ads export (adpulse/connectors/meta_ads.py): lower-case column
 * names with alias fallbacks for conversions, date and clicks, a spend
 * column read as is, and its own revenue columns.
 */
module MetaAds {
  import opened Wrappers
  import opened Text
  import opened Errors
  import opened Schema
  import opened ConnectorBase

  const Slug := "meta"
  const Name := "Meta Ads"

  /** The revenue columns `_resolve_revenue` tries, in order. */
  const RevenueKeys := ["purchase_roas", "purchase_value", "purchase_conversion_value", "revenue", "value"]

  /**
   * The columns `normalize_rows` reads from one Meta Ads row: `purchases`
   * before `conversions`, `reporting_starts` before `date`, `link_clicks`
   * before `clicks`; `spend` gets no clean-up.
   */
  function Fields(row: Row): RawFields {
    RawFields(
      campaign := Get(row, "campaign_name"),
      campaignId := Get(row, "campaign_id"),
      conversions := Or(Get(row, "purchases"), Get(row, "conversions")),
      date := Or(Get(row, "reporting_starts"), Get(row, "date")),
      impressions := Get(row, "impressions"),
      clicks := Or(Get(row, "link_clicks"), Get(row, "clicks")),
      spend := Get(row, "spend"))
  }

  /** One pass of the `normalize_rows` loop for a connector with `slug` and `name`. */
  function NormalizeRow(slug: string, name: string, row: Row): Result<NormalizedRecord, Error> {
    MakeRecord(slug, name, Fields(row), RevenueKeys, row)
  }

  /**
   * A row normalizes exactly when its first non-empty date column parses;
   * with neither `reporting_starts` nor `date` the error is `MissingDate`.
   */
  lemma RowNeedsDate(slug: string, name: string, row: Row)
    ensures NormalizeRow(slug, name, row).Ok? <==>
      ParseDate(Or(Get(row, "reporting_starts"), Get(row, "date"))).Ok?
    ensures !Present(Get(row, "reporting_starts")) && !Present(Get(row, "date")) ==>
      NormalizeRow(slug, name, row) == Err(MissingDate)
  {
  }

  /**
   * An empty or missing primary column falls back to its alias: conversions
   * come from `conversions`, clicks from `clicks`, the date from `date`.
   */
  lemma AliasFallback(slug: string, name: string, row: Row)
    requires ParseDate(Or(Get(row, "reporting_starts"), Get(row, "date"))).Ok?
    ensures NormalizeRow(slug, name, row).Ok?
    ensures var rec := NormalizeRow(slug, name, row).value;
      && (!Present(Get(row, "purchases")) ==> rec.conversions == ParseInt(Get(row, "conversions"), 0))
      && (Present(Get(row, "purchases")) ==> rec.conversions == ParseInt(Get(row, "purchases"), 0))
      && (!Present(Get(row, "link_clicks")) ==> rec.clicks == ParseInt(Get(row, "clicks"), 0))
      && (Present(Get(row, "link_clicks")) ==> rec.clicks == ParseInt(Get(row, "link_clicks"), 0))
      && (!Present(Get(row, "reporting_starts")) ==> rec.eventDate == ParseDate(Get(row, "date")).value)
  {
    RecordMetrics(slug, name, Fields(row), RevenueKeys, row);
    RecordIdentity(slug, name, Fields(row), RevenueKeys, row);
  }

  /**
   * Meta's spend is not cleaned: text that starts with a currency sign, such
   * as "$5.00", is not a number and the spend is 0.0.
   */
  lemma SpendNotCleaned(slug: string, name: string, row: Row, spend: string)
    requires ParseDate(Or(Get(row, "reporting_starts"), Get(row, "date"))).Ok?
    requires Get(row, "spend") == Some(spend) && spend != [] && spend[0] == '$'
    ensures NormalizeRow(slug, name, row).Ok? && NormalizeRow(slug, name, row).value.spend == 0.0
  {
    NonNumericGivesDefault(spend, 0, 0.0);
    RecordSpend(slug, name, Fields(row), RevenueKeys, row);
  }

  /** The fields picked from a row with exactly the test's columns. */
  lemma TestRowFields(row: Row, campaign: string, date: string, imp: string, clk: string, conv: string)
    requires Get(row, "campaign_name") == Some(campaign) && Get(row, "reporting_starts") == Some(date) && date != ""
    requires Get(row, "impressions") == Some(imp) && Get(row, "link_clicks") == Some(clk) && clk != ""
    requires Get(row, "purchases") == Some(conv) && conv != ""
    requires "campaign_id" !in row
    ensures Fields(row) == RawFields(Some(campaign), None, Some(conv), Some(date), Some(imp), Some(clk), Get(row, "spend"))
  {
  }

  /**
   * The row of the Meta Ads connector test, stated for any values of its
   * shape (the test itself writes Prospecting, 01/02/2024, 500, 10, 5.00
   * and 2; `TestRowFields` picks its fields): the month-first date is read,
   * the record is for "Meta Ads", keeps the campaign name and counters, has
   * an ID starting "meta-" and values each conversion at 25.0.
   */
  lemma TestRow(row: Row, campaign: string, date: CalendarDate, imp: nat, wi: nat, clk: nat, wc: nat, conv: nat, wv: nat)
    requires campaign != [] && !IsSpace(campaign[0]) && !IsSpace(campaign[|campaign| - 1])
    requires 0 < wi && imp < Pow10(wi) && 0 < wc && clk < Pow10(wc) && 0 < wv && conv < Pow10(wv)
    requires Fields(row) == RawFields(Some(campaign), None, Some(Pad(conv, wv)), Some(MonthFirstText(date)),
                                      Some(Pad(imp, wi)), Some(Pad(clk, wc)), Get(row, "spend"))
    requires NoColumn(row, RevenueKeys)
    ensures var r := NormalizeRow(Slug, Name, row);
      && r.Ok?
      && r.value.platform == Name && r.value.campaignId[..|Slug| + 1] == Slug + "-"
      && r.value.campaignName == campaign && r.value.eventDate == date
      && r.value.impressions == imp && r.value.clicks == clk && r.value.conversions == conv
      && r.value.revenue == conv as real * 25.0
  {
    var f := Fields(row);
    ParseDateMonthFirst(date);
    PlainRowRecord(Slug, Name, f, RevenueKeys, row, campaign, imp, wi, clk, wc, conv, wv);
    RecordIdentity(Slug, Name, f, RevenueKeys, row);
  }


}
