/**
 * The TikTok Ads export (adpulse/connectors/tiktok_ads.py): capitalised
 * column names with lower-case or alternative fallbacks for the campaign
 * name, conversions, date and spend, and its own revenue columns.
 */
module TikTokAds {
  import opened Wrappers
  import opened Text
  import opened Errors
  import opened Schema
  import opened ConnectorBase

  const Slug := "tiktok"
  const Name := "TikTok Ads"

  /** The revenue columns `_resolve_revenue` tries, in order. */
  const RevenueKeys := ["Revenue", "ConversionValue", "PurchaseValue", "Value"]

  /**
   * The columns `normalize_rows` reads from one TikTok Ads row:
   * `CampaignName` before `campaign_name`, `Conversions` before `Leads`,
   * `StatDate` before `date`, `Cost` before `Spend`; no money clean-up.
   */
  function Fields(row: Row): RawFields {
    RawFields(
      campaign := Or(Get(row, "CampaignName"), Get(row, "campaign_name")),
      campaignId := Get(row, "CampaignId"),
      conversions := Or(Get(row, "Conversions"), Get(row, "Leads")),
      date := Or(Get(row, "StatDate"), Get(row, "date")),
      impressions := Get(row, "Impressions"),
      clicks := Get(row, "Clicks"),
      spend := Or(Get(row, "Cost"), Get(row, "Spend")))
  }

  /** One pass of the `normalize_rows` loop for a connector with `slug` and `name`. */
  function NormalizeRow(slug: string, name: string, row: Row): Result<NormalizedRecord, Error> {
    MakeRecord(slug, name, Fields(row), RevenueKeys, row)
  }

  /**
   * A row normalizes exactly when its first non-empty date column parses;
   * with neither `StatDate` nor `date` the error is `MissingDate`.
   */
  lemma RowNeedsDate(slug: string, name: string, row: Row)
    ensures NormalizeRow(slug, name, row).Ok? <==>
      ParseDate(Or(Get(row, "StatDate"), Get(row, "date"))).Ok?
    ensures !Present(Get(row, "StatDate")) && !Present(Get(row, "date")) ==>
      NormalizeRow(slug, name, row) == Err(MissingDate)
  {
  }

  /**
   * An empty or missing primary column falls back to its alias: the name
   * comes from `campaign_name` (and is "Unknown Campaign" when that is empty
   * too), conversions from `Leads`, the spend from `Spend`, the date from
   * `date`.
   */
  lemma AliasFallback(slug: string, name: string, row: Row)
    requires ParseDate(Or(Get(row, "StatDate"), Get(row, "date"))).Ok?
    ensures NormalizeRow(slug, name, row).Ok?
    ensures var rec := NormalizeRow(slug, name, row).value;
      && (!Present(Get(row, "CampaignName")) ==> rec.campaignName == CampaignName(Get(row, "campaign_name")))
      && (!Present(Get(row, "CampaignName")) && !Present(Get(row, "campaign_name")) ==>
            rec.campaignName == UnknownCampaign)
      && (!Present(Get(row, "Conversions")) ==> rec.conversions == ParseInt(Get(row, "Leads"), 0))
      && (!Present(Get(row, "Cost")) ==> rec.spend == ParseFloat(Get(row, "Spend"), 0.0))
      && (!Present(Get(row, "StatDate")) ==> rec.eventDate == ParseDate(Get(row, "date")).value)
  {
    RecordMetrics(slug, name, Fields(row), RevenueKeys, row);
    RecordIdentity(slug, name, Fields(row), RevenueKeys, row);
    if !Present(Get(row, "CampaignName")) && !Present(Get(row, "campaign_name")) {
      UnknownCampaignName(Fields(row).campaign);
    }
  }

  /** The fields picked from a row with exactly the test's columns. */
  lemma TestRowFields(row: Row, campaign: string, date: string, imp: string, clk: string, cost: string, conv: string)
    requires Get(row, "CampaignName") == Some(campaign) && campaign != ""
    requires Get(row, "StatDate") == Some(date) && date != ""
    requires Get(row, "Impressions") == Some(imp) && Get(row, "Clicks") == Some(clk)
    requires Get(row, "Cost") == Some(cost) && cost != ""
    requires Get(row, "Conversions") == Some(conv) && conv != ""
    requires "CampaignId" !in row
    ensures Fields(row) == RawFields(Some(campaign), None, Some(conv), Some(date), Some(imp), Some(clk), Some(cost))
  {
  }

  /**
   * The row of the TikTok Ads connector test, stated for any values of its
   * shape (the test itself writes Launch, 2024/03/01, 250, 9, 3.5 and 1;
   * `TestRowFields` picks its fields): the year-first date is read, and the
   * record is for "TikTok Ads", keeps the campaign name and counters, has
   * an ID starting "tiktok-" and values each conversion at 25.0.
   */
  lemma TestRow(row: Row, campaign: string, date: CalendarDate, imp: nat, wi: nat, clk: nat, wc: nat, conv: nat, wv: nat)
    requires campaign != [] && !IsSpace(campaign[0]) && !IsSpace(campaign[|campaign| - 1])
    requires 0 < wi && imp < Pow10(wi) && 0 < wc && clk < Pow10(wc) && 0 < wv && conv < Pow10(wv)
    requires Fields(row) == RawFields(Some(campaign), None, Some(Pad(conv, wv)), Some(YearFirstText(date)),
                                      Some(Pad(imp, wi)), Some(Pad(clk, wc)), Fields(row).spend)
    requires NoColumn(row, RevenueKeys)
    ensures var r := NormalizeRow(Slug, Name, row);
      && r.Ok?
      && r.value.platform == Name && r.value.campaignId[..|Slug| + 1] == Slug + "-"
      && r.value.campaignName == campaign && r.value.eventDate == date
      && r.value.impressions == imp && r.value.clicks == clk && r.value.conversions == conv
      && r.value.revenue == conv as real * 25.0
  {
    var f := Fields(row);
    ParseDateYearFirst(date);
    PlainRowRecord(Slug, Name, f, RevenueKeys, row, campaign, imp, wi, clk, wc, conv, wv);
    RecordIdentity(Slug, Name, f, RevenueKeys, row);
  }

  /**
   * A plain decimal `Cost` such as the test's 3.5 is the spend `a + c / 10^k`
   * of any row whose date parses; `Spend` is then not consulted.
   */
  lemma TestRowSpend(row: Row, a: nat, n: nat, c: nat, k: nat)
    requires 0 < n && a < Pow10(n) && c < Pow10(k) && Get(row, "Cost") == Some(Pad(a, n) + "." + Pad(c, k))
    requires ParseDate(Or(Get(row, "StatDate"), Get(row, "date"))).Ok?
    ensures NormalizeRow(Slug, Name, row).Ok?
    ensures NormalizeRow(Slug, Name, row).value.spend == a as real + c as real / Pow10(k) as real
  {
    RecordSpend(Slug, Name, Fields(row), RevenueKeys, row);
    ParsePaddedPoint(a, n, c, k, 0.0);
  }

}
