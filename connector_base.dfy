/**
 * What the three CSV connectors share (adpulse/connectors/base.py and the
 * common shape of the platform files): raw rows, Python's `a or b` on
 * optional text, the connector's identity check, the blank-row filter of
 * `load_file`, the first-non-empty revenue search and the construction of
 * one `NormalizedRecord` from the text fields a platform picked out of a row.
 */
module ConnectorBase {
  import opened Wrappers
  import opened Text
  import opened Errors
  import opened Schema
  import opened Identifiers

  // ---------------------------------------------------------------------
  // Rows and optional text
  // ---------------------------------------------------------------------

  /**
   * One CSV row as `csv.DictReader` yields it: column name to cell text. A
   * cell missing from a short row is an absent key.
   */
  type Row = map<string, string>

  /** `row.get(key)`. */
  function Get(row: Row, key: string): Option<string> {
    if key in row then Some(row[key]) else None
  }

  /** Python truthiness of a `str | None`: present and not empty. */
  predicate Present(v: Option<string>) {
    v.Some? && v.value != ""
  }

  /** Python's `a or b` on two `str | None` values. */
  function Or(a: Option<string>, b: Option<string>): Option<string> {
    if Present(a) then a else b
  }

  /** Python's `a or d` when `d` is a non-empty literal. */
  function OrElse(a: Option<string>, d: string): string {
    if Present(a) then a.value else d
  }

  // ---------------------------------------------------------------------
  // BaseConnector
  // ---------------------------------------------------------------------

  /** The supported export formats. */
  datatype Platform = Google | Meta | TikTok

  /** A constructed connector: its format, `platform_slug` and `platform_name`. */
  datatype Connector = Connector(platform: Platform, slug: string, name: string)

  /**
   * `BaseConnector.__init__`: a missing or empty `platform_slug` is refused
   * first, then a missing or empty `platform_name`.
   */
  function NewConnector(platform: Platform, slug: Option<string>, name: Option<string>): (r: Result<Connector, Error>)
    ensures r.Ok? <==> Present(slug) && Present(name)
    ensures !Present(slug) ==> r == Err(MissingPlatformSlug)
    ensures Present(slug) && !Present(name) ==> r == Err(MissingPlatformName)
    ensures r.Ok? ==> r.value.platform == platform && r.value.slug == slug.value && r.value.name == name.value
  {
    if !Present(slug) then Err(MissingPlatformSlug)
    else if !Present(name) then Err(MissingPlatformName)
    else Ok(Connector(platform, slug.value, name.value))
  }

  // ---------------------------------------------------------------------
  // The blank-row filter of CSVConnector.load_file
  // ---------------------------------------------------------------------

  /** `any(value.strip() for value in row.values() if value)`. */
  predicate HasContent(row: Row) {
    exists k :: k in row && Strip(row[k]) != []
  }

  /** The rows `load_file` passes on: those with some non-blank cell, in their order. */
  function KeepNonBlank(rows: seq<Row>): (kept: seq<Row>)
    ensures |kept| <= |rows|
  {
    if rows == [] then []
    else (if HasContent(rows[0]) then [rows[0]] else []) + KeepNonBlank(rows[1..])
  }

  /** A row is kept exactly when it is one of the input rows and has a non-blank cell. */
  lemma {:induction false} KeepNonBlankMembers(rows: seq<Row>)
    ensures forall row :: row in KeepNonBlank(rows) <==> row in rows && HasContent(row)
  {
    if rows != [] {
      KeepNonBlankMembers(rows[1..]);
      assert forall row :: row in rows <==> row == rows[0] || row in rows[1..];
    }
  }

  /**
   * The filter works row by row: filtering a concatenation concatenates the
   * filtered parts, so the kept rows keep their input order.
   */
  lemma {:induction false} KeepNonBlankConcat(a: seq<Row>, b: seq<Row>)
    ensures KeepNonBlank(a + b) == KeepNonBlank(a) + KeepNonBlank(b)
  {
    if a == [] {
      assert a + b == b;
    } else {
      assert (a + b)[0] == a[0] && (a + b)[1..] == a[1..] + b;
      KeepNonBlankConcat(a[1..], b);
    }
  }

  /** A row whose every cell is blank is dropped; any other row is kept. */
  lemma KeepNonBlankSingle(row: Row)
    ensures KeepNonBlank([row]) == if HasContent(row) then [row] else []
  {
    assert [row][1..] == [];
  }

  // ---------------------------------------------------------------------
  // _resolve_revenue
  // ---------------------------------------------------------------------

  /** `DEFAULT_CONVERSION_VALUE`, the same 25.0 in every platform file. */
  const DefaultConversionValue: real := 25.0

  /**
   * The position of the first key of `keys` that `row` holds with non-empty
   * text, or `|keys|` when there is none.
   */
  function FirstPresent(row: Row, keys: seq<string>): (i: nat)
    ensures i <= |keys|
    ensures forall j :: 0 <= j < i ==> !Present(Get(row, keys[j]))
    ensures i < |keys| ==> Present(Get(row, keys[i]))
  {
    if keys == [] then 0
    else if Present(Get(row, keys[0])) then 0
    else 1 + FirstPresent(row, keys[1..])
  }

  /**
   * `_resolve_revenue(row, conversions)`: the value of the first key present
   * with non-empty text, read with `parse_float(..., default=0.0)`; with no
   * such key, `conversions * DEFAULT_CONVERSION_VALUE`.
   */
  function ResolveRevenue(row: Row, keys: seq<string>, conversions: int): real {
    var i := FirstPresent(row, keys);
    if i < |keys| then ParseFloat(Get(row, keys[i]), 0.0)
    else conversions as real * DefaultConversionValue
  }

  /**
   * When key `i` is the first one present, its text alone decides the
   * revenue: the later keys and the conversion fallback are not consulted,
   * and text that is not a number gives 0.0.
   */
  lemma RevenueFromFirstKey(row: Row, keys: seq<string>, conversions: int, i: nat)
    requires i < |keys| && Present(Get(row, keys[i]))
    requires forall j :: 0 <= j < i ==> !Present(Get(row, keys[j]))
    ensures ResolveRevenue(row, keys, conversions) == ParseFloat(Some(row[keys[i]]), 0.0)
    ensures ParseDecimal(row[keys[i]]).None? ==> ResolveRevenue(row, keys, conversions) == 0.0
  {
  }

  /** The row has none of the columns `keys`. */
  predicate NoColumn(row: Row, keys: seq<string>) {
    forall j :: 0 <= j < |keys| ==> keys[j] !in row
  }

  /** With none of the keys present, revenue is the conversions at 25.0 each. */
  lemma RevenueFallback(row: Row, keys: seq<string>, conversions: int)
    requires forall j :: 0 <= j < |keys| ==> !Present(Get(row, keys[j]))
    ensures ResolveRevenue(row, keys, conversions) == conversions as real * 25.0
  {
  }

  // ---------------------------------------------------------------------
  // Building one NormalizedRecord
  // ---------------------------------------------------------------------

  /** The text a platform picks out of a row for each field, after its alias fallbacks. */
  datatype RawFields = RawFields(
    campaign: Option<string>,
    campaignId: Option<string>,
    conversions: Option<string>,
    date: Option<string>,
    impressions: Option<string>,
    clicks: Option<string>,
    spend: Option<string>)

  const UnknownCampaign := "Unknown Campaign"

  /** `(campaign or "Unknown Campaign").strip()`. */
  function CampaignName(campaign: Option<string>): string {
    Strip(OrElse(campaign, UnknownCampaign))
  }

  /**
   * The body of every `normalize_rows` loop for one row: the record a
   * connector with `slug` and `name` builds from the picked fields, or the
   * error `parse_date` raises.
   */
  function MakeRecord(slug: string, name: string, f: RawFields, revenueKeys: seq<string>, row: Row): (r: Result<NormalizedRecord, Error>)
    ensures r.Ok? <==> ParseDate(f.date).Ok?
    ensures r.Err? ==> r.error == ParseDate(f.date).error
    ensures !Present(f.date) ==> r == Err(MissingDate)
  {
    var campaignName := CampaignName(f.campaign);
    var conversions := ParseInt(f.conversions, 0);
    match ParseDate(f.date)
    case Err(e) => Err(e)
    case Ok(d) =>
      Ok(NormalizedRecord(
        platform := name,
        campaignId := BuildCampaignId(slug, campaignName, f.campaignId),
        campaignName := campaignName,
        eventDate := d,
        impressions := ParseInt(f.impressions, 0),
        clicks := ParseInt(f.clicks, 0),
        spend := ParseFloat(f.spend, 0.0),
        conversions := conversions,
        revenue := ResolveRevenue(row, revenueKeys, conversions)))
  }

  /** A row that names no campaign gets "Unknown Campaign". */
  lemma UnknownCampaignName(campaign: Option<string>)
    requires !Present(campaign)
    ensures CampaignName(campaign) == UnknownCampaign
  {
    StripUnchanged(UnknownCampaign);
  }

  /**
   * A record carries the connector's display name, the date `parse_date`
   * read, and a campaign ID that is the row's own (stripped) when it gives a
   * non-empty one, and `slug-<slug of the campaign name>` otherwise.
   */
  lemma RecordIdentity(slug: string, name: string, f: RawFields, revenueKeys: seq<string>, row: Row)
    requires ParseDate(f.date).Ok?
    ensures var rec := MakeRecord(slug, name, f, revenueKeys, row).value;
      && rec.platform == name
      && rec.eventDate == ParseDate(f.date).value
      && rec.campaignName == CampaignName(f.campaign)
      && (!Present(f.campaignId) ==> rec.campaignId == slug + "-" + Slugify(rec.campaignName))
      && (Present(f.campaignId) ==> rec.campaignId == Strip(f.campaignId.value))
  {
  }

  /**
   * The counters and money fields are the picked texts read with the
   * lenient parsers (missing or unreadable counts as 0), and the revenue is
   * resolved from the row with the conversions just read.
   */
  lemma RecordMetrics(slug: string, name: string, f: RawFields, revenueKeys: seq<string>, row: Row)
    requires ParseDate(f.date).Ok?
    ensures var rec := MakeRecord(slug, name, f, revenueKeys, row).value;
      && rec.impressions == ParseInt(f.impressions, 0)
      && rec.clicks == ParseInt(f.clicks, 0)
      && rec.spend == ParseFloat(f.spend, 0.0)
      && rec.conversions == ParseInt(f.conversions, 0)
      && rec.revenue == ResolveRevenue(row, revenueKeys, rec.conversions)
  {
  }

  /** The spend alone: the picked text read with `parse_float`, 0.0 when it is no number. */
  lemma RecordSpend(slug: string, name: string, f: RawFields, revenueKeys: seq<string>, row: Row)
    requires ParseDate(f.date).Ok?
    ensures MakeRecord(slug, name, f, revenueKeys, row).value.spend == ParseFloat(f.spend, 0.0)
    ensures f.spend.Some? && ParseDecimal(f.spend.value).None? ==> MakeRecord(slug, name, f, revenueKeys, row).value.spend == 0.0
  {
  }

  /**
   * A row as a platform's own test writes it: a plain campaign name, a
   * date that parses, whole-number counters, no campaign ID column and no
   * revenue column. Its record keeps the name and the counters, gets the ID
   * `slug-...`, and values each conversion at 25.0.
   */
  lemma PlainRowRecord(slug: string, name: string, f: RawFields, revenueKeys: seq<string>, row: Row,
                       campaign: string, imp: nat, wi: nat, clk: nat, wc: nat, conv: nat, wv: nat)
    requires f.campaign == Some(campaign) && campaign != []
    requires !IsSpace(campaign[0]) && !IsSpace(campaign[|campaign| - 1])
    requires ParseDate(f.date).Ok? && f.campaignId.None?
    requires 0 < wi && imp < Pow10(wi) && f.impressions == Some(Pad(imp, wi))
    requires 0 < wc && clk < Pow10(wc) && f.clicks == Some(Pad(clk, wc))
    requires 0 < wv && conv < Pow10(wv) && f.conversions == Some(Pad(conv, wv))
    requires NoColumn(row, revenueKeys)
    ensures var r := MakeRecord(slug, name, f, revenueKeys, row);
      && r.Ok?
      && r.value.platform == name
      && r.value.campaignName == campaign
      && r.value.campaignId[..|slug| + 1] == slug + "-"
      && r.value.impressions == imp && r.value.clicks == clk && r.value.conversions == conv
      && r.value.revenue == conv as real * 25.0
  {
    assert CampaignName(f.campaign) == campaign by {
      StripUnchanged(campaign);
    }
    ParsePadded(imp, wi, 0, 0.0);
    ParsePadded(clk, wc, 0, 0.0);
    ParsePadded(conv, wv, 0, 0.0);
    RecordIdentity(slug, name, f, revenueKeys, row);
    RecordMetrics(slug, name, f, revenueKeys, row);
    GeneratedId(slug, campaign, f.campaignId);
    RevenueFallback(row, revenueKeys, conv);
  }
}
