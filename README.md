# AdPulse ingestion core in Dafny

This project models the ingestion layer of AdPulse, a marketing-performance tool. Per-platform CSV connectors (Google Ads, Meta Ads, TikTok Ads) turn loosely named export rows into one canonical `NormalizedRecord`. Several pieces surround them:

- a connector registry keyed by lower-cased slug;
- the SQLite store of ingested rows and its summary queries;
- the ingest step that composes lookup, load and insert;
- the small helpers behind the API, the dashboard, the insights and the PDF reports: ratios, date filters, parameter cleaning, period splitting and top-campaign selection.

Module layout, following the program:

| module | file | models |
|---|---|---|
| `Wrappers`, `Errors` | wrappers.dfy, errors.dfy | `Option`/`Result`, and the exceptions the code raises as one `Error` datatype |
| `Text` | text.dfy | `str.strip`, `str.lower`, `sorted` on strings, `", ".join`, zero-padded decimal text |
| `Schema` | schema.dfy | `NormalizedRecord`, `as_db_tuple`, `parse_int`, `parse_float`, `parse_date`, calendar dates |
| `Identifiers` | identifiers.dfy | `slugify_name`, `build_campaign_id` |
| `ConnectorBase` | connector_base.dfy | the connector constructor check, the blank-row filter, the revenue search, the shared record builder |
| `GoogleAds`, `MetaAds`, `TikTokAds` | google_ads.dfy, meta_ads.dfy, tiktok_ads.dfy | each platform's column aliases, money cleaning and revenue keys |
| `Connectors` | connectors.dfy | the `normalize_rows` loop and `load_file` |
| `Registry` | registry.dfy | `ConnectorRegistry` as a class over a map field, `build_default_registry` |
| `Storage` | storage.dfy | `DatabaseManager` as a class over a `seq<DbRow>` table, with the SQL aggregates as functions |
| `Ingestion` | ingestion.dfy | `DataIngestor` and `IngestionReport` |
| `ApiUtils`, `DashboardUtils` | api_utils.dfy, dashboard_utils.dfy | ratio helpers, the date-range filter, `parse_event_date`, `aggregate_metric`, `safe_divide` |
| `QueryParams` | query_params.dfy | the three parameter cleaners |
| `Insights` | insights.dfy | `_split_period` |
| `Reporting` | reporting.dfy | `_ensure_date`, top-10 campaigns, the report file name, weekly and daily reports |

Values and their model:

- Money and metric values are exact `real`s, and integers are unbounded.
- A CSV row is a `map<string, string>`. A key that is absent stands for both a missing column and a short row.
- Whether a file exists is a parameter. The rows a file holds are also a parameter.

## Model

| member | source | states |
|---|---|---|
| Schema.IsoFormat | adpulse/ingestion/schema.py:29 | `isoformat()` is ten characters: four year digits, dash, two month digits, dash, two day digits |
| Schema.AsDbTuple | adpulse/ingestion/schema.py:23-35 | the nine columns in order, each equal to the record's field, with a date text that `fromisoformat` reads back as the record's date |
| Schema.Truncate | adpulse/ingestion/schema.py:40 | `int()` of a real truncates toward zero: the result is the integer between 0 and the value that is less than one away from it |
| Schema.ParseInt | adpulse/ingestion/schema.py:38-42 | the default for `None`, `""` and text `float()` refuses; otherwise the parsed number truncated toward zero |
| Schema.ParseFloat | adpulse/ingestion/schema.py:45-49 | the default for `None` and unparseable text; otherwise the parsed decimal |
| Schema.ParseUnsigned | adpulse/ingestion/schema.py:47 | an unsigned decimal's value is never negative |
| Schema.DecimalValue | adpulse/ingestion/schema.py:47 | a decimal `w.f` lies between `w` and `w + 1`, and is `w` when there is no fraction |
| Schema.ParseUnsignedDigits | adpulse/ingestion/schema.py:47 | a run of digits parses to its decimal value |
| Schema.ParseUnsignedPoint | adpulse/ingestion/schema.py:47 | `w.f` parses to `w` plus the fraction |
| Schema.ParsePadded | adpulse/ingestion/schema.py:38-49 | the text of a number parses back to that number under both `parse_int` and `parse_float` |
| Schema.ParsePaddedPoint | adpulse/ingestion/schema.py:45-49 | `a.b` with `k` fraction digits parses to `a + b / 10^k` |
| Schema.ParseIntTruncates | adpulse/ingestion/schema.py:40 | `parse_int` of `a.b` is `a`: the fraction is dropped |
| Schema.ParseIntTwelve | adpulse/ingestion/schema.py:40 | `parse_int("12.0")` and `parse_int("12.7")` are both 12 |
| Schema.NonNumericGivesDefault | adpulse/ingestion/schema.py:38-49 | text starting with a character no number can start with gives the default under both parsers, instead of an exception |
| Schema.NonNumericExamples | adpulse/ingestion/schema.py:38-49 | `"abc"` gives both defaults, and `"$5.00"` gives the float default |
| Schema.Split3 | adpulse/ingestion/schema.py:58 | a split on a separator gives three pieces that rebuild the text, and the first two contain no separator |
| Schema.Split3Parts | adpulse/ingestion/schema.py:58 | splitting `a + sep + b + sep + c` gives back `a`, `b` and `c` when `a` and `b` hold no separator |
| Schema.DateOf | adpulse/ingestion/schema.py:58 | a date is built only from tokens `strptime` accepts for `%Y`, `%m` and `%d` |
| Schema.ParseDate | adpulse/ingestion/schema.py:52-63 | `None` or `""` fails with "Date value is mandatory"; any other failure is the error `date.fromisoformat` raises for the value; a `YYYY-MM-DD` match is taken first |
| Schema.IsoFormatError | adpulse/ingestion/schema.py:63 | `date.fromisoformat` raises nothing exactly when it returns a date; text not shaped `YYYY-MM-DD` is an invalid ISO string naming the text; otherwise the year, then the month, then the day is out of range, in the `date` constructor's order |
| Schema.ParseDateFallback | adpulse/ingestion/schema.py:56-63 | text none of the three formats reads fails with the `fromisoformat` error |
| Schema.ParseDateSucceedsIff | adpulse/ingestion/schema.py:56-63 | a non-empty value parses exactly when one of the three formats accepts it, because the `fromisoformat` fallback accepts nothing they miss |
| Schema.FromIsoFormatSubsumed | adpulse/ingestion/schema.py:63 | whatever the fallback accepts, the first format already accepted, with the same date |
| Schema.IsoFormatRoundTrip | adpulse/ingestion/schema.py:29-63 | `fromisoformat(isoformat(d)) == d` |
| Schema.FromIsoFormatOnly | adpulse/ingestion/schema.py:63 | every text `fromisoformat` accepts is the ISO text of the date it returns |
| Schema.ParseDateIsoRoundTrip | adpulse/ingestion/schema.py:29-58 | `parse_date` of the stored ISO text returns the same date |
| Schema.ParseDateMonthFirst | adpulse/ingestion/schema.py:56-60 | `MM/DD/YYYY` text reads as that month and day; so "01/02/2024" is 2 January 2024 |
| Schema.ParseDateYearFirst | adpulse/ingestion/schema.py:56-60 | `YYYY/MM/DD` text reads as that date |
| Schema.DateOfPadded | adpulse/ingestion/schema.py:58 | padded year, month and day give the date exactly when it is on the calendar |
| Schema.StrptimeNeedsSeparator | adpulse/ingestion/schema.py:56-60 | no format matches text without its separator |
| Schema.ParseDateRejectsOffCalendar | adpulse/ingestion/schema.py:56-63 | a well-shaped but impossible date fails every format and the fallback, with "day is out of range for month" (2023-02-29) or, for year 0, "year 0 is out of range" |
| Schema.ParseDateRejectsMonth | adpulse/ingestion/schema.py:56-63 | well-shaped text with month 00 or 13 to 99 fails with "month must be in 1..12" |
| Identifiers.Slugify | adpulse/utils/identifiers.py:9-13 | the slug is non-empty, lower-case letters, digits and single inner dashes; it keeps the name's letters and digits lower-cased; a name without any gives "campaign" |
| Identifiers.ReplaceRunsShape | adpulse/utils/identifiers.py:11 | replacing each run of other characters by `-` leaves no double dash and keeps the letters and digits |
| Identifiers.StrippedRuns | adpulse/utils/identifiers.py:11 | `strip("-")` keeps that shape and the letters and digits |
| Identifiers.SlugifyIdempotent | adpulse/utils/identifiers.py:9-13 | slugifying a slug changes nothing |
| Identifiers.SlugFixed | adpulse/utils/identifiers.py:9-13 | every well-formed slug is its own slug |
| Identifiers.SlugifyTwoWords | adpulse/utils/identifiers.py:9-13 | two words separated by other characters become `word1-word2` lower-cased; so "Brand Campaign!" gives "brand-campaign" |
| Identifiers.BuildCampaignId | adpulse/utils/identifiers.py:16-26 | a non-empty explicit ID yields that ID stripped of surrounding whitespace; without one the ID is longer than the slug and a dash |
| Identifiers.GeneratedId | adpulse/utils/identifiers.py:25-26 | without an explicit ID the result is the platform slug, a dash and the slugified name |
| Identifiers.ExplicitIdKept | adpulse/utils/identifiers.py:23-24 | an explicit ID with no surrounding whitespace is returned as it is |
| Identifiers.BlankExplicitId | adpulse/utils/identifiers.py:23-24 | a whitespace-only explicit ID yields "" |
| ConnectorBase.NewConnector | adpulse/connectors/base.py:21-25 | construction succeeds exactly when slug and name are both present and non-empty; the slug is checked first |
| ConnectorBase.KeepNonBlank | adpulse/connectors/base.py:54 | the filter never adds rows |
| ConnectorBase.KeepNonBlankMembers | adpulse/connectors/base.py:54 | a row is kept exactly when it is in the input and some value has non-whitespace content |
| ConnectorBase.KeepNonBlankConcat | adpulse/connectors/base.py:54 | the filter works row by row, so kept rows keep their order |
| ConnectorBase.FirstPresent | adpulse/connectors/google_ads.py:23-24 | the search stops at the first key that is present and non-empty |
| ConnectorBase.RevenueFromFirstKey | adpulse/connectors/google_ads.py:22-25 | revenue is `parse_float` of the first present key; unparseable text there gives 0.0, and later keys are not consulted |
| ConnectorBase.RevenueFallback | adpulse/connectors/google_ads.py:26 | with no revenue key present, revenue is conversions × 25.0 |
| ConnectorBase.OrElse | adpulse/connectors/google_ads.py:36 | `a or "d"` is `a` when `a` is present and non-empty, else `d` |
| ConnectorBase.MakeRecord | adpulse/connectors/google_ads.py:38-48 | a row becomes a record exactly when its date parses; the error is the date's |
| ConnectorBase.RecordIdentity | adpulse/connectors/google_ads.py:36-42 | the platform is the display name, the date is the parsed date, the name falls back to "Unknown Campaign", and the ID is the stripped explicit ID or `slug-` plus the slugified name |
| ConnectorBase.RecordMetrics | adpulse/connectors/google_ads.py:37-47 | counters are `parse_int` with default 0, spend is `parse_float`, and revenue comes from the revenue search |
| ConnectorBase.UnknownCampaignName | adpulse/connectors/google_ads.py:36 | a missing or empty campaign gives "Unknown Campaign" |
| GoogleAds.CleanMoney | adpulse/connectors/google_ads.py:13-16 | `None` stays `None`; any text comes back without `$` or `,` |
| GoogleAds.RowNeedsDate | adpulse/connectors/google_ads.py:42 | a row normalises exactly when its Date parses; an empty Date fails with the mandatory-date error |
| GoogleAds.CostThousands | adpulse/connectors/google_ads.py:45 | a cost such as "$1,234.50" is read as 1234.5 |
| GoogleAds.TestRow | tests/test_connectors.py:17-35 | the test row gives "Google Ads", a `google-` ID, the name, the date, the counters and revenue = conversions × 25.0 |
| GoogleAds.TestRowSpend | tests/test_connectors.py:33 | a plain cost such as "12.3" is read as its decimal value |
| MetaAds.RowNeedsDate | adpulse/connectors/meta_ads.py:35 | a row normalises exactly when `reporting_starts or date` parses |
| MetaAds.AliasFallback | adpulse/connectors/meta_ads.py:30-37 | conversions come from `purchases`, else `conversions`; clicks from `link_clicks`, else `clicks`; the date from `reporting_starts`, else `date` |
| MetaAds.SpendNotCleaned | adpulse/connectors/meta_ads.py:38 | spend text starting with `$` is read as 0.0, because nothing strips it |
| MetaAds.TestRow | tests/test_connectors.py:38-63 | the test row gives "Meta Ads", a `meta-` ID, the `MM/DD/YYYY` date, the counters and the revenue fallback |
| TikTokAds.RowNeedsDate | adpulse/connectors/tiktok_ads.py:35 | a row normalises exactly when `StatDate or date` parses |
| TikTokAds.AliasFallback | adpulse/connectors/tiktok_ads.py:29-38 | the name comes from `CampaignName`, else `campaign_name`, else "Unknown Campaign"; conversions from `Conversions`, else `Leads`; spend from `Cost`, else `Spend`; the date from `StatDate`, else `date` |
| TikTokAds.TestRow | tests/test_connectors.py:66-83 | the test row gives "TikTok Ads", a `tiktok-` ID, the `YYYY/MM/DD` date, the counters and the revenue fallback |
| TikTokAds.TestRowSpend | tests/test_connectors.py:82 | a cost such as "3.5" is read as its decimal value |
| Connectors.DefaultConnectorsConstruct | adpulse/connectors/google_ads.py:29-31 | the three shipped connectors pass the constructor check with slugs google, meta and tiktok and their display names |
| Connectors.NormalizeRows | adpulse/connectors/google_ads.py:33-50 | the append loop computes the all-or-nothing normalisation of the rows |
| Connectors.NormalizeAllOk | adpulse/connectors/google_ads.py:33-50 | normalisation succeeds exactly when every row does, giving one record per row in order |
| Connectors.NormalizeAllErr | adpulse/connectors/google_ads.py:42 | on failure, the error is the one of the first failing row |
| Connectors.LoadFile | adpulse/connectors/base.py:45-55 | a missing path fails naming the path, before any row; otherwise the result is the normalisation of the non-blank rows |
| Connectors.LoadOneRow | tests/test_connectors.py:24-26 | a file with one non-blank row that normalises gives exactly one record |
| Connectors.LoadSkipsBlank | adpulse/connectors/base.py:54 | a blank row changes nothing in the result |
| Text.StripChars | adpulse/utils/identifiers.py:11 | the strip is never longer, starts and ends outside the class, and is empty exactly when every character is in the class |
| Text.Lower | adpulse/utils/identifiers.py:12 | `lower()` keeps the length and lower-cases each ASCII capital |
| Text.SortedStrings | adpulse/connectors/registry.py:24-29 | `sorted()` of a key set is strictly ascending, holds exactly those keys, once each |
| Text.StrictlySortedUnique | adpulse/connectors/registry.py:29 | only one strictly ascending list holds a given set |
| Registry.ConnectorRegistry.constructor | adpulse/connectors/registry.py:14-15 | a new registry is empty |
| Registry.ConnectorRegistry.Register | adpulse/connectors/registry.py:17-19 | the connector is stored under its lower-cased slug, replacing only that entry; the registry's invariant is kept |
| Registry.ConnectorRegistry.Contains | adpulse/connectors/registry.py:31-32 | membership holds exactly when some stored connector's slug matches ignoring case |
| Registry.ConnectorRegistry.Get | adpulse/connectors/registry.py:21-26 | succeeds exactly when `slug in registry`, returning the stored connector; a miss names the slug and the sorted slug list |
| Registry.ConnectorRegistry.SupportedPlatforms | adpulse/connectors/registry.py:28-29 | the slugs, ascending and without duplicates |
| Registry.BuildDefaultRegistry | adpulse/connectors/registry.py:35-49 | three registrations give a valid registry holding google, meta and tiktok |
| Registry.DefaultTableValid | adpulse/connectors/registry.py:46-48 | each default slug maps to the connector of that platform and display name |
| Registry.DefaultSupported | adpulse/connectors/registry.py:28-49 | the default registry's supported list is exactly ["google", "meta", "tiktok"] |
| Registry.DefaultLookup | adpulse/connectors/registry.py:21-23 | "GOOGLE" finds the Google connector and "bing" is not registered |
| Storage.DbRows | adpulse/storage/database.py:59-68 | one row per record, in order, each the record's `as_db_tuple` |
| Storage.SumIntConcat | adpulse/storage/database.py:76-80 | a SUM over two stretches of rows is the sum of their SUMs |
| Storage.SumRealConcat | adpulse/storage/database.py:76-80 | the same for the real columns |
| Storage.OfPlatform | adpulse/storage/database.py:82 | a group holds only rows of its platform |
| Storage.OfPlatformNonEmpty | adpulse/storage/database.py:82 | a platform has a non-empty group exactly when some row has it |
| Storage.SummaryCountsAddUp | adpulse/storage/database.py:71-87 | the per-platform `rows_ingested` counts add up to the table size |
| Storage.InsertGrowsTotals | adpulse/storage/database.py:89-102 | after an insert the count grows by the number of records, each sum grows by theirs, and the sums are NULL only on an empty table |
| Storage.DatabaseManager.Initialize | adpulse/storage/database.py:52-54 | afterwards the table exists and its rows are unchanged, so a second call changes nothing |
| Storage.DatabaseManager.InsertRecords | adpulse/storage/database.py:56-69 | no records: 0 and nothing touched; no table: an error and nothing touched; otherwise the rows are appended and their number returned |
| Storage.DatabaseManager.FetchSummary | adpulse/storage/database.py:71-87 | one row per distinct platform, ascending, each with its count and sums |
| Storage.DatabaseManager.FetchTotals | adpulse/storage/database.py:89-102 | the count of all rows and the column sums, NULL on an empty table |
| Storage.DatabaseManager.RowCount | adpulse/storage/database.py:104-108 | the number of stored rows |
| Ingestion.DataIngestor.constructor | adpulse/ingestion/data_ingestor.py:25-28 | keeps the registry and database, and the table exists afterwards |
| Ingestion.DataIngestor.IngestFile | adpulse/ingestion/data_ingestor.py:30-35 | an unknown slug fails before the file is read; a load failure inserts nothing; otherwise the records are appended and the report carries the display name and their number |
| Ingestion.DataIngestor.SummaryRows | adpulse/ingestion/data_ingestor.py:37-38 | the database's platform summary |
| Ingestion.DataIngestor.TableRowCount | adpulse/ingestion/data_ingestor.py:40-41 | the database's row count |
| Ingestion.IngestedRowsMatch | adpulse/ingestion/data_ingestor.py:33-34 | the inserted rows are, one for one and in order, the `as_db_tuple` of each non-blank input row's record |
| ApiUtils.Round4 | adpulse/api/utils.py:26-31 | `round(x, 4)` is a multiple of 1/10000 within half a unit of the fourth decimal of `x` |
| ApiUtils.Round4Exact | adpulse/api/utils.py:26-31 | a value with four decimals is unchanged by rounding |
| ApiUtils.CalcCtr | adpulse/api/utils.py:26-27 | 0.0 when there are no impressions, else clicks / impressions to four places: a multiple of 1/10000 within half a unit of the quotient |
| ApiUtils.CalcRate | adpulse/api/utils.py:30-31 | 0.0 for a zero denominator, else the ratio to four places: a multiple of 1/10000 within half a unit of the quotient |
| ApiUtils.SummaryTestRatios | tests/test_api_summary.py:65-66 | a CTR of 100/1000 is 0.1 and a ROAS of 500/200 is 2.5 |
| ApiUtils.ApplyDateFilters | adpulse/api/utils.py:14-23 | a row is kept exactly when its stored date text is at or after the start's and at or before the end's, and as many times as the table holds it; an absent bound adds nothing |
| ApiUtils.ApplyDateFiltersConcat | adpulse/api/utils.py:14-23 | the filter keeps table order: the rows kept from two runs of rows are those of the first, then those of the second |
| ApiUtils.IsoOrder | adpulse/api/utils.py:20-22 | comparing ISO texts as strings is comparing the dates |
| ApiUtils.DateFilterIsRange | adpulse/api/utils.py:19-22 | on stored ISO dates, the string filter is an inclusive date range |
| ApiUtils.ParseEventDate | adpulse/api/utils.py:34-35 | a success reads exactly the ISO text of its date; a failure is the error `date.fromisoformat` raises for the text |
| ApiUtils.ParseEventDateInverts | adpulse/api/utils.py:35 | reading back the stored date text gives the record's date |
| DashboardUtils.AggregateMetric | adpulse/dashboard/utils.py:21-25 | the loop's total is the sum of the key over the rows, 0.0 over no rows |
| DashboardUtils.TotalConcat | adpulse/dashboard/utils.py:22-25 | the total over two stretches of rows is the sum of their totals |
| DashboardUtils.MissingAddsNothing | adpulse/dashboard/utils.py:24 | a row without the key, or with `None` under it, adds nothing |
| DashboardUtils.SafeDivide | adpulse/dashboard/utils.py:28-31 | 0.0 for a zero denominator, else the exact quotient |
| QueryParams.CleanValue | adpulse/ai/insights_service.py:36 | a date becomes its ISO text, which `fromisoformat` reads back as the same date; any other value is kept |
| QueryParams.CleanParams | adpulse/ai/insights_service.py:31-37 | the loop's dict is the entry-by-entry cleaning of the parameters, and it is a dict again |
| QueryParams.CleanedConcat | adpulse/dashboard/api_client.py:20 | cleaning goes entry by entry, so insertion order is kept |
| QueryParams.CleanedSound | adpulse/reporting/report_service.py:18-27 | every output entry comes from an input entry with the same key and its value cleaned; no `None` and no date is left, and `_prepare_params` also leaves no `""` |
| QueryParams.CleanedComplete | adpulse/dashboard/api_client.py:20-23 | every entry that is not skipped is in the output, its value cleaned |
| QueryParams.CleanedDistinct | adpulse/dashboard/api_client.py:18-24 | the output has distinct keys |
| QueryParams.CleanedIdempotent | adpulse/ai/insights_service.py:31-37 | cleaning twice is cleaning once |
| QueryParams.SkippedExample | adpulse/dashboard/api_client.py:21-23 | with a start date, no end and an empty platform, `_prepare_params` sends only the start; `_clean_params` also keeps the empty platform |
| Insights.SplitPeriod | adpulse/ai/insights_service.py:40-48 | no values give two empty halves; otherwise the first `max(1, n // 2)` values come first; for n ≥ 2 the halves rebuild the input and differ in length by at most one; one value is both halves |
| Reporting.EnsureDate | adpulse/reporting/report_service.py:40-45 | a date is returned as it is; a string is accepted exactly as the ISO text of its date, and a failure is the error `fromisoformat` raises for it; anything else is refused |
| Reporting.EnsureDateText | adpulse/reporting/report_service.py:41-44 | a date and its ISO text give the same result |
| Reporting.Insert | adpulse/reporting/report_service.py:61-64 | one insertion step of the sort adds exactly one row |
| Reporting.InsertSorted | adpulse/reporting/report_service.py:61-64 | insertion keeps non-increasing spend order |
| Reporting.InsertStable | adpulse/reporting/report_service.py:61-64 | the inserted row lands after the rows with the same spend |
| Reporting.SortBySpendPermutes | adpulse/reporting/report_service.py:61-64 | the sort is a permutation of its input |
| Reporting.SortBySpendSorted | adpulse/reporting/report_service.py:61-64 | the sort is in non-increasing `total_spend` order, where a missing value counts as 0 |
| Reporting.SortBySpendStable | adpulse/reporting/report_service.py:61-64 | the rows of any one spend come out in their input order |
| Reporting.TopCampaigns | adpulse/reporting/report_service.py:61-65 | at most ten rows, and all of them when there are ten or fewer |
| Reporting.TopCampaignsChosen | adpulse/reporting/report_service.py:61-65 | every top row is an input row, they are in non-increasing spend, and no row left out spent more than any kept row |
| Reporting.ReportFileName | adpulse/reporting/report_service.py:90 | `adpulse_report_<start>_<end>.pdf` is always 40 characters |
| Reporting.ReportFileNameInjective | adpulse/reporting/report_service.py:90 | the file name determines both dates |
| Reporting.WeeklyReport | adpulse/reporting/report_service.py:48-93 | the start is read before the end and the first failure is the error; a report exists exactly when both read, and it is named after both, covers "start to end" in ISO text and lists the top campaigns |
| Reporting.DailyReport | adpulse/reporting/report_service.py:96-98 | the weekly report with the target day as both start and end |
| Reporting.DailyReportName | adpulse/reporting/report_service.py:90-98 | a daily report's file names its day twice |

## Left out

- HTTP and the network: `_get`, `_call_api`, `_safe_get`, the OpenAI client and the FastAPI routers. The campaign summaries a report ranks arrive as a parameter.
- The LLM prompt text, the anomaly statistics and the ROAS averages. These are floating-point statistics and calls to an external service.
- The user interfaces: the Streamlit dashboard, the Typer CLI, PDF drawing, the e-mail stub, and `format_currency`/`format_percent`.
- Floating point: every float is an exact real. `round(x, 4)` is exact round-half-even on reals, not rounding of a binary double.
- CSV tokenising and file I/O: `csv.DictReader`, quoting, the UTF-8 BOM and opening the file. The rows and the file's existence are parameters. The extra-columns case, whose `None` key crashes `.strip()`, is not modelled.
- `float()` accepts more than plain signed decimals with surrounding whitespace: exponents, underscores, "inf" and "nan". These are parsed as unparseable here. `parse_int("inf")` raises `OverflowError` in Python, which this model does not capture.
- The `date.fromisoformat` fallback of `parse_date` is the strict `YYYY-MM-DD` form. Newer Pythons accept extended ISO forms that this model does not.
- Reporting.EnsureDate: reads only the date form of `datetime.fromisoformat`. A time part, an offset, and the `datetime` subclass passed as a date are not modelled.
- Reporting.WeeklyReport: the output directory and its creation are left out, as are the platform summaries and the AI texts in the report. The plan carries only the file name, the date range and the top campaigns.
- Reporting.SortBySpendSorted: a JSON `null` under `total_spend` is modelled like an absent key. Python would fail comparing `None` with a number.
- Text.Lower: only ASCII capitals are lowered. Other letters keep their case.
- Schema.YearToken, Schema.MonthToken, Schema.DayToken, Schema.DateOf: only ASCII digits are read. Python's `strptime` also matches other Unicode decimal digits, such as "٢٠٢٤-٠١-١٥", which the model rejects.
- Schema.ParseDecimal, Schema.ParseInt, Schema.ParseFloat: only ASCII digits are read. Python's `float()`, which both parsers call, also accepts other Unicode decimal digits, such as "١٢", which the model gives the default for.
- Errors.Message: an invalid ISO string is always quoted with single quotes. Python's `%R` uses double quotes when the text contains `'`, and it escapes backslashes and unprintable characters.
- SQLite internals: connections, commits, `created_at`, and the indexes declared in the ORM model. The integer width of `SUM` is also left out. Each statement is atomic: an insert into a missing table fails and leaves the table unchanged.
- `aggregate_metric` adds values that are `None` or missing as 0. A non-numeric value, which `float()` would refuse, is not modelled.
- Identifiers.BuildCampaignId: the docstring promises the explicit ID whenever one is present. The code tests the raw value and only then strips it, so a whitespace-only ID yields "". The model follows the code, and Identifiers.BlankExplicitId states the case.
- The three connector test scenarios are stated over every row and every zero-padded number of their shape, not over the literal strings. The date and spend parts are stated in separate lemmas.
- Identifiers.SlugifyTwoWords: "Brand Campaign!" is an instance of the general two-word statement and is not stated literally.
- Schema.ParseDateMonthFirst: "01/02/2024" is an instance of the general month-first statement and is not stated literally.
