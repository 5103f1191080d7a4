/**
 * The SQLite store (adpulse/storage/database.py): the `ad_performance` table
 * as a sequence of rows in insertion order, whether the table exists yet,
 * and the summary queries as functions over that sequence.
 *
 * `SUM` is exact here: integer overflow and float rounding in SQLite are not
 * modelled.
 */
module Storage {
  import opened Wrappers
  import opened Text
  import opened Errors
  import opened Schema

  /** The rows `insert_records` writes for `records`: one `as_db_tuple` each, in order. */
  function DbRows(records: seq<NormalizedRecord>): (t: seq<DbRow>)
    ensures |t| == |records|
    ensures forall i :: 0 <= i < |records| ==> t[i] == AsDbTuple(records[i])
  {
    seq(|records|, i requires 0 <= i < |records| => AsDbTuple(records[i]))
  }

  // ---------------------------------------------------------------------
  // Column sums
  // ---------------------------------------------------------------------

  datatype IntColumn = Impressions | Clicks | Conversions

  datatype RealColumn = Spend | Revenue

  function IntValue(r: DbRow, c: IntColumn): int {
    match c
    case Impressions => r.impressions
    case Clicks => r.clicks
    case Conversions => r.conversions
  }

  function RealValue(r: DbRow, c: RealColumn): real {
    match c
    case Spend => r.spend
    case Revenue => r.revenue
  }

  /** `SUM(c)` over the rows `t` of an integer column. */
  function SumInt(t: seq<DbRow>, c: IntColumn): int {
    if t == [] then 0 else SumInt(t[..|t| - 1], c) + IntValue(t[|t| - 1], c)
  }

  /** `SUM(c)` over the rows `t` of a real column. */
  function SumReal(t: seq<DbRow>, c: RealColumn): real {
    if t == [] then 0.0 else SumReal(t[..|t| - 1], c) + RealValue(t[|t| - 1], c)
  }

  /** A sum over two stretches of rows is the sum of the two sums. */
  lemma {:induction false} SumIntConcat(t: seq<DbRow>, u: seq<DbRow>, c: IntColumn)
    ensures SumInt(t + u, c) == SumInt(t, c) + SumInt(u, c)
    decreases |u|
  {
    if u == [] {
      assert t + u == t;
    } else {
      var u' := u[..|u| - 1];
      assert (t + u)[..|t + u| - 1] == t + u';
      SumIntConcat(t, u', c);
    }
  }

  lemma {:induction false} SumRealConcat(t: seq<DbRow>, u: seq<DbRow>, c: RealColumn)
    ensures SumReal(t + u, c) == SumReal(t, c) + SumReal(u, c)
    decreases |u|
  {
    if u == [] {
      assert t + u == t;
    } else {
      var u' := u[..|u| - 1];
      assert (t + u)[..|t + u| - 1] == t + u';
      SumRealConcat(t, u', c);
    }
  }

  // ---------------------------------------------------------------------
  // GROUP BY platform
  // ---------------------------------------------------------------------

  /** The distinct values of the `platform` column. */
  function Platforms(t: seq<DbRow>): set<string> {
    set i | 0 <= i < |t| :: t[i].platform
  }

  /** The rows of platform `p`, in table order (`WHERE platform = p`). */
  function OfPlatform(t: seq<DbRow>, p: string): (g: seq<DbRow>)
    ensures |g| <= |t|
    ensures forall i :: 0 <= i < |g| ==> g[i].platform == p
  {
    if t == [] then []
    else OfPlatform(t[..|t| - 1], p) + (if t[|t| - 1].platform == p then [t[|t| - 1]] else [])
  }

  /** One row of `fetch_summary`: a platform, its row count and the sums of its five metric columns. */
  datatype PlatformSummary = PlatformSummary(
    platform: string,
    rowsIngested: nat,
    impressions: int,
    clicks: int,
    spend: real,
    conversions: int,
    revenue: real)

  /** The summary row of the group of platform `p`. */
  function Summarize(t: seq<DbRow>, p: string): PlatformSummary {
    var g := OfPlatform(t, p);
    PlatformSummary(p, |g|, SumInt(g, Impressions), SumInt(g, Clicks), SumReal(g, Spend),
                    SumInt(g, Conversions), SumReal(g, Revenue))
  }

  function PlatformsOf(rows: seq<PlatformSummary>): seq<string> {
    seq(|rows|, i requires 0 <= i < |rows| => rows[i].platform)
  }

  /**
   * `rows` is what the `GROUP BY platform ORDER BY platform` query returns
   * for the table `t`: one row per platform present, ascending, each with
   * that platform's count and sums.
   */
  predicate SummaryOf(t: seq<DbRow>, rows: seq<PlatformSummary>) {
    && StrictlySorted(PlatformsOf(rows))
    && Elements(PlatformsOf(rows)) == Platforms(t)
    && forall i :: 0 <= i < |rows| ==> rows[i] == Summarize(t, rows[i].platform)
  }

  /** A platform has a non-empty group exactly when some row carries it. */
  lemma {:induction false} OfPlatformNonEmpty(t: seq<DbRow>, p: string)
    ensures OfPlatform(t, p) != [] <==> p in Platforms(t)
  {
    if t != [] {
      var t' := t[..|t| - 1];
      OfPlatformNonEmpty(t', p);
      assert Platforms(t) == Platforms(t') + {t[|t| - 1].platform} by {
        forall i | 0 <= i < |t'| ensures t'[i] == t[i] { }
      }
    }
  }

  /** The sum of `rowsIngested` over summary rows. */
  function TotalIngested(rows: seq<PlatformSummary>): int {
    if rows == [] then 0 else TotalIngested(rows[..|rows| - 1]) + rows[|rows| - 1].rowsIngested
  }

  /** The group sizes of the platforms `names`, added up. */
  function GroupSizes(t: seq<DbRow>, names: seq<string>): int {
    if names == [] then 0 else GroupSizes(t, names[..|names| - 1]) + |OfPlatform(t, names[|names| - 1])|
  }

  predicate Distinct(names: seq<string>) {
    forall i, j :: 0 <= i < j < |names| ==> names[i] != names[j]
  }

  /** One more row adds one to the group sizes exactly when its platform is listed once. */
  lemma {:induction false} GroupSizesAppend(t: seq<DbRow>, x: DbRow, names: seq<string>)
    requires Distinct(names)
    ensures GroupSizes(t + [x], names) == GroupSizes(t, names) + (if x.platform in names then 1 else 0)
    decreases |names|
  {
    if names != [] {
      var init := names[..|names| - 1];
      assert (t + [x])[..|t + [x]| - 1] == t;
      GroupSizesAppend(t, x, init);
      assert x.platform in names <==> x.platform in init || x.platform == names[|names| - 1];
      assert x.platform in init ==> x.platform != names[|names| - 1];
    }
  }

  /** Listing every platform once, the group sizes add up to the whole table. */
  lemma {:induction false} GroupSizesCover(t: seq<DbRow>, names: seq<string>)
    requires Distinct(names)
    requires forall i :: 0 <= i < |t| ==> t[i].platform in names
    ensures GroupSizes(t, names) == |t|
    decreases |t|
  {
    if t == [] {
      GroupSizesEmpty(names);
    } else {
      var t' := t[..|t| - 1];
      assert t == t' + [t[|t| - 1]];
      GroupSizesCover(t', names);
      GroupSizesAppend(t', t[|t| - 1], names);
    }
  }

  lemma {:induction false} GroupSizesEmpty(names: seq<string>)
    ensures GroupSizes([], names) == 0
    decreases |names|
  {
    if names != [] {
      GroupSizesEmpty(names[..|names| - 1]);
    }
  }

  lemma {:induction false} TotalIngestedGroups(t: seq<DbRow>, rows: seq<PlatformSummary>)
    requires forall i :: 0 <= i < |rows| ==> rows[i] == Summarize(t, rows[i].platform)
    ensures TotalIngested(rows) == GroupSizes(t, PlatformsOf(rows))
    decreases |rows|
  {
    if rows != [] {
      var init := rows[..|rows| - 1];
      assert PlatformsOf(rows)[..|rows| - 1] == PlatformsOf(init);
      TotalIngestedGroups(t, init);
    }
  }

  /**
   * Every stored row is counted in exactly one summary row: the summary's
   * `rows_ingested` add up to the table's row count.
   */
  lemma SummaryCountsAddUp(t: seq<DbRow>, rows: seq<PlatformSummary>)
    requires SummaryOf(t, rows)
    ensures TotalIngested(rows) == |t|
  {
    var names := PlatformsOf(rows);
    assert Distinct(names) by {
      forall i, j | 0 <= i < j < |names| ensures names[i] != names[j] {
        assert LexLt(names[i], names[j]);
      }
    }
    forall i | 0 <= i < |t| ensures t[i].platform in names {
      assert t[i].platform in Platforms(t);
    }
    TotalIngestedGroups(t, rows);
    GroupSizesCover(t, names);
  }

  /** `fetch_totals`: the row count and the five sums; `SUM` over no rows is NULL. */
  datatype Totals = Totals(
    rowsIngested: nat,
    impressions: Option<int>,
    clicks: Option<int>,
    spend: Option<real>,
    conversions: Option<int>,
    revenue: Option<real>)

  function SumOrNull(t: seq<DbRow>, c: IntColumn): Option<int> {
    if t == [] then None else Some(SumInt(t, c))
  }

  function SumOrNullReal(t: seq<DbRow>, c: RealColumn): Option<real> {
    if t == [] then None else Some(SumReal(t, c))
  }

  /** The single row `fetch_totals` reads for the table `t`. */
  function TotalsOf(t: seq<DbRow>): Totals {
    Totals(|t|, SumOrNull(t, Impressions), SumOrNull(t, Clicks), SumOrNullReal(t, Spend),
           SumOrNull(t, Conversions), SumOrNullReal(t, Revenue))
  }

  /**
   * After an insert of `records` the totals grow by exactly those records:
   * the count by their number and each sum by their sum.
   */
  lemma InsertGrowsTotals(t: seq<DbRow>, records: seq<NormalizedRecord>, c: IntColumn, d: RealColumn)
    ensures TotalsOf(t + DbRows(records)).rowsIngested == |t| + |records|
    ensures SumInt(t + DbRows(records), c) == SumInt(t, c) + SumInt(DbRows(records), c)
    ensures SumReal(t + DbRows(records), d) == SumReal(t, d) + SumReal(DbRows(records), d)
    ensures TotalsOf(t + DbRows(records)).impressions.None? <==> t == [] && records == []
  {
    SumIntConcat(t, DbRows(records), c);
    SumRealConcat(t, DbRows(records), d);
  }

  // ---------------------------------------------------------------------
  // DatabaseManager
  // ---------------------------------------------------------------------

  class DatabaseManager {
    /** Whether `CREATE TABLE ad_performance` has run on this database file. */
    var tableExists: bool
    /** The rows of `ad_performance`, in insertion order. */
    var table: seq<DbRow>

    /** A table that does not exist holds no rows. */
    ghost predicate Valid()
      reads this
    {
      tableExists || table == []
    }

    /** A manager over a database file holding, or not yet holding, the table. */
    constructor (tableExists: bool, table: seq<DbRow>)
      requires tableExists || table == []
      ensures this.tableExists == tableExists && this.table == table
      ensures Valid()
    {
      this.tableExists := tableExists;
      this.table := table;
    }

    /** `initialize`: creates the table if it is absent; existing rows are kept, so a second call changes nothing. */
    method Initialize()
      requires Valid()
      modifies this
      ensures tableExists && table == old(table)
      ensures Valid()
    {
      tableExists := true;
    }

    /**
     * `insert_records`: no records returns 0 without opening the database;
     * otherwise all rows are appended, or on a missing table none is and the
     * error is raised; the result is the number of records.
     */
    method InsertRecords(records: seq<NormalizedRecord>) returns (r: Result<nat, Error>)
      requires Valid()
      modifies this
      ensures records == [] ==> r == Ok(0) && unchanged(this)
      ensures records != [] && !old(tableExists) ==> r == Err(NoSuchTable) && unchanged(this)
      ensures records != [] && old(tableExists) ==>
        && r == Ok(|records|) && tableExists && table == old(table) + DbRows(records)
      ensures Valid()
    {
      if records == [] {
        return Ok(0);
      }
      if !tableExists {
        return Err(NoSuchTable);
      }
      table := table + DbRows(records);
      return Ok(|records|);
    }

    /** `fetch_summary`: one row per platform, ascending, with its count and sums. */
    method FetchSummary() returns (r: Result<seq<PlatformSummary>, Error>)
      ensures !tableExists ==> r == Err(NoSuchTable)
      ensures tableExists ==> r.Ok? && SummaryOf(table, r.value)
    {
      if !tableExists {
        return Err(NoSuchTable);
      }
      var t := table;
      var names := SortedStrings(Platforms(t));
      var rows := seq(|names|, i requires 0 <= i < |names| => Summarize(t, names[i]));
      assert PlatformsOf(rows) == names;
      assert forall i :: 0 <= i < |rows| ==> rows[i] == Summarize(t, rows[i].platform);
      return Ok(rows);
    }

    /** `fetch_totals`: the count and sums over the whole table. */
    method FetchTotals() returns (r: Result<Totals, Error>)
      ensures !tableExists ==> r == Err(NoSuchTable)
      ensures tableExists ==> r.Ok? && r.value.rowsIngested == |table|
      ensures tableExists ==> r == Ok(TotalsOf(table))
    {
      if !tableExists {
        return Err(NoSuchTable);
      }
      return Ok(TotalsOf(table));
    }

    /** `row_count`: the number of stored rows. */
    method RowCount() returns (r: Result<nat, Error>)
      ensures !tableExists ==> r == Err(NoSuchTable)
      ensures tableExists ==> r == Ok(|table|)
    {
      if !tableExists {
        return Err(NoSuchTable);
      }
      return Ok(|table|);
    }
  }
}
