/**
 * The dashboard's arithmetic helpers (adpulse/dashboard/utils.py): adding up
 * one metric over the rows the API returned, and division guarded against a
 * zero denominator.
 */
module DashboardUtils {
  import opened Wrappers

  /** One API result row: metric name to number, where JSON `null` is `None`. */
  type MetricRow = map<string, Option<real>>

  /** `row.get(key, 0) or 0`: a missing key and a `None` value both count as 0. */
  function RowValue(row: MetricRow, key: string): real {
    if key in row && row[key].Some? then row[key].value else 0.0
  }

  /** The sum of `key` over `rows`. */
  function Total(rows: seq<MetricRow>, key: string): real {
    if rows == [] then 0.0 else Total(rows[..|rows| - 1], key) + RowValue(rows[|rows| - 1], key)
  }

  /** `aggregate_metric`: the running total of `key` over the rows, starting at 0.0. */
  method AggregateMetric(rows: seq<MetricRow>, key: string) returns (total: real)
    ensures total == Total(rows, key)
    ensures rows == [] ==> total == 0.0
  {
    total := 0.0;
    var i := 0;
    while i < |rows|
      invariant 0 <= i <= |rows|
      invariant total == Total(rows[..i], key)
    {
      assert rows[..i + 1][..i] == rows[..i];
      total := total + RowValue(rows[i], key);
      i := i + 1;
    }
    assert rows[..i] == rows;
  }

  /** The total over two stretches of rows is the sum of their totals. */
  lemma {:induction false} TotalConcat(a: seq<MetricRow>, b: seq<MetricRow>, key: string)
    ensures Total(a + b, key) == Total(a, key) + Total(b, key)
    decreases |b|
  {
    if b == [] {
      assert a + b == a;
    } else {
      var b' := b[..|b| - 1];
      assert (a + b)[..|a + b| - 1] == a + b';
      TotalConcat(a, b', key);
    }
  }

  /** A row without the key, or with `None` under it, leaves the total as it was. */
  lemma MissingAddsNothing(rows: seq<MetricRow>, row: MetricRow, key: string)
    requires key !in row || row[key].None?
    ensures Total(rows + [row], key) == Total(rows, key)
  {
    TotalConcat(rows, [row], key);
    assert [row][..0] == [];
  }

  /** `safe_divide`: 0.0 for a zero denominator, the exact quotient otherwise. */
  function SafeDivide(numerator: real, denominator: real): (r: real)
    ensures denominator == 0.0 ==> r == 0.0
    ensures denominator != 0.0 ==> r * denominator == numerator
  {
    if denominator == 0.0 then 0.0 else numerator / denominator
  }
}
