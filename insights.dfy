/**
 * The period split behind the ROAS-drop insight (adpulse/ai/insights_service.py):
 * a daily series is cut into an earlier and a later half to compare.
 */
module Insights {

  function Max(a: int, b: int): int {
    if a >= b then a else b
  }

  /**
   * `_split_period(values)`: no values give two empty halves; otherwise the
   * first `max(1, n // 2)` values are the previous period and the rest the
   * recent one, except that a single value is both.
   */
  function SplitPeriod<T>(values: seq<T>): (r: (seq<T>, seq<T>))
    ensures values == [] ==> r == ([], [])
    ensures values != [] ==> r.0 == values[..Max(1, |values| / 2)]
    ensures |values| >= 2 ==> r.0 + r.1 == values
    ensures |values| == 1 ==> r.0 == values && r.1 == values
    ensures values != [] ==> r.0 != [] && r.1 != []
    ensures |values| >= 2 ==> |r.0| <= |r.1| <= |r.0| + 1
  {
    if values == [] then ([], [])
    else
      var half := Max(1, |values| / 2);
      var previous := values[..half];
      var recent := values[half..];
      assert previous + recent == values;
      if recent == [] then (previous, previous) else (previous, recent)
  }
}
