/**
 * The query-parameter cleaners that run before every HTTP call: `_clean_params`
 * in adpulse/ai/insights_service.py and adpulse/reporting/report_service.py,
 * and `_prepare_params` in adpulse/dashboard/api_client.py. All three skip
 * `None` and write dates as ISO text; `_prepare_params` also skips the empty
 * string. A parameter dict is a sequence of entries in insertion order with
 * distinct keys.
 */
module QueryParams {
  import opened Wrappers
  import opened Schema

  /** The values callers pass: `None`, text, a number or a `datetime.date`. */
  datatype ParamValue = Null | Text(text: string) | Number(x: real) | Day(date: CalendarDate)

  type Param = (string, ParamValue)

  predicate DistinctKeys(ps: seq<Param>) {
    forall i, j :: 0 <= i < j < |ps| ==> ps[i].0 != ps[j].0
  }

  /** A Python dict of parameters: entries in insertion order, each key once. */
  type Params = ps: seq<Param> | DistinctKeys(ps) witness []

  /** Whether the cleaner skips a value: always `None`, and `""` when `dropEmpty`. */
  predicate Skipped(v: ParamValue, dropEmpty: bool) {
    v.Null? || (dropEmpty && v == Text(""))
  }

  /** A date becomes its `isoformat()` text; any other value is kept. */
  function CleanValue(v: ParamValue): (w: ParamValue)
    ensures !w.Day?
    ensures !v.Day? ==> w == v
    ensures v.Day? ==> w == Text(IsoFormat(v.date)) && FromIsoFormat(w.text) == Some(v.date)
  {
    if v.Day? then
      IsoFormatRoundTrip(v.date);
      Text(IsoFormat(v.date))
    else v
  }

  /** What one entry contributes to the cleaned dict. */
  function Entry(p: Param, dropEmpty: bool): seq<Param> {
    if Skipped(p.1, dropEmpty) then [] else [(p.0, CleanValue(p.1))]
  }

  /** The cleaned dict for the entries `ps`, in their order. */
  function Cleaned(ps: seq<Param>, dropEmpty: bool): seq<Param> {
    if ps == [] then [] else Cleaned(ps[..|ps| - 1], dropEmpty) + Entry(ps[|ps| - 1], dropEmpty)
  }

  /**
   * The cleaning loop: each entry not skipped is written under its key, a
   * date as its ISO text. `dropEmpty` is false for `_clean_params` and true
   * for `_prepare_params`.
   */
  method CleanParams(params: Params, dropEmpty: bool) returns (cleaned: Params)
    ensures cleaned == Cleaned(params, dropEmpty)
  {
    var out: seq<Param> := [];
    var i := 0;
    while i < |params|
      invariant 0 <= i <= |params|
      invariant out == Cleaned(params[..i], dropEmpty)
    {
      assert params[..i + 1][..i] == params[..i];
      var (key, value) := params[i];
      if !Skipped(value, dropEmpty) {
        out := out + [(key, CleanValue(value))];
      }
      i := i + 1;
    }
    assert params[..i] == params;
    CleanedDistinct(params, dropEmpty);
    cleaned := out;
  }

  /**
   * Cleaning works entry by entry: the cleaned dict of two runs of entries
   * is the two cleaned dicts one after the other, so the order is kept.
   */
  lemma {:induction false} CleanedConcat(a: seq<Param>, b: seq<Param>, dropEmpty: bool)
    ensures Cleaned(a + b, dropEmpty) == Cleaned(a, dropEmpty) + Cleaned(b, dropEmpty)
    decreases |b|
  {
    if b == [] {
      assert a + b == a;
    } else {
      var b' := b[..|b| - 1];
      var e := Entry(b[|b| - 1], dropEmpty);
      assert (a + b)[..|a + b| - 1] == a + b' && (a + b)[|a + b| - 1] == b[|b| - 1];
      CleanedConcat(a, b', dropEmpty);
      assert Cleaned(a, dropEmpty) + Cleaned(b', dropEmpty) + e == Cleaned(a, dropEmpty) + (Cleaned(b', dropEmpty) + e);
    }
  }

  /**
   * Every cleaned entry comes from an entry of the input under the same key,
   * not skipped, with its value cleaned: no key is added, no `None` and no
   * date is left, and with `dropEmpty` no empty string either.
   */
  lemma {:induction false} CleanedSound(ps: seq<Param>, dropEmpty: bool)
    ensures forall q :: q in Cleaned(ps, dropEmpty) ==>
      && !q.1.Null? && !q.1.Day? && (dropEmpty ==> q.1 != Text(""))
      && exists i :: 0 <= i < |ps| && ps[i].0 == q.0 && !Skipped(ps[i].1, dropEmpty) && q.1 == CleanValue(ps[i].1)
  {
    if ps != [] {
      var init := ps[..|ps| - 1];
      CleanedSound(init, dropEmpty);
      forall q | q in Cleaned(ps, dropEmpty)
        ensures exists i :: 0 <= i < |ps| && ps[i].0 == q.0 && !Skipped(ps[i].1, dropEmpty) && q.1 == CleanValue(ps[i].1)
      {
        if q in Cleaned(init, dropEmpty) {
          var i :| 0 <= i < |init| && init[i].0 == q.0 && !Skipped(init[i].1, dropEmpty) && q.1 == CleanValue(init[i].1);
          assert ps[i] == init[i];
        } else {
          assert ps[|ps| - 1].0 == q.0;
        }
      }
    }
  }

  /** Every entry that is not skipped is in the cleaned dict, its value cleaned. */
  lemma {:induction false} CleanedComplete(ps: seq<Param>, dropEmpty: bool)
    ensures forall i :: 0 <= i < |ps| && !Skipped(ps[i].1, dropEmpty) ==>
      (ps[i].0, CleanValue(ps[i].1)) in Cleaned(ps, dropEmpty)
  {
    if ps != [] {
      var init := ps[..|ps| - 1];
      CleanedComplete(init, dropEmpty);
      forall i | 0 <= i < |ps| && !Skipped(ps[i].1, dropEmpty)
        ensures (ps[i].0, CleanValue(ps[i].1)) in Cleaned(ps, dropEmpty)
      {
        if i < |init| {
          assert ps[i] == init[i];
        }
      }
    }
  }

  /** The cleaned entries of a dict have distinct keys: the result is a dict again. */
  lemma {:induction false} CleanedDistinct(ps: seq<Param>, dropEmpty: bool)
    requires DistinctKeys(ps)
    ensures DistinctKeys(Cleaned(ps, dropEmpty))
  {
    if ps != [] {
      var init := ps[..|ps| - 1];
      var last := ps[|ps| - 1];
      CleanedDistinct(init, dropEmpty);
      CleanedSound(init, dropEmpty);
      var c := Cleaned(init, dropEmpty);
      forall q | q in c ensures q.0 != last.0 {
        var i :| 0 <= i < |init| && init[i].0 == q.0 && !Skipped(init[i].1, dropEmpty) && q.1 == CleanValue(init[i].1);
        assert ps[i] == init[i];
      }
      var r := c + Entry(last, dropEmpty);
      forall i, j | 0 <= i < j < |r| ensures r[i].0 != r[j].0 {
        if j >= |c| {
          assert r[i] in c;
        }
      }
    }
  }

  /** Cleaning twice is cleaning once. */
  lemma {:induction false} CleanedIdempotent(ps: seq<Param>, dropEmpty: bool)
    ensures Cleaned(Cleaned(ps, dropEmpty), dropEmpty) == Cleaned(ps, dropEmpty)
  {
    if ps != [] {
      var init := ps[..|ps| - 1];
      var e := Entry(ps[|ps| - 1], dropEmpty);
      CleanedIdempotent(init, dropEmpty);
      CleanedConcat(Cleaned(init, dropEmpty), e, dropEmpty);
      assert Cleaned(e, dropEmpty) == e by {
        if e != [] {
          assert e[..0] == [];
        }
      }
    }
  }

  /**
   * The dashboard's date-range call: with a start date, no end date and an
   * empty platform, `_prepare_params` sends only the start as ISO text while
   * `_clean_params` also keeps the empty platform.
   */
  lemma SkippedExample(start: CalendarDate)
    ensures Cleaned([("start_date", Day(start)), ("end_date", Null), ("platform", Text(""))], true)
         == [("start_date", Text(IsoFormat(start)))]
    ensures Cleaned([("start_date", Day(start)), ("end_date", Null), ("platform", Text(""))], false)
         == [("start_date", Text(IsoFormat(start))), ("platform", Text(""))]
  {
    var ps := [("start_date", Day(start)), ("end_date", Null), ("platform", Text(""))];
    var first := [("start_date", Text(IsoFormat(start)))];
    assert ps[..|ps| - 1] == [("start_date", Day(start)), ("end_date", Null)];
    CleanedFirstTwo(start, true);
    CleanedFirstTwo(start, false);
    assert Entry(ps[2], true) == [];
    assert Entry(ps[2], false) == [("platform", Text(""))];
    assert first + [] == first;
  }

  lemma CleanedFirstTwo(start: CalendarDate, dropEmpty: bool)
    ensures Cleaned([("start_date", Day(start)), ("end_date", Null)], dropEmpty) == [("start_date", Text(IsoFormat(start)))]
  {
    var ps := [("start_date", Day(start)), ("end_date", Null)];
    assert ps[..1] == [("start_date", Day(start))];
    assert ps[..1][..0] == [];
    assert Cleaned(ps[..1], dropEmpty) == [] + [("start_date", Text(IsoFormat(start)))];
    assert Entry(ps[1], dropEmpty) == [];
  }
}
