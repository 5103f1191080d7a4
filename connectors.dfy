/**
 * The three CSV connectors behind one interface (adpulse/connectors/base.py):
 * the per-platform row step, `normalize_rows` as a loop that stops at the
 * first row whose date does not parse, and `load_file` with the file system
 * reduced to whether the file exists and which rows its reader yields.
 */
module Connectors {
  import opened Wrappers
  import opened Errors
  import opened Schema
  import opened ConnectorBase
  import GoogleAds
  import MetaAds
  import TikTokAds

  /** The record a connector builds from one row, by its platform's column layout. */
  function NormalizeRow(c: Connector, row: Row): Result<NormalizedRecord, Error> {
    match c.platform
    case Google => GoogleAds.NormalizeRow(c.slug, c.name, row)
    case Meta => MetaAds.NormalizeRow(c.slug, c.name, row)
    case TikTok => TikTokAds.NormalizeRow(c.slug, c.name, row)
  }

  /** The slug and display name each connector class declares. */
  function DefaultConnector(p: Platform): Result<Connector, Error> {
    match p
    case Google => NewConnector(Google, Some(GoogleAds.Slug), Some(GoogleAds.Name))
    case Meta => NewConnector(Meta, Some(MetaAds.Slug), Some(MetaAds.Name))
    case TikTok => NewConnector(TikTok, Some(TikTokAds.Slug), Some(TikTokAds.Name))
  }

  /** Every connector class passes the identity check of `BaseConnector.__init__`. */
  lemma DefaultConnectorsConstruct(p: Platform)
    ensures DefaultConnector(p).Ok?
    ensures DefaultConnector(p).value.platform == p
    ensures p == Google ==> DefaultConnector(p).value.slug == "google" && DefaultConnector(p).value.name == "Google Ads"
    ensures p == Meta ==> DefaultConnector(p).value.slug == "meta" && DefaultConnector(p).value.name == "Meta Ads"
    ensures p == TikTok ==> DefaultConnector(p).value.slug == "tiktok" && DefaultConnector(p).value.name == "TikTok Ads"
  {
  }

  // ---------------------------------------------------------------------
  // normalize_rows over a whole file
  // ---------------------------------------------------------------------

  /** One pass of a `normalize_rows` loop: the record a row becomes, or the error it raises. */
  type RowStep = Row -> Result<NormalizedRecord, Error>

  /** The row step of connector `c`. */
  function Step(c: Connector): RowStep {
    row => NormalizeRow(c, row)
  }

  /** `v` in front of a successful list; an error passes through. */
  function Prepend(v: seq<NormalizedRecord>, r: Result<seq<NormalizedRecord>, Error>): Result<seq<NormalizedRecord>, Error> {
    match r
    case Ok(w) => Ok(v + w)
    case Err(e) => Err(e)
  }

  /**
   * What `normalize_rows` returns or raises for `rows`: the records in row
   * order, or the error of the first row that fails.
   */
  function NormalizeAll(step: RowStep, rows: seq<Row>): Result<seq<NormalizedRecord>, Error>
    decreases |rows|
  {
    if rows == [] then Ok([])
    else
      match step(rows[0])
      case Err(e) => Err(e)
      case Ok(v) => Prepend([v], NormalizeAll(step, rows[1..]))
  }

  lemma PrependTwice(u: seq<NormalizedRecord>, v: seq<NormalizedRecord>, r: Result<seq<NormalizedRecord>, Error>)
    ensures Prepend(u, Prepend(v, r)) == Prepend(u + v, r)
  {
    if r.Ok? {
      assert u + (v + r.value) == u + v + r.value;
    }
  }

  /**
   * `normalize_rows`: one record per row, appended in order; the first row
   * whose date is missing or unreadable raises, and nothing is returned.
   */
  method NormalizeRows(step: RowStep, rows: seq<Row>) returns (r: Result<seq<NormalizedRecord>, Error>)
    ensures r == NormalizeAll(step, rows)
  {
    var normalized: seq<NormalizedRecord> := [];
    var i := 0;
    assert rows[0..] == rows;
    if NormalizeAll(step, rows).Ok? {
      assert [] + NormalizeAll(step, rows).value == NormalizeAll(step, rows).value;
    }
    while i < |rows|
      invariant 0 <= i <= |rows|
      invariant NormalizeAll(step, rows) == Prepend(normalized, NormalizeAll(step, rows[i..]))
      decreases |rows| - i
    {
      assert rows[i..][0] == rows[i] && rows[i..][1..] == rows[i + 1..];
      match step(rows[i])
      case Err(e) =>
        return Err(e);
      case Ok(record) =>
        PrependTwice(normalized, [record], NormalizeAll(step, rows[i + 1..]));
        normalized := normalized + [record];
        i := i + 1;
    }
    assert rows[i..] == [];
    assert normalized + [] == normalized;
    return Ok(normalized);
  }

  /**
   * A successful run yields exactly one record per row, each the one its
   * row normalizes to; and a run succeeds exactly when every row does.
   */
  lemma {:induction false} NormalizeAllOk(step: RowStep, rows: seq<Row>)
    ensures NormalizeAll(step, rows).Ok? <==> forall i :: 0 <= i < |rows| ==> step(rows[i]).Ok?
    ensures NormalizeAll(step, rows).Ok? ==>
      && |NormalizeAll(step, rows).value| == |rows|
      && forall i :: 0 <= i < |rows| ==> step(rows[i]) == Ok(NormalizeAll(step, rows).value[i])
  {
    if rows != [] {
      NormalizeAllOk(step, rows[1..]);
      assert forall i :: 1 <= i < |rows| ==> rows[i] == rows[1..][i - 1];
      if step(rows[0]).Ok? && NormalizeAll(step, rows[1..]).Ok? {
        var v := step(rows[0]).value;
        var w := NormalizeAll(step, rows[1..]).value;
        assert NormalizeAll(step, rows).value == [v] + w;
        assert forall i :: 1 <= i < |rows| ==> ([v] + w)[i] == w[i - 1];
      }
      if !NormalizeAll(step, rows[1..]).Ok? {
        var j :| 0 <= j < |rows[1..]| && !step(rows[1..][j]).Ok?;
        assert rows[1..][j] == rows[j + 1];
      }
    }
  }

  /**
   * A failed run reports the error of the first failing row: every row
   * before it normalizes.
   */
  lemma {:induction false} NormalizeAllErr(step: RowStep, rows: seq<Row>)
    requires NormalizeAll(step, rows).Err?
    ensures exists k :: (0 <= k < |rows| && step(rows[k]) == Err(NormalizeAll(step, rows).error)
      && forall i :: 0 <= i < k ==> step(rows[i]).Ok?)
  {
    if step(rows[0]).Err? {
      assert step(rows[0]) == Err(NormalizeAll(step, rows).error);
    } else {
      NormalizeAllErr(step, rows[1..]);
      var k :| 0 <= k < |rows[1..]| && step(rows[1..][k]) == Err(NormalizeAll(step, rows[1..]).error)
        && forall i :: 0 <= i < k ==> step(rows[1..][i]).Ok?;
      assert forall i :: 1 <= i < k + 1 ==> rows[i] == rows[1..][i - 1];
      assert rows[k + 1] == rows[1..][k];
    }
  }

  // ---------------------------------------------------------------------
  // CSVConnector.load_file
  // ---------------------------------------------------------------------

  /**
   * `load_file`: a path that does not exist raises "CSV file not found";
   * otherwise the rows with some non-blank cell are normalized. `path` is
   * the text of `Path(source)`, the normalized path the message shows, and
   * `fileExists` is what `path.exists()` answers.
   */
  method LoadFile(c: Connector, fileExists: bool, path: string, rows: seq<Row>) returns (r: Result<seq<NormalizedRecord>, Error>)
    ensures !fileExists ==> r == Err(FileNotFound(path))
    ensures fileExists ==> r == NormalizeAll(Step(c), KeepNonBlank(rows))
  {
    if !fileExists {
      return Err(FileNotFound(path));
    }
    r := NormalizeRows(Step(c), KeepNonBlank(rows));
  }

  /**
   * A file holding one non-blank row, as each connector test writes, loads
   * as exactly the record that row normalizes to.
   */
  lemma LoadOneRow(step: RowStep, row: Row)
    requires HasContent(row) && step(row).Ok?
    ensures NormalizeAll(step, KeepNonBlank([row])) == Ok([step(row).value])
  {
    KeepNonBlankSingle(row);
    assert [row][0] == row && [row][1..] == [];
    assert NormalizeAll(step, [row][1..]) == Ok([]);
    assert [step(row).value] + [] == [step(row).value];
  }

  /** Blank rows never cost a record and never raise: only the kept rows are normalized. */
  lemma LoadSkipsBlank(step: RowStep, rows: seq<Row>, blank: Row)
    requires !HasContent(blank)
    ensures NormalizeAll(step, KeepNonBlank(rows + [blank])) == NormalizeAll(step, KeepNonBlank(rows))
  {
    KeepNonBlankConcat(rows, [blank]);
    KeepNonBlankSingle(blank);
    assert KeepNonBlank(rows) + [] == KeepNonBlank(rows);
  }
}
