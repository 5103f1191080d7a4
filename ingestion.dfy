/**
 * The ingestion entry point (adpulse/ingestion/data_ingestor.py): look the
 * connector up, load and normalize the file, insert the records, and report
 * what was ingested. The file system is reduced to whether the path exists
 * and which rows its reader yields.
 */
module Ingestion {
  import opened Wrappers
  import opened Text
  import opened Errors
  import opened Schema
  import opened ConnectorBase
  import opened Connectors
  import opened Registry
  import opened Storage

  /** `IngestionReport`: the connector's display name, the file, and the number of rows inserted. */
  datatype IngestionReport = IngestionReport(platform: string, sourceFile: string, rowsIngested: nat)

  /** What `load_file` returns or raises for connector `c` on a file with `rows`. */
  function Loaded(c: Connector, fileExists: bool, path: string, rows: seq<Row>): Result<seq<NormalizedRecord>, Error> {
    if !fileExists then Err(FileNotFound(path)) else NormalizeAll(Step(c), KeepNonBlank(rows))
  }

  class DataIngestor {
    const registry: ConnectorRegistry
    const database: DatabaseManager

    /** `__init__`: keeps both collaborators and initializes the database, keeping its rows. */
    constructor (registry: ConnectorRegistry, database: DatabaseManager)
      requires database.Valid()
      modifies database
      ensures this.registry == registry && this.database == database
      ensures database.tableExists && database.table == old(database.table) && database.Valid()
    {
      this.registry := registry;
      this.database := database;
      new;
      database.Initialize();
    }

    /**
     * `ingest_file`: an unsupported slug fails first, before the file is
     * looked at; a missing file or a row that does not normalize fails next;
     * in every failure nothing is inserted. Otherwise all records are
     * inserted and the report carries the connector's display name and
     * their number.
     */
    method IngestFile(slug: string, path: string, fileExists: bool, rows: seq<Row>) returns (r: Result<IngestionReport, Error>)
      requires database.Valid()
      modifies database
      ensures database.Valid()
      ensures !registry.Contains(slug) ==>
        && r.Err? && r.error.UnsupportedPlatform? && r.error.slug == slug
        && unchanged(database)
      ensures registry.Contains(slug) ==>
        var c := registry.connectors[Lower(slug)];
        var loaded := Loaded(c, fileExists, path, rows);
        && (loaded.Err? ==> r == Err(loaded.error) && unchanged(database))
        && (loaded.Ok? && loaded.value == [] ==> r == Ok(IngestionReport(c.name, path, 0)) && unchanged(database))
        && (loaded.Ok? && loaded.value != [] && !old(database.tableExists) ==>
              r == Err(NoSuchTable) && unchanged(database))
        && (loaded.Ok? && loaded.value != [] && old(database.tableExists) ==>
              && r == Ok(IngestionReport(c.name, path, |loaded.value|))
              && database.table == old(database.table) + DbRows(loaded.value))
    {
      var connector := registry.Get(slug);
      if connector.Err? {
        return Err(connector.error);
      }
      var c := connector.value;
      var records := LoadFile(c, fileExists, path, rows);
      if records.Err? {
        return Err(records.error);
      }
      var ingested := database.InsertRecords(records.value);
      if ingested.Err? {
        return Err(ingested.error);
      }
      return Ok(IngestionReport(c.name, path, ingested.value));
    }

    /** `summary_rows`: the database's `fetch_summary`, unchanged. */
    method SummaryRows() returns (r: Result<seq<PlatformSummary>, Error>)
      ensures !database.tableExists ==> r == Err(NoSuchTable)
      ensures database.tableExists ==> r.Ok? && SummaryOf(database.table, r.value)
    {
      r := database.FetchSummary();
    }

    /** `table_row_count`: the database's `row_count`, unchanged. */
    method TableRowCount() returns (r: Result<nat, Error>)
      ensures !database.tableExists ==> r == Err(NoSuchTable)
      ensures database.tableExists ==> r == Ok(|database.table|)
    {
      r := database.RowCount();
    }
  }

  /**
   * A successful ingest stores exactly one row per non-blank CSV row, each
   * the `as_db_tuple` of the record that row normalizes to.
   */
  lemma IngestedRowsMatch(c: Connector, path: string, rows: seq<Row>)
    requires Loaded(c, true, path, rows).Ok?
    ensures |DbRows(Loaded(c, true, path, rows).value)| == |KeepNonBlank(rows)|
    ensures forall i :: 0 <= i < |KeepNonBlank(rows)| ==>
      Step(c)(KeepNonBlank(rows)[i]).Ok? &&
      DbRows(Loaded(c, true, path, rows).value)[i] == AsDbTuple(Step(c)(KeepNonBlank(rows)[i]).value)
  {
    NormalizeAllOk(Step(c), KeepNonBlank(rows));
  }
}
