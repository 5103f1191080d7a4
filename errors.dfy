/**
 * The exceptions the ingestion layer raises, as one datatype, with the text
 * each one carries.
 */
module Errors {
  import opened Text

  datatype Error =
    | MissingDate                                             // ValueError from parse_date
    | InvalidDate(value: string)                              // ValueError from date.fromisoformat
    | YearOutOfRange                                          // ValueError from the date constructor
    | MonthOutOfRange                                         // ValueError from the date constructor
    | DayOutOfRange                                           // ValueError from the date constructor
    | MissingPlatformSlug                                     // ValueError from BaseConnector.__init__
    | MissingPlatformName                                     // ValueError from BaseConnector.__init__
    | FileNotFound(path: string)                              // FileNotFoundError from load_file
    | UnsupportedPlatform(slug: string, supported: seq<string>) // KeyError from ConnectorRegistry.get
    | NoSuchTable                                             // sqlite3.OperationalError
    | NotADate                                                // ValueError from _ensure_date

  /** The message the source attaches to each error. */
  function Message(e: Error): string {
    match e
    case MissingDate => "Date value is mandatory"
    case InvalidDate(value) => "Invalid isoformat string: '" + value + "'"
    // Four ASCII digits leave 0 as the only year outside 1..9999.
    case YearOutOfRange => "year 0 is out of range"
    case MonthOutOfRange => "month must be in 1..12"
    case DayOutOfRange => "day is out of range for month"
    case MissingPlatformSlug => "Connector must define platform_slug"
    case MissingPlatformName => "Connector must define platform_name"
    case FileNotFound(path) => "CSV file not found: " + path
    case UnsupportedPlatform(slug, supported) =>
      "Unsupported platform '" + slug + "'. Supported: " + Join(supported, ", ")
    case NoSuchTable => "no such table: ad_performance"
    case NotADate => "Expected date or isoformat string"
  }
}
