/** The outcome of one fetch cycle: a status and the map of transformed values. */
module FetcherResult {
  import opened Wrappers
  import opened Values

  datatype Status = OK | TIMEOUT | ERROR

  /** The status as it is written into the published record. */
  function StatusText(s: Status): (r: string)
    ensures r in {"ok", "timeout", "error"}
  {
    match s
    case OK => "ok"
    case TIMEOUT => "timeout"
    case ERROR => "error"
  }

  /**
   * The named tuple `(status, values)`; either part may be None when a
   * fetcher hands back an incomplete result.
   */
  datatype FetcherResult = FetcherResult(status: Option<Status>, values: Option<ValueMap>)
}
