/**
  The record of the most recent stock fetch, which the bot updates after
  each cycle and the API server reads for its status view.
*/
module StatusTracker {
  import opened Wrappers

  /** `{ time, success, message }`; `time` and `success` are `null` before the first fetch. */
  datatype FetchStatus = FetchStatus(time: Option<string>, success: Option<bool>, message: string)

  const NotFetchedYet := "Not fetched yet."
  const DefaultSuccessMessage := "Stock updated."
  const DefaultFailureMessage := "Fetch failed."

  /** The record before any fetch. */
  const Initial := FetchStatus(None, None, NotFetchedYet)

  /**
    The record an update writes at `time` (an ISO timestamp): the outcome,
    and the message, or the default for the outcome when it is empty.
  */
  function StatusRecord(time: string, success: bool, message: string): (r: FetchStatus)
    ensures r.time == Some(time) && r.success == Some(success)
    ensures message != "" ==> r.message == message
    ensures message == "" && success ==> r.message == DefaultSuccessMessage
    ensures message == "" && !success ==> r.message == DefaultFailureMessage
    ensures r.message != ""
  {
    FetchStatus(Some(time), Some(success), if message != "" then message else if success then DefaultSuccessMessage else DefaultFailureMessage)
  }

  /** The module-level `lastFetch` variable and its two accessors. */
  class Tracker {
    var lastFetch: FetchStatus

    constructor ()
      ensures lastFetch == Initial
    {
      lastFetch := Initial;
    }

    /** Replaces the whole record; nothing of the previous one is kept. */
    method UpdateLastFetchStatus(success: bool, message: string, now: string)
      modifies this
      ensures lastFetch == StatusRecord(now, success, message)
    {
      lastFetch := StatusRecord(now, success, message);
    }

    method GetLastFetchStatus() returns (r: FetchStatus)
      ensures r == lastFetch
    {
      r := lastFetch;
    }
  }
}
