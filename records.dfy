/**
 * The Event Record, the one document the service writes: a normalised
 * source-control activity (a push, a pull request, or a merge).
 */
module Records {
  import opened PyValue

  /** The `action` field's three values, stored as "PUSH", "PULL_REQUEST" and "MERGE". */
  datatype Action = Push | PullRequest | Merge

  /**
   * The fields copied out of the payload keep whatever JSON value the payload
   * held there; `toBranch` of a push is always a string, `fromBranch` of a push
   * is always null, and `timestamp` is the receipt time in ISO-8601.
   */
  datatype EventRecord = EventRecord(
    requestId: Json,
    author: Json,
    action: Action,
    fromBranch: Json,
    toBranch: Json,
    timestamp: string)
}
