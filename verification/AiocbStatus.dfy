/** The status of a request as its aiocb shows it. */
module AiocbStatus {

  /** SUCCESS, WAIT_1 (submitted), PENDING (running), CANCELLED, GENERIC_COMMAND_FAILED. */
  datatype QStatus = Success | Wait1 | Pending | Cancelled | Failed

  predicate Terminal(q: QStatus) {
    q.Success? || q.Cancelled? || q.Failed?
  }

  predicate Unfinished(q: QStatus) {
    q.Wait1? || q.Pending?
  }
}
