/** The states of a job. */
module Jobs {
  datatype Status = Queued | Running | Done | Failed | DeadLetter | Waiting {
    predicate Active() { Queued? || Running? }

    predicate Terminal() { Done? || Failed? || DeadLetter? }
  }
}
