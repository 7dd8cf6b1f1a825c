/** File statuses and their legal transitions (qc/batch/models.py). */
module Files {

  datatype Status = Pending | Running | Interrupted | Done | HumanReview | FailedFinal

  predicate Terminal(s: Status) {
    s.Done? || s.HumanReview? || s.FailedFinal?
  }

  /** `VALID_FILE_TRANSITIONS`. */
  function Successors(s: Status): set<Status> {
    match s
    case Pending => {Running}
    case Interrupted => {Running}
    case Running => {Done, HumanReview, FailedFinal, Interrupted}
    case _ => {}
  }
}
