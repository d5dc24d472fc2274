/** The states of a dispute and the transitions between them. */
module DisputeStates {
  datatype Status = OPEN | UNDER_REVIEW | WON | LOST | REFUNDED

  predicate Allowed(current: Status, next: Status) {
    match current
    case OPEN => next.UNDER_REVIEW?
    case UNDER_REVIEW => next.WON? || next.LOST? || next.REFUNDED?
    case _ => false
  }

  predicate Terminal(s: Status) {
    s.WON? || s.LOST? || s.REFUNDED?
  }
}
