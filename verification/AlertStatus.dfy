/** The status of a stored alert. */
module AlertStatus {
  datatype Status = Firing | Acknowledged | Escalated | Resolved | Muted

  /** The statuses that suppress a further alert of the same subject. */
  predicate Active(s: Status) {
    s.Firing? || s.Acknowledged? || s.Escalated?
  }
}
