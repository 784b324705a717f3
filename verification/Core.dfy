/** The statuses of a run and the events that record them. */
module Core {
  import opened Wrappers

  datatype RunStatus = Queued | Running | AwaitingApproval | Paused | Canceling | Canceled | Succeeded | Failed | TimedOut

  predicate Terminal(s: RunStatus) {
    s.Canceled? || s.Succeeded? || s.Failed? || s.TimedOut?
  }

  /** A run_state_changed event may carry no status that can be read. */
  datatype Payload = RunStateChanged(status: Option<RunStatus>) | OtherPayload(kind: string)

  /** An event of a run, of a session, or of both; the id of the one it is not of is "". */
  datatype Event = Event(tenant: string, run: string, session: string, sequence: int, sessionSequence: int, payload: Payload)

  predicate EndsRun(ev: Event) {
    ev.payload.RunStateChanged? && ev.payload.status.Some? && Terminal(ev.payload.status.value)
  }
}
