/** The answer that appointment commands give: the stored appointment together with what the clock makes of it. */
module AppointmentViews {
  import opened Wrappers
  import B = Bookings

  datatype OutcomeState = SCHEDULED | OUTCOME_REQUIRED | STARTED | CANCELLED | COMPLETED | NO_SHOW

  datatype AppointmentView = AppointmentView(
    id: B.Id,
    location: B.Id,
    service: B.Id,
    staff: B.Id,
    customer: B.Id,
    status: B.Status,
    startsAt: int,
    endsAt: int,
    cancelledAt: Option<int>,
    cancellationReason: Option<string>,
    startedAt: Option<int>,
    completedAt: Option<int>,
    noShowAt: Option<int>,
    requiresOutcome: bool,
    outcomeState: OutcomeState)

  predicate Overdue(a: B.Appointment, now: int) {
    B.Live(a.status) && a.endsAt <= now
  }

  function OutcomeStateOf(status: B.Status, requiresOutcome: bool): (r: OutcomeState) {
    if requiresOutcome then OUTCOME_REQUIRED
    else match status
      case IN_PROGRESS => STARTED
      case CANCELLED => CANCELLED
      case COMPLETED => COMPLETED
      case NO_SHOW => NO_SHOW
      case _ => SCHEDULED
  }

  /**
   An outcome is required exactly of an appointment that is over and was neither cancelled, completed nor missed; the closing
   time is shown under the name of what closed it.
   */
  lemma ViewsSayWhatIsDue(a: B.Appointment, now: int)
    ensures var v := ViewOf(a, now);
            && v.id == a.id && v.customer == a.customer && v.staff == a.staff && v.service == a.service && v.location == a.location
            && v.status == a.status && v.startsAt == a.startsAt && v.endsAt == a.endsAt
            && v.startedAt == a.startedAt && v.cancellationReason == a.cancellationReason
            && v.cancelledAt == (if a.status.CANCELLED? then a.closedAt else None)
            && v.completedAt == (if a.status.COMPLETED? then a.closedAt else None)
            && v.noShowAt == (if a.status.NO_SHOW? then a.closedAt else None)
            && (v.requiresOutcome <==> (a.status.PENDING? || a.status.CONFIRMED? || a.status.IN_PROGRESS?) && a.endsAt <= now)
            && (v.outcomeState.OUTCOME_REQUIRED? <==> v.requiresOutcome)
            && (v.outcomeState.SCHEDULED? <==> (a.status.PENDING? || a.status.CONFIRMED?) && now < a.endsAt)
            && (v.outcomeState.STARTED? <==> a.status.IN_PROGRESS? && now < a.endsAt)
            && (v.outcomeState.CANCELLED? <==> a.status.CANCELLED?)
            && (v.outcomeState.COMPLETED? <==> a.status.COMPLETED?)
            && (v.outcomeState.NO_SHOW? <==> a.status.NO_SHOW?)
  {
  }

  function ViewOf(a: B.Appointment, now: int): (r: AppointmentView) {
    AppointmentView(a.id, a.location, a.service, a.staff, a.customer, a.status, a.startsAt, a.endsAt,
                    if a.status.CANCELLED? then a.closedAt else None, a.cancellationReason, a.startedAt,
                    if a.status.COMPLETED? then a.closedAt else None, if a.status.NO_SHOW? then a.closedAt else None,
                    Overdue(a, now), OutcomeStateOf(a.status, Overdue(a, now)))
  }
}
