/** The booking services: each works on its transaction's session step by step, as specified in `Bookings` and `System`. */
module BookingServices {
  import opened Wrappers
  import opened Errors
  import opened Bookings
  import opened Sessions
  import AffiliateServices
  import Availability
  import System
  import Text

  // ----- interval locks -----

  /** The start of every minute of an ordered, minute-aligned interval, in order. */
  method MinuteStarts(startsAt: int, endsAt: int) returns (r: Result<seq<int>, Error>)
    ensures r.Success? <==> MinuteAligned(startsAt, endsAt)
    ensures r.Failure? ==> r.error == INTERVAL_NOT_MINUTE_ALIGNED
    ensures r.Success? ==>
              && |r.value| * MINUTE == endsAt - startsAt
              && (forall i :: 0 <= i < |r.value| ==> r.value[i] == startsAt + i * MINUTE)
              && (forall m :: m in r.value <==> InMinutes(m, startsAt, endsAt))
  {
    if startsAt >= endsAt || startsAt % MINUTE != 0 || endsAt % MINUTE != 0 {
      return Failure(INTERVAL_NOT_MINUTE_ALIGNED);
    }
    var result: seq<int> := [];
    var cursor := startsAt;
    while cursor < endsAt
      invariant startsAt <= cursor <= endsAt && cursor == startsAt + |result| * MINUTE
      invariant forall i :: 0 <= i < |result| ==> result[i] == startsAt + i * MINUTE
      invariant forall m :: m in result <==> InMinutes(m, startsAt, cursor)
    {
      NextMinute(startsAt, cursor);
      result := result + [cursor];
      cursor := cursor + MINUTE;
    }
    return Success(result);
  }

  lemma NextMinute(startsAt: int, cursor: int)
    requires startsAt <= cursor && cursor % MINUTE == 0
    ensures forall m :: InMinutes(m, startsAt, cursor + MINUTE) <==> InMinutes(m, startsAt, cursor) || m == cursor
    ensures (cursor + MINUTE) % MINUTE == 0
  {
    var next := cursor + MINUTE;
    forall m ensures InMinutes(m, startsAt, next) <==> InMinutes(m, startsAt, cursor) || m == cursor {
      assert cursor <= m < next && m % MINUTE == 0 ==> m / MINUTE == cursor / MINUTE;
    }
  }

  /** The lock is for a minute of the staff member within the interval. */
  predicate MinuteOf(k: LockKey, tenant: Id, staff: Id, startsAt: int, endsAt: int) {
    k.tenant == tenant && k.staff == staff && startsAt <= k.minute < endsAt && k.minute % 60_000 == 0
  }

  method AcquireLocks(s: Session, tenant: Id, staff: Id, appointment: Id, startsAt: int, endsAt: int) returns (refused: Option<Error>)
    modifies s`locks
    ensures match Acquire(old(s.locks), tenant, staff, appointment, startsAt, endsAt)
            case Success(locks) => refused.None? && s.locks == locks
            case Failure(e) => refused == Some(e)
    ensures refused == if startsAt >= endsAt || startsAt % 60_000 != 0 || endsAt % 60_000 != 0 then Some(INTERVAL_NOT_MINUTE_ALIGNED)
                       else if exists k :: k in old(s.locks) && MinuteOf(k, tenant, staff, startsAt, endsAt) then Some(APPOINTMENT_SLOT_CONFLICT)
                       else None
    ensures refused.None? ==> forall k ::
              && (k in s.locks <==> k in old(s.locks) || MinuteOf(k, tenant, staff, startsAt, endsAt))
              && (k in s.locks ==> s.locks[k] == if MinuteOf(k, tenant, staff, startsAt, endsAt) then appointment else old(s.locks)[k])
  {
    assert forall k :: k in LockKeys(tenant, staff, startsAt, endsAt) <==> MinuteOf(k, tenant, staff, startsAt, endsAt);
    var minutes := MinuteStarts(startsAt, endsAt);
    if minutes.Failure? {
      return Some(minutes.error);
    }
    for i := 0 to |minutes.value|
      invariant forall k :: k in old(s.locks) ==> k in s.locks && s.locks[k] == old(s.locks)[k]
      invariant forall k :: k in s.locks && k !in old(s.locks) ==>
                  k.tenant == tenant && k.staff == staff && k.minute in minutes.value[..i] && s.locks[k] == appointment
      invariant forall j :: 0 <= j < i ==>
                  LockKey(tenant, staff, minutes.value[j]) in s.locks && LockKey(tenant, staff, minutes.value[j]) !in old(s.locks)
    {
      var key := LockKey(tenant, staff, minutes.value[i]);
      if key in s.locks {
        assert key in old(s.locks) by {
          DistinctMinutes(minutes.value, startsAt, i);
        }
        assert key in LockKeys(tenant, staff, startsAt, endsAt);
        return Some(APPOINTMENT_SLOT_CONFLICT);
      }
      s.locks := s.locks[key := appointment];
    }
    AllMinutesLocked(old(s.locks), s.locks, minutes.value, tenant, staff, appointment, startsAt, endsAt);
    return None;
  }

  lemma DistinctMinutes(minutes: seq<int>, startsAt: int, i: nat)
    requires i < |minutes| && forall j :: 0 <= j < |minutes| ==> minutes[j] == startsAt + j * MINUTE
    ensures minutes[i] !in minutes[..i]
  {
  }

  lemma AllMinutesLocked(was: map<LockKey, Id>, now: map<LockKey, Id>, minutes: seq<int>, tenant: Id, staff: Id, appointment: Id,
                         startsAt: int, endsAt: int)
    requires forall m :: m in minutes <==> InMinutes(m, startsAt, endsAt)
    requires forall k :: k in was ==> k in now && now[k] == was[k]
    requires forall k :: k in now && k !in was ==>
               k.tenant == tenant && k.staff == staff && k.minute in minutes && now[k] == appointment
    requires forall j :: 0 <= j < |minutes| ==> LockKey(tenant, staff, minutes[j]) in now && LockKey(tenant, staff, minutes[j]) !in was
    ensures LockKeys(tenant, staff, startsAt, endsAt) !! was.Keys
    ensures now == WithLocks(was, LockKeys(tenant, staff, startsAt, endsAt), appointment)
  {
    var keys := LockKeys(tenant, staff, startsAt, endsAt);
    forall k | k in keys ensures k in now && k !in was && now[k] == appointment {
      var j :| 0 <= j < |minutes| && minutes[j] == k.minute;
      assert k == LockKey(tenant, staff, minutes[j]);
    }
  }

  method ReleaseLocks(s: Session, tenant: Id, appointment: Id)
    modifies s`locks
    ensures s.locks == Release(old(s.locks), tenant, appointment)
    ensures forall k :: k in s.locks && k.tenant == tenant ==> s.locks[k] != appointment
    ensures forall k :: k in old(s.locks) && !(k.tenant == tenant && old(s.locks)[k] == appointment) ==>
              k in s.locks && s.locks[k] == old(s.locks)[k]
    ensures s.locks.Keys <= old(s.locks.Keys)
  {
    s.locks := map k | k in s.locks && !(k.tenant == tenant && s.locks[k] == appointment) :: s.locks[k];
  }

  method ReplaceLocks(s: Session, tenant: Id, staff: Id, appointment: Id, startsAt: int, endsAt: int) returns (refused: Option<Error>)
    modifies s`locks
    ensures match Acquire(Release(old(s.locks), tenant, appointment), tenant, staff, appointment, startsAt, endsAt)
            case Success(locks) => refused.None? && s.locks == locks
            case Failure(e) => refused == Some(e)
  {
    ReleaseLocks(s, tenant, appointment);
    refused := AcquireLocks(s, tenant, staff, appointment, startsAt, endsAt);
  }

  // ----- effects -----

  method RecordEvent(s: Session, e: TimelineEvent) returns (refused: Option<Error>)
    modifies s`timeline
    ensures refused.None? <==> EventInsertable(old(s.timeline), e)
    ensures s.timeline == if refused.None? then old(s.timeline) + [e] else old(s.timeline)
    ensures refused.Some? ==> refused.value == DUPLICATE_KEY
  {
    if !EventInsertable(s.timeline, e) {
      return Some(DUPLICATE_KEY);
    }
    s.timeline := s.timeline + [e];
    return None;
  }

  method RecordLifecycle(s: Session, updated: Appointment, event: EventType, at: int, reason: Option<string>, previous: Option<Previous>)
    returns (refused: Option<Error>)
    requires event.Cancelled? || event.Rescheduled?
    modifies s`timeline
    ensures var key := if event.Cancelled? then CancelledKey(at) else RescheduledKey(updated.startsAt);
            var e := ChangeEvent(updated, event, key, reason, previous);
            && (refused.None? <==> EventInsertable(old(s.timeline), e))
            && (refused.None? ==> s.timeline == old(s.timeline) + [e])
            && (refused.Some? ==> refused.value == DUPLICATE_KEY)
  {
    var key := if event.Cancelled? then CancelledKey(at) else RescheduledKey(updated.startsAt);
    var from := if previous.Some? then previous.value.status else updated.status;
    var note := if reason.Some? && reason.value != "" then reason else None;
    var digest := ChangeDigest(event, reason, updated.startsAt, updated.endsAt, previous);
    refused := RecordEvent(s, TimelineEvent(updated.tenant, updated.id, event, Some(from), updated.status, note,
                                            updated.startsAt, updated.endsAt, previous, key, digest));
  }

  // ----- creating -----

  method CreateIn(cat: Catalog, s: Session, c: CreateRequest, collate: string -> int) returns (r: Result<Appointment, Error>)
    requires BookingKeysUnique(s.appointments)
    modifies s`appointments, s`locks, s`timeline, s`conversions
    ensures match Create(cat, old(s.Bookings()), c)
            case Success(reply) => r == Success(reply.appointment) && s.Bookings() == reply.bookings
            case Failure(e) => r == Failure(e)
  {
    if SomeWithKey(s.Bookings(), c.tenant, c.key) {
      var id :| id in s.appointments && HasKey(s.Bookings(), c.tenant, c.key, id);
      assert id == ByKey(s.Bookings(), c.tenant, c.key) by {
        assert HasKey(s.Bookings(), c.tenant, c.key, ByKey(s.Bookings(), c.tenant, c.key));
      }
      if s.appointments[id].fingerprint != c.fingerprint {
        return Failure(IDEMPOTENCY_KEY_CONFLICT);
      }
      return Success(s.appointments[id]);
    }
    if !c.relationsFound || (c.tenant, c.staff) !in cat.home || cat.home[(c.tenant, c.staff)] != c.location {
      return Failure(APPOINTMENT_RELATION_NOT_FOUND);
    }
    var attribution := Attribute(c);
    if attribution.Failure? {
      return Failure(attribution.error);
    }
    var unavailable := Availability.AssertSlotAvailable(SlotInput(s.Bookings(), c.agenda, c.tenant, c.location, c.staff, None),
                                                        collate, c.startsAt, c.now);
    if unavailable.Some? {
      return Failure(unavailable.value);
    }
    var a := NewAppointment(c);
    if a.id in s.appointments {
      return Failure(DUPLICATE_KEY);
    }
    s.appointments := s.appointments[a.id := a];
    if exists cv :: cv in attribution.value && !ConversionInsertable(s.conversions, cv) {
      return Failure(DUPLICATE_KEY);
    }
    s.conversions := s.conversions + attribution.value;
    var refused := AcquireLocks(s, c.tenant, c.staff, a.id, a.startsAt, a.endsAt);
    if refused.Some? {
      return Failure(refused.value);
    }
    refused := RecordEvent(s, CreatedEvent(a));
    if refused.Some? {
      return Failure(refused.value);
    }
    return Success(a);
  }

  // ----- management -----

  method CancelIn(s: Session, c: CancelRequest) returns (r: Result<Appointment, Error>)
    modifies s`appointments, s`locks, s`timeline
    requires forall id :: id in s.appointments ==> s.appointments[id].id == id
    ensures match Cancel(old(s.Bookings()), c)
            case Success(reply) => r == Success(reply.appointment) && s.Bookings() == reply.bookings
            case Failure(e) => r == Failure(e)
  {
    if !Loads(s.Bookings(), c.access) {
      return Failure(APPOINTMENT_NOT_FOUND);
    }
    var a := s.appointments[c.access.appointment];
    var reason := Text.Trim(c.reason);
    if a.status.CANCELLED? && a.cancellationReason == Some(reason) {
      return Success(a);
    }
    if !Active(a.status) {
      return Failure(APPOINTMENT_NOT_ACTIVE);
    }
    r := CancelLoaded(s, a, reason, Some(Previous(a.status, a.startsAt, a.endsAt)), c.now);
  }

  method CancelLoaded(s: Session, a: Appointment, reason: string, previous: Option<Previous>, now: int)
    returns (r: Result<Appointment, Error>)
    modifies s`appointments, s`locks, s`timeline
    ensures match CancelWith(old(s.Bookings()), a, reason, previous, now)
            case Success(reply) => r == Success(reply.appointment) && s.Bookings() == reply.bookings
            case Failure(e) => r == Failure(e)
  {
    var updated := a.(status := CANCELLED, closedAt := Some(now), cancellationReason := Some(reason), writes := a.writes + 1);
    s.appointments := s.appointments[a.id := updated];
    ReleaseLocks(s, a.tenant, a.id);
    var refused := RecordLifecycle(s, updated, Cancelled, now, Some(reason), previous);
    if refused.Some? {
      return Failure(refused.value);
    }
    return Success(updated);
  }

  method RescheduleIn(s: Session, c: RescheduleRequest, collate: string -> int) returns (r: Result<Appointment, Error>)
    modifies s`appointments, s`locks, s`timeline
    requires forall id :: id in s.appointments ==> s.appointments[id].id == id
    ensures match Reschedule(old(s.Bookings()), c)
            case Success(reply) => r == Success(reply.appointment) && s.Bookings() == reply.bookings
            case Failure(e) => r == Failure(e)
  {
    if !Loads(s.Bookings(), c.access) {
      return Failure(APPOINTMENT_NOT_FOUND);
    }
    var a := s.appointments[c.access.appointment];
    if !Active(a.status) {
      return Failure(APPOINTMENT_NOT_ACTIVE);
    }
    if a.startsAt == c.startsAt {
      return Success(a);
    }
    if !c.relationsFound {
      return Failure(APPOINTMENT_NOT_FOUND);
    }
    var unavailable := Availability.AssertSlotAvailable(
      SlotInput(s.Bookings(), c.agenda, a.tenant, a.location, a.staff, Some(a.id)), collate, c.startsAt, c.now);
    if unavailable.Some? {
      return Failure(unavailable.value);
    }
    r := MoveLoaded(s, a, c.startsAt, EndOf(c.agenda, c.startsAt), Trimmed(c.reason), Some(Previous(a.status, a.startsAt, a.endsAt)));
  }

  method MoveLoaded(s: Session, a: Appointment, startsAt: int, endsAt: int, reason: Option<string>, previous: Option<Previous>)
    returns (r: Result<Appointment, Error>)
    modifies s`appointments, s`locks, s`timeline
    ensures match RescheduleWith(old(s.Bookings()), a, startsAt, endsAt, reason, previous)
            case Success(reply) => r == Success(reply.appointment) && s.Bookings() == reply.bookings
            case Failure(e) => r == Failure(e)
  {
    var refused := ReplaceLocks(s, a.tenant, a.staff, a.id, startsAt, endsAt);
    if refused.Some? {
      return Failure(refused.value);
    }
    var updated := a.(startsAt := startsAt, endsAt := endsAt, writes := a.writes + 1);
    s.appointments := s.appointments[a.id := updated];
    refused := RecordLifecycle(s, updated, Rescheduled, 0, reason, previous);
    if refused.Some? {
      return Failure(refused.value);
    }
    return Success(updated);
  }

  // ----- the conversation channel -----

  method CreateFromChannelIn(cat: Catalog, s: Session, c: ChannelCreate, collate: string -> int) returns (r: Result<Appointment, Error>)
    requires BookingKeysUnique(s.appointments)
    modifies s`appointments, s`locks, s`timeline, s`conversions
    ensures match CreateFromChannel(cat, old(s.Bookings()), c)
            case Success(reply) => r == Success(reply.appointment) && s.Bookings() == reply.bookings
            case Failure(e) => r == Failure(e)
  {
    r := CreateIn(cat, s, c.AsRequest(), collate);
  }

  method CancelFromChannelIn(s: Session, c: ChannelCommand) returns (r: Result<Appointment, Error>)
    modifies s`appointments, s`locks, s`timeline
    ensures match CancelFromChannel(old(s.Bookings()), c)
            case Success(reply) => r == Success(reply.appointment) && s.Bookings() == reply.bookings
            case Failure(e) => r == Failure(e)
  {
    if !Owned(s.Bookings(), c) {
      return Failure(APPOINTMENT_NOT_FOUND);
    }
    r := CancelLoaded(s, s.appointments[c.appointment], CHANNEL_REASON, None, c.now);
  }

  method RescheduleFromChannelIn(s: Session, c: ChannelReschedule, collate: string -> int) returns (r: Result<Appointment, Error>)
    modifies s`appointments, s`locks, s`timeline
    ensures match RescheduleFromChannel(old(s.Bookings()), c)
            case Success(reply) => r == Success(reply.appointment) && s.Bookings() == reply.bookings
            case Failure(e) => r == Failure(e)
  {
    if !Owned(s.Bookings(), c.command) {
      return Failure(APPOINTMENT_NOT_FOUND);
    }
    var a := s.appointments[c.command.appointment];
    if !c.relationsFound {
      return Failure(APPOINTMENT_RELATION_NOT_FOUND);
    }
    if c.location != a.location {
      return Failure(APPOINTMENT_NOT_FOUND);
    }
    var unavailable := Availability.AssertSlotAvailable(
      SlotInput(s.Bookings(), c.agenda, a.tenant, a.location, a.staff, Some(a.id)), collate, c.startsAt, c.command.now);
    if unavailable.Some? {
      return Failure(unavailable.value);
    }
    r := MoveLoaded(s, a, c.startsAt, EndOf(c.agenda, c.startsAt), None, None);
  }

  // ----- outcomes -----

  /** The booking half of an outcome: the guarded patch, the released locks and the event. */
  method TransitionIn(s: Session, c: OutcomeRequest) returns (r: Result<Appointment, Error>)
    modifies s`appointments, s`locks, s`timeline
    ensures match ApplyOutcome(old(s.Bookings()), c)
            case Success(reply) => r == Success(reply.appointment) && s.Bookings() == reply.bookings
            case Failure(e) => r == Failure(e)
  {
    if c.outcome.Missed? && c.outcome.reason.OTHER? && NormalizedNote(c.outcome.note).None? {
      return Failure(APPOINTMENT_NO_SHOW_NOTE_REQUIRED);
    }
    var replay := ByTimelineKey(s.timeline, c);
    if replay.Some? {
      var event := s.timeline[replay.value];
      if event.eventType != OutcomeEvent(c.outcome) || event.fingerprint != OutcomeDigest(c.outcome) {
        return Failure(IDEMPOTENCY_KEY_CONFLICT);
      }
      if !Loads(s.Bookings(), Access(c.tenant, c.appointment, None)) {
        return Failure(APPOINTMENT_NOT_FOUND);
      }
      return Success(s.appointments[c.appointment]);
    }
    if !Loads(s.Bookings(), Access(c.tenant, c.appointment, None)) {
      return Failure(APPOINTMENT_NOT_FOUND);
    }
    var a := s.appointments[c.appointment];
    var patch := Patch(a, c.outcome, c.now);
    if patch.Failure? {
      return Failure(patch.error);
    }
    s.appointments := s.appointments[c.appointment := patch.value];
    if !c.outcome.Start? {
      ReleaseLocks(s, c.tenant, c.appointment);
    }
    var refused := RecordEvent(s, StatusEvent(a.status, patch.value, OutcomeEvent(c.outcome), c.key, OutcomeDigest(c.outcome),
                                              OutcomeNote(c.outcome)));
    if refused.Some? {
      return Failure(refused.value);
    }
    return Success(patch.value);
  }

  /** Starting, completing or missing an appointment; completing it earns the referral's commission in the same transaction. */
  method ApplyOutcomeIn(s: Session, c: OutcomeRequest, newEntryId: Id) returns (r: Result<Appointment, Error>)
    modifies s`appointments, s`locks, s`timeline, s`ledger, s`balanceLocks, s`capacityLocks
    ensures match System.ApplyOutcome(old(s.View()), c, newEntryId)
            case Success(db) => r.Success? && s.View() == db && ApplyOutcome(old(s.Bookings()), c).Success? &&
                                r.value == ApplyOutcome(old(s.Bookings()), c).value.appointment
            case Failure(e) => r == Failure(e)
  {
    hide ApplyOutcome, System.Earn;
    var replayed := ByTimelineKey(s.timeline, c).Some?;
    r := TransitionIn(s, c);
    if r.Success? && c.outcome.Complete? && !replayed {
      var refused := AffiliateServices.EarnCompletedCommission(s, c.tenant, c.appointment, newEntryId);
      if refused.Some? {
        return Failure(refused.value);
      }
    }
  }
}
