/**
 What a client can rely on when a booking command meets a state that runs can reach: exactly when it is carried out,
 with which error it is refused otherwise, and exactly what it leaves behind. Nothing here refers to how the commands
 are computed; the requirements are stated on the stored appointments, locks, events and conversions.
 */
module BookingAnswers {
  import opened Wrappers
  import opened Errors
  import opened System
  import opened Runs
  import opened Histories
  import B = Bookings
  import BS = BookingSafety
  import M = Money
  import MS = MoneySafety
  import Availability
  import Economics
  import Guarantees
  import Text

  lemma ReachableIsSound(cat: B.Catalog, db: Db)
    requires Reachable(cat, db)
    ensures Sound(cat, db)
  {
    hide *;
    ReachableIffSerial(cat, db);
    var commands :| Serially(cat, commands) == Success(db);
    SerialIsReachable(cat, commands, db);
  }

  predicate Waiting(a: B.Appointment) { a.status.PENDING? || a.status.CONFIRMED? }

  // ----- what a write leaves -----

  /**
   The appointment is stored and its event recorded; it holds exactly its minutes if it is still to take place, and
   none otherwise; nobody else's appointment or lock is touched.
   */
  ghost predicate Wrote(b: B.Bookings, b': B.Bookings, u: B.Appointment, e: B.TimelineEvent, conversions: seq<B.Conversion>) {
    && b'.appointments == b.appointments[u.id := u]
    && b'.timeline == b.timeline + [e]
    && b'.conversions == b.conversions + conversions
    && (forall k :: k in b'.locks <==> HoldsMinute(u, k) || (k in b.locks && b.locks[k] != u.id))
    && (forall k :: k in b'.locks ==> b'.locks[k] == if HoldsMinute(u, k) then u.id else b.locks[k])
  }

  predicate HoldsMinute(a: B.Appointment, k: B.LockKey) {
    && (a.status.PENDING? || a.status.CONFIRMED? || a.status.IN_PROGRESS?)
    && k.tenant == a.tenant && k.staff == a.staff && a.startsAt <= k.minute < a.endsAt && k.minute % 60_000 == 0
  }

  lemma PutWrites(cat: B.Catalog, b: B.Bookings, u: B.Appointment, e: B.TimelineEvent, conversions: seq<B.Conversion>)
    requires BS.Sound(cat, b) && BS.Puttable(cat, b, u, e, conversions)
    ensures Wrote(b, BS.Put(b, u, e, conversions), u, e, conversions)
  {
    BS.PutLocks(b, u, e, conversions);
    hide BS.LocksAfter;
    assert forall k :: k in BS.MinutesOf(u) <==> HoldsMinute(u, k);
  }

  // ----- a requested start -----

  /** The staff member would offer the start if nothing at all were booked. */
  ghost predicate AtWork(g: B.Agenda, staff: Id, startsAt: int) {
    var e := Availability.Eligible(staff, g.staffName, g.durationMinutes);
    Availability.Offers(Availability.Input(g.day, [e], g.schedules, g.exceptions, {}), e, startsAt)
  }

  /** An appointment other than the excluded one that is still to take place meets the interval. */
  ghost predicate Taken(b: B.Bookings, tenant: Id, staff: Id, startsAt: int, endsAt: int, exclude: Option<Id>) {
    exists id :: id in b.appointments && exclude != Some(id) && Meets(b.appointments[id], tenant, staff, startsAt, endsAt)
  }

  predicate Meets(a: B.Appointment, tenant: Id, staff: Id, startsAt: int, endsAt: int) {
    && a.tenant == tenant && a.staff == staff && (a.status.PENDING? || a.status.CONFIRMED? || a.status.IN_PROGRESS?)
    && a.startsAt < endsAt && startsAt < a.endsAt
  }

  /** Why a requested start is refused. */
  ghost function StartRefused(b: B.Bookings, g: B.Agenda, tenant: Id, staff: Id, startsAt: int, now: int, exclude: Option<Id>)
    : (r: Option<Error>)
  {
    if startsAt <= now then Some(APPOINTMENT_STARTS_AT_PAST)
    else if !AtWork(g, staff, startsAt) then Some(APPOINTMENT_SLOT_UNAVAILABLE)
    else if Taken(b, tenant, staff, startsAt, startsAt + g.durationMinutes * 60_000, exclude) then Some(APPOINTMENT_SLOT_CONFLICT)
    else None
  }

  lemma VerdictIs(cat: B.Catalog, b: B.Bookings, g: B.Agenda, tenant: Id, location: Id, staff: Id, exclude: Option<Id>,
                  startsAt: int, now: int)
    requires BS.Sound(cat, b) && (tenant, staff) in cat.home && cat.home[(tenant, staff)] == location
    ensures Availability.Verdict(B.SlotInput(b, g, tenant, location, staff, exclude), startsAt, now) ==
            StartRefused(b, g, tenant, staff, startsAt, now, exclude)
  {
    var input := B.SlotInput(b, g, tenant, location, staff, exclude);
    var e := Availability.Eligible(staff, g.staffName, g.durationMinutes);
    var endsAt := startsAt + g.durationMinutes * 60_000;
    BS.BusyTimesAreComplete(cat, b, tenant, location, staff, startsAt, endsAt, exclude);
    TakenIsOccupied(b, tenant, staff, startsAt, endsAt, exclude);
    Availability.AppointmentsOnlyRemove(input, e, startsAt);
    hide Availability.Offers, Availability.Occupied, BS.Unoccupied, B.BusyTimes, Taken;
    assert Availability.WithoutAppointments(input) == Availability.Input(g.day, [e], g.schedules, g.exceptions, {});
    assert e in input.eligible && e in Availability.WithoutAppointments(input).eligible;
  }

  lemma TakenIsOccupied(b: B.Bookings, tenant: Id, staff: Id, startsAt: int, endsAt: int, exclude: Option<Id>)
    ensures Taken(b, tenant, staff, startsAt, endsAt, exclude) <==> !BS.Unoccupied(b, tenant, staff, startsAt, endsAt, exclude)
  {
    assert forall a: B.Appointment :: Meets(a, tenant, staff, startsAt, endsAt) <==>
        a.tenant == tenant && a.staff == staff && B.Live(a.status) && Availability.Overlaps(startsAt, endsAt, a.startsAt, a.endsAt);
  }

  // ----- cancelling -----

  ghost predicate Found(b: B.Bookings, x: B.Access) {
    && x.appointment in b.appointments && b.appointments[x.appointment].tenant == x.tenant
    && (x.customer.None? || x.customer == Some(b.appointments[x.appointment].customer))
  }

  /** Some event of the appointment has this key. */
  ghost predicate KeyTaken(b: B.Bookings, a: B.Appointment, key: B.TimelineKey) {
    exists e :: e in b.timeline && e.tenant == a.tenant && e.appointment == a.id && e.key == key
  }

  /** The appointment is cancelled for this reason at this time, has its event, and holds no minute any more. */
  ghost predicate IsCancelled(b: B.Bookings, b': B.Bookings, a: B.Appointment, reason: string, previous: Option<B.Previous>,
                              from: B.Status, now: int)
  {
    && Wrote(b, b', a.(status := B.CANCELLED, closedAt := Some(now), cancellationReason := Some(reason), writes := a.writes + 1),
             B.TimelineEvent(a.tenant, a.id, B.Cancelled, Some(from), B.CANCELLED, if reason == "" then None else Some(reason),
                             a.startsAt, a.endsAt, previous, B.CancelledKey(now),
                             B.ChangeDigest(B.Cancelled, Some(reason), a.startsAt, a.endsAt, previous)), [])
    && forall k :: k in b'.locks ==> b'.locks[k] != a.id
  }

  lemma CancelledInFull(cat: B.Catalog, b: B.Bookings, a: B.Appointment, reason: string, previous: Option<B.Previous>, now: int)
    requires BS.Sound(cat, b) && a.id in b.appointments && b.appointments[a.id] == a && Waiting(a)
    ensures var r := B.CancelWith(b, a, reason, previous, now);
            if KeyTaken(b, a, B.CancelledKey(now)) then r == Failure(DUPLICATE_KEY)
            else r.Success? && IsCancelled(b, r.value.bookings, a, reason, previous,
                                           if previous.Some? then previous.value.status else B.CANCELLED, now)
  {
    BS.CancelIsPut(cat, b, a, reason, previous, now);
    var u, e := B.CancelledAs(a, reason, now), B.CancelEvent(a, reason, previous, now);
    assert B.EventInsertable(b.timeline, e) <==> !KeyTaken(b, a, B.CancelledKey(now)) by {
      assert forall x :: !B.EventsCoexist(x, e) <==> x.tenant == a.tenant && x.appointment == a.id && x.key == B.CancelledKey(now);
    }
    if B.EventInsertable(b.timeline, e) {
      PutWrites(cat, b, u, e, []);
    }
    hide BS.Sound, BS.Puttable, BS.Put, B.EventInsertable, KeyTaken;
  }

  /**
   A cancellation that finds its appointment is carried out exactly if the appointment is still waiting and no event was
   recorded under the cancellation time; asked again with the same reason it changes nothing.
   */
  lemma CancellationAnswers(cat: B.Catalog, db: Db, c: B.CancelRequest)
    requires Reachable(cat, db)
    ensures var b, r := db.bookings, Execute(cat, db, CancelAppointment(c));
            if !Found(b, c.access) then r == Failure(APPOINTMENT_NOT_FOUND)
            else
              var a := b.appointments[c.access.appointment];
              if a.status.CANCELLED? && a.cancellationReason == Some(Text.Trim(c.reason)) then r == Success(db)
              else if !a.status.PENDING? && !a.status.CONFIRMED? then r == Failure(APPOINTMENT_NOT_ACTIVE)
              else if KeyTaken(b, a, B.CancelledKey(c.now)) then r == Failure(DUPLICATE_KEY)
              else r.Success? && r.value.money == db.money &&
                   IsCancelled(b, r.value.bookings, a, Text.Trim(c.reason), Some(B.Previous(a.status, a.startsAt, a.endsAt)), a.status, c.now)
  {
    ReachableIsSound(cat, db);
    var b := db.bookings;
    if Found(b, c.access) && Waiting(b.appointments[c.access.appointment]) {
      var a := b.appointments[c.access.appointment];
      CancelledInFull(cat, b, a, Text.Trim(c.reason), Some(B.Previous(a.status, a.startsAt, a.endsAt)), c.now);
    }
    hide Sound, B.CancelWith, IsCancelled, KeyTaken;
  }

  ghost predicate OwnWaiting(b: B.Bookings, c: B.ChannelCommand) {
    && c.appointment in b.appointments && b.appointments[c.appointment].tenant == c.tenant
    && b.appointments[c.appointment].customer == c.customer && Waiting(b.appointments[c.appointment])
  }

  /** From the conversation channel only the customer's own waiting appointment is found; its event records no previous state. */
  lemma ChannelCancellationAnswers(cat: B.Catalog, db: Db, c: B.ChannelCommand)
    requires Reachable(cat, db)
    ensures var b, r := db.bookings, Execute(cat, db, CancelInChannel(c));
            if !OwnWaiting(b, c) then r == Failure(APPOINTMENT_NOT_FOUND)
            else
              var a := b.appointments[c.appointment];
              if KeyTaken(b, a, B.CancelledKey(c.now)) then r == Failure(DUPLICATE_KEY)
              else r.Success? && r.value.money == db.money &&
                   IsCancelled(b, r.value.bookings, a, "Customer channel request", None, B.CANCELLED, c.now)
  {
    ReachableIsSound(cat, db);
    if OwnWaiting(db.bookings, c) {
      CancelledInFull(cat, db.bookings, db.bookings.appointments[c.appointment], "Customer channel request", None, c.now);
    }
    hide Sound, B.CancelWith, IsCancelled, KeyTaken;
  }

  // ----- moving -----

  ghost predicate IsMoved(b: B.Bookings, b': B.Bookings, a: B.Appointment, startsAt: int, endsAt: int, reason: Option<string>,
                          previous: Option<B.Previous>)
  {
    Wrote(b, b', a.(startsAt := startsAt, endsAt := endsAt, writes := a.writes + 1),
          B.TimelineEvent(a.tenant, a.id, B.Rescheduled, Some(a.status), a.status, if reason == Some("") then None else reason,
                          startsAt, endsAt, previous, B.RescheduledKey(startsAt),
                          B.ChangeDigest(B.Rescheduled, reason, startsAt, endsAt, previous)), [])
  }

  predicate OnMinutes(startsAt: int, endsAt: int) {
    startsAt < endsAt && startsAt % 60_000 == 0 && endsAt % 60_000 == 0
  }

  /** Once the start is accepted, only its minutes and the key of its event are left to refuse the move: never a lock. */
  ghost predicate MoveAnswered(b: B.Bookings, a: B.Appointment, g: B.Agenda, startsAt: int, reason: Option<string>,
                               previous: Option<B.Previous>, db: Db, r: Result<Db, Error>)
  {
    var endsAt := startsAt + g.durationMinutes * 60_000;
    if !OnMinutes(startsAt, endsAt) then r == Failure(INTERVAL_NOT_MINUTE_ALIGNED)
    else if KeyTaken(b, a, B.RescheduledKey(startsAt)) then r == Failure(DUPLICATE_KEY)
    else r.Success? && r.value.money == db.money && IsMoved(b, r.value.bookings, a, startsAt, endsAt, reason, previous)
  }

  lemma MovedInFull(cat: B.Catalog, db: Db, a: B.Appointment, g: B.Agenda, startsAt: int, now: int, reason: Option<string>,
                    previous: Option<B.Previous>)
    requires BS.Sound(cat, db.bookings) && a.id in db.bookings.appointments && db.bookings.appointments[a.id] == a && Waiting(a)
    requires StartRefused(db.bookings, g, a.tenant, a.staff, startsAt, now, Some(a.id)).None?
    requires previous.Some? ==> previous.value.status == a.status
    ensures MoveAnswered(db.bookings, a, g, startsAt, reason, previous, db,
                         Booked(db, B.RescheduleWith(db.bookings, a, startsAt, B.EndOf(g, startsAt), reason, previous)))
  {
    hide BS.Sound, BS.Puttable, BS.Put, B.EventInsertable, KeyTaken, BS.MinutesFree, StartRefused, B.Release, B.LockKeys, Wrote;
    var b, endsAt := db.bookings, B.EndOf(g, startsAt);
    BS.RescheduleIsPut(cat, b, a, startsAt, endsAt, reason, previous);
    MoveKeyDecides(b, a, startsAt, endsAt, reason, previous);
    if OnMinutes(startsAt, endsAt) {
      AcceptedMinutesAreFree(cat, b, a, g, startsAt, now);
    }
    if B.RescheduleWith(b, a, startsAt, endsAt, reason, previous).Success? {
      PutWrites(cat, b, B.MovedTo(a, startsAt, endsAt), B.MoveEvent(a, startsAt, endsAt, reason, previous), []);
    }
  }

  lemma MoveKeyDecides(b: B.Bookings, a: B.Appointment, startsAt: int, endsAt: int, reason: Option<string>, previous: Option<B.Previous>)
    ensures B.EventInsertable(b.timeline, B.MoveEvent(a, startsAt, endsAt, reason, previous)) <==> !KeyTaken(b, a, B.RescheduledKey(startsAt))
  {
    var e := B.MoveEvent(a, startsAt, endsAt, reason, previous);
    assert forall x :: !B.EventsCoexist(x, e) <==> x.tenant == a.tenant && x.appointment == a.id && x.key == B.RescheduledKey(startsAt);
  }

  lemma AcceptedMinutesAreFree(cat: B.Catalog, b: B.Bookings, a: B.Appointment, g: B.Agenda, startsAt: int, now: int)
    requires BS.Sound(cat, b) && a.id in b.appointments && b.appointments[a.id] == a && Waiting(a)
    requires StartRefused(b, g, a.tenant, a.staff, startsAt, now, Some(a.id)).None? && OnMinutes(startsAt, B.EndOf(g, startsAt))
    ensures var endsAt := B.EndOf(g, startsAt);
            && BS.MinutesFree(b, B.MovedTo(a, startsAt, endsAt))
            && B.LockKeys(a.tenant, a.staff, startsAt, endsAt) !! B.Release(b.locks, a.tenant, a.id).Keys
  {
    hide BS.Sound, BS.LocksExact, BS.AppointmentsWellFormed, AtWork, Taken, BS.Unoccupied, BS.Unlocked, BS.MinutesFree, B.Release,
         B.LockKeys, Availability.Offers;
    var endsAt := B.EndOf(g, startsAt);
    var u := B.MovedTo(a, startsAt, endsAt);
    SoundLocks(cat, b);
    BS.AvailabilityAgreesWithLocks(cat, b, a.tenant, a.staff, startsAt, endsAt, Some(a.id));
    TakenIsOccupied(b, a.tenant, a.staff, startsAt, endsAt, Some(a.id));
    BS.FreeAfterRelease(b, u);
    UnlockedMinutesAreFree(b, u);
  }

  lemma SoundLocks(cat: B.Catalog, b: B.Bookings)
    requires BS.Sound(cat, b)
    ensures BS.AppointmentsWellFormed(cat, b) && BS.LocksExact(b)
  {
  }

  lemma UnlockedMinutesAreFree(b: B.Bookings, u: B.Appointment)
    requires Waiting(u)
    ensures BS.Unlocked(b, u.tenant, u.staff, u.startsAt, u.endsAt, Some(u.id)) <==> BS.MinutesFree(b, u)
  {
  }

  /**
   A move of a waiting appointment to another start is refused exactly for the reasons a new booking of that start would
   be, except that its own minutes do not count, or because the start was moved to before.
   */
  lemma MoveAnswers(cat: B.Catalog, db: Db, c: B.RescheduleRequest)
    requires Reachable(cat, db)
    ensures var b, r := db.bookings, Execute(cat, db, RescheduleAppointment(c));
            if !Found(b, c.access) then r == Failure(APPOINTMENT_NOT_FOUND)
            else
              var a := b.appointments[c.access.appointment];
              if !a.status.PENDING? && !a.status.CONFIRMED? then r == Failure(APPOINTMENT_NOT_ACTIVE)
              else if a.startsAt == c.startsAt then r == Success(db)
              else if !c.relationsFound then r == Failure(APPOINTMENT_NOT_FOUND)
              else
                match StartRefused(b, c.agenda, a.tenant, a.staff, c.startsAt, c.now, Some(a.id))
                case Some(e) => r == Failure(e)
                case None => MoveAnswered(b, a, c.agenda, c.startsAt, if c.reason.Some? then Some(Text.Trim(c.reason.value)) else None,
                                          Some(B.Previous(a.status, a.startsAt, a.endsAt)), db, r)
  {
    ReachableIsSound(cat, db);
    var b := db.bookings;
    if Found(b, c.access) && Waiting(b.appointments[c.access.appointment]) {
      var a := b.appointments[c.access.appointment];
      VerdictIs(cat, b, c.agenda, a.tenant, a.location, a.staff, Some(a.id), c.startsAt, c.now);
      if StartRefused(b, c.agenda, a.tenant, a.staff, c.startsAt, c.now, Some(a.id)).None? {
        MovedInFull(cat, db, a, c.agenda, c.startsAt, c.now, B.Trimmed(c.reason), Some(B.Previous(a.status, a.startsAt, a.endsAt)));
      }
    }
    hide Sound, B.RescheduleWith, MoveAnswered, StartRefused, Availability.Verdict;
  }

  /** From the conversation channel the customer's own waiting appointment moves within its location, and its own start counts as a move. */
  lemma ChannelMoveAnswers(cat: B.Catalog, db: Db, c: B.ChannelReschedule)
    requires Reachable(cat, db)
    ensures var b, r := db.bookings, Execute(cat, db, RescheduleInChannel(c));
            if !OwnWaiting(b, c.command) then r == Failure(APPOINTMENT_NOT_FOUND)
            else if !c.relationsFound then r == Failure(APPOINTMENT_RELATION_NOT_FOUND)
            else
              var a := b.appointments[c.command.appointment];
              if c.location != a.location then r == Failure(APPOINTMENT_NOT_FOUND)
              else
                match StartRefused(b, c.agenda, a.tenant, a.staff, c.startsAt, c.command.now, Some(a.id))
                case Some(e) => r == Failure(e)
                case None => MoveAnswered(b, a, c.agenda, c.startsAt, None, None, db, r)
  {
    ReachableIsSound(cat, db);
    var b := db.bookings;
    if OwnWaiting(b, c.command) {
      var a := b.appointments[c.command.appointment];
      VerdictIs(cat, b, c.agenda, a.tenant, a.location, a.staff, Some(a.id), c.startsAt, c.command.now);
      if StartRefused(b, c.agenda, a.tenant, a.staff, c.startsAt, c.command.now, Some(a.id)).None? {
        MovedInFull(cat, db, a, c.agenda, c.startsAt, c.command.now, None, None);
      }
    }
    hide Sound, B.RescheduleWith, MoveAnswered, StartRefused, Availability.Verdict;
  }

  // ----- booking -----

  /** Why a referral is refused: its code lacks a number, its currency is another, it yields nothing, or it is the customer's own. */
  function ReferralRefused(c: B.CreateRequest): (r: Option<Error>) {
    if c.referral.None? then None
    else
      var code := c.referral.value;
      if !Economics.Supplied(code.terms) then Some(REFERRAL_CODE_ECONOMICS_INVALID)
      else if !Economics.CurrenciesMatch(code.terms, code.currency) then Some(REFERRAL_CODE_CURRENCY_MISMATCH)
      else if !Economics.YieldsCommission(code.terms, code.price) then Some(REFERRAL_CODE_ECONOMICS_INVALID)
      else if code.affiliate == c.customer then Some(REFERRAL_SELF_REFERRAL)
      else None
  }

  /** The conversion is that of this request's referral: its four amounts are those that the code gives for the price. */
  ghost predicate Agreed(cv: B.Conversion, c: B.CreateRequest) {
    && c.referral.Some?
    && var code := c.referral.value;
       && Economics.Supplied(code.terms)
       && Economics.Calculate(code.terms, code.price, code.currency) ==
          Success(Economics.Economics(cv.gross, cv.discount, cv.final, cv.commission, code.currency))
       && cv.account == M.Account(M.Owner(c.tenant, code.affiliate), code.currency)
       && code.affiliate != c.customer && cv.referredCustomer == c.customer
       && cv.id == c.newConversionId && cv.appointment == c.newId && cv.service == c.service && cv.code == code.codeText
  }

  lemma AttributionIs(c: B.CreateRequest)
    ensures match ReferralRefused(c)
            case Some(e) => B.Attribute(c) == Failure(e)
            case None =>
              && B.Attribute(c).Success? && |B.Attribute(c).value| == (if c.referral.Some? then 1 else 0)
              && forall cv :: cv in B.Attribute(c).value ==> Agreed(cv, c)
  {
    if c.referral.Some? && Economics.Supplied(c.referral.value.terms) {
      Economics.AcceptanceIsExact(c.referral.value.terms, c.referral.value.price, c.referral.value.currency);
    }
    hide Economics.Calculate, Economics.YieldsCommission, Economics.CurrenciesMatch;
  }

  ghost predicate BookingKeyTaken(b: B.Bookings, c: B.CreateRequest, id: Id) {
    id in b.appointments && b.appointments[id].tenant == c.tenant && b.appointments[id].key == c.key
  }

  ghost predicate AtHome(cat: B.Catalog, c: B.CreateRequest) {
    (c.tenant, c.staff) in cat.home && cat.home[(c.tenant, c.staff)] == c.location
  }

  ghost predicate IdentifiersTaken(b: B.Bookings, c: B.CreateRequest) {
    c.newId in b.appointments || (c.referral.Some? && exists cv :: cv in b.conversions && cv.id == c.newConversionId)
  }

  /** The appointment of the request is confirmed, with its minutes, its first event, and one agreed conversion if it was referred. */
  ghost predicate IsBooked(b: B.Bookings, b': B.Bookings, c: B.CreateRequest) {
    var endsAt := c.startsAt + c.agenda.durationMinutes * 60_000;
    exists conversions: seq<B.Conversion> ::
      && |conversions| == (if c.referral.Some? then 1 else 0)
      && (forall cv :: cv in conversions ==> Agreed(cv, c))
      && Wrote(b, b',
               B.Appointment(c.newId, c.tenant, c.location, c.service, c.staff, c.customer, B.CONFIRMED, c.startsAt, endsAt, c.key,
                             c.fingerprint, None, None, None, None, None, 0),
               B.TimelineEvent(c.tenant, c.newId, B.Created, None, B.CONFIRMED, None, c.startsAt, endsAt, None, B.CreatedKey,
                               B.CreatedDigest(c.startsAt, endsAt)), conversions)
  }

  /** What a booking request is answered with. */
  ghost predicate BookingAnswered(cat: B.Catalog, db: Db, c: B.CreateRequest, r: Result<Db, Error>) {
    var b := db.bookings;
    if exists id :: BookingKeyTaken(b, c, id) then
      r == if exists id :: BookingKeyTaken(b, c, id) && b.appointments[id].fingerprint == c.fingerprint then Success(db)
           else Failure(IDEMPOTENCY_KEY_CONFLICT)
    else if !c.relationsFound || !AtHome(cat, c) then r == Failure(APPOINTMENT_RELATION_NOT_FOUND)
    else if ReferralRefused(c).Some? then r == Failure(ReferralRefused(c).value)
    else
      match StartRefused(b, c.agenda, c.tenant, c.staff, c.startsAt, c.now, None)
      case Some(e) => r == Failure(e)
      case None =>
        if IdentifiersTaken(b, c) then r == Failure(DUPLICATE_KEY)
        else if !OnMinutes(c.startsAt, c.startsAt + c.agenda.durationMinutes * 60_000) then r == Failure(INTERVAL_NOT_MINUTE_ALIGNED)
        else r.Success? && r.value.money == db.money && IsBooked(b, r.value.bookings, c)
  }

  /**
   A booking under a new key is made exactly if its relations, its referral, its start, its identifiers and its minutes
   are all in order, and no lock ever refuses it; under a used key it is repeated or refused.
   */
  lemma NewBookingAnswers(cat: B.Catalog, db: Db, c: B.CreateRequest)
    requires Reachable(cat, db)
    ensures BookingAnswered(cat, db, c, Execute(cat, db, CreateAppointment(c)))
  {
    ReachableIsSound(cat, db);
    CreationAnswers(cat, db, c);
  }

  /** The conversation channel books under the conversation's own key, whatever key the request names, and never with a referral. */
  lemma ChannelBookingAnswers(cat: B.Catalog, db: Db, c: B.ChannelCreate)
    requires Reachable(cat, db)
    ensures BookingAnswered(cat, db, c.request.(key := B.ConversationBooking(c.conversation), referral := None),
                            Execute(cat, db, CreateInChannel(c)))
  {
    ReachableIsSound(cat, db);
    CreationAnswers(cat, db, c.request.(key := B.ConversationBooking(c.conversation), referral := None));
    hide BookingAnswered, B.Create, Reachable;
  }

  lemma CreationAnswers(cat: B.Catalog, db: Db, c: B.CreateRequest)
    requires Sound(cat, db)
    ensures BookingAnswered(cat, db, c, Booked(db, B.Create(cat, db.bookings, c)))
  {
    var b := db.bookings;
    AttributionIs(c);
    KeyIsInUse(b, c);
    if exists id :: BookingKeyTaken(b, c, id) {
      KeyedBooking(cat, b, c);
    } else if c.relationsFound && AtHome(cat, c) && ReferralRefused(c).None? {
      VerdictIs(cat, b, c.agenda, c.tenant, c.location, c.staff, None, c.startsAt, c.now);
      if StartRefused(b, c.agenda, c.tenant, c.staff, c.startsAt, c.now, None).None? {
        OfferedBookingIs(cat, b, c);
      }
    }
    hide Sound, StartRefused, ReferralRefused, IsBooked, IdentifiersTaken, Availability.Verdict, B.Attribute, B.Acquire, B.SomeWithKey,
         BookingKeyTaken, B.SlotInput, B.ConversionInsertable, B.EventInsertable, Agreed;
  }

  lemma KeyIsInUse(b: B.Bookings, c: B.CreateRequest)
    ensures B.SomeWithKey(b, c.tenant, c.key) <==> exists id :: BookingKeyTaken(b, c, id)
  {
    if id :| BookingKeyTaken(b, c, id) {
      assert B.HasKey(b, c.tenant, c.key, id);
    }
    if B.SomeWithKey(b, c.tenant, c.key) {
      assert BookingKeyTaken(b, c, B.ByKey(b, c.tenant, c.key));
    }
  }

  lemma KeyedBooking(cat: B.Catalog, b: B.Bookings, c: B.CreateRequest)
    requires BS.Sound(cat, b) && exists id :: BookingKeyTaken(b, c, id)
    ensures B.SomeWithKey(b, c.tenant, c.key)
    ensures (exists id :: BookingKeyTaken(b, c, id) && b.appointments[id].fingerprint == c.fingerprint) <==>
            b.appointments[B.ByKey(b, c.tenant, c.key)].fingerprint == c.fingerprint
  {
    var id :| BookingKeyTaken(b, c, id);
    assert B.HasKey(b, c.tenant, c.key, id);
    var known := B.ByKey(b, c.tenant, c.key);
    assert BookingKeyTaken(b, c, known);
    forall x | BookingKeyTaken(b, c, x) ensures x == known {
    }
  }

  lemma OfferedBookingIs(cat: B.Catalog, b: B.Bookings, c: B.CreateRequest)
    requires BS.Sound(cat, b) && !B.SomeWithKey(b, c.tenant, c.key) && c.relationsFound && AtHome(cat, c)
    requires ReferralRefused(c).None? && B.Attribute(c).Success?
    requires Availability.Verdict(B.SlotInput(b, c.agenda, c.tenant, c.location, c.staff, None), c.startsAt, c.now).None?
    ensures var r := B.Create(cat, b, c);
            if IdentifiersTaken(b, c) then r == Failure(DUPLICATE_KEY)
            else if !OnMinutes(c.startsAt, c.startsAt + c.agenda.durationMinutes * 60_000) then r == Failure(INTERVAL_NOT_MINUTE_ALIGNED)
            else r.Success? && IsBooked(b, r.value.bookings, c)
  {
    hide Availability.Verdict, BS.Sound, B.Attribute, BS.Creatable, IsBooked, B.SlotInput, B.Create, B.SomeWithKey;
    Guarantees.OfferedBooking(cat, b, c);
    RefusedForIdentifiersOrMinutes(cat, b, c);
    BS.NewBookingIsPut(cat, b, c);
    if B.Create(cat, b, c).Success? {
      BookedInFull(cat, b, c);
    }
  }

  lemma RefusedForIdentifiersOrMinutes(cat: B.Catalog, b: B.Bookings, c: B.CreateRequest)
    requires BS.Sound(cat, b) && !B.SomeWithKey(b, c.tenant, c.key) && c.relationsFound && AtHome(cat, c) && B.Attribute(c).Success?
    requires Availability.Verdict(B.SlotInput(b, c.agenda, c.tenant, c.location, c.staff, None), c.startsAt, c.now).None?
    ensures IdentifiersTaken(b, c) ==> B.Create(cat, b, c) == Failure(DUPLICATE_KEY)
    ensures !IdentifiersTaken(b, c) && !OnMinutes(c.startsAt, c.startsAt + c.agenda.durationMinutes * 60_000) ==>
              B.Create(cat, b, c) == Failure(INTERVAL_NOT_MINUTE_ALIGNED)
  {
    Guarantees.NewIdentifiersInsert(cat, b, c);
    hide Availability.Verdict, BS.Sound, B.Attribute, B.EventInsertable, B.ConversionInsertable, B.SlotInput, B.LockKeys;
  }

  lemma BookedInFull(cat: B.Catalog, b: B.Bookings, c: B.CreateRequest)
    requires BS.Sound(cat, b) && BS.Creatable(cat, b, c) && ReferralRefused(c).None?
    requires B.Create(cat, b, c).Success?
    requires B.Create(cat, b, c).value.bookings == BS.Put(b, B.NewAppointment(c), B.CreatedEvent(B.NewAppointment(c)), B.Attribute(c).value)
    ensures IsBooked(b, B.Create(cat, b, c).value.bookings, c)
  {
    AttributionIs(c);
    var a := B.NewAppointment(c);
    PutWrites(cat, b, a, B.CreatedEvent(a), B.Attribute(c).value);
    hide B.Attribute, B.Create, BS.Put, Wrote, Agreed, Availability.Verdict;
  }

  // ----- outcomes -----

  predicate NoteIs(stored: Option<string>, given: Option<string>) {
    if given.None? || Text.Trim(given.value) == "" then stored.None? else stored == Some(Text.Trim(given.value))
  }

  /** An event that was recorded for exactly this request. */
  predicate RecordsRequest(e: B.TimelineEvent, o: B.Outcome) {
    match o
    case Start => e.eventType == B.Started && e.fingerprint == B.StartDigest
    case Complete(note) =>
      e.eventType == B.Completed && e.fingerprint.CompleteDigest? && NoteIs(e.fingerprint.note, note)
    case Missed(reason, note) =>
      && e.eventType == B.NoShow && e.fingerprint.NoShowDigest? && e.fingerprint.noShowReason == reason
      && NoteIs(e.fingerprint.note, note)
  }

  predicate KeyOf(e: B.TimelineEvent, c: B.OutcomeRequest) {
    e.tenant == c.tenant && e.appointment == c.appointment && e.key == c.key
  }

  /** Why a first outcome request is refused for the appointment as it is stored. */
  function OutcomeRefused(a: B.Appointment, o: B.Outcome, now: int): (r: Option<Error>) {
    match o
    case Start =>
      if !a.status.PENDING? && !a.status.CONFIRMED? then Some(APPOINTMENT_TRANSITION_INVALID)
      else if now + 1_800_000 < a.startsAt then Some(APPOINTMENT_START_TOO_EARLY)
      else None
    case Complete(_) =>
      if a.status.IN_PROGRESS? then None
      else if !a.status.PENDING? && !a.status.CONFIRMED? then Some(APPOINTMENT_TRANSITION_INVALID)
      else if now < a.endsAt then Some(APPOINTMENT_MUST_BE_STARTED)
      else None
    case Missed(_, _) =>
      if !a.status.PENDING? && !a.status.CONFIRMED? && !a.status.IN_PROGRESS? then Some(APPOINTMENT_TRANSITION_INVALID)
      else if now < a.startsAt then Some(APPOINTMENT_NO_SHOW_TOO_EARLY)
      else None
  }

  /** What an outcome changes of the appointment: its status, when, why and with which note, and nothing else. */
  ghost predicate OutcomeApplied(a: B.Appointment, u: B.Appointment, o: B.Outcome, now: int) {
    match o
    case Start => u == a.(status := B.IN_PROGRESS, startedAt := Some(now), writes := a.writes + 1)
    case Complete(note) =>
      && u == a.(status := B.COMPLETED, closedAt := Some(now), outcomeNote := u.outcomeNote, writes := a.writes + 1)
      && NoteIs(u.outcomeNote, note)
    case Missed(reason, note) =>
      && u == a.(status := B.NO_SHOW, closedAt := Some(now), noShowReason := Some(reason), outcomeNote := u.outcomeNote,
                 writes := a.writes + 1)
      && NoteIs(u.outcomeNote, note)
  }

  ghost predicate OutcomeRecorded(a: B.Appointment, u: B.Appointment, e: B.TimelineEvent, c: B.OutcomeRequest) {
    && KeyOf(e, c) && RecordsRequest(e, c.outcome)
    && e.fromStatus == Some(a.status) && e.toStatus == u.status && e.previous.None?
    && e.startsAt == a.startsAt && e.endsAt == a.endsAt
    && e.note == (if c.outcome.Start? then None else u.outcomeNote)
  }

  ghost predicate OutcomeWritten(b: B.Bookings, b': B.Bookings, c: B.OutcomeRequest)
    requires c.appointment in b.appointments
  {
    exists u, e ::
      && OutcomeApplied(b.appointments[c.appointment], u, c.outcome, c.now)
      && OutcomeRecorded(b.appointments[c.appointment], u, e, c)
      && Wrote(b, b', u, e, [])
  }

  /** The one conversion of the appointment, if its booking was referred. */
  ghost predicate Referred(b: B.Bookings, appointment: Id, cv: B.Conversion) {
    cv in b.conversions && cv.appointment == appointment
  }

  /** Whether the ledger's unique indexes still admit the commission of this conversion. */
  predicate CreditAdmitted(ledger: seq<M.LedgerEntry>, cv: B.Conversion, newEntryId: Id) {
    forall x :: x in ledger ==>
      x.id != newEntryId && (x.account.owner.tenant == cv.account.owner.tenant ==> x.key != M.CommissionKey(cv.id))
  }

  /** The commission is credited to the affiliate's account, which has both its lock documents from now on. */
  ghost predicate Credited(m: M.Money, m': M.Money, cv: B.Conversion, newEntryId: Id) {
    && m'.payouts == m.payouts
    && m'.ledger == m.ledger + [M.LedgerEntry(newEntryId, cv.account, Some(cv.id), Some(cv.appointment), None, M.CREDIT,
                                              M.COMMISSION_EARNED, cv.commission, M.CommissionKey(cv.id), None, None)]
    && m'.balanceLocks == (if cv.account in m.balanceLocks then m.balanceLocks else m.balanceLocks[cv.account := 0])
    && m'.capacityLocks == (if cv.account.owner in m.capacityLocks then m.capacityLocks else m.capacityLocks[cv.account.owner := 0])
  }

  /**
   A request under a key that the appointment already has an event for is repeated if it is the same, and refused
   otherwise. A first request is carried out exactly if nothing refuses it, and completing a referred appointment
   credits exactly its commission.
   */
  lemma OutcomeAnswers(cat: B.Catalog, db: Db, c: B.OutcomeRequest, newEntryId: Id)
    requires Reachable(cat, db)
    ensures var b, r := db.bookings, Execute(cat, db, RecordOutcome(c, newEntryId));
            if c.outcome.Missed? && c.outcome.reason.OTHER? && NoteIs(None, c.outcome.note)
            then r == Failure(APPOINTMENT_NO_SHOW_NOTE_REQUIRED)
            else if exists e :: e in b.timeline && KeyOf(e, c)
            then r == if exists e :: e in b.timeline && KeyOf(e, c) && RecordsRequest(e, c.outcome) then Success(db)
                      else Failure(IDEMPOTENCY_KEY_CONFLICT)
            else if !Found(b, B.Access(c.tenant, c.appointment, None)) then r == Failure(APPOINTMENT_NOT_FOUND)
            else
              match OutcomeRefused(b.appointments[c.appointment], c.outcome, c.now)
              case Some(e) => r == Failure(e)
              case None => FirstOutcome(db, c, newEntryId, r)
  {
    hide B.ApplyOutcome, Sound, Earn, OutcomeWritten, RecordsRequest, OutcomeRefused, Reachable, Credited, CreditAdmitted, B.ByTimelineKey;
    ReachableIsSound(cat, db);
    SoundBookings(cat, db);
    BookingPart(cat, db.bookings, c);
    KeyIsFound(db.bookings, c);
    if Found(db.bookings, B.Access(c.tenant, c.appointment, None)) && B.ApplyOutcome(db.bookings, c).Success? &&
       forall e :: e in db.bookings.timeline ==> !KeyOf(e, c) {
      var b' := B.ApplyOutcome(db.bookings, c).value.bookings;
      ConversionsStay(db.bookings, b', c);
      CreditPart(cat, db, b', c, newEntryId);
    }
    hide KeyOf, Referred;
  }

  lemma ConversionsStay(b: B.Bookings, b': B.Bookings, c: B.OutcomeRequest)
    requires c.appointment in b.appointments
    ensures OutcomeWritten(b, b', c) ==> b'.conversions == b.conversions
  {
    hide OutcomeApplied, OutcomeRecorded;
  }

  ghost predicate FirstOutcome(db: Db, c: B.OutcomeRequest, newEntryId: Id, r: Result<Db, Error>)
    requires c.appointment in db.bookings.appointments
  {
    if !c.outcome.Complete? || (forall cv :: !Referred(db.bookings, c.appointment, cv)) then
      r.Success? && r.value.money == db.money && OutcomeWritten(db.bookings, r.value.bookings, c)
    else
      exists cv :: Referred(db.bookings, c.appointment, cv) && WithCredit(db, c, newEntryId, cv, r)
  }

  ghost predicate WithCredit(db: Db, c: B.OutcomeRequest, newEntryId: Id, cv: B.Conversion, r: Result<Db, Error>)
    requires c.appointment in db.bookings.appointments
  {
    if CreditAdmitted(db.money.ledger, cv, newEntryId) then
      && r.Success? && OutcomeWritten(db.bookings, r.value.bookings, c) && Credited(db.money, r.value.money, cv, newEntryId)
    else r == Failure(DUPLICATE_KEY)
  }

  lemma SoundBookings(cat: B.Catalog, db: Db)
    requires Sound(cat, db)
    ensures BS.Sound(cat, db.bookings)
  {
  }

  lemma KeyIsFound(b: B.Bookings, c: B.OutcomeRequest)
    ensures B.ByTimelineKey(b.timeline, c).Some? <==> exists e :: e in b.timeline && KeyOf(e, c)
  {
    if B.ByTimelineKey(b.timeline, c).Some? {
      assert KeyOf(b.timeline[B.ByTimelineKey(b.timeline, c).value], c);
    }
  }

  lemma NoteIsNormalized(stored: Option<string>, given: Option<string>)
    ensures NoteIs(stored, given) <==> stored == B.NormalizedNote(given)
  {
  }

  lemma RequestIsRecorded(e: B.TimelineEvent, o: B.Outcome)
    ensures RecordsRequest(e, o) <==> e.eventType == B.OutcomeEvent(o) && e.fingerprint == B.OutcomeDigest(o)
  {
  }

  lemma OneEventPerKey(b: B.Bookings, c: B.OutcomeRequest, e: B.TimelineEvent, f: B.TimelineEvent)
    requires B.TimelineUnique(b.timeline) && e in b.timeline && f in b.timeline && KeyOf(e, c) && KeyOf(f, c)
    ensures e == f
  {
    var i :| 0 <= i < |b.timeline| && b.timeline[i] == e;
    var j :| 0 <= j < |b.timeline| && b.timeline[j] == f;
    assert i < j ==> B.EventsCoexist(b.timeline[i], b.timeline[j]);
    assert j < i ==> B.EventsCoexist(b.timeline[j], b.timeline[i]);
  }

  lemma PatchIs(a: B.Appointment, o: B.Outcome, now: int)
    ensures match OutcomeRefused(a, o, now)
            case Some(e) => B.Patch(a, o, now) == Failure(e)
            case None => B.Patch(a, o, now).Success? && OutcomeApplied(a, B.Patch(a, o, now).value, o, now)
  {
  }

  lemma BookingPart(cat: B.Catalog, b: B.Bookings, c: B.OutcomeRequest)
    requires BS.Sound(cat, b)
    ensures var r := B.ApplyOutcome(b, c);
            if c.outcome.Missed? && c.outcome.reason.OTHER? && NoteIs(None, c.outcome.note)
            then r == Failure(APPOINTMENT_NO_SHOW_NOTE_REQUIRED)
            else if exists e :: e in b.timeline && KeyOf(e, c)
            then if exists e :: e in b.timeline && KeyOf(e, c) && RecordsRequest(e, c.outcome)
                 then r.Success? && r.value.bookings == b
                 else r == Failure(IDEMPOTENCY_KEY_CONFLICT)
            else if !Found(b, B.Access(c.tenant, c.appointment, None)) then r == Failure(APPOINTMENT_NOT_FOUND)
            else
              match OutcomeRefused(b.appointments[c.appointment], c.outcome, c.now)
              case Some(e) => r == Failure(e)
              case None => r.Success? && OutcomeWritten(b, r.value.bookings, c)
  {
    KeyIsFound(b, c);
    if c.outcome.Missed? && c.outcome.reason.OTHER? && NoteIs(None, c.outcome.note) {
    } else if B.ByTimelineKey(b.timeline, c).Some? {
      var e := b.timeline[B.ByTimelineKey(b.timeline, c).value];
      RequestIsRecorded(e, c.outcome);
      KeyedEventAnswers(cat, b, c, e);
    } else if Found(b, B.Access(c.tenant, c.appointment, None)) {
      PatchIs(b.appointments[c.appointment], c.outcome, c.now);
      if OutcomeRefused(b.appointments[c.appointment], c.outcome, c.now).None? {
        FirstOutcomeIsWritten(cat, b, c);
      }
      hide BS.Sound, OutcomeWritten, B.Patch;
    }
  }

  lemma KeyedEventAnswers(cat: B.Catalog, b: B.Bookings, c: B.OutcomeRequest, e: B.TimelineEvent)
    requires BS.Sound(cat, b) && e in b.timeline && KeyOf(e, c)
    ensures Found(b, B.Access(c.tenant, c.appointment, None))
    ensures (exists f :: f in b.timeline && KeyOf(f, c) && RecordsRequest(f, c.outcome)) <==> RecordsRequest(e, c.outcome)
  {
    forall f | f in b.timeline && KeyOf(f, c) ensures f == e {
      OneEventPerKey(b, c, e, f);
    }
  }

  lemma FirstOutcomeIsWritten(cat: B.Catalog, b: B.Bookings, c: B.OutcomeRequest)
    requires BS.Sound(cat, b) && B.ByTimelineKey(b.timeline, c).None? && Found(b, B.Access(c.tenant, c.appointment, None))
    requires !(c.outcome.Missed? && c.outcome.reason.OTHER? && NoteIs(None, c.outcome.note))
    requires OutcomeRefused(b.appointments[c.appointment], c.outcome, c.now).None?
    ensures B.ApplyOutcome(b, c).Success? && OutcomeWritten(b, B.ApplyOutcome(b, c).value.bookings, c)
  {
    var a := b.appointments[c.appointment];
    PatchIs(a, c.outcome, c.now);
    var u := B.Patch(a, c.outcome, c.now).value;
    var e := B.StatusEvent(a.status, u, B.OutcomeEvent(c.outcome), c.key, B.OutcomeDigest(c.outcome), B.OutcomeNote(c.outcome));
    hide B.Patch;
    BS.OutcomeApplies(b, c, u, e);
    BS.OutcomeIsPut(cat, b, c);
    PutWrites(cat, b, u, e, []);
    RequestIsRecorded(e, c.outcome);
    assert a.id == c.appointment && a.tenant == c.tenant;
    hide BS.Sound, BS.Puttable, BS.Put, B.ApplyOutcome, Wrote;
    assert OutcomeRecorded(a, u, e, c);
  }

  /** A sound store has at most one conversion for an appointment. */
  lemma CreditPart(cat: B.Catalog, db: Db, b': B.Bookings, c: B.OutcomeRequest, newEntryId: Id)
    requires Sound(cat, db) && Found(db.bookings, B.Access(c.tenant, c.appointment, None)) && b'.conversions == db.bookings.conversions
    ensures var r := Earn(db.(bookings := b'), c.tenant, c.appointment, newEntryId);
            if forall cv :: !Referred(db.bookings, c.appointment, cv) then r == Success(db.(bookings := b'))
            else exists cv :: Referred(db.bookings, c.appointment, cv) &&
                   if CreditAdmitted(db.money.ledger, cv, newEntryId)
                   then r.Success? && r.value.bookings == b' && Credited(db.money, r.value.money, cv, newEntryId)
                   else r == Failure(DUPLICATE_KEY)
  {
    ConversionIsOnly(cat, db.bookings, c.tenant, c.appointment);
    var found := ConversionOf(db.bookings.conversions, c.tenant, c.appointment);
    if found.Some? {
      var cv := db.bookings.conversions[found.value];
      assert Referred(db.bookings, c.appointment, cv);
      var credit := M.EarnedEntry(EarningFor(cv, newEntryId));
      assert M.EntryInsertable(db.money.ledger, credit) <==> CreditAdmitted(db.money.ledger, cv, newEntryId) by {
        CreditKeyDecides(cat, db, cv, newEntryId);
      }
      hide Sound, M.EntryInsertable, CreditAdmitted;
    }
  }

  lemma CreditKeyDecides(cat: B.Catalog, db: Db, cv: B.Conversion, newEntryId: Id)
    requires Sound(cat, db)
    ensures M.EntryInsertable(db.money.ledger, M.EarnedEntry(EarningFor(cv, newEntryId))) <==> CreditAdmitted(db.money.ledger, cv, newEntryId)
  {
  }
}
