/**
 What every booking transaction keeps: each live appointment holds exactly the minutes of its interval, the timeline
 ends in the appointment's current state, and a transaction that commits under snapshot isolation does exactly
 what it would have done running alone at commit time, although it checked availability on an older state.
 */
module BookingSafety {
  import opened Wrappers
  import opened Errors
  import opened Sequences
  import opened Snapshots
  import opened Bookings
  import Availability
  import Money
  import Text

  // ----- the invariant -----

  /** Minute `k` is one of those that the live appointment `a` must hold. */
  ghost predicate Holds(a: Appointment, k: LockKey) {
    Live(a.status) && k.tenant == a.tenant && k.staff == a.staff && InMinutes(k.minute, a.startsAt, a.endsAt)
  }

  /** The lock table is exactly the union of the live appointments' minutes. */
  ghost predicate LocksExact(b: Bookings) {
    && (forall k :: k in b.locks ==> b.locks[k] in b.appointments && Holds(b.appointments[b.locks[k]], k))
    && (forall id, k :: id in b.appointments && Holds(b.appointments[id], k) ==> k in b.locks && b.locks[k] == id)
  }

  ghost predicate AppointmentsWellFormed(cat: Catalog, b: Bookings) {
    forall id :: id in b.appointments ==>
      var a := b.appointments[id];
      && a.id == id
      && (Live(a.status) ==> MinuteAligned(a.startsAt, a.endsAt))
      && (a.tenant, a.staff) in cat.home && cat.home[(a.tenant, a.staff)] == a.location
  }

  /** The newest event of one appointment. */
  function Newest(timeline: seq<TimelineEvent>, id: Id): (r: Option<TimelineEvent>)
    ensures r.Some? ==> r.value in timeline && r.value.appointment == id
  {
    if |timeline| == 0 then None
    else if timeline[|timeline| - 1].appointment == id then Some(timeline[|timeline| - 1])
    else Newest(timeline[..|timeline| - 1], id)
  }

  ghost predicate Tells(e: Option<TimelineEvent>, a: Appointment) {
    e.Some? && e.value.tenant == a.tenant && e.value.toStatus == a.status && e.value.startsAt == a.startsAt &&
    e.value.endsAt == a.endsAt
  }

  /** The history reconstructs each appointment, and nothing else is in it. */
  ghost predicate TimelineTells(b: Bookings) {
    && (forall id :: id in b.appointments ==> Tells(Newest(b.timeline, id), b.appointments[id]))
    && (forall e :: e in b.timeline ==> e.appointment in b.appointments && b.appointments[e.appointment].tenant == e.tenant)
  }

  ghost predicate ConversionsAnchored(b: Bookings) {
    && ConversionsUnique(b.conversions)
    && forall cv :: cv in b.conversions ==>
         cv.appointment in b.appointments && b.appointments[cv.appointment].tenant == cv.account.owner.tenant
  }

  ghost predicate Sound(cat: Catalog, b: Bookings) {
    && AppointmentsWellFormed(cat, b)
    && LocksExact(b)
    && BookingKeysUnique(b.appointments)
    && TimelineUnique(b.timeline)
    && TimelineTells(b)
    && ConversionsAnchored(b)
  }

  lemma EmptyIsSound(cat: Catalog)
    ensures Sound(cat, Empty)
  {
  }

  // ----- what may happen between a snapshot and a later state -----

  ghost predicate AppointmentEvolves(a: Appointment, z: Appointment) {
    && z.id == a.id && z.tenant == a.tenant && z.location == a.location && z.service == a.service && z.staff == a.staff
    && z.customer == a.customer && z.key == a.key && z.fingerprint == a.fingerprint
    && a.writes <= z.writes
    && (!Live(a.status) ==> z == a)
    && (a.status.IN_PROGRESS? ==> z == a || !Live(z.status))
  }

  ghost predicate Evolved(s: Bookings, c: Bookings) {
    && (forall id :: id in s.appointments ==> id in c.appointments && AppointmentEvolves(s.appointments[id], c.appointments[id]))
    && s.timeline <= c.timeline
    && s.conversions <= c.conversions
    && (forall j :: |s.conversions| <= j < |c.conversions| ==> c.conversions[j].appointment !in s.appointments)
  }

  lemma EvolvedIsReflexive(s: Bookings)
    ensures Evolved(s, s)
  {
  }

  lemma EvolvedIsTransitive(s: Bookings, c: Bookings, d: Bookings)
    requires Evolved(s, c) && Evolved(c, d)
    ensures Evolved(s, d)
  {
    forall id | id in s.appointments
      ensures id in d.appointments && AppointmentEvolves(s.appointments[id], d.appointments[id])
    {
      assert AppointmentEvolves(s.appointments[id], c.appointments[id]);
      assert AppointmentEvolves(c.appointments[id], d.appointments[id]);
    }
    forall j | |s.conversions| <= j < |d.conversions| ensures d.conversions[j].appointment !in s.appointments {
      if j < |c.conversions| { assert d.conversions[j] == c.conversions[j]; }
    }
  }

  // ----- one shape for every writing transaction -----

  function MinutesOf(a: Appointment): (r: set<LockKey>) {
    if Live(a.status) then LockKeys(a.tenant, a.staff, a.startsAt, a.endsAt) else {}
  }

  /** The locks a stored appointment leaves, given the locks before. */
  function LocksAfter(locks: map<LockKey, Id>, a: Appointment): (r: map<LockKey, Id>) {
    WithLocks(Release(locks, a.tenant, a.id), MinutesOf(a), a.id)
  }

  /** Stores one appointment, gives it exactly its minutes, and appends its event and perhaps a conversion. */
  function Put(b: Bookings, a: Appointment, e: TimelineEvent, conversions: seq<Conversion>): (r: Bookings) {
    Bookings(b.appointments[a.id := a],
             LocksAfter(b.locks, a),
             b.timeline + [e],
             b.conversions + conversions)
  }

  ghost predicate MinutesFree(b: Bookings, a: Appointment) {
    forall k :: k in MinutesOf(a) && k in b.locks ==> b.locks[k] == a.id
  }

  ghost predicate Replaces(b: Bookings, a: Appointment) {
    if a.id in b.appointments
    then
      var was := b.appointments[a.id];
      Live(was.status) && AppointmentEvolves(was, a) && was.writes < a.writes
    else !SomeWithKey(b, a.tenant, a.key)
  }

  ghost predicate Introduces(b: Bookings, a: Appointment, conversions: seq<Conversion>) {
    && |conversions| <= 1
    && forall cv :: cv in conversions ==>
         a.id !in b.appointments && cv.appointment == a.id && cv.account.owner.tenant == a.tenant &&
         ConversionInsertable(b.conversions, cv)
  }

  ghost predicate Puttable(cat: Catalog, b: Bookings, a: Appointment, e: TimelineEvent, conversions: seq<Conversion>) {
    && (Live(a.status) ==> MinuteAligned(a.startsAt, a.endsAt))
    && (a.tenant, a.staff) in cat.home && cat.home[(a.tenant, a.staff)] == a.location
    && Replaces(b, a)
    && MinutesFree(b, a)
    && e.appointment == a.id && Tells(Some(e), a)
    && EventInsertable(b.timeline, e)
    && Introduces(b, a, conversions)
  }

  lemma LocksAfterAre(b: Bookings, a: Appointment)
    requires LocksExact(b)
    requires a.id in b.appointments ==> b.appointments[a.id].tenant == a.tenant
    ensures forall k :: k in LocksAfter(b.locks, a) <==> k in MinutesOf(a) || (k in b.locks && b.locks[k] != a.id)
    ensures forall k :: k in LocksAfter(b.locks, a) ==> LocksAfter(b.locks, a)[k] == if k in MinutesOf(a) then a.id else b.locks[k]
  {
    var locks := LocksAfter(b.locks, a);
    forall k ensures k in locks <==> k in MinutesOf(a) || (k in b.locks && b.locks[k] != a.id) {
      if k in b.locks && b.locks[k] == a.id {
        assert Holds(b.appointments[a.id], k);
      }
    }
  }

  lemma PutLocks(b: Bookings, a: Appointment, e: TimelineEvent, conversions: seq<Conversion>)
    requires LocksExact(b) && MinutesFree(b, a)
    requires a.id in b.appointments ==> AppointmentEvolves(b.appointments[a.id], a)
    ensures LocksExact(Put(b, a, e, conversions))
    ensures forall k :: k in Put(b, a, e, conversions).locks <==>
                        k in MinutesOf(a) || (k in b.locks && b.locks[k] != a.id)
    ensures forall k :: k in Put(b, a, e, conversions).locks ==>
                        Put(b, a, e, conversions).locks[k] == if k in MinutesOf(a) then a.id else b.locks[k]
  {
    LocksAfterAre(b, a);
    hide LocksAfter;
    var p := Put(b, a, e, conversions);
    assert forall k :: k in MinutesOf(a) <==> Holds(a, k);
    hide Holds, MinutesOf;
    forall k | k in p.locks ensures p.locks[k] in p.appointments && Holds(p.appointments[p.locks[k]], k) {
      if k !in MinutesOf(a) {
        assert Holds(b.appointments[b.locks[k]], k);
      }
    }
    forall id, k | id in p.appointments && Holds(p.appointments[id], k) ensures k in p.locks && p.locks[k] == id {
      if id != a.id {
        assert Holds(b.appointments[id], k) && b.locks[k] == id;
      }
    }
  }

  lemma EventAppendUnique(timeline: seq<TimelineEvent>, e: TimelineEvent)
    requires TimelineUnique(timeline) && EventInsertable(timeline, e)
    ensures TimelineUnique(timeline + [e])
  {
  }

  lemma NewestAppend(timeline: seq<TimelineEvent>, e: TimelineEvent, id: Id)
    ensures Newest(timeline + [e], id) == if e.appointment == id then Some(e) else Newest(timeline, id)
  {
    assert (timeline + [e])[..|timeline|] == timeline;
  }

  lemma PutTimeline(b: Bookings, a: Appointment, e: TimelineEvent, conversions: seq<Conversion>)
    requires TimelineUnique(b.timeline) && TimelineTells(b) && EventInsertable(b.timeline, e)
    requires e.appointment == a.id && Tells(Some(e), a)
    requires a.id in b.appointments ==> b.appointments[a.id].tenant == a.tenant
    ensures TimelineUnique(Put(b, a, e, conversions).timeline) && TimelineTells(Put(b, a, e, conversions))
  {
    EventAppendUnique(b.timeline, e);
    NewestTells(b, a, e);
    EventsBelong(b, a, e);
    hide TimelineUnique, EventInsertable, Newest, LocksAfter, Tells;
  }

  lemma NewestTells(b: Bookings, a: Appointment, e: TimelineEvent)
    requires TimelineTells(b) && e.appointment == a.id && Tells(Some(e), a)
    ensures var stored := b.appointments[a.id := a];
            forall id :: id in stored ==> Tells(Newest(b.timeline + [e], id), stored[id])
  {
    hide Newest, Tells;
    forall id | id in b.appointments || id == a.id ensures Tells(Newest(b.timeline + [e], id), b.appointments[a.id := a][id]) {
      NewestAppend(b.timeline, e, id);
    }
  }

  lemma EventsBelong(b: Bookings, a: Appointment, e: TimelineEvent)
    requires TimelineTells(b) && e.appointment == a.id && Tells(Some(e), a)
    requires a.id in b.appointments ==> b.appointments[a.id].tenant == a.tenant
    ensures var stored := b.appointments[a.id := a];
            forall x :: x in b.timeline + [e] ==> x.appointment in stored && stored[x.appointment].tenant == x.tenant
  {
    hide Newest;
  }

  lemma PutKeys(b: Bookings, a: Appointment)
    requires BookingKeysUnique(b.appointments) && Replaces(b, a)
    ensures BookingKeysUnique(b.appointments[a.id := a])
  {
    var p := b.appointments[a.id := a];
    forall i, j | i in p && j in p && i != j && p[i].tenant == p[j].tenant ensures p[i].key != p[j].key {
      if a.id in b.appointments {
        assert b.appointments[i].key == p[i].key && b.appointments[j].key == p[j].key;
      } else if i == a.id {
        assert !HasKey(b, a.tenant, a.key, j);
      } else if j == a.id {
        assert !HasKey(b, a.tenant, a.key, i);
      }
    }
  }

  lemma PutConversions(b: Bookings, a: Appointment, e: TimelineEvent, conversions: seq<Conversion>)
    requires ConversionsAnchored(b) && Introduces(b, a, conversions)
    requires a.id in b.appointments ==> b.appointments[a.id].tenant == a.tenant
    ensures ConversionsAnchored(Put(b, a, e, conversions))
  {
    var p := Put(b, a, e, conversions);
    forall i, j | 0 <= i < j < |p.conversions| ensures ConversionsCoexist(p.conversions[i], p.conversions[j]) {
      if j >= |b.conversions| {
        assert p.conversions[j] in conversions && p.conversions[i] in b.conversions;
      }
    }
  }

  lemma PutKeepsSound(cat: Catalog, b: Bookings, a: Appointment, e: TimelineEvent, conversions: seq<Conversion>)
    requires Sound(cat, b) && Puttable(cat, b, a, e, conversions)
    ensures Sound(cat, Put(b, a, e, conversions)) && Evolved(b, Put(b, a, e, conversions))
  {
    var p := Put(b, a, e, conversions);
    assert Evolved(b, p) by {
      PutEvolves(cat, b, a, e, conversions);
    }
    assert AppointmentsWellFormed(cat, p);
    assert LocksExact(p) by {
      PutLocks(b, a, e, conversions);
    }
    assert TimelineUnique(p.timeline) && TimelineTells(p) by {
      PutTimeline(b, a, e, conversions);
    }
    assert BookingKeysUnique(p.appointments) by {
      PutKeys(b, a);
    }
    assert ConversionsAnchored(p) by {
      PutConversions(b, a, e, conversions);
    }
  }

  lemma PutEvolves(cat: Catalog, b: Bookings, a: Appointment, e: TimelineEvent, conversions: seq<Conversion>)
    requires Puttable(cat, b, a, e, conversions)
    ensures Evolved(b, Put(b, a, e, conversions))
  {
    var p := Put(b, a, e, conversions);
    forall j | |b.conversions| <= j < |p.conversions| ensures p.conversions[j].appointment !in b.appointments {
      assert p.conversions[j] in conversions;
    }
  }

  // ----- availability agrees with the lock table -----

  lemma OverlapSharesMinute(a: int, b: int, c: int, d: int)
    requires MinuteAligned(a, b) && MinuteAligned(c, d)
    ensures Availability.Overlaps(a, b, c, d) <==> exists m :: InMinutes(m, a, b) && InMinutes(m, c, d)
  {
    if Availability.Overlaps(a, b, c, d) {
      var m := if a < c then c else a;
      assert InMinutes(m, a, b) && InMinutes(m, c, d);
    }
  }

  lemma HeldMeansLocked(b: Bookings, id: Id, k: LockKey)
    requires LocksExact(b) && id in b.appointments
    ensures Holds(b.appointments[id], k) ==> k in b.locks && b.locks[k] == id
  {
  }

  /** No live appointment of the staff member, other than the excluded one, meets the interval. */
  ghost predicate Unoccupied(b: Bookings, tenant: Id, staff: Id, startsAt: int, endsAt: int, exclude: Option<Id>) {
    forall id :: id in b.appointments && exclude != Some(id) ==>
      var a := b.appointments[id];
      a.tenant == tenant && a.staff == staff && Live(a.status) ==> !Availability.Overlaps(startsAt, endsAt, a.startsAt, a.endsAt)
  }

  /** None of its minutes is locked by an appointment other than the excluded one. */
  ghost predicate Unlocked(b: Bookings, tenant: Id, staff: Id, startsAt: int, endsAt: int, exclude: Option<Id>) {
    forall k :: k in LockKeys(tenant, staff, startsAt, endsAt) && k in b.locks ==> exclude == Some(b.locks[k])
  }

  lemma AvailabilityAgreesWithLocks(cat: Catalog, b: Bookings, tenant: Id, staff: Id, startsAt: int, endsAt: int, exclude: Option<Id>)
    requires AppointmentsWellFormed(cat, b) && LocksExact(b) && MinuteAligned(startsAt, endsAt)
    ensures Unoccupied(b, tenant, staff, startsAt, endsAt, exclude) <==> Unlocked(b, tenant, staff, startsAt, endsAt, exclude)
  {
    if Unoccupied(b, tenant, staff, startsAt, endsAt, exclude) {
      forall k | k in LockKeys(tenant, staff, startsAt, endsAt) && k in b.locks ensures exclude == Some(b.locks[k]) {
        var a := b.appointments[b.locks[k]];
        assert Holds(a, k);
        OverlapSharesMinute(startsAt, endsAt, a.startsAt, a.endsAt);
      }
    }
    if Unlocked(b, tenant, staff, startsAt, endsAt, exclude) {
      forall id | id in b.appointments && exclude != Some(id)
        ensures var a := b.appointments[id];
                a.tenant == tenant && a.staff == staff && Live(a.status) ==>
                !Availability.Overlaps(startsAt, endsAt, a.startsAt, a.endsAt)
      {
        var a := b.appointments[id];
        if a.tenant == tenant && a.staff == staff && Live(a.status) {
          OverlapSharesMinute(startsAt, endsAt, a.startsAt, a.endsAt);
          forall m | InMinutes(m, startsAt, endsAt) ensures !InMinutes(m, a.startsAt, a.endsAt) {
            var k := LockKey(tenant, staff, m);
            assert k in LockKeys(tenant, staff, startsAt, endsAt);
            HeldMeansLocked(b, id, k);
          }
        }
      }
    }
  }

  /** The agenda query filters by location, but a staff member only ever works at one. */
  lemma BusyTimesAreComplete(cat: Catalog, b: Bookings, tenant: Id, location: Id, staff: Id, startsAt: int, endsAt: int, exclude: Option<Id>)
    requires AppointmentsWellFormed(cat, b)
    requires (tenant, staff) in cat.home && cat.home[(tenant, staff)] == location
    ensures Unoccupied(b, tenant, staff, startsAt, endsAt, exclude) <==>
            !Availability.Occupied(BusyTimes(b, tenant, location, staff, exclude), staff, startsAt, endsAt)
  {
    var busy := BusyTimes(b, tenant, location, staff, exclude);
    if Unoccupied(b, tenant, staff, startsAt, endsAt, exclude) {
      forall x | x in busy ensures !Availability.Overlaps(startsAt, endsAt, x.startsAt, x.endsAt) {
        var id :| id in b.appointments && Blocks(b.appointments[id], tenant, location, staff) && exclude != Some(id)
                  && x == Availability.Busy(staff, b.appointments[id].startsAt, b.appointments[id].endsAt);
      }
    } else {
      var id :| id in b.appointments && exclude != Some(id) &&
                var a := b.appointments[id];
                a.tenant == tenant && a.staff == staff && Live(a.status) &&
                Availability.Overlaps(startsAt, endsAt, a.startsAt, a.endsAt);
      assert Availability.Busy(staff, b.appointments[id].startsAt, b.appointments[id].endsAt) in busy;
    }
  }

  /** The slot check on one state, in terms of that state's locks. */
  lemma VerdictFollowsLocks(cat: Catalog, b: Bookings, g: Agenda, tenant: Id, location: Id, staff: Id, exclude: Option<Id>,
                            startsAt: int, now: int)
    requires AppointmentsWellFormed(cat, b) && LocksExact(b) && MinuteAligned(startsAt, EndOf(g, startsAt))
    requires (tenant, staff) in cat.home && cat.home[(tenant, staff)] == location
    ensures Availability.Verdict(SlotInput(b, g, tenant, location, staff, exclude), startsAt, now).None? <==>
            && Availability.Verdict(SlotInput(Empty, g, tenant, location, staff, exclude), startsAt, now).None?
            && Unlocked(b, tenant, staff, startsAt, EndOf(g, startsAt), exclude)
  {
    var input, blank := SlotInput(b, g, tenant, location, staff, exclude), SlotInput(Empty, g, tenant, location, staff, exclude);
    var e := Availability.Eligible(staff, g.staffName, g.durationMinutes);
    AvailabilityAgreesWithLocks(cat, b, tenant, staff, startsAt, EndOf(g, startsAt), exclude);
    BusyTimesAreComplete(cat, b, tenant, location, staff, startsAt, EndOf(g, startsAt), exclude);
    Availability.AppointmentsOnlyRemove(input, e, startsAt);
    assert BusyTimes(Empty, tenant, location, staff, exclude) == {};
    assert Availability.WithoutAppointments(input) == blank;
    assert e in input.eligible && e in blank.eligible;
  }

  // ----- every transaction, alone, is a Put -----

  lemma ReleaseIsPut(b: Bookings, u: Appointment)
    requires !Live(u.status)
    ensures Release(b.locks, u.tenant, u.id) == LocksAfter(b.locks, u)
  {
  }

  lemma NothingToRelease(b: Bookings, tenant: Id, id: Id)
    requires LocksExact(b) && id !in b.appointments
    ensures Release(b.locks, tenant, id) == b.locks
  {
  }

  lemma FreeAfterRelease(b: Bookings, u: Appointment)
    requires LocksExact(b) && Live(u.status)
    requires u.id in b.appointments ==> b.appointments[u.id].tenant == u.tenant
    ensures LockKeys(u.tenant, u.staff, u.startsAt, u.endsAt) !! Release(b.locks, u.tenant, u.id).Keys <==> MinutesFree(b, u)
  {
    var keys, released := LockKeys(u.tenant, u.staff, u.startsAt, u.endsAt), Release(b.locks, u.tenant, u.id);
    if MinutesFree(b, u) {
      forall k | k in keys ensures k !in released {
        assert k in b.locks ==> b.locks[k] == u.id;
      }
    }
    if keys !! released.Keys {
      forall k | k in MinutesOf(u) && k in b.locks ensures b.locks[k] == u.id {
        assert k !in released;
      }
    }
  }

  ghost predicate Creatable(cat: Catalog, b: Bookings, c: CreateRequest) {
    var a := NewAppointment(c);
    && c.relationsFound
    && Attribute(c).Success?
    && MinuteAligned(a.startsAt, a.endsAt)
    && Availability.Verdict(SlotInput(Empty, c.agenda, c.tenant, c.location, c.staff, None), c.startsAt, c.now).None?
    && a.id !in b.appointments
    && Puttable(cat, b, a, CreatedEvent(a), Attribute(c).value)
  }

  lemma CreateIsPut(cat: Catalog, b: Bookings, c: CreateRequest)
    requires Sound(cat, b)
    ensures var a := NewAppointment(c);
            && (Creatable(cat, b, c) <==> Create(cat, b, c).Success? && Create(cat, b, c).value.bookings != b)
            && (Creatable(cat, b, c) ==>
                  Create(cat, b, c) == Success(Reply(Put(b, a, CreatedEvent(a), Attribute(c).value), a)))
  {
    hide Sound, Availability.Verdict, Unlocked, MinutesFree, EventInsertable, ConversionInsertable, LocksAfter, SlotInput;
    if SomeWithKey(b, c.tenant, c.key) {
      hide Attribute;
    } else if c.relationsFound && (c.tenant, c.staff) in cat.home && cat.home[(c.tenant, c.staff)] == c.location && Attribute(c).Success? {
      NewBookingIsPut(cat, b, c);
    }
  }

  lemma NewBookingIsPut(cat: Catalog, b: Bookings, c: CreateRequest)
    requires Sound(cat, b) && !SomeWithKey(b, c.tenant, c.key) && c.relationsFound && Attribute(c).Success?
    requires (c.tenant, c.staff) in cat.home && cat.home[(c.tenant, c.staff)] == c.location
    ensures Creatable(cat, b, c) <==> Create(cat, b, c).Success?
    ensures Creatable(cat, b, c) ==>
              Create(cat, b, c) == Success(Reply(Put(b, NewAppointment(c), CreatedEvent(NewAppointment(c)), Attribute(c).value), NewAppointment(c)))
    ensures Create(cat, b, c).Success? ==> Create(cat, b, c).value.bookings != b
  {
    hide Sound, Attribute, Availability.Verdict, Unlocked, MinutesFree, EventInsertable, ConversionInsertable, LocksAfter, SlotInput,
         LockKeys, WithLocks, SomeWithKey;
    var a := NewAppointment(c);
    AttributeIntroduces(c);
    OfferedMeansUnlocked(cat, b, c);
    if Create(cat, b, c).Success? {
      assert a.id in Create(cat, b, c).value.bookings.appointments && a.id !in b.appointments;
    }
  }

  /** A new booking is offered exactly if it is on an empty agenda and its minutes are free. */
  lemma OfferedMeansUnlocked(cat: Catalog, b: Bookings, c: CreateRequest)
    requires Sound(cat, b) && (c.tenant, c.staff) in cat.home && cat.home[(c.tenant, c.staff)] == c.location
    ensures var a := NewAppointment(c);
            && (a.id !in b.appointments ==>
                  && (MinutesFree(b, a) <==> LockKeys(a.tenant, a.staff, a.startsAt, a.endsAt) !! b.locks.Keys)
                  && LocksAfter(b.locks, a) == WithLocks(b.locks, LockKeys(a.tenant, a.staff, a.startsAt, a.endsAt), a.id))
            && (a.id !in b.appointments && MinuteAligned(a.startsAt, a.endsAt) ==>
                  (Availability.Verdict(SlotInput(b, c.agenda, c.tenant, c.location, c.staff, None), c.startsAt, c.now).None? <==>
                     && Availability.Verdict(SlotInput(Empty, c.agenda, c.tenant, c.location, c.staff, None), c.startsAt, c.now).None?
                     && MinutesFree(b, a)))
  {
    hide Availability.Verdict, Unlocked, MinutesFree, LocksAfter, SlotInput, LockKeys, WithLocks;
    var a := NewAppointment(c);
    if a.id !in b.appointments {
      FreshLocks(b, a);
    }
    if MinuteAligned(a.startsAt, a.endsAt) {
      VerdictFollowsLocks(cat, b, c.agenda, c.tenant, c.location, c.staff, None, c.startsAt, c.now);
    }
  }

  /** For a new appointment, its minutes are free exactly if none of them is locked, and it has no locks to release. */
  lemma FreshLocks(b: Bookings, a: Appointment)
    requires LocksExact(b) && a.id !in b.appointments && Live(a.status)
    ensures MinutesFree(b, a) <==> Unlocked(b, a.tenant, a.staff, a.startsAt, a.endsAt, None)
    ensures MinutesFree(b, a) <==> LockKeys(a.tenant, a.staff, a.startsAt, a.endsAt) !! b.locks.Keys
    ensures LocksAfter(b.locks, a) == WithLocks(b.locks, LockKeys(a.tenant, a.staff, a.startsAt, a.endsAt), a.id)
  {
    NothingToRelease(b, a.tenant, a.id);
    FreeAfterRelease(b, a);
    if MinutesFree(b, a) {
      FreshHoldsNothing(b, a);
    }
  }

  lemma FreshHoldsNothing(b: Bookings, a: Appointment)
    requires LocksExact(b) && a.id !in b.appointments && MinutesFree(b, a)
    ensures forall k :: k in MinutesOf(a) ==> k !in b.locks
  {
  }

  lemma AttributeIntroduces(c: CreateRequest)
    requires Attribute(c).Success?
    ensures |Attribute(c).value| <= 1
    ensures forall cv :: cv in Attribute(c).value ==> cv.appointment == c.newId && cv.account.owner.tenant == c.tenant
  {
  }

  lemma CancelIsPut(cat: Catalog, b: Bookings, a: Appointment, reason: string, previous: Option<Previous>, now: int)
    requires Sound(cat, b) && a.id in b.appointments && b.appointments[a.id] == a && Active(a.status)
    ensures var u, e := CancelledAs(a, reason, now), CancelEvent(a, reason, previous, now);
            && (CancelWith(b, a, reason, previous, now).Success? <==> EventInsertable(b.timeline, e))
            && (EventInsertable(b.timeline, e) ==>
                  Puttable(cat, b, u, e, []) && CancelWith(b, a, reason, previous, now) == Success(Reply(Put(b, u, e, []), u)))
  {
    ReleaseIsPut(b, CancelledAs(a, reason, now));
    assert b.conversions + [] == b.conversions;
  }

  lemma RescheduleIsPut(cat: Catalog, b: Bookings, a: Appointment, startsAt: int, endsAt: int, reason: Option<string>,
                        previous: Option<Previous>)
    requires Sound(cat, b) && a.id in b.appointments && b.appointments[a.id] == a && Active(a.status)
    ensures var u, e := MovedTo(a, startsAt, endsAt), MoveEvent(a, startsAt, endsAt, reason, previous);
            var r := RescheduleWith(b, a, startsAt, endsAt, reason, previous);
            && (r.Success? <==> MinuteAligned(startsAt, endsAt) && MinutesFree(b, u) && EventInsertable(b.timeline, e))
            && (r.Success? ==> Puttable(cat, b, u, e, []) && r == Success(Reply(Put(b, u, e, []), u)))
  {
    FreeAfterRelease(b, MovedTo(a, startsAt, endsAt));
    assert b.conversions + [] == b.conversions;
  }

  lemma OutcomeIsPut(cat: Catalog, b: Bookings, c: OutcomeRequest)
    requires Sound(cat, b) && ApplyOutcome(b, c).Success? && ByTimelineKey(b.timeline, c).None?
    ensures var a, u := b.appointments[c.appointment], Patch(b.appointments[c.appointment], c.outcome, c.now).value;
            var e := StatusEvent(a.status, u, OutcomeEvent(c.outcome), c.key, OutcomeDigest(c.outcome), OutcomeNote(c.outcome));
            Puttable(cat, b, u, e, []) && ApplyOutcome(b, c) == Success(Reply(Put(b, u, e, []), u))
  {
    var a, u := b.appointments[c.appointment], Patch(b.appointments[c.appointment], c.outcome, c.now).value;
    assert b.conversions + [] == b.conversions;
    if c.outcome.Start? {
      StartKeepsLocks(b, a, u);
    } else {
      ReleaseIsPut(b, u);
    }
  }

  lemma StartKeepsLocks(b: Bookings, a: Appointment, u: Appointment)
    requires LocksExact(b) && u.id in b.appointments && b.appointments[u.id] == a
    requires u == a.(status := u.status, writes := u.writes, startedAt := u.startedAt) && Live(a.status) && Live(u.status)
    ensures MinutesFree(b, u)
    ensures b.locks == LocksAfter(b.locks, u)
  {
    forall k ensures k in MinutesOf(u) <==> k in b.locks && b.locks[k] == u.id {
      HeldMeansLocked(b, u.id, k);
      assert Holds(a, k) <==> k in MinutesOf(u);
    }
  }

  // ----- committing under snapshot isolation -----

  predicate CanCommit(s: Bookings, v: Bookings, c: Bookings) {
    && s.timeline <= v.timeline && s.timeline <= c.timeline
    && s.conversions <= v.conversions && s.conversions <= c.conversions
    && MapMergeable(s.appointments, v.appointments, c.appointments)
    && MapMergeable(s.locks, v.locks, c.locks)
    && TimelineUnique(MergeAppended(s.timeline, v.timeline, c.timeline))
    && ConversionsUnique(MergeAppended(s.conversions, v.conversions, c.conversions))
    && BookingKeysUnique(MergeMap(s.appointments, v.appointments, c.appointments))
  }

  function Merge(s: Bookings, v: Bookings, c: Bookings): (r: Bookings)
    requires |s.timeline| <= |v.timeline| && |s.conversions| <= |v.conversions|
  {
    Bookings(MergeMap(s.appointments, v.appointments, c.appointments),
             MergeMap(s.locks, v.locks, c.locks),
             MergeAppended(s.timeline, v.timeline, c.timeline),
             MergeAppended(s.conversions, v.conversions, c.conversions))
  }

  lemma MergeNothing(s: Bookings, c: Bookings)
    requires CanCommit(s, s, c)
    ensures Merge(s, s, c) == c
  {
    MergeNoRows(s.timeline, c.timeline);
    MergeNoRows(s.conversions, c.conversions);
    MergeUntouched(s.appointments, c.appointments);
    MergeUntouched(s.locks, c.locks);
  }

  /** A document write commits only onto the very document that was read. */
  lemma PutSeesCurrent(cat: Catalog, s: Bookings, c: Bookings, a: Appointment, e: TimelineEvent, conversions: seq<Conversion>)
    requires Puttable(cat, s, a, e, conversions) && CanCommit(s, Put(s, a, e, conversions), c)
    ensures SameAt(s.appointments, c.appointments, a.id)
    ensures MergeMap(s.appointments, s.appointments[a.id := a], c.appointments) == c.appointments[a.id := a]
  {
    MergeOneKey(s.appointments, c.appointments, a.id, a);
  }

  lemma LocksAfterAt(b: Bookings, a: Appointment, k: LockKey)
    requires LocksExact(b) && (a.id in b.appointments ==> b.appointments[a.id].tenant == a.tenant)
    ensures k in MinutesOf(a) ==> k in LocksAfter(b.locks, a) && LocksAfter(b.locks, a)[k] == a.id
    ensures k !in MinutesOf(a) && k in b.locks && b.locks[k] != a.id ==> SameAt(LocksAfter(b.locks, a), b.locks, k)
    ensures k !in MinutesOf(a) && (k !in b.locks || b.locks[k] == a.id) ==> k !in LocksAfter(b.locks, a)
  {
  }

  lemma PutMergesLocks(s: Bookings, c: Bookings, a: Appointment)
    requires LocksExact(s) && LocksExact(c) && SameAt(s.appointments, c.appointments, a.id) && MinutesFree(s, a)
    requires a.id in s.appointments ==> s.appointments[a.id].tenant == a.tenant
    requires MapMergeable(s.locks, LocksAfter(s.locks, a), c.locks)
    ensures MinutesFree(c, a)
    ensures MergeMap(s.locks, LocksAfter(s.locks, a), c.locks) == LocksAfter(c.locks, a)
  {
    var mine, target := LocksAfter(s.locks, a), LocksAfter(c.locks, a);
    var merged := MergeMap(s.locks, mine, c.locks);
    forall k ensures SameAt(merged, target, k) && (k in MinutesOf(a) && k in c.locks ==> c.locks[k] == a.id) {
      MergedLockAt(s, c, a, k);
      assert SameAt(merged, if SameAt(s.locks, mine, k) then c.locks else mine, k);
    }
    assert merged == target;
  }

  lemma MergedLockAt(s: Bookings, c: Bookings, a: Appointment, k: LockKey)
    requires LocksExact(s) && LocksExact(c) && SameAt(s.appointments, c.appointments, a.id) && MinutesFree(s, a)
    requires a.id in s.appointments ==> s.appointments[a.id].tenant == a.tenant
    requires MapMergeable(s.locks, LocksAfter(s.locks, a), c.locks)
    ensures k in MinutesOf(a) && k in c.locks ==> c.locks[k] == a.id
    ensures SameAt(if SameAt(s.locks, LocksAfter(s.locks, a), k) then c.locks else LocksAfter(s.locks, a), LocksAfter(c.locks, a), k)
  {
    var mine := LocksAfter(s.locks, a);
    LocksAfterAt(s, a, k);
    LocksAfterAt(c, a, k);
    OwnLocksAgree(s, c, a.id, k);
    if !SameAt(s.locks, mine, k) {
      assert k in s.locks.Keys + mine.Keys + c.locks.Keys;
    }
  }

  lemma OwnLocksAgree(s: Bookings, c: Bookings, id: Id, k: LockKey)
    requires LocksExact(s) && LocksExact(c) && SameAt(s.appointments, c.appointments, id)
    ensures (k in s.locks && s.locks[k] == id) <==> (k in c.locks && c.locks[k] == id)
  {
  }

  lemma PutMerges(cat: Catalog, s: Bookings, c: Bookings, a: Appointment, e: TimelineEvent, conversions: seq<Conversion>)
    requires Sound(cat, s) && Sound(cat, c) && Evolved(s, c)
    requires Puttable(cat, s, a, e, conversions) && CanCommit(s, Put(s, a, e, conversions), c)
    ensures SameAt(s.appointments, c.appointments, a.id)
    ensures Puttable(cat, c, a, e, conversions)
    ensures Merge(s, Put(s, a, e, conversions), c) == Put(c, a, e, conversions)
  {
    PutSeesCurrent(cat, s, c, a, e, conversions);
    PutMergesLocks(s, c, a);
    MergeOneInsert(s.timeline, c.timeline, e);
    assert (s.conversions + conversions)[|s.conversions|..] == conversions;
    assert Merge(s, Put(s, a, e, conversions), c) == Put(c, a, e, conversions);
    assert EventInsertable(c.timeline, e) by {
      AppendedIsInsertable(c.timeline, e);
    }
    assert Introduces(c, a, conversions) by {
      if |conversions| == 1 {
        assert conversions == [conversions[0]];
        AppendedConversionIsInsertable(c.conversions, conversions[0]);
      }
    }
    assert Replaces(c, a) by {
      if a.id !in c.appointments {
        UniqueKeyIsFresh(c, a);
      }
    }
  }

  lemma AppendedIsInsertable(timeline: seq<TimelineEvent>, e: TimelineEvent)
    requires TimelineUnique(timeline + [e])
    ensures EventInsertable(timeline, e)
  {
    var t := timeline + [e];
    forall x | x in timeline ensures EventsCoexist(x, e) {
      var i :| 0 <= i < |timeline| && timeline[i] == x;
      assert EventsCoexist(t[i], t[|timeline|]);
    }
  }

  lemma AppendedConversionIsInsertable(conversions: seq<Conversion>, cv: Conversion)
    requires ConversionsUnique(conversions + [cv])
    ensures ConversionInsertable(conversions, cv)
  {
    var t := conversions + [cv];
    forall x | x in conversions ensures ConversionsCoexist(x, cv) {
      var i :| 0 <= i < |conversions| && conversions[i] == x;
      assert ConversionsCoexist(t[i], t[|conversions|]);
    }
  }

  lemma UniqueKeyIsFresh(b: Bookings, a: Appointment)
    requires a.id !in b.appointments && BookingKeysUnique(b.appointments[a.id := a])
    ensures !SomeWithKey(b, a.tenant, a.key)
  {
    var p := b.appointments[a.id := a];
    forall id | id in b.appointments ensures !HasKey(b, a.tenant, a.key, id) {
      assert p[id] == b.appointments[id] && p[a.id] == a;
    }
  }

  // ----- each transaction: what it keeps, and that its commit is its serial run -----

  lemma CreateKeepsSound(cat: Catalog, b: Bookings, c: CreateRequest)
    requires Sound(cat, b) && Create(cat, b, c).Success?
    ensures Sound(cat, Create(cat, b, c).value.bookings) && Evolved(b, Create(cat, b, c).value.bookings)
  {
    CreateIsPut(cat, b, c);
    if Creatable(cat, b, c) {
      PutKeepsSound(cat, b, NewAppointment(c), CreatedEvent(NewAppointment(c)), Attribute(c).value);
    }
  }

  /** A booking admitted on a stale agenda is one the current agenda still admits, or it does not commit. */
  lemma CreateSerializes(cat: Catalog, s: Bookings, c: Bookings, r: CreateRequest)
    requires Sound(cat, s) && Sound(cat, c) && Evolved(s, c)
    requires Create(cat, s, r).Success? && Create(cat, s, r).value.bookings != s
    requires CanCommit(s, Create(cat, s, r).value.bookings, c)
    ensures Create(cat, c, r).Success? && Create(cat, c, r).value.bookings == Merge(s, Create(cat, s, r).value.bookings, c)
  {
    var a := NewAppointment(r);
    CreateIsPut(cat, s, r);
    PutMerges(cat, s, c, a, CreatedEvent(a), Attribute(r).value);
    CreateIsPut(cat, c, r);
  }

  lemma CancelKeepsSound(cat: Catalog, b: Bookings, c: CancelRequest)
    requires Sound(cat, b) && Cancel(b, c).Success?
    ensures Sound(cat, Cancel(b, c).value.bookings) && Evolved(b, Cancel(b, c).value.bookings)
  {
    var a := b.appointments[c.access.appointment];
    if Active(a.status) {
      CancelWithKeepsSound(cat, b, a, Text.Trim(c.reason), Some(Previous(a.status, a.startsAt, a.endsAt)), c.now);
    }
  }

  lemma CancelWithKeepsSound(cat: Catalog, b: Bookings, a: Appointment, reason: string, previous: Option<Previous>, now: int)
    requires Sound(cat, b) && a.id in b.appointments && b.appointments[a.id] == a && Active(a.status)
    requires CancelWith(b, a, reason, previous, now).Success?
    ensures var b' := CancelWith(b, a, reason, previous, now).value.bookings; Sound(cat, b') && Evolved(b, b')
  {
    CancelIsPut(cat, b, a, reason, previous, now);
    PutKeepsSound(cat, b, CancelledAs(a, reason, now), CancelEvent(a, reason, previous, now), []);
  }

  lemma CancelWithSerializes(cat: Catalog, s: Bookings, c: Bookings, a: Appointment, reason: string, previous: Option<Previous>, now: int)
    requires Sound(cat, s) && Sound(cat, c) && Evolved(s, c)
    requires a.id in s.appointments && s.appointments[a.id] == a && Active(a.status)
    requires CancelWith(s, a, reason, previous, now).Success?
    requires CanCommit(s, CancelWith(s, a, reason, previous, now).value.bookings, c)
    ensures a.id in c.appointments && c.appointments[a.id] == a
    ensures CancelWith(c, a, reason, previous, now).Success?
    ensures CancelWith(c, a, reason, previous, now).value.bookings ==
            Merge(s, CancelWith(s, a, reason, previous, now).value.bookings, c)
  {
    CancelIsPut(cat, s, a, reason, previous, now);
    PutMerges(cat, s, c, CancelledAs(a, reason, now), CancelEvent(a, reason, previous, now), []);
    CancelIsPut(cat, c, a, reason, previous, now);
  }

  lemma CancelSerializes(cat: Catalog, s: Bookings, c: Bookings, r: CancelRequest)
    requires Sound(cat, s) && Sound(cat, c) && Evolved(s, c)
    requires Cancel(s, r).Success? && Cancel(s, r).value.bookings != s && CanCommit(s, Cancel(s, r).value.bookings, c)
    ensures Cancel(c, r).Success? && Cancel(c, r).value.bookings == Merge(s, Cancel(s, r).value.bookings, c)
  {
    var a := s.appointments[r.access.appointment];
    CancelWithSerializes(cat, s, c, a, Text.Trim(r.reason), Some(Previous(a.status, a.startsAt, a.endsAt)), r.now);
  }

  lemma ChannelCancelKeepsSound(cat: Catalog, b: Bookings, c: ChannelCommand)
    requires Sound(cat, b) && CancelFromChannel(b, c).Success?
    ensures Sound(cat, CancelFromChannel(b, c).value.bookings) && Evolved(b, CancelFromChannel(b, c).value.bookings)
  {
    CancelWithKeepsSound(cat, b, b.appointments[c.appointment], CHANNEL_REASON, None, c.now);
  }

  lemma ChannelCancelSerializes(cat: Catalog, s: Bookings, c: Bookings, r: ChannelCommand)
    requires Sound(cat, s) && Sound(cat, c) && Evolved(s, c)
    requires CancelFromChannel(s, r).Success? && CanCommit(s, CancelFromChannel(s, r).value.bookings, c)
    ensures CancelFromChannel(c, r).Success?
    ensures CancelFromChannel(c, r).value.bookings == Merge(s, CancelFromChannel(s, r).value.bookings, c)
  {
    CancelWithSerializes(cat, s, c, s.appointments[r.appointment], CHANNEL_REASON, None, r.now);
  }

  lemma MoveKeepsSound(cat: Catalog, b: Bookings, a: Appointment, startsAt: int, endsAt: int, reason: Option<string>,
                       previous: Option<Previous>)
    requires Sound(cat, b) && a.id in b.appointments && b.appointments[a.id] == a && Active(a.status)
    requires RescheduleWith(b, a, startsAt, endsAt, reason, previous).Success?
    ensures var b' := RescheduleWith(b, a, startsAt, endsAt, reason, previous).value.bookings; Sound(cat, b') && Evolved(b, b')
  {
    RescheduleIsPut(cat, b, a, startsAt, endsAt, reason, previous);
    PutKeepsSound(cat, b, MovedTo(a, startsAt, endsAt), MoveEvent(a, startsAt, endsAt, reason, previous), []);
  }

  /** The move commits onto the appointment it read, and its new minutes are free in the current agenda as well. */
  lemma MoveSerializes(cat: Catalog, s: Bookings, c: Bookings, a: Appointment, g: Agenda, startsAt: int, now: int,
                       reason: Option<string>, previous: Option<Previous>)
    requires Sound(cat, s) && Sound(cat, c) && Evolved(s, c)
    requires a.id in s.appointments && s.appointments[a.id] == a && Active(a.status)
    requires Availability.Verdict(SlotInput(s, g, a.tenant, a.location, a.staff, Some(a.id)), startsAt, now).None?
    requires RescheduleWith(s, a, startsAt, EndOf(g, startsAt), reason, previous).Success?
    requires CanCommit(s, RescheduleWith(s, a, startsAt, EndOf(g, startsAt), reason, previous).value.bookings, c)
    ensures a.id in c.appointments && c.appointments[a.id] == a
    ensures Availability.Verdict(SlotInput(c, g, a.tenant, a.location, a.staff, Some(a.id)), startsAt, now).None?
    ensures RescheduleWith(c, a, startsAt, EndOf(g, startsAt), reason, previous).Success?
    ensures RescheduleWith(c, a, startsAt, EndOf(g, startsAt), reason, previous).value.bookings ==
            Merge(s, RescheduleWith(s, a, startsAt, EndOf(g, startsAt), reason, previous).value.bookings, c)
  {
    var endsAt := EndOf(g, startsAt);
    var u := MovedTo(a, startsAt, endsAt);
    RescheduleIsPut(cat, s, a, startsAt, endsAt, reason, previous);
    PutMerges(cat, s, c, u, MoveEvent(a, startsAt, endsAt, reason, previous), []);
    RescheduleIsPut(cat, c, a, startsAt, endsAt, reason, previous);
    VerdictFollowsLocks(cat, s, g, a.tenant, a.location, a.staff, Some(a.id), startsAt, now);
    VerdictFollowsLocks(cat, c, g, a.tenant, a.location, a.staff, Some(a.id), startsAt, now);
  }

  lemma RescheduleKeepsSound(cat: Catalog, b: Bookings, c: RescheduleRequest)
    requires Sound(cat, b) && Reschedule(b, c).Success?
    ensures Sound(cat, Reschedule(b, c).value.bookings) && Evolved(b, Reschedule(b, c).value.bookings)
  {
    var a := b.appointments[c.access.appointment];
    if a.startsAt != c.startsAt {
      MoveKeepsSound(cat, b, a, c.startsAt, EndOf(c.agenda, c.startsAt), Trimmed(c.reason),
                     Some(Previous(a.status, a.startsAt, a.endsAt)));
    }
  }

  lemma RescheduleSerializes(cat: Catalog, s: Bookings, c: Bookings, r: RescheduleRequest)
    requires Sound(cat, s) && Sound(cat, c) && Evolved(s, c)
    requires Reschedule(s, r).Success? && Reschedule(s, r).value.bookings != s && CanCommit(s, Reschedule(s, r).value.bookings, c)
    ensures Reschedule(c, r).Success? && Reschedule(c, r).value.bookings == Merge(s, Reschedule(s, r).value.bookings, c)
  {
    var a := s.appointments[r.access.appointment];
    MoveSerializes(cat, s, c, a, r.agenda, r.startsAt, r.now, Trimmed(r.reason), Some(Previous(a.status, a.startsAt, a.endsAt)));
  }

  lemma ChannelRescheduleKeepsSound(cat: Catalog, b: Bookings, c: ChannelReschedule)
    requires Sound(cat, b) && RescheduleFromChannel(b, c).Success?
    ensures Sound(cat, RescheduleFromChannel(b, c).value.bookings) && Evolved(b, RescheduleFromChannel(b, c).value.bookings)
  {
    MoveKeepsSound(cat, b, b.appointments[c.command.appointment], c.startsAt, EndOf(c.agenda, c.startsAt), None, None);
  }

  lemma ChannelRescheduleSerializes(cat: Catalog, s: Bookings, c: Bookings, r: ChannelReschedule)
    requires Sound(cat, s) && Sound(cat, c) && Evolved(s, c)
    requires RescheduleFromChannel(s, r).Success? && CanCommit(s, RescheduleFromChannel(s, r).value.bookings, c)
    ensures RescheduleFromChannel(c, r).Success?
    ensures RescheduleFromChannel(c, r).value.bookings == Merge(s, RescheduleFromChannel(s, r).value.bookings, c)
  {
    var a := s.appointments[r.command.appointment];
    MoveSerializes(cat, s, c, a, r.agenda, r.startsAt, r.command.now, None, None);
  }

  lemma OutcomeKeepsSound(cat: Catalog, b: Bookings, c: OutcomeRequest)
    requires Sound(cat, b) && ApplyOutcome(b, c).Success?
    ensures Sound(cat, ApplyOutcome(b, c).value.bookings) && Evolved(b, ApplyOutcome(b, c).value.bookings)
  {
    if ByTimelineKey(b.timeline, c).None? {
      var a, u := b.appointments[c.appointment], Patch(b.appointments[c.appointment], c.outcome, c.now).value;
      var e := StatusEvent(a.status, u, OutcomeEvent(c.outcome), c.key, OutcomeDigest(c.outcome), OutcomeNote(c.outcome));
      OutcomeIsPut(cat, b, c);
      PutKeepsSound(cat, b, u, e, []);
    }
  }

  lemma OutcomeSerializes(cat: Catalog, s: Bookings, c: Bookings, r: OutcomeRequest, v: Bookings)
    requires Sound(cat, s) && Sound(cat, c) && Evolved(s, c)
    requires ApplyOutcome(s, r).Success? && v == ApplyOutcome(s, r).value.bookings && v != s && CanCommit(s, v, c)
    ensures SameAt(s.appointments, c.appointments, r.appointment)
    ensures ApplyOutcome(c, r).Success? && ApplyOutcome(c, r).value.bookings == Merge(s, v, c)
  {
    var a, u, e := OutcomeWrites(cat, s, r, v);
    PutMerges(cat, s, c, u, e, []);
    OutcomeRepeats(cat, c, r, a, u, e);
  }

  lemma OutcomeWritesUnlessReplayed(cat: Catalog, b: Bookings, r: OutcomeRequest)
    requires Sound(cat, b) && ApplyOutcome(b, r).Success?
    ensures ApplyOutcome(b, r).value.bookings == b <==> ByTimelineKey(b.timeline, r).Some?
  {
    if ByTimelineKey(b.timeline, r).None? {
      OutcomeIsPut(cat, b, r);
      assert |ApplyOutcome(b, r).value.bookings.timeline| == |b.timeline| + 1;
    }
  }

  /** What a writing outcome read and what it stored. */
  lemma OutcomeWrites(cat: Catalog, s: Bookings, r: OutcomeRequest, v: Bookings)
    returns (a: Appointment, u: Appointment, e: TimelineEvent)
    requires Sound(cat, s) && ApplyOutcome(s, r).Success? && v == ApplyOutcome(s, r).value.bookings && v != s
    ensures r.appointment in s.appointments && s.appointments[r.appointment] == a && a.id == u.id == r.appointment
    ensures a.tenant == r.tenant
    ensures !(r.outcome.Missed? && r.outcome.reason.OTHER? && NormalizedNote(r.outcome.note).None?)
    ensures Patch(a, r.outcome, r.now) == Success(u)
    ensures e == StatusEvent(a.status, u, OutcomeEvent(r.outcome), r.key, OutcomeDigest(r.outcome), OutcomeNote(r.outcome))
    ensures Puttable(cat, s, u, e, []) && v == Put(s, u, e, [])
    ensures r.outcome.Complete? <==> u.status.COMPLETED?
  {
    OutcomeIsPut(cat, s, r);
    hide Puttable, Put;
    a := s.appointments[r.appointment];
    u := Patch(a, r.outcome, r.now).value;
    e := StatusEvent(a.status, u, OutcomeEvent(r.outcome), r.key, OutcomeDigest(r.outcome), OutcomeNote(r.outcome));
  }

  lemma OutcomeRepeats(cat: Catalog, c: Bookings, r: OutcomeRequest, a: Appointment, u: Appointment, e: TimelineEvent)
    requires Sound(cat, c) && Loads(c, Access(r.tenant, r.appointment, None)) && c.appointments[r.appointment] == a
    requires !(r.outcome.Missed? && r.outcome.reason.OTHER? && NormalizedNote(r.outcome.note).None?)
    requires Patch(a, r.outcome, r.now) == Success(u) && EventInsertable(c.timeline, e)
    requires e == StatusEvent(a.status, u, OutcomeEvent(r.outcome), r.key, OutcomeDigest(r.outcome), OutcomeNote(r.outcome))
    ensures ApplyOutcome(c, r) == Success(Reply(Put(c, u, e, []), u))
  {
    forall x | x in c.timeline ensures !(x.tenant == r.tenant && x.appointment == r.appointment && x.key == r.key) {
      assert EventsCoexist(x, e);
    }
    OutcomeApplies(c, r, u, e);
    OutcomeIsPut(cat, c, r);
  }

  /** The outcome's guards look only at its appointment and at the timeline keys. */
  lemma OutcomeApplies(c: Bookings, r: OutcomeRequest, u: Appointment, e: TimelineEvent)
    requires !(r.outcome.Missed? && r.outcome.reason.OTHER? && NormalizedNote(r.outcome.note).None?)
    requires ByTimelineKey(c.timeline, r).None? && Loads(c, Access(r.tenant, r.appointment, None))
    requires Patch(c.appointments[r.appointment], r.outcome, r.now) == Success(u)
    requires e == StatusEvent(c.appointments[r.appointment].status, u, OutcomeEvent(r.outcome), r.key, OutcomeDigest(r.outcome),
                              OutcomeNote(r.outcome))
    requires EventInsertable(c.timeline, e)
    ensures ApplyOutcome(c, r).Success?
  {
  }
}
