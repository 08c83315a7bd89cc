/** What the store guarantees in every reachable state, stated in its own terms. */
module Guarantees {
  import opened Wrappers
  import opened Errors
  import opened System
  import opened Runs
  import B = Bookings
  import BS = BookingSafety
  import M = Money
  import MS = MoneySafety
  import Availability
  import Economics
  import Snapshots

  // ----- money -----

  /** Credits minus debits minus what processing payouts reserve is never negative. */
  lemma NoOverdraft(cat: B.Catalog, states: seq<State>, steps: seq<Step>, i: nat, a: M.Account)
    requires Run(cat, states, steps) && i < |states|
    ensures M.Balance(states[i].db.money.ledger, a) - M.Reserved(states[i].db.money.payouts, a) >= 0
  {
    EveryStateIsSound(cat, states, steps, i);
    assert M.Available(states[i].db.money, a) >= 0;
  }

  /** Nobody ever has more than 100 payouts processing, over all currencies, although settling takes no capacity lock. */
  lemma ProcessingIsCapped(cat: B.Catalog, states: seq<State>, steps: seq<Step>, i: nat, o: M.Owner)
    requires Run(cat, states, steps) && i < |states|
    ensures M.Processing(states[i].db.money.payouts, o) <= 100
  {
    EveryStateIsSound(cat, states, steps, i);
  }

  /** A paid payout has exactly one settling debit, of its account and amount; any other payout has none. */
  lemma PaidExactlyOnce(cat: B.Catalog, states: seq<State>, steps: seq<Step>, i: nat, p: M.Payout)
    requires Run(cat, states, steps) && i < |states| && p in states[i].db.money.payouts
    ensures MS.Debits(states[i].db.money.ledger, p.id) == if p.status.PAID? then 1 else 0
    ensures forall e :: e in states[i].db.money.ledger && e.entryType.PAYOUT_PAID? && e.payoutId == Some(p.id) ==>
              p.status.PAID? && e.account == p.account && e.amount == p.amount
  {
    EveryStateIsSound(cat, states, steps, i);
    var m := states[i].db.money;
    forall e | e in m.ledger && e.entryType.PAYOUT_PAID? && e.payoutId == Some(p.id)
      ensures p.status.PAID? && e.account == p.account && e.amount == p.amount
    {
      assert MS.DebitHasPayout(e, m.payouts);
      var q :| q in m.payouts && MS.Settles(e, q);
      SamePayout(m.payouts, p, q);
      DebitCounts(m.ledger, e, p.id);
    }
  }

  lemma SamePayout(payouts: seq<M.Payout>, p: M.Payout, q: M.Payout)
    requires M.PayoutsUnique(payouts) && p in payouts && q in payouts && p.id == q.id
    ensures p == q
  {
    forall i, j | 0 <= i < j < |payouts| ensures payouts[i].id != payouts[j].id {
      assert M.PayoutsCoexist(payouts[i], payouts[j]);
    }
  }

  lemma {:induction false} DebitCounts(ledger: seq<M.LedgerEntry>, e: M.LedgerEntry, id: M.Id)
    requires e in ledger && e.entryType.PAYOUT_PAID? && e.payoutId == Some(id)
    ensures MS.Debits(ledger, id) >= 1
  {
    if ledger[|ledger| - 1] != e {
      DebitCounts(ledger[..|ledger| - 1], e, id);
    }
  }

  /** A credit has at most one reversal, of the same account and amount. */
  lemma ReversedAtMostOnce(cat: B.Catalog, states: seq<State>, steps: seq<Step>, i: nat, x: M.LedgerEntry, y: M.LedgerEntry)
    requires Run(cat, states, steps) && i < |states|
    requires x in states[i].db.money.ledger && y in states[i].db.money.ledger
    requires x.reversalOf.Some? && x.reversalOf == y.reversalOf
    ensures x.account.owner.tenant == y.account.owner.tenant ==> x == y
    ensures exists credit :: credit in states[i].db.money.ledger && MS.Reverses(x, credit)
  {
    EveryStateIsSound(cat, states, steps, i);
    var ledger := states[i].db.money.ledger;
    assert MS.EntryWellFormed(x);
    if x.account.owner.tenant == y.account.owner.tenant {
      var j :| 0 <= j < |ledger| && ledger[j] == x;
      var k :| 0 <= k < |ledger| && ledger[k] == y;
      assert j < k ==> M.EntriesCoexist(ledger[j], ledger[k]);
      assert k < j ==> M.EntriesCoexist(ledger[k], ledger[j]);
    }
  }

  /** Once closed, a payout never changes again: it takes at most one terminal step. */
  lemma ClosedPayoutsStayClosed(cat: B.Catalog, states: seq<State>, steps: seq<Step>, i: nat, j: nat, n: nat)
    requires Run(cat, states, steps) && i <= j < |states| && n < |states[i].db.money.payouts|
    requires !states[i].db.money.payouts[n].status.PROCESSING?
    ensures n < |states[j].db.money.payouts| && states[j].db.money.payouts[n] == states[i].db.money.payouts[n]
  {
    LaterStatesEvolve(cat, states, steps, i, j);
    assert MS.PayoutEvolves(states[i].db.money.payouts[n], states[j].db.money.payouts[n]);
  }

  // ----- bookings -----

  /** No two live appointments of one staff member overlap, however stale the agendas they were booked from. */
  lemma NoDoubleBooking(cat: B.Catalog, states: seq<State>, steps: seq<Step>, i: nat, x: Id, y: Id)
    requires Run(cat, states, steps) && i < |states|
    requires x in states[i].db.bookings.appointments && y in states[i].db.bookings.appointments && x != y
    requires var a, z := states[i].db.bookings.appointments[x], states[i].db.bookings.appointments[y];
             B.Live(a.status) && B.Live(z.status) && a.tenant == z.tenant && a.staff == z.staff
    ensures var a, z := states[i].db.bookings.appointments[x], states[i].db.bookings.appointments[y];
            a.endsAt <= z.startsAt || z.endsAt <= a.startsAt
  {
    EveryStateIsSound(cat, states, steps, i);
    LocksSeparate(cat, states[i].db.bookings, x, y);
  }

  lemma LocksSeparate(cat: B.Catalog, b: B.Bookings, x: Id, y: Id)
    requires BS.Sound(cat, b) && x in b.appointments && y in b.appointments && x != y
    requires var a, z := b.appointments[x], b.appointments[y];
             B.Live(a.status) && B.Live(z.status) && a.tenant == z.tenant && a.staff == z.staff
    ensures var a, z := b.appointments[x], b.appointments[y]; a.endsAt <= z.startsAt || z.endsAt <= a.startsAt
  {
    var a, z := b.appointments[x], b.appointments[y];
    BS.OverlapSharesMinute(a.startsAt, a.endsAt, z.startsAt, z.endsAt);
    forall m | B.InMinutes(m, a.startsAt, a.endsAt) ensures !B.InMinutes(m, z.startsAt, z.endsAt) {
      var k := B.LockKey(a.tenant, a.staff, m);
      assert BS.Holds(a, k);
      BS.HeldMeansLocked(b, x, k);
      BS.HeldMeansLocked(b, y, k);
    }
  }

  /** A lock row exists for a staff minute exactly when a live appointment of that staff member covers it, and it names that appointment. */
  lemma LockTableIsExact(cat: B.Catalog, states: seq<State>, steps: seq<Step>, i: nat, k: B.LockKey, id: Id)
    requires Run(cat, states, steps) && i < |states|
    ensures var b := states[i].db.bookings;
            (k in b.locks && b.locks[k] == id) <==> (id in b.appointments && BS.Holds(b.appointments[id], k))
  {
    EveryStateIsSound(cat, states, steps, i);
  }

  /** In a state anyone can reach, a slot that the agenda offers can be locked: no serial booking meets a lock conflict. */
  lemma OfferedSlotsCanBeLocked(cat: B.Catalog, states: seq<State>, steps: seq<Step>, i: nat, g: B.Agenda, tenant: Id, location: Id,
                                staff: Id, appointment: Id, startsAt: int, now: int)
    requires Run(cat, states, steps) && i < |states|
    requires (tenant, staff) in cat.home && cat.home[(tenant, staff)] == location
    requires Availability.Verdict(B.SlotInput(states[i].db.bookings, g, tenant, location, staff, None), startsAt, now).None?
    ensures B.Acquire(states[i].db.bookings.locks, tenant, staff, appointment, startsAt, B.EndOf(g, startsAt)).Success? <==>
            B.MinuteAligned(startsAt, B.EndOf(g, startsAt))
  {
    EveryStateIsSound(cat, states, steps, i);
    if B.MinuteAligned(startsAt, B.EndOf(g, startsAt)) {
      BS.VerdictFollowsLocks(cat, states[i].db.bookings, g, tenant, location, staff, None, startsAt, now);
      assert BS.Unlocked(states[i].db.bookings, tenant, staff, startsAt, B.EndOf(g, startsAt), None);
    }
  }

  /** No event of the appointment was recorded for moving it to this start. */
  ghost predicate NeverMovedTo(b: B.Bookings, a: B.Appointment, startsAt: int) {
    forall e :: e in b.timeline && e.tenant == a.tenant && e.appointment == a.id ==> e.key != B.RescheduledKey(startsAt)
  }

  /**
   A move to a start that the agenda offers is refused only for a start that is not minute-aligned, or one that the
   appointment was moved to before: the event of the second move has the key of the first.
   */
  lemma OfferedMovesSucceedUnlessRepeated(cat: B.Catalog, states: seq<State>, steps: seq<Step>, i: nat, c: B.RescheduleRequest)
    requires Run(cat, states, steps) && i < |states|
    requires B.Loads(states[i].db.bookings, c.access) && c.relationsFound
    requires var a := states[i].db.bookings.appointments[c.access.appointment];
             && B.Active(a.status) && a.startsAt != c.startsAt
             && Availability.Verdict(B.SlotInput(states[i].db.bookings, c.agenda, a.tenant, a.location, a.staff, Some(a.id)),
                                     c.startsAt, c.now).None?
    ensures var b, a := states[i].db.bookings, states[i].db.bookings.appointments[c.access.appointment];
            B.Reschedule(b, c).Success? <==> B.MinuteAligned(c.startsAt, B.EndOf(c.agenda, c.startsAt)) && NeverMovedTo(b, a, c.startsAt)
  {
    EveryStateIsSound(cat, states, steps, i);
    var b, a := states[i].db.bookings, states[i].db.bookings.appointments[c.access.appointment];
    hide Run, StateSound;
    OfferedMove(cat, b, a, c);
  }

  lemma OfferedMove(cat: B.Catalog, b: B.Bookings, a: B.Appointment, c: B.RescheduleRequest)
    requires BS.Sound(cat, b) && B.Loads(b, c.access) && c.relationsFound && a == b.appointments[c.access.appointment]
    requires B.Active(a.status) && a.startsAt != c.startsAt
    requires Availability.Verdict(B.SlotInput(b, c.agenda, a.tenant, a.location, a.staff, Some(a.id)), c.startsAt, c.now).None?
    ensures B.Reschedule(b, c).Success? <==> B.MinuteAligned(c.startsAt, B.EndOf(c.agenda, c.startsAt)) && NeverMovedTo(b, a, c.startsAt)
  {
    MoveOfOffered(cat, b, a, c.agenda, c.startsAt, c.now, B.Trimmed(c.reason), Some(B.Previous(a.status, a.startsAt, a.endsAt)));
  }

  lemma MoveOfOffered(cat: B.Catalog, b: B.Bookings, a: B.Appointment, g: B.Agenda, startsAt: int, now: int, reason: Option<string>,
                      previous: Option<B.Previous>)
    requires BS.Sound(cat, b) && a.id in b.appointments && b.appointments[a.id] == a && B.Active(a.status)
    requires Availability.Verdict(B.SlotInput(b, g, a.tenant, a.location, a.staff, Some(a.id)), startsAt, now).None?
    ensures B.RescheduleWith(b, a, startsAt, B.EndOf(g, startsAt), reason, previous).Success? <==>
            B.MinuteAligned(startsAt, B.EndOf(g, startsAt)) && NeverMovedTo(b, a, startsAt)
  {
    var endsAt := B.EndOf(g, startsAt);
    BS.RescheduleIsPut(cat, b, a, startsAt, endsAt, reason, previous);
    var u, e := B.MovedTo(a, startsAt, endsAt), B.MoveEvent(a, startsAt, endsAt, reason, previous);
    if B.MinuteAligned(startsAt, endsAt) {
      BS.VerdictFollowsLocks(cat, b, g, a.tenant, a.location, a.staff, Some(a.id), startsAt, now);
      assert BS.MinutesFree(b, u);
    }
    assert B.EventInsertable(b.timeline, e) <==> NeverMovedTo(b, a, startsAt) by {
      assert forall x :: B.EventsCoexist(x, e) <==> (x.tenant == a.tenant && x.appointment == a.id ==> x.key != B.RescheduledKey(startsAt));
    }
  }

  /**
   From the conversation channel the same holds, and there the appointment's own start is no exception: a move to an
   offered start of its location succeeds exactly if it is minute-aligned and was not made before.
   */
  lemma OfferedChannelMovesSucceedUnlessRepeated(cat: B.Catalog, states: seq<State>, steps: seq<Step>, i: nat, c: B.ChannelReschedule)
    requires Run(cat, states, steps) && i < |states|
    requires B.Owned(states[i].db.bookings, c.command) && c.relationsFound
    requires var a := states[i].db.bookings.appointments[c.command.appointment];
             && c.location == a.location
             && Availability.Verdict(B.SlotInput(states[i].db.bookings, c.agenda, a.tenant, a.location, a.staff, Some(a.id)),
                                     c.startsAt, c.command.now).None?
    ensures var b, a := states[i].db.bookings, states[i].db.bookings.appointments[c.command.appointment];
            B.RescheduleFromChannel(b, c).Success? <==>
            B.MinuteAligned(c.startsAt, B.EndOf(c.agenda, c.startsAt)) && NeverMovedTo(b, a, c.startsAt)
  {
    EveryStateIsSound(cat, states, steps, i);
    var b, a := states[i].db.bookings, states[i].db.bookings.appointments[c.command.appointment];
    hide Run, StateSound;
    MoveOfOffered(cat, b, a, c.agenda, c.startsAt, c.command.now, None, None);
  }

  /** A start once moved to is barred for that appointment in every later state. */
  lemma RepeatedStartsStayBarred(cat: B.Catalog, states: seq<State>, steps: seq<Step>, i: nat, j: nat, a: B.Appointment, startsAt: int)
    requires Run(cat, states, steps) && i <= j < |states| && !NeverMovedTo(states[i].db.bookings, a, startsAt)
    ensures !NeverMovedTo(states[j].db.bookings, a, startsAt)
  {
    LaterStatesEvolve(cat, states, steps, i, j);
    var e :| e in states[i].db.bookings.timeline && e.tenant == a.tenant && e.appointment == a.id && e.key == B.RescheduledKey(startsAt);
    assert e in states[j].db.bookings.timeline;
  }

  /**
   A new booking of an offered slot is made exactly if the slot is minute-aligned and its identifiers are new: nothing
   else, and in particular no lock, can still refuse it.
   */
  lemma OfferedBookingsSucceed(cat: B.Catalog, states: seq<State>, steps: seq<Step>, i: nat, c: B.CreateRequest)
    requires Run(cat, states, steps) && i < |states|
    requires !B.SomeWithKey(states[i].db.bookings, c.tenant, c.key) && c.relationsFound && B.Attribute(c).Success?
    requires (c.tenant, c.staff) in cat.home && cat.home[(c.tenant, c.staff)] == c.location
    requires Availability.Verdict(B.SlotInput(states[i].db.bookings, c.agenda, c.tenant, c.location, c.staff, None),
                                  c.startsAt, c.now).None?
    ensures B.Create(cat, states[i].db.bookings, c).Success? <==>
            B.MinuteAligned(c.startsAt, B.EndOf(c.agenda, c.startsAt)) && IdentifiersAreNew(states[i].db.bookings, c)
  {
    EveryStateIsSound(cat, states, steps, i);
    hide Run, StateSound;
    OfferedBooking(cat, states[i].db.bookings, c);
  }

  /** The generated identifiers are unused: that of the appointment, and that of the conversion if there is a referral. */
  ghost predicate IdentifiersAreNew(b: B.Bookings, c: B.CreateRequest) {
    && c.newId !in b.appointments
    && (c.referral.Some? ==> forall cv :: cv in b.conversions ==> cv.id != c.newConversionId)
  }

  lemma OfferedBooking(cat: B.Catalog, b: B.Bookings, c: B.CreateRequest)
    requires BS.Sound(cat, b) && !B.SomeWithKey(b, c.tenant, c.key) && c.relationsFound && B.Attribute(c).Success?
    requires (c.tenant, c.staff) in cat.home && cat.home[(c.tenant, c.staff)] == c.location
    requires Availability.Verdict(B.SlotInput(b, c.agenda, c.tenant, c.location, c.staff, None), c.startsAt, c.now).None?
    ensures B.Create(cat, b, c).Success? <==>
            B.MinuteAligned(c.startsAt, B.EndOf(c.agenda, c.startsAt)) && IdentifiersAreNew(b, c)
  {
    var a := B.NewAppointment(c);
    NewIdentifiersInsert(cat, b, c);
    if B.MinuteAligned(a.startsAt, a.endsAt) {
      BS.VerdictFollowsLocks(cat, b, c.agenda, c.tenant, c.location, c.staff, None, c.startsAt, c.now);
      assert BS.Unlocked(b, a.tenant, a.staff, a.startsAt, a.endsAt, None);
    }
    hide Availability.Verdict, BS.Sound, B.Attribute, BS.Unlocked, B.EventInsertable, B.ConversionInsertable, IdentifiersAreNew;
  }

  /** No event and no conversion can be waiting for an appointment that is not there. */
  lemma NewIdentifiersInsert(cat: B.Catalog, b: B.Bookings, c: B.CreateRequest)
    requires BS.Sound(cat, b) && B.Attribute(c).Success?
    ensures IdentifiersAreNew(b, c) <==>
            && c.newId !in b.appointments
            && B.EventInsertable(b.timeline, B.CreatedEvent(B.NewAppointment(c)))
            && forall cv :: cv in B.Attribute(c).value ==> B.ConversionInsertable(b.conversions, cv)
  {
    if c.newId !in b.appointments {
      assert B.EventInsertable(b.timeline, B.CreatedEvent(B.NewAppointment(c)));
      if c.referral.Some? {
        var cv := B.Attribute(c).value[0];
        assert B.Attribute(c).value == [cv];
        assert B.ConversionInsertable(b.conversions, cv) <==> forall x :: x in b.conversions ==> x.id != cv.id by {
          assert forall x :: x in b.conversions ==> (B.ConversionsCoexist(x, cv) <==> x.id != cv.id);
        }
      }
    }
  }

  /** The newest timeline event carries the appointment's current status and times. */
  lemma TimelineReconstructs(cat: B.Catalog, states: seq<State>, steps: seq<Step>, i: nat, id: Id)
    requires Run(cat, states, steps) && i < |states| && id in states[i].db.bookings.appointments
    ensures var a, e := states[i].db.bookings.appointments[id], BS.Newest(states[i].db.bookings.timeline, id);
            e.Some? && e.value.toStatus == a.status && e.value.startsAt == a.startsAt && e.value.endsAt == a.endsAt
  {
    EveryStateIsSound(cat, states, steps, i);
    assert BS.Tells(BS.Newest(states[i].db.bookings.timeline, id), states[i].db.bookings.appointments[id]);
  }

  /** Cancelled, completed and missed appointments never change again. */
  lemma OutcomesAreFinal(cat: B.Catalog, states: seq<State>, steps: seq<Step>, i: nat, j: nat, id: Id)
    requires Run(cat, states, steps) && i <= j < |states| && id in states[i].db.bookings.appointments
    requires !B.Live(states[i].db.bookings.appointments[id].status)
    ensures id in states[j].db.bookings.appointments
    ensures states[j].db.bookings.appointments[id] == states[i].db.bookings.appointments[id]
  {
    LaterStatesEvolve(cat, states, steps, i, j);
    assert BS.AppointmentEvolves(states[i].db.bookings.appointments[id], states[j].db.bookings.appointments[id]);
  }

  /** One conversation creates at most one appointment. */
  lemma OneAppointmentPerConversation(cat: B.Catalog, states: seq<State>, steps: seq<Step>, i: nat, x: Id, y: Id)
    requires Run(cat, states, steps) && i < |states|
    requires x in states[i].db.bookings.appointments && y in states[i].db.bookings.appointments
    requires var a, z := states[i].db.bookings.appointments[x], states[i].db.bookings.appointments[y];
             a.tenant == z.tenant && a.key.ConversationBooking? && a.key == z.key
    ensures x == y
  {
    EveryStateIsSound(cat, states, steps, i);
  }

  /** The conversions of a tenant never share an appointment, and none ever changes. */
  lemma ConversionsAreImmutable(cat: B.Catalog, states: seq<State>, steps: seq<Step>, i: nat, j: nat, x: nat, y: nat)
    requires Run(cat, states, steps) && i <= j < |states|
    requires x < |states[i].db.bookings.conversions| && y < |states[j].db.bookings.conversions|
    ensures x < |states[j].db.bookings.conversions| && states[j].db.bookings.conversions[x] == states[i].db.bookings.conversions[x]
    ensures var was, other := states[i].db.bookings.conversions[x], states[j].db.bookings.conversions[y];
            was.account.owner.tenant == other.account.owner.tenant && was.appointment == other.appointment ==> x == y
  {
    LaterStatesEvolve(cat, states, steps, i, j);
    EveryStateIsSound(cat, states, steps, j);
    var all := states[j].db.bookings.conversions;
    assert B.ConversionsUnique(all);
    assert x < y ==> B.ConversionsCoexist(all[x], all[y]);
    assert y < x ==> B.ConversionsCoexist(all[y], all[x]);
  }

  // ----- commissions -----

  lemma {:induction false} FatesPartition(conversions: seq<B.Conversion>, appointments: map<Id, B.Appointment>, a: M.Account)
    requires forall cv :: cv in conversions ==> cv.appointment in appointments
    ensures AllCommissions(conversions, a) ==
            CommissionTotal(conversions, appointments, a, Expected) + CommissionTotal(conversions, appointments, a, Earned) +
            CommissionTotal(conversions, appointments, a, Forfeited)
  {
    if |conversions| > 0 {
      FatesPartition(conversions[..|conversions| - 1], appointments, a);
      assert conversions[|conversions| - 1] in conversions;
    }
  }

  /** Every commission ever agreed is still expected, or credited in the ledger, or forfeited: none is lost or doubled. */
  lemma CommissionsAreConserved(cat: B.Catalog, states: seq<State>, steps: seq<Step>, i: nat, a: M.Account)
    requires Run(cat, states, steps) && i < |states|
    ensures var b, ledger := states[i].db.bookings, states[i].db.money.ledger;
            AllCommissions(b.conversions, a) ==
            CommissionTotal(b.conversions, b.appointments, a, Expected) + MS.TypeTotal(ledger, a, M.COMMISSION_EARNED) +
            CommissionTotal(b.conversions, b.appointments, a, Forfeited)
  {
    EveryStateIsSound(cat, states, steps, i);
    FatesPartition(states[i].db.bookings.conversions, states[i].db.bookings.appointments, a);
  }

  /** A conversion has exactly one credit if its appointment is completed and none otherwise. */
  lemma CreditedIffCompleted(cat: B.Catalog, states: seq<State>, steps: seq<Step>, i: nat, cv: B.Conversion)
    requires Run(cat, states, steps) && i < |states| && cv in states[i].db.bookings.conversions
    ensures cv.appointment in states[i].db.bookings.appointments
    ensures Credits(states[i].db.money.ledger, cv.id) ==
            if states[i].db.bookings.appointments[cv.appointment].status.COMPLETED? then 1 else 0
  {
    EveryStateIsSound(cat, states, steps, i);
  }

  // ----- why the lock is bumped -----

  /** An admitted payout commits only onto a state in which nobody else has written the two locks it bumped. */
  lemma PayoutNeedsItsLocks(s: M.Money, r: M.PayoutRequest, c: M.Money)
    requires MS.Admissible(s, r) && MS.CanCommit(s, M.CreatePayout(s, r).value.money, c)
    ensures r.account in c.balanceLocks && c.balanceLocks[r.account] == s.balanceLocks[r.account]
    ensures r.account.owner in c.capacityLocks && c.capacityLocks[r.account.owner] == s.capacityLocks[r.account.owner]
  {
    MS.CreateAdmits(s, r);
    MS.BumpMerges(s.balanceLocks, c.balanceLocks, r.account);
    MS.BumpMerges(s.capacityLocks, c.capacityLocks, r.account.owner);
  }

  /** Of two new payouts of one affiliate that were admitted on the same snapshot, at most one commits, whatever their accounts and amounts. */
  lemma OneSnapshotAdmitsOnePayout(s: M.Money, r1: M.PayoutRequest, r2: M.PayoutRequest)
    requires MS.Admissible(s, r1) && MS.Admissible(s, r2) && r1.account.owner == r2.account.owner
    ensures !MS.CanCommit(s, M.CreatePayout(s, r2).value.money, M.CreatePayout(s, r1).value.money)
  {
    MS.CreateAdmits(s, r1);
    var v1, v2 := M.CreatePayout(s, r1).value.money, M.CreatePayout(s, r2).value.money;
    if MS.CanCommit(s, v2, v1) {
      PayoutNeedsItsLocks(s, r2, v1);
      assert false;
    }
  }

  /** The same view without the version bumps of the two locks. */
  function Unbumped(s: M.Money, v: M.Money): (r: M.Money) {
    v.(balanceLocks := s.balanceLocks, capacityLocks := s.capacityLocks)
  }

  const SKEWED := M.Account(M.Owner(0, 0), "USD")
  const FIRST := M.PayoutRequest(SKEWED, true, 10, "first", None, 1, 0)
  const SECOND := M.PayoutRequest(SKEWED, true, 10, "again", None, 2, 0)

  /** One earned commission of ten. */
  function OneCredit(): (r: M.Money) {
    M.EarnCommission(M.Empty, M.Earning(7, 8, SKEWED, 10, 9)).value
  }

  lemma OneCreditIsSound()
    ensures MS.Sound(OneCredit()) && M.Available(OneCredit(), SKEWED) == 10
  {
    MS.EmptyIsSound();
    var earning := M.Earning(7, 8, SKEWED, 10, 9);
    MS.EarnKeepsSound(M.Empty, earning, OneCredit());
    MS.LedgerAppend([], M.EarnedEntry(earning), SKEWED);
  }

  lemma EachIsAdmitted(r: M.PayoutRequest)
    requires r == FIRST || r == SECOND
    ensures M.CreatePayout(OneCredit(), r).Success?
    ensures M.CreatePayout(OneCredit(), r).value.money == MS.Admitted(OneCredit(), M.NewPayout(r))
  {
    OneCreditIsSound();
    MS.CreateAdmits(OneCredit(), r);
  }

  /** Without the bumps, two payouts admitted on one snapshot can both commit and overdraw the account; with them the second does not. */
  lemma BumpPreventsWriteSkew()
    ensures MS.Sound(OneCredit()) && M.CreatePayout(OneCredit(), FIRST).Success? && M.CreatePayout(OneCredit(), SECOND).Success?
    ensures var s := OneCredit();
            var v1, v2 := M.CreatePayout(s, FIRST).value.money, M.CreatePayout(s, SECOND).value.money;
            && !MS.CanCommit(s, v2, v1)
            && MS.CanCommit(s, Unbumped(s, v2), Unbumped(s, v1))
            && M.Available(MS.Merge(s, Unbumped(s, v2), Unbumped(s, v1)), SKEWED) == -10
  {
    OneCreditIsSound();
    EachIsAdmitted(FIRST);
    EachIsAdmitted(SECOND);
    var s, p1, p2 := OneCredit(), M.NewPayout(FIRST), M.NewPayout(SECOND);
    var v1, v2 := MS.Admitted(s, p1), MS.Admitted(s, p2);
    assert !Snapshots.MapMergeable(s.balanceLocks, v2.balanceLocks, v1.balanceLocks) by {
      assert !Snapshots.SameAt(s.balanceLocks, v2.balanceLocks, SKEWED) && !Snapshots.SameAt(s.balanceLocks, v1.balanceLocks, SKEWED);
    }
    UnbumpedMerge(s, p1, p2);
  }

  lemma UnbumpedMerge(s: M.Money, p1: M.Payout, p2: M.Payout)
    requires s == OneCredit() && p1 == M.NewPayout(FIRST) && p2 == M.NewPayout(SECOND)
    ensures var w1, w2 := s.(payouts := s.payouts + [p1]), s.(payouts := s.payouts + [p2]);
            MS.CanCommit(s, w2, w1) && M.Available(MS.Merge(s, w2, w1), SKEWED) == -10
  {
    var w1, w2 := s.(payouts := s.payouts + [p1]), s.(payouts := s.payouts + [p2]);
    OneCreditIsSound();
    Snapshots.MergeOneInsert(s.payouts, w1.payouts, p2);
    Snapshots.MergeNoRows(s.ledger, w1.ledger);
    Snapshots.MergeUntouched(s.balanceLocks, w1.balanceLocks);
    Snapshots.MergeUntouched(s.capacityLocks, w1.capacityLocks);
    MS.PayoutAppend(s.payouts, p1, SKEWED, SKEWED.owner);
    MS.PayoutAppend(w1.payouts, p2, SKEWED, SKEWED.owner);
    assert "first"[0] != "again"[0];
    assert w1.payouts + [p2] == [p1, p2];
  }
}
