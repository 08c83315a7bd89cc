/**
 The whole store: bookings and affiliate money, every transaction on it, and the runs that any number of concurrent
 snapshot-isolated transactions can produce.
 */
module System {
  import opened Wrappers
  import opened Errors
  import opened Sequences
  import opened Snapshots
  import B = Bookings
  import BS = BookingSafety
  import M = Money
  import MS = MoneySafety
  import Text

  type Id = nat

  datatype Db = Db(bookings: B.Bookings, money: M.Money)

  const Empty := Db(B.Empty, M.Empty)

  datatype Command =
    | CreateAppointment(create: B.CreateRequest)
    | CreateInChannel(channelCreate: B.ChannelCreate)
    | CancelAppointment(cancel: B.CancelRequest)
    | CancelInChannel(channelCancel: B.ChannelCommand)
    | RescheduleAppointment(reschedule: B.RescheduleRequest)
    | RescheduleInChannel(channelReschedule: B.ChannelReschedule)
    | RecordOutcome(outcome: B.OutcomeRequest, newEntryId: Id)
    | CreatePayout(payout: M.PayoutRequest)
    | SettlePayout(settlement: M.Settlement)
    | ReverseCommission(reversal: M.Reversal)

  // ----- one transaction on one state -----

  function ConversionOf(conversions: seq<B.Conversion>, tenant: Id, appointment: Id): (r: Option<nat>) {
    FirstIndex(conversions, (cv: B.Conversion) => cv.account.owner.tenant == tenant && cv.appointment == appointment)
  }

  function EarningFor(cv: B.Conversion, newEntryId: Id): (r: M.Earning) {
    M.Earning(cv.id, cv.appointment, cv.account, cv.commission, newEntryId)
  }

  /** Completing an appointment earns the commission of its conversion, if it has one. */
  function Earn(db: Db, tenant: Id, appointment: Id, newEntryId: Id): (r: Result<Db, Error>) {
    match ConversionOf(db.bookings.conversions, tenant, appointment)
    case None => Success(db)
    case Some(i) =>
      var money :- M.EarnCommission(db.money, EarningFor(db.bookings.conversions[i], newEntryId));
      Success(db.(money := money))
  }

  predicate IsReplay(db: Db, c: B.OutcomeRequest) {
    B.ByTimelineKey(db.bookings.timeline, c).Some?
  }

  function ApplyOutcome(db: Db, c: B.OutcomeRequest, newEntryId: Id): (r: Result<Db, Error>) {
    var reply :- B.ApplyOutcome(db.bookings, c);
    var moved := db.(bookings := reply.bookings);
    if c.outcome.Complete? && !IsReplay(db, c) then Earn(moved, c.tenant, c.appointment, newEntryId) else Success(moved)
  }

  function Booked(db: Db, r: Result<B.Reply, Error>): (result: Result<Db, Error>) {
    match r
    case Success(reply) => Success(db.(bookings := reply.bookings))
    case Failure(e) => Failure(e)
  }

  ghost function Execute(cat: B.Catalog, db: Db, cmd: Command): (r: Result<Db, Error>) {
    match cmd
    case CreateAppointment(c) => Booked(db, B.Create(cat, db.bookings, c))
    case CreateInChannel(c) => Booked(db, B.CreateFromChannel(cat, db.bookings, c))
    case CancelAppointment(c) => Booked(db, B.Cancel(db.bookings, c))
    case CancelInChannel(c) => Booked(db, B.CancelFromChannel(db.bookings, c))
    case RescheduleAppointment(c) => Booked(db, B.Reschedule(db.bookings, c))
    case RescheduleInChannel(c) => Booked(db, B.RescheduleFromChannel(db.bookings, c))
    case RecordOutcome(c, id) => ApplyOutcome(db, c, id)
    case CreatePayout(c) => (var r :- M.CreatePayout(db.money, c); Success(db.(money := r.money)))
    case SettlePayout(c) => (var r :- M.SettlePayout(db.money, c); Success(db.(money := r.money)))
    case ReverseCommission(c) => (var r :- M.ReverseCommission(db.money, c); Success(db.(money := r.money)))
  }

  // ----- commissions across bookings and ledger -----

  /** What an appointment's status means for the commission of its conversion. */
  datatype Fate = Expected | Earned | Forfeited

  function FateOf(s: B.Status): (r: Fate) {
    if B.Live(s) then Expected else if s.COMPLETED? then Earned else Forfeited
  }

  predicate HasFate(cv: B.Conversion, appointments: map<Id, B.Appointment>, fate: Fate) {
    cv.appointment in appointments && FateOf(appointments[cv.appointment].status) == fate
  }

  /** Commissions of one account whose appointments have one fate. */
  function CommissionTotal(conversions: seq<B.Conversion>, appointments: map<Id, B.Appointment>, a: M.Account, fate: Fate): (r: int) {
    if |conversions| == 0 then 0
    else CommissionTotal(conversions[..|conversions| - 1], appointments, a, fate) +
         (var cv := conversions[|conversions| - 1];
          if cv.account == a && HasFate(cv, appointments, fate) then cv.commission else 0)
  }

  function AllCommissions(conversions: seq<B.Conversion>, a: M.Account): (r: int) {
    if |conversions| == 0 then 0
    else AllCommissions(conversions[..|conversions| - 1], a) +
         (var cv := conversions[|conversions| - 1]; if cv.account == a then cv.commission else 0)
  }

  /** How many commission credits the ledger holds for one conversion. */
  function Credits(ledger: seq<M.LedgerEntry>, conversion: Id): (r: nat) {
    if |ledger| == 0 then 0
    else Credits(ledger[..|ledger| - 1], conversion) +
         (var e := ledger[|ledger| - 1]; if e.entryType.COMMISSION_EARNED? && e.conversionId == Some(conversion) then 1 else 0)
  }

  ghost predicate CreditFor(e: M.LedgerEntry, cv: B.Conversion) {
    && e.conversionId == Some(cv.id) && e.appointmentId == Some(cv.appointment)
    && e.account == cv.account && e.amount == cv.commission
  }

  ghost predicate CreditHasConversion(e: M.LedgerEntry, conversions: seq<B.Conversion>) {
    exists cv :: cv in conversions && CreditFor(e, cv)
  }

  /** A conversion has exactly one credit when its appointment is completed and none otherwise; the totals agree. */
  ghost predicate Linked(db: Db) {
    && (forall cv :: cv in db.bookings.conversions ==>
          Credits(db.money.ledger, cv.id) == if HasFate(cv, db.bookings.appointments, Earned) then 1 else 0)
    && (forall e :: e in db.money.ledger && e.entryType.COMMISSION_EARNED? ==> CreditHasConversion(e, db.bookings.conversions))
    && (forall a :: MS.TypeTotal(db.money.ledger, a, M.COMMISSION_EARNED) ==
                    CommissionTotal(db.bookings.conversions, db.bookings.appointments, a, Earned))
  }

  ghost predicate Sound(cat: B.Catalog, db: Db) {
    BS.Sound(cat, db.bookings) && MS.Sound(db.money) && Linked(db)
  }

  ghost predicate Evolved(s: Db, c: Db) {
    BS.Evolved(s.bookings, c.bookings) && MS.Evolved(s.money, c.money)
  }

  lemma CreditsAppend(ledger: seq<M.LedgerEntry>, e: M.LedgerEntry, conversion: Id)
    ensures Credits(ledger + [e], conversion) ==
            Credits(ledger, conversion) + (if e.entryType.COMMISSION_EARNED? && e.conversionId == Some(conversion) then 1 else 0)
  {
    assert (ledger + [e])[..|ledger|] == ledger;
  }

  lemma {:induction false} NoCredits(ledger: seq<M.LedgerEntry>, conversion: Id)
    requires forall e :: e in ledger && e.entryType.COMMISSION_EARNED? ==> e.conversionId != Some(conversion)
    ensures Credits(ledger, conversion) == 0
  {
    if |ledger| > 0 {
      NoCredits(ledger[..|ledger| - 1], conversion);
    }
  }

  lemma TotalAppend(conversions: seq<B.Conversion>, cv: B.Conversion, appointments: map<Id, B.Appointment>, a: M.Account, fate: Fate)
    ensures CommissionTotal(conversions + [cv], appointments, a, fate) ==
            CommissionTotal(conversions, appointments, a, fate) +
            (if cv.account == a && HasFate(cv, appointments, fate) then cv.commission else 0)
  {
    assert (conversions + [cv])[..|conversions|] == conversions;
  }

  /** Storing an appointment whose fate is and was not `fate` moves nothing in or out of that total. */
  lemma {:induction false} TotalUnmoved(conversions: seq<B.Conversion>, was: map<Id, B.Appointment>, u: B.Appointment, a: M.Account, fate: Fate)
    requires FateOf(u.status) != fate
    requires u.id in was ==> FateOf(was[u.id].status) != fate
    ensures CommissionTotal(conversions, was[u.id := u], a, fate) == CommissionTotal(conversions, was, a, fate)
  {
    if |conversions| > 0 {
      TotalUnmoved(conversions[..|conversions| - 1], was, u, a, fate);
    }
  }

  /** Without a conversion for the appointment, storing it moves no total. */
  lemma {:induction false} TotalUnrelated(conversions: seq<B.Conversion>, was: map<Id, B.Appointment>, u: B.Appointment, a: M.Account, fate: Fate)
    requires forall cv :: cv in conversions ==> cv.appointment != u.id
    ensures CommissionTotal(conversions, was[u.id := u], a, fate) == CommissionTotal(conversions, was, a, fate)
  {
    if |conversions| > 0 {
      assert conversions[|conversions| - 1] in conversions;
      TotalUnrelated(conversions[..|conversions| - 1], was, u, a, fate);
    }
  }

  /** Completing the appointment of conversion `j`, and of no other, moves exactly its commission into the total. */
  lemma {:induction false} TotalMoved(conversions: seq<B.Conversion>, j: nat, was: map<Id, B.Appointment>, u: B.Appointment, a: M.Account, fate: Fate)
    requires j < |conversions| && conversions[j].appointment == u.id
    requires forall i :: 0 <= i < |conversions| && i != j ==> conversions[i].appointment != u.id
    requires FateOf(u.status) == fate && u.id in was && FateOf(was[u.id].status) != fate
    ensures CommissionTotal(conversions, was[u.id := u], a, fate) ==
            CommissionTotal(conversions, was, a, fate) + (if conversions[j].account == a then conversions[j].commission else 0)
  {
    var last := |conversions| - 1;
    var init := conversions[..last];
    if j == last {
      forall cv | cv in init ensures cv.appointment != u.id {
        var i :| 0 <= i < last && init[i] == cv;
        assert conversions[i] == cv;
      }
      TotalUnrelated(init, was, u, a, fate);
    } else {
      TotalMoved(init, j, was, u, a, fate);
    }
  }

  // ----- what every transaction keeps -----

  /** A booking write that completes nothing leaves every commission where it is. */
  lemma PutKeepsLinked(db: Db, u: B.Appointment, e: B.TimelineEvent, conversions: seq<B.Conversion>)
    requires Linked(db) && BS.Replaces(db.bookings, u) && BS.Introduces(db.bookings, u, conversions)
    requires !u.status.COMPLETED? && (|conversions| > 0 ==> B.Live(u.status))
    ensures Linked(db.(bookings := BS.Put(db.bookings, u, e, conversions)))
  {
    PutCredits(db, u, e, conversions);
    PutTotals(db, u, e, conversions);
    var b' := BS.Put(db.bookings, u, e, conversions);
    forall x | x in db.money.ledger && x.entryType.COMMISSION_EARNED? ensures CreditHasConversion(x, b'.conversions) {
      assert CreditHasConversion(x, db.bookings.conversions);
      var cv :| cv in db.bookings.conversions && CreditFor(x, cv);
      assert cv in b'.conversions;
    }
  }

  lemma PutCredits(db: Db, u: B.Appointment, e: B.TimelineEvent, conversions: seq<B.Conversion>)
    requires Linked(db) && BS.Replaces(db.bookings, u) && BS.Introduces(db.bookings, u, conversions) && !u.status.COMPLETED?
    ensures var b' := BS.Put(db.bookings, u, e, conversions);
            forall cv :: cv in b'.conversions ==>
              Credits(db.money.ledger, cv.id) == if HasFate(cv, b'.appointments, Earned) then 1 else 0
  {
    var b, b' := db.bookings, BS.Put(db.bookings, u, e, conversions);
    forall cv | cv in b'.conversions
      ensures Credits(db.money.ledger, cv.id) == if HasFate(cv, b'.appointments, Earned) then 1 else 0
    {
      if cv in conversions {
        NewConversionHasNoCredit(db, cv);
      } else {
        assert cv in b.conversions;
        assert HasFate(cv, b'.appointments, Earned) <==> HasFate(cv, b.appointments, Earned);
      }
    }
  }

  lemma NewConversionHasNoCredit(db: Db, cv: B.Conversion)
    requires Linked(db) && B.ConversionInsertable(db.bookings.conversions, cv)
    ensures Credits(db.money.ledger, cv.id) == 0
  {
    forall x | x in db.money.ledger && x.entryType.COMMISSION_EARNED? ensures x.conversionId != Some(cv.id) {
      assert CreditHasConversion(x, db.bookings.conversions);
      var other :| other in db.bookings.conversions && CreditFor(x, other);
      assert B.ConversionsCoexist(other, cv);
    }
    NoCredits(db.money.ledger, cv.id);
  }

  lemma PutTotals(db: Db, u: B.Appointment, e: B.TimelineEvent, conversions: seq<B.Conversion>)
    requires BS.Replaces(db.bookings, u) && BS.Introduces(db.bookings, u, conversions)
    requires !u.status.COMPLETED? && (|conversions| > 0 ==> B.Live(u.status))
    ensures var b, b' := db.bookings, BS.Put(db.bookings, u, e, conversions);
            forall a :: CommissionTotal(b'.conversions, b'.appointments, a, Earned) ==
                        CommissionTotal(b.conversions, b.appointments, a, Earned)
  {
    var b, b' := db.bookings, BS.Put(db.bookings, u, e, conversions);
    forall a
      ensures CommissionTotal(b'.conversions, b'.appointments, a, Earned) == CommissionTotal(b.conversions, b.appointments, a, Earned)
    {
      TotalUnmoved(b.conversions, b.appointments, u, a, Earned);
      if |conversions| == 0 {
        assert b'.conversions == b.conversions;
      } else {
        assert conversions == [conversions[0]] && conversions[0] in conversions;
        TotalAppend(b.conversions, conversions[0], b'.appointments, a, Earned);
      }
    }
  }

  /** Ledger rows other than commission credits leave the link alone. */
  lemma LedgerGrowthKeepsLinked(db: Db, money: M.Money)
    requires Linked(db) && db.money.ledger <= money.ledger && |money.ledger| <= |db.money.ledger| + 1
    requires forall e :: e in money.ledger && e !in db.money.ledger ==> !e.entryType.COMMISSION_EARNED?
    requires |money.ledger| > |db.money.ledger| ==> money.ledger[|db.money.ledger|] !in db.money.ledger
    ensures Linked(db.(money := money))
  {
    if |money.ledger| > |db.money.ledger| {
      var e := money.ledger[|db.money.ledger|];
      assert money.ledger == db.money.ledger + [e];
      forall id ensures Credits(money.ledger, id) == Credits(db.money.ledger, id) {
        CreditsAppend(db.money.ledger, e, id);
      }
      forall a ensures MS.TypeTotal(money.ledger, a, M.COMMISSION_EARNED) == MS.TypeTotal(db.money.ledger, a, M.COMMISSION_EARNED) {
        MS.LedgerAppend(db.money.ledger, e, a);
      }
    } else {
      assert money.ledger == db.money.ledger;
    }
  }

  lemma InsertedIsNew(ledger: seq<M.LedgerEntry>, e: M.LedgerEntry)
    requires M.EntryInsertable(ledger, e)
    ensures e !in ledger
  {
    forall x | x in ledger ensures x != e {
      assert M.EntriesCoexist(x, e);
    }
  }

  /** Completing an appointment without a conversion moves no commission. */
  lemma PlainCompletionKeepsLinked(db: Db, u: B.Appointment, e: B.TimelineEvent)
    requires Linked(db) && forall cv :: cv in db.bookings.conversions ==> cv.appointment != u.id
    ensures Linked(db.(bookings := BS.Put(db.bookings, u, e, [])))
  {
    var b, b' := db.bookings, BS.Put(db.bookings, u, e, []);
    assert b'.conversions == b.conversions;
    forall a
      ensures CommissionTotal(b'.conversions, b'.appointments, a, Earned) == CommissionTotal(b.conversions, b.appointments, a, Earned)
    {
      TotalUnrelated(b.conversions, b.appointments, u, a, Earned);
    }
    forall cv | cv in b'.conversions
      ensures Credits(db.money.ledger, cv.id) == if HasFate(cv, b'.appointments, Earned) then 1 else 0
    {
      assert HasFate(cv, b'.appointments, Earned) <==> HasFate(cv, b.appointments, Earned);
    }
  }

  ghost predicate OnlyConversion(conversions: seq<B.Conversion>, j: nat, appointment: Id) {
    && j < |conversions| && conversions[j].appointment == appointment
    && forall i :: 0 <= i < |conversions| && i != j ==> conversions[i].appointment != appointment && conversions[i].id != conversions[j].id
  }

  /** Completing a referred appointment and crediting its conversion moves the commission from expected to earned. */
  lemma CreditedCompletionKeepsLinked(db: Db, u: B.Appointment, e: B.TimelineEvent, j: nat, credit: M.LedgerEntry, money: M.Money)
    requires Linked(db) && OnlyConversion(db.bookings.conversions, j, u.id)
    requires u.status.COMPLETED? && u.id in db.bookings.appointments && !db.bookings.appointments[u.id].status.COMPLETED?
    requires credit.entryType.COMMISSION_EARNED? && CreditFor(credit, db.bookings.conversions[j])
    requires money.ledger == db.money.ledger + [credit]
    ensures Linked(Db(BS.Put(db.bookings, u, e, []), money))
  {
    var b, b' := db.bookings, BS.Put(db.bookings, u, e, []);
    var paid := b.conversions[j];
    assert b'.conversions == b.conversions;
    forall cv | cv in b'.conversions
      ensures Credits(money.ledger, cv.id) == if HasFate(cv, b'.appointments, Earned) then 1 else 0
    {
      CreditsAppend(db.money.ledger, credit, cv.id);
      var i :| 0 <= i < |b.conversions| && b.conversions[i] == cv;
      assert i != j ==> (HasFate(cv, b'.appointments, Earned) <==> HasFate(cv, b.appointments, Earned));
    }
    forall x | x in money.ledger && x.entryType.COMMISSION_EARNED? ensures CreditHasConversion(x, b'.conversions) {
      if x == credit {
        assert paid in b'.conversions;
      } else {
        assert x in db.money.ledger;
      }
    }
    forall a
      ensures MS.TypeTotal(money.ledger, a, M.COMMISSION_EARNED) == CommissionTotal(b'.conversions, b'.appointments, a, Earned)
    {
      TotalMoved(b.conversions, j, b.appointments, u, a, Earned);
      MS.LedgerAppend(db.money.ledger, credit, a);
    }
  }

  lemma ConversionIsOnly(cat: B.Catalog, b: B.Bookings, tenant: Id, appointment: Id)
    requires BS.Sound(cat, b) && appointment in b.appointments && b.appointments[appointment].tenant == tenant
    ensures ConversionOf(b.conversions, tenant, appointment).None? ==>
              forall cv :: cv in b.conversions ==> cv.appointment != appointment
    ensures ConversionOf(b.conversions, tenant, appointment).Some? ==>
              OnlyConversion(b.conversions, ConversionOf(b.conversions, tenant, appointment).value, appointment)
  {
    var found := ConversionOf(b.conversions, tenant, appointment);
    forall i | 0 <= i < |b.conversions| && b.conversions[i].appointment == appointment
      ensures b.conversions[i].account.owner.tenant == tenant
    {
      assert b.conversions[i] in b.conversions;
    }
    if found.Some? {
      var j := found.value;
      forall i | 0 <= i < |b.conversions| && i != j
        ensures b.conversions[i].appointment != appointment && b.conversions[i].id != b.conversions[j].id
      {
        if i < j {
          assert B.ConversionsCoexist(b.conversions[i], b.conversions[j]);
        } else {
          assert B.ConversionsCoexist(b.conversions[j], b.conversions[i]);
        }
      }
    }
  }

  lemma CompletionKeepsLinked(cat: B.Catalog, db: Db, u: B.Appointment, e: B.TimelineEvent, newEntryId: Id, db': Db)
    requires Sound(cat, db) && BS.Puttable(cat, db.bookings, u, e, []) && u.status.COMPLETED? && u.id in db.bookings.appointments
    requires Earn(db.(bookings := BS.Put(db.bookings, u, e, [])), u.tenant, u.id, newEntryId) == Success(db')
    ensures Linked(db')
  {
    ConversionIsOnly(cat, db.bookings, u.tenant, u.id);
    assert db.bookings.conversions + [] == db.bookings.conversions;
    match ConversionOf(db.bookings.conversions, u.tenant, u.id)
    case None => PlainCompletionKeepsLinked(db, u, e);
    case Some(j) =>
      var earning := EarningFor(db.bookings.conversions[j], newEntryId);
      CreditedCompletionKeepsLinked(db, u, e, j, M.EarnedEntry(earning), db'.money);
  }

  // ----- each command keeps the invariant -----

  lemma BookingCommandKeepsLinked(cat: B.Catalog, db: Db, cmd: Command)
    requires Sound(cat, db) && Execute(cat, db, cmd).Success? && Execute(cat, db, cmd).value.bookings != db.bookings
    requires cmd.CreateAppointment? || cmd.CreateInChannel? || cmd.CancelAppointment? || cmd.CancelInChannel? ||
             cmd.RescheduleAppointment? || cmd.RescheduleInChannel?
    ensures Linked(Execute(cat, db, cmd).value)
  {
    var b := db.bookings;
    match cmd
    case CreateAppointment(c) => CreateKeepsLinked(cat, db, c);
    case CreateInChannel(c) => CreateKeepsLinked(cat, db, c.AsRequest());
    case CancelAppointment(c) =>
      var a := b.appointments[c.access.appointment];
      CancelKeepsLinked(cat, db, a, Text.Trim(c.reason), Some(B.Previous(a.status, a.startsAt, a.endsAt)), c.now);
    case CancelInChannel(c) =>
      CancelKeepsLinked(cat, db, b.appointments[c.appointment], B.CHANNEL_REASON, None, c.now);
    case RescheduleAppointment(c) =>
      var a := b.appointments[c.access.appointment];
      MoveKeepsLinked(cat, db, a, c.startsAt, B.EndOf(c.agenda, c.startsAt), B.Trimmed(c.reason),
                      Some(B.Previous(a.status, a.startsAt, a.endsAt)));
    case RescheduleInChannel(c) =>
      MoveKeepsLinked(cat, db, b.appointments[c.command.appointment], c.startsAt, B.EndOf(c.agenda, c.startsAt), None, None);
  }

  lemma CreateKeepsLinked(cat: B.Catalog, db: Db, c: B.CreateRequest)
    requires Sound(cat, db) && B.Create(cat, db.bookings, c).Success? && B.Create(cat, db.bookings, c).value.bookings != db.bookings
    ensures Linked(db.(bookings := B.Create(cat, db.bookings, c).value.bookings))
  {
    var a := B.NewAppointment(c);
    BS.CreateIsPut(cat, db.bookings, c);
    PutKeepsLinked(db, a, B.CreatedEvent(a), B.Attribute(c).value);
  }

  lemma CancelKeepsLinked(cat: B.Catalog, db: Db, a: B.Appointment, reason: string, previous: Option<B.Previous>, now: int)
    requires Sound(cat, db) && a.id in db.bookings.appointments && db.bookings.appointments[a.id] == a && B.Active(a.status)
    requires B.CancelWith(db.bookings, a, reason, previous, now).Success?
    ensures Linked(db.(bookings := B.CancelWith(db.bookings, a, reason, previous, now).value.bookings))
  {
    BS.CancelIsPut(cat, db.bookings, a, reason, previous, now);
    PutKeepsLinked(db, B.CancelledAs(a, reason, now), B.CancelEvent(a, reason, previous, now), []);
  }

  lemma MoveKeepsLinked(cat: B.Catalog, db: Db, a: B.Appointment, startsAt: int, endsAt: int, reason: Option<string>, previous: Option<B.Previous>)
    requires Sound(cat, db) && a.id in db.bookings.appointments && db.bookings.appointments[a.id] == a && B.Active(a.status)
    requires B.RescheduleWith(db.bookings, a, startsAt, endsAt, reason, previous).Success?
    ensures Linked(db.(bookings := B.RescheduleWith(db.bookings, a, startsAt, endsAt, reason, previous).value.bookings))
  {
    BS.RescheduleIsPut(cat, db.bookings, a, startsAt, endsAt, reason, previous);
    PutKeepsLinked(db, B.MovedTo(a, startsAt, endsAt), B.MoveEvent(a, startsAt, endsAt, reason, previous), []);
  }

  lemma BookingCommandKeepsSound(cat: B.Catalog, b: B.Bookings, db: Db, cmd: Command)
    requires b == db.bookings && BS.Sound(cat, b) && Execute(cat, db, cmd).Success?
    requires cmd.CreateAppointment? || cmd.CreateInChannel? || cmd.CancelAppointment? || cmd.CancelInChannel? ||
             cmd.RescheduleAppointment? || cmd.RescheduleInChannel?
    ensures BS.Sound(cat, Execute(cat, db, cmd).value.bookings) && BS.Evolved(b, Execute(cat, db, cmd).value.bookings)
  {
    match cmd
    case CreateAppointment(c) => BS.CreateKeepsSound(cat, b, c);
    case CreateInChannel(c) => BS.CreateKeepsSound(cat, b, c.AsRequest());
    case CancelAppointment(c) => BS.CancelKeepsSound(cat, b, c);
    case CancelInChannel(c) => BS.ChannelCancelKeepsSound(cat, b, c);
    case RescheduleAppointment(c) => BS.RescheduleKeepsSound(cat, b, c);
    case RescheduleInChannel(c) => BS.ChannelRescheduleKeepsSound(cat, b, c);
  }

  lemma OutcomeKeepsSound(cat: B.Catalog, db: Db, c: B.OutcomeRequest, newEntryId: Id, db': Db)
    requires Sound(cat, db) && ApplyOutcome(db, c, newEntryId) == Success(db')
    ensures Sound(cat, db') && Evolved(db, db')
  {
    hide ApplyOutcome, B.ApplyOutcome, BS.Sound, MS.Sound, Linked, BS.Put, BS.Puttable, BS.Evolved, MS.Evolved, Earn;
    var b' := OutcomeShape(db, c, newEntryId, db');
    MS.EvolvedIsReflexive(db.money);
    BS.OutcomeKeepsSound(cat, db.bookings, c);
    BS.OutcomeWritesUnlessReplayed(cat, db.bookings, c);
    if b' != db.bookings {
      var a, u, e := BS.OutcomeWrites(cat, db.bookings, c, b');
      WrittenOutcomeIsSound(cat, db, c, u, e, newEntryId, db');
    }
  }

  /** The booking part of an outcome, and whether the commission part follows. */
  lemma OutcomeShape(db: Db, c: B.OutcomeRequest, newEntryId: Id, db': Db) returns (b': B.Bookings)
    requires ApplyOutcome(db, c, newEntryId) == Success(db')
    ensures B.ApplyOutcome(db.bookings, c).Success? && b' == B.ApplyOutcome(db.bookings, c).value.bookings == db'.bookings
    ensures if c.outcome.Complete? && B.ByTimelineKey(db.bookings.timeline, c).None?
            then Earn(db.(bookings := b'), c.tenant, c.appointment, newEntryId) == Success(db')
            else db' == db.(bookings := b')
  {
    b' := B.ApplyOutcome(db.bookings, c).value.bookings;
  }

  lemma WrittenOutcomeIsSound(cat: B.Catalog, db: Db, c: B.OutcomeRequest, u: B.Appointment, e: B.TimelineEvent, newEntryId: Id, db': Db)
    requires Sound(cat, db) && BS.Puttable(cat, db.bookings, u, e, [])
    requires u.id == c.appointment && u.tenant == c.tenant && u.id in db.bookings.appointments
    requires c.outcome.Complete? <==> u.status.COMPLETED?
    requires var moved := db.(bookings := BS.Put(db.bookings, u, e, []));
             if c.outcome.Complete? then Earn(moved, c.tenant, c.appointment, newEntryId) == Success(db') else db' == moved
    ensures Linked(db') && MS.Sound(db'.money) && MS.Evolved(db.money, db'.money)
    ensures db'.bookings == BS.Put(db.bookings, u, e, [])
  {
    var moved := db.(bookings := BS.Put(db.bookings, u, e, []));
    if c.outcome.Complete? {
      CompletionKeepsLinked(cat, db, u, e, newEntryId, db');
      EarnedMoneyIsSound(moved, c, newEntryId, db');
    } else {
      PutKeepsLinked(db, u, e, []);
    }
  }

  lemma EarnedMoneyIsSound(moved: Db, c: B.OutcomeRequest, newEntryId: Id, db': Db)
    requires MS.Sound(moved.money) && Earn(moved, c.tenant, c.appointment, newEntryId) == Success(db')
    ensures MS.Sound(db'.money) && MS.Evolved(moved.money, db'.money) && db'.bookings == moved.bookings
  {
    match ConversionOf(moved.bookings.conversions, c.tenant, c.appointment)
    case None =>
    case Some(i) =>
      MS.EarnKeepsSound(moved.money, EarningFor(moved.bookings.conversions[i], newEntryId), db'.money);
  }

  lemma MoneyCommandKeepsSound(db: Db, cmd: Command, db': Db)
    requires MS.Sound(db.money) && Linked(db)
    requires match cmd
             case CreatePayout(c) => M.CreatePayout(db.money, c).Success? && db' == db.(money := M.CreatePayout(db.money, c).value.money)
             case SettlePayout(c) => M.SettlePayout(db.money, c).Success? && db' == db.(money := M.SettlePayout(db.money, c).value.money)
             case ReverseCommission(c) =>
               M.ReverseCommission(db.money, c).Success? && db' == db.(money := M.ReverseCommission(db.money, c).value.money)
             case _ => false
    ensures MS.Sound(db'.money) && MS.Evolved(db.money, db'.money) && Linked(db')
  {
    match cmd
    case CreatePayout(c) =>
      MS.CreateKeepsSound(db.money, c, db'.money);
      LedgerGrowthKeepsLinked(db, db'.money);
    case SettlePayout(c) =>
      MS.SettleKeepsSound(db.money, c, db'.money);
      SettleKeepsLinked(db, c, db'.money);
    case ReverseCommission(c) =>
      MS.ReverseKeepsSound(db.money, c, db'.money);
      ReverseKeepsLinked(db, c, db'.money);
    case _ =>
  }

  lemma SettleKeepsLinked(db: Db, c: M.Settlement, money: M.Money)
    requires Linked(db) && M.SettlePayout(db.money, c).Success? && money == M.SettlePayout(db.money, c).value.money
    ensures Linked(db.(money := money))
  {
    var p := db.money.payouts[M.ById(db.money.payouts, c.owner, c.payoutId).value];
    if p.status.PROCESSING? && c.outcome.PAID? {
      InsertedIsNew(db.money.ledger, M.PaidEntry(p, c));
    }
    LedgerGrowthKeepsLinked(db, money);
  }

  lemma ReverseKeepsLinked(db: Db, c: M.Reversal, money: M.Money)
    requires Linked(db) && M.ReverseCommission(db.money, c).Success? && money == M.ReverseCommission(db.money, c).value.money
    ensures Linked(db.(money := money))
  {
    if M.Existing(db.money.ledger, c).None? {
      var original := db.money.ledger[M.Original(db.money.ledger, c).value];
      InsertedIsNew(db.money.ledger, M.ReversalEntry(original, c));
    }
    LedgerGrowthKeepsLinked(db, money);
  }

  lemma ExecuteKeepsSound(cat: B.Catalog, db: Db, cmd: Command)
    requires Sound(cat, db) && Execute(cat, db, cmd).Success?
    ensures Sound(cat, Execute(cat, db, cmd).value) && Evolved(db, Execute(cat, db, cmd).value)
  {
    hide B.Create, B.Cancel, B.Reschedule, B.RescheduleFromChannel, B.CancelFromChannel, B.ApplyOutcome, ApplyOutcome;
    hide M.CreatePayout, M.SettlePayout, M.ReverseCommission, BS.Sound, MS.Sound, BS.Evolved, MS.Evolved, Linked;
    var db' := Execute(cat, db, cmd).value;
    if cmd.RecordOutcome? {
      OutcomeKeepsSound(cat, db, cmd.outcome, cmd.newEntryId, db');
    } else if cmd.CreatePayout? || cmd.SettlePayout? || cmd.ReverseCommission? {
      MoneyCommandKeepsSound(db, cmd, db');
      BS.EvolvedIsReflexive(db.bookings);
    } else {
      BookingCommandKeepsSound(cat, db.bookings, db, cmd);
      MS.EvolvedIsReflexive(db.money);
      assert db'.money == db.money;
      if db'.bookings != db.bookings {
        BookingCommandKeepsLinked(cat, db, cmd);
      }
    }
  }
}
