/** What the stored appointments, conversions and credits say in every run about the requests that made them. */
module BookingRecords {
  import opened Wrappers
  import opened Errors
  import opened System
  import opened Runs
  import opened Histories
  import opened BookingAnswers
  import B = Bookings
  import M = Money
  import Economics
  import Guarantees

  lemma SeriallyReachable(cat: B.Catalog, commands: seq<Command>)
    requires |commands| > 0 && Serially(cat, commands).Success?
    ensures var rest := commands[..|commands| - 1];
            && Serially(cat, rest).Success? && Reachable(cat, Serially(cat, rest).value)
            && Execute(cat, Serially(cat, rest).value, commands[|commands| - 1]) == Serially(cat, commands)
  {
    SerialIsReachable(cat, commands[..|commands| - 1], Serially(cat, commands[..|commands| - 1]).value);
    hide Execute, Reachable, Sound;
  }

  // ----- conversions -----

  ghost predicate AgreedIn(commands: seq<Command>, cv: B.Conversion) {
    exists c :: CreateAppointment(c) in commands && Agreed(cv, c)
  }

  lemma PaymentsBookNothing(cat: B.Catalog, db: Db, cmd: Command)
    ensures (cmd.CreatePayout? || cmd.SettlePayout? || cmd.ReverseCommission?) && Execute(cat, db, cmd).Success? ==>
              Execute(cat, db, cmd).value.bookings == db.bookings
  {
    hide M.CreatePayout, M.SettlePayout, M.ReverseCommission;
  }

  /** Only a referred booking adds a conversion, and the one it adds is its own. */
  lemma NewConversionIsAgreed(cat: B.Catalog, db: Db, cmd: Command, cv: B.Conversion)
    requires Reachable(cat, db) && Execute(cat, db, cmd).Success?
    requires cv in Execute(cat, db, cmd).value.bookings.conversions && cv !in db.bookings.conversions
    ensures cmd.CreateAppointment? && Agreed(cv, cmd.create)
  {
    PaymentsBookNothing(cat, db, cmd);
    hide Execute, Reachable, StartRefused, KeyTaken, Taken, HoldsMinute, OutcomeRefused, ReferralRefused, AtHome, IdentifiersTaken;
    match cmd
    case CreateAppointment(c) => NewBookingAnswers(cat, db, c);
    case CreateInChannel(c) => ChannelBookingAnswers(cat, db, c);
    case CancelAppointment(c) => CancellationAnswers(cat, db, c);
    case CancelInChannel(c) => ChannelCancellationAnswers(cat, db, c);
    case RescheduleAppointment(c) => MoveAnswers(cat, db, c);
    case RescheduleInChannel(c) => ChannelMoveAnswers(cat, db, c);
    case RecordOutcome(c, id) => OutcomeAnswers(cat, db, c, id);
    case _ =>
  }

  lemma {:induction false} ConversionsAreAgreed(cat: B.Catalog, commands: seq<Command>, cv: B.Conversion)
    requires Serially(cat, commands).Success? && cv in Serially(cat, commands).value.bookings.conversions
    ensures AgreedIn(commands, cv)
  {
    if |commands| > 0 {
      SeriallyReachable(cat, commands);
      var rest, cmd := commands[..|commands| - 1], commands[|commands| - 1];
      var db := Serially(cat, rest).value;
      hide Execute, Reachable, Serially, Agreed;
      if cv in db.bookings.conversions {
        ConversionsAreAgreed(cat, rest, cv);
        var c :| CreateAppointment(c) in rest && Agreed(cv, c);
        assert CreateAppointment(c) in commands;
      } else {
        NewConversionIsAgreed(cat, db, cmd, cv);
        assert CreateAppointment(cmd.create) in commands;
      }
    }
  }

  /**
   Every stored conversion was agreed by a referred booking that committed in the run: its affiliate, currency, service
   and customer are that booking's, its amounts are what the code gives for the price, and nobody refers themselves.
   */
  lemma CommittedConversionsAreAgreed(cat: B.Catalog, states: seq<State>, steps: seq<Step>, i: nat, cv: B.Conversion)
    requires Run(cat, states, steps) && i < |states| && cv in states[i].db.bookings.conversions
    ensures exists c :: CreateAppointment(c) in Committed(cat, states, steps, i) && Agreed(cv, c)
  {
    RunsAreSerial(cat, states, steps, i);
    ConversionsAreAgreed(cat, Committed(cat, states, steps, i), cv);
  }

  /** So every credit is the commission that a committed booking's code gives for its price, on that code's affiliate and in its currency. */
  lemma CreditsAreAgreed(cat: B.Catalog, states: seq<State>, steps: seq<Step>, i: nat, e: M.LedgerEntry)
    requires Run(cat, states, steps) && i < |states| && e in states[i].db.money.ledger && e.entryType.COMMISSION_EARNED?
    ensures exists c :: CreateAppointment(c) in Committed(cat, states, steps, i) && CreditAgreed(e, c)
  {
    EveryStateIsSound(cat, states, steps, i);
    assert CreditHasConversion(e, states[i].db.bookings.conversions);
    var cv :| cv in states[i].db.bookings.conversions && CreditFor(e, cv);
    hide Run, StateSound, Committed;
    CommittedConversionsAreAgreed(cat, states, steps, i, cv);
    var c :| CreateAppointment(c) in Committed(cat, states, steps, i) && Agreed(cv, c);
    assert CreditAgreed(e, c);
  }

  ghost predicate CreditAgreed(e: M.LedgerEntry, c: B.CreateRequest) {
    && c.referral.Some? && c.referral.value.affiliate != c.customer
    && e.conversionId == Some(c.newConversionId) && e.appointmentId == Some(c.newId)
    && e.account == M.Account(M.Owner(c.tenant, c.referral.value.affiliate), c.referral.value.currency)
    && Economics.Supplied(c.referral.value.terms)
    && var terms := Economics.Calculate(c.referral.value.terms, c.referral.value.price, c.referral.value.currency);
       terms.Success? && e.amount == terms.value.commission
  }

  // ----- appointments -----

  /**
   What an appointment's record says about how it came to its status: it was started no more than half an hour early, was
   completed only if it had been started or was over, was missed only after it should have begun, and so on.
   */
  ghost predicate TellsItsStory(a: B.Appointment) {
    && (a.startedAt.Some? ==> a.startsAt - 1_800_000 <= a.startedAt.value)
    && (a.closedAt.None? <==> a.status.PENDING? || a.status.CONFIRMED? || a.status.IN_PROGRESS?)
    && (a.cancellationReason.Some? <==> a.status.CANCELLED?)
    && (a.noShowReason.Some? <==> a.status.NO_SHOW?)
    && (a.outcomeNote.Some? ==> a.status.COMPLETED? || a.status.NO_SHOW?)
    && match a.status
       case PENDING => a.startedAt.None?
       case CONFIRMED => a.startedAt.None?
       case IN_PROGRESS => a.startedAt.Some?
       case CANCELLED => a.startedAt.None?
       case COMPLETED => a.startedAt.Some? || a.endsAt <= a.closedAt.value
       case NO_SHOW => a.startsAt <= a.closedAt.value && (a.noShowReason == Some(B.OTHER) ==> a.outcomeNote.Some?)
  }

  ghost predicate AllTell(appointments: map<Id, B.Appointment>) {
    forall id :: id in appointments ==> TellsItsStory(appointments[id])
  }

  lemma CommandsKeepStories(cat: B.Catalog, db: Db, cmd: Command)
    requires Reachable(cat, db) && AllTell(db.bookings.appointments) && Execute(cat, db, cmd).Success?
    ensures AllTell(Execute(cat, db, cmd).value.bookings.appointments)
  {
    PaymentsBookNothing(cat, db, cmd);
    hide Execute, Reachable, StartRefused, KeyTaken, Taken, HoldsMinute, ReferralRefused, AtHome, IdentifiersTaken, Agreed, TellsItsStory,
         Wrote, IsBooked, IsCancelled, IsMoved;
    match cmd
    case CreateAppointment(c) =>
      NewBookingAnswers(cat, db, c);
      BookingsTellStories(db.bookings, Execute(cat, db, cmd).value.bookings, c);
    case CreateInChannel(c) =>
      ChannelBookingAnswers(cat, db, c);
      BookingsTellStories(db.bookings, Execute(cat, db, cmd).value.bookings,
                          c.request.(key := B.ConversationBooking(c.conversation), referral := None));
    case CancelAppointment(c) =>
      CancellationAnswers(cat, db, c);
      CancellationsTellStories(db.bookings, Execute(cat, db, cmd).value.bookings);
    case CancelInChannel(c) =>
      ChannelCancellationAnswers(cat, db, c);
      CancellationsTellStories(db.bookings, Execute(cat, db, cmd).value.bookings);
    case RescheduleAppointment(c) =>
      MoveAnswers(cat, db, c);
      MovesTellStories(db.bookings, Execute(cat, db, cmd).value.bookings);
    case RescheduleInChannel(c) =>
      ChannelMoveAnswers(cat, db, c);
      MovesTellStories(db.bookings, Execute(cat, db, cmd).value.bookings);
    case RecordOutcome(c, id) => OutcomeKeepsStories(cat, db, c, id);
    case _ =>
  }

  lemma CancellationsTellStories(b: B.Bookings, b': B.Bookings)
    requires AllTell(b.appointments)
    ensures forall a, reason, previous, from, now :: TellsItsStory(a) && Waiting(a) && IsCancelled(b, b', a, reason, previous, from, now) ==>
              AllTell(b'.appointments)
  {
    hide HoldsMinute;
  }

  lemma MovesTellStories(b: B.Bookings, b': B.Bookings)
    requires AllTell(b.appointments)
    ensures forall a, startsAt, endsAt, reason, previous :: TellsItsStory(a) && Waiting(a) && IsMoved(b, b', a, startsAt, endsAt, reason, previous) ==>
              AllTell(b'.appointments)
  {
    hide HoldsMinute;
  }

  lemma BookingsTellStories(b: B.Bookings, b': B.Bookings, c: B.CreateRequest)
    requires AllTell(b.appointments)
    ensures IsBooked(b, b', c) ==> AllTell(b'.appointments)
  {
    hide HoldsMinute, Agreed;
  }

  lemma OutcomeKeepsStories(cat: B.Catalog, db: Db, c: B.OutcomeRequest, id: Id)
    requires Reachable(cat, db) && AllTell(db.bookings.appointments) && Execute(cat, db, RecordOutcome(c, id)).Success?
    ensures AllTell(Execute(cat, db, RecordOutcome(c, id)).value.bookings.appointments)
  {
    hide Execute, Reachable, HoldsMinute, Credited, CreditAdmitted, KeyOf, RecordsRequest, OutcomeRecorded;
    OutcomeAnswers(cat, db, c, id);
  }

  lemma {:induction false} StoriesAreTold(cat: B.Catalog, commands: seq<Command>)
    requires Serially(cat, commands).Success?
    ensures AllTell(Serially(cat, commands).value.bookings.appointments)
  {
    if |commands| > 0 {
      SeriallyReachable(cat, commands);
      StoriesAreTold(cat, commands[..|commands| - 1]);
      hide Execute, Reachable, Serially, TellsItsStory;
      CommandsKeepStories(cat, Serially(cat, commands[..|commands| - 1]).value, commands[|commands| - 1]);
    }
  }

  /** In every state of every run each appointment's record tells how it came to its status. */
  lemma EveryRecordTellsItsStory(cat: B.Catalog, states: seq<State>, steps: seq<Step>, i: nat, id: Id)
    requires Run(cat, states, steps) && i < |states| && id in states[i].db.bookings.appointments
    ensures TellsItsStory(states[i].db.bookings.appointments[id])
  {
    RunsAreSerial(cat, states, steps, i);
    StoriesAreTold(cat, Committed(cat, states, steps, i));
  }

  /** A commission is credited only for an appointment that was completed, and had been started or was over by then. */
  lemma CreditedMeansServed(cat: B.Catalog, states: seq<State>, steps: seq<Step>, i: nat, e: M.LedgerEntry)
    requires Run(cat, states, steps) && i < |states| && e in states[i].db.money.ledger && e.entryType.COMMISSION_EARNED?
    ensures e.appointmentId.Some? && e.appointmentId.value in states[i].db.bookings.appointments
    ensures var a := states[i].db.bookings.appointments[e.appointmentId.value];
            a.status.COMPLETED? && a.closedAt.Some? && (a.startedAt.Some? || a.endsAt <= a.closedAt.value)
  {
    EveryStateIsSound(cat, states, steps, i);
    var db := states[i].db;
    assert CreditHasConversion(e, db.bookings.conversions);
    var cv :| cv in db.bookings.conversions && CreditFor(e, cv);
    Guarantees.CreditedIffCompleted(cat, states, steps, i, cv);
    CreditCounts(db.money.ledger, e, cv.id);
    EveryRecordTellsItsStory(cat, states, steps, i, cv.appointment);
  }

  lemma {:induction false} CreditCounts(ledger: seq<M.LedgerEntry>, e: M.LedgerEntry, conversion: Id)
    requires e in ledger && e.entryType.COMMISSION_EARNED? && e.conversionId == Some(conversion)
    ensures Credits(ledger, conversion) >= 1
  {
    if ledger[|ledger| - 1] != e {
      CreditCounts(ledger[..|ledger| - 1], e, conversion);
    }
  }
}
