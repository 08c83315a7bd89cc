/** What a client sees who sends a request again: nothing happens twice, and the answer is the one the state gives by then. */
module Retries {
  import opened Wrappers
  import opened Errors
  import opened System
  import opened Runs
  import opened AppointmentViews
  import B = Bookings
  import BS = BookingSafety
  import M = Money
  import MS = MoneySafety
  import Availability
  import Guarantees
  import Snapshots
  import Text

  // ----- the same request -----

  /** The event and digest say everything that an outcome request asks for; a note counts as it is trimmed. */
  predicate SameOutcome(c: B.OutcomeRequest, d: B.OutcomeRequest) {
    && d.tenant == c.tenant && d.appointment == c.appointment && d.key == c.key
    && B.OutcomeEvent(d.outcome) == B.OutcomeEvent(c.outcome) && B.OutcomeDigest(d.outcome) == B.OutcomeDigest(c.outcome)
  }

  /**
   The client sends the same again. The clock, the generated ids, the agenda, the referral and every other fact that
   is looked up may have changed, except that a customer who exists stays, since customers are never removed.
   */
  predicate SameRequest(cmd: Command, retry: Command) {
    match (cmd, retry)
    case (CreateAppointment(c), CreateAppointment(d)) =>
      d.tenant == c.tenant && d.key == c.key && d.fingerprint == c.fingerprint
    case (CreateInChannel(c), CreateInChannel(d)) =>
      d.conversation == c.conversation && d.request.tenant == c.request.tenant && d.request.fingerprint == c.request.fingerprint
    case (CancelAppointment(c), CancelAppointment(d)) => d.access == c.access && Text.Trim(d.reason) == Text.Trim(c.reason)
    case (CancelInChannel(c), CancelInChannel(d)) => d.tenant == c.tenant && d.customer == c.customer && d.appointment == c.appointment
    case (RescheduleAppointment(c), RescheduleAppointment(d)) => d.access == c.access && d.startsAt == c.startsAt
    case (RescheduleInChannel(c), RescheduleInChannel(d)) =>
      && d.command.tenant == c.command.tenant && d.command.customer == c.command.customer
      && d.command.appointment == c.command.appointment && d.startsAt == c.startsAt
    case (RecordOutcome(c, _), RecordOutcome(d, _)) => SameOutcome(c, d)
    case (CreatePayout(c), CreatePayout(d)) =>
      && d.account == c.account && d.amount == c.amount && d.key == c.key && d.reference == c.reference
      && (c.customerExists ==> d.customerExists)
    case (SettlePayout(c), SettlePayout(d)) =>
      d.owner == c.owner && d.payoutId == c.payoutId && d.outcome == c.outcome && d.key == c.key && d.text == c.text
    case (ReverseCommission(c), ReverseCommission(d)) =>
      d.tenant == c.tenant && d.entryId == c.entryId && d.key == c.key && Text.Trim(d.reason) == Text.Trim(c.reason)
    case _ => false
  }

  // ----- retries -----

  /** Commands that carry a key, or that name the state they ask for. */
  predicate Repeatable(cmd: Command) {
    !cmd.CancelInChannel? && !cmd.RescheduleAppointment? && !cmd.RescheduleInChannel?
  }

  /** A request that once succeeded succeeds again at any later time and changes nothing. */
  lemma RetriesAreNoOps(cat: B.Catalog, db: Db, cmd: Command, retry: Command, later: Db)
    requires Sound(cat, db) && Sound(cat, later) && Repeatable(cmd) && SameRequest(cmd, retry)
    requires Execute(cat, db, cmd).Success? && Evolved(Execute(cat, db, cmd).value, later)
    ensures Execute(cat, later, retry) == Success(later)
  {
    hide Sound, Evolved, B.Create, B.Cancel, B.ApplyOutcome, M.CreatePayout, M.SettlePayout, M.ReverseCommission, ApplyOutcome;
    ExecuteKeepsSound(cat, db, cmd);
    SoundParts(cat, later);
    SoundParts(cat, db);
    var done := Execute(cat, db, cmd).value;
    EvolvedParts(done, later);
    match (cmd, retry)
    case (CreateAppointment(c), CreateAppointment(d)) => CreateAgain(cat, db.bookings, c, d, later.bookings);
    case (CreateInChannel(c), CreateInChannel(d)) => CreateAgain(cat, db.bookings, c.AsRequest(), d.AsRequest(), later.bookings);
    case (CancelAppointment(c), CancelAppointment(d)) => CancelAgain(cat, db.bookings, c, d, later.bookings);
    case (RecordOutcome(c, id), RecordOutcome(d, id')) => OutcomeAgain(cat, db, c, id, done, d, id', later);
    case (CreatePayout(c), CreatePayout(d)) => PayoutAgain(db.money, c, d, later.money);
    case (SettlePayout(c), SettlePayout(d)) => SettleAgain(db.money, c, d, later.money);
    case (ReverseCommission(c), ReverseCommission(d)) => ReverseAgain(db.money, c, d, later.money);
  }

  /** A repeatable request that committed in a run can be sent again in every later state of the run without effect. */
  lemma CommittedCommandsRepeat(cat: B.Catalog, states: seq<State>, steps: seq<Step>, i: nat, j: nat, retry: Command)
    requires Run(cat, states, steps) && i < j < |states| && steps[i].Commit? && steps[i].id in states[i].running
    requires Repeatable(states[i].running[steps[i].id].command) && SameRequest(states[i].running[steps[i].id].command, retry)
    ensures Execute(cat, states[j].db, retry) == Success(states[j].db)
  {
    hide Sound, Evolved, Execute, SameRequest;
    var t := states[i].running[steps[i].id];
    EveryStateIsSound(cat, states, steps, i);
    EveryStateIsSound(cat, states, steps, j);
    assert StepTaken(cat, states, steps, i);
    var v := Execute(cat, t.snapshot, t.command).value;
    CommitIsSerial(cat, t.snapshot, states[i].db, t.command, v);
    if v == t.snapshot {
      LaterStatesEvolve(cat, states, steps, i, j);
      EvolvedIsTransitive(t.snapshot, states[i].db, states[j].db);
      RetriesAreNoOps(cat, t.snapshot, t.command, retry, states[j].db);
    } else {
      LaterStatesEvolve(cat, states, steps, i + 1, j);
      RetriesAreNoOps(cat, states[i].db, t.command, retry, states[j].db);
    }
  }

  /**
   Whether repeating a request that took effect still succeeds: keyed commands and cancellations do, a move does while
   the appointment is active at that start, and the channel's cancellations and moves do not.
   */
  predicate AnsweredAgain(cmd: Command, later: Db) {
    match cmd
    case CancelInChannel(_) => false
    case RescheduleInChannel(_) => false
    case RescheduleAppointment(c) =>
      && c.access.appointment in later.bookings.appointments
      && B.Active(later.bookings.appointments[c.access.appointment].status)
      && later.bookings.appointments[c.access.appointment].startsAt == c.startsAt
    case _ => true
  }

  /** No request takes effect twice: repeated in any later state it changes nothing, and it succeeds exactly if `AnsweredAgain`. */
  lemma EveryCommandTakesEffectOnce(cat: B.Catalog, db: Db, cmd: Command, retry: Command, later: Db)
    requires Sound(cat, db) && Sound(cat, later) && SameRequest(cmd, retry)
    requires Execute(cat, db, cmd).Success? && Execute(cat, db, cmd).value != db && Evolved(Execute(cat, db, cmd).value, later)
    ensures Execute(cat, later, retry).Success? <==> AnsweredAgain(cmd, later)
    ensures Execute(cat, later, retry).Success? ==> Execute(cat, later, retry).value == later
  {
    hide Sound, Evolved, B.Create, B.Cancel, B.ApplyOutcome, B.Reschedule, B.CancelFromChannel, B.RescheduleFromChannel,
         M.CreatePayout, M.SettlePayout, M.ReverseCommission, ApplyOutcome;
    if Repeatable(cmd) {
      RetriesAreNoOps(cat, db, cmd, retry, later);
    } else {
      SoundParts(cat, db);
      SoundParts(cat, later);
      EvolvedParts(Execute(cat, db, cmd).value, later);
      match (cmd, retry)
      case (RescheduleAppointment(c), RescheduleAppointment(d)) => MoveAgain(cat, db.bookings, c, d, later.bookings);
      case (RescheduleInChannel(c), RescheduleInChannel(d)) => ChannelMoveAgain(cat, db.bookings, c, d, later.bookings);
      case (CancelInChannel(c), CancelInChannel(d)) => ChannelCancelAgain(cat, db.bookings, c, d, later.bookings);
    }
  }

  /** A request that took effect when it committed never takes effect again later in the run. */
  lemma CommittedCommandsTakeEffectOnce(cat: B.Catalog, states: seq<State>, steps: seq<Step>, i: nat, j: nat, retry: Command)
    requires Run(cat, states, steps) && i < j < |states| && steps[i].Commit? && steps[i].id in states[i].running
    requires Writes(cat, states[i].running[steps[i].id]) && SameRequest(states[i].running[steps[i].id].command, retry)
    ensures Execute(cat, states[j].db, retry).Success? <==> AnsweredAgain(states[i].running[steps[i].id].command, states[j].db)
    ensures Execute(cat, states[j].db, retry).Success? ==> Execute(cat, states[j].db, retry).value == states[j].db
  {
    hide Sound, Evolved, Execute, SameRequest;
    var t := states[i].running[steps[i].id];
    EveryStateIsSound(cat, states, steps, i);
    EveryStateIsSound(cat, states, steps, j);
    assert StepTaken(cat, states, steps, i);
    var v := Execute(cat, t.snapshot, t.command).value;
    CommitIsSerial(cat, t.snapshot, states[i].db, t.command, v);
    LaterStatesEvolve(cat, states, steps, i + 1, j);
    CommitWrites(t.snapshot, v, states[i].db);
    EveryCommandTakesEffectOnce(cat, states[i].db, t.command, retry, states[j].db);
  }

  /** A transaction that wrote something in its session changes the state it commits onto. */
  lemma CommitWrites(s: Db, v: Db, c: Db)
    requires CanCommit(s, v, c) && v != s
    ensures Merge(s, v, c) != c
  {
    hide BS.CanCommit, MS.CanCommit, BS.Merge, MS.Merge;
    if v.bookings != s.bookings {
      BookingCommitWrites(s.bookings, v.bookings, c.bookings);
    } else {
      MoneyCommitWrites(s.money, v.money, c.money);
    }
  }

  lemma BookingCommitWrites(s: B.Bookings, v: B.Bookings, c: B.Bookings)
    requires BS.CanCommit(s, v, c) && v != s
    ensures BS.Merge(s, v, c) != c
  {
    hide B.TimelineUnique, B.ConversionsUnique, B.BookingKeysUnique;
    if v.appointments != s.appointments {
      Snapshots.MergeChanges(s.appointments, v.appointments, c.appointments);
    } else if v.locks != s.locks {
      Snapshots.MergeChanges(s.locks, v.locks, c.locks);
    } else if v.timeline != s.timeline {
      assert |BS.Merge(s, v, c).timeline| > |c.timeline|;
    } else {
      assert |BS.Merge(s, v, c).conversions| > |c.conversions|;
    }
  }

  lemma MoneyCommitWrites(s: M.Money, v: M.Money, c: M.Money)
    requires MS.CanCommit(s, v, c) && v != s
    ensures MS.Merge(s, v, c) != c
  {
    hide M.LedgerUnique, M.PayoutsUnique;
    if v.balanceLocks != s.balanceLocks {
      Snapshots.MergeChanges(s.balanceLocks, v.balanceLocks, c.balanceLocks);
    } else if v.capacityLocks != s.capacityLocks {
      Snapshots.MergeChanges(s.capacityLocks, v.capacityLocks, c.capacityLocks);
    } else if v.payouts != s.payouts {
      Snapshots.MergeChangesRows(s.payouts, v.payouts, c.payouts);
    } else {
      assert |MS.Merge(s, v, c).ledger| > |c.ledger|;
    }
  }

  lemma SoundParts(cat: B.Catalog, db: Db)
    requires Sound(cat, db)
    ensures BS.Sound(cat, db.bookings) && MS.Sound(db.money)
  {
  }

  lemma EvolvedParts(s: Db, c: Db)
    requires Evolved(s, c)
    ensures BS.Evolved(s.bookings, c.bookings) && MS.Evolved(s.money, c.money)
  {
  }

  lemma CreateAgain(cat: B.Catalog, b: B.Bookings, c: B.CreateRequest, d: B.CreateRequest, later: B.Bookings)
    requires BS.Sound(cat, b) && BS.Sound(cat, later) && B.Create(cat, b, c).Success?
    requires BS.Evolved(B.Create(cat, b, c).value.bookings, later)
    requires d.tenant == c.tenant && d.key == c.key && d.fingerprint == c.fingerprint
    ensures B.Create(cat, later, d).Success? && B.Create(cat, later, d).value.bookings == later
  {
    var done := B.Create(cat, b, c).value;
    StoredUnderKey(cat, b, c);
    var id := done.appointment.id;
    assert BS.AppointmentEvolves(done.bookings.appointments[id], later.appointments[id]);
    KeyIsFound(later, d, id);
  }

  lemma StoredUnderKey(cat: B.Catalog, b: B.Bookings, c: B.CreateRequest)
    requires BS.Sound(cat, b) && B.Create(cat, b, c).Success?
    ensures var done := B.Create(cat, b, c).value;
            && B.HasKey(done.bookings, c.tenant, c.key, done.appointment.id)
            && done.bookings.appointments[done.appointment.id].fingerprint == c.fingerprint
  {
    if !B.SomeWithKey(b, c.tenant, c.key) {
      BS.CreateIsPut(cat, b, c);
      var done := B.Create(cat, b, c).value;
      assert done.bookings != b by {
        assert done.appointment.id !in b.appointments && done.appointment.id in done.bookings.appointments;
      }
    } else {
      assert B.HasKey(b, c.tenant, c.key, B.ByKey(b, c.tenant, c.key));
    }
  }

  lemma KeyIsFound(b: B.Bookings, c: B.CreateRequest, id: Id)
    requires B.BookingKeysUnique(b.appointments) && B.HasKey(b, c.tenant, c.key, id)
    ensures B.SomeWithKey(b, c.tenant, c.key) && B.ByKey(b, c.tenant, c.key) == id
  {
    assert B.HasKey(b, c.tenant, c.key, B.ByKey(b, c.tenant, c.key));
  }

  lemma CancelAgain(cat: B.Catalog, b: B.Bookings, c: B.CancelRequest, d: B.CancelRequest, later: B.Bookings)
    requires BS.Sound(cat, b) && B.Cancel(b, c).Success? && BS.Evolved(B.Cancel(b, c).value.bookings, later)
    requires d.access == c.access && Text.Trim(d.reason) == Text.Trim(c.reason)
    ensures B.Cancel(later, d).Success? && B.Cancel(later, d).value.bookings == later
  {
    hide BS.LocksExact, B.BookingKeysUnique, B.TimelineUnique, BS.ConversionsAnchored, B.Release, B.EventInsertable;
    var done := B.Cancel(b, c).value;
    var id := c.access.appointment;
    assert BS.AppointmentEvolves(done.bookings.appointments[id], later.appointments[id]);
  }

  /** The event of a move that was made keeps its key taken. */
  lemma MoveIsRecorded(cat: B.Catalog, b: B.Bookings, a: B.Appointment, startsAt: int, endsAt: int, reason: Option<string>,
                       previous: Option<B.Previous>, later: B.Bookings)
    requires BS.Sound(cat, b) && a.id in b.appointments && b.appointments[a.id] == a && B.Active(a.status)
    requires B.RescheduleWith(b, a, startsAt, endsAt, reason, previous).Success?
    requires BS.Evolved(B.RescheduleWith(b, a, startsAt, endsAt, reason, previous).value.bookings, later)
    ensures a.id in later.appointments && BS.AppointmentEvolves(B.MovedTo(a, startsAt, endsAt), later.appointments[a.id])
    ensures !Guarantees.NeverMovedTo(later, later.appointments[a.id], startsAt)
  {
    BS.RescheduleIsPut(cat, b, a, startsAt, endsAt, reason, previous);
    var e, done := B.MoveEvent(a, startsAt, endsAt, reason, previous), B.RescheduleWith(b, a, startsAt, endsAt, reason, previous).value.bookings;
    hide BS.Sound, BS.Puttable, BS.LocksAfter, B.RescheduleWith, BS.AppointmentEvolves;
    assert done.timeline[|b.timeline|] == e;
    assert later.timeline[|b.timeline|] == e;
    assert BS.AppointmentEvolves(done.appointments[a.id], later.appointments[a.id]);
    SameOwnership(done.appointments[a.id], later.appointments[a.id]);
  }

  lemma SameOwnership(a: B.Appointment, z: B.Appointment)
    requires BS.AppointmentEvolves(a, z)
    ensures z.id == a.id && z.tenant == a.tenant && z.customer == a.customer
  {
  }

  /** A start whose key is taken is refused, whatever the agenda says. */
  lemma TakenStartIsRefused(cat: B.Catalog, b: B.Bookings, a: B.Appointment, startsAt: int, endsAt: int, reason: Option<string>,
                            previous: Option<B.Previous>)
    requires BS.Sound(cat, b) && a.id in b.appointments && b.appointments[a.id] == a && B.Active(a.status)
    requires !Guarantees.NeverMovedTo(b, a, startsAt)
    ensures B.RescheduleWith(b, a, startsAt, endsAt, reason, previous).Failure?
  {
    BS.RescheduleIsPut(cat, b, a, startsAt, endsAt, reason, previous);
    var e :| e in b.timeline && e.tenant == a.tenant && e.appointment == a.id && e.key == B.RescheduledKey(startsAt);
    assert !B.EventsCoexist(e, B.MoveEvent(a, startsAt, endsAt, reason, previous));
  }

  lemma MoveAgain(cat: B.Catalog, b: B.Bookings, c: B.RescheduleRequest, d: B.RescheduleRequest, later: B.Bookings)
    requires BS.Sound(cat, b) && BS.Sound(cat, later) && d.access == c.access && d.startsAt == c.startsAt
    requires B.Reschedule(b, c).Success? && B.Reschedule(b, c).value.bookings != b && BS.Evolved(B.Reschedule(b, c).value.bookings, later)
    ensures var id := c.access.appointment;
            B.Reschedule(later, d).Success? <==>
            id in later.appointments && B.Active(later.appointments[id].status) && later.appointments[id].startsAt == c.startsAt
    ensures B.Reschedule(later, d).Success? ==> B.Reschedule(later, d).value.bookings == later
  {
    hide BS.Evolved, B.RescheduleWith, Availability.Verdict, Guarantees.NeverMovedTo;
    var a := b.appointments[c.access.appointment];
    WellFormedId(cat, b, a.id, c.access.appointment);
    MoveIsRecorded(cat, b, a, c.startsAt, B.EndOf(c.agenda, c.startsAt), B.Trimmed(c.reason),
                   Some(B.Previous(a.status, a.startsAt, a.endsAt)), later);
    var z := later.appointments[a.id];
    if B.Active(z.status) && z.startsAt != c.startsAt {
      TakenStartIsRefused(cat, later, z, d.startsAt, B.EndOf(d.agenda, d.startsAt), B.Trimmed(d.reason),
                          Some(B.Previous(z.status, z.startsAt, z.endsAt)));
    }
  }

  lemma WellFormedId(cat: B.Catalog, b: B.Bookings, id: Id, key: Id)
    requires BS.Sound(cat, b) && key in b.appointments && b.appointments[key].id == id
    ensures id == key
  {
  }

  lemma ChannelMoveAgain(cat: B.Catalog, b: B.Bookings, c: B.ChannelReschedule, d: B.ChannelReschedule, later: B.Bookings)
    requires BS.Sound(cat, b) && BS.Sound(cat, later)
    requires d.command.tenant == c.command.tenant && d.command.customer == c.command.customer
    requires d.command.appointment == c.command.appointment && d.startsAt == c.startsAt
    requires B.RescheduleFromChannel(b, c).Success? && BS.Evolved(B.RescheduleFromChannel(b, c).value.bookings, later)
    ensures B.RescheduleFromChannel(later, d).Failure?
  {
    hide BS.Evolved, B.RescheduleWith, Availability.Verdict, Guarantees.NeverMovedTo;
    var a := b.appointments[c.command.appointment];
    WellFormedId(cat, b, a.id, c.command.appointment);
    MoveIsRecorded(cat, b, a, c.startsAt, B.EndOf(c.agenda, c.startsAt), None, None, later);
    var z := later.appointments[a.id];
    if B.Active(z.status) {
      TakenStartIsRefused(cat, later, z, d.startsAt, B.EndOf(d.agenda, d.startsAt), None, None);
    }
  }

  lemma ChannelCancelAgain(cat: B.Catalog, b: B.Bookings, c: B.ChannelCommand, d: B.ChannelCommand, later: B.Bookings)
    requires BS.Sound(cat, b) && B.CancelFromChannel(b, c).Success? && BS.Evolved(B.CancelFromChannel(b, c).value.bookings, later)
    requires d.tenant == c.tenant && d.customer == c.customer && d.appointment == c.appointment
    ensures B.CancelFromChannel(later, d).Failure?
  {
    var done := B.CancelFromChannel(b, c).value;
    WellFormedId(cat, b, b.appointments[c.appointment].id, c.appointment);
    hide BS.Sound, B.Release, B.EventInsertable;
    assert BS.AppointmentEvolves(done.bookings.appointments[c.appointment], later.appointments[c.appointment]);
  }

  lemma OutcomeAgain(cat: B.Catalog, db: Db, c: B.OutcomeRequest, id: Id, done: Db, d: B.OutcomeRequest, id': Id, later: Db)
    requires BS.Sound(cat, db.bookings) && BS.Sound(cat, later.bookings) && SameOutcome(c, d)
    requires ApplyOutcome(db, c, id) == Success(done) && BS.Evolved(done.bookings, later.bookings)
    ensures ApplyOutcome(later, d, id') == Success(later)
  {
    var b := OutcomeShape(db, c, id, done);
    var n := RecordedOutcomeReplays(cat, db.bookings, c, b, d, later.bookings);
  }

  /**
   A repeated outcome request is answered with the appointment and the clock as they are by then. That is the original
   answer exactly if the request was not a start, or the appointment is still in progress and is overdue at both
   times or at neither.
   */
  lemma OutcomeIsAnsweredAgain(cat: B.Catalog, b: B.Bookings, c: B.OutcomeRequest, d: B.OutcomeRequest, later: B.Bookings)
    requires BS.Sound(cat, b) && BS.Sound(cat, later) && SameOutcome(c, d)
    requires B.ApplyOutcome(b, c).Success? && B.ByTimelineKey(b.timeline, c).None?
    requires BS.Evolved(B.ApplyOutcome(b, c).value.bookings, later)
    ensures c.appointment in later.appointments
    ensures B.ApplyOutcome(later, d) == Success(B.Reply(later, later.appointments[c.appointment]))
    ensures var a := later.appointments[c.appointment];
            ViewOf(B.ApplyOutcome(later, d).value.appointment, d.now) == ViewOf(B.ApplyOutcome(b, c).value.appointment, c.now) <==>
            !c.outcome.Start? || (a.status.IN_PROGRESS? && (a.endsAt <= c.now <==> a.endsAt <= d.now))
  {
    var first := B.ApplyOutcome(b, c).value;
    FirstAnswer(cat, b, c, first);
    var n := RecordedOutcomeReplays(cat, b, c, first.bookings, d, later);
    hide B.ApplyOutcome, BS.Sound;
    assert BS.AppointmentEvolves(first.bookings.appointments[c.appointment], later.appointments[c.appointment]);
  }

  /** The first answer to an outcome command is the stored appointment, which is closed unless it was only started. */
  lemma FirstAnswer(cat: B.Catalog, b: B.Bookings, c: B.OutcomeRequest, first: B.Reply)
    requires BS.Sound(cat, b) && B.ApplyOutcome(b, c) == Success(first) && B.ByTimelineKey(b.timeline, c).None?
    ensures c.appointment in first.bookings.appointments && first.bookings.appointments[c.appointment] == first.appointment
    ensures if c.outcome.Start? then first.appointment.status.IN_PROGRESS? else !B.Live(first.appointment.status)
  {
    BS.OutcomeIsPut(cat, b, c);
    hide BS.Puttable, BS.Sound;
  }

  /** The event of an outcome that succeeded answers every later request that asks for the same. */
  lemma RecordedOutcomeReplays(cat: B.Catalog, b: B.Bookings, c: B.OutcomeRequest, b': B.Bookings, d: B.OutcomeRequest,
                               later: B.Bookings)
    returns (n: nat)
    requires BS.Sound(cat, b) && B.ApplyOutcome(b, c).Success? && b' == B.ApplyOutcome(b, c).value.bookings
    requires BS.Sound(cat, later) && BS.Evolved(b', later) && SameOutcome(c, d)
    ensures n < |later.timeline| && B.ByTimelineKey(later.timeline, d) == Some(n)
    ensures c.appointment in later.appointments
    ensures B.ApplyOutcome(later, d) == Success(B.Reply(later, later.appointments[c.appointment]))
  {
    n := RecordedAt(cat, b, c, b');
    hide BS.LocksExact, BS.AppointmentsWellFormed, BS.TimelineTells, BS.ConversionsAnchored;
    assert later.timeline[n] == b'.timeline[n];
    assert BS.AppointmentEvolves(b'.appointments[c.appointment], later.appointments[c.appointment]);
    EventAnswers(later, n, d);
  }

  lemma EventAnswers(b: B.Bookings, n: nat, d: B.OutcomeRequest)
    requires B.TimelineUnique(b.timeline) && n < |b.timeline| && B.Loads(b, B.Access(d.tenant, d.appointment, None))
    requires !(d.outcome.Missed? && d.outcome.reason.OTHER? && B.NormalizedNote(d.outcome.note).None?)
    requires var e := b.timeline[n];
             && e.tenant == d.tenant && e.appointment == d.appointment && e.key == d.key
             && e.eventType == B.OutcomeEvent(d.outcome) && e.fingerprint == B.OutcomeDigest(d.outcome)
    ensures B.ByTimelineKey(b.timeline, d) == Some(n)
    ensures B.ApplyOutcome(b, d) == Success(B.Reply(b, b.appointments[d.appointment]))
  {
    EventIsFound(b.timeline, n, d);
  }

  /** Where the timeline holds the event of an outcome that succeeded. */
  lemma RecordedAt(cat: B.Catalog, b: B.Bookings, c: B.OutcomeRequest, b': B.Bookings) returns (n: nat)
    requires BS.Sound(cat, b) && B.ApplyOutcome(b, c).Success? && b' == B.ApplyOutcome(b, c).value.bookings
    ensures n < |b'.timeline| && B.Loads(b', B.Access(c.tenant, c.appointment, None))
    ensures !(c.outcome.Missed? && c.outcome.reason.OTHER? && B.NormalizedNote(c.outcome.note).None?)
    ensures var e := b'.timeline[n];
            && e.tenant == c.tenant && e.appointment == c.appointment && e.key == c.key
            && e.eventType == B.OutcomeEvent(c.outcome) && e.fingerprint == B.OutcomeDigest(c.outcome)
  {
    BS.OutcomeWritesUnlessReplayed(cat, b, c);
    if b' != b {
      var a, u, e := BS.OutcomeWrites(cat, b, c, b');
      n := |b.timeline|;
    } else {
      n := B.ByTimelineKey(b.timeline, c).value;
    }
  }

  lemma EventIsFound(timeline: seq<B.TimelineEvent>, n: nat, c: B.OutcomeRequest)
    requires B.TimelineUnique(timeline) && n < |timeline|
    requires timeline[n].tenant == c.tenant && timeline[n].appointment == c.appointment && timeline[n].key == c.key
    ensures B.ByTimelineKey(timeline, c) == Some(n)
  {
    forall j | 0 <= j < n
      ensures !(timeline[j].tenant == c.tenant && timeline[j].appointment == c.appointment && timeline[j].key == c.key)
    {
      assert B.EventsCoexist(timeline[j], timeline[n]);
    }
  }

  lemma PayoutAgain(m: M.Money, c: M.PayoutRequest, d: M.PayoutRequest, later: M.Money)
    requires MS.Sound(m) && MS.Sound(later) && M.CreatePayout(m, c).Success? && MS.Evolved(M.CreatePayout(m, c).value.money, later)
    requires d.account == c.account && d.amount == c.amount && d.key == c.key && d.reference == c.reference
    requires c.customerExists ==> d.customerExists
    ensures M.CreatePayout(later, d).Success? && M.CreatePayout(later, d).value.money == later
  {
    hide MS.BalanceGuarded, MS.CapacityGuarded, MS.SettlementsMatch, MS.Solvent, MS.ReversalsMatch, MS.WithinCapacity, MS.TerminalKeysSet,
         M.LedgerUnique, M.Balance, M.Reserved, M.Processing;
    var done := M.CreatePayout(m, c).value.money;
    MS.CreateAdmits(m, c);
    var found := M.ByCreateKey(m.payouts, c.account.owner.tenant, c.key);
    var n := if found.Some? then found.value else |m.payouts|;
    assert MS.PayoutEvolves(done.payouts[n], later.payouts[n]);
    forall j | 0 <= j < n ensures !(later.payouts[j].account.owner.tenant == c.account.owner.tenant && later.payouts[j].createKey == c.key) {
      assert M.PayoutsCoexist(later.payouts[j], later.payouts[n]);
    }
    assert M.ByCreateKey(later.payouts, c.account.owner.tenant, c.key) == Some(n);
  }

  lemma SettleAgain(m: M.Money, c: M.Settlement, d: M.Settlement, later: M.Money)
    requires MS.Sound(m) && MS.Sound(later) && M.SettlePayout(m, c).Success? && MS.Evolved(M.SettlePayout(m, c).value.money, later)
    requires d.owner == c.owner && d.payoutId == c.payoutId && d.outcome == c.outcome && d.key == c.key && d.text == c.text
    ensures M.SettlePayout(later, d).Success? && M.SettlePayout(later, d).value.money == later
  {
    var done := M.SettlePayout(m, c).value.money;
    var n := M.ById(m.payouts, c.owner, c.payoutId).value;
    SettledAsAsked(m, c);
    assert M.TerminalReplay(done.payouts[n], d) == M.TerminalReplay(done.payouts[n], c);
    hide M.SettlePayout, MS.BalanceGuarded, MS.CapacityGuarded, MS.SettlementsMatch, MS.Solvent, MS.ReversalsMatch, M.TerminalReplay;
    assert MS.PayoutEvolves(done.payouts[n], later.payouts[n]);
    forall j | 0 <= j < n ensures later.payouts[j].id != c.payoutId {
      assert M.PayoutsCoexist(later.payouts[j], later.payouts[n]);
    }
    assert M.ById(later.payouts, c.owner, c.payoutId) == Some(n);
    SettledIsReplayed(later, d, n);
  }

  /** A settlement that succeeds leaves a payout that ended exactly as it asked. */
  lemma SettledAsAsked(m: M.Money, c: M.Settlement)
    requires M.SettlePayout(m, c).Success?
    ensures M.ById(m.payouts, c.owner, c.payoutId).Some?
    ensures var n, done := M.ById(m.payouts, c.owner, c.payoutId).value, M.SettlePayout(m, c).value.money;
            && n < |done.payouts| && !done.payouts[n].status.PROCESSING?
            && done.payouts[n].id == c.payoutId && done.payouts[n].account.owner == c.owner
            && M.TerminalReplay(done.payouts[n], c) == Success(done.payouts[n])
  {
  }

  lemma SettledIsReplayed(m: M.Money, c: M.Settlement, n: nat)
    requires M.ById(m.payouts, c.owner, c.payoutId) == Some(n) && !m.payouts[n].status.PROCESSING?
    requires M.TerminalReplay(m.payouts[n], c) == Success(m.payouts[n])
    ensures M.SettlePayout(m, c).Success? && M.SettlePayout(m, c).value.money == m
  {
  }

  lemma ReverseAgain(m: M.Money, r: M.Reversal, q: M.Reversal, later: M.Money)
    requires MS.Sound(m) && MS.Sound(later) && M.ReverseCommission(m, r).Success?
    requires MS.Evolved(M.ReverseCommission(m, r).value.money, later)
    requires q.tenant == r.tenant && q.entryId == r.entryId && q.key == r.key && Text.Trim(q.reason) == Text.Trim(r.reason)
    ensures M.ReverseCommission(later, q).Success? && M.ReverseCommission(later, q).value.money == later
  {
    hide MS.BalanceGuarded, MS.CapacityGuarded, MS.SettlementsMatch, MS.Solvent, MS.ReversalsMatch, MS.WithinCapacity, MS.TerminalKeysSet,
         MS.PayoutEvolves, M.PayoutsUnique, M.EntriesCoexist, M.Balance, M.Reserved;
    var done := M.ReverseCommission(m, r).value;
    assert m.ledger <= done.money.ledger;
    MS.OriginalIsStable(m.ledger, later.ledger, r);
    SameOriginal(later.ledger, r, q);
    var e := done.entry;
    assert e in done.money.ledger && e in later.ledger && M.MatchesReversal(e, q);
    var j := M.Existing(later.ledger, q).value;
    VerdictIsUnambiguous(later.ledger, q, e, later.ledger[j]);
  }

  lemma SameOriginal(ledger: seq<M.LedgerEntry>, r: M.Reversal, q: M.Reversal)
    requires q.tenant == r.tenant && q.entryId == r.entryId
    ensures M.Original(ledger, q) == M.Original(ledger, r)
  {
    var x, y := M.Original(ledger, r), M.Original(ledger, q);
    assert x.Some? ==> ledger[x.value].id == q.entryId;
    assert y.Some? ==> ledger[y.value].id == r.entryId;
  }

  /** Whichever matching row the replay query returns, the verdict is the same, and an accepted row is the only match. */
  lemma VerdictIsUnambiguous(ledger: seq<M.LedgerEntry>, r: M.Reversal, x: M.LedgerEntry, y: M.LedgerEntry)
    requires M.LedgerUnique(ledger) && x in ledger && y in ledger && M.MatchesReversal(x, r) && M.MatchesReversal(y, r)
    ensures M.ReversalReplay(x, r).Success? <==> M.ReversalReplay(y, r).Success?
    ensures M.ReversalReplay(x, r).Success? ==> x == y
  {
    var i :| 0 <= i < |ledger| && ledger[i] == x;
    var j :| 0 <= j < |ledger| && ledger[j] == y;
    assert i < j ==> M.EntriesCoexist(ledger[i], ledger[j]);
    assert j < i ==> M.EntriesCoexist(ledger[j], ledger[i]);
  }
}
