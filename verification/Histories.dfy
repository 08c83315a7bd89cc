/**
 The converse of serializability: every serial history of commands is a run, so the reachable states are exactly the
 serial outcomes. Concrete histories are built this way where the code falls short of what one might expect of it.
 */
module Histories {
  import opened Wrappers
  import opened Errors
  import opened System
  import opened Runs
  import opened AppointmentViews
  import Availability
  import B = Bookings
  import BS = BookingSafety
  import Guarantees
  import Retries
  import Transactions

  // ----- every serial history is a run -----

  lemma ExtendRun(cat: B.Catalog, states: seq<State>, steps: seq<Step>, step: Step, q: State)
    requires Run(cat, states, steps) && Next(cat, states[|steps|], step, q)
    ensures Run(cat, states + [q], steps + [step])
  {
    hide Next;
    var states', steps' := states + [q], steps + [step];
    forall i | 0 <= i < |steps'| ensures StepTaken(cat, states', steps', i) {
      if i < |steps| {
        assert StepTaken(cat, states, steps, i);
      }
    }
  }

  lemma {:induction false} SerialHistoryIsARun(cat: B.Catalog, commands: seq<Command>) returns (states: seq<State>, steps: seq<Step>)
    requires Serially(cat, commands).Success?
    ensures Run(cat, states, steps) && states[|steps|] == State(Serially(cat, commands).value, map[])
  {
    if |commands| == 0 {
      states, steps := [State(Empty, map[])], [];
    } else {
      var cmd := commands[|commands| - 1];
      states, steps := SerialHistoryIsARun(cat, commands[..|commands| - 1]);
      EveryStateIsSound(cat, states, steps, |steps|);
      var p := states[|steps|];
      var v := Execute(cat, p.db, cmd).value;
      ExecuteKeepsSound(cat, p.db, cmd);
      Transactions.CommitsAlone(cat, p.db, v);
      var begun := State(p.db, map[0 := Transaction(p.db, cmd)]);
      var done := State(v, map[]);
      hide Sound, Evolved, Execute, CanCommit, Merge;
      assert begun.running - {0} == map[];
      ExtendRun(cat, states, steps, Begin(0, cmd), begun);
      states, steps := states + [begun], steps + [Begin(0, cmd)];
      ExtendRun(cat, states, steps, Commit(0), done);
      states, steps := states + [done], steps + [Commit(0)];
    }
  }

  ghost predicate Reachable(cat: B.Catalog, db: Db) {
    exists states, steps, i :: Reaches(cat, states, steps, i, db)
  }

  ghost predicate Reaches(cat: B.Catalog, states: seq<State>, steps: seq<Step>, i: int, db: Db) {
    Run(cat, states, steps) && 0 <= i < |states| && states[i].db == db
  }

  /** Concurrency adds no state: what any run can reach, running some commands one after another reaches too, and conversely. */
  lemma ReachableIffSerial(cat: B.Catalog, db: Db)
    ensures Reachable(cat, db) <==> exists commands :: Serially(cat, commands) == Success(db)
  {
    if Reachable(cat, db) {
      var states, steps, i :| Reaches(cat, states, steps, i, db);
      RunsAreSerial(cat, states, steps, i);
    }
    if commands :| Serially(cat, commands) == Success(db) {
      var states, steps := SerialHistoryIsARun(cat, commands);
      assert Reaches(cat, states, steps, |steps|, db);
    }
  }

  lemma SerialIsReachable(cat: B.Catalog, commands: seq<Command>, db: Db)
    requires Serially(cat, commands) == Success(db)
    ensures Reachable(cat, db) && Sound(cat, db)
  {
    ReachableIffSerial(cat, db);
    var states, steps := SerialHistoryIsARun(cat, commands);
    EveryStateIsSound(cat, states, steps, |steps|);
  }

  lemma OneMore(cat: B.Catalog, commands: seq<Command>, cmd: Command, db: Db, v: Db)
    requires Serially(cat, commands) == Success(db) && Execute(cat, db, cmd) == Success(v)
    ensures Serially(cat, commands + [cmd]) == Success(v)
  {
    assert (commands + [cmd])[..|commands|] == commands;
  }

  // ----- one appointment, moved and started -----

  const HOUR := 60 * B.MINUTE
  const SHOP := B.Catalog(map[(0, 0) := 0])

  /** One staff member, at work for four hours, whose one service takes one hour. */
  const AGENDA := B.Agenda(Availability.Day(0, 4 * HOUR, map["open" := 0, "shut" := 4 * HOUR]), "Ada", 60,
                           [Availability.Schedule(0, "open", "shut")], [])

  const BOOKING := B.CreateRequest(0, 0, 0, 0, 0, true, 0, AGENDA, B.ClientBooking("book"), 0, None, 0, 0, -1)
  const BOOKED := B.NewAppointment(BOOKING)

  function MoveTo(startsAt: int): (r: B.RescheduleRequest) {
    B.RescheduleRequest(B.Access(0, 0, None), startsAt, None, true, AGENDA, -1)
  }

  function StoreOf(b: B.Bookings): (r: Db) { Db(b, Empty.money) }

  lemma EmptyDayOffers(t: int)
    requires t == 0 || t == HOUR
    ensures Availability.Verdict(B.SlotInput(B.Empty, AGENDA, 0, 0, 0, None), t, -1).None?
    ensures Availability.Verdict(B.SlotInput(B.Empty, AGENDA, 0, 0, 0, Some(0)), t, -1).None?
  {
    forall exclude: Option<Id> ensures Availability.Verdict(B.SlotInput(B.Empty, AGENDA, 0, 0, 0, exclude), t, -1).None? {
      var input := B.SlotInput(B.Empty, AGENDA, 0, 0, 0, exclude);
      var e := Availability.Eligible(0, "Ada", 60);
      var open := Availability.Interval(0, 4 * HOUR);
      assert AGENDA.schedules[..0] == [] && AGENDA.schedules[0].startsAt in AGENDA.day.clock && AGENDA.schedules[0].endsAt in AGENDA.day.clock;
      assert Availability.Scheduled(AGENDA.day, AGENDA.schedules, 0) == [open];
      assert open in Availability.WorkingIntervals(input, 0) && Availability.OnGrid(open, t, HOUR);
      assert Availability.Offers(input, e, t);
      assert e in input.eligible;
    }
  }

  lemma BookingSucceeds()
    ensures B.Create(SHOP, B.Empty, BOOKING) == Success(B.Reply(BS.Put(B.Empty, BOOKED, B.CreatedEvent(BOOKED), []), BOOKED))
    ensures BS.Sound(SHOP, BS.Put(B.Empty, BOOKED, B.CreatedEvent(BOOKED), []))
  {
    EmptyDayOffers(0);
    BS.EmptyIsSound(SHOP);
    assert BS.Creatable(SHOP, B.Empty, BOOKING);
    BS.CreateIsPut(SHOP, B.Empty, BOOKING);
    BS.CreateKeepsSound(SHOP, B.Empty, BOOKING);
  }

  /** The day's only appointment, wherever it is. */
  ghost predicate Alone(b: B.Bookings, a: B.Appointment) {
    && BS.Sound(SHOP, b) && b.appointments == map[0 := a]
    && a.id == 0 && a.tenant == 0 && a.location == 0 && a.staff == 0
  }

  function Move(a: B.Appointment, t: int): (moved: B.Appointment) { B.MovedTo(a, t, t + HOUR) }

  function MoveRecord(a: B.Appointment, t: int): (r: B.TimelineEvent) {
    B.MoveEvent(a, t, t + HOUR, None, Some(B.Previous(a.status, a.startsAt, a.endsAt)))
  }

  ghost predicate Offered(b: B.Bookings, t: int) {
    Availability.Verdict(B.SlotInput(b, AGENDA, 0, 0, 0, Some(0)), t, -1).None?
  }

  lemma LockedByItself(b: B.Bookings, a: B.Appointment)
    requires Alone(b, a)
    ensures forall k :: k in b.locks ==> b.locks[k] == 0
  {
    hide B.BookingKeysUnique, B.TimelineUnique, BS.TimelineTells, BS.ConversionsAnchored;
    forall k | k in b.locks ensures b.locks[k] == 0 {
      assert b.locks[k] in b.appointments;
    }
  }

  lemma OfferedAlone(b: B.Bookings, a: B.Appointment, t: int)
    requires Alone(b, a) && (t == 0 || t == HOUR)
    ensures Offered(b, t)
  {
    EmptyDayOffers(t);
    LockedByItself(b, a);
    hide Availability.Verdict, B.BookingKeysUnique, B.TimelineUnique, BS.TimelineTells, BS.ConversionsAnchored;
    BS.VerdictFollowsLocks(SHOP, b, AGENDA, 0, 0, 0, Some(0), t, -1);
  }

  /** The empty rest of the day offers either start, so a move succeeds unless it was made before. */
  lemma MoveAlone(b: B.Bookings, a: B.Appointment, t: int)
    requires Alone(b, a) && B.Active(a.status) && (t == 0 || t == HOUR) && a.startsAt != t
    ensures B.Loads(b, MoveTo(t).access) && b.appointments[0] == a && Offered(b, t)
    ensures B.Reschedule(b, MoveTo(t)).Success? <==> Guarantees.NeverMovedTo(b, a, t)
    ensures B.Reschedule(b, MoveTo(t)).Success? ==>
              var moved := BS.Put(b, Move(a, t), MoveRecord(a, t), []);
              B.Reschedule(b, MoveTo(t)) == Success(B.Reply(moved, Move(a, t))) && Alone(moved, Move(a, t))
  {
    OfferedAlone(b, a, t);
    hide Availability.Verdict, BS.Sound;
    Guarantees.OfferedMove(SHOP, b, a, MoveTo(t));
    if B.Reschedule(b, MoveTo(t)).Success? {
      MovedAlone(b, a, t);
    }
  }

  lemma MovedAlone(b: B.Bookings, a: B.Appointment, t: int)
    requires Alone(b, a) && B.Active(a.status) && a.startsAt != t && B.Reschedule(b, MoveTo(t)).Success?
    ensures var moved := BS.Put(b, Move(a, t), MoveRecord(a, t), []);
            B.Reschedule(b, MoveTo(t)) == Success(B.Reply(moved, Move(a, t))) && Alone(moved, Move(a, t))
  {
    hide Availability.Verdict, BS.Sound, BS.Evolved, B.RescheduleWith, BS.LocksAfter, BS.Puttable, BS.MinutesFree, B.EventInsertable;
    BS.RescheduleKeepsSound(SHOP, b, MoveTo(t));
    BS.RescheduleIsPut(SHOP, b, a, t, t + HOUR, None, Some(B.Previous(a.status, a.startsAt, a.endsAt)));
    assert B.Reschedule(b, MoveTo(t)) == B.RescheduleWith(b, a, t, t + HOUR, None, Some(B.Previous(a.status, a.startsAt, a.endsAt)));
    hide B.Reschedule;
    assert map[0 := a][0 := Move(a, t)] == map[0 := Move(a, t)];
  }

  /** The store after the booking, and after moving it away and back. */
  function Fresh(): (r: B.Bookings) { BS.Put(B.Empty, BOOKED, B.CreatedEvent(BOOKED), []) }

  function Away(): (r: B.Bookings) { BS.Put(Fresh(), Move(BOOKED, HOUR), MoveRecord(BOOKED, HOUR), []) }

  function Back(): (r: B.Bookings) {
    BS.Put(Away(), Move(Move(BOOKED, HOUR), 0), MoveRecord(Move(BOOKED, HOUR), 0), [])
  }

  const AWAY_AND_BACK := [CreateAppointment(BOOKING), RescheduleAppointment(MoveTo(HOUR)), RescheduleAppointment(MoveTo(0))]

  lemma BookedAlone()
    ensures Alone(Fresh(), BOOKED) && Serially(SHOP, [CreateAppointment(BOOKING)]) == Success(StoreOf(Fresh()))
  {
    BookingSucceeds();
    OneMore(SHOP, [], CreateAppointment(BOOKING), Empty, StoreOf(Fresh()));
    assert [] + [CreateAppointment(BOOKING)] == [CreateAppointment(BOOKING)];
  }

  lemma FirstMovesAreNew()
    ensures Guarantees.NeverMovedTo(Fresh(), BOOKED, HOUR) && Guarantees.NeverMovedTo(Away(), Move(BOOKED, HOUR), 0)
  {
    assert Fresh().timeline == [B.CreatedEvent(BOOKED)];
    assert Away().timeline == [B.CreatedEvent(BOOKED), MoveRecord(BOOKED, HOUR)];
  }

  lemma MovedAwayAndBack()
    ensures Alone(Back(), Move(Move(BOOKED, HOUR), 0))
    ensures Serially(SHOP, AWAY_AND_BACK) == Success(StoreOf(Back()))
  {
    BookedAlone();
    FirstMovesAreNew();
    hide B.Create, B.Reschedule, BS.Put, Alone, Offered, Guarantees.NeverMovedTo;
    MoveAlone(Fresh(), BOOKED, HOUR);
    MoveAlone(Away(), Move(BOOKED, HOUR), 0);
    OneMore(SHOP, [CreateAppointment(BOOKING)], RescheduleAppointment(MoveTo(HOUR)), StoreOf(Fresh()), StoreOf(Away()));
    OneMore(SHOP, [CreateAppointment(BOOKING)] + [RescheduleAppointment(MoveTo(HOUR))], RescheduleAppointment(MoveTo(0)),
            StoreOf(Away()), StoreOf(Back()));
    assert [CreateAppointment(BOOKING)] + [RescheduleAppointment(MoveTo(HOUR))] + [RescheduleAppointment(MoveTo(0))] == AWAY_AND_BACK;
  }

  /** Moved away and back, an appointment can be offered the first start again, minute-aligned, and still be refused it. */
  lemma SecondMoveIsRefused()
    ensures Reachable(SHOP, StoreOf(Back())) && B.Loads(Back(), MoveTo(HOUR).access)
    ensures Offered(Back(), HOUR) && B.MinuteAligned(HOUR, B.EndOf(AGENDA, HOUR))
    ensures Back().appointments[0].startsAt == 0 && B.Active(Back().appointments[0].status)
    ensures Execute(SHOP, StoreOf(Back()), RescheduleAppointment(MoveTo(HOUR))) == Failure(DUPLICATE_KEY)
  {
    hide B.Reschedule, Guarantees.NeverMovedTo, Offered, BS.Sound, Back, Serially, Reachable;
    MovedAwayAndBack();
    BackRemembers();
    SerialIsReachable(SHOP, AWAY_AND_BACK, StoreOf(Back()));
    var a := Move(Move(BOOKED, HOUR), 0);
    MoveAlone(Back(), a, HOUR);
    RefusedForItsKey(Back(), a, HOUR);
  }

  lemma BackRemembers()
    ensures !Guarantees.NeverMovedTo(Back(), Move(Move(BOOKED, HOUR), 0), HOUR)
  {
    assert Back().timeline[1] == MoveRecord(BOOKED, HOUR);
  }

  lemma RefusedForItsKey(b: B.Bookings, a: B.Appointment, t: int)
    requires Alone(b, a) && B.Active(a.status) && (t == 0 || t == HOUR) && a.startsAt != t && Offered(b, t)
    requires B.Reschedule(b, MoveTo(t)).Failure?
    ensures B.Reschedule(b, MoveTo(t)) == Failure(DUPLICATE_KEY)
  {
    hide B.BookingKeysUnique, B.TimelineUnique, BS.TimelineTells, BS.ConversionsAnchored, B.EventInsertable;
    var u := Move(a, t);
    BS.FreeAfterRelease(b, u);
    LockedByItself(b, a);
    assert BS.MinutesFree(b, u);
  }

  // ----- started, completed, and started again -----

  const START := B.OutcomeRequest(0, 0, B.Start, B.ClientKey("start"), 0)
  const COMPLETE := B.OutcomeRequest(0, 0, B.Complete(None), B.ClientKey("complete"), 0)
  const STARTED := BOOKED.(status := B.IN_PROGRESS, startedAt := Some(0), writes := 1)
  const COMPLETED := STARTED.(status := B.COMPLETED, closedAt := Some(0), writes := 2)

  function OutcomeStored(b: B.Bookings, a: B.Appointment, u: B.Appointment, c: B.OutcomeRequest): (r: B.Bookings) {
    BS.Put(b, u, B.StatusEvent(a.status, u, B.OutcomeEvent(c.outcome), c.key, B.OutcomeDigest(c.outcome), B.OutcomeNote(c.outcome)), [])
  }

  lemma OutcomeAccepted(b: B.Bookings, a: B.Appointment, u: B.Appointment, c: B.OutcomeRequest)
    requires 0 in b.appointments && b.appointments[0] == a && a.id == 0 && a.tenant == 0
    requires c.tenant == 0 && c.appointment == 0 && B.ByTimelineKey(b.timeline, c).None?
    requires !c.outcome.Missed? && B.Patch(a, c.outcome, c.now) == Success(u)
    ensures B.ApplyOutcome(b, c).Success?
  {
    var e := B.StatusEvent(a.status, u, B.OutcomeEvent(c.outcome), c.key, B.OutcomeDigest(c.outcome), B.OutcomeNote(c.outcome));
    assert B.EventInsertable(b.timeline, e);
  }

  lemma PatchKeepsPlace(a: B.Appointment, o: B.Outcome, now: int)
    requires B.Patch(a, o, now).Success?
    ensures var u := B.Patch(a, o, now).value; u.id == a.id && u.tenant == a.tenant && u.location == a.location && u.staff == a.staff
  {
  }

  lemma OutcomeAlone(b: B.Bookings, a: B.Appointment, u: B.Appointment, c: B.OutcomeRequest)
    requires Alone(b, a) && b.conversions == [] && c.tenant == 0 && c.appointment == 0 && B.ByTimelineKey(b.timeline, c).None?
    requires !c.outcome.Missed? && B.Patch(a, c.outcome, c.now) == Success(u)
    ensures B.ApplyOutcome(b, c) == Success(B.Reply(OutcomeStored(b, a, u, c), u))
    ensures Alone(OutcomeStored(b, a, u, c), u) && OutcomeStored(b, a, u, c).conversions == []
  {
    hide B.ApplyOutcome, BS.Sound, BS.LocksAfter, B.ByTimelineKey, B.Patch;
    PatchKeepsPlace(a, c.outcome, c.now);
    OutcomeAccepted(b, a, u, c);
    OutcomeIsStored(b, a, u, c);
    assert map[0 := a][0 := u] == map[0 := u];
  }

  lemma OutcomeIsStored(b: B.Bookings, a: B.Appointment, u: B.Appointment, c: B.OutcomeRequest)
    requires BS.Sound(SHOP, b) && c.appointment in b.appointments && b.appointments[c.appointment] == a
    requires B.ByTimelineKey(b.timeline, c).None? && B.ApplyOutcome(b, c).Success? && B.Patch(a, c.outcome, c.now) == Success(u)
    ensures B.ApplyOutcome(b, c) == Success(B.Reply(OutcomeStored(b, a, u, c), u))
    ensures BS.Sound(SHOP, OutcomeStored(b, a, u, c))
  {
    hide B.ApplyOutcome, BS.Sound, BS.Evolved, BS.Puttable, BS.Put, B.ByTimelineKey, B.Patch;
    BS.OutcomeIsPut(SHOP, b, c);
    BS.OutcomeKeepsSound(SHOP, b, c);
  }

  lemma RecordedAlone(b: B.Bookings, c: B.OutcomeRequest, b': B.Bookings, u: B.Appointment)
    requires B.ApplyOutcome(b, c) == Success(B.Reply(b', u)) && b'.conversions == []
    ensures ApplyOutcome(StoreOf(b), c, 0) == Success(StoreOf(b'))
  {
    hide B.ApplyOutcome;
  }

  const FINISHED := [CreateAppointment(BOOKING), RecordOutcome(START, 0), RecordOutcome(COMPLETE, 0)]

  function InProgress(): (r: B.Bookings) { OutcomeStored(Fresh(), BOOKED, STARTED, START) }

  function Done(): (r: B.Bookings) { OutcomeStored(InProgress(), STARTED, COMPLETED, COMPLETE) }

  lemma UnusedKeyIsNew(timeline: seq<B.TimelineEvent>, c: B.OutcomeRequest)
    requires forall e :: e in timeline ==> e.key != c.key
    ensures B.ByTimelineKey(timeline, c).None?
  {
  }

  lemma StoredTimelines()
    ensures Fresh().timeline == [B.CreatedEvent(BOOKED)] && Fresh().conversions == []
    ensures |InProgress().timeline| == 2 && InProgress().timeline[0] == B.CreatedEvent(BOOKED) && InProgress().timeline[1].key == START.key
  {
    hide BS.LocksAfter, B.OutcomeDigest, B.OutcomeNote;
  }

  lemma StartKeyIsNew()
    ensures B.ByTimelineKey(Fresh().timeline, START).None? && Fresh().conversions == []
  {
    StoredTimelines();
    hide Fresh, B.ByTimelineKey;
    UnusedKeyIsNew(Fresh().timeline, START);
  }

  lemma CompletionKeyIsNew()
    ensures B.ByTimelineKey(InProgress().timeline, COMPLETE).None?
  {
    StoredTimelines();
    hide Fresh, InProgress, B.ByTimelineKey;
    assert |"start"| != |"complete"|;
    UnusedKeyIsNew(InProgress().timeline, COMPLETE);
  }

  lemma PatchesApply()
    ensures B.Patch(BOOKED, B.Start, 0) == Success(STARTED) && B.Patch(STARTED, B.Complete(None), 0) == Success(COMPLETED)
  {
  }

  lemma StartedAndCompleted()
    ensures B.ApplyOutcome(Fresh(), START) == Success(B.Reply(InProgress(), STARTED))
    ensures Alone(InProgress(), STARTED) && Alone(Done(), COMPLETED)
    ensures Serially(SHOP, [CreateAppointment(BOOKING), RecordOutcome(START, 0)]) == Success(StoreOf(InProgress()))
    ensures Serially(SHOP, FINISHED) == Success(StoreOf(Done()))
  {
    BookedAlone();
    StartKeyIsNew();
    CompletionKeyIsNew();
    PatchesApply();
    hide B.Create, ApplyOutcome, B.ApplyOutcome, BS.Put, Alone, OutcomeStored, B.ByTimelineKey;
    OutcomeAlone(Fresh(), BOOKED, STARTED, START);
    RecordedAlone(Fresh(), START, InProgress(), STARTED);
    OutcomeAlone(InProgress(), STARTED, COMPLETED, COMPLETE);
    RecordedAlone(InProgress(), COMPLETE, Done(), COMPLETED);
    OneMore(SHOP, [CreateAppointment(BOOKING)], RecordOutcome(START, 0), StoreOf(Fresh()), StoreOf(InProgress()));
    assert [CreateAppointment(BOOKING)] + [RecordOutcome(START, 0)] == [CreateAppointment(BOOKING), RecordOutcome(START, 0)];
    OneMore(SHOP, [CreateAppointment(BOOKING), RecordOutcome(START, 0)], RecordOutcome(COMPLETE, 0),
            StoreOf(InProgress()), StoreOf(Done()));
    assert [CreateAppointment(BOOKING), RecordOutcome(START, 0)] + [RecordOutcome(COMPLETE, 0)] == FINISHED;
  }

  /** A start, a completion, and the same start again: the second answer shows a completed appointment, the first one a started one. */
  lemma RepeatedStartIsAnsweredDifferently()
    ensures Reachable(SHOP, StoreOf(Fresh())) && Reachable(SHOP, StoreOf(Done()))
    ensures Serially(SHOP, [CreateAppointment(BOOKING), RecordOutcome(START, 0), RecordOutcome(COMPLETE, 0)]) == Success(StoreOf(Done()))
    ensures B.ApplyOutcome(Fresh(), START).Success? && B.ApplyOutcome(Fresh(), START).value.appointment == STARTED
    ensures B.ApplyOutcome(Done(), START) == Success(B.Reply(Done(), COMPLETED)) && ViewOf(COMPLETED, START.now) != ViewOf(STARTED, START.now)
  {
    BookedAlone();
    StartedAndCompleted();
    SerialIsReachable(SHOP, [CreateAppointment(BOOKING)], StoreOf(Fresh()));
    SerialIsReachable(SHOP, FINISHED, StoreOf(Done()));
    DoneRemembers();
    hide B.ApplyOutcome, BS.Put, OutcomeStored;
    Retries.EventAnswers(Done(), 1, START);
  }

  const LATE_START := START.(now := HOUR)

  /** A start repeated at the end of the appointment: nothing was written in between, and yet the answer now requires an outcome. */
  lemma RepeatedStartTurnsOverdue()
    ensures Reachable(SHOP, StoreOf(Fresh())) && Reachable(SHOP, StoreOf(InProgress())) && Retries.SameOutcome(START, LATE_START)
    ensures B.ApplyOutcome(Fresh(), START) == Success(B.Reply(InProgress(), STARTED))
    ensures B.ApplyOutcome(InProgress(), LATE_START) == Success(B.Reply(InProgress(), STARTED))
    ensures !ViewOf(STARTED, START.now).requiresOutcome && ViewOf(STARTED, START.now).outcomeState.STARTED?
    ensures ViewOf(STARTED, LATE_START.now).requiresOutcome && ViewOf(STARTED, LATE_START.now).outcomeState.OUTCOME_REQUIRED?
  {
    hide Fresh, InProgress, Done, Serially, Reachable, Alone, B.ApplyOutcome;
    BookedAlone();
    StartedAndCompleted();
    SerialIsReachable(SHOP, [CreateAppointment(BOOKING)], StoreOf(Fresh()));
    SerialIsReachable(SHOP, [CreateAppointment(BOOKING), RecordOutcome(START, 0)], StoreOf(InProgress()));
    LateStartIsAnswered();
  }

  lemma LateStartIsAnswered()
    requires Alone(InProgress(), STARTED)
    ensures B.ApplyOutcome(InProgress(), LATE_START) == Success(B.Reply(InProgress(), STARTED))
  {
    DoneRemembers();
    hide B.ApplyOutcome, BS.Put, OutcomeStored, InProgress, Done, Fresh;
    Retries.EventAnswers(InProgress(), 1, LATE_START);
  }

  lemma DoneRemembers()
    ensures |Done().timeline| > 1 && |InProgress().timeline| > 1 && InProgress().timeline[1] == Done().timeline[1]
    ensures var e := Done().timeline[1];
            && e.tenant == START.tenant && e.appointment == START.appointment && e.key == START.key
            && e.eventType == B.OutcomeEvent(START.outcome) && e.fingerprint == B.OutcomeDigest(START.outcome)
  {
    assert Done().timeline[1] == InProgress().timeline[1];
  }
}
