/**
 Runs of concurrent transactions under snapshot isolation with first-committer-wins, and the theorem that every
 such run is the serial run of its committed commands in commit order, so that each invariant holds throughout.
 */
module Runs {
  import opened Wrappers
  import opened Errors
  import opened Snapshots
  import opened System
  import B = Bookings
  import BS = BookingSafety
  import M = Money
  import MS = MoneySafety

  predicate CanCommit(s: Db, v: Db, c: Db) {
    BS.CanCommit(s.bookings, v.bookings, c.bookings) && MS.CanCommit(s.money, v.money, c.money)
  }

  function Merge(s: Db, v: Db, c: Db): (r: Db)
    requires CanCommit(s, v, c)
  {
    Db(BS.Merge(s.bookings, v.bookings, c.bookings), MS.Merge(s.money, v.money, c.money))
  }

  // ----- a commit is the serial run on the state it lands on -----

  lemma BookingCommitIsSerial(cat: B.Catalog, s: Db, c: Db, cmd: Command, v: Db)
    requires Sound(cat, s) && Sound(cat, c) && Evolved(s, c)
    requires Execute(cat, s, cmd) == Success(v) && v.bookings != s.bookings && CanCommit(s, v, c)
    requires cmd.CreateAppointment? || cmd.CreateInChannel? || cmd.CancelAppointment? || cmd.CancelInChannel? ||
             cmd.RescheduleAppointment? || cmd.RescheduleInChannel?
    ensures Execute(cat, c, cmd) == Success(Merge(s, v, c))
  {
    hide BS.Sound, MS.Sound, BS.Evolved, MS.Evolved, Linked, BS.CanCommit;
    MS.MergeNothing(s.money, c.money);
    match cmd
    case CreateAppointment(r) => BS.CreateSerializes(cat, s.bookings, c.bookings, r);
    case CreateInChannel(r) => BS.CreateSerializes(cat, s.bookings, c.bookings, r.AsRequest());
    case CancelAppointment(r) => BS.CancelSerializes(cat, s.bookings, c.bookings, r);
    case CancelInChannel(r) => BS.ChannelCancelSerializes(cat, s.bookings, c.bookings, r);
    case RescheduleAppointment(r) => BS.RescheduleSerializes(cat, s.bookings, c.bookings, r);
    case RescheduleInChannel(r) => BS.ChannelRescheduleSerializes(cat, s.bookings, c.bookings, r);
  }

  lemma MoneyCommitIsSerial(cat: B.Catalog, s: Db, c: Db, cmd: Command, v: Db)
    requires Sound(cat, s) && Sound(cat, c) && Evolved(s, c)
    requires Execute(cat, s, cmd) == Success(v) && v.money != s.money && CanCommit(s, v, c)
    requires cmd.CreatePayout? || cmd.SettlePayout? || cmd.ReverseCommission?
    ensures Execute(cat, c, cmd) == Success(Merge(s, v, c))
  {
    hide BS.Sound, MS.Sound, BS.Evolved, MS.Evolved, Linked, MS.CanCommit, M.CreatePayout, M.SettlePayout, M.ReverseCommission;
    BS.MergeNothing(s.bookings, c.bookings);
    match cmd
    case CreatePayout(r) => MS.CreateSerializes(s.money, c.money, r, v.money);
    case SettlePayout(r) => MS.SettleSerializes(s.money, c.money, r, v.money);
    case ReverseCommission(r) => MS.ReverseSerializes(s.money, c.money, r, v.money);
  }

  /** The conversion that a completion pays is the same one on the snapshot and at commit time. */
  lemma ConversionIsStable(s: B.Bookings, c: B.Bookings, tenant: Id, appointment: Id)
    requires BS.Evolved(s, c) && appointment in s.appointments
    ensures ConversionOf(s.conversions, tenant, appointment) == ConversionOf(c.conversions, tenant, appointment)
    ensures ConversionOf(s.conversions, tenant, appointment).Some? ==>
              var i := ConversionOf(s.conversions, tenant, appointment).value; s.conversions[i] == c.conversions[i]
  {
    hide BS.AppointmentEvolves;
    var mine, theirs := ConversionOf(s.conversions, tenant, appointment), ConversionOf(c.conversions, tenant, appointment);
    forall j | 0 <= j < |s.conversions| ensures s.conversions[j] == c.conversions[j] {}
    if theirs.Some? {
      assert theirs.value < |s.conversions|;
    }
  }

  lemma OutcomeCommitIsSerial(cat: B.Catalog, s: Db, c: Db, r: B.OutcomeRequest, newEntryId: Id, v: Db)
    requires Sound(cat, s) && Sound(cat, c) && Evolved(s, c)
    requires ApplyOutcome(s, r, newEntryId) == Success(v) && v.bookings != s.bookings && CanCommit(s, v, c)
    ensures ApplyOutcome(c, r, newEntryId) == Success(Merge(s, v, c))
  {
    hide B.ApplyOutcome, BS.Sound, MS.Sound, BS.Evolved, MS.Evolved, ApplyOutcome, Earn, Linked;
    var b := OutcomeShape(s, r, newEntryId, v);
    BS.OutcomeSerializes(cat, s.bookings, c.bookings, r, b);
    CommittedOutcomeIsNoReplay(cat, s.bookings, c.bookings, r, b);
    BS.OutcomeWritesUnlessReplayed(cat, s.bookings, r);
    var merged := BS.Merge(s.bookings, b, c.bookings);
    if r.outcome.Complete? {
      CompletionCommits(cat, s, c, r, b, merged);
      EarnCommitIsSerial(s.(bookings := b), c.(bookings := merged), r, newEntryId, v);
    } else {
      MS.MergeNothing(s.money, c.money);
    }
    OutcomeFromParts(c, r, newEntryId, merged, Merge(s, v, c));
  }

  /** A completion leaves the conversions alone on both sides, so it pays the same one. */
  lemma CompletionCommits(cat: B.Catalog, s: Db, c: Db, r: B.OutcomeRequest, b: B.Bookings, merged: B.Bookings)
    requires BS.Sound(cat, s.bookings) && BS.Sound(cat, c.bookings) && BS.Evolved(s.bookings, c.bookings)
    requires B.ApplyOutcome(s.bookings, r).Success? && b == B.ApplyOutcome(s.bookings, r).value.bookings && b != s.bookings
    requires BS.CanCommit(s.bookings, b, c.bookings) && merged == BS.Merge(s.bookings, b, c.bookings)
    ensures b.conversions == s.bookings.conversions && merged.conversions == c.bookings.conversions
    ensures ConversionOf(b.conversions, r.tenant, r.appointment) == ConversionOf(merged.conversions, r.tenant, r.appointment)
    ensures ConversionOf(b.conversions, r.tenant, r.appointment).Some? ==>
              var i := ConversionOf(b.conversions, r.tenant, r.appointment).value; b.conversions[i] == merged.conversions[i]
  {
    var a, u, e := BS.OutcomeWrites(cat, s.bookings, r, b);
    assert b.conversions == s.bookings.conversions + [] == s.bookings.conversions;
    MergeNoRows(s.bookings.conversions, c.bookings.conversions);
    ConversionIsStable(s.bookings, c.bookings, r.tenant, r.appointment);
  }

  lemma CommittedOutcomeIsNoReplay(cat: B.Catalog, s: B.Bookings, c: B.Bookings, r: B.OutcomeRequest, b: B.Bookings)
    requires BS.Sound(cat, s) && BS.Sound(cat, c) && BS.Evolved(s, c)
    requires B.ApplyOutcome(s, r).Success? && b == B.ApplyOutcome(s, r).value.bookings && b != s && BS.CanCommit(s, b, c)
    ensures B.ByTimelineKey(c.timeline, r).None?
  {
    var a, u, e := BS.OutcomeWrites(cat, s, r, b);
    BS.PutMerges(cat, s, c, u, e, []);
    forall x | x in c.timeline ensures !(x.tenant == r.tenant && x.appointment == r.appointment && x.key == r.key) {
      assert B.EventsCoexist(x, e);
    }
  }

  lemma EarnCommitIsSerial(s: Db, c: Db, r: B.OutcomeRequest, newEntryId: Id, v: Db)
    requires MS.Sound(s.money) && MS.Sound(c.money) && MS.Evolved(s.money, c.money)
    requires Earn(s, r.tenant, r.appointment, newEntryId) == Success(v) && MS.CanCommit(s.money, v.money, c.money)
    requires ConversionOf(s.bookings.conversions, r.tenant, r.appointment) == ConversionOf(c.bookings.conversions, r.tenant, r.appointment)
    requires ConversionOf(s.bookings.conversions, r.tenant, r.appointment).Some? ==>
               var i := ConversionOf(s.bookings.conversions, r.tenant, r.appointment).value;
               s.bookings.conversions[i] == c.bookings.conversions[i]
    ensures Earn(c, r.tenant, r.appointment, newEntryId) == Success(c.(money := MS.Merge(s.money, v.money, c.money)))
  {
    match ConversionOf(s.bookings.conversions, r.tenant, r.appointment)
    case None => MS.MergeNothing(s.money, c.money);
    case Some(i) => MS.EarnSerializes(s.money, c.money, EarningFor(s.bookings.conversions[i], newEntryId), v.money);
  }

  lemma OutcomeFromParts(c: Db, r: B.OutcomeRequest, newEntryId: Id, b: B.Bookings, db': Db)
    requires B.ApplyOutcome(c.bookings, r).Success? && b == B.ApplyOutcome(c.bookings, r).value.bookings
    requires B.ByTimelineKey(c.bookings.timeline, r).None?
    requires if r.outcome.Complete? then Earn(c.(bookings := b), r.tenant, r.appointment, newEntryId) == Success(db')
             else db' == c.(bookings := b)
    ensures ApplyOutcome(c, r, newEntryId) == Success(db')
  {
  }

  /** An outcome that writes nothing to the bookings writes nothing at all. */
  lemma ReplayedOutcomeWritesNothing(cat: B.Catalog, s: Db, r: B.OutcomeRequest, newEntryId: Id, v: Db)
    requires Sound(cat, s) && ApplyOutcome(s, r, newEntryId) == Success(v) && v.bookings == s.bookings
    ensures v == s
  {
    var b := OutcomeShape(s, r, newEntryId, v);
    BS.OutcomeWritesUnlessReplayed(cat, s.bookings, r);
  }

  /** Whatever was read from the snapshot, what is committed is what the command does to the current state. */
  lemma CommitIsSerial(cat: B.Catalog, s: Db, c: Db, cmd: Command, v: Db)
    requires Sound(cat, s) && Sound(cat, c) && Evolved(s, c)
    requires Execute(cat, s, cmd) == Success(v) && CanCommit(s, v, c)
    ensures if v == s then Merge(s, v, c) == c else Execute(cat, c, cmd) == Success(Merge(s, v, c))
  {
    if v == s {
      BS.MergeNothing(s.bookings, c.bookings);
      MS.MergeNothing(s.money, c.money);
    } else if cmd.RecordOutcome? {
      if v.bookings == s.bookings {
        ReplayedOutcomeWritesNothing(cat, s, cmd.outcome, cmd.newEntryId, v);
      } else {
        OutcomeCommitIsSerial(cat, s, c, cmd.outcome, cmd.newEntryId, v);
      }
    } else if cmd.CreatePayout? || cmd.SettlePayout? || cmd.ReverseCommission? {
      MoneyCommitIsSerial(cat, s, c, cmd, v);
    } else {
      BookingCommitIsSerial(cat, s, c, cmd, v);
    }
  }

  // ----- runs -----

  datatype Transaction = Transaction(snapshot: Db, command: Command)

  datatype State = State(db: Db, running: map<nat, Transaction>)

  datatype Step =
    | Begin(id: nat, command: Command)
    | Abort(id: nat)
    | Commit(id: nat)

  /** A transaction starts by taking a snapshot, may be abandoned at any time, and may commit if nothing it wrote has changed. */
  ghost predicate Next(cat: B.Catalog, p: State, step: Step, q: State) {
    match step
    case Begin(id, command) =>
      id !in p.running && q == p.(running := p.running[id := Transaction(p.db, command)])
    case Abort(id) =>
      id in p.running && q == p.(running := p.running - {id})
    case Commit(id) =>
      && id in p.running
      && var t := p.running[id];
         && Execute(cat, t.snapshot, t.command).Success?
         && var v := Execute(cat, t.snapshot, t.command).value;
            && CanCommit(t.snapshot, v, p.db)
            && q == State(Merge(t.snapshot, v, p.db), p.running - {id})
  }

  ghost predicate Run(cat: B.Catalog, states: seq<State>, steps: seq<Step>) {
    && |states| == |steps| + 1
    && states[0] == State(Empty, map[])
    && forall i :: 0 <= i < |steps| ==> StepTaken(cat, states, steps, i)
  }

  ghost predicate StepTaken(cat: B.Catalog, states: seq<State>, steps: seq<Step>, i: nat)
    requires i < |steps| && |states| == |steps| + 1
  {
    Next(cat, states[i], steps[i], states[i + 1])
  }

  ghost predicate StateSound(cat: B.Catalog, p: State) {
    && Sound(cat, p.db)
    && forall id :: id in p.running ==> Sound(cat, p.running[id].snapshot) && Evolved(p.running[id].snapshot, p.db)
  }

  lemma EmptyIsSound(cat: B.Catalog)
    ensures Sound(cat, Empty)
  {
    BS.EmptyIsSound(cat);
    MS.EmptyIsSound();
  }

  lemma EvolvedIsTransitive(s: Db, c: Db, d: Db)
    requires Evolved(s, c) && Evolved(c, d)
    ensures Evolved(s, d)
  {
    BS.EvolvedIsTransitive(s.bookings, c.bookings, d.bookings);
    MS.EvolvedIsTransitive(s.money, c.money, d.money);
  }

  lemma EvolvedIsReflexive(s: Db)
    ensures Evolved(s, s)
  {
  }

  lemma StepKeepsSound(cat: B.Catalog, p: State, step: Step, q: State)
    requires StateSound(cat, p) && Next(cat, p, step, q)
    ensures StateSound(cat, q) && Evolved(p.db, q.db)
  {
    hide Sound, Evolved, CanCommit, Merge, Execute;
    EvolvedIsReflexive(p.db);
    if step.Commit? {
      var t := p.running[step.id];
      var v := Execute(cat, t.snapshot, t.command).value;
      CommitIsSerial(cat, t.snapshot, p.db, t.command, v);
      if v != t.snapshot {
        ExecuteKeepsSound(cat, p.db, t.command);
      }
      assert Sound(cat, q.db) && Evolved(p.db, q.db);
      forall id | id in q.running ensures Sound(cat, q.running[id].snapshot) && Evolved(q.running[id].snapshot, q.db) {
        EvolvedIsTransitive(p.running[id].snapshot, p.db, q.db);
      }
    }
  }

  /** Every state of every run is sound. */
  lemma {:induction false} EveryStateIsSound(cat: B.Catalog, states: seq<State>, steps: seq<Step>, i: nat)
    requires Run(cat, states, steps) && i < |states|
    ensures StateSound(cat, states[i])
  {
    hide Sound, Evolved, Next;
    if i == 0 {
      EmptyIsSound(cat);
    } else {
      EveryStateIsSound(cat, states, steps, i - 1);
      assert StepTaken(cat, states, steps, i - 1);
      StepKeepsSound(cat, states[i - 1], steps[i - 1], states[i]);
    }
  }

  /** Later states of a run evolve from earlier ones. */
  lemma {:induction false} LaterStatesEvolve(cat: B.Catalog, states: seq<State>, steps: seq<Step>, i: nat, j: nat)
    requires Run(cat, states, steps) && i <= j < |states|
    ensures Evolved(states[i].db, states[j].db)
  {
    hide Sound, Evolved, Next;
    if i == j {
      EvolvedIsReflexive(states[i].db);
    } else {
      LaterStatesEvolve(cat, states, steps, i, j - 1);
      EveryStateIsSound(cat, states, steps, j - 1);
      assert StepTaken(cat, states, steps, j - 1);
      StepKeepsSound(cat, states[j - 1], steps[j - 1], states[j]);
      EvolvedIsTransitive(states[i].db, states[j - 1].db, states[j].db);
    }
  }

  /** Commands run one after another, each alone; a refused command ends the replay. */
  ghost function Serially(cat: B.Catalog, commands: seq<Command>): (r: Result<Db, Error>) {
    if |commands| == 0 then Success(Empty)
    else
      var db :- Serially(cat, commands[..|commands| - 1]);
      Execute(cat, db, commands[|commands| - 1])
  }

  /** The writing commands committed in the first `i` steps, in commit order. */
  ghost function Committed(cat: B.Catalog, states: seq<State>, steps: seq<Step>, i: nat): (r: seq<Command>)
    requires |states| == |steps| + 1 && i < |states|
  {
    if i == 0 then []
    else
      var rest := Committed(cat, states, steps, i - 1);
      var step := steps[i - 1];
      if step.Commit? && step.id in states[i - 1].running && Writes(cat, states[i - 1].running[step.id])
      then rest + [states[i - 1].running[step.id].command]
      else rest
  }

  ghost predicate Writes(cat: B.Catalog, t: Transaction) {
    Execute(cat, t.snapshot, t.command) != Success(t.snapshot)
  }

  /** Snapshot isolation is serializable here: every reachable state is the serial outcome of its committed commands. */
  lemma {:induction false} RunsAreSerial(cat: B.Catalog, states: seq<State>, steps: seq<Step>, i: nat)
    requires Run(cat, states, steps) && i < |states|
    ensures Serially(cat, Committed(cat, states, steps, i)) == Success(states[i].db)
  {
    hide StateSound, Next, Writes;
    if i > 0 {
      RunsAreSerial(cat, states, steps, i - 1);
      EveryStateIsSound(cat, states, steps, i - 1);
      assert StepTaken(cat, states, steps, i - 1);
      SerialStep(cat, states[i - 1], steps[i - 1], states[i], Committed(cat, states, steps, i - 1));
    }
  }

  lemma SerialStep(cat: B.Catalog, p: State, step: Step, q: State, done: seq<Command>)
    requires StateSound(cat, p) && Next(cat, p, step, q) && Serially(cat, done) == Success(p.db)
    ensures var writes := step.Commit? && step.id in p.running && Writes(cat, p.running[step.id]);
            Serially(cat, if writes then done + [p.running[step.id].command] else done) == Success(q.db)
  {
    hide Sound, Evolved, CanCommit, Merge, Execute;
    if step.Commit? {
      var t := p.running[step.id];
      CommitIsSerial(cat, t.snapshot, p.db, t.command, Execute(cat, t.snapshot, t.command).value);
      assert (done + [t.command])[..|done|] == done;
    }
  }
}
