/** Runs of concurrent messages and handoff actions, and what the conversation collections show in every reachable state. */
module ConversationRuns {
  import opened Wrappers
  import opened Errors
  import opened Snapshots
  import opened ConversationStateMachine
  import opened Conversations

  // ----- committing under snapshot isolation -----

  predicate CanCommit(s: Db, v: Db, c: Db) {
    && s.history <= v.history && s.log <= v.log
    && MapMergeable(s.conversations, v.conversations, c.conversations)
    && ThreadsUnique(MergeMap(s.conversations, v.conversations, c.conversations))
    && EventsUnique(MergeAppended(s.log, v.log, c.log))
  }

  function Merge(s: Db, v: Db, c: Db): (r: Db)
    requires s.history <= v.history && s.log <= v.log
  {
    Db(MergeMap(s.conversations, v.conversations, c.conversations),
       MergeAppended(s.history, v.history, c.history),
       MergeAppended(s.log, v.log, c.log))
  }

  ghost predicate ConversationEvolves(a: Conversation, z: Conversation) {
    && SameThread(a, z) && z.id == a.id && a.revision <= z.revision
    && (a.revision == z.revision ==> z == a)
  }

  ghost predicate Evolved(s: Db, c: Db) {
    && (forall id :: id in s.conversations ==> id in c.conversations && ConversationEvolves(s.conversations[id], c.conversations[id]))
    && s.history <= c.history && s.log <= c.log
  }

  lemma EvolvedIsTransitive(s: Db, c: Db, d: Db)
    requires Evolved(s, c) && Evolved(c, d)
    ensures Evolved(s, d)
  {
    forall id | id in s.conversations ensures id in d.conversations && ConversationEvolves(s.conversations[id], d.conversations[id]) {
      assert ConversationEvolves(s.conversations[id], c.conversations[id]) && ConversationEvolves(c.conversations[id], d.conversations[id]);
    }
  }

  lemma EventInsertable(log: seq<Exchange>, x: Exchange)
    requires EventsUnique(log + [x])
    ensures !EventSeen(log, x.event)
  {
    var l := log + [x];
    forall i | 0 <= i < |log| ensures log[i].event != x.event {
      assert l[i] == log[i] && l[|log|] == x;
    }
  }

  /** A message that finds its conversation in a handoff writes only its exchange, whatever has happened meanwhile. */
  ghost predicate Silently(c: Db, q: Db) {
    exists x :: q == c.(log := c.log + [x]) && x.heardIn.None? && x.replies == [] && x.command.None? && !EventSeen(c.log, x.event)
  }

  /** A command's write to a stored conversation lands on the document as it was read. */
  lemma WriteMerges(s: Db, c: Db, u: Conversation, entries: seq<HistoryEntry>, said: seq<Exchange>, v: Db)
    requires v == Put(s, u, entries, said) && (u.id in s.conversations ==> u != s.conversations[u.id]) && CanCommit(s, v, c)
    ensures SameAt(s.conversations, c.conversations, u.id)
    ensures Merge(s, v, c) == Put(c, u, entries, said)
  {
    MergeOneKey(s.conversations, c.conversations, u.id, u);
    assert v.history[|s.history|..] == entries && v.log[|s.log|..] == said;
  }

  lemma ThreadIsFound(db: Db, ev: InboundEvent, id: Id)
    requires ThreadsUnique(db.conversations) && id in db.conversations && OnThread(db.conversations[id], ev)
    ensures ThreadKnown(db, ev) && ByThread(db, ev) == id
  {
    assert SameThread(db.conversations[id], db.conversations[ByThread(db, ev)]);
  }

  lemma KnownReceiveSerializes(s: Db, c: Db, ev: InboundEvent, v: Db)
    requires Sound(s) && Sound(c) && Evolved(s, c) && ThreadKnown(s, ev)
    requires ReceiveMessage(s, ev) == Success(v) && CanCommit(s, v, c)
    ensures Silently(c, Merge(s, v, c)) || ReceiveMessage(c, ev) == Success(Merge(s, v, c))
  {
    hide TransitionConversation, Linked, LogHonest;
    var id := ByThread(s, ev);
    assert ConversationSound(s, id);
    var a := s.conversations[id];
    var x := v.log[|s.log|];
    assert v.log == s.log + [x];
    assert MergeAppended(s.log, v.log, c.log) == c.log + [x];
    EventInsertable(c.log, x);
    if InHandoff(a) {
      MergeUntouched(s.conversations, c.conversations);
      assert v.history[|s.history|..] == [];
      assert Merge(s, v, c) == c.(log := c.log + [x]);
    } else {
      var t := TransitionConversation(a.state, a.context, ev.input);
      WriteMerges(s, c, Answered(a, t), Moves(a, t), [x], v);
      ThreadIsFound(c, ev, id);
    }
  }

  /** The first message of a thread opens the conversation and answers it in one write. */
  lemma OpeningIsOnePut(db: Db, ev: InboundEvent)
    requires !EventSeen(db.log, ev.event) && !ThreadKnown(db, ev) && ev.newId !in db.conversations
    ensures ReceiveMessage(db, ev) == Success(FirstAnswer(db, ev))
  {
    hide TransitionConversation;
    var a := Opened(ev);
    var t := TransitionConversation(a.state, a.context, ev.input);
    var first := [HistoryEntry(a.id, None, MAIN_MENU, map[])];
    assert db.conversations[a.id := a][a.id := Answered(a, t)] == db.conversations[a.id := Answered(a, t)];
    assert (db.history + first) + Moves(a, t) == db.history + (first + Moves(a, t));
    assert (db.log + []) + [Spoken(ev, a, t)] == db.log + [Spoken(ev, a, t)];
  }

  function FirstAnswer(db: Db, ev: InboundEvent): (r: Db) {
    var a := Opened(ev);
    var t := TransitionConversation(a.state, a.context, ev.input);
    Put(db, Answered(a, t), [HistoryEntry(a.id, None, MAIN_MENU, map[])] + Moves(a, t), [Spoken(ev, a, t)])
  }

  lemma OpeningReceiveSerializes(s: Db, c: Db, ev: InboundEvent, v: Db)
    requires Sound(s) && Sound(c) && Evolved(s, c) && !ThreadKnown(s, ev)
    requires ReceiveMessage(s, ev) == Success(v) && CanCommit(s, v, c)
    ensures !EventSeen(c.log, ev.event) && !ThreadKnown(c, ev) && ev.newId !in c.conversations
    ensures ReceiveMessage(c, ev) == Success(Merge(s, v, c))
  {
    OpeningIsOnePut(s, ev);
    hide TransitionConversation, Linked, LogHonest, ConversationSound, ReceiveMessage, ThreadsUnique, Moves;
    var a := Opened(ev);
    var t := TransitionConversation(a.state, a.context, ev.input);
    var u := Answered(a, t);
    WriteMerges(s, c, u, [HistoryEntry(a.id, None, MAIN_MENU, map[])] + Moves(a, t), [Spoken(ev, a, t)], v);
    EventInsertable(c.log, Spoken(ev, a, t));
    NoThreadYet(s, c, u, v);
    assert forall id :: id in c.conversations && OnThread(c.conversations[id], ev) ==> SameThread(c.conversations[id], u);
    OpeningIsOnePut(c, ev);
  }

  lemma NoThreadYet(s: Db, c: Db, u: Conversation, v: Db)
    requires u.id !in s.conversations && u.id !in c.conversations && u.id in v.conversations && v.conversations[u.id] == u
    requires ThreadsUnique(c.conversations[u.id := u])
    ensures forall id :: id in c.conversations ==> !SameThread(c.conversations[id], u)
  {
    var m := c.conversations[u.id := u];
    forall id | id in c.conversations ensures !SameThread(c.conversations[id], u) {
      assert m[id] == c.conversations[id] && m[u.id] == u;
    }
  }

  lemma HandoffSerializes(s: Db, c: Db, op: Operation, v: Db)
    requires Sound(s) && Sound(c) && Evolved(s, c) && !op.Receive?
    requires Execute(s, op) == Success(v) && v != s && CanCommit(s, v, c)
    ensures Execute(c, op) == Success(Merge(s, v, c))
  {
    hide Linked, LogHonest;
    var id := op.conversation;
    assert ConversationSound(s, id);
    var u, entries := v.conversations[id], v.history[|s.history|..];
    assert v.log == s.log + [];
    assert v == Put(s, u, entries, []);
    WriteMerges(s, c, u, entries, [], v);
  }

  lemma MergeNothing(s: Db, c: Db)
    requires CanCommit(s, s, c)
    ensures Merge(s, s, c) == c
  {
    MergeUntouched(s.conversations, c.conversations);
  }

  /**
   A commit changes nothing, or logs a message nobody answers, or does what the operation does to the current state:
   whatever the bot says, it says to the conversation as it is when the message commits.
   */
  lemma CommitIsSerialOrSilent(s: Db, c: Db, op: Operation, v: Db)
    requires Sound(s) && Sound(c) && Evolved(s, c)
    requires Execute(s, op) == Success(v) && CanCommit(s, v, c)
    ensures Merge(s, v, c) == c || Silently(c, Merge(s, v, c)) || Execute(c, op) == Success(Merge(s, v, c))
  {
    hide Sound, Evolved, ReceiveMessage, RequestHandoff, ClaimHandoff, ReassignHandoff, ReleaseHandoff, CanCommit, Merge, Silently;
    if op.Receive? {
      if ThreadKnown(s, op.inbound) {
        KnownReceiveSerializes(s, c, op.inbound, v);
      } else {
        OpeningReceiveSerializes(s, c, op.inbound, v);
      }
    } else if v == s {
      MergeNothing(s, c);
    } else {
      HandoffSerializes(s, c, op, v);
    }
  }

  lemma SilenceKeepsSound(c: Db, q: Db)
    requires Sound(c) && Silently(c, q)
    ensures Sound(q) && Evolved(c, q)
  {
    var x :| q == c.(log := c.log + [x]) && x.heardIn.None? && x.replies == [] && x.command.None? && !EventSeen(c.log, x.event);
    SayKeepsSound(c, x);
  }

  lemma ExecuteEvolves(db: Db, op: Operation)
    requires Sound(db) && Execute(db, op).Success?
    ensures Evolved(db, Execute(db, op).value)
  {
    hide TransitionConversation, Linked, LogHonest, ThreadsUnique, EventsUnique, ControlAgrees, WellFormed, Told, Remembers, Newest;
    var q := Execute(db, op).value;
    forall id | id in db.conversations ensures id in q.conversations && ConversationEvolves(db.conversations[id], q.conversations[id]) {
      assert ConversationSound(db, id);
    }
  }

  // ----- runs -----

  datatype Transaction = Transaction(snapshot: Db, op: Operation)

  datatype Store = Store(db: Db, running: map<nat, Transaction>)

  datatype Step = Begin(id: nat, op: Operation) | Abort(id: nat) | Commit(id: nat)

  ghost predicate Next(p: Store, step: Step, q: Store) {
    match step
    case Begin(id, op) =>
      && id !in p.running && (op.Receive? ==> Normalized(op.inbound.input))
      && q == p.(running := p.running[id := Transaction(p.db, op)])
    case Abort(id) => id in p.running && q == p.(running := p.running - {id})
    case Commit(id) =>
      && id in p.running
      && var t := p.running[id];
         && Execute(t.snapshot, t.op).Success?
         && var v := Execute(t.snapshot, t.op).value;
            && CanCommit(t.snapshot, v, p.db)
            && q == Store(Merge(t.snapshot, v, p.db), p.running - {id})
  }

  ghost predicate StepTaken(stores: seq<Store>, steps: seq<Step>, i: nat)
    requires i < |steps| && |stores| == |steps| + 1
  {
    Next(stores[i], steps[i], stores[i + 1])
  }

  ghost predicate Run(stores: seq<Store>, steps: seq<Step>) {
    && |stores| == |steps| + 1
    && stores[0] == Store(Empty, map[])
    && forall i :: 0 <= i < |steps| ==> StepTaken(stores, steps, i)
  }

  ghost predicate TransactionSound(t: Transaction, db: Db) {
    Sound(t.snapshot) && Evolved(t.snapshot, db) && (t.op.Receive? ==> Normalized(t.op.inbound.input))
  }

  ghost predicate StoreSound(p: Store) {
    Sound(p.db) && forall id :: id in p.running ==> TransactionSound(p.running[id], p.db)
  }

  lemma CommitKeepsSound(t: Transaction, c: Db, q: Db)
    requires Sound(c) && TransactionSound(t, c) && Execute(t.snapshot, t.op).Success?
    requires CanCommit(t.snapshot, Execute(t.snapshot, t.op).value, c) && q == Merge(t.snapshot, Execute(t.snapshot, t.op).value, c)
    ensures Sound(q) && Evolved(c, q)
  {
    hide Sound, Execute, CanCommit, Merge, Silently;
    CommitIsSerialOrSilent(t.snapshot, c, t.op, Execute(t.snapshot, t.op).value);
    if q == c {
    } else if Silently(c, q) {
      SilenceKeepsSound(c, q);
    } else {
      ExecuteKeepsSound(c, t.op);
      ExecuteEvolves(c, t.op);
    }
  }

  lemma StepKeepsSound(p: Store, step: Step, q: Store)
    requires StoreSound(p) && Next(p, step, q)
    ensures StoreSound(q) && Evolved(p.db, q.db)
  {
    hide Sound, Execute, CanCommit, Merge;
    if step.Commit? {
      CommitKeepsSound(p.running[step.id], p.db, q.db);
      forall id | id in q.running ensures TransactionSound(q.running[id], q.db) {
        assert TransactionSound(p.running[id], p.db);
        EvolvedIsTransitive(p.running[id].snapshot, p.db, q.db);
      }
    }
  }

  lemma {:induction false} EveryStoreIsSound(stores: seq<Store>, steps: seq<Step>, i: nat)
    requires Run(stores, steps) && i < |stores|
    ensures StoreSound(stores[i])
  {
    if i > 0 {
      hide Next, Sound, Evolved, TransactionSound;
      EveryStoreIsSound(stores, steps, i - 1);
      assert StepTaken(stores, steps, i - 1);
      StepKeepsSound(stores[i - 1], steps[i - 1], stores[i]);
    }
  }

  // ----- what every reachable state shows -----

  /**
   The newest history entry of a conversation is its current state and context; each entry continues from the one
   before it and moves to another state, and the first starts from nothing.
   */
  lemma HistoryReconstructs(stores: seq<Store>, steps: seq<Step>, i: nat, id: Id)
    requires Run(stores, steps) && i < |stores| && id in stores[i].db.conversations
    ensures var c, e := stores[i].db.conversations[id], Newest(stores[i].db.history, id);
            e.Some? && e.value.to == c.state && e.value.context == c.context
    ensures forall j :: 0 <= j < |stores[i].db.history| ==>
              LinksTo(stores[i].db.history[j], Newest(stores[i].db.history[..j], stores[i].db.history[j].conversation))
  {
    EveryStoreIsSound(stores, steps, i);
    assert ConversationSound(stores[i].db, id);
  }

  /** A conversation under human control is in a handoff and has an assignee; one under bot control has none. */
  lemma HumanControlMeansHandoff(stores: seq<Store>, steps: seq<Step>, i: nat, id: Id)
    requires Run(stores, steps) && i < |stores| && id in stores[i].db.conversations
    ensures var c := stores[i].db.conversations[id];
            && (c.control.HUMAN? ==> c.state.HUMAN_HANDOFF? && c.assignedTo.Some?)
            && (c.control.BOT? <==> c.assignedTo.None?)
  {
    EveryStoreIsSound(stores, steps, i);
    assert ConversationSound(stores[i].db, id);
  }

  /** Collected fields: one fixed set per bot state, none of them empty. */
  lemma ContextsAreWellFormed(stores: seq<Store>, steps: seq<Step>, i: nat, id: Id)
    requires Run(stores, steps) && i < |stores| && id in stores[i].db.conversations
    ensures var c := stores[i].db.conversations[id];
            !c.state.HUMAN_HANDOFF? ==> c.context.Keys == KeysOf(c.state) && forall f :: f in c.context ==> c.context[f] != ""
  {
    EveryStoreIsSound(stores, steps, i);
    assert ConversationSound(stores[i].db, id);
  }

  /** Each provider event is processed at most once. */
  lemma EventsAreProcessedOnce(stores: seq<Store>, steps: seq<Step>, i: nat, x: nat, y: nat)
    requires Run(stores, steps) && i < |stores| && x < |stores[i].db.log| && y < |stores[i].db.log|
    requires stores[i].db.log[x].event == stores[i].db.log[y].event
    ensures x == y
  {
    EveryStoreIsSound(stores, steps, i);
  }

  /**
   Every command the bot ever gives carries exactly what the customer last answered where the bot asked for each
   field, and is given in answer to a confirmation (or to the new time).
   */
  lemma CommandsCarryTheAnswers(stores: seq<Store>, steps: seq<Step>, i: nat, n: nat)
    requires Run(stores, steps) && i < |stores| && n < |stores[i].db.log| && stores[i].db.log[n].command.Some?
    ensures var x, before := stores[i].db.log[n], stores[i].db.log[..n];
            match x.command.value
            case CreateBooking(service, professional, date, time, customer) =>
              && x.heardIn == Some(BOOKING_CONFIRMATION)
              && LatestAnswer(before, x.conversation, BOOKING_SERVICE) == Some(service)
              && LatestAnswer(before, x.conversation, BOOKING_PROFESSIONAL) == Some(professional)
              && LatestAnswer(before, x.conversation, BOOKING_DATE) == Some(date)
              && LatestAnswer(before, x.conversation, BOOKING_TIME) == Some(time)
              && LatestAnswer(before, x.conversation, BOOKING_CUSTOMER_DATA) == Some(customer)
            case RescheduleBooking(appointment, date, time) =>
              && x.heardIn == Some(RESCHEDULE_TIME) && time == InputValue(x.input)
              && LatestAnswer(before, x.conversation, RESCHEDULE_SELECT_APPOINTMENT) == Some(appointment)
              && LatestAnswer(before, x.conversation, RESCHEDULE_DATE) == Some(date)
            case CancelBooking(appointment) =>
              && x.heardIn == Some(CANCEL_CONFIRMATION)
              && LatestAnswer(before, x.conversation, CANCEL_SELECT_APPOINTMENT) == Some(appointment)
  {
    EveryStoreIsSound(stores, steps, i);
    assert Honest(stores[i].db.log[..n], stores[i].db.log[n]);
  }

  predicate Speaks(x: Exchange) { x.replies != [] || x.command.Some? }

  /**
   Whenever a step of a run makes the bot say or order something, the conversation is at that very moment under bot
   control and outside a handoff, in the state the bot heard the message in, or is only being opened.
   */
  lemma NoWordInAHandoff(stores: seq<Store>, steps: seq<Step>, i: nat, n: nat)
    requires Run(stores, steps) && i < |steps| && |stores[i].db.log| <= n < |stores[i + 1].db.log| && Speaks(stores[i + 1].db.log[n])
    ensures var x := stores[i + 1].db.log[n];
            if x.conversation in stores[i].db.conversations then
              var c := stores[i].db.conversations[x.conversation];
              c.control.BOT? && !c.state.HUMAN_HANDOFF? && x.heardIn == Some(c.state)
            else x.heardIn == Some(MAIN_MENU)
  {
    EveryStoreIsSound(stores, steps, i);
    assert StepTaken(stores, steps, i);
    hide StepTaken, Run, Execute, CanCommit, Merge, Sound, Evolved, Speaks;
    assert steps[i].Commit?;
    SpokenAtCommit(stores[i].running[steps[i].id], stores[i].db, stores[i + 1].db, n);
  }

  lemma SpokenAtCommit(t: Transaction, c: Db, q: Db, n: nat)
    requires Sound(c) && TransactionSound(t, c) && Execute(t.snapshot, t.op).Success?
    requires CanCommit(t.snapshot, Execute(t.snapshot, t.op).value, c) && q == Merge(t.snapshot, Execute(t.snapshot, t.op).value, c)
    requires |c.log| <= n < |q.log| && Speaks(q.log[n])
    ensures var x := q.log[n];
            if x.conversation in c.conversations then
              var a := c.conversations[x.conversation];
              a.control.BOT? && !a.state.HUMAN_HANDOFF? && x.heardIn == Some(a.state)
            else x.heardIn == Some(MAIN_MENU)
  {
    hide Sound, Evolved, CanCommit, Merge, Execute;
    CommitIsSerialOrSilent(t.snapshot, c, t.op, Execute(t.snapshot, t.op).value);
    assert !Silently(c, q);
    SpeechFollowsTheState(c, t.op, n);
  }

  lemma SpeechFollowsTheState(db: Db, op: Operation, n: nat)
    requires Sound(db) && Execute(db, op).Success?
    requires |db.log| <= n < |Execute(db, op).value.log| && Speaks(Execute(db, op).value.log[n])
    ensures var x := Execute(db, op).value.log[n];
            if x.conversation in db.conversations then
              var c := db.conversations[x.conversation];
              c.control.BOT? && !c.state.HUMAN_HANDOFF? && x.heardIn == Some(c.state)
            else x.heardIn == Some(MAIN_MENU)
  {
    hide TransitionConversation, Linked, LogHonest;
    if ThreadKnown(db, op.inbound) {
      assert ConversationSound(db, ByThread(db, op.inbound));
    }
  }
}
