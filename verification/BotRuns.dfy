/** Runs that mix messages, handoffs and every other command, and what the bot's orders come to in them. */
module BotRuns {
  import opened Wrappers
  import opened Errors
  import opened BotBookings
  import Sm = ConversationStateMachine
  import C = Conversations
  import CR = ConversationRuns
  import S = System
  import B = Bookings

  datatype Transaction = Transaction(snapshot: World, op: Operation)

  datatype State = State(world: World, running: map<nat, Transaction>)

  datatype Step = Begin(id: nat, op: Operation) | Abort(id: nat) | Commit(id: nat)

  ghost predicate Next(fixed: Setting, p: State, step: Step, q: State) {
    match step
    case Begin(id, op) =>
      id !in p.running && Allowed(fixed, op) && q == p.(running := p.running[id := Transaction(p.world, op)])
    case Abort(id) => id in p.running && q == p.(running := p.running - {id})
    case Commit(id) =>
      && id in p.running
      && var t := p.running[id];
         && Execute(fixed, t.snapshot, t.op).Success?
         && var v := Execute(fixed, t.snapshot, t.op).value;
            && CanCommit(t.snapshot, v, p.world)
            && q == State(Merge(t.snapshot, v, p.world), p.running - {id})
  }

  ghost predicate StepTaken(fixed: Setting, states: seq<State>, steps: seq<Step>, i: nat)
    requires i < |steps| && |states| == |steps| + 1
  {
    Next(fixed, states[i], steps[i], states[i + 1])
  }

  ghost predicate Run(fixed: Setting, states: seq<State>, steps: seq<Step>) {
    && DigestsDiffer(fixed)
    && |states| == |steps| + 1
    && states[0] == State(Empty, map[])
    && forall i :: 0 <= i < |steps| ==> StepTaken(fixed, states, steps, i)
  }

  ghost predicate TransactionSound(fixed: Setting, t: Transaction, w: World) {
    Sound(fixed, t.snapshot) && Evolved(t.snapshot, w) && Allowed(fixed, t.op)
  }

  ghost predicate StateSound(fixed: Setting, p: State) {
    Sound(fixed, p.world) && forall id :: id in p.running ==> TransactionSound(fixed, p.running[id], p.world)
  }

  lemma CommitKeepsSound(fixed: Setting, t: Transaction, c: World, v: World)
    requires Sound(fixed, c) && TransactionSound(fixed, t, c) && Execute(fixed, t.snapshot, t.op) == Success(v) && CanCommit(t.snapshot, v, c)
    ensures Sound(fixed, Merge(t.snapshot, v, c)) && Evolved(c, Merge(t.snapshot, v, c))
  {
    hide Sound, Evolved, Execute, Silently, Merge;
    CommitIsSerialOrSilent(fixed, t.snapshot, c, t.op, v);
    EvolvedIsReflexive(c);
    var q := Merge(t.snapshot, v, c);
    if q == c {
    } else if Silently(c, q) {
      SilenceKeepsSound(fixed, c, q);
    } else {
      ExecuteKeepsSound(fixed, c, t.op);
    }
  }

  lemma StepKeepsSound(fixed: Setting, p: State, step: Step, q: State)
    requires StateSound(fixed, p) && Next(fixed, p, step, q)
    ensures StateSound(fixed, q) && Evolved(p.world, q.world)
  {
    hide Sound, Evolved, Execute, CanCommit, Merge;
    EvolvedIsReflexive(p.world);
    if step.Commit? {
      var t := p.running[step.id];
      CommitKeepsSound(fixed, t, p.world, Execute(fixed, t.snapshot, t.op).value);
      forall id | id in q.running ensures TransactionSound(fixed, q.running[id], q.world) {
        assert TransactionSound(fixed, p.running[id], p.world);
        EvolvedIsTransitive(p.running[id].snapshot, p.world, q.world);
      }
    }
  }

  lemma {:induction false} EveryWorldIsSound(fixed: Setting, states: seq<State>, steps: seq<Step>, i: nat)
    requires Run(fixed, states, steps) && i < |states|
    ensures StateSound(fixed, states[i])
  {
    hide Next, Sound, Evolved, TransactionSound;
    if i == 0 {
      EmptyIsSound(fixed);
    } else {
      EveryWorldIsSound(fixed, states, steps, i - 1);
      assert StepTaken(fixed, states, steps, i - 1);
      StepKeepsSound(fixed, states[i - 1], steps[i - 1], states[i]);
    }
  }

  // ----- what every run shows -----

  predicate IsTheBooking(w: World, conversation: Id, fingerprint: Id, id: Id)
    requires conversation in w.talk.conversations
  {
    HasBooking(w.store, w.talk.conversations[conversation].tenant, conversation, fingerprint, id)
  }

  /**
   Every booking command that the bot ever gave has exactly one appointment under its conversation's key. It has the
   command's fingerprint, it is the customer's, for the service and the professional that the command names, and it was
   booked for the date and time that the command names.
   */
  lemma BookingsAreHonored(fixed: Setting, states: seq<State>, steps: seq<Step>, i: nat, x: C.Exchange)
    requires Run(fixed, states, steps) && i < |states| && x in states[i].world.talk.log
    requires x.command.Some? && x.command.value.CreateBooking?
    ensures var w := states[i].world;
            && x.conversation in w.talk.conversations
            && var c := w.talk.conversations[x.conversation];
               var fingerprint := fixed.digest(fixed.customer(c.tenant, c.thread), x.command.value);
               && (exists id :: IsTheBooking(w, x.conversation, fingerprint, id) &&
                                AsNamed(fixed, w.store.bookings, w.store.bookings.appointments[id], fixed.customer(c.tenant, c.thread),
                                        x.command.value))
               && (forall y, z ::
                     (B.HasKey(w.store.bookings, c.tenant, B.ConversationBooking(x.conversation), y) &&
                      B.HasKey(w.store.bookings, c.tenant, B.ConversationBooking(x.conversation), z)) ==> y == z)
  {
    EveryWorldIsSound(fixed, states, steps, i);
    var w := states[i].world;
    assert Honored(fixed, w.talk, w.store, x);
    var c := w.talk.conversations[x.conversation];
    var fingerprint := fixed.digest(fixed.customer(c.tenant, c.thread), x.command.value);
    var id :| HasBooking(w.store, c.tenant, x.conversation, fingerprint, id);
    assert NamedByDigest(fixed, w.store.bookings, w.store.bookings.appointments[id]);
    assert IsTheBooking(w, x.conversation, fingerprint, id);
  }

  /** So all booking commands of one conversation, however often the customer confirms, are one and the same request. */
  lemma OneRequestPerConversation(fixed: Setting, states: seq<State>, steps: seq<Step>, i: nat, x: C.Exchange, y: C.Exchange)
    requires Run(fixed, states, steps) && i < |states|
    requires x in states[i].world.talk.log && y in states[i].world.talk.log && x.conversation == y.conversation
    requires x.command.Some? && x.command.value.CreateBooking? && y.command.Some? && y.command.value.CreateBooking?
    ensures x.command == y.command
  {
    hide DigestsDiffer;
    BookingsAreHonored(fixed, states, steps, i, x);
    BookingsAreHonored(fixed, states, steps, i, y);
    var w := states[i].world;
    var c := w.talk.conversations[x.conversation];
    var customer := fixed.customer(c.tenant, c.thread);
    var a :| IsTheBooking(w, x.conversation, fixed.digest(customer, x.command.value), a);
    var b :| IsTheBooking(w, x.conversation, fixed.digest(customer, y.command.value), b);
    assert a == b;
    SameDigest(fixed, customer, x.command.value, y.command.value);
  }

  lemma SameDigest(fixed: Setting, customer: Id, x: Sm.Command, y: Sm.Command)
    requires DigestsDiffer(fixed) && fixed.digest(customer, x) == fixed.digest(customer, y)
    ensures x == y
  {
  }

  ghost predicate CommitsMessage(p: State, step: Step) {
    step.Commit? && step.id in p.running && p.running[step.id].op.Message?
  }

  /**
   A committed message logs one exchange, and the store changes by exactly what that exchange orders, carried out on
   the store as it is at the commit: without an order it does not change, and with a refused one there is no commit.
   */
  lemma OrdersAreAtomic(fixed: Setting, states: seq<State>, steps: seq<Step>, i: nat)
    requires Run(fixed, states, steps) && i < |steps| && CommitsMessage(states[i], steps[i])
    ensures var op, p, q := states[i].running[steps[i].id].op, states[i].world, states[i + 1].world;
            && |q.talk.log| == |p.talk.log| + 1
            && Obey(fixed, op.ev, op.details, q.talk.log[|p.talk.log|], p.store) == Success(q.store)
  {
    EveryWorldIsSound(fixed, states, steps, i);
    assert StepTaken(fixed, states, steps, i);
    hide Run, StepTaken, Sound, Evolved, CanCommit, Merge, Execute;
    MessageAtCommit(fixed, states[i].running[steps[i].id], states[i].world, states[i + 1].world);
  }

  lemma MessageAtCommit(fixed: Setting, t: Transaction, c: World, q: World)
    requires Sound(fixed, c) && TransactionSound(fixed, t, c) && t.op.Message? && Execute(fixed, t.snapshot, t.op).Success?
    requires CanCommit(t.snapshot, Execute(fixed, t.snapshot, t.op).value, c)
    requires q == Merge(t.snapshot, Execute(fixed, t.snapshot, t.op).value, c)
    ensures |q.talk.log| == |c.talk.log| + 1
    ensures Obey(fixed, t.op.ev, t.op.details, q.talk.log[|c.talk.log|], c.store) == Success(q.store)
  {
    hide Sound, Evolved, CanCommit, Merge, C.ReceiveMessage, Obey, CR.Silently;
    MessageCommits(fixed, t.snapshot, c, t.op.ev, t.op.details, Execute(fixed, t.snapshot, t.op).value);
    if Silently(c, q) {
      SilentExchange(c.talk, q.talk);
    } else {
      ReceivingAppends(c.talk, t.op.ev);
    }
  }

  /** The message's booking command is refused by the store its transaction reads. */
  ghost predicate OrderRefused(fixed: Setting, t: Transaction) {
    && t.op.Message? && C.ReceiveMessage(t.snapshot.talk, t.op.ev).Success?
    && var talk := C.ReceiveMessage(t.snapshot.talk, t.op.ev).value;
       |talk.log| > |t.snapshot.talk.log| &&
       Obey(fixed, t.op.ev, t.op.details, talk.log[|t.snapshot.talk.log|], t.snapshot.store).Failure?
  }

  /** A message whose order is refused never commits: its transaction stays open or is abandoned, and abandoning it changes nothing. */
  lemma RefusedOrdersLeaveNothing(fixed: Setting, states: seq<State>, steps: seq<Step>, i: nat, id: nat)
    requires Run(fixed, states, steps) && i < |steps| && id in states[i].running && OrderRefused(fixed, states[i].running[id])
    ensures if steps[i] == Abort(id) then states[i + 1].world == states[i].world && id !in states[i + 1].running
            else steps[i] != Commit(id) && id in states[i + 1].running && states[i + 1].running[id] == states[i].running[id]
  {
    assert StepTaken(fixed, states, steps, i);
    var t := states[i].running[id];
    ReceivingAppends(t.snapshot.talk, t.op.ev);
    assert Execute(fixed, t.snapshot, t.op).Failure?;
  }
}
