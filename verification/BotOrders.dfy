/** What the bot's orders do to the store in runs that mix messages with every other command. */
module BotOrders {
  import opened Wrappers
  import opened BotBookings
  import opened BotRuns
  import Sm = ConversationStateMachine
  import C = Conversations
  import S = System
  import SR = Runs
  import B = Bookings
  import Histories
  import opened BookingAnswers

  // ----- the store is one that commands alone can reach -----

  lemma OneMoreCommand(cat: B.Catalog, store: S.Db, command: S.Command, store': S.Db)
    requires Histories.Reachable(cat, store) && S.Execute(cat, store, command) == Success(store')
    ensures Histories.Reachable(cat, store')
  {
    hide *;
    Histories.ReachableIffSerial(cat, store);
    var commands :| SR.Serially(cat, commands) == Success(store);
    Histories.OneMore(cat, commands, command, store, store');
    Histories.SerialIsReachable(cat, commands + [command], store');
  }

  lemma EmptyIsReachable(cat: B.Catalog)
    ensures Histories.Reachable(cat, S.Empty)
  {
    assert SR.Serially(cat, []) == Success(S.Empty);
    hide *;
    Histories.SerialIsReachable(cat, [], S.Empty);
  }

  lemma OperationKeepsReachable(fixed: Setting, w: World, op: Operation, q: World)
    requires Histories.Reachable(fixed.cat, w.store) && Execute(fixed, w, op) == Success(q)
    ensures Histories.Reachable(fixed.cat, q.store)
  {
    hide S.Execute, C.ReceiveMessage, C.Execute, Histories.Reachable;
    match op
    case Message(ev, d) =>
      ReceivingAppends(w.talk, ev);
      var x := q.talk.log[|w.talk.log|];
      if x.command.Some? {
        OneMoreCommand(fixed.cat, w.store, Order(fixed, ev, x.conversation, d, x.command.value), q.store);
      }
    case Handoff(_) =>
    case Direct(command) => OneMoreCommand(fixed.cat, w.store, command, q.store);
    case Register(_, _) =>
  }

  /**
   Whatever messages, handoffs and commands a run mixes, its store is always one that commands alone can reach: everything
   that holds of the store in runs of commands holds in runs with the bot.
   */
  lemma {:induction false} EveryStoreIsReachable(fixed: Setting, states: seq<State>, steps: seq<Step>, i: nat)
    requires Run(fixed, states, steps) && i < |states|
    ensures Histories.Reachable(fixed.cat, states[i].world.store)
  {
    hide Sound, Evolved, Execute, CanCommit, Merge, Histories.Reachable, Silently;
    if i == 0 {
      EmptyIsReachable(fixed.cat);
    } else {
      EveryStoreIsReachable(fixed, states, steps, i - 1);
      EveryWorldIsSound(fixed, states, steps, i - 1);
      assert StepTaken(fixed, states, steps, i - 1);
      if steps[i - 1].Commit? {
        var t, c, q := states[i - 1].running[steps[i - 1].id], states[i - 1].world, states[i].world;
        assert TransactionSound(fixed, t, c);
        CommitIsSerialOrSilent(fixed, t.snapshot, c, t.op, Execute(fixed, t.snapshot, t.op).value);
        if Silently(c, q) {
          SilenceKeepsStore(c, q);
        } else if q != c {
          OperationKeepsReachable(fixed, c, t.op, q);
        }
      }
    }
  }

  lemma SilenceKeepsStore(c: World, q: World)
    requires Silently(c, q)
    ensures q.store == c.store
  {
  }

  // ----- cancellations and moves -----

  function CommandOf(fixed: Setting, op: Operation, appointment: string): (r: B.ChannelCommand)
    requires op.Message?
  {
    B.ChannelCommand(op.ev.tenant, fixed.customer(op.ev.tenant, op.ev.thread), fixed.appointment(appointment), op.details.now)
  }

  /**
   A committed message that orders a cancellation cancels, in the same step, the appointment that its text refers to; it was
   the customer's own and still waiting, and nothing else in the store changes.
   */
  lemma CancellationsAreCarriedOut(fixed: Setting, states: seq<State>, steps: seq<Step>, i: nat, appointment: string)
    requires Run(fixed, states, steps) && i < |steps| && CommitsMessage(states[i], steps[i])
    requires |states[i + 1].world.talk.log| > |states[i].world.talk.log|
    requires states[i + 1].world.talk.log[|states[i].world.talk.log|].command == Some(Sm.CancelBooking(appointment))
    ensures var p, q := states[i].world.store, states[i + 1].world.store;
            var c := CommandOf(fixed, states[i].running[steps[i].id].op, appointment);
            && OwnWaiting(p.bookings, c)
            && IsCancelled(p.bookings, q.bookings, p.bookings.appointments[c.appointment], "Customer channel request", None, B.CANCELLED, c.now)
            && q.money == p.money
  {
    OrdersAreAtomic(fixed, states, steps, i);
    EveryStoreIsReachable(fixed, states, steps, i);
    hide S.Execute, Run, CommitsMessage, Histories.Reachable, IsCancelled, KeyTaken;
    ChannelCancellationAnswers(fixed.cat, states[i].world.store, CommandOf(fixed, states[i].running[steps[i].id].op, appointment));
  }

  /**
   A committed message that orders a move has moved the appointment that its text refers to, within its location, to the
   date and time that it names; the start was on offer, and nothing else in the store changes.
   */
  lemma MovesAreCarriedOut(fixed: Setting, states: seq<State>, steps: seq<Step>, i: nat, appointment: string, date: string, time: string)
    requires Run(fixed, states, steps) && i < |steps| && CommitsMessage(states[i], steps[i])
    requires |states[i + 1].world.talk.log| > |states[i].world.talk.log|
    requires states[i + 1].world.talk.log[|states[i].world.talk.log|].command == Some(Sm.RescheduleBooking(appointment, date, time))
    ensures var p, q, op := states[i].world.store, states[i + 1].world.store, states[i].running[steps[i].id].op;
            var c := CommandOf(fixed, op, appointment);
            && q.money == p.money && OwnWaiting(p.bookings, c)
            && var a := p.bookings.appointments[c.appointment];
               var startsAt := fixed.instant(a.location, date, time);
               && StartRefused(p.bookings, op.details.agenda, a.tenant, a.staff, startsAt, op.details.now, Some(a.id)).None?
               && IsMoved(p.bookings, q.bookings, a, startsAt, startsAt + op.details.agenda.durationMinutes * 60_000, None, None)
  {
    OrdersAreAtomic(fixed, states, steps, i);
    EveryStoreIsReachable(fixed, states, steps, i);
    var op := states[i].running[steps[i].id].op;
    hide S.Execute, Run, CommitsMessage, Histories.Reachable, IsMoved, KeyTaken, StartRefused;
    var d := op.details;
    ChannelMoveAnswers(fixed.cat, states[i].world.store,
                       B.ChannelReschedule(CommandOf(fixed, op, appointment), d.found, d.location, fixed.instant(d.location, date, time), d.agenda));
  }
}
