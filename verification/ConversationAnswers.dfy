/** What a customer and an advisor can rely on in every run: each message is answered as the conversation stands, and each handoff action does exactly what it says. */
module ConversationAnswers {
  import opened Wrappers
  import opened Errors
  import opened Snapshots
  import opened ConversationStateMachine
  import opened Conversations
  import opened ConversationRuns

  // ----- commands follow the menu -----

  /** The latest exchange before `n` in which the bot heard the conversation at its menu. */
  ghost predicate LatestAtMenu(log: seq<Exchange>, n: nat, m: int)
    requires n <= |log|
  {
    && 0 <= m < n && n < |log| && log[m].conversation == log[n].conversation && log[m].heardIn == Some(MAIN_MENU)
    && forall k :: m < k < n && log[k].conversation == log[n].conversation ==> log[k].heardIn != Some(MAIN_MENU)
  }

  lemma {:induction false} LatestAnswerIs(log: seq<Exchange>, id: Id, asked: State) returns (m: nat)
    requires LatestAnswer(log, id, asked).Some?
    ensures m < |log| && log[m].conversation == id && log[m].heardIn == Some(asked)
    ensures LatestAnswer(log, id, asked) == Some(InputValue(log[m].input))
    ensures forall k :: m < k < |log| && log[k].conversation == id ==> log[k].heardIn != Some(asked)
  {
    var x := log[|log| - 1];
    if x.conversation == id && x.heardIn == Some(asked) {
      m := |log| - 1;
    } else {
      m := LatestAnswerIs(log[..|log| - 1], id, asked);
    }
  }

  /**
   Every command follows a choice of its kind at the menu, and the customer was not back at the menu in between: a booking
   one to book, a move one to reschedule, a cancellation one to cancel.
   */
  lemma CommandsFollowTheirChoice(stores: seq<Store>, steps: seq<Step>, i: nat, n: nat)
    requires Run(stores, steps) && i < |stores| && n < |stores[i].db.log| && stores[i].db.log[n].command.Some?
    ensures exists m :: LatestAtMenu(stores[i].db.log, n, m) &&
              var choice := CommandKey(stores[i].db.log[m].input);
              match stores[i].db.log[n].command.value
              case CreateBooking(_, _, _, _, _) => choice == "book" || choice == "booking" || choice == "book_appointment" || choice == "1"
              case RescheduleBooking(_, _, _) => choice == "reschedule" || choice == "reschedule_appointment" || choice == "2"
              case CancelBooking(_) => choice == "cancel" || choice == "cancel_appointment" || choice == "3"
  {
    EveryStoreIsSound(stores, steps, i);
    var log := stores[i].db.log;
    var x := log[n];
    assert Honest(log[..n], x);
    hide Run, StoreSound, InputValue, Keyword;
    var m := LatestAnswerIs(log[..n], x.conversation, MAIN_MENU);
    assert LatestAtMenu(log, n, m);
    assert CommandKey(log[m].input) == Keyword(InputValue(log[m].input), false);
  }

  // ----- messages -----

  ghost predicate CommitsMessage(p: Store, step: Step) {
    step.Commit? && step.id in p.running && p.running[step.id].op.Receive?
  }

  /** The conversation was in a handoff when its message was read. */
  ghost predicate ReadInHandoff(s: Db, ev: InboundEvent) {
    exists id :: id in s.conversations && OnThread(s.conversations[id], ev) &&
                 (s.conversations[id].control.HUMAN? || s.conversations[id].state.HUMAN_HANDOFF?)
  }

  /** The conversation of a thread as a message finds it, or as it is opened for its first message. */
  ghost predicate FoundOrOpened(p: Db, ev: InboundEvent, c: Conversation) {
    if c.id in p.conversations then p.conversations[c.id] == c && OnThread(c, ev)
    else
      && c == Conversation(ev.newId, ev.tenant, ev.event.channel, ev.thread, MAIN_MENU, map[], BOT, None, 0)
      && forall id :: id in p.conversations ==> !OnThread(p.conversations[id], ev)
  }

  /**
   A committed message logs one exchange. If its conversation was read in a handoff, nothing is said or changed. Otherwise the
   bot answers the conversation as it is at the commit: what it says, orders and stores is the transition of that state,
   with a history entry exactly if the state changes, and no other conversation is touched.
   */
  lemma MessagesAreAnswered(stores: seq<Store>, steps: seq<Step>, i: nat)
    requires Run(stores, steps) && i < |steps| && CommitsMessage(stores[i], steps[i])
    ensures var t, p, q := stores[i].running[steps[i].id], stores[i].db, stores[i + 1].db;
            if ReadInHandoff(t.snapshot, t.op.inbound)
            then exists id :: q == p.(log := p.log + [Exchange(t.op.inbound.event, id, t.op.inbound.input, None, [], None)])
            else exists c :: FoundOrOpened(p, t.op.inbound, c) && Answers(p, q, t.op.inbound, c)
  {
    EveryStoreIsSound(stores, steps, i);
    assert StepTaken(stores, steps, i);
    hide Run, Sound, Evolved;
    var t := stores[i].running[steps[i].id];
    assert TransactionSound(t, stores[i].db);
    MessageCommits(t.snapshot, stores[i].db, t.op.inbound, Execute(t.snapshot, t.op).value);
  }

  /** Said, ordered, stored and recorded as the transition says. */
  ghost predicate Answers(p: Db, q: Db, ev: InboundEvent, c: Conversation) {
    var t := TransitionConversation(c.state, c.context, ev.input);
    && c.control.BOT? && !c.state.HUMAN_HANDOFF?
    && q.conversations == p.conversations[c.id := c.(state := t.state, context := t.context, revision := c.revision + 1)]
    && q.log == p.log + [Exchange(ev.event, c.id, ev.input, Some(c.state), t.replies, t.command)]
    && q.history == p.history + (if c.id in p.conversations then [] else [HistoryEntry(c.id, None, MAIN_MENU, map[])])
                              + (if t.state != c.state then [HistoryEntry(c.id, Some(c.state), t.state, t.context)] else [])
  }

  lemma MessageCommits(s: Db, p: Db, ev: InboundEvent, v: Db)
    requires Sound(s) && Sound(p) && Evolved(s, p) && ReceiveMessage(s, ev) == Success(v) && CanCommit(s, v, p)
    ensures var q := Merge(s, v, p);
            if ReadInHandoff(s, ev) then exists id :: q == p.(log := p.log + [Exchange(ev.event, id, ev.input, None, [], None)])
            else exists c :: FoundOrOpened(p, ev, c) && Answers(p, q, ev, c)
  {
    var q := Merge(s, v, p);
    ReadInHandoffIs(s, ev);
    if ThreadKnown(s, ev) {
      var a := s.conversations[ByThread(s, ev)];
      assert ConversationSound(s, ByThread(s, ev));
      if InHandoff(a) {
        SilentCommits(s, p, ev, v);
      } else {
        AnswerCommits(s, p, ev, v);
      }
    } else {
      OpeningReceiveSerializes(s, p, ev, v);
      OpeningCommits(p, ev);
    }
    hide Sound, Evolved, CanCommit, Merge, ReceiveMessage, Answers, FoundOrOpened, ReadInHandoff;
  }

  /** A message is refused exactly if its event was processed before, or the identifier for its new conversation is in use. */
  lemma MessagesAreRefusedOnlyAsDuplicates(stores: seq<Store>, steps: seq<Step>, i: nat, ev: InboundEvent)
    requires Run(stores, steps) && i < |stores|
    ensures var p, r := stores[i].db, Execute(stores[i].db, Receive(ev));
            && (r.Failure? <==> (exists x :: x in p.log && x.event == ev.event) ||
                                (ev.newId in p.conversations && forall id :: id in p.conversations ==> !OnThread(p.conversations[id], ev)))
            && (r.Failure? ==> r.error == DUPLICATE_KEY)
  {
    var p := stores[i].db;
    assert EventSeen(p.log, ev.event) <==> exists x :: x in p.log && x.event == ev.event by {
      if x :| x in p.log && x.event == ev.event {
        var j :| 0 <= j < |p.log| && p.log[j] == x;
      }
    }
    hide Run, Hear;
  }

  lemma ReadInHandoffIs(s: Db, ev: InboundEvent)
    requires ThreadsUnique(s.conversations)
    ensures ReadInHandoff(s, ev) <==> ThreadKnown(s, ev) && InHandoff(s.conversations[ByThread(s, ev)])
  {
    if ReadInHandoff(s, ev) {
      var id :| id in s.conversations && OnThread(s.conversations[id], ev) && InHandoff(s.conversations[id]);
      ThreadIsFound(s, ev, id);
    }
  }

  lemma SilentCommits(s: Db, p: Db, ev: InboundEvent, v: Db)
    requires Sound(s) && ThreadKnown(s, ev) && InHandoff(s.conversations[ByThread(s, ev)])
    requires ReceiveMessage(s, ev) == Success(v) && CanCommit(s, v, p)
    ensures exists id :: Merge(s, v, p) == p.(log := p.log + [Exchange(ev.event, id, ev.input, None, [], None)])
  {
    var id := ByThread(s, ev);
    assert ConversationSound(s, id);
    var x := Silent(ev, id);
    assert v == s.(log := s.log + [x]);
    MergeUntouched(s.conversations, p.conversations);
    assert v.history[|s.history|..] == [] && v.log[|s.log|..] == [x];
    assert Merge(s, v, p) == p.(log := p.log + [x]);
  }

  lemma AnswerCommits(s: Db, p: Db, ev: InboundEvent, v: Db)
    requires Sound(s) && Sound(p) && Evolved(s, p) && ThreadKnown(s, ev) && !InHandoff(s.conversations[ByThread(s, ev)])
    requires ReceiveMessage(s, ev) == Success(v) && CanCommit(s, v, p)
    ensures exists c :: FoundOrOpened(p, ev, c) && Answers(p, Merge(s, v, p), ev, c)
  {
    hide TransitionConversation, Linked, LogHonest;
    var id := ByThread(s, ev);
    assert ConversationSound(s, id);
    var a := s.conversations[id];
    var t := TransitionConversation(a.state, a.context, ev.input);
    WriteMerges(s, p, Answered(a, t), Moves(a, t), [Spoken(ev, a, t)], v);
    hide Sound, Evolved, CanCommit, ReceiveMessage, Merge;
    assert FoundOrOpened(p, ev, a);
    assert p.history + [] + Moves(a, t) == p.history + Moves(a, t);
    assert Answers(p, Put(p, Answered(a, t), Moves(a, t), [Spoken(ev, a, t)]), ev, a);
  }

  lemma OpeningCommits(p: Db, ev: InboundEvent)
    requires !EventSeen(p.log, ev.event) && !ThreadKnown(p, ev) && ev.newId !in p.conversations
    ensures ReceiveMessage(p, ev).Success?
    ensures exists c :: FoundOrOpened(p, ev, c) && Answers(p, ReceiveMessage(p, ev).value, ev, c)
  {
    OpeningIsOnePut(p, ev);
    var a := Opened(ev);
    var t := TransitionConversation(a.state, a.context, ev.input);
    hide TransitionConversation, ReceiveMessage;
    var first := [HistoryEntry(a.id, None, MAIN_MENU, map[])];
    assert p.history + first + Moves(a, t) == p.history + (first + Moves(a, t));
    assert FoundOrOpened(p, ev, a) && Answers(p, FirstAnswer(p, ev), ev, a);
  }

  // ----- handoffs -----

  /** The conversation is as given and has a new revision; everything else, and every message, is as it was. */
  ghost predicate Handed(p: Db, q: Db, c: Conversation, state: State, control: Control, assignee: Option<Id>, context: Context,
                         entries: seq<HistoryEntry>)
  {
    && q.conversations == p.conversations[c.id := Conversation(c.id, c.tenant, c.channel, c.thread, state, context, control, assignee,
                                                               c.revision + 1)]
    && q.history == p.history + entries && q.log == p.log
  }

  predicate OfTenant(p: Db, tenant: Id, id: Id) {
    id in p.conversations && p.conversations[id].tenant == tenant
  }

  /** Asking for a person moves a bot conversation into a handoff with everything it had collected; asking again changes nothing. */
  lemma RequestAnswers(stores: seq<Store>, steps: seq<Step>, i: nat, tenant: Id, id: Id, actorActive: bool)
    requires Run(stores, steps) && i < |stores|
    ensures var p, r := stores[i].db, Execute(stores[i].db, Request(tenant, id, actorActive));
            if !actorActive then r == Failure(HANDOFF_ASSIGNEE_INVALID)
            else if !OfTenant(p, tenant, id) then r == Failure(CONVERSATION_NOT_FOUND)
            else
              var c := p.conversations[id];
              if c.control.HUMAN? then r == Failure(CONVERSATION_ALREADY_HUMAN)
              else if c.state.HUMAN_HANDOFF? then r == Success(p)
              else r.Success? && Handed(p, r.value, c, HUMAN_HANDOFF, BOT, None, c.context,
                                        [HistoryEntry(id, Some(c.state), HUMAN_HANDOFF, c.context)])
  {
    KeyedById(stores, steps, i, id);
    assert stores[i].db.log + [] == stores[i].db.log;
  }

  /** A waiting handoff goes to whoever claims it first. */
  lemma ClaimAnswers(stores: seq<Store>, steps: seq<Step>, i: nat, tenant: Id, id: Id, actor: Id, actorActive: bool)
    requires Run(stores, steps) && i < |stores|
    ensures var p, r := stores[i].db, Execute(stores[i].db, Claim(tenant, id, actor, actorActive));
            if !actorActive then r == Failure(HANDOFF_ASSIGNEE_INVALID)
            else if !OfTenant(p, tenant, id) then r == Failure(CONVERSATION_NOT_FOUND)
            else
              var c := p.conversations[id];
              if c.control.HUMAN? then r == if c.assignedTo == Some(actor) then Success(p) else Failure(HANDOFF_NOT_CLAIMABLE)
              else if !c.state.HUMAN_HANDOFF? then r == Failure(HANDOFF_NOT_CLAIMABLE)
              else r.Success? && Handed(p, r.value, c, HUMAN_HANDOFF, HUMAN, Some(actor), c.context, [])
  {
    KeyedById(stores, steps, i, id);
    assert stores[i].db.log + [] == stores[i].db.log;
  }

  /** A person's conversation can be given to another active member of the tenant, and stays in its handoff. */
  lemma ReassignmentAnswers(stores: seq<Store>, steps: seq<Step>, i: nat, tenant: Id, id: Id, actorActive: bool, assignee: Id,
                            assigneeActive: bool)
    requires Run(stores, steps) && i < |stores|
    ensures var p, r := stores[i].db, Execute(stores[i].db, Reassign(tenant, id, actorActive, assignee, assigneeActive));
            if !actorActive then r == Failure(HANDOFF_ASSIGNEE_INVALID)
            else if !OfTenant(p, tenant, id) then r == Failure(CONVERSATION_NOT_FOUND)
            else
              var c := p.conversations[id];
              if c.control.BOT? then r == Failure(CONVERSATION_NOT_HUMAN)
              else if !assigneeActive then r == Failure(HANDOFF_ASSIGNEE_INVALID)
              else r.Success? && Handed(p, r.value, c, HUMAN_HANDOFF, HUMAN, Some(assignee), c.context, [])
  {
    KeyedById(stores, steps, i, id);
    assert stores[i].db.log + [] == stores[i].db.log;
  }

  /** Releasing gives the conversation back to the bot, at its menu and with nothing collected. */
  lemma ReleaseAnswers(stores: seq<Store>, steps: seq<Step>, i: nat, tenant: Id, id: Id, actorActive: bool)
    requires Run(stores, steps) && i < |stores|
    ensures var p, r := stores[i].db, Execute(stores[i].db, Release(tenant, id, actorActive));
            if !actorActive then r == Failure(HANDOFF_ASSIGNEE_INVALID)
            else if !OfTenant(p, tenant, id) then r == Failure(CONVERSATION_NOT_FOUND)
            else
              var c := p.conversations[id];
              if c.control.BOT? then r == Failure(CONVERSATION_NOT_HUMAN)
              else r.Success? && Handed(p, r.value, c, MAIN_MENU, BOT, None, map[], [HistoryEntry(id, Some(HUMAN_HANDOFF), MAIN_MENU, map[])])
  {
    KeyedById(stores, steps, i, id);
    assert stores[i].db.log + [] == stores[i].db.log;
  }

  lemma KeyedById(stores: seq<Store>, steps: seq<Step>, i: nat, id: Id)
    requires Run(stores, steps) && i < |stores|
    ensures id in stores[i].db.conversations ==>
              var c := stores[i].db.conversations[id]; c.id == id && (c.control.HUMAN? ==> c.state.HUMAN_HANDOFF?)
  {
    EveryStoreIsSound(stores, steps, i);
    if id in stores[i].db.conversations {
      assert ConversationSound(stores[i].db, id);
    }
  }

  /**
   A whole handoff: whoever asks for a person, the first claim is granted, nobody else's is, and the release leaves the
   conversation at the menu with nothing collected and exactly two new history entries; no message is added by any of it.
   */
  lemma HandoffRoundTrip(p: Db, tenant: Id, id: Id, actor: Id, other: Id)
    requires OfTenant(p, tenant, id) && p.conversations[id].id == id && other != actor
    requires p.conversations[id].control.BOT? && !p.conversations[id].state.HUMAN_HANDOFF?
    ensures var c := p.conversations[id];
            && Execute(p, Claim(tenant, id, actor, true)) == Failure(HANDOFF_NOT_CLAIMABLE)
            && Execute(p, Release(tenant, id, true)) == Failure(CONVERSATION_NOT_HUMAN)
            && var asked := Execute(p, Request(tenant, id, true));
               && asked.Success?
               && var claimed := Execute(asked.value, Claim(tenant, id, actor, true));
                  && claimed.Success?
                  && Execute(claimed.value, Claim(tenant, id, other, true)) == Failure(HANDOFF_NOT_CLAIMABLE)
                  && Execute(claimed.value, Request(tenant, id, true)) == Failure(CONVERSATION_ALREADY_HUMAN)
                  && var released := Execute(claimed.value, Release(tenant, id, true));
                     && released.Success?
                     && released.value.log == p.log
                     && released.value.history == p.history + [HistoryEntry(id, Some(c.state), HUMAN_HANDOFF, c.context),
                                                               HistoryEntry(id, Some(HUMAN_HANDOFF), MAIN_MENU, map[])]
                     && released.value.conversations ==
                        p.conversations[id := c.(state := MAIN_MENU, context := map[], assignedTo := None, revision := c.revision + 3)]
  {
    var c := p.conversations[id];
    var asked := Controlled(c, HUMAN_HANDOFF, BOT, None, c.context);
    var claimed := Controlled(asked, HUMAN_HANDOFF, HUMAN, Some(actor), c.context);
    var released := Controlled(claimed, MAIN_MENU, BOT, None, map[]);
    var first, last := HistoryEntry(id, Some(c.state), HUMAN_HANDOFF, c.context), HistoryEntry(id, Some(HUMAN_HANDOFF), MAIN_MENU, map[]);
    assert p.history + [first] + [] + [last] == p.history + [first, last];
    assert p.log + [] + [] + [] == p.log;
    assert p.conversations[id := asked][id := claimed][id := released] == p.conversations[id := released];
  }
}
