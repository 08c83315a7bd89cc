/**
 The conversation collections, what one inbound message or handoff action does to them alone, and the runs that any
 number of concurrent snapshot-isolated messages and handoff actions can produce.
 */
module Conversations {
  import opened Wrappers
  import opened Errors
  import opened Snapshots
  import opened ConversationStateMachine

  type Id = nat

  datatype Control = BOT | HUMAN

  /** `revision` counts the writes of the document, which its update time changes with. */
  datatype Conversation = Conversation(
    id: Id,
    tenant: Id,
    channel: Id,
    thread: string,
    state: State,
    context: Context,
    control: Control,
    assignedTo: Option<Id>,
    revision: nat)

  datatype HistoryEntry = HistoryEntry(conversation: Id, from: Option<State>, to: State, context: Context)

  datatype EventKey = EventKey(channel: Id, providerEventId: string)

  /** One processed provider event: the message, the state the bot heard it in (none if it kept silent), and what it said and ordered. */
  datatype Exchange = Exchange(
    event: EventKey,
    conversation: Id,
    input: Input,
    heardIn: Option<State>,
    replies: seq<Reply>,
    command: Option<Command>)

  datatype Db = Db(conversations: map<Id, Conversation>, history: seq<HistoryEntry>, log: seq<Exchange>)

  const Empty := Db(map[], [], [])

  // ----- one transaction on one state -----

  datatype InboundEvent = InboundEvent(event: EventKey, tenant: Id, thread: string, input: Input, newId: Id)

  /** Whether a user is an active member of the tenant is read from collections outside the model. */
  datatype Operation =
    | Receive(inbound: InboundEvent)
    | Request(tenant: Id, conversation: Id, actorActive: bool)
    | Claim(tenant: Id, conversation: Id, actor: Id, actorActive: bool)
    | Reassign(tenant: Id, conversation: Id, actorActive: bool, assignee: Id, assigneeActive: bool)
    | Release(tenant: Id, conversation: Id, actorActive: bool)

  predicate EventSeen(log: seq<Exchange>, e: EventKey) {
    exists i :: 0 <= i < |log| && log[i].event == e
  }

  predicate OnThread(c: Conversation, ev: InboundEvent) {
    c.tenant == ev.tenant && c.channel == ev.event.channel && c.thread == ev.thread
  }

  predicate ThreadKnown(db: Db, ev: InboundEvent) {
    exists id :: id in db.conversations && OnThread(db.conversations[id], ev)
  }

  ghost function ByThread(db: Db, ev: InboundEvent): (r: Id)
    requires ThreadKnown(db, ev)
    ensures r in db.conversations && OnThread(db.conversations[r], ev)
  {
    var id :| id in db.conversations && OnThread(db.conversations[id], ev);
    id
  }

  function Opened(ev: InboundEvent): (r: Conversation) {
    Conversation(ev.newId, ev.tenant, ev.event.channel, ev.thread, MAIN_MENU, map[], BOT, None, 0)
  }

  predicate InHandoff(c: Conversation) {
    c.control.HUMAN? || c.state.HUMAN_HANDOFF?
  }

  /** Stores a conversation, with the history entries and the exchange that go with it. */
  function Put(db: Db, u: Conversation, entries: seq<HistoryEntry>, said: seq<Exchange>): (r: Db) {
    Db(db.conversations[u.id := u], db.history + entries, db.log + said)
  }

  function Silent(ev: InboundEvent, id: Id): (r: Exchange) {
    Exchange(ev.event, id, ev.input, None, [], None)
  }

  function Answered(c: Conversation, t: Transition): (r: Conversation) {
    c.(state := t.state, context := t.context, revision := c.revision + 1)
  }

  function Moves(c: Conversation, t: Transition): (r: seq<HistoryEntry>) {
    if t.state != c.state then [HistoryEntry(c.id, Some(c.state), t.state, t.context)] else []
  }

  function Spoken(ev: InboundEvent, c: Conversation, t: Transition): (r: Exchange) {
    Exchange(ev.event, c.id, ev.input, Some(c.state), t.replies, t.command)
  }

  /** What the loaded conversation makes of the message. */
  function Hear(db: Db, c: Conversation, ev: InboundEvent): (r: Db) {
    if InHandoff(c) then db.(log := db.log + [Silent(ev, c.id)])
    else
      var t := TransitionConversation(c.state, c.context, ev.input);
      Put(db, Answered(c, t), Moves(c, t), [Spoken(ev, c, t)])
  }

  ghost function ReceiveMessage(db: Db, ev: InboundEvent): (r: Result<Db, Error>) {
    if EventSeen(db.log, ev.event) then Failure(DUPLICATE_KEY)
    else if ThreadKnown(db, ev) then Success(Hear(db, db.conversations[ByThread(db, ev)], ev))
    else if ev.newId in db.conversations then Failure(DUPLICATE_KEY)
    else
      var c := Opened(ev);
      Success(Hear(Put(db, c, [HistoryEntry(c.id, None, MAIN_MENU, map[])], []), c, ev))
  }

  predicate Found(db: Db, tenant: Id, id: Id) {
    id in db.conversations && db.conversations[id].tenant == tenant
  }

  function Controlled(c: Conversation, state: State, control: Control, assignee: Option<Id>, context: Context): (r: Conversation) {
    c.(state := state, control := control, assignedTo := assignee, context := context, revision := c.revision + 1)
  }

  function RequestHandoff(db: Db, tenant: Id, id: Id, actorActive: bool): (r: Result<Db, Error>) {
    if !actorActive then Failure(HANDOFF_ASSIGNEE_INVALID)
    else if !Found(db, tenant, id) then Failure(CONVERSATION_NOT_FOUND)
    else
      var c := db.conversations[id];
      if c.control.HUMAN? then Failure(CONVERSATION_ALREADY_HUMAN)
      else if c.state.HUMAN_HANDOFF? then Success(db)
      else Success(Put(db, Controlled(c, HUMAN_HANDOFF, BOT, None, c.context),
                       [HistoryEntry(c.id, Some(c.state), HUMAN_HANDOFF, c.context)], []))
  }

  function ClaimHandoff(db: Db, tenant: Id, id: Id, actor: Id, actorActive: bool): (r: Result<Db, Error>) {
    if !actorActive then Failure(HANDOFF_ASSIGNEE_INVALID)
    else if !Found(db, tenant, id) then Failure(CONVERSATION_NOT_FOUND)
    else
      var c := db.conversations[id];
      if c.control.HUMAN? && c.assignedTo == Some(actor) then Success(db)
      else if !c.control.BOT? || !c.state.HUMAN_HANDOFF? then Failure(HANDOFF_NOT_CLAIMABLE)
      else Success(Put(db, Controlled(c, HUMAN_HANDOFF, HUMAN, Some(actor), c.context), [], []))
  }

  function ReassignHandoff(db: Db, tenant: Id, id: Id, actorActive: bool, assignee: Id, assigneeActive: bool): (r: Result<Db, Error>) {
    if !actorActive then Failure(HANDOFF_ASSIGNEE_INVALID)
    else if !Found(db, tenant, id) then Failure(CONVERSATION_NOT_FOUND)
    else
      var c := db.conversations[id];
      if !c.control.HUMAN? then Failure(CONVERSATION_NOT_HUMAN)
      else if !assigneeActive then Failure(HANDOFF_ASSIGNEE_INVALID)
      else Success(Put(db, Controlled(c, c.state, HUMAN, Some(assignee), c.context), [], []))
  }

  function ReleaseHandoff(db: Db, tenant: Id, id: Id, actorActive: bool): (r: Result<Db, Error>) {
    if !actorActive then Failure(HANDOFF_ASSIGNEE_INVALID)
    else if !Found(db, tenant, id) then Failure(CONVERSATION_NOT_FOUND)
    else
      var c := db.conversations[id];
      if !c.control.HUMAN? then Failure(CONVERSATION_NOT_HUMAN)
      else Success(Put(db, Controlled(c, MAIN_MENU, BOT, None, map[]), [HistoryEntry(c.id, Some(c.state), MAIN_MENU, map[])], []))
  }

  ghost function Execute(db: Db, op: Operation): (r: Result<Db, Error>) {
    match op
    case Receive(ev) => ReceiveMessage(db, ev)
    case Request(tenant, id, active) => RequestHandoff(db, tenant, id, active)
    case Claim(tenant, id, actor, active) => ClaimHandoff(db, tenant, id, actor, active)
    case Reassign(tenant, id, active, assignee, assigneeActive) => ReassignHandoff(db, tenant, id, active, assignee, assigneeActive)
    case Release(tenant, id, active) => ReleaseHandoff(db, tenant, id, active)
  }

  // ----- the invariant -----

  function Newest(history: seq<HistoryEntry>, id: Id): (r: Option<HistoryEntry>) {
    if |history| == 0 then None
    else if history[|history| - 1].conversation == id then Some(history[|history| - 1])
    else Newest(history[..|history| - 1], id)
  }

  /** What the customer last answered when the bot asked in this state. */
  function LatestAnswer(log: seq<Exchange>, id: Id, asked: State): (r: Option<string>) {
    if |log| == 0 then None
    else
      var x := log[|log| - 1];
      if x.conversation == id && x.heardIn == Some(asked) then Some(InputValue(x.input))
      else LatestAnswer(log[..|log| - 1], id, asked)
  }

  /** An entry continues from the state of the conversation's entry before it, to another state. */
  ghost predicate LinksTo(e: HistoryEntry, before: Option<HistoryEntry>) {
    && e.from == (if before.Some? then Some(before.value.to) else None)
    && e.from != Some(e.to)
  }

  ghost predicate Linked(history: seq<HistoryEntry>) {
    forall i :: 0 <= i < |history| ==> LinksTo(history[i], Newest(history[..i], history[i].conversation))
  }

  ghost predicate ControlAgrees(c: Conversation) {
    && (c.control.HUMAN? ==> c.state.HUMAN_HANDOFF? && c.assignedTo.Some?)
    && (c.control.BOT? ==> c.assignedTo.None?)
  }

  ghost predicate Told(c: Conversation, e: Option<HistoryEntry>) {
    e.Some? && e.value.to == c.state && e.value.context == c.context
  }

  /** The customer's last choice at the menu opens the flow of the state. */
  ghost predicate ChosenAtTheMenu(log: seq<Exchange>, id: Id, state: State) {
    state.MAIN_MENU? || state.HUMAN_HANDOFF? ||
    var choice := LatestAnswer(log, id, MAIN_MENU);
    choice.Some? && OpensFlow(Keyword(choice.value, false), state)
  }

  /** The customer chose the flow the conversation is in, and every collected field is what was last answered where the bot asks for it. */
  ghost predicate Remembers(log: seq<Exchange>, c: Conversation) {
    !c.state.HUMAN_HANDOFF? ==>
      && ChosenAtTheMenu(log, c.id, c.state)
      && forall f :: f in KeysOf(c.state) && f in c.context ==> LatestAnswer(log, c.id, AskedIn(c.state, f)) == Some(c.context[f])
  }

  /** The bot speaks and orders only outside a handoff, and orders exactly what it was last told. */
  ghost predicate Honest(before: seq<Exchange>, x: Exchange) {
    && (x.heardIn.None? ==> x.replies == [] && x.command.None?)
    && x.heardIn != Some(HUMAN_HANDOFF)
    && (x.command.Some? ==> x.heardIn.Some? && !x.heardIn.value.MAIN_MENU? && ChosenAtTheMenu(before, x.conversation, x.heardIn.value))
    && match x.command
       case None => true
       case Some(CreateBooking(service, professional, date, time, customer)) =>
         && x.heardIn == Some(BOOKING_CONFIRMATION)
         && LatestAnswer(before, x.conversation, BOOKING_SERVICE) == Some(service)
         && LatestAnswer(before, x.conversation, BOOKING_PROFESSIONAL) == Some(professional)
         && LatestAnswer(before, x.conversation, BOOKING_DATE) == Some(date)
         && LatestAnswer(before, x.conversation, BOOKING_TIME) == Some(time)
         && LatestAnswer(before, x.conversation, BOOKING_CUSTOMER_DATA) == Some(customer)
       case Some(RescheduleBooking(appointment, date, time)) =>
         && x.heardIn == Some(RESCHEDULE_TIME) && time == InputValue(x.input)
         && LatestAnswer(before, x.conversation, RESCHEDULE_SELECT_APPOINTMENT) == Some(appointment)
         && LatestAnswer(before, x.conversation, RESCHEDULE_DATE) == Some(date)
       case Some(CancelBooking(appointment)) =>
         && x.heardIn == Some(CANCEL_CONFIRMATION)
         && LatestAnswer(before, x.conversation, CANCEL_SELECT_APPOINTMENT) == Some(appointment)
  }

  ghost predicate LogHonest(log: seq<Exchange>) {
    forall i :: 0 <= i < |log| ==> Honest(log[..i], log[i])
  }

  predicate EventsUnique(log: seq<Exchange>) {
    forall i, j :: 0 <= i < j < |log| ==> log[i].event != log[j].event
  }

  predicate SameThread(a: Conversation, b: Conversation) {
    a.tenant == b.tenant && a.channel == b.channel && a.thread == b.thread
  }

  predicate ThreadsUnique(conversations: map<Id, Conversation>) {
    forall i, j :: i in conversations && j in conversations && i != j ==> !SameThread(conversations[i], conversations[j])
  }

  ghost predicate ConversationSound(db: Db, id: Id)
    requires id in db.conversations
  {
    var c := db.conversations[id];
    c.id == id && ControlAgrees(c) && WellFormed(c.state, c.context) && Told(c, Newest(db.history, id)) && Remembers(db.log, c)
  }

  ghost predicate Sound(db: Db) {
    && (forall id :: id in db.conversations ==> ConversationSound(db, id))
    && (forall id :: id !in db.conversations ==> Newest(db.history, id).None?)
    && ThreadsUnique(db.conversations)
    && Linked(db.history)
    && EventsUnique(db.log)
    && LogHonest(db.log)
  }

  // ----- writes keep the invariant -----

  lemma HistoryAppend(history: seq<HistoryEntry>, e: HistoryEntry)
    requires Linked(history) && LinksTo(e, Newest(history, e.conversation))
    ensures Linked(history + [e])
    ensures forall id :: Newest(history + [e], id) == if e.conversation == id then Some(e) else Newest(history, id)
  {
    var h := history + [e];
    assert h[..|history|] == history;
    forall i | 0 <= i < |h| ensures LinksTo(h[i], Newest(h[..i], h[i].conversation)) {
      if i < |history| {
        assert h[..i] == history[..i] && h[i] == history[i];
      }
    }
  }

  lemma LogAppend(log: seq<Exchange>, x: Exchange)
    requires EventsUnique(log) && LogHonest(log) && !EventSeen(log, x.event) && Honest(log, x)
    ensures EventsUnique(log + [x]) && LogHonest(log + [x])
    ensures forall id, s :: LatestAnswer(log + [x], id, s) ==
                            if x.conversation == id && x.heardIn == Some(s) then Some(InputValue(x.input)) else LatestAnswer(log, id, s)
  {
    var l := log + [x];
    assert l[..|log|] == log;
    forall i | 0 <= i < |l| ensures Honest(l[..i], l[i]) {
      if i < |log| {
        assert l[..i] == log[..i] && l[i] == log[i];
      }
    }
  }

  ghost predicate Replaces(db: Db, u: Conversation) {
    if u.id in db.conversations then SameThread(db.conversations[u.id], u)
    else forall id :: id in db.conversations ==> !SameThread(db.conversations[id], u)
  }

  /** A conversation write with its history entry, if the state moved. */
  ghost predicate Recorded(db: Db, u: Conversation, entries: seq<HistoryEntry>) {
    if |entries| == 0 then Told(u, Newest(db.history, u.id))
    else
      && entries == [HistoryEntry(u.id, entries[0].from, u.state, u.context)]
      && LinksTo(entries[0], Newest(db.history, u.id))
  }

  lemma PutKeepsSound(db: Db, u: Conversation, entries: seq<HistoryEntry>)
    requires Sound(db) && Replaces(db, u) && Recorded(db, u, entries)
    requires ControlAgrees(u) && WellFormed(u.state, u.context) && Remembers(db.log, u)
    ensures Sound(Put(db, u, entries, []))
  {
    hide Remembers, WellFormed, Linked, LogHonest, LinksTo;
    var q := Put(db, u, entries, []);
    assert q.log == db.log;
    if |entries| == 0 {
      assert q.history == db.history;
    } else {
      HistoryAppend(db.history, entries[0]);
    }
    forall id | id in q.conversations ensures ConversationSound(q, id) {
      if id != u.id {
        assert ConversationSound(db, id);
      }
    }
    ThreadsStayUnique(db, u);
  }

  lemma ThreadsStayUnique(db: Db, u: Conversation)
    requires ThreadsUnique(db.conversations) && Replaces(db, u)
    ensures ThreadsUnique(db.conversations[u.id := u])
  {
  }

  /** An exchange is logged together with the conversation it leaves behind. */
  lemma SayKeepsSound(db: Db, x: Exchange)
    requires Sound(db) && !EventSeen(db.log, x.event) && Honest(db.log, x)
    requires x.heardIn.Some? && x.conversation in db.conversations ==> Remembers(db.log + [x], db.conversations[x.conversation])
    ensures Sound(db.(log := db.log + [x]))
  {
    hide WellFormed, Linked, LogHonest, Honest, Told, ControlAgrees;
    LogAppend(db.log, x);
    var q := db.(log := db.log + [x]);
    forall id | id in q.conversations ensures ConversationSound(q, id) {
      assert ConversationSound(db, id);
    }
  }

  /** The same write in either order: the exchange may be logged before the conversation is stored. */
  lemma TransitionKeepsMemory(log: seq<Exchange>, c: Conversation, ev: InboundEvent)
    requires EventsUnique(log) && LogHonest(log) && !EventSeen(log, ev.event)
    requires Remembers(log, c) && WellFormed(c.state, c.context) && !c.state.HUMAN_HANDOFF?
    ensures var t := TransitionConversation(c.state, c.context, ev.input);
            Honest(log, Spoken(ev, c, t)) && Remembers(log + [Spoken(ev, c, t)], Answered(c, t))
  {
    var t := TransitionConversation(c.state, c.context, ev.input);
    var x := Spoken(ev, c, t);
    SpokenIsHonest(log, c, ev, t);
    LogAppend(log, x);
    ChoiceIsRemembered(log, c, ev, t);
    if !t.state.HUMAN_HANDOFF? {
      forall f | f in KeysOf(t.state) && f in t.context
        ensures LatestAnswer(log + [x], c.id, AskedIn(t.state, f)) == Some(t.context[f])
      {
        CollectedFieldsComeFromAnswers(c.state, c.context, ev.input, f);
      }
    }
  }

  lemma ChoiceIsRemembered(log: seq<Exchange>, c: Conversation, ev: InboundEvent, t: Transition)
    requires t == TransitionConversation(c.state, c.context, ev.input)
    requires Remembers(log, c) && WellFormed(c.state, c.context) && !c.state.HUMAN_HANDOFF?
    ensures ChosenAtTheMenu(log + [Spoken(ev, c, t)], c.id, t.state)
  {
    var x := Spoken(ev, c, t);
    assert (log + [x])[..|log|] == log;
    if c.state.MAIN_MENU? {
      FlowsComeFromTheMenu(c.state, c.context, ev.input, CommandKey(ev.input));
    } else {
      FlowsComeFromTheMenu(c.state, c.context, ev.input, Keyword(LatestAnswer(log, c.id, MAIN_MENU).value, false));
    }
    hide TransitionConversation, WellFormed, InputValue, Keyword, OpensFlow;
  }

  lemma SpokenIsHonest(log: seq<Exchange>, c: Conversation, ev: InboundEvent, t: Transition)
    requires t == TransitionConversation(c.state, c.context, ev.input)
    requires Remembers(log, c) && WellFormed(c.state, c.context) && !c.state.HUMAN_HANDOFF?
    ensures Honest(log, Spoken(ev, c, t))
  {
    hide TransitionConversation, LatestAnswer, InputValue, OpensFlow, Keyword, ChosenAtTheMenu;
    if t.command.Some? {
      CommandsRepeatTheContext(c.state, c.context, ev.input);
      assert c.context.Keys == KeysOf(c.state);
      assert forall f :: f in c.context ==> LatestAnswer(log, c.id, AskedIn(c.state, f)) == Some(c.context[f]);
      hide Remembers;
      match t.command.value
      case CreateBooking(s, p, d, h, u) => assert {ServiceId, ProfessionalId, Date, Time, CustomerData} == c.context.Keys;
      case RescheduleBooking(a, d, h) => assert {AppointmentId, Date} == c.context.Keys;
      case CancelBooking(a) => assert {AppointmentId} == c.context.Keys;
    }
  }

  lemma HearKeepsSound(db: Db, c: Conversation, ev: InboundEvent)
    requires Sound(db) && c.id in db.conversations && db.conversations[c.id] == c
    requires !EventSeen(db.log, ev.event) && Normalized(ev.input)
    ensures Sound(Hear(db, c, ev))
  {
    assert ConversationSound(db, c.id);
    if InHandoff(c) {
      SayKeepsSound(db, Silent(ev, c.id));
    } else {
      var t := TransitionConversation(c.state, c.context, ev.input);
      var u, x := Answered(c, t), Spoken(ev, c, t);
      TransitionKeepsMemory(db.log, c, ev);
      TransitionsKeepContextsWellFormed(c.state, c.context, ev.input);
      ContextChangesOnlyWithState(c.state, c.context, ev.input);
      AnswerKeepsSound(db, c, u, Moves(c, t), x);
    }
  }

  lemma AnswerKeepsSound(db: Db, c: Conversation, u: Conversation, entries: seq<HistoryEntry>, x: Exchange)
    requires Sound(db) && c.id in db.conversations && db.conversations[c.id] == c
    requires u.id == c.id && SameThread(c, u) && u.control == c.control == BOT && u.assignedTo == c.assignedTo
    requires WellFormed(u.state, u.context)
    requires entries == if u.state != c.state then [HistoryEntry(c.id, Some(c.state), u.state, u.context)] else []
    requires u.state == c.state ==> u.context == c.context
    requires x.conversation == c.id && !EventSeen(db.log, x.event) && Honest(db.log, x) && Remembers(db.log + [x], u)
    ensures Sound(Put(db, u, entries, [x]))
  {
    hide WellFormed, Linked, LogHonest, Honest, Remembers, LatestAnswer;
    var q := Put(db, u, entries, [x]);
    assert ConversationSound(db, c.id);
    LogAppend(db.log, x);
    if |entries| == 0 {
      assert q.history == db.history;
    } else {
      HistoryAppend(db.history, entries[0]);
    }
    ThreadsStayUnique(db, u);
    forall id | id in q.conversations ensures ConversationSound(q, id) {
      if id != u.id {
        assert ConversationSound(db, id);
        OthersRemember(db.log, x, db.conversations[id]);
      }
    }
  }

  lemma OthersRemember(log: seq<Exchange>, x: Exchange, c: Conversation)
    requires x.conversation != c.id && Remembers(log, c)
    ensures Remembers(log + [x], c)
  {
    assert (log + [x])[..|log|] == log;
  }

  lemma ReceiveKeepsSound(db: Db, ev: InboundEvent)
    requires Sound(db) && Normalized(ev.input) && ReceiveMessage(db, ev).Success?
    ensures Sound(ReceiveMessage(db, ev).value)
  {
    hide Hear;
    if ThreadKnown(db, ev) {
      var id := ByThread(db, ev);
      assert ConversationSound(db, id);
      HearKeepsSound(db, db.conversations[id], ev);
    } else {
      var c := Opened(ev);
      OpenKeepsSound(db, ev);
      var q := Put(db, c, [HistoryEntry(c.id, None, MAIN_MENU, map[])], []);
      assert q.log == db.log;
      HearKeepsSound(q, c, ev);
    }
  }

  lemma OpenKeepsSound(db: Db, ev: InboundEvent)
    requires Sound(db) && !ThreadKnown(db, ev) && ev.newId !in db.conversations
    ensures Sound(Put(db, Opened(ev), [HistoryEntry(ev.newId, None, MAIN_MENU, map[])], []))
  {
    assert Newest(db.history, ev.newId).None?;
    PutKeepsSound(db, Opened(ev), [HistoryEntry(ev.newId, None, MAIN_MENU, map[])]);
  }

  lemma HandoffKeepsSound(db: Db, op: Operation)
    requires Sound(db) && !op.Receive? && Execute(db, op).Success?
    ensures Sound(Execute(db, op).value)
  {
    var q := Execute(db, op).value;
    var id := op.conversation;
    assert ConversationSound(db, id);
    if q != db {
      var u := q.conversations[id];
      var entries := q.history[|db.history|..];
      PutKeepsSound(db, u, entries);
      assert q == Put(db, u, entries, []);
    }
  }

  lemma ExecuteKeepsSound(db: Db, op: Operation)
    requires Sound(db) && Execute(db, op).Success? && (op.Receive? ==> Normalized(op.inbound.input))
    ensures Sound(Execute(db, op).value)
  {
    hide Sound, ReceiveMessage, RequestHandoff, ClaimHandoff, ReassignHandoff, ReleaseHandoff;
    if op.Receive? {
      ReceiveKeepsSound(db, op.inbound);
    } else {
      HandoffKeepsSound(db, op);
    }
  }
}
