/**
 The conversation collections and the store together. The bot's booking commands are carried out in the transaction of
 the message that gives them, so a message and its booking commit together or not at all.
 */
module BotBookings {
  import opened Wrappers
  import opened Errors
  import Sm = ConversationStateMachine
  import C = Conversations
  import CR = ConversationRuns
  import S = System
  import SR = Runs
  import B = Bookings
  import BS = BookingSafety
  import Retries

  type Id = nat

  /**
   What does not change during a run: staff homes, the customer behind a phone number, what the texts in a command refer
   to, the instant that a date and time denote at a location, and digests.
   */
  datatype Setting = Setting(
    cat: B.Catalog,
    customer: (Id, string) -> Id,
    service: string -> Id,
    staff: string -> Id,
    appointment: string -> Id,
    instant: (Id, string, string) -> int,
    digest: (Id, Sm.Command) -> Id)

  /** Different requests have different fingerprints. */
  ghost predicate DigestsDiffer(fixed: Setting) {
    forall a, x, b, y :: fixed.digest(a, x) == fixed.digest(b, y) ==> a == b && x == y
  }

  /** `customers` holds the phone numbers that are taken, per tenant. */
  datatype World = World(talk: C.Db, store: S.Db, customers: set<(Id, string)>)

  const Empty := World(C.Empty, S.Empty, {})

  /** What the command handler looks up and generates while it carries out a command. */
  datatype Details = Details(
    found: bool,
    location: Id,
    agenda: B.Agenda,
    newId: Id,
    now: int)

  datatype Operation =
    | Message(ev: C.InboundEvent, details: Details)
    | Handoff(action: C.Operation)
    | Direct(command: S.Command)
    | Register(tenant: Id, phone: string)

  /** A fingerprint of the bot's requests; clients' requests have other fields and so other fingerprints. */
  ghost predicate IsBotDigest(fixed: Setting, fingerprint: Id) {
    exists customer, command :: fixed.digest(customer, command) == fingerprint
  }

  /** Handoff actions carry no message, and the bot's own bookings come from messages only. */
  ghost predicate Allowed(fixed: Setting, op: Operation) {
    match op
    case Message(ev, _) => Sm.Normalized(ev.input)
    case Handoff(action) => !action.Receive?
    case Direct(command) =>
      && !command.CreateInChannel? && !command.CancelInChannel? && !command.RescheduleInChannel?
      && (command.CreateAppointment? ==> !IsBotDigest(fixed, command.create.fingerprint))
    case Register(_, _) => true
  }

  // ----- one transaction on one state -----

  /** The transaction a command asks for, under the one booking key of its conversation. */
  function Order(fixed: Setting, ev: C.InboundEvent, conversation: Id, d: Details, command: Sm.Command): (order: S.Command)
    ensures order.CreateInChannel? || order.CancelInChannel? || order.RescheduleInChannel?
  {
    var customer := fixed.customer(ev.tenant, ev.thread);
    match command
    case CreateBooking(service, professional, date, time, _) =>
      S.CreateInChannel(B.ChannelCreate(conversation,
        B.CreateRequest(ev.tenant, d.location, fixed.service(service), fixed.staff(professional), customer, d.found,
                        fixed.instant(d.location, date, time), d.agenda,
                        B.ConversationBooking(conversation), fixed.digest(customer, command), None, d.newId, 0, d.now)))
    case RescheduleBooking(appointment, date, time) =>
      S.RescheduleInChannel(B.ChannelReschedule(
        B.ChannelCommand(ev.tenant, customer, fixed.appointment(appointment), d.now), d.found, d.location,
        fixed.instant(d.location, date, time), d.agenda))
    case CancelBooking(appointment) =>
      S.CancelInChannel(B.ChannelCommand(ev.tenant, customer, fixed.appointment(appointment), d.now))
  }

  /** Carries out what the newest exchange orders, if it orders anything. */
  ghost function Obey(fixed: Setting, ev: C.InboundEvent, d: Details, x: C.Exchange, store: S.Db): (r: Result<S.Db, Error>)
    ensures x.command.None? ==> r == Success(store)
  {
    match x.command
    case None => Success(store)
    case Some(command) => S.Execute(fixed.cat, store, Order(fixed, ev, x.conversation, d, command))
  }

  ghost function Execute(fixed: Setting, w: World, op: Operation): (r: Result<World, Error>) {
    match op
    case Message(ev, d) =>
      var talk :- C.ReceiveMessage(w.talk, ev);
      ReceivingAppends(w.talk, ev);
      var store :- Obey(fixed, ev, d, talk.log[|w.talk.log|], w.store);
      Success(World(talk, store, w.customers + {(ev.tenant, ev.thread)}))
    case Handoff(action) =>
      var talk :- C.Execute(w.talk, action);
      Success(w.(talk := talk))
    case Direct(command) =>
      var store :- S.Execute(fixed.cat, w.store, command);
      Success(w.(store := store))
    case Register(tenant, phone) =>
      if (tenant, phone) in w.customers then Failure(DUPLICATE_KEY)
      else Success(w.(customers := w.customers + {(tenant, phone)}))
  }

  /** A message logs exactly one exchange, in the conversation of its thread. */
  lemma ReceivingAppends(db: C.Db, ev: C.InboundEvent)
    requires C.ReceiveMessage(db, ev).Success?
    ensures var q := C.ReceiveMessage(db, ev).value;
            && |q.log| == |db.log| + 1 && q.log[..|db.log|] == db.log && q.log[|db.log|].event == ev.event
  {
    hide Sm.TransitionConversation;
  }

  lemma ReceivingFindsTheThread(db: C.Db, ev: C.InboundEvent)
    requires C.Sound(db) && C.ReceiveMessage(db, ev).Success?
    ensures var q := C.ReceiveMessage(db, ev).value;
            |q.log| > |db.log| && q.log[|db.log|].conversation in q.conversations &&
            C.OnThread(q.conversations[q.log[|db.log|].conversation], ev)
  {
    hide Sm.TransitionConversation, C.Linked, C.LogHonest;
    if C.ThreadKnown(db, ev) {
      assert C.ConversationSound(db, C.ByThread(db, ev));
    }
  }

  // ----- the invariant -----

  predicate HasBooking(store: S.Db, tenant: Id, conversation: Id, fingerprint: Id, id: Id) {
    B.HasKey(store.bookings, tenant, B.ConversationBooking(conversation), id) && store.bookings.appointments[id].fingerprint == fingerprint
  }

  /** A booking command in the log has its appointment, under the conversation's key and with the command's fingerprint. */
  ghost predicate Honored(fixed: Setting, talk: C.Db, store: S.Db, x: C.Exchange) {
    x.command.Some? && x.command.value.CreateBooking? ==>
      && x.conversation in talk.conversations
      && var c := talk.conversations[x.conversation];
         exists id :: HasBooking(store, c.tenant, x.conversation, fixed.digest(fixed.customer(c.tenant, c.thread), x.command.value), id)
  }

  ghost predicate BookedFor(b: B.Bookings, id: Id, startsAt: int) {
    exists e :: e in b.timeline && e.appointment == id && e.eventType.Created? && e.startsAt == startsAt
  }

  /** The appointment is the customer's, for the service and the professional that the command names, and was booked for its date and time. */
  ghost predicate AsNamed(fixed: Setting, b: B.Bookings, a: B.Appointment, customer: Id, command: Sm.Command) {
    && command.CreateBooking?
    && a.customer == customer && a.service == fixed.service(command.serviceId) && a.staff == fixed.staff(command.professionalId)
    && BookedFor(b, a.id, fixed.instant(a.location, command.date, command.time))
  }

  ghost predicate NamedByDigest(fixed: Setting, b: B.Bookings, a: B.Appointment) {
    forall customer, command: Sm.Command :: command.CreateBooking? && a.fingerprint == fixed.digest(customer, command) ==>
      AsNamed(fixed, b, a, customer, command)
  }

  /** A booking with the fingerprint of a bot request is what that request names. */
  ghost predicate AllNamed(fixed: Setting, b: B.Bookings) {
    forall id :: id in b.appointments ==> NamedByDigest(fixed, b, b.appointments[id])
  }

  ghost predicate Sound(fixed: Setting, w: World) {
    && DigestsDiffer(fixed)
    && AllNamed(fixed, w.store.bookings)
    && C.Sound(w.talk)
    && S.Sound(fixed.cat, w.store)
    && forall x :: x in w.talk.log ==> Honored(fixed, w.talk, w.store, x)
  }

  ghost predicate Evolved(s: World, c: World) {
    CR.Evolved(s.talk, c.talk) && S.Evolved(s.store, c.store) && s.customers <= c.customers
  }

  lemma EmptyIsSound(fixed: Setting)
    requires DigestsDiffer(fixed)
    ensures Sound(fixed, Empty)
  {
    SR.EmptyIsSound(fixed.cat);
  }

  lemma EvolvedIsTransitive(s: World, c: World, d: World)
    requires Evolved(s, c) && Evolved(c, d)
    ensures Evolved(s, d)
  {
    CR.EvolvedIsTransitive(s.talk, c.talk, d.talk);
    SR.EvolvedIsTransitive(s.store, c.store, d.store);
  }

  lemma EvolvedIsReflexive(w: World)
    ensures Evolved(w, w)
  {
    SR.EvolvedIsReflexive(w.store);
  }

  lemma HonorLasts(fixed: Setting, s: World, c: World, x: C.Exchange)
    requires Honored(fixed, s.talk, s.store, x) && CR.Evolved(s.talk, c.talk) && S.Evolved(s.store, c.store)
    ensures Honored(fixed, c.talk, c.store, x)
  {
    if x.command.Some? && x.command.value.CreateBooking? {
      var a, z := s.talk.conversations[x.conversation], c.talk.conversations[x.conversation];
      assert CR.ConversationEvolves(a, z);
      var fingerprint := fixed.digest(fixed.customer(a.tenant, a.thread), x.command.value);
      var id :| HasBooking(s.store, a.tenant, x.conversation, fingerprint, id);
      assert BS.AppointmentEvolves(s.store.bookings.appointments[id], c.store.bookings.appointments[id]);
      assert HasBooking(c.store, z.tenant, x.conversation, fingerprint, id);
    }
  }

  /** A booking that is carried out, or was carried out before, leaves its appointment under the conversation's key. */
  lemma ObeyingHonors(fixed: Setting, ev: C.InboundEvent, d: Details, x: C.Exchange, talk: C.Db, store: S.Db, store': S.Db)
    requires S.Sound(fixed.cat, store) && Obey(fixed, ev, d, x, store) == Success(store')
    requires x.conversation in talk.conversations && C.OnThread(talk.conversations[x.conversation], ev)
    ensures Honored(fixed, talk, store', x)
  {
    if x.command.Some? && x.command.value.CreateBooking? {
      var request := Order(fixed, ev, x.conversation, d, x.command.value).channelCreate.AsRequest();
      Retries.StoredUnderKey(fixed.cat, store.bookings, request);
      var id := B.Create(fixed.cat, store.bookings, request).value.appointment.id;
      hide B.Create;
      assert HasBooking(store', ev.tenant, x.conversation, request.fingerprint, id);
    }
  }

  lemma ObeyKeepsSound(fixed: Setting, ev: C.InboundEvent, d: Details, x: C.Exchange, store: S.Db)
    requires S.Sound(fixed.cat, store) && Obey(fixed, ev, d, x, store).Success?
    ensures S.Sound(fixed.cat, Obey(fixed, ev, d, x, store).value) && S.Evolved(store, Obey(fixed, ev, d, x, store).value)
  {
    hide S.Sound, S.Evolved, S.Execute;
    if x.command.Some? {
      S.ExecuteKeepsSound(fixed.cat, store, Order(fixed, ev, x.conversation, d, x.command.value));
    } else {
      SR.EvolvedIsReflexive(store);
    }
  }

  // ----- bookings stay what they were ordered as -----

  lemma NameLasts(fixed: Setting, b: B.Bookings, c: B.Bookings, id: Id)
    requires id in b.appointments && NamedByDigest(fixed, b, b.appointments[id]) && BS.Evolved(b, c)
    ensures id in c.appointments && NamedByDigest(fixed, c, c.appointments[id])
  {
    var a, z := b.appointments[id], c.appointments[id];
    assert BS.AppointmentEvolves(a, z);
    forall customer, command: Sm.Command | command.CreateBooking? && z.fingerprint == fixed.digest(customer, command)
      ensures AsNamed(fixed, c, z, customer, command)
    {
      assert AsNamed(fixed, b, a, customer, command);
      var e :| e in b.timeline && e.appointment == a.id && e.eventType.Created? &&
               e.startsAt == fixed.instant(a.location, command.date, command.time);
      assert e in c.timeline;
    }
  }

  /** What a command creates is the appointment of its request, with its first event; other commands create none. */
  lemma Newcomers(cat: B.Catalog, store: S.Db, command: S.Command, store': S.Db, id: Id)
    requires S.Sound(cat, store) && S.Execute(cat, store, command) == Success(store')
    requires id in store'.bookings.appointments && id !in store.bookings.appointments
    ensures command.CreateAppointment? || command.CreateInChannel?
    ensures var c := if command.CreateAppointment? then command.create else command.channelCreate.AsRequest();
            store'.bookings.appointments[id] == B.NewAppointment(c) && B.CreatedEvent(B.NewAppointment(c)) in store'.bookings.timeline
  {
    hide B.CancelFromChannel, B.Cancel, B.Reschedule, B.RescheduleFromChannel, B.ApplyOutcome, B.Create, S.Earn;
    match command
    case CreateAppointment(c) => BS.CreateIsPut(cat, store.bookings, c);
    case CreateInChannel(c) => BS.CreateIsPut(cat, store.bookings, c.AsRequest());
    case CancelAppointment(c) => CancellingCreatesNothing(cat, store.bookings, c);
    case CancelInChannel(c) => ChannelCancelCreatesNothing(cat, store.bookings, c);
    case RescheduleAppointment(c) => MovingCreatesNothing(cat, store.bookings, c);
    case RescheduleInChannel(c) => ChannelMoveCreatesNothing(cat, store.bookings, c);
    case RecordOutcome(c, e) => OutcomesCreateNothing(cat, store, c, e, store');
    case CreatePayout(_) =>
    case SettlePayout(_) =>
    case ReverseCommission(_) =>
  }

  lemma CancellingCreatesNothing(cat: B.Catalog, b: B.Bookings, c: B.CancelRequest)
    requires BS.Sound(cat, b) && B.Cancel(b, c).Success?
    ensures B.Cancel(b, c).value.bookings.appointments.Keys == b.appointments.Keys
  {
  }

  lemma ChannelCancelCreatesNothing(cat: B.Catalog, b: B.Bookings, c: B.ChannelCommand)
    requires BS.Sound(cat, b) && B.CancelFromChannel(b, c).Success?
    ensures B.CancelFromChannel(b, c).value.bookings.appointments.Keys == b.appointments.Keys
  {
  }

  lemma MovingCreatesNothing(cat: B.Catalog, b: B.Bookings, c: B.RescheduleRequest)
    requires BS.Sound(cat, b) && B.Reschedule(b, c).Success?
    ensures B.Reschedule(b, c).value.bookings.appointments.Keys == b.appointments.Keys
  {
    hide B.Acquire;
  }

  lemma ChannelMoveCreatesNothing(cat: B.Catalog, b: B.Bookings, c: B.ChannelReschedule)
    requires BS.Sound(cat, b) && B.RescheduleFromChannel(b, c).Success?
    ensures B.RescheduleFromChannel(b, c).value.bookings.appointments.Keys == b.appointments.Keys
  {
    hide B.Acquire;
  }

  lemma OutcomesCreateNothing(cat: B.Catalog, store: S.Db, c: B.OutcomeRequest, entry: Id, store': S.Db)
    requires BS.Sound(cat, store.bookings) && S.ApplyOutcome(store, c, entry) == Success(store')
    ensures store'.bookings.appointments.Keys == store.bookings.appointments.Keys
  {
    var b := S.OutcomeShape(store, c, entry, store');
    hide S.ApplyOutcome, B.Patch;
  }

  lemma DirectKeepsNames(fixed: Setting, store: S.Db, command: S.Command, store': S.Db)
    requires S.Sound(fixed.cat, store) && AllNamed(fixed, store.bookings) && Allowed(fixed, Direct(command))
    requires S.Execute(fixed.cat, store, command) == Success(store') && S.Evolved(store, store')
    ensures AllNamed(fixed, store'.bookings)
  {
    hide S.Sound, S.Execute, BS.Evolved, IsBotDigest;
    forall id | id in store'.bookings.appointments ensures NamedByDigest(fixed, store'.bookings, store'.bookings.appointments[id]) {
      if id in store.bookings.appointments {
        NameLasts(fixed, store.bookings, store'.bookings, id);
      } else {
        Newcomers(fixed.cat, store, command, store', id);
        ClientsHaveOtherDigests(fixed, store'.bookings, store'.bookings.appointments[id]);
      }
    }
  }

  lemma ClientsHaveOtherDigests(fixed: Setting, b: B.Bookings, a: B.Appointment)
    requires !IsBotDigest(fixed, a.fingerprint)
    ensures NamedByDigest(fixed, b, a)
  {
  }

  lemma ObeyingKeepsNames(fixed: Setting, ev: C.InboundEvent, d: Details, x: C.Exchange, store: S.Db, store': S.Db)
    requires DigestsDiffer(fixed) && S.Sound(fixed.cat, store) && AllNamed(fixed, store.bookings)
    requires Obey(fixed, ev, d, x, store) == Success(store') && S.Evolved(store, store')
    ensures AllNamed(fixed, store'.bookings)
  {
    hide S.Sound, S.Execute, BS.Evolved, DigestsDiffer;
    forall id | id in store'.bookings.appointments ensures NamedByDigest(fixed, store'.bookings, store'.bookings.appointments[id]) {
      if id in store.bookings.appointments {
        NameLasts(fixed, store.bookings, store'.bookings, id);
      } else {
        Newcomers(fixed.cat, store, Order(fixed, ev, x.conversation, d, x.command.value), store', id);
        OrderIsNamed(fixed, ev, x.conversation, d, x.command.value, store'.bookings);
      }
    }
  }

  lemma OrderIsNamed(fixed: Setting, ev: C.InboundEvent, conversation: Id, d: Details, command: Sm.Command, b: B.Bookings)
    requires DigestsDiffer(fixed) && command.CreateBooking?
    requires var c := Order(fixed, ev, conversation, d, command).channelCreate.AsRequest();
             B.CreatedEvent(B.NewAppointment(c)) in b.timeline
    ensures NamedByDigest(fixed, b, B.NewAppointment(Order(fixed, ev, conversation, d, command).channelCreate.AsRequest()))
  {
    var a := B.NewAppointment(Order(fixed, ev, conversation, d, command).channelCreate.AsRequest());
    var customer := fixed.customer(ev.tenant, ev.thread);
    assert BookedFor(b, a.id, fixed.instant(a.location, command.date, command.time));
    assert AsNamed(fixed, b, a, customer, command);
    forall k, other: Sm.Command | other.CreateBooking? && a.fingerprint == fixed.digest(k, other)
      ensures AsNamed(fixed, b, a, k, other)
    {
      assert fixed.digest(customer, command) == fixed.digest(k, other);
    }
  }

  lemma MessageKeepsSound(fixed: Setting, w: World, ev: C.InboundEvent, d: Details)
    requires Sound(fixed, w) && Sm.Normalized(ev.input) && Execute(fixed, w, Message(ev, d)).Success?
    ensures var q := Execute(fixed, w, Message(ev, d)).value; Sound(fixed, q) && Evolved(w, q)
  {
    hide C.Sound, S.Sound, CR.Evolved, S.Evolved, C.ReceiveMessage, Obey, Honored, AllNamed, DigestsDiffer;
    var q := Execute(fixed, w, Message(ev, d)).value;
    ReceivingAppends(w.talk, ev);
    ReceivingFindsTheThread(w.talk, ev);
    C.ExecuteKeepsSound(w.talk, C.Receive(ev));
    CR.ExecuteEvolves(w.talk, C.Receive(ev));
    var x := q.talk.log[|w.talk.log|];
    ObeyKeepsSound(fixed, ev, d, x, w.store);
    ObeyingHonors(fixed, ev, d, x, q.talk, w.store, q.store);
    ObeyingKeepsNames(fixed, ev, d, x, w.store, q.store);
    forall y | y in q.talk.log ensures Honored(fixed, q.talk, q.store, y) {
      var i :| 0 <= i < |q.talk.log| && q.talk.log[i] == y;
      if i < |w.talk.log| {
        assert w.talk.log[i] == y && y in w.talk.log;
        HonorLasts(fixed, w, q, y);
      }
    }
  }

  lemma OthersKeepSound(fixed: Setting, w: World, op: Operation)
    requires Sound(fixed, w) && !op.Message? && Allowed(fixed, op) && Execute(fixed, w, op).Success?
    ensures var q := Execute(fixed, w, op).value; Sound(fixed, q) && Evolved(w, q)
  {
    hide C.Sound, S.Sound, CR.Evolved, S.Evolved, C.Execute, S.Execute, Honored, AllNamed, DigestsDiffer, IsBotDigest;
    var q := Execute(fixed, w, op).value;
    EvolvedIsReflexive(w);
    match op {
      case Handoff(action) =>
        C.ExecuteKeepsSound(w.talk, action);
        CR.ExecuteEvolves(w.talk, action);
        HandoffKeepsLog(w.talk, action);
      case Direct(command) =>
        S.ExecuteKeepsSound(fixed.cat, w.store, command);
        DirectKeepsNames(fixed, w.store, command, q.store);
      case Register(_, _) =>
    }
    forall y | y in q.talk.log ensures Honored(fixed, q.talk, q.store, y) {
      assert y in w.talk.log;
      HonorLasts(fixed, w, q, y);
    }
  }

  lemma HandoffKeepsLog(db: C.Db, action: C.Operation)
    requires !action.Receive? && C.Execute(db, action).Success?
    ensures C.Execute(db, action).value.log == db.log
  {
  }

  lemma ExecuteKeepsSound(fixed: Setting, w: World, op: Operation)
    requires Sound(fixed, w) && Allowed(fixed, op) && Execute(fixed, w, op).Success?
    ensures Sound(fixed, Execute(fixed, w, op).value) && Evolved(w, Execute(fixed, w, op).value)
  {
    hide Sound, Evolved, Execute;
    if op.Message? {
      MessageKeepsSound(fixed, w, op.ev, op.details);
    } else {
      OthersKeepSound(fixed, w, op);
    }
  }

  // ----- committing under snapshot isolation -----

  predicate CanCommit(s: World, v: World, c: World) {
    && CR.CanCommit(s.talk, v.talk, c.talk)
    && SR.CanCommit(s.store, v.store, c.store)
    && (v.customers - s.customers) !! c.customers
  }

  function Merge(s: World, v: World, c: World): (r: World)
    requires CR.CanCommit(s.talk, v.talk, c.talk) && SR.CanCommit(s.store, v.store, c.store)
  {
    World(CR.Merge(s.talk, v.talk, c.talk), SR.Merge(s.store, v.store, c.store), c.customers + (v.customers - s.customers))
  }

  lemma StoreUntouched(s: S.Db, c: S.Db)
    requires SR.CanCommit(s, s, c)
    ensures SR.Merge(s, s, c) == c
  {
    SR.BS.MergeNothing(s.bookings, c.bookings);
    SR.MS.MergeNothing(s.money, c.money);
  }

  /** The bot's order, carried out on a stale store, commits only as what it does to the current one. */
  lemma OrderCommits(fixed: Setting, order: S.Command, s: S.Db, c: S.Db, v: S.Db)
    requires order.CreateInChannel? || order.CancelInChannel? || order.RescheduleInChannel?
    requires S.Sound(fixed.cat, s) && S.Sound(fixed.cat, c) && S.Evolved(s, c)
    requires S.Execute(fixed.cat, s, order) == Success(v) && SR.CanCommit(s, v, c)
    ensures S.Execute(fixed.cat, c, order) == Success(SR.Merge(s, v, c))
  {
    SR.CommitIsSerial(fixed.cat, s, c, order, v);
    if v == s {
      StoreUntouched(s, c);
      if !order.CreateInChannel? {
        ChannelChangesWrite(fixed.cat, s, order, v);
        assert false;
      }
      Retries.RetriesAreNoOps(fixed.cat, s, order, order, c);
    }
  }

  /** Cancelling and moving from the channel always write; only a repeated booking does not. */
  lemma ChannelChangesWrite(cat: B.Catalog, s: S.Db, order: S.Command, v: S.Db)
    requires S.Execute(cat, s, order) == Success(v) && (order.CancelInChannel? || order.RescheduleInChannel?)
    ensures |v.bookings.timeline| == |s.bookings.timeline| + 1
  {
    hide B.Acquire;
  }

  lemma ObeyCommits(fixed: Setting, ev: C.InboundEvent, d: Details, x: C.Exchange, s: S.Db, c: S.Db, v: S.Db)
    requires S.Sound(fixed.cat, s) && S.Sound(fixed.cat, c) && S.Evolved(s, c)
    requires Obey(fixed, ev, d, x, s) == Success(v) && SR.CanCommit(s, v, c)
    ensures Obey(fixed, ev, d, x, c) == Success(SR.Merge(s, v, c))
  {
    hide S.Sound, S.Evolved, S.Execute, SR.CanCommit, SR.Merge;
    if x.command.Some? {
      OrderCommits(fixed, Order(fixed, ev, x.conversation, d, x.command.value), s, c, v);
    } else {
      StoreUntouched(s, c);
    }
  }

  ghost predicate Silently(c: World, q: World) {
    CR.Silently(c.talk, q.talk) && q.store == c.store && c.customers <= q.customers
  }

  lemma MessageCommits(fixed: Setting, s: World, c: World, ev: C.InboundEvent, d: Details, v: World)
    requires Sound(fixed, s) && Sound(fixed, c) && Evolved(s, c) && Sm.Normalized(ev.input)
    requires Execute(fixed, s, Message(ev, d)) == Success(v) && CanCommit(s, v, c)
    ensures Silently(c, Merge(s, v, c)) || Execute(fixed, c, Message(ev, d)) == Success(Merge(s, v, c))
  {
    hide C.Sound, S.Sound, CR.Evolved, S.Evolved, C.ReceiveMessage, Obey, Honored, CR.Merge, SR.Merge, CR.CanCommit, SR.CanCommit, CR.Silently;
    var m := Merge(s, v, c);
    ReceivingAppends(s.talk, ev);
    CR.CommitIsSerialOrSilent(s.talk, c.talk, C.Receive(ev), v.talk);
    MergedExchange(s.talk, v.talk, c.talk);
    var x := v.talk.log[|s.talk.log|];
    ObeyCommits(fixed, ev, d, x, s.store, c.store, v.store);
    if CR.Silently(c.talk, m.talk) {
      SilentExchange(c.talk, m.talk);
    }
    assert m.customers == c.customers + {(ev.tenant, ev.thread)} || (ev.tenant, ev.thread) in s.customers;
  }

  lemma MergedExchange(s: C.Db, v: C.Db, c: C.Db)
    requires CR.CanCommit(s, v, c) && |v.log| == |s.log| + 1
    ensures CR.Merge(s, v, c) != c
    ensures |CR.Merge(s, v, c).log| == |c.log| + 1 && CR.Merge(s, v, c).log[|c.log|] == v.log[|s.log|]
  {
    hide C.EventsUnique, C.ThreadsUnique;
    assert |CR.Merge(s, v, c).log| == |c.log| + 1;
  }

  lemma SilentExchange(c: C.Db, q: C.Db)
    requires CR.Silently(c, q)
    ensures |q.log| == |c.log| + 1 && q.log[|c.log|].command.None? && q.log[|c.log|].replies == []
  {
  }

  /** A commit changes nothing, logs a message nobody answers, or does what the operation does to the current world. */
  lemma CommitIsSerialOrSilent(fixed: Setting, s: World, c: World, op: Operation, v: World)
    requires Sound(fixed, s) && Sound(fixed, c) && Evolved(s, c) && Allowed(fixed, op)
    requires Execute(fixed, s, op) == Success(v) && CanCommit(s, v, c)
    ensures Merge(s, v, c) == c || Silently(c, Merge(s, v, c)) || Execute(fixed, c, op) == Success(Merge(s, v, c))
  {
    hide C.Sound, S.Sound, CR.Evolved, S.Evolved, C.Execute, S.Execute, C.ReceiveMessage, Obey, Honored, CR.Merge, SR.Merge, CR.CanCommit,
         SR.CanCommit, CR.Silently;
    var m := Merge(s, v, c);
    match op
    case Message(ev, d) => MessageCommits(fixed, s, c, ev, d, v);
    case Handoff(action) =>
      StoreUntouched(s.store, c.store);
      CR.CommitIsSerialOrSilent(s.talk, c.talk, action, v.talk);
      assert m.customers == c.customers;
    case Direct(command) =>
      CR.MergeNothing(s.talk, c.talk);
      SR.CommitIsSerial(fixed.cat, s.store, c.store, command, v.store);
      assert m.customers == c.customers;
      if v.store == s.store {
        StoreUntouched(s.store, c.store);
      }
    case Register(tenant, phone) =>
      CR.MergeNothing(s.talk, c.talk);
      StoreUntouched(s.store, c.store);
  }

  lemma SilenceKeepsSound(fixed: Setting, c: World, q: World)
    requires Sound(fixed, c) && Silently(c, q)
    ensures Sound(fixed, q) && Evolved(c, q)
  {
    hide C.Sound, S.Sound, CR.Evolved, S.Evolved, Honored, AllNamed, DigestsDiffer;
    CR.SilenceKeepsSound(c.talk, q.talk);
    SR.EvolvedIsReflexive(c.store);
    SilentExchange(c.talk, q.talk);
    forall y | y in q.talk.log ensures Honored(fixed, q.talk, q.store, y) {
      if y in c.talk.log {
        HonorLasts(fixed, c, q, y);
      } else {
        NothingToHonor(fixed, q.talk, q.store, y);
      }
    }
  }

  lemma NothingToHonor(fixed: Setting, talk: C.Db, store: S.Db, x: C.Exchange)
    requires x.command.None?
    ensures Honored(fixed, talk, store, x)
  {
  }
}
