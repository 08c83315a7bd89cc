/**
 The appointment collections (appointments, one-minute interval locks, timeline, referral conversions) and what each
 booking transaction does to them when it runs alone on one state.
 */
module Bookings {
  import opened Wrappers
  import opened Errors
  import opened Sequences
  import opened Text
  import Availability
  import Economics
  import Money

  type Id = nat

  const MINUTE := Availability.MINUTE

  datatype Status = PENDING | CONFIRMED | IN_PROGRESS | CANCELLED | COMPLETED | NO_SHOW

  /** Client keys and conversation keys share one index; a client may send either text. */
  datatype BookingKey = ClientBooking(text: string) | ConversationBooking(conversation: Id)

  /** `writes` counts the writes of the document; it stands for the version that write conflicts are detected on. */
  datatype Appointment = Appointment(
    id: Id,
    tenant: Id,
    location: Id,
    service: Id,
    staff: Id,
    customer: Id,
    status: Status,
    startsAt: int,
    endsAt: int,
    key: BookingKey,
    fingerprint: Id,
    cancellationReason: Option<string>,
    noShowReason: Option<NoShowReason>,
    outcomeNote: Option<string>,
    startedAt: Option<int>,
    closedAt: Option<int>,
    writes: nat)

  datatype NoShowReason =
    CUSTOMER_DID_NOT_ARRIVE | CUSTOMER_CANCELLED_TOO_LATE | COULD_NOT_CONTACT_CUSTOMER | OTHER

  datatype LockKey = LockKey(tenant: Id, staff: Id, minute: int)

  datatype EventType = Created | Rescheduled | Cancelled | Started | Completed | NoShow

  /** Generated keys and client keys share one index per appointment. */
  datatype TimelineKey = CreatedKey | RescheduledKey(startsAt: int) | CancelledKey(at: int) | ClientKey(text: string)

  /** Fingerprints are injective in the payload they digest. */
  datatype Fingerprint =
    | CreatedDigest(startsAt: int, endsAt: int)
    | ChangeDigest(event: EventType, reason: Option<string>, startsAt: int, endsAt: int, previous: Option<Previous>)
    | StartDigest
    | CompleteDigest(note: Option<string>)
    | NoShowDigest(noShowReason: NoShowReason, note: Option<string>)

  datatype Previous = Previous(status: Status, startsAt: int, endsAt: int)

  datatype TimelineEvent = TimelineEvent(
    tenant: Id,
    appointment: Id,
    eventType: EventType,
    fromStatus: Option<Status>,
    toStatus: Status,
    note: Option<string>,
    startsAt: int,
    endsAt: int,
    previous: Option<Previous>,
    key: TimelineKey,
    fingerprint: Fingerprint)

  datatype Conversion = Conversion(
    id: Id,
    account: Money.Account,
    referredCustomer: Id,
    appointment: Id,
    service: Id,
    code: string,
    gross: int,
    discount: int,
    final: int,
    commission: Money.Amount)

  datatype Bookings = Bookings(
    appointments: map<Id, Appointment>,
    locks: map<LockKey, Id>,
    timeline: seq<TimelineEvent>,
    conversions: seq<Conversion>)

  const Empty := Bookings(map[], map[], [], [])

  /** A staff member belongs to one location, which never changes. */
  datatype Catalog = Catalog(home: map<(Id, Id), Id>)

  predicate Active(s: Status) { s.PENDING? || s.CONFIRMED? }
  predicate Live(s: Status) { Active(s) || s.IN_PROGRESS? }

  // ----- unique indexes -----

  predicate EventsCoexist(a: TimelineEvent, b: TimelineEvent) {
    a.tenant == b.tenant && a.appointment == b.appointment ==> a.key != b.key
  }

  predicate EventInsertable(timeline: seq<TimelineEvent>, e: TimelineEvent) {
    forall x :: x in timeline ==> EventsCoexist(x, e)
  }

  predicate TimelineUnique(timeline: seq<TimelineEvent>) {
    forall i, j :: 0 <= i < j < |timeline| ==> EventsCoexist(timeline[i], timeline[j])
  }

  predicate ConversionsCoexist(a: Conversion, b: Conversion) {
    a.id != b.id && (a.account.owner.tenant == b.account.owner.tenant ==> a.appointment != b.appointment)
  }

  predicate ConversionInsertable(conversions: seq<Conversion>, cv: Conversion) {
    forall x :: x in conversions ==> ConversionsCoexist(x, cv)
  }

  predicate ConversionsUnique(conversions: seq<Conversion>) {
    forall i, j :: 0 <= i < j < |conversions| ==> ConversionsCoexist(conversions[i], conversions[j])
  }

  predicate BookingKeysUnique(appointments: map<Id, Appointment>) {
    forall i, j :: i in appointments && j in appointments && i != j && appointments[i].tenant == appointments[j].tenant ==>
      appointments[i].key != appointments[j].key
  }

  // ----- interval locks -----

  predicate MinuteAligned(startsAt: int, endsAt: int) {
    startsAt < endsAt && startsAt % MINUTE == 0 && endsAt % MINUTE == 0
  }

  predicate InMinutes(minute: int, startsAt: int, endsAt: int) {
    startsAt <= minute < endsAt && minute % MINUTE == 0
  }

  function LockKeys(tenant: Id, staff: Id, startsAt: int, endsAt: int): (r: set<LockKey>)
    ensures forall k :: k in r <==> k.tenant == tenant && k.staff == staff && InMinutes(k.minute, startsAt, endsAt)
  {
    set minute | startsAt <= minute < endsAt && InMinutes(minute, startsAt, endsAt) :: LockKey(tenant, staff, minute)
  }

  function Release(locks: map<LockKey, Id>, tenant: Id, appointment: Id): (r: map<LockKey, Id>) {
    map k | k in locks && !(k.tenant == tenant && locks[k] == appointment) :: locks[k]
  }

  function WithLocks(locks: map<LockKey, Id>, keys: set<LockKey>, appointment: Id): (r: map<LockKey, Id>) {
    map k | k in locks.Keys + keys :: if k in keys then appointment else locks[k]
  }

  function Acquire(locks: map<LockKey, Id>, tenant: Id, staff: Id, appointment: Id, startsAt: int, endsAt: int)
    : (r: Result<map<LockKey, Id>, Error>)
  {
    if !MinuteAligned(startsAt, endsAt) then Failure(INTERVAL_NOT_MINUTE_ALIGNED)
    else if LockKeys(tenant, staff, startsAt, endsAt) !! locks.Keys
    then Success(WithLocks(locks, LockKeys(tenant, staff, startsAt, endsAt), appointment))
    else Failure(APPOINTMENT_SLOT_CONFLICT)
  }

  // ----- the agenda a requested start is checked against -----

  datatype Agenda = Agenda(
    day: Availability.LocalDay,
    staffName: string,
    durationMinutes: nat,
    schedules: seq<Availability.Schedule>,
    exceptions: seq<Availability.Exception>)

  /** Live appointments of one staff member at one location, except the excluded one. */
  function BusyTimes(b: Bookings, tenant: Id, location: Id, staff: Id, exclude: Option<Id>): (r: set<Availability.Busy>) {
    set id | id in b.appointments && Blocks(b.appointments[id], tenant, location, staff) && exclude != Some(id)
      :: Availability.Busy(staff, b.appointments[id].startsAt, b.appointments[id].endsAt)
  }

  predicate Blocks(a: Appointment, tenant: Id, location: Id, staff: Id) {
    a.tenant == tenant && a.location == location && a.staff == staff && Live(a.status)
  }

  function SlotInput(b: Bookings, g: Agenda, tenant: Id, location: Id, staff: Id, exclude: Option<Id>): (r: Availability.Input) {
    Availability.Input(g.day, [Availability.Eligible(staff, g.staffName, g.durationMinutes)], g.schedules, g.exceptions,
                       BusyTimes(b, tenant, location, staff, exclude))
  }

  function EndOf(g: Agenda, startsAt: int): (r: int) {
    startsAt + g.durationMinutes * MINUTE
  }

  // ----- timeline -----

  function Record(b: Bookings, e: TimelineEvent): (r: Result<Bookings, Error>) {
    if EventInsertable(b.timeline, e) then Success(b.(timeline := b.timeline + [e])) else Failure(DUPLICATE_KEY)
  }

  function CreatedEvent(a: Appointment): (r: TimelineEvent) {
    TimelineEvent(a.tenant, a.id, Created, None, a.status, None, a.startsAt, a.endsAt, None, CreatedKey,
                  CreatedDigest(a.startsAt, a.endsAt))
  }

  /** A cancellation or reschedule; without a previous state the source status is taken from the updated appointment. */
  function ChangeEvent(a: Appointment, event: EventType, key: TimelineKey, reason: Option<string>, previous: Option<Previous>)
    : (r: TimelineEvent)
  {
    var note := if reason == Some("") then None else reason;
    TimelineEvent(a.tenant, a.id, event, Some(if previous.Some? then previous.value.status else a.status), a.status,
                  note, a.startsAt, a.endsAt, previous, key, ChangeDigest(event, reason, a.startsAt, a.endsAt, previous))
  }

  function StatusEvent(was: Status, a: Appointment, event: EventType, key: TimelineKey, digest: Fingerprint, note: Option<string>)
    : (r: TimelineEvent)
  {
    TimelineEvent(a.tenant, a.id, event, Some(was), a.status, note, a.startsAt, a.endsAt, None, key, digest)
  }

  // ----- creating an appointment -----

  datatype Referral = Referral(affiliate: Id, codeText: string, terms: Economics.Terms, price: Economics.Price, currency: string)

  datatype CreateRequest = CreateRequest(
    tenant: Id,
    location: Id,
    service: Id,
    staff: Id,
    customer: Id,
    relationsFound: bool,
    startsAt: int,
    agenda: Agenda,
    key: BookingKey,
    fingerprint: Id,
    referral: Option<Referral>,
    newId: Id,
    newConversionId: Id,
    now: int)

  datatype Reply = Reply(bookings: Bookings, appointment: Appointment)

  function NewAppointment(c: CreateRequest): (r: Appointment) {
    Appointment(c.newId, c.tenant, c.location, c.service, c.staff, c.customer, CONFIRMED, c.startsAt,
                EndOf(c.agenda, c.startsAt), c.key, c.fingerprint, None, None, None, None, None, 0)
  }

  predicate HasKey(b: Bookings, tenant: Id, key: BookingKey, id: Id) {
    id in b.appointments && b.appointments[id].tenant == tenant && b.appointments[id].key == key
  }

  predicate SomeWithKey(b: Bookings, tenant: Id, key: BookingKey) {
    exists id :: id in b.appointments && HasKey(b, tenant, key, id)
  }

  /** The appointment a create command's key already belongs to. */
  ghost function ByKey(b: Bookings, tenant: Id, key: BookingKey): (r: Id)
    requires SomeWithKey(b, tenant, key)
    ensures HasKey(b, tenant, key, r)
  {
    var id :| HasKey(b, tenant, key, id);
    id
  }

  /** Resolves the referral: its economics must hold for the booked service and nobody refers themselves. */
  function Attribute(c: CreateRequest): (r: Result<seq<Conversion>, Error>) {
    match c.referral
    case None => Success([])
    case Some(r) =>
      if !Economics.Supplied(r.terms) then Failure(REFERRAL_CODE_ECONOMICS_INVALID)
      else match Economics.Calculate(r.terms, r.price, r.currency)
        case Failure(e) => Failure(e)
        case Success(x) =>
          if r.affiliate == c.customer then Failure(REFERRAL_SELF_REFERRAL)
          else
            assert 1 <= x.commission <= Economics.MAX_SAFE_INTEGER by {
              Economics.AcceptedEconomicsAreBounded(r.terms, r.price, r.currency);
            }
            Success([Conversion(c.newConversionId, Money.Account(Money.Owner(c.tenant, r.affiliate), r.currency),
                                c.customer, c.newId, c.service, r.codeText, x.gross, x.discount, x.final, x.commission)])
  }

  ghost function Create(cat: Catalog, b: Bookings, c: CreateRequest): (r: Result<Reply, Error>) {
    if SomeWithKey(b, c.tenant, c.key) then
      var a := b.appointments[ByKey(b, c.tenant, c.key)];
      if a.fingerprint != c.fingerprint then Failure(IDEMPOTENCY_KEY_CONFLICT) else Success(Reply(b, a))
    else if !c.relationsFound || (c.tenant, c.staff) !in cat.home || cat.home[(c.tenant, c.staff)] != c.location
    then Failure(APPOINTMENT_RELATION_NOT_FOUND)
    else
      var conversions :- Attribute(c);
      match Availability.Verdict(SlotInput(b, c.agenda, c.tenant, c.location, c.staff, None), c.startsAt, c.now)
      case Some(e) => Failure(e)
      case None =>
        var a := NewAppointment(c);
        if a.id in b.appointments then Failure(DUPLICATE_KEY)
        else if exists cv :: cv in conversions && !ConversionInsertable(b.conversions, cv) then Failure(DUPLICATE_KEY)
        else
          var locks :- Acquire(b.locks, a.tenant, a.staff, a.id, a.startsAt, a.endsAt);
          var done :- Record(b.(appointments := b.appointments[a.id := a],
                                locks := locks,
                                conversions := b.conversions + conversions), CreatedEvent(a));
          Success(Reply(done, a))
  }

  // ----- cancelling and rescheduling -----

  function CancelledAs(a: Appointment, reason: string, now: int): (r: Appointment) {
    a.(status := CANCELLED, closedAt := Some(now), cancellationReason := Some(reason), writes := a.writes + 1)
  }

  function CancelEvent(a: Appointment, reason: string, previous: Option<Previous>, now: int): (r: TimelineEvent) {
    ChangeEvent(CancelledAs(a, reason, now), Cancelled, CancelledKey(now), Some(reason), previous)
  }

  /** Cancels the loaded appointment, whichever channel asked. */
  function CancelWith(b: Bookings, a: Appointment, reason: string, previous: Option<Previous>, now: int): (r: Result<Reply, Error>) {
    var updated := CancelledAs(a, reason, now);
    var done :- Record(b.(appointments := b.appointments[a.id := updated], locks := Release(b.locks, a.tenant, a.id)),
                       CancelEvent(a, reason, previous, now));
    Success(Reply(done, updated))
  }

  function MovedTo(a: Appointment, startsAt: int, endsAt: int): (r: Appointment) {
    a.(startsAt := startsAt, endsAt := endsAt, writes := a.writes + 1)
  }

  function MoveEvent(a: Appointment, startsAt: int, endsAt: int, reason: Option<string>, previous: Option<Previous>): (r: TimelineEvent) {
    ChangeEvent(MovedTo(a, startsAt, endsAt), Rescheduled, RescheduledKey(startsAt), reason, previous)
  }

  /** Moves the loaded appointment, whichever channel asked. */
  function RescheduleWith(b: Bookings, a: Appointment, startsAt: int, endsAt: int, reason: Option<string>, previous: Option<Previous>)
    : (r: Result<Reply, Error>)
  {
    var updated := MovedTo(a, startsAt, endsAt);
    var locks :- Acquire(Release(b.locks, a.tenant, a.id), a.tenant, a.staff, a.id, startsAt, endsAt);
    var done :- Record(b.(appointments := b.appointments[a.id := updated], locks := locks),
                       MoveEvent(a, startsAt, endsAt, reason, previous));
    Success(Reply(done, updated))
  }

  /** Who is asking: a customer or token holder sees only their own appointment. */
  datatype Access = Access(tenant: Id, appointment: Id, customer: Option<Id>)

  predicate Loads(b: Bookings, x: Access) {
    && x.appointment in b.appointments
    && b.appointments[x.appointment].tenant == x.tenant
    && (x.customer.Some? ==> b.appointments[x.appointment].customer == x.customer.value)
  }

  datatype CancelRequest = CancelRequest(access: Access, reason: string, now: int)

  function Cancel(b: Bookings, c: CancelRequest): (r: Result<Reply, Error>) {
    if !Loads(b, c.access) then Failure(APPOINTMENT_NOT_FOUND)
    else
      var a := b.appointments[c.access.appointment];
      if a.status.CANCELLED? && a.cancellationReason == Some(Trim(c.reason)) then Success(Reply(b, a))
      else if !Active(a.status) then Failure(APPOINTMENT_NOT_ACTIVE)
      else CancelWith(b, a, Trim(c.reason), Some(Previous(a.status, a.startsAt, a.endsAt)), c.now)
  }

  datatype RescheduleRequest = RescheduleRequest(
    access: Access,
    startsAt: int,
    reason: Option<string>,
    relationsFound: bool,
    agenda: Agenda,
    now: int)

  function Trimmed(reason: Option<string>): (r: Option<string>) {
    if reason.Some? then Some(Trim(reason.value)) else None
  }

  ghost function Reschedule(b: Bookings, c: RescheduleRequest): (r: Result<Reply, Error>) {
    if !Loads(b, c.access) then Failure(APPOINTMENT_NOT_FOUND)
    else
      var a := b.appointments[c.access.appointment];
      if !Active(a.status) then Failure(APPOINTMENT_NOT_ACTIVE)
      else if a.startsAt == c.startsAt then Success(Reply(b, a))
      else if !c.relationsFound then Failure(APPOINTMENT_NOT_FOUND)
      else
        match Availability.Verdict(SlotInput(b, c.agenda, a.tenant, a.location, a.staff, Some(a.id)), c.startsAt, c.now)
        case Some(e) => Failure(e)
        case None =>
          RescheduleWith(b, a, c.startsAt, EndOf(c.agenda, c.startsAt), Trimmed(c.reason),
                         Some(Previous(a.status, a.startsAt, a.endsAt)))
  }

  // ----- the conversation channel -----

  const CHANNEL_REASON := "Customer channel request"

  datatype ChannelCreate = ChannelCreate(conversation: Id, request: CreateRequest)
  {
    /** One key per conversation, no referral. */
    function AsRequest(): (r: CreateRequest) {
      request.(key := ConversationBooking(conversation), referral := None)
    }
  }

  ghost function CreateFromChannel(cat: Catalog, b: Bookings, c: ChannelCreate): (r: Result<Reply, Error>) {
    Create(cat, b, c.AsRequest())
  }

  datatype ChannelCommand = ChannelCommand(tenant: Id, customer: Id, appointment: Id, now: int)

  predicate Owned(b: Bookings, c: ChannelCommand) {
    && c.appointment in b.appointments
    && b.appointments[c.appointment].tenant == c.tenant
    && b.appointments[c.appointment].customer == c.customer
    && Active(b.appointments[c.appointment].status)
  }

  function CancelFromChannel(b: Bookings, c: ChannelCommand): (r: Result<Reply, Error>) {
    if !Owned(b, c) then Failure(APPOINTMENT_NOT_FOUND)
    else CancelWith(b, b.appointments[c.appointment], CHANNEL_REASON, None, c.now)
  }

  datatype ChannelReschedule = ChannelReschedule(
    command: ChannelCommand,
    relationsFound: bool,
    location: Id,
    startsAt: int,
    agenda: Agenda)

  ghost function RescheduleFromChannel(b: Bookings, c: ChannelReschedule): (r: Result<Reply, Error>) {
    if !Owned(b, c.command) then Failure(APPOINTMENT_NOT_FOUND)
    else
      var a := b.appointments[c.command.appointment];
      if !c.relationsFound then Failure(APPOINTMENT_RELATION_NOT_FOUND)
      else if c.location != a.location then Failure(APPOINTMENT_NOT_FOUND)
      else
        match Availability.Verdict(SlotInput(b, c.agenda, a.tenant, a.location, a.staff, Some(a.id)), c.startsAt, c.command.now)
        case Some(e) => Failure(e)
        case None => RescheduleWith(b, a, c.startsAt, EndOf(c.agenda, c.startsAt), None, None)
  }

  // ----- outcomes -----

  datatype Outcome = Start | Complete(note: Option<string>) | Missed(reason: NoShowReason, note: Option<string>)

  datatype OutcomeRequest = OutcomeRequest(tenant: Id, appointment: Id, outcome: Outcome, key: TimelineKey, now: int)

  function NormalizedNote(note: Option<string>): (r: Option<string>) {
    if note.Some? && Trim(note.value) != "" then Some(Trim(note.value)) else None
  }

  function OutcomeEvent(o: Outcome): (r: EventType) {
    match o
    case Start => Started
    case Complete(_) => Completed
    case Missed(_, _) => NoShow
  }

  function OutcomeDigest(o: Outcome): (r: Fingerprint) {
    match o
    case Start => StartDigest
    case Complete(note) => CompleteDigest(NormalizedNote(note))
    case Missed(reason, note) => NoShowDigest(reason, NormalizedNote(note))
  }

  function OutcomeNote(o: Outcome): (r: Option<string>) {
    match o
    case Start => None
    case Complete(note) => NormalizedNote(note)
    case Missed(_, note) => NormalizedNote(note)
  }

  /** The patch an outcome makes, or why it is refused. */
  function Patch(a: Appointment, o: Outcome, now: int): (r: Result<Appointment, Error>) {
    var touched := a.(writes := a.writes + 1);
    var closed := touched.(closedAt := Some(now));
    match o
    case Start =>
      if !Active(a.status) then Failure(APPOINTMENT_TRANSITION_INVALID)
      else if now < a.startsAt - 30 * MINUTE then Failure(APPOINTMENT_START_TOO_EARLY)
      else Success(touched.(status := IN_PROGRESS, startedAt := Some(now)))
    case Complete(note) =>
      if a.status.IN_PROGRESS? || (Active(a.status) && a.endsAt <= now)
      then Success(closed.(status := COMPLETED, outcomeNote := NormalizedNote(note)))
      else if Active(a.status) then Failure(APPOINTMENT_MUST_BE_STARTED)
      else Failure(APPOINTMENT_TRANSITION_INVALID)
    case Missed(reason, note) =>
      if !Live(a.status) then Failure(APPOINTMENT_TRANSITION_INVALID)
      else if a.startsAt > now then Failure(APPOINTMENT_NO_SHOW_TOO_EARLY)
      else Success(closed.(status := NO_SHOW, noShowReason := Some(reason), outcomeNote := NormalizedNote(note)))
  }

  function ByTimelineKey(timeline: seq<TimelineEvent>, c: OutcomeRequest): (r: Option<nat>) {
    FirstIndex(timeline, (e: TimelineEvent) => e.tenant == c.tenant && e.appointment == c.appointment && e.key == c.key)
  }

  function ApplyOutcome(b: Bookings, c: OutcomeRequest): (r: Result<Reply, Error>) {
    if c.outcome.Missed? && c.outcome.reason.OTHER? && NormalizedNote(c.outcome.note).None?
    then Failure(APPOINTMENT_NO_SHOW_NOTE_REQUIRED)
    else match ByTimelineKey(b.timeline, c)
      case Some(i) =>
        if b.timeline[i].eventType != OutcomeEvent(c.outcome) || b.timeline[i].fingerprint != OutcomeDigest(c.outcome)
        then Failure(IDEMPOTENCY_KEY_CONFLICT)
        else if !Loads(b, Access(c.tenant, c.appointment, None)) then Failure(APPOINTMENT_NOT_FOUND)
        else Success(Reply(b, b.appointments[c.appointment]))
      case None =>
        if !Loads(b, Access(c.tenant, c.appointment, None)) then Failure(APPOINTMENT_NOT_FOUND)
        else
          var a := b.appointments[c.appointment];
          var updated :- Patch(a, c.outcome, c.now);
          var locks := if c.outcome.Start? then b.locks else Release(b.locks, c.tenant, c.appointment);
          var done :- Record(b.(appointments := b.appointments[c.appointment := updated], locks := locks),
                             StatusEvent(a.status, updated, OutcomeEvent(c.outcome), c.key, OutcomeDigest(c.outcome),
                                         OutcomeNote(c.outcome)));
          Success(Reply(done, updated))
  }
}
