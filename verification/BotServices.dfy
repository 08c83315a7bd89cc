/** One inbound message, from the provider event to its committed booking, and the retries around it. */
module BotServices {
  import opened Wrappers
  import opened Errors
  import opened BotBookings
  import C = Conversations
  import CR = ConversationRuns
  import S = System
  import SR = Runs
  import Sessions
  import Transactions
  import ConversationServices

  /** The transaction of a message: the engine's work, the command handler's work in the same transaction, and the customer's record. */
  method ProcessMessage(fixed: Setting, w: World, ev: C.InboundEvent, d: Details, collate: string -> int) returns (r: Result<World, Error>)
    requires Sound(fixed, w)
    ensures r == Execute(fixed, w, Message(ev, d))
  {
    assert C.ThreadsUnique(w.talk.conversations) && forall id :: id in w.talk.conversations ==> w.talk.conversations[id].id == id by {
      forall id | id in w.talk.conversations ensures w.talk.conversations[id].id == id {
        assert C.ConversationSound(w.talk, id);
      }
    }
    assert S.Sound(fixed.cat, w.store);
    hide Sound, C.ReceiveMessage, S.Execute, S.Sound;
    var engine := new ConversationServices.ConversationSession(w.talk);
    var refused := engine.ProcessTransaction(ev);
    if refused.Some? {
      return Failure(refused.value);
    }
    ReceivingAppends(w.talk, ev);
    var x := engine.log[|w.talk.log|];
    var store := w.store;
    if x.command.Some? {
      var session := new Sessions.Session(w.store);
      refused := Transactions.Work(fixed.cat, session, Order(fixed, ev, x.conversation, d, x.command.value), collate);
      if refused.Some? {
        return Failure(refused.value);
      }
      store := session.View();
    }
    return Success(World(engine.View(), store, w.customers + {(ev.tenant, ev.thread)}));
  }

  // ----- retries -----

  /** An attempt read one state and tried to commit onto another; plain write conflicts are retried below, by the driver. */
  datatype Attempt = Attempt(read: World, current: World)

  datatype Processing = Processed(world: World) | Duplicate | Refused(error: Error)

  const MAX_ATTEMPTS := 3

  predicate EventTaken(a: Attempt, ev: C.InboundEvent) {
    C.EventSeen(a.read.talk.log, ev.event) || C.EventSeen(a.current.talk.log, ev.event)
  }

  /** Somebody else recorded the customer's phone, or opened the conversation of the thread, in the meantime. */
  predicate IdentityRaced(a: Attempt, ev: C.InboundEvent) {
    || ((ev.tenant, ev.thread) !in a.read.customers && (ev.tenant, ev.thread) in a.current.customers)
    || (!C.ThreadKnown(a.read.talk, ev) && C.ThreadKnown(a.current.talk, ev))
  }

  ghost predicate Commits(fixed: Setting, a: Attempt, ev: C.InboundEvent, d: Details) {
    var v := Execute(fixed, a.read, Message(ev, d));
    v.Success? && CanCommit(a.read, v.value, a.current)
  }

  /** Three attempts, each reading what was committed by the end of the one before; what stops a commit is a taken event or a lost identity race. */
  ghost predicate Attempts(fixed: Setting, attempts: seq<Attempt>, ev: C.InboundEvent, d: Details) {
    && |attempts| == MAX_ATTEMPTS
    && (forall n :: 0 <= n < MAX_ATTEMPTS ==> Attemptable(fixed, attempts[n], ev, d))
    && (forall n :: 0 <= n < MAX_ATTEMPTS - 1 ==> Evolved(attempts[n].current, attempts[n + 1].read))
  }

  ghost predicate Attemptable(fixed: Setting, a: Attempt, ev: C.InboundEvent, d: Details) {
    && Sound(fixed, a.read) && Sound(fixed, a.current) && Evolved(a.read, a.current)
    && (Execute(fixed, a.read, Message(ev, d)).Success? && !Commits(fixed, a, ev, d) ==> EventTaken(a, ev) || IdentityRaced(a, ev))
  }

  ghost predicate LostRaces(attempts: seq<Attempt>, ev: C.InboundEvent, n: nat)
    requires n <= |attempts|
  {
    forall j :: 0 <= j < n ==> IdentityRaced(attempts[j], ev) && !EventTaken(attempts[j], ev)
  }

  lemma KnownStaysKnown(s: World, c: World, ev: C.InboundEvent)
    requires Evolved(s, c)
    ensures C.ThreadKnown(s.talk, ev) ==> C.ThreadKnown(c.talk, ev)
    ensures (ev.tenant, ev.thread) in s.customers ==> (ev.tenant, ev.thread) in c.customers
  {
    hide S.Evolved;
    if C.ThreadKnown(s.talk, ev) {
      var id :| id in s.talk.conversations && C.OnThread(s.talk.conversations[id], ev);
      assert CR.ConversationEvolves(s.talk.conversations[id], c.talk.conversations[id]);
      assert C.OnThread(c.talk.conversations[id], ev);
    }
  }

  /** The phone and the thread can each be lost to somebody else only once, so the third attempt loses neither. */
  lemma TwoRacesAtMost(fixed: Setting, attempts: seq<Attempt>, ev: C.InboundEvent, d: Details)
    requires Attempts(fixed, attempts, ev, d) && IdentityRaced(attempts[0], ev) && IdentityRaced(attempts[1], ev)
    ensures !IdentityRaced(attempts[2], ev)
  {
    hide Sound, Execute, CanCommit, C.ThreadKnown, Evolved;
    assert Attemptable(fixed, attempts[0], ev, d) && Attemptable(fixed, attempts[1], ev, d) && Attemptable(fixed, attempts[2], ev, d);
    KnownStaysKnown(attempts[0].current, attempts[1].read, ev);
    KnownStaysKnown(attempts[1].read, attempts[1].current, ev);
    KnownStaysKnown(attempts[1].current, attempts[2].read, ev);
  }

  /**
   Processes a message in at most three attempts. The answer is the committed message, or that its event was taken, or
   the error of the transaction itself; lost identity races alone never make it fail.
   */
  method ProcessInbound(fixed: Setting, attempts: seq<Attempt>, ev: C.InboundEvent, d: Details, collate: string -> int)
    returns (r: Processing)
    requires Attempts(fixed, attempts, ev, d)
    ensures match r
            case Processed(world) =>
              exists n :: 0 <= n < MAX_ATTEMPTS && LostRaces(attempts, ev, n) && CommittedAs(fixed, attempts[n], ev, d, world)
            case Duplicate => exists n :: 0 <= n < MAX_ATTEMPTS && LostRaces(attempts, ev, n) && EventTaken(attempts[n], ev)
            case Refused(e) =>
              exists n :: 0 <= n < MAX_ATTEMPTS && LostRaces(attempts, ev, n) && FailsWith(fixed, attempts[n], ev, d, e)
  {
    hide Sound, Execute, Evolved, CanCommit, Merge, EventTaken, IdentityRaced;
    for attempt := 0 to MAX_ATTEMPTS
      invariant LostRaces(attempts, ev, attempt)
      invariant attempt < MAX_ATTEMPTS
    {
      var a := attempts[attempt];
      assert Attemptable(fixed, a, ev, d);
      if attempt == 2 {
        TwoRacesAtMost(fixed, attempts, ev, d);
      }
      if EventTaken(a, ev) {
        return Duplicate;
      }
      var v := ProcessMessage(fixed, a.read, ev, d, collate);
      if v.Failure? {
        assert FailsWith(fixed, a, ev, d, v.error);
        return Refused(v.error);
      }
      if CanCommit(a.read, v.value, a.current) {
        MergeDefined(a.read, v.value, a.current);
        assert CommittedAs(fixed, a, ev, d, Merge(a.read, v.value, a.current));
        return Processed(Merge(a.read, v.value, a.current));
      }
    }
    assert false;
    return Duplicate;
  }

  lemma MergeDefined(s: World, v: World, c: World)
    requires CanCommit(s, v, c)
    ensures CR.CanCommit(s.talk, v.talk, c.talk) && SR.CanCommit(s.store, v.store, c.store)
  {
  }

  ghost predicate CommittedAs(fixed: Setting, a: Attempt, ev: C.InboundEvent, d: Details, world: World) {
    var v := Execute(fixed, a.read, Message(ev, d));
    v.Success? && CanCommit(a.read, v.value, a.current) && world == Merge(a.read, v.value, a.current)
  }

  ghost predicate FailsWith(fixed: Setting, a: Attempt, ev: C.InboundEvent, d: Details, e: Error) {
    Execute(fixed, a.read, Message(ev, d)) == Failure(e) && !EventTaken(a, ev)
  }
}
