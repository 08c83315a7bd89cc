/**
 Any number of workers on one notification collection, each claiming, sending and reporting in its own time, with a
 clock that only moves forward. A worker may stop for good at any point, and may read the clock before it claims.
 */
module NotificationWorkers {
  import opened Wrappers
  import opened Notifications

  /** What a worker holds: the attempt number it claimed with, when its lease ends, and how far it got. */
  datatype Stage = Claimed | Delivered(messageId: string) | Undelivered(reason: Option<string>)
  datatype Worker = Worker(id: Id, token: nat, until: int, stage: Stage)

  /** One call to the provider. */
  datatype Send = Send(notification: Id, token: nat)

  datatype State = State(
    notifications: map<Id, Notification>,
    audit: seq<SentEvent>,
    clock: int,
    workers: map<nat, Worker>,
    sends: seq<Send>)

  datatype Step =
    | Create(id: Id, intent: Intent)
    | Tick(to: int)
    | Claim(worker: nat, scope: Scope, at: int, id: Id)
    | CallProvider(worker: nat, answer: Delivery)
    | Report(worker: nat)
    | LoseReport(worker: nat)
    | Stop(worker: nat)

  /** The claim loop bounds the attempts it allows. */
  predicate ScopeAllowed(s: Scope) { 1 <= s.maxAttempts <= MAX_ATTEMPTS }

  function Reported(p: State, w: Worker): (r: State) {
    if !Reportable(p.notifications, w.id, w.token) then p
    else if w.stage.Delivered? then
      p.(notifications := p.notifications[w.id := MarkedSent(p.notifications[w.id])],
         audit := p.audit + [SentEvent(p.notifications[w.id].intent.tenant, w.id, w.stage.messageId)])
    else if w.stage.Undelivered? then
      p.(notifications := p.notifications[w.id := MarkedFailed(p.notifications[w.id], SafeErrorCode(w.stage.reason))])
    else p
  }

  ghost predicate Next(p: State, step: Step, q: State) {
    match step
    case Create(id, intent) =>
      id !in p.notifications && q == p.(notifications := p.notifications[id := NewNotification(id, intent, p.clock)])
    case Tick(to) =>
      p.clock <= to && q == p.(clock := to)
    case Claim(k, scope, at, id) =>
      && k !in p.workers && ScopeAllowed(scope) && at <= p.clock && IsNext(p.notifications, scope, at, id)
      && var n := ClaimedAt(p.notifications[id], at);
         q == p.(notifications := p.notifications[id := n], workers := p.workers[k := Worker(id, n.attempts, at + LEASE, Claimed)])
    case CallProvider(k, answer) =>
      && k in p.workers && p.workers[k].stage.Claimed?
      && var w := p.workers[k];
         q == p.(workers := p.workers[k := w.(stage := if answer.Success? then Delivered(answer.value) else Undelivered(answer.error))],
                 sends := p.sends + [Send(w.id, w.token)])
    case Report(k) =>
      && k in p.workers && !p.workers[k].stage.Claimed?
      && q == Reported(p, p.workers[k]).(workers := p.workers - {k})
    case LoseReport(k) =>
      && k in p.workers && p.workers[k].stage.Delivered?
      && q == p.(workers := p.workers[k := p.workers[k].(stage := Undelivered(None))])
    case Stop(k) =>
      k in p.workers && q == p.(workers := p.workers - {k})
  }

  ghost predicate StepTaken(states: seq<State>, steps: seq<Step>, i: nat)
    requires i < |steps| && |states| == |steps| + 1
  {
    Next(states[i], steps[i], states[i + 1])
  }

  ghost predicate Run(states: seq<State>, steps: seq<Step>) {
    && |states| == |steps| + 1
    && (exists clock :: states[0] == State(map[], [], clock, map[], []))
    && forall i :: 0 <= i < |steps| ==> StepTaken(states, steps, i)
  }

  // ----- the invariant -----

  function SentEvents(audit: seq<SentEvent>, id: Id): (r: nat) {
    if |audit| == 0 then 0
    else SentEvents(audit[..|audit| - 1], id) + if audit[|audit| - 1].notification == id then 1 else 0
  }

  function SendsOf(sends: seq<Send>, id: Id): (r: nat) {
    if |sends| == 0 then 0
    else SendsOf(sends[..|sends| - 1], id) + if sends[|sends| - 1].notification == id then 1 else 0
  }

  /** A lease is held exactly while processing, and attempts stay within the limit. */
  ghost predicate NotificationSound(n: Notification) {
    n.attempts <= MAX_ATTEMPTS && (n.status.PROCESSING? <==> n.leaseUntil.Some?)
  }

  /** A claim that was overtaken by a newer attempt had let its lease run out; the newest claim's lease is the stored one. */
  ghost predicate WorkerSound(p: State, w: Worker) {
    && w.id in p.notifications
    && var n := p.notifications[w.id];
       && n.intent.scheduledFor <= p.clock
       && 1 <= w.token <= n.attempts
       && (w.token < n.attempts ==> w.until <= p.clock)
       && (w.token == n.attempts ==> n.status.PROCESSING? && n.leaseUntil == Some(w.until))
       && (w.stage.Claimed? ==> Send(w.id, w.token) !in p.sends)
  }

  ghost predicate TokensDistinct(workers: map<nat, Worker>) {
    forall j, k :: j in workers && k in workers && j != k ==> workers[j].id != workers[k].id || workers[j].token != workers[k].token
  }

  ghost predicate SendsDistinct(sends: seq<Send>) {
    forall i, j :: 0 <= i < j < |sends| ==> sends[i] != sends[j]
  }

  ghost predicate SendsClaimed(p: State) {
    forall s :: s in p.sends ==> s.notification in p.notifications && 1 <= s.token <= p.notifications[s.notification].attempts
  }

  ghost predicate Sound(p: State) {
    && Keyed(p.notifications)
    && (forall id :: id in p.notifications ==> NotificationSound(p.notifications[id]))
    && (forall id :: SentEvents(p.audit, id) == if id in p.notifications && p.notifications[id].status.SENT? then 1 else 0)
    && (forall k :: k in p.workers ==> WorkerSound(p, p.workers[k]))
    && TokensDistinct(p.workers)
    && SendsDistinct(p.sends)
    && SendsClaimed(p)
  }

  lemma SentAppend(audit: seq<SentEvent>, e: SentEvent, id: Id)
    ensures SentEvents(audit + [e], id) == SentEvents(audit, id) + if e.notification == id then 1 else 0
  {
    assert (audit + [e])[..|audit|] == audit;
  }

  lemma ClaimKeepsSound(p: State, step: Step, q: State)
    requires Sound(p) && step.Claim? && Next(p, step, q)
    ensures Sound(q)
  {
    var id, k := step.id, step.worker;
    assert NotificationSound(p.notifications[id]);
    forall j | j in q.workers ensures WorkerSound(q, q.workers[j]) {
      if j != k {
        assert WorkerSound(p, p.workers[j]);
      }
    }
    forall i, j | i in q.workers && j in q.workers && i != j
      ensures q.workers[i].id != q.workers[j].id || q.workers[i].token != q.workers[j].token
    {
      if i == k {
        assert WorkerSound(p, p.workers[j]);
      } else if j == k {
        assert WorkerSound(p, p.workers[i]);
      }
    }
  }

  lemma SendKeepsSound(p: State, step: Step, q: State)
    requires Sound(p) && step.CallProvider? && Next(p, step, q)
    ensures Sound(q)
  {
    var k := step.worker;
    var w := p.workers[k];
    assert WorkerSound(p, w);
    forall j | j in q.workers ensures WorkerSound(q, q.workers[j]) {
      assert WorkerSound(p, p.workers[j]);
      assert j != k ==> Send(p.workers[j].id, p.workers[j].token) != Send(w.id, w.token);
    }
  }

  lemma ReportKeepsSound(p: State, step: Step, q: State)
    requires Sound(p) && step.Report? && Next(p, step, q)
    ensures Sound(q)
  {
    var w := p.workers[step.worker];
    assert WorkerSound(p, w);
    if !Reportable(p.notifications, w.id, w.token) {
      ClosingKeepsSound(p, step.worker, p.notifications[w.id], p.audit, q);
    } else if w.stage.Delivered? {
      ClosingKeepsSound(p, step.worker, MarkedSent(p.notifications[w.id]), q.audit, q);
    } else {
      ClosingKeepsSound(p, step.worker, MarkedFailed(p.notifications[w.id], SafeErrorCode(w.stage.reason)), p.audit, q);
    }
  }

  /** Whoever holds the newest attempt may close the notification, with an audit event exactly if it is now sent. */
  lemma ClosingKeepsSound(p: State, k: nat, n: Notification, audit: seq<SentEvent>, q: State)
    requires Sound(p) && k in p.workers && p.workers[k].id in p.notifications
    requires var was := p.notifications[p.workers[k].id];
             && n.id == was.id && n.intent == was.intent && n.attempts == was.attempts
             && (n == was || (was.status.PROCESSING? && n.attempts == p.workers[k].token && !n.status.PROCESSING? && n.leaseUntil.None?))
             && (if n.status.SENT? && !was.status.SENT? then |audit| > 0 && audit[..|audit| - 1] == p.audit && audit[|audit| - 1].notification == n.id
                 else audit == p.audit)
             && (was.status.SENT? ==> n == was)
    requires q == p.(notifications := p.notifications[p.workers[k].id := n], audit := audit, workers := p.workers - {k})
    ensures Sound(q)
  {
    var id := p.workers[k].id;
    assert NotificationSound(p.notifications[id]) && WorkerSound(p, p.workers[k]);
    ClosedWorkersStay(p, k, n, q);
    forall x ensures SentEvents(q.audit, x) == if x in q.notifications && q.notifications[x].status.SENT? then 1 else 0 {
      if |audit| > |p.audit| {
        SentAppend(p.audit, audit[|p.audit|], x);
        assert audit == p.audit + [audit[|p.audit|]];
      }
    }
  }

  lemma ClosedWorkersStay(p: State, k: nat, n: Notification, q: State)
    requires forall j :: j in p.workers ==> WorkerSound(p, p.workers[j])
    requires TokensDistinct(p.workers) && k in p.workers && p.workers[k].id in p.notifications
    requires var was := p.notifications[p.workers[k].id];
             n.intent == was.intent && n.attempts == was.attempts && (n == was || n.attempts == p.workers[k].token)
    requires q.notifications == p.notifications[p.workers[k].id := n] && q.workers == p.workers - {k}
    requires q.clock == p.clock && q.sends == p.sends
    ensures forall j :: j in q.workers ==> WorkerSound(q, q.workers[j])
  {
    forall j | j in q.workers ensures WorkerSound(q, q.workers[j]) {
      assert WorkerSound(p, p.workers[j]);
    }
  }

  lemma StepKeepsSound(p: State, step: Step, q: State)
    requires Sound(p) && Next(p, step, q)
    ensures Sound(q)
  {
    hide Sound, Next;
    match step
    case Claim(_, _, _, _) => ClaimKeepsSound(p, step, q);
    case CallProvider(_, _) => SendKeepsSound(p, step, q);
    case Report(_) => ReportKeepsSound(p, step, q);
    case Create(_, _) => CreateKeepsSound(p, step, q);
    case Tick(_) => QuietStepKeepsSound(p, step, q);
    case LoseReport(_) => QuietStepKeepsSound(p, step, q);
    case Stop(_) => QuietStepKeepsSound(p, step, q);
  }

  lemma CreateKeepsSound(p: State, step: Step, q: State)
    requires Sound(p) && step.Create? && Next(p, step, q)
    ensures Sound(q)
  {
    forall k | k in q.workers ensures WorkerSound(q, q.workers[k]) {
      assert WorkerSound(p, p.workers[k]);
    }
  }

  /** The clock moving on, a lost report and a stopped worker leave the collection alone. */
  lemma QuietStepKeepsSound(p: State, step: Step, q: State)
    requires Sound(p) && Next(p, step, q) && (step.Tick? || step.LoseReport? || step.Stop?)
    ensures Sound(q)
  {
    hide NotificationSound;
    assert q.notifications == p.notifications && q.audit == p.audit && q.sends == p.sends;
    forall k | k in q.workers ensures WorkerSound(q, q.workers[k]) {
      assert WorkerSound(p, p.workers[k]);
    }
  }

  lemma {:induction false} EveryStateIsSound(states: seq<State>, steps: seq<Step>, i: nat)
    requires Run(states, steps) && i < |states|
    ensures Sound(states[i])
  {
    if i > 0 {
      hide Next, Sound;
      EveryStateIsSound(states, steps, i - 1);
      assert StepTaken(states, steps, i - 1);
      StepKeepsSound(states[i - 1], steps[i - 1], states[i]);
    }
  }

  // ----- fencing -----

  predicate LeaseRuns(p: State, k: nat) {
    k in p.workers && p.clock < p.workers[k].until
  }

  /** At most one worker at a time has an unexpired lease on a notification. */
  lemma OneLeaseAtATime(states: seq<State>, steps: seq<Step>, i: nat, j: nat, k: nat)
    requires Run(states, steps) && i < |states| && LeaseRuns(states[i], j) && LeaseRuns(states[i], k)
    requires states[i].workers[j].id == states[i].workers[k].id
    ensures j == k
  {
    EveryStateIsSound(states, steps, i);
    assert WorkerSound(states[i], states[i].workers[j]) && WorkerSound(states[i], states[i].workers[k]);
  }

  /** Only the worker with the newest attempt number changes a notification by reporting; an overtaken worker changes nothing at all. */
  lemma OnlyTheNewestClaimReports(p: State, k: nat, q: State)
    requires Sound(p) && Next(p, Report(k), q)
    ensures p.workers[k].token < p.notifications[p.workers[k].id].attempts ==>
              q.notifications == p.notifications && q.audit == p.audit
    ensures p.workers[k].token == p.notifications[p.workers[k].id].attempts ==>
              && q.notifications[p.workers[k].id].status == (if p.workers[k].stage.Delivered? then SENT else FAILED)
              && forall id :: id in p.notifications && id != p.workers[k].id ==> q.notifications[id] == p.notifications[id]
  {
    assert WorkerSound(p, p.workers[k]);
  }

  /** The provider is never called before the time a notification is scheduled for. */
  lemma NothingIsSentEarly(states: seq<State>, steps: seq<Step>, i: nat)
    requires Run(states, steps) && i < |steps| && steps[i].CallProvider?
    ensures var p, k := states[i], steps[i].worker;
            && k in p.workers && p.workers[k].id in p.notifications
            && p.notifications[p.workers[k].id].intent.scheduledFor <= p.clock
            && states[i + 1].sends == p.sends + [Send(p.workers[k].id, p.workers[k].token)]
  {
    EveryStateIsSound(states, steps, i);
    assert StepTaken(states, steps, i);
    assert WorkerSound(states[i], states[i].workers[steps[i].worker]);
  }

  // ----- sent exactly once -----

  /** A sent notification never changes again. */
  lemma SentIsFinal(p: State, step: Step, q: State, id: Id)
    requires Sound(p) && Next(p, step, q) && id in p.notifications && p.notifications[id].status.SENT?
    ensures id in q.notifications && q.notifications[id] == p.notifications[id]
  {
  }

  lemma {:induction false} SentStaysSent(states: seq<State>, steps: seq<Step>, i: nat, j: nat, id: Id)
    requires Run(states, steps) && i <= j < |states| && id in states[i].notifications && states[i].notifications[id].status.SENT?
    ensures id in states[j].notifications && states[j].notifications[id] == states[i].notifications[id]
  {
    if i < j {
      SentStaysSent(states, steps, i, j - 1, id);
      EveryStateIsSound(states, steps, j - 1);
      assert StepTaken(states, steps, j - 1);
      SentIsFinal(states[j - 1], steps[j - 1], states[j], id);
    }
  }

  /** A notification has one delivery audit event if it is sent, and none otherwise. */
  lemma AuditedOnceIffSent(states: seq<State>, steps: seq<Step>, i: nat, id: Id)
    requires Run(states, steps) && i < |states| && id in states[i].notifications
    ensures SentEvents(states[i].audit, id) == if states[i].notifications[id].status.SENT? then 1 else 0
  {
    EveryStateIsSound(states, steps, i);
  }

  // ----- bounded work -----

  function TokensSent(sends: seq<Send>, id: Id): (r: set<nat>) {
    set s | s in sends && s.notification == id :: s.token
  }

  lemma TokensAppend(sends: seq<Send>, s: Send, id: Id)
    requires s !in sends
    ensures s.notification != id ==> TokensSent(sends + [s], id) == TokensSent(sends, id)
    ensures s.notification == id ==> s.token !in TokensSent(sends, id) && TokensSent(sends + [s], id) == TokensSent(sends, id) + {s.token}
  {
    assert forall x :: x in sends + [s] <==> x in sends || x == s;
    if s.notification == id {
      assert s.token !in TokensSent(sends, id) by {
        assert forall x :: x in sends && x.notification == id ==> x.token != s.token;
      }
    }
  }

  lemma {:induction false} DistinctSendsCount(sends: seq<Send>, id: Id)
    requires SendsDistinct(sends)
    ensures SendsOf(sends, id) == |TokensSent(sends, id)|
  {
    if |sends| > 0 {
      var init, last := sends[..|sends| - 1], sends[|sends| - 1];
      DistinctSendsCount(init, id);
      assert last !in init;
      TokensAppend(init, last, id);
      assert sends == init + [last];
      hide TokensSent, SendsDistinct;
    }
  }

  lemma {:induction false} SmallSet(tokens: set<nat>, n: nat)
    requires forall t :: t in tokens ==> 1 <= t <= n
    ensures |tokens| <= n
  {
    if n == 0 {
      assert tokens == {};
    } else {
      SmallSet(tokens - {n}, n - 1);
      assert n in tokens ==> |tokens| == |tokens - {n}| + 1;
      assert n !in tokens ==> tokens - {n} == tokens;
    }
  }

  /** The provider is called at most once per attempt, so at most 20 times for one notification. */
  lemma SendsAreBounded(states: seq<State>, steps: seq<Step>, i: nat, id: Id)
    requires Run(states, steps) && i < |states| && id in states[i].notifications
    ensures SendsOf(states[i].sends, id) <= states[i].notifications[id].attempts <= 20
  {
    EveryStateIsSound(states, steps, i);
    var p := states[i];
    DistinctSendsCount(p.sends, id);
    SmallSet(TokensSent(p.sends, id), p.notifications[id].attempts);
    assert NotificationSound(p.notifications[id]);
  }

  /** What is left of a notification's attempts; claiming is the only step that can use one up. */
  function Remaining(p: State, id: Id): (r: int) {
    if id in p.notifications then MAX_ATTEMPTS - p.notifications[id].attempts else MAX_ATTEMPTS
  }

  predicate Claims(step: Step, id: Id) { step.Claim? && step.id == id }

  function ClaimCount(steps: seq<Step>, id: Id): (r: nat) {
    if |steps| == 0 then 0 else ClaimCount(steps[..|steps| - 1], id) + if Claims(steps[|steps| - 1], id) then 1 else 0
  }

  lemma ClaimsUseUpAttempts(p: State, step: Step, q: State, id: Id)
    requires Sound(p) && Next(p, step, q)
    ensures 0 <= Remaining(p, id) && Remaining(q, id) == Remaining(p, id) - if Claims(step, id) then 1 else 0
  {
    assert id in p.notifications ==> NotificationSound(p.notifications[id]);
  }

  /** In every run, however long and with however many workers, a notification is claimed exactly as often as it has attempts. */
  lemma {:induction false} ClaimsAreCounted(states: seq<State>, steps: seq<Step>, i: nat, id: Id)
    requires Run(states, steps) && i < |states|
    ensures ClaimCount(steps[..i], id) == MAX_ATTEMPTS - Remaining(states[i], id) <= MAX_ATTEMPTS
  {
    EveryStateIsSound(states, steps, i);
    if i > 0 {
      ClaimsAreCounted(states, steps, i - 1, id);
      EveryStateIsSound(states, steps, i - 1);
      assert StepTaken(states, steps, i - 1);
      ClaimsUseUpAttempts(states[i - 1], steps[i - 1], states[i], id);
      assert steps[..i][..i - 1] == steps[..i - 1];
    } else {
      assert id !in states[0].notifications;
    }
    assert id in states[i].notifications ==> NotificationSound(states[i].notifications[id]);
  }

  // ----- a claim that nobody finishes -----

  /** Nobody still holds the newest attempt of a notification that is being processed. */
  predicate Abandoned(p: State, id: Id) {
    && id in p.notifications && p.notifications[id].status.PROCESSING?
    && forall k :: k in p.workers && p.workers[k].id == id ==> p.workers[k].token != p.notifications[id].attempts
  }

  /** An abandoned notification is taken up again once its lease is over, unless it has used up the attempts that the claim allows. */
  lemma AbandonedIsClaimableBelowTheLimit(p: State, id: Id, maxAttempts: int, now: int)
    requires Sound(p) && Abandoned(p, id) && p.notifications[id].intent.scheduledFor <= now
    ensures Claimable(p.notifications[id], Scope(maxAttempts, None, None), now) <==>
            p.notifications[id].attempts < maxAttempts && p.notifications[id].leaseUntil.value <= now
  {
    assert NotificationSound(p.notifications[id]);
  }

  /** No claim of these steps allows more attempts than the limit. */
  predicate ClaimsWithin(steps: seq<Step>, i: int, j: int, limit: int) {
    forall k :: 0 <= i <= k < j && k < |steps| && steps[k].Claim? ==> steps[k].scope.maxAttempts <= limit
  }

  /** Abandoned at the limit that all later claims respect, whatever limit that is, a notification stays as it is: neither sent nor failed. */
  lemma {:induction false} AbandonedAtTheLimitStays(states: seq<State>, steps: seq<Step>, i: nat, j: nat, id: Id, limit: int)
    requires Run(states, steps) && i <= j < |states| && ClaimsWithin(steps, i, j, limit)
    requires Abandoned(states[i], id) && states[i].notifications[id].attempts >= limit
    ensures Abandoned(states[j], id) && states[j].notifications[id] == states[i].notifications[id]
  {
    if i < j {
      AbandonedAtTheLimitStays(states, steps, i, j - 1, id, limit);
      assert StepTaken(states, steps, j - 1);
    }
  }

  /** No claim at all allows more than twenty. */
  lemma EveryClaimIsWithinTwenty(states: seq<State>, steps: seq<Step>, i: nat, j: nat)
    requires Run(states, steps) && i <= j < |states|
    ensures ClaimsWithin(steps, i, j, MAX_ATTEMPTS)
  {
    forall k | i <= k < j && steps[k].Claim? ensures steps[k].scope.maxAttempts <= MAX_ATTEMPTS {
      assert StepTaken(states, steps, k);
    }
  }

  lemma ExtendRun(states: seq<State>, steps: seq<Step>, step: Step, q: State)
    requires Run(states, steps) && Next(states[|steps|], step, q)
    ensures Run(states + [q], steps + [step])
  {
    hide Next;
    var states', steps' := states + [q], steps + [step];
    forall i | 0 <= i < |steps'| ensures StepTaken(states', steps', i) {
      if i < |steps| {
        assert StepTaken(states, steps, i);
      }
    }
  }

  const REMINDER := Intent(0, 0, 0, None, BOOKING_REMINDER, 0, "reminder")

  /** One reminder after `n` claims, none of which was ever reported. */
  function GivenUp(n: nat): (r: Notification) {
    if n == 0 then NewNotification(0, REMINDER, 0) else Notification(0, REMINDER, 0, PROCESSING, n, Some(n * LEASE), None)
  }

  function Deserted(n: nat): (r: State) {
    State(map[0 := GivenUp(n)], [], n * LEASE, map[], [])
  }

  lemma OneClaimDeserted(n: nat) returns (claimed: State, stopped: State, claim: Step, stop: Step, tick: Step)
    requires n < MAX_ATTEMPTS
    ensures Next(Deserted(n), claim, claimed) && Next(claimed, stop, stopped) && Next(stopped, tick, Deserted(n + 1))
  {
    var scope, at := Scope(MAX_ATTEMPTS, None, None), n * LEASE;
    claim, stop, tick := Claim(0, scope, at, 0), Stop(0), Tick((n + 1) * LEASE);
    var all := Deserted(n).notifications;
    assert IsNext(all, scope, at, 0);
    claimed := State(all[0 := ClaimedAt(all[0], at)], [], at, map[0 := Worker(0, n + 1, at + LEASE, Claimed)], []);
    stopped := claimed.(workers := map[]);
    assert claimed.workers - {0} == map[];
    assert stopped.notifications == map[0 := GivenUp(n + 1)];
  }

  lemma {:induction false} DesertedIsReached(n: nat) returns (states: seq<State>, steps: seq<Step>)
    requires n <= MAX_ATTEMPTS
    ensures Run(states, steps) && states[|steps|] == Deserted(n)
  {
    if n == 0 {
      var first := State(map[], [], 0, map[], []);
      assert Run([first], []);
      assert first.notifications[0 := GivenUp(0)] == map[0 := GivenUp(0)];
      ExtendRun([first], [], Create(0, REMINDER), Deserted(0));
      states, steps := [first] + [Deserted(0)], [] + [Create(0, REMINDER)];
    } else {
      states, steps := DesertedIsReached(n - 1);
      var claimed, stopped, claim, stop, tick := OneClaimDeserted(n - 1);
      hide Next, Deserted;
      ExtendRun(states, steps, claim, claimed);
      states, steps := states + [claimed], steps + [claim];
      ExtendRun(states, steps, stop, stopped);
      states, steps := states + [stopped], steps + [stop];
      ExtendRun(states, steps, tick, Deserted(n));
      states, steps := states + [Deserted(n)], steps + [tick];
    }
  }

  /** It does happen: some run leaves a due notification abandoned at its twentieth attempt, its lease over, and no claim can ever take it. */
  lemma AbandonmentHappens() returns (states: seq<State>, steps: seq<Step>)
    ensures Run(states, steps)
    ensures var p := states[|steps|];
            && Abandoned(p, 0) && p.notifications[0].attempts == MAX_ATTEMPTS && p.notifications[0].leaseUntil == Some(p.clock)
            && forall scope, now :: ScopeAllowed(scope) ==> !Claimable(p.notifications[0], scope, now)
  {
    states, steps := DesertedIsReached(MAX_ATTEMPTS);
  }
}
