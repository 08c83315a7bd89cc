/** Notifications: what one claim and one report do to the collection, and the service that works through them. */
module Notifications {
  import opened Wrappers
  import opened Errors

  type Id = nat

  const LEASE := 5 * 60 * 1000
  const MAX_ATTEMPTS := 20

  datatype Kind = BOOKING_CONFIRMATION | BOOKING_REMINDER | BOOKING_RESCHEDULED | BOOKING_CANCELLED
  datatype Status = PENDING | PROCESSING | SENT | FAILED

  datatype Intent = Intent(tenant: Id, appointment: Id, customer: Id, channel: Option<Id>, kind: Kind, scheduledFor: int, key: string)

  datatype Notification = Notification(
    id: Id,
    intent: Intent,
    createdAt: int,
    status: Status,
    attempts: nat,
    leaseUntil: Option<int>,
    lastErrorCode: Option<string>)

  /** The audit event of a delivery. */
  datatype SentEvent = SentEvent(tenant: Id, notification: Id, providerMessageId: string)

  // ----- writes -----

  function NewNotification(id: Id, intent: Intent, now: int): (r: Notification) {
    Notification(id, intent, now, PENDING, 0, None, None)
  }

  function ClaimedAt(n: Notification, now: int): (r: Notification) {
    n.(status := PROCESSING, leaseUntil := Some(now + LEASE), lastErrorCode := None, attempts := n.attempts + 1)
  }

  function MarkedSent(n: Notification): (r: Notification) {
    n.(status := SENT, lastErrorCode := None, leaseUntil := None)
  }

  function MarkedFailed(n: Notification, code: string): (r: Notification) {
    n.(status := FAILED, lastErrorCode := Some(code), leaseUntil := None)
  }

  /** The attempt number is the token a worker must still hold to report. */
  predicate Reportable(all: map<Id, Notification>, id: Id, token: nat) {
    id in all && all[id].status.PROCESSING? && all[id].attempts == token
  }

  // ----- claiming -----

  datatype Scope = Scope(maxAttempts: int, tenant: Option<Id>, only: Option<Id>)

  predicate Claimable(n: Notification, scope: Scope, now: int) {
    && n.intent.scheduledFor <= now
    && n.attempts < scope.maxAttempts
    && (scope.tenant.Some? ==> n.intent.tenant == scope.tenant.value)
    && (scope.only.Some? ==> n.id == scope.only.value)
    && (n.status.PENDING? || n.status.FAILED? ||
        (n.status.PROCESSING? && (n.leaseUntil.None? || n.leaseUntil.value <= now)))
  }

  /** The order in which due notifications are worked off. */
  predicate Before(a: Notification, b: Notification) {
    || a.intent.scheduledFor < b.intent.scheduledFor
    || (a.intent.scheduledFor == b.intent.scheduledFor &&
        (a.createdAt < b.createdAt || (a.createdAt == b.createdAt && a.id <= b.id)))
  }

  ghost predicate IsNext(all: map<Id, Notification>, scope: Scope, now: int, id: Id) {
    && id in all && Claimable(all[id], scope, now)
    && forall other :: other in all && Claimable(all[other], scope, now) ==> Before(all[id], all[other])
  }

  predicate Keyed(all: map<Id, Notification>) {
    forall id :: id in all ==> all[id].id == id
  }

  predicate SomeClaimable(all: map<Id, Notification>, scope: Scope, now: int) {
    exists id :: id in all && Claimable(all[id], scope, now)
  }

  /** Of any notifications that can be claimed, one comes first. */
  lemma {:induction false} FirstExists(all: map<Id, Notification>, ids: set<Id>) returns (first: Id)
    requires ids != {} && ids <= all.Keys
    ensures first in ids && forall id :: id in ids ==> Before(all[first], all[id])
    decreases |ids|
  {
    var one :| one in ids;
    var rest := ids - {one};
    assert forall id :: id in ids ==> id == one || id in rest;
    if rest == {} {
      return one;
    }
    var other := FirstExists(all, rest);
    first := if Before(all[one], all[other]) then one else other;
    forall id | id in ids ensures Before(all[first], all[id]) {
      if id in rest {
        assert Before(all[other], all[id]);
      }
    }
  }

  lemma NextExists(all: map<Id, Notification>, scope: Scope, now: int)
    requires SomeClaimable(all, scope, now)
    ensures exists id :: IsNext(all, scope, now, id)
  {
    var due := set id | id in all && Claimable(all[id], scope, now);
    var id :| id in all && Claimable(all[id], scope, now);
    assert id in due;
    var first := FirstExists(all, due);
    assert IsNext(all, scope, now, first);
  }

  /** Which one a claim takes is never a matter of chance. */
  lemma NextIsUnique(all: map<Id, Notification>, scope: Scope, now: int, x: Id, y: Id)
    requires Keyed(all) && IsNext(all, scope, now, x) && IsNext(all, scope, now, y)
    ensures x == y
  {
  }

  // ----- claiming, in terms of what is stored -----

  /** Due, with an attempt left, in scope, and nobody's: waiting, failed, or left behind by a claim whose lease is over. */
  predicate Due(n: Notification, scope: Scope, now: int) {
    && n.intent.scheduledFor <= now
    && n.attempts < scope.maxAttempts
    && (scope.tenant.None? || scope.tenant == Some(n.intent.tenant))
    && (scope.only.None? || scope.only == Some(n.id))
    && match n.status
       case PENDING => true
       case FAILED => true
       case PROCESSING => n.leaseUntil.None? || n.leaseUntil.value <= now
       case SENT => false
  }

  /** Earlier schedules come first, equal schedules by creation, equal creations by identifier. */
  predicate NotAfter(a: Notification, b: Notification) {
    && a.intent.scheduledFor <= b.intent.scheduledFor
    && (a.intent.scheduledFor == b.intent.scheduledFor ==> a.createdAt <= b.createdAt)
    && (a.intent.scheduledFor == b.intent.scheduledFor && a.createdAt == b.createdAt ==> a.id <= b.id)
  }

  /** A claim takes what is due, and of that what comes first. */
  lemma NextIsDueAndFirst(all: map<Id, Notification>, scope: Scope, now: int, id: Id)
    ensures IsNext(all, scope, now, id) <==>
            id in all && Due(all[id], scope, now) && forall x :: x in all && Due(all[x], scope, now) ==> NotAfter(all[id], all[x])
    ensures SomeClaimable(all, scope, now) <==> exists x :: x in all && Due(all[x], scope, now)
  {
    assert forall n: Notification :: Due(n, scope, now) <==> Claimable(n, scope, now);
    assert forall a: Notification, b: Notification :: NotAfter(a, b) <==> Before(a, b);
  }

  // ----- failures -----

  predicate IsCodeChar(c: char) { 'A' <= c <= 'Z' || '0' <= c <= '9' || c == '_' }

  /** Only reason codes of the application's own errors are stored; any other failure is reported as unavailable delivery. */
  function SafeErrorCode(reason: Option<string>): (code: string)
    ensures 1 <= |code| <= 80 && forall c :: c in code ==> IsCodeChar(c)
    ensures reason.Some? && 1 <= |reason.value| <= 80 && (forall c :: c in reason.value ==> IsCodeChar(c)) ==> code == reason.value
    ensures reason.None? || |reason.value| == 0 || |reason.value| > 80 ==> code == "CHANNEL_DELIVERY_UNAVAILABLE"
    ensures reason.Some? && (exists c :: c in reason.value && c != '_' && !('A' <= c <= 'Z') && !('0' <= c <= '9')) ==>
              code == "CHANNEL_DELIVERY_UNAVAILABLE"
  {
    if reason.Some? && 1 <= |reason.value| <= 80 && forall c :: c in reason.value ==> IsCodeChar(c)
    then reason.value
    else "CHANNEL_DELIVERY_UNAVAILABLE"
  }

  // ----- the service -----

  /** How a provider answers: a message id, or an error with or without a reason code. */
  type Delivery = Result<string, Option<string>>

  class NotificationService {
    var notifications: map<Id, Notification>
    var audit: seq<SentEvent>

    constructor ()
      ensures notifications == map[] && audit == []
    {
      notifications, audit := map[], [];
    }

    /** Upserts by tenant and key: the first intent wins, the same intent again returns it, a different one is refused. */
    method CreateIntent(intent: Intent, newId: Id, now: int) returns (r: Result<Notification, Error>)
      requires newId !in notifications && KeysUnique(notifications)
      modifies this`notifications
      ensures KeysUnique(notifications)
      ensures if exists id :: id in old(notifications) && HasIntentKey(old(notifications)[id], intent) then
                && notifications == old(notifications)
                && (r.Success? ==> r.value in notifications.Values && r.value.intent == intent)
                && (r.Failure? ==> r.error == NOTIFICATION_IDEMPOTENCY_CONFLICT && forall n :: n in notifications.Values ==> n.intent != intent)
              else
                && r == Success(Notification(newId, intent, now, PENDING, 0, None, None))
                && notifications == old(notifications)[newId := r.value]
    {
      assert forall n: Notification :: HasIntentKey(n, intent) <==> SameKey(n, intent);
      if KeyTaken(notifications, intent) {
        var id :| id in notifications && SameKey(notifications[id], intent);
        var stored := notifications[id];
        assert stored in notifications.Values;
        if stored.intent.appointment == intent.appointment && stored.intent.customer == intent.customer &&
           stored.intent.channel == intent.channel && stored.intent.kind == intent.kind &&
           stored.intent.scheduledFor == intent.scheduledFor {
          return Success(stored);
        }
        return Failure(NOTIFICATION_IDEMPOTENCY_CONFLICT);
      }
      var created := NewNotification(newId, intent, now);
      notifications := notifications[newId := created];
      return Success(created);
    }

    /** Takes the first claimable notification under a five-minute lease and counts the attempt. */
    method ClaimOne(scope: Scope, now: int) returns (r: Option<Notification>)
      requires Keyed(notifications)
      modifies this`notifications
      ensures r.None? <==> !SomeClaimable(old(notifications), scope, now)
      ensures r.None? ==> notifications == old(notifications)
      ensures r.Some? ==>
                && IsNext(old(notifications), scope, now, r.value.id)
                && r.value == ClaimedAt(old(notifications)[r.value.id], now)
                && notifications == old(notifications)[r.value.id := r.value]
      ensures r.None? <==> forall id :: id in old(notifications) ==> !Due(old(notifications)[id], scope, now)
      ensures r.Some? ==>
                && r.value.id in old(notifications)
                && var was := old(notifications)[r.value.id];
                   && Due(was, scope, now)
                   && (forall id :: id in old(notifications) && Due(old(notifications)[id], scope, now) ==>
                         NotAfter(was, old(notifications)[id]))
                   && r.value == was.(status := PROCESSING, attempts := was.attempts + 1, leaseUntil := Some(now + 300_000),
                                      lastErrorCode := None)
    {
      forall id ensures IsNext(notifications, scope, now, id) <==>
                        && id in notifications && Due(notifications[id], scope, now)
                        && forall x :: x in notifications && Due(notifications[x], scope, now) ==> NotAfter(notifications[id], notifications[x]) {
        NextIsDueAndFirst(notifications, scope, now, id);
      }
      NextIsDueAndFirst(notifications, scope, now, 0);
      if !SomeClaimable(notifications, scope, now) {
        return None;
      }
      NextExists(notifications, scope, now);
      var id :| id in notifications && Claimable(notifications[id], scope, now) &&
                forall other :: other in notifications && Claimable(notifications[other], scope, now) ==>
                  Before(notifications[id], notifications[other]);
      assert IsNext(notifications, scope, now, id);
      var claimed := ClaimedAt(notifications[id], now);
      notifications := notifications[id := claimed];
      return Some(claimed);
    }

    /** Reports the provider's answer, if the claim still holds the newest attempt; each delivery leaves one audit event. */
    method Dispatch(claimed: Notification, delivery: Delivery) returns (sent: bool)
      modifies this
      ensures sent <==>
                && delivery.Success? && claimed.id in old(notifications)
                && old(notifications)[claimed.id].status.PROCESSING? && old(notifications)[claimed.id].attempts == claimed.attempts
      ensures sent ==>
                claimed.id in notifications &&
                notifications[claimed.id] == old(notifications)[claimed.id].(status := SENT, lastErrorCode := None, leaseUntil := None)
      ensures !sent && claimed.id in old(notifications) && old(notifications)[claimed.id].status.PROCESSING? &&
              old(notifications)[claimed.id].attempts == claimed.attempts ==>
                && delivery.Failure? && claimed.id in notifications
                && notifications[claimed.id] ==
                   old(notifications)[claimed.id].(status := FAILED, lastErrorCode := Some(SafeErrorCode(delivery.error)), leaseUntil := None)
      ensures !Reportable(old(notifications), claimed.id, claimed.attempts) ==> notifications == old(notifications) && audit == old(audit)
      ensures sent ==>
                && notifications == old(notifications)[claimed.id := MarkedSent(old(notifications)[claimed.id])]
                && audit == old(audit) + [SentEvent(claimed.intent.tenant, claimed.id, delivery.value)]
      ensures delivery.Failure? && Reportable(old(notifications), claimed.id, claimed.attempts) ==>
                && notifications == old(notifications)[claimed.id := MarkedFailed(old(notifications)[claimed.id], SafeErrorCode(delivery.error))]
                && audit == old(audit)
    {
      var id := claimed.id;
      if delivery.Success? {
        if id !in notifications || !notifications[id].status.PROCESSING? || notifications[id].attempts != claimed.attempts {
          return false;
        }
        notifications := notifications[id := notifications[id].(status := SENT, lastErrorCode := None, leaseUntil := None)];
        audit := audit + [SentEvent(claimed.intent.tenant, id, delivery.value)];
        return true;
      }
      if id in notifications && notifications[id].status.PROCESSING? && notifications[id].attempts == claimed.attempts {
        var code := SafeErrorCode(delivery.error);
        notifications := notifications[id := notifications[id].(status := FAILED, lastErrorCode := Some(code), leaseUntil := None)];
      }
      return false;
    }

    /**
     Works off due notifications one by one. Alone, every claim it takes ends as sent or failed, it counts both exactly,
     it takes at most 100, and it stops early only when nothing is left to claim.
     */
    method ProcessPending(limit: int, maxAttempts: int, tenant: Option<Id>, clock: nat -> int, answers: nat -> Delivery)
      returns (sent: nat, failed: nat)
      requires Keyed(notifications)
      modifies this
      ensures Keyed(notifications) && WorkedOff(old(notifications), notifications, Bounded(maxAttempts, 1, 20), tenant)
      ensures sent + failed <= Bounded(limit, 1, 100)
      ensures |audit| == |old(audit)| + sent && old(audit) <= audit
      ensures Spent(notifications, old(notifications)) == sent + failed
      ensures sent + failed < Bounded(limit, 1, 100) ==>
                !SomeClaimable(notifications, Scope(Bounded(maxAttempts, 1, 20), tenant, None), clock(sent + failed))
    {
      hide Due, NotAfter, Before, WorkedOff, Reportable, SafeErrorCode, SomeClaimable, Claimable, Spent, Bounded;
      var boundedLimit := Bounded(limit, 1, 100);
      var scope := Scope(Bounded(maxAttempts, 1, 20), tenant, None);
      sent, failed := 0, 0;
      SpentNothing(notifications);
      NothingWorkedOff(notifications, scope.maxAttempts, tenant);
      var index := 0;
      while index < boundedLimit
        invariant 0 <= index == sent + failed <= boundedLimit
        invariant Keyed(notifications) && notifications.Keys == old(notifications).Keys
        invariant |audit| == |old(audit)| + sent && old(audit) <= audit
        invariant Spent(notifications, old(notifications)) == sent + failed
        invariant WorkedOff(old(notifications), notifications, scope.maxAttempts, tenant)
      {
        ghost var before := notifications;
        var claimed := ClaimOne(scope, clock(index));
        if claimed.None? {
          break;
        }
        ghost var id := claimed.value.id;
        assert Reportable(notifications, id, claimed.value.attempts) by {
          ClaimIsReportable(before, id, clock(index));
        }
        var ok := Dispatch(claimed.value, answers(index));
        OneMoreWorkedOff(old(notifications), before, notifications, id, scope, clock(index));
        SpentOneMore(notifications, before, old(notifications), id);
        if ok {
          sent := sent + 1;
        } else {
          failed := failed + 1;
        }
        index := index + 1;
      }
    }
  }

  lemma ClaimIsReportable(all: map<Id, Notification>, id: Id, now: int)
    requires id in all
    ensures Reportable(all[id := ClaimedAt(all[id], now)], id, all[id].attempts + 1)
  {
  }

  /**
   Each notification is as it was, or was worked off: it ended sent or failed, within the attempts allowed, it belongs to the
   asked tenant, it had not been sent before, and it is otherwise the same intent.
   */
  ghost predicate WorkedOff(was: map<Id, Notification>, now: map<Id, Notification>, maxAttempts: int, tenant: Option<Id>) {
    && now.Keys == was.Keys
    && forall id :: id in now && now[id] != was[id] ==>
         && (now[id].status.SENT? || now[id].status.FAILED?) && !was[id].status.SENT?
         && now[id].intent == was[id].intent && was[id].attempts < now[id].attempts <= maxAttempts
         && (tenant.None? || tenant == Some(now[id].intent.tenant))
  }

  lemma NothingWorkedOff(all: map<Id, Notification>, maxAttempts: int, tenant: Option<Id>)
    ensures WorkedOff(all, all, maxAttempts, tenant)
  {
  }

  lemma OneMoreWorkedOff(was: map<Id, Notification>, before: map<Id, Notification>, now: map<Id, Notification>, id: Id, scope: Scope,
                         time: int)
    requires WorkedOff(was, before, scope.maxAttempts, scope.tenant)
    requires id in before && Claimable(before[id], scope, time) && id in now
    requires now == before[id := now[id]]
    requires now[id].intent == before[id].intent && now[id].attempts == before[id].attempts + 1
    requires now[id].status.SENT? || now[id].status.FAILED?
    ensures WorkedOff(was, now, scope.maxAttempts, scope.tenant)
  {
  }

  function Bounded(x: int, low: int, high: int): (r: int)
    requires low <= high
    ensures low <= r <= high && (low <= x <= high ==> r == x) && (x < low ==> r == low) && (x > high ==> r == high)
  {
    var atLeast := if x < low then low else x;
    if atLeast < high then atLeast else high
  }

  predicate SameKey(n: Notification, intent: Intent) {
    n.intent.tenant == intent.tenant && n.intent.key == intent.key
  }

  /** The tenant already has a notification under the intent's key. */
  predicate HasIntentKey(n: Notification, intent: Intent) {
    (n.intent.tenant, n.intent.key) == (intent.tenant, intent.key)
  }

  predicate KeyTaken(all: map<Id, Notification>, intent: Intent) {
    exists id :: id in all && SameKey(all[id], intent)
  }

  predicate KeysUnique(all: map<Id, Notification>) {
    forall i, j :: i in all && j in all && i != j ==> !SameKey(all[i], all[j].intent)
  }

  /** How many attempts were added, over all notifications. */
  ghost function Spent(now: map<Id, Notification>, was: map<Id, Notification>): (r: int) {
    SpentOver(now, was, now.Keys * was.Keys)
  }

  ghost function SpentOver(now: map<Id, Notification>, was: map<Id, Notification>, ids: set<Id>): (r: int)
    requires ids <= now.Keys && ids <= was.Keys
  {
    if ids == {} then 0
    else
      var id :| id in ids;
      now[id].attempts - was[id].attempts + SpentOver(now, was, ids - {id})
  }

  lemma {:induction false} SpentOverPick(now: map<Id, Notification>, was: map<Id, Notification>, ids: set<Id>, id: Id)
    requires ids <= now.Keys && ids <= was.Keys && id in ids
    ensures SpentOver(now, was, ids) == now[id].attempts - was[id].attempts + SpentOver(now, was, ids - {id})
    decreases |ids|
  {
    var first :| first in ids && SpentOver(now, was, ids) == now[first].attempts - was[first].attempts + SpentOver(now, was, ids - {first});
    if first != id {
      SpentOverPick(now, was, ids - {first}, id);
      SpentOverPick(now, was, ids - {id}, first);
      assert ids - {first} - {id} == ids - {id} - {first};
    }
  }

  lemma {:induction false} SpentOverSame(now: map<Id, Notification>, last: map<Id, Notification>, was: map<Id, Notification>, ids: set<Id>)
    requires ids <= now.Keys && ids <= last.Keys && ids <= was.Keys
    requires forall id :: id in ids ==> now[id].attempts == last[id].attempts
    ensures SpentOver(now, was, ids) == SpentOver(last, was, ids)
    decreases |ids|
  {
    if ids != {} {
      var id :| id in ids;
      SpentOverPick(now, was, ids, id);
      SpentOverPick(last, was, ids, id);
      SpentOverSame(now, last, was, ids - {id});
    }
  }

  lemma {:induction false} SpentNothingOver(all: map<Id, Notification>, ids: set<Id>)
    requires ids <= all.Keys
    ensures SpentOver(all, all, ids) == 0
    decreases |ids|
  {
    if ids != {} {
      var id :| id in ids;
      SpentOverPick(all, all, ids, id);
      SpentNothingOver(all, ids - {id});
    }
  }

  lemma SpentNothing(all: map<Id, Notification>)
    ensures Spent(all, all) == 0
  {
    SpentNothingOver(all, all.Keys * all.Keys);
  }

  /** One round of claim and report costs one attempt. */
  lemma SpentOneMore(now: map<Id, Notification>, before: map<Id, Notification>, was: map<Id, Notification>, id: Id)
    requires now.Keys == before.Keys == was.Keys && id in now && now[id].attempts == before[id].attempts + 1
    requires forall other :: other in now && other != id ==> now[other] == before[other]
    ensures Spent(now, was) == Spent(before, was) + 1
  {
    var ids := now.Keys * was.Keys;
    SpentOverPick(now, was, ids, id);
    SpentOverPick(before, was, ids, id);
    SpentOverSame(now, before, was, ids - {id});
  }
}
