/** The affiliate services: each works on its transaction's session step by step, as specified in `Money`. */
module AffiliateServices {
  import opened Wrappers
  import opened Errors
  import opened Money
  import opened Sessions
  import Text
  import System
  import B = Bookings

  // ----- payout store -----

  /** Writes the balance lock, so that no two transactions that rely on one account's balance both commit. */
  method AcquireBalanceLock(s: Session, a: Account) returns (refused: Option<Error>)
    modifies s`balanceLocks
    ensures a in old(s.balanceLocks) ==> refused.None? && s.balanceLocks == old(s.balanceLocks)[a := old(s.balanceLocks)[a] + 1]
    ensures a !in old(s.balanceLocks) ==> refused == Some(AFFILIATE_PAYOUT_INSUFFICIENT_AVAILABLE) && s.balanceLocks == old(s.balanceLocks)
  {
    if a !in s.balanceLocks {
      return Some(AFFILIATE_PAYOUT_INSUFFICIENT_AVAILABLE);
    }
    s.balanceLocks := s.balanceLocks[a := s.balanceLocks[a] + 1];
    return None;
  }

  method AssertProcessingCapacity(s: Session, o: Owner) returns (refused: Option<Error>)
    modifies s`capacityLocks
    ensures refused.None? <==>
            o in old(s.capacityLocks) && Processing(s.payouts, o) < MAX_PROCESSING_AFFILIATE_PAYOUTS
    ensures refused.None? ==> s.capacityLocks == old(s.capacityLocks)[o := old(s.capacityLocks)[o] + 1]
    ensures refused.Some? ==>
              refused.value == if o in old(s.capacityLocks) then AFFILIATE_PAYOUT_PROCESSING_LIMIT
                               else AFFILIATE_PAYOUT_INSUFFICIENT_AVAILABLE
  {
    if o !in s.capacityLocks {
      return Some(AFFILIATE_PAYOUT_INSUFFICIENT_AVAILABLE);
    }
    s.capacityLocks := s.capacityLocks[o := s.capacityLocks[o] + 1];
    if Processing(s.payouts, o) >= MAX_PROCESSING_AFFILIATE_PAYOUTS {
      return Some(AFFILIATE_PAYOUT_PROCESSING_LIMIT);
    }
    return None;
  }

  method AvailableBalance(s: Session, a: Account) returns (r: Result<int, Error>)
    modifies s`balanceLocks
    ensures a in old(s.balanceLocks) ==>
              r == Success(Available(old(s.Money()), a)) && s.balanceLocks == old(s.balanceLocks)[a := old(s.balanceLocks)[a] + 1]
    ensures a !in old(s.balanceLocks) ==> r == Failure(AFFILIATE_PAYOUT_INSUFFICIENT_AVAILABLE)
  {
    var refused := AcquireBalanceLock(s, a);
    if refused.Some? {
      return Failure(refused.value);
    }
    return Success(Balance(s.ledger, a) - Reserved(s.payouts, a));
  }

  // ----- payout service -----

  method CreatePayoutIn(s: Session, c: PayoutRequest) returns (r: Result<Payout, Error>)
    modifies s`payouts, s`balanceLocks, s`capacityLocks
    ensures match CreatePayout(old(s.Money()), c)
            case Success(reply) => r == Success(reply.payout) && s.Money() == reply.money
            case Failure(e) => r == Failure(e)
  {
    if !c.customerExists {
      return Failure(CUSTOMER_NOT_FOUND);
    }
    var replay := ByCreateKey(s.payouts, c.account.owner.tenant, c.key);
    if replay.Some? {
      return CreateReplay(s.payouts[replay.value], c);
    }
    var refused := AssertProcessingCapacity(s, c.account.owner);
    if refused.Some? {
      return Failure(refused.value);
    }
    var available := AvailableBalance(s, c.account);
    if available.Failure? {
      return Failure(available.error);
    }
    if available.value < c.amount {
      return Failure(AFFILIATE_PAYOUT_INSUFFICIENT_AVAILABLE);
    }
    var payout := NewPayout(c);
    if !PayoutInsertable(s.payouts, payout) {
      return Failure(DUPLICATE_KEY);
    }
    s.payouts := s.payouts + [payout];
    return Success(payout);
  }

  method SettlePayoutIn(s: Session, t: Settlement) returns (r: Result<Payout, Error>)
    modifies s`payouts, s`balanceLocks, s`ledger
    ensures match SettlePayout(old(s.Money()), t)
            case Success(reply) => r == Success(reply.payout) && s.Money() == reply.money
            case Failure(e) => r == Failure(e)
  {
    var found := ById(s.payouts, t.owner, t.payoutId);
    if found.None? {
      return Failure(AFFILIATE_PAYOUT_NOT_FOUND);
    }
    var payout := s.payouts[found.value];
    if !payout.status.PROCESSING? {
      return TerminalReplay(payout, t);
    }
    var refused := AcquireBalanceLock(s, payout.account);
    if refused.Some? {
      return Failure(refused.value);
    }
    if t.outcome.PAID? {
      var entry := PaidEntry(payout, t);
      if !EntryInsertable(s.ledger, entry) {
        return Failure(DUPLICATE_KEY);
      }
      s.ledger := s.ledger + [entry];
      payout := payout.(status := PAID, externalReference := Some(t.text), closedAt := Some(t.now));
    } else {
      payout := payout.(status := t.outcome, reason := Some(t.text), closedAt := Some(t.now));
    }
    payout := payout.(terminalKey := Some(t.key));
    if !PayoutStorable(s.payouts, found.value, payout) {
      return Failure(DUPLICATE_KEY);
    }
    s.payouts := s.payouts[found.value := payout];
    return Success(payout);
  }

  /** After a duplicate-key abort the create command looks again, outside any transaction. */
  method RecoverCreate(database: Database, c: PayoutRequest) returns (r: Result<Payout, Error>)
    ensures r.Success? ==>
              && r.value in database.db.money.payouts
              && r.value.account == c.account && r.value.amount == c.amount
              && r.value.createKey == c.key && r.value.createReference == c.reference
    ensures c.customerExists && ByCreateKey(database.db.money.payouts, c.account.owner.tenant, c.key).Some? ==>
              match CreatePayout(database.db.money, c)
              case Success(reply) => r == Success(reply.payout)
              case Failure(e) => r == Failure(e)
    ensures ByCreateKey(database.db.money.payouts, c.account.owner.tenant, c.key).None? ==>
              r == Failure(AFFILIATE_PAYOUT_IDEMPOTENCY_CONFLICT)
  {
    var replay := ByCreateKey(database.db.money.payouts, c.account.owner.tenant, c.key);
    if replay.None? {
      return Failure(AFFILIATE_PAYOUT_IDEMPOTENCY_CONFLICT);
    }
    return CreateReplay(database.db.money.payouts[replay.value], c);
  }

  /** After a duplicate-key abort the settling command accepts only a payout that already ended exactly as it asks. */
  method RecoverSettlement(database: Database, t: Settlement) returns (r: Result<Payout, Error>)
    ensures match ById(database.db.money.payouts, t.owner, t.payoutId)
            case None => r == Failure(AFFILIATE_PAYOUT_IDEMPOTENCY_CONFLICT)
            case Some(i) => r == TerminalReplay(database.db.money.payouts[i], t)
    ensures r.Success? ==> r.value.status == t.outcome && r.value.terminalKey == Some(t.key) && r.value.id == t.payoutId
  {
    var found := ById(database.db.money.payouts, t.owner, t.payoutId);
    if found.None? {
      return Failure(AFFILIATE_PAYOUT_IDEMPOTENCY_CONFLICT);
    }
    return TerminalReplay(database.db.money.payouts[found.value], t);
  }

  // ----- ledger service -----

  method EarnCompletedCommission(s: Session, tenant: Id, appointment: Id, newEntryId: Id) returns (refused: Option<Error>)
    modifies s`ledger, s`balanceLocks, s`capacityLocks
    ensures match System.Earn(old(s.View()), tenant, appointment, newEntryId)
            case Success(db) => refused.None? && s.View() == db
            case Failure(e) => refused == Some(e)
  {
    var found := System.ConversionOf(s.conversions, tenant, appointment);
    if found.None? {
      return None;
    }
    var cv := s.conversions[found.value];
    if cv.account.owner !in s.capacityLocks {
      s.capacityLocks := s.capacityLocks[cv.account.owner := 0];
    }
    if cv.account !in s.balanceLocks {
      s.balanceLocks := s.balanceLocks[cv.account := 0];
    }
    var entry := LedgerEntry(newEntryId, cv.account, Some(cv.id), Some(appointment), None, CREDIT, COMMISSION_EARNED,
                             cv.commission, CommissionKey(cv.id), None, None);
    if !EntryInsertable(s.ledger, entry) {
      return Some(DUPLICATE_KEY);
    }
    s.ledger := s.ledger + [entry];
    return None;
  }

  method ReverseCommissionIn(s: Session, q: Reversal) returns (r: Result<LedgerEntry, Error>)
    modifies s`ledger, s`balanceLocks
    ensures match ReverseCommission(old(s.Money()), q)
            case Success(reply) => r == Success(reply.entry) && s.Money() == reply.money
            case Failure(e) => r == Failure(e)
  {
    var reason := Text.Trim(q.reason);
    if |reason| < 6 || |reason| > 500 {
      return Failure(AFFILIATE_REVERSAL_REASON_INVALID);
    }
    var found := Original(s.ledger, q);
    if found.None? {
      return Failure(AFFILIATE_COMMISSION_NOT_FOUND);
    }
    var original := s.ledger[found.value];
    var existing := Existing(s.ledger, q);
    if existing.Some? {
      return ReversalReplay(s.ledger[existing.value], q);
    }
    var a := original.account;
    if a !in s.balanceLocks {
      return Failure(AFFILIATE_COMMISSION_INSUFFICIENT_AVAILABLE);
    }
    s.balanceLocks := s.balanceLocks[a := s.balanceLocks[a] + 1];
    if Balance(s.ledger, a) - Reserved(s.payouts, a) < original.amount {
      return Failure(AFFILIATE_COMMISSION_INSUFFICIENT_AVAILABLE);
    }
    var reversal := LedgerEntry(q.newEntryId, a, original.conversionId, original.appointmentId, None, DEBIT,
                                COMMISSION_REVERSAL, original.amount, q.key, Some(original.id), Some(reason));
    if !EntryInsertable(s.ledger, reversal) {
      return Failure(DUPLICATE_KEY);
    }
    s.ledger := s.ledger + [reversal];
    return Success(reversal);
  }
}
