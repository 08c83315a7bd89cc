/**
 What an affiliate can rely on when a payout, a settlement or a reversal meets a state that runs can reach: exactly when
 it is carried out, with which error it is refused otherwise, and exactly what it writes. In such a state every account
 that was ever credited has its lock documents, so a missing lock never refuses what the balance covers.
 */
module MoneyAnswers {
  import opened Wrappers
  import opened Errors
  import opened System
  import opened Runs
  import opened Histories
  import opened BookingAnswers
  import BookingRecords
  import AffiliateViews
  import B = Bookings
  import BS = BookingSafety
  import M = Money
  import MS = MoneySafety
  import Text

  // ----- the lock documents -----

  ghost predicate HasLocks(m: M.Money, a: M.Account) {
    a in m.balanceLocks && a.owner in m.capacityLocks
  }

  /** Every account with a ledger entry or a payout has both its lock documents. */
  ghost predicate LocksExist(m: M.Money) {
    && (forall e :: e in m.ledger ==> HasLocks(m, e.account))
    && (forall p :: p in m.payouts ==> HasLocks(m, p.account))
  }

  lemma PayoutKeepsLocks(m: M.Money, c: M.PayoutRequest)
    requires LocksExist(m) && M.CreatePayout(m, c).Success?
    ensures LocksExist(M.CreatePayout(m, c).value.money)
  {
    hide M.Processing, M.Available, M.PayoutInsertable;
  }

  lemma SettlementKeepsLocks(m: M.Money, c: M.Settlement)
    requires LocksExist(m) && M.SettlePayout(m, c).Success?
    ensures LocksExist(M.SettlePayout(m, c).value.money)
  {
    hide M.EntryInsertable, M.PayoutStorable;
  }

  lemma ReversalKeepsLocks(m: M.Money, c: M.Reversal)
    requires LocksExist(m) && M.ReverseCommission(m, c).Success?
    ensures LocksExist(M.ReverseCommission(m, c).value.money)
  {
    hide M.EntryInsertable, M.Available;
  }

  lemma OutcomeKeepsLocks(cat: B.Catalog, db: Db, c: B.OutcomeRequest, id: Id)
    requires Reachable(cat, db) && LocksExist(db.money) && Execute(cat, db, RecordOutcome(c, id)).Success?
    ensures LocksExist(Execute(cat, db, RecordOutcome(c, id)).value.money)
  {
    hide Execute, Reachable, OutcomeWritten, KeyOf, RecordsRequest, CreditAdmitted;
    OutcomeAnswers(cat, db, c, id);
  }

  lemma {:induction false} LocksAreKept(cat: B.Catalog, commands: seq<Command>)
    requires Serially(cat, commands).Success?
    ensures LocksExist(Serially(cat, commands).value.money)
  {
    if |commands| > 0 {
      BookingRecords.SeriallyReachable(cat, commands);
      LocksAreKept(cat, commands[..|commands| - 1]);
      hide Reachable, Serially, LocksExist, M.CreatePayout, M.SettlePayout, M.ReverseCommission;
      var db, cmd := Serially(cat, commands[..|commands| - 1]).value, commands[|commands| - 1];
      match cmd
      case CreatePayout(c) => PayoutKeepsLocks(db.money, c);
      case SettlePayout(c) => SettlementKeepsLocks(db.money, c);
      case ReverseCommission(c) => ReversalKeepsLocks(db.money, c);
      case RecordOutcome(c, id) =>
        hide Execute;
        OutcomeKeepsLocks(cat, db, c, id);
      case _ =>
    }
  }

  /** In every reachable state an account that was ever credited, or ever paid out, has both its lock documents. */
  lemma ReachableLocksExist(cat: B.Catalog, db: Db)
    requires Reachable(cat, db)
    ensures MS.Sound(db.money) && LocksExist(db.money)
  {
    ReachableIsSound(cat, db);
    hide Reachable, Serially, LocksExist, BS.Sound, MS.Sound, Linked;
    ReachableIffSerial(cat, db);
    var commands :| Serially(cat, commands) == Success(db);
    LocksAreKept(cat, commands);
  }

  /** What is available comes from credits, so an account with something available has its locks. */
  lemma AvailableMeansLocked(m: M.Money, a: M.Account)
    requires LocksExist(m) && M.Available(m, a) > 0
    ensures HasLocks(m, a)
  {
    if forall e :: e in m.ledger ==> e.account != a {
      AffiliateViews.AbsentCurrencyOwesNothing(m.ledger, a);
    }
  }

  lemma {:induction false} ProcessingMeansPayout(payouts: seq<M.Payout>, o: M.Owner)
    requires M.Processing(payouts, o) > 0
    ensures exists p :: p in payouts && p.account.owner == o
  {
    if M.Occupies(payouts[|payouts| - 1], o) > 0 {
      assert payouts[|payouts| - 1] in payouts;
    } else {
      ProcessingMeansPayout(payouts[..|payouts| - 1], o);
    }
  }

  // ----- creating a payout -----

  ghost predicate CreatedUnder(m: M.Money, c: M.PayoutRequest, p: M.Payout) {
    p in m.payouts && p.account.owner.tenant == c.account.owner.tenant && p.createKey == c.key
  }

  predicate SamePayout(p: M.Payout, c: M.PayoutRequest) {
    p.account == c.account && p.amount == c.amount && p.createReference == c.reference
  }

  /**
   A payout under a new key is created exactly if fewer than 100 are processing, the available amount covers it and its
   identifier is new; it is then processing, both its locks have a new version, and the ledger is as it was.
   */
  lemma PayoutAnswers(cat: B.Catalog, db: Db, c: M.PayoutRequest)
    requires Reachable(cat, db)
    ensures var m, r := db.money, Execute(cat, db, CreatePayout(c));
            if !c.customerExists then r == Failure(CUSTOMER_NOT_FOUND)
            else if exists p :: CreatedUnder(m, c, p)
            then r == if exists p :: CreatedUnder(m, c, p) && SamePayout(p, c) then Success(db)
                      else Failure(AFFILIATE_PAYOUT_IDEMPOTENCY_CONFLICT)
            else if M.Processing(m.payouts, c.account.owner) >= 100 then r == Failure(AFFILIATE_PAYOUT_PROCESSING_LIMIT)
            else if M.Available(m, c.account) < c.amount then r == Failure(AFFILIATE_PAYOUT_INSUFFICIENT_AVAILABLE)
            else if exists p :: p in m.payouts && p.id == c.newId then r == Failure(DUPLICATE_KEY)
            else r.Success? && r.value.bookings == db.bookings && HasLocks(m, c.account) && IsCreated(m, r.value.money, c)
  {
    hide Reachable, MS.Sound, M.PayoutInsertable, M.ByCreateKey, CreatedUnder;
    ReachableLocksExist(cat, db);
    var m := db.money;
    CreateKeyFound(m, c);
    if M.Available(m, c.account) >= c.amount {
      AvailableMeansLocked(m, c.account);
    }
    if M.Processing(m.payouts, c.account.owner) >= 100 {
      ProcessingMeansPayout(m.payouts, c.account.owner);
    }
    if forall p :: !CreatedUnder(m, c, p) {
      NewPayoutInserts(m, c);
    }
    hide M.Processing, M.Available, LocksExist;
  }

  ghost predicate IsCreated(m: M.Money, m': M.Money, c: M.PayoutRequest)
    requires HasLocks(m, c.account)
  {
    m' == M.Money(m.ledger,
                  m.payouts + [M.Payout(c.newId, c.account, c.amount, M.PROCESSING, c.key, c.reference, c.now, None, c.reference, None, None)],
                  m.balanceLocks[c.account := m.balanceLocks[c.account] + 1],
                  m.capacityLocks[c.account.owner := m.capacityLocks[c.account.owner] + 1])
  }

  lemma CreateKeyFound(m: M.Money, c: M.PayoutRequest)
    requires MS.Sound(m)
    ensures match M.ByCreateKey(m.payouts, c.account.owner.tenant, c.key)
            case Some(i) => i < |m.payouts| && CreatedUnder(m, c, m.payouts[i]) && forall p :: CreatedUnder(m, c, p) ==> p == m.payouts[i]
            case None => forall p :: !CreatedUnder(m, c, p)
  {
    var found := M.ByCreateKey(m.payouts, c.account.owner.tenant, c.key);
    if found.Some? {
      forall p | CreatedUnder(m, c, p) ensures p == m.payouts[found.value] {
        var j :| 0 <= j < |m.payouts| && m.payouts[j] == p;
        assert found.value < j ==> M.PayoutsCoexist(m.payouts[found.value], m.payouts[j]);
      }
    }
  }

  lemma NewPayoutInserts(m: M.Money, c: M.PayoutRequest)
    requires forall p :: !CreatedUnder(m, c, p)
    ensures M.PayoutInsertable(m.payouts, M.NewPayout(c)) <==> forall p :: p in m.payouts ==> p.id != c.newId
  {
    forall p | p in m.payouts ensures M.PayoutsCoexist(p, M.NewPayout(c)) <==> p.id != c.newId {
      assert !CreatedUnder(m, c, p);
    }
  }

  // ----- settling a payout -----

  ghost predicate IsPayout(m: M.Money, c: M.Settlement, i: nat) {
    i < |m.payouts| && m.payouts[i].id == c.payoutId && m.payouts[i].account.owner == c.owner
  }

  predicate EndedAs(p: M.Payout, c: M.Settlement) {
    && p.status == c.outcome && p.terminalKey == Some(c.key)
    && (p.status.PAID? ==> p.externalReference == Some(c.text))
    && (!p.status.PAID? ==> p.reason == Some(c.text))
  }

  /** Another payout of the tenant was closed under this key, or the ledger already has the debit's identifier or key. */
  ghost predicate SettlementKeysTaken(m: M.Money, c: M.Settlement) {
    || (exists p :: p in m.payouts && p.account.owner.tenant == c.owner.tenant && p.terminalKey == Some(c.key))
    || (c.outcome.PAID? && exists e :: e in m.ledger && BarsDebit(e, c))
  }

  predicate BarsDebit(e: M.LedgerEntry, c: M.Settlement) {
    e.id == c.newEntryId || (e.account.owner.tenant == c.owner.tenant && e.key == M.PayoutKey(c.payoutId))
  }

  /**
   A processing payout is settled exactly if its keys are new; nothing else, and in particular no balance and no missing
   lock, can refuse it. Paying debits exactly its amount, failing and cancelling debit nothing.
   */
  lemma SettlementAnswers(cat: B.Catalog, db: Db, c: M.Settlement)
    requires Reachable(cat, db)
    ensures var m, r := db.money, Execute(cat, db, SettlePayout(c));
            if forall i :: !IsPayout(m, c, i) then r == Failure(AFFILIATE_PAYOUT_NOT_FOUND)
            else exists i :: IsPayout(m, c, i) && SettlementAnswered(db, c, i, r)
  {
    ReachableLocksExist(cat, db);
    hide Reachable;
    var m := db.money;
    var found := M.ById(m.payouts, c.owner, c.payoutId);
    if found.Some? {
      assert IsPayout(m, c, found.value);
      assert HasLocks(m, m.payouts[found.value].account);
      if m.payouts[found.value].status.PROCESSING? {
        SettlementKeysDecide(m, c, found.value);
      }
      hide MS.Sound, LocksExist, M.PayoutStorable, M.EntryInsertable, M.ById, SettlementKeysTaken;
      assert SettlementAnswered(db, c, found.value, Execute(cat, db, SettlePayout(c)));
    } else {
      assert forall i: nat :: !IsPayout(m, c, i);
    }
  }

  ghost predicate SettlementAnswered(db: Db, c: M.Settlement, i: nat, r: Result<Db, Error>)
    requires IsPayout(db.money, c, i)
  {
    var m := db.money;
    var p := m.payouts[i];
    if !p.status.PROCESSING? then r == if EndedAs(p, c) then Success(db) else Failure(AFFILIATE_PAYOUT_IDEMPOTENCY_CONFLICT)
    else if SettlementKeysTaken(m, c) then r == Failure(DUPLICATE_KEY)
    else r.Success? && r.value.bookings == db.bookings && IsSettled(m, r.value.money, c, i)
  }

  ghost predicate IsSettled(m: M.Money, m': M.Money, c: M.Settlement, i: nat)
    requires i < |m.payouts|
  {
    var p := m.payouts[i];
    && p.account in m.balanceLocks
    && m' == M.Money(
         if c.outcome.PAID? then
           m.ledger + [M.LedgerEntry(c.newEntryId, p.account, None, None, Some(p.id), M.DEBIT, M.PAYOUT_PAID, p.amount, M.PayoutKey(p.id), None, None)]
         else m.ledger,
         m.payouts[i := M.Payout(p.id, p.account, p.amount, c.outcome, p.createKey, p.createReference, p.createdAt, Some(c.key),
                                 if c.outcome.PAID? then Some(c.text) else p.externalReference,
                                 if c.outcome.PAID? then p.reason else Some(c.text), Some(c.now))],
         m.balanceLocks[p.account := m.balanceLocks[p.account] + 1],
         m.capacityLocks)
  }

  lemma SettlementKeysDecide(m: M.Money, c: M.Settlement, i: nat)
    requires MS.Sound(m) && IsPayout(m, c, i) && m.payouts[i].status.PROCESSING?
    ensures SettlementKeysTaken(m, c) <==>
            || (c.outcome.PAID? && !M.EntryInsertable(m.ledger, M.PaidEntry(m.payouts[i], c)))
            || !M.PayoutStorable(m.payouts, i, M.Settled(m.payouts[i], c))
  {
    var p, q := m.payouts[i], M.Settled(m.payouts[i], c);
    assert p in m.payouts;
    assert M.PayoutStorable(m.payouts, i, q) <==>
           !exists x :: x in m.payouts && x.account.owner.tenant == c.owner.tenant && x.terminalKey == Some(c.key) by {
      TerminalKeyDecides(m, c, i);
    }
    assert M.EntryInsertable(m.ledger, M.PaidEntry(p, c)) <==> !exists e :: e in m.ledger && BarsDebit(e, c) by {
      assert forall e :: M.EntriesCoexist(e, M.PaidEntry(p, c)) <==> !BarsDebit(e, c);
    }
    hide MS.Sound, M.PayoutStorable, M.EntryInsertable, M.Settled;
  }

  lemma TerminalKeyDecides(m: M.Money, c: M.Settlement, i: nat)
    requires MS.Sound(m) && IsPayout(m, c, i) && m.payouts[i].status.PROCESSING?
    ensures M.PayoutStorable(m.payouts, i, M.Settled(m.payouts[i], c)) <==>
            !exists x :: x in m.payouts && x.account.owner.tenant == c.owner.tenant && x.terminalKey == Some(c.key)
  {
    var q := M.Settled(m.payouts[i], c);
    assert m.payouts[i] in m.payouts && m.payouts[i].terminalKey.None?;
    forall j | 0 <= j < |m.payouts| && j != i
      ensures M.PayoutsCoexist(m.payouts[j], q) <==>
              !(m.payouts[j].account.owner.tenant == c.owner.tenant && m.payouts[j].terminalKey == Some(c.key))
    {
      assert j < i ==> M.PayoutsCoexist(m.payouts[j], m.payouts[i]);
      assert i < j ==> M.PayoutsCoexist(m.payouts[i], m.payouts[j]);
    }
    hide M.PayoutsCoexist;
  }

  // ----- reversing a commission -----

  ghost predicate IsCredit(m: M.Money, c: M.Reversal, e: M.LedgerEntry) {
    e in m.ledger && e.id == c.entryId && e.account.owner.tenant == c.tenant && e.entryType.COMMISSION_EARNED?
  }

  /** The credit was reversed before, or the key was used before, or both at once. */
  ghost predicate Conflicts(m: M.Money, c: M.Reversal, e: M.LedgerEntry) {
    e in m.ledger && e.account.owner.tenant == c.tenant && (e.reversalOf == Some(c.entryId) || e.key == c.key)
  }

  /**
   A credit is reversed exactly if it was not reversed before, its key is new and its amount is still available; the
   debit then repeats its account, conversion, appointment and amount. A missing lock never refuses it.
   */
  lemma ReversalAnswers(cat: B.Catalog, db: Db, c: M.Reversal)
    requires Reachable(cat, db)
    ensures var m, r, reason := db.money, Execute(cat, db, ReverseCommission(c)), Text.Trim(c.reason);
            if |reason| < 6 || |reason| > 500 then r == Failure(AFFILIATE_REVERSAL_REASON_INVALID)
            else if forall e :: !IsCredit(m, c, e) then r == Failure(AFFILIATE_COMMISSION_NOT_FOUND)
            else if exists e :: Conflicts(m, c, e) then
              r == if exists e :: Conflicts(m, c, e) && e.reversalOf == Some(c.entryId) && e.key == c.key then Success(db)
                   else Failure(AFFILIATE_COMMISSION_ALREADY_REVERSED)
            else exists credit :: IsCredit(m, c, credit) && ReversalAnswered(db, c, credit, r)
  {
    hide Reachable, Text.Trim, MS.Sound, LocksExist, M.Original, M.Existing, Conflicts, IsCredit, ReversalAnswered, M.EntryInsertable,
         M.Available, M.ReversalEntry;
    ReachableLocksExist(cat, db);
    var m := db.money;
    OriginalIs(m, c);
    ExistingIs(m, c);
    var found := M.Original(m.ledger, c);
    if 6 <= |Text.Trim(c.reason)| <= 500 && found.Some? && forall e :: !Conflicts(m, c, e) {
      FirstReversalAnswers(cat, db, c, found.value);
    }
  }

  lemma FirstReversalAnswers(cat: B.Catalog, db: Db, c: M.Reversal, i: nat)
    requires LocksExist(db.money) && 6 <= |Text.Trim(c.reason)| <= 500 && forall e :: !Conflicts(db.money, c, e)
    requires M.Original(db.money.ledger, c) == Some(i) && M.Existing(db.money.ledger, c).None?
    requires i < |db.money.ledger| && IsCredit(db.money, c, db.money.ledger[i])
    ensures ReversalAnswered(db, c, db.money.ledger[i], Execute(cat, db, ReverseCommission(c)))
  {
    var m, credit := db.money, db.money.ledger[i];
    assert HasLocks(m, credit.account);
    ReversalInserts(m, c, credit);
    hide LocksExist, M.EntryInsertable, M.Available, M.Original, M.Existing, Conflicts, IsCredit;
  }

  ghost predicate ReversalAnswered(db: Db, c: M.Reversal, credit: M.LedgerEntry, r: Result<Db, Error>) {
    var m := db.money;
    if M.Available(m, credit.account) < credit.amount then r == Failure(AFFILIATE_COMMISSION_INSUFFICIENT_AVAILABLE)
    else if exists e :: e in m.ledger && e.id == c.newEntryId then r == Failure(DUPLICATE_KEY)
    else
      && r.Success? && r.value.bookings == db.bookings && credit.account in m.balanceLocks
      && r.value.money == M.Money(
           m.ledger + [M.LedgerEntry(c.newEntryId, credit.account, credit.conversionId, credit.appointmentId, None, M.DEBIT,
                                     M.COMMISSION_REVERSAL, credit.amount, c.key, Some(credit.id), Some(Text.Trim(c.reason)))],
           m.payouts,
           m.balanceLocks[credit.account := m.balanceLocks[credit.account] + 1],
           m.capacityLocks)
  }

  lemma OriginalIs(m: M.Money, c: M.Reversal)
    requires MS.Sound(m)
    ensures match M.Original(m.ledger, c)
            case Some(i) => i < |m.ledger| && IsCredit(m, c, m.ledger[i])
            case None => forall e :: !IsCredit(m, c, e)
  {
    forall e | e in m.ledger && e.entryType.COMMISSION_EARNED? ensures e.direction.CREDIT? {
      assert MS.EntryWellFormed(e);
    }
    hide MS.Sound;
  }

  lemma ExistingIs(m: M.Money, c: M.Reversal)
    requires MS.Sound(m)
    ensures match M.Existing(m.ledger, c)
            case Some(i) =>
              && i < |m.ledger| && Conflicts(m, c, m.ledger[i])
              && ((exists e :: Conflicts(m, c, e) && e.reversalOf == Some(c.entryId) && e.key == c.key) <==>
                  M.ReversalReplay(m.ledger[i], c) == Success(m.ledger[i]))
              && (M.ReversalReplay(m.ledger[i], c).Success? ==> M.ReversalReplay(m.ledger[i], c) == Success(m.ledger[i]))
            case None => forall e :: !Conflicts(m, c, e)
  {
    var found := M.Existing(m.ledger, c);
    if found.Some? {
      var x := m.ledger[found.value];
      forall e | Conflicts(m, c, e) && e.reversalOf == Some(c.entryId) && e.key == c.key ensures e == x {
        var j :| 0 <= j < |m.ledger| && m.ledger[j] == e;
        assert found.value < j ==> M.EntriesCoexist(m.ledger[found.value], m.ledger[j]);
      }
    }
    hide MS.Sound;
  }

  lemma ReversalInserts(m: M.Money, c: M.Reversal, credit: M.LedgerEntry)
    requires IsCredit(m, c, credit) && forall e :: !Conflicts(m, c, e)
    ensures M.EntryInsertable(m.ledger, M.ReversalEntry(credit, c)) <==> forall e :: e in m.ledger ==> e.id != c.newEntryId
  {
    forall e | e in m.ledger ensures M.EntriesCoexist(e, M.ReversalEntry(credit, c)) <==> e.id != c.newEntryId {
      assert !Conflicts(m, c, e);
    }
  }
}
