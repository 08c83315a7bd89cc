/**
 What every affiliate transaction keeps, what may change between a snapshot and a commit, and why a transaction
 that commits under snapshot isolation does exactly what it would have done running alone at commit time.
 */
module MoneySafety {
  import opened Wrappers
  import opened Errors
  import opened Sequences
  import opened Snapshots
  import opened Money

  // ----- aggregates by type -----

  /** The total of one entry type in one account, as the detail view aggregates it. */
  function TypeTotal(ledger: seq<LedgerEntry>, a: Account, t: EntryType): (r: int)
    ensures r >= 0
  {
    if |ledger| == 0 then 0
    else TypeTotal(ledger[..|ledger| - 1], a, t) +
         (var e := ledger[|ledger| - 1]; if e.account == a && e.entryType == t then e.amount else 0)
  }

  /** The total of the payouts of one account that were settled as paid. */
  function PaidTotal(payouts: seq<Payout>, a: Account): (r: int)
    ensures r >= 0
  {
    if |payouts| == 0 then 0
    else PaidTotal(payouts[..|payouts| - 1], a) + PaidBy(payouts[|payouts| - 1], a)
  }

  function PaidBy(p: Payout, a: Account): (r: int) {
    if p.account == a && p.status.PAID? then p.amount else 0
  }

  lemma LedgerAppend(ledger: seq<LedgerEntry>, e: LedgerEntry, a: Account)
    ensures Balance(ledger + [e], a) == Balance(ledger, a) + (if e.account == a then Signed(e) else 0)
    ensures forall t :: TypeTotal(ledger + [e], a, t) ==
                        TypeTotal(ledger, a, t) + (if e.account == a && e.entryType == t then e.amount else 0)
  {
    assert (ledger + [e])[..|ledger|] == ledger;
  }

  lemma DebitsAppend(ledger: seq<LedgerEntry>, e: LedgerEntry, id: Id)
    ensures Debits(ledger + [e], id) ==
            Debits(ledger, id) + (if e.entryType.PAYOUT_PAID? && e.payoutId == Some(id) then 1 else 0)
  {
    assert (ledger + [e])[..|ledger|] == ledger;
  }

  lemma {:induction false} NoDebits(ledger: seq<LedgerEntry>, id: Id)
    requires forall e :: e in ledger && e.entryType.PAYOUT_PAID? ==> e.payoutId != Some(id)
    ensures Debits(ledger, id) == 0
  {
    if |ledger| > 0 {
      NoDebits(ledger[..|ledger| - 1], id);
    }
  }

  lemma PayoutAppend(payouts: seq<Payout>, p: Payout, a: Account, o: Owner)
    ensures Reserved(payouts + [p], a) == Reserved(payouts, a) + Reserves(p, a)
    ensures Processing(payouts + [p], o) == Processing(payouts, o) + Occupies(p, o)
    ensures PaidTotal(payouts + [p], a) == PaidTotal(payouts, a) + PaidBy(p, a)
  {
    assert (payouts + [p])[..|payouts|] == payouts;
  }

  lemma {:induction false} PayoutUpdate(payouts: seq<Payout>, i: nat, p: Payout, a: Account, o: Owner)
    requires i < |payouts|
    ensures Reserved(payouts[i := p], a) == Reserved(payouts, a) - Reserves(payouts[i], a) + Reserves(p, a)
    ensures Processing(payouts[i := p], o) == Processing(payouts, o) - Occupies(payouts[i], o) + Occupies(p, o)
    ensures PaidTotal(payouts[i := p], a) == PaidTotal(payouts, a) - PaidBy(payouts[i], a) + PaidBy(p, a)
  {
    var last := |payouts| - 1;
    if i == last {
      assert payouts[i := p][..last] == payouts[..last];
    } else {
      assert payouts[i := p][..last] == payouts[..last][i := p];
      PayoutUpdate(payouts[..last], i, p, a, o);
    }
  }

  // ----- the invariant -----

  ghost predicate EntryWellFormed(e: LedgerEntry) {
    && (e.direction.CREDIT? <==> e.entryType.COMMISSION_EARNED?)
    && (e.entryType.COMMISSION_EARNED? ==> e.conversionId.Some? && e.key == CommissionKey(e.conversionId.value))
    && (e.entryType.PAYOUT_PAID? ==> e.payoutId.Some? && e.key == PayoutKey(e.payoutId.value))
    && (e.entryType.COMMISSION_REVERSAL? <==> e.reversalOf.Some?)
  }

  ghost predicate Settles(e: LedgerEntry, p: Payout) {
    e.entryType.PAYOUT_PAID? && e.payoutId == Some(p.id) && e.account == p.account && e.amount == p.amount
  }

  ghost predicate Reverses(e: LedgerEntry, credit: LedgerEntry) {
    && e.entryType.COMMISSION_REVERSAL? && credit.entryType.COMMISSION_EARNED?
    && e.reversalOf == Some(credit.id) && e.account == credit.account && e.amount == credit.amount
    && e.conversionId == credit.conversionId
  }

  /** How many ledger debits settle the payout with this id. */
  function Debits(ledger: seq<LedgerEntry>, payoutId: Id): (r: nat) {
    if |ledger| == 0 then 0
    else Debits(ledger[..|ledger| - 1], payoutId) +
         (var e := ledger[|ledger| - 1]; if e.entryType.PAYOUT_PAID? && e.payoutId == Some(payoutId) then 1 else 0)
  }

  ghost predicate DebitHasPayout(e: LedgerEntry, payouts: seq<Payout>) {
    exists p :: p in payouts && Settles(e, p)
  }

  /** A payout has exactly one settling debit when it is paid and none otherwise; every such debit is of its payout. */
  ghost predicate SettlementsMatch(m: Money) {
    && (forall p :: p in m.payouts ==> Debits(m.ledger, p.id) == if p.status.PAID? then 1 else 0)
    && (forall e :: e in m.ledger && e.entryType.PAYOUT_PAID? ==> DebitHasPayout(e, m.payouts))
    && (forall a :: TypeTotal(m.ledger, a, PAYOUT_PAID) == PaidTotal(m.payouts, a))
  }

  ghost predicate ReversalsMatch(m: Money) {
    forall e :: e in m.ledger && e.entryType.COMMISSION_REVERSAL? ==>
      exists credit :: credit in m.ledger && Reverses(e, credit)
  }

  /** No account is overdrawn, even counting what is reserved. */
  ghost predicate Solvent(m: Money) {
    forall a :: Available(m, a) >= 0
  }

  ghost predicate WithinCapacity(m: Money) {
    forall o :: Processing(m.payouts, o) <= MAX_PROCESSING_AFFILIATE_PAYOUTS
  }

  ghost predicate TerminalKeysSet(m: Money) {
    forall p :: p in m.payouts ==> (p.status.PROCESSING? <==> p.terminalKey.None?)
  }

  ghost predicate Sound(m: Money) {
    && LedgerUnique(m.ledger)
    && PayoutsUnique(m.payouts)
    && (forall e :: e in m.ledger ==> EntryWellFormed(e))
    && SettlementsMatch(m)
    && ReversalsMatch(m)
    && Solvent(m)
    && WithinCapacity(m)
    && TerminalKeysSet(m)
  }

  lemma EmptyIsSound()
    ensures Sound(Empty)
  {
  }

  // ----- what may happen between a snapshot and a later state -----

  ghost predicate PayoutEvolves(p: Payout, q: Payout) {
    && q.id == p.id && q.account == p.account && q.amount == p.amount
    && q.createKey == p.createKey && q.createReference == p.createReference && q.createdAt == p.createdAt
    && (!p.status.PROCESSING? ==> q == p)
  }

  /** While the balance lock of an account keeps its version, its available value cannot have dropped. */
  ghost predicate BalanceGuarded(s: Money, c: Money) {
    forall a :: a in s.balanceLocks ==>
      && a in c.balanceLocks && s.balanceLocks[a] <= c.balanceLocks[a]
      && (s.balanceLocks[a] == c.balanceLocks[a] ==> Available(s, a) <= Available(c, a))
  }

  /** While the capacity lock of an owner keeps its version, its processing payouts cannot have increased. */
  ghost predicate CapacityGuarded(s: Money, c: Money) {
    forall o :: o in s.capacityLocks ==>
      && o in c.capacityLocks && s.capacityLocks[o] <= c.capacityLocks[o]
      && (s.capacityLocks[o] == c.capacityLocks[o] ==> Processing(c.payouts, o) <= Processing(s.payouts, o))
  }

  ghost predicate Evolved(s: Money, c: Money) {
    && s.ledger <= c.ledger
    && |s.payouts| <= |c.payouts|
    && (forall i :: 0 <= i < |s.payouts| ==> PayoutEvolves(s.payouts[i], c.payouts[i]))
    && BalanceGuarded(s, c)
    && CapacityGuarded(s, c)
  }

  lemma EvolvedIsReflexive(s: Money)
    ensures Evolved(s, s)
  {
  }

  lemma EvolvedIsTransitive(s: Money, c: Money, d: Money)
    requires Evolved(s, c) && Evolved(c, d)
    ensures Evolved(s, d)
  {
    forall i | 0 <= i < |s.payouts| ensures PayoutEvolves(s.payouts[i], d.payouts[i]) {
      assert PayoutEvolves(s.payouts[i], c.payouts[i]) && PayoutEvolves(c.payouts[i], d.payouts[i]);
    }
  }

  // ----- unique indexes under insert and update -----

  lemma LedgerInsertUnique(ledger: seq<LedgerEntry>, e: LedgerEntry)
    ensures LedgerUnique(ledger + [e]) <==> LedgerUnique(ledger) && EntryInsertable(ledger, e)
  {
    var l := ledger + [e];
    if LedgerUnique(l) {
      forall i, j | 0 <= i < j < |ledger| ensures EntriesCoexist(ledger[i], ledger[j]) {
        assert l[i] == ledger[i] && l[j] == ledger[j];
      }
      forall x | x in ledger ensures EntriesCoexist(x, e) {
        var i :| 0 <= i < |ledger| && ledger[i] == x;
        assert l[i] == x && l[|ledger|] == e;
      }
    }
  }

  lemma PayoutInsertUnique(payouts: seq<Payout>, p: Payout)
    ensures PayoutsUnique(payouts + [p]) <==> PayoutsUnique(payouts) && PayoutInsertable(payouts, p)
  {
    var l := payouts + [p];
    if PayoutsUnique(l) {
      forall i, j | 0 <= i < j < |payouts| ensures PayoutsCoexist(payouts[i], payouts[j]) {
        assert l[i] == payouts[i] && l[j] == payouts[j];
      }
      forall x | x in payouts ensures PayoutsCoexist(x, p) {
        var i :| 0 <= i < |payouts| && payouts[i] == x;
        assert l[i] == x && l[|payouts|] == p;
      }
    }
  }

  lemma PayoutUpdateUnique(payouts: seq<Payout>, i: nat, p: Payout)
    requires i < |payouts| && PayoutsUnique(payouts)
    ensures PayoutsUnique(payouts[i := p]) <==> PayoutStorable(payouts, i, p)
  {
    var l := payouts[i := p];
    if PayoutsUnique(l) {
      forall j | 0 <= j < |payouts| && j != i ensures PayoutsCoexist(payouts[j], p) {
        assert l[j] == payouts[j] && l[i] == p;
        if j < i { assert PayoutsCoexist(l[j], l[i]); } else { assert PayoutsCoexist(l[i], l[j]); }
      }
    } else if PayoutStorable(payouts, i, p) {
      forall x, y | 0 <= x < y < |l| ensures PayoutsCoexist(l[x], l[y]) {
        if x == i { assert PayoutsCoexist(payouts[y], p); }
      }
    }
  }

  // ----- each transaction, alone -----

  lemma CreateKeepsSound(m: Money, c: PayoutRequest, m': Money)
    requires Sound(m) && CreatePayout(m, c).Success? && m' == CreatePayout(m, c).value.money
    ensures Sound(m') && Evolved(m, m')
  {
    if ByCreateKey(m.payouts, c.account.owner.tenant, c.key).None? {
      AdmitKeepsSound(m, NewPayout(c), m');
    }
  }

  lemma AdmitKeepsSound(m: Money, p: Payout, m': Money)
    requires Sound(m) && p.status.PROCESSING? && p.terminalKey.None? && PayoutInsertable(m.payouts, p)
    requires p.account in m.balanceLocks && p.account.owner in m.capacityLocks
    requires Processing(m.payouts, p.account.owner) < MAX_PROCESSING_AFFILIATE_PAYOUTS
    requires Available(m, p.account) >= p.amount
    requires m' == BumpBalance(BumpCapacity(m, p.account.owner), p.account).(payouts := m.payouts + [p])
    ensures Sound(m') && Evolved(m, m')
  {
    hide Balance, Reserved, Processing, TypeTotal, PaidTotal, Debits;
    AdmitTotals(m, p, m');
    PayoutInsertUnique(m.payouts, p);
    forall q | q in m'.payouts ensures Debits(m'.ledger, q.id) == if q.status.PAID? then 1 else 0 {
      if q == p {
        forall e | e in m.ledger && e.entryType.PAYOUT_PAID? ensures e.payoutId != Some(p.id) {
          assert DebitHasPayout(e, m.payouts);
        }
        NoDebits(m.ledger, p.id);
      }
    }
    forall e | e in m'.ledger && e.entryType.PAYOUT_PAID? ensures DebitHasPayout(e, m'.payouts) {
      var q :| q in m.payouts && Settles(e, q);
      assert q in m'.payouts;
    }
  }

  lemma AdmitTotals(m: Money, p: Payout, m': Money)
    requires p.status.PROCESSING? && m'.ledger == m.ledger && m'.payouts == m.payouts + [p]
    ensures forall a :: Available(m', a) == Available(m, a) - Reserves(p, a)
    ensures forall o :: Processing(m'.payouts, o) == Processing(m.payouts, o) + Occupies(p, o)
    ensures forall a :: PaidTotal(m'.payouts, a) == PaidTotal(m.payouts, a)
  {
    forall a
      ensures Available(m', a) == Available(m, a) - Reserves(p, a)
      ensures PaidTotal(m'.payouts, a) == PaidTotal(m.payouts, a)
    {
      PayoutAppend(m.payouts, p, a, p.account.owner);
    }
    forall o ensures Processing(m'.payouts, o) == Processing(m.payouts, o) + Occupies(p, o) {
      PayoutAppend(m.payouts, p, p.account, o);
    }
  }

  lemma SettleKeepsSound(m: Money, s: Settlement, m': Money)
    requires Sound(m) && SettlePayout(m, s).Success? && m' == SettlePayout(m, s).value.money
    ensures Sound(m') && Evolved(m, m')
  {
    var i := ById(m.payouts, s.owner, s.payoutId).value;
    var p := m.payouts[i];
    if p.status.PROCESSING? {
      if s.outcome.PAID? {
        PayKeepsSound(m, i, Settled(p, s), PaidEntry(p, s), m');
      } else {
        FreeKeepsSound(m, i, Settled(p, s), m');
      }
    }
  }

  ghost predicate Closes(p: Payout, q: Payout) {
    && p.status.PROCESSING? && !q.status.PROCESSING? && q.terminalKey.Some?
    && q.id == p.id && q.account == p.account && q.amount == p.amount
    && q.createKey == p.createKey && q.createReference == p.createReference && q.createdAt == p.createdAt
  }

  /** Failing or cancelling releases the reservation. */
  lemma FreeKeepsSound(m: Money, i: nat, q: Payout, m': Money)
    requires Sound(m) && i < |m.payouts| && Closes(m.payouts[i], q) && !q.status.PAID?
    requires PayoutStorable(m.payouts, i, q) && q.account in m.balanceLocks
    requires m' == BumpBalance(m, q.account).(payouts := m.payouts[i := q])
    ensures Sound(m') && Evolved(m, m')
    ensures forall a :: Available(m', a) == Available(m, a) + (if a == q.account then q.amount else 0)
    ensures m'.ledger == m.ledger
  {
    CloseTotals(m, i, q, m');
    PayoutUpdateUnique(m.payouts, i, q);
    CloseDebits(m, i, q);
    assert SettlementsMatch(m') by {
      assert m.payouts[i] in m.payouts;
    }
    assert Solvent(m') by {
      forall a ensures Available(m', a) >= 0 {
        assert Available(m, a) >= 0;
      }
    }
  }

  /** Paying turns the reservation into a debit of the same amount: the available value does not move. */
  lemma PayKeepsSound(m: Money, i: nat, q: Payout, e: LedgerEntry, m': Money)
    requires Sound(m) && i < |m.payouts| && Closes(m.payouts[i], q) && q.status.PAID?
    requires Settles(e, q) && EntryWellFormed(e) && EntryInsertable(m.ledger, e)
    requires PayoutStorable(m.payouts, i, q) && q.account in m.balanceLocks
    requires m' == BumpBalance(m, q.account).(ledger := m.ledger + [e], payouts := m.payouts[i := q])
    ensures Sound(m') && Evolved(m, m')
    ensures forall a :: Available(m', a) == Available(m, a)
  {
    var freed := m'.(ledger := m.ledger);
    CloseTotals(m, i, q, freed);
    PayoutUpdateUnique(m.payouts, i, q);
    LedgerInsertUnique(m.ledger, e);
    assert (forall a :: Available(m', a) == Available(m, a)) && Solvent(m') &&
           forall a :: TypeTotal(m'.ledger, a, PAYOUT_PAID) == PaidTotal(m'.payouts, a) by {
      forall a
        ensures Available(m', a) == Available(m, a) >= 0 && TypeTotal(m'.ledger, a, PAYOUT_PAID) == PaidTotal(m'.payouts, a)
      {
        assert Available(m, a) >= 0 && Available(freed, a) == Available(m, a) + (if a == q.account then q.amount else 0);
        LedgerAppend(m.ledger, e, a);
      }
    }
    CloseDebits(m, i, q);
    PayMatches(m, i, q, e, m');
    SettleReversals(m, m');
  }

  lemma CloseTotals(m: Money, i: nat, q: Payout, m': Money)
    requires i < |m.payouts| && Closes(m.payouts[i], q) && m'.ledger == m.ledger && m'.payouts == m.payouts[i := q]
    ensures forall a :: Available(m', a) == Available(m, a) + (if a == q.account then q.amount else 0)
    ensures forall o :: Processing(m'.payouts, o) <= Processing(m.payouts, o)
    ensures forall a :: PaidTotal(m'.payouts, a) == PaidTotal(m.payouts, a) + PaidBy(q, a)
  {
    forall a
      ensures Available(m', a) == Available(m, a) + (if a == q.account then q.amount else 0)
      ensures PaidTotal(m'.payouts, a) == PaidTotal(m.payouts, a) + PaidBy(q, a)
    {
      PayoutUpdate(m.payouts, i, q, a, a.owner);
    }
    forall o ensures Processing(m'.payouts, o) <= Processing(m.payouts, o) {
      PayoutUpdate(m.payouts, i, q, q.account, o);
    }
  }

  /** Closing payout `i` leaves every debit with its payout, and no other payout shares its id. */
  lemma CloseDebits(m: Money, i: nat, q: Payout)
    requires SettlementsMatch(m) && PayoutsUnique(m.payouts) && i < |m.payouts| && Closes(m.payouts[i], q)
    ensures forall e :: e in m.ledger && e.entryType.PAYOUT_PAID? ==> DebitHasPayout(e, m.payouts[i := q])
    ensures forall p :: p in m.payouts[i := q] ==> p == q || (p in m.payouts && p.id != q.id)
  {
    var updated := m.payouts[i := q];
    forall e | e in m.ledger && e.entryType.PAYOUT_PAID? ensures DebitHasPayout(e, updated) {
      assert DebitHasPayout(e, m.payouts);
      var x :| x in m.payouts && Settles(e, x);
      var j :| 0 <= j < |m.payouts| && m.payouts[j] == x;
      assert Settles(e, updated[j]);
    }
    forall p | p in updated ensures p == q || (p in m.payouts && p.id != q.id) {
      var j :| 0 <= j < |updated| && updated[j] == p;
      if j < i {
        assert PayoutsCoexist(m.payouts[j], m.payouts[i]);
      } else if i < j {
        assert PayoutsCoexist(m.payouts[i], m.payouts[j]);
      }
    }
  }

  lemma PayMatches(m: Money, i: nat, q: Payout, e: LedgerEntry, m': Money)
    requires SettlementsMatch(m) && i < |m.payouts| && Closes(m.payouts[i], q) && q.status.PAID? && Settles(e, q)
    requires m'.ledger == m.ledger + [e] && m'.payouts == m.payouts[i := q]
    requires forall a :: TypeTotal(m'.ledger, a, PAYOUT_PAID) == PaidTotal(m'.payouts, a)
    requires forall x :: x in m.ledger && x.entryType.PAYOUT_PAID? ==> DebitHasPayout(x, m'.payouts)
    requires forall p :: p in m'.payouts ==> p == q || (p in m.payouts && p.id != q.id)
    ensures SettlementsMatch(m')
  {
    assert DebitHasPayout(e, m'.payouts) by {
      assert m'.payouts[i] == q;
    }
    forall p | p in m'.payouts ensures Debits(m'.ledger, p.id) == if p.status.PAID? then 1 else 0 {
      DebitsAppend(m.ledger, e, p.id);
      assert m.payouts[i] in m.payouts;
    }
  }

  lemma SettleReversals(m: Money, m': Money)
    requires ReversalsMatch(m) && m.ledger <= m'.ledger
    requires forall e :: e in m'.ledger && e !in m.ledger ==> !e.entryType.COMMISSION_REVERSAL?
    ensures ReversalsMatch(m')
  {
    forall e | e in m'.ledger && e.entryType.COMMISSION_REVERSAL?
      ensures exists credit :: credit in m'.ledger && Reverses(e, credit)
    {
      var credit :| credit in m.ledger && Reverses(e, credit);
      assert credit in m'.ledger;
    }
  }

  lemma AppendTotals(m: Money, m': Money, e: LedgerEntry)
    requires Sound(m) && m'.ledger == m.ledger + [e] && m'.payouts == m.payouts
    requires EntryInsertable(m.ledger, e) && EntryWellFormed(e) && !e.entryType.PAYOUT_PAID?
    ensures LedgerUnique(m'.ledger) && SettlementsMatch(m') && WithinCapacity(m') && TerminalKeysSet(m')
    ensures forall a :: Available(m', a) == Available(m, a) + (if a == e.account then Signed(e) else 0)
    ensures forall x :: x in m'.ledger ==> EntryWellFormed(x)
  {
    LedgerInsertUnique(m.ledger, e);
    forall a
      ensures Available(m', a) == Available(m, a) + (if a == e.account then Signed(e) else 0)
      ensures TypeTotal(m'.ledger, a, PAYOUT_PAID) == TypeTotal(m.ledger, a, PAYOUT_PAID)
    {
      LedgerAppend(m.ledger, e, a);
    }
    forall p | p in m'.payouts ensures Debits(m'.ledger, p.id) == if p.status.PAID? then 1 else 0 {
      DebitsAppend(m.ledger, e, p.id);
    }
  }

  /** Earning bumps no lock: it only ever raises an account, which cannot invalidate anyone's check. */
  lemma EarnKeepsSound(m: Money, e: Earning, m': Money)
    requires Sound(m) && EarnCommission(m, e) == Success(m')
    ensures Sound(m') && Evolved(m, m')
  {
    AppendTotals(m, m', EarnedEntry(e));
    SettleReversals(m, m');
  }

  lemma ReverseKeepsSound(m: Money, r: Reversal, m': Money)
    requires Sound(m) && ReverseCommission(m, r).Success? && m' == ReverseCommission(m, r).value.money
    ensures Sound(m') && Evolved(m, m')
  {
    if Existing(m.ledger, r).None? {
      var original := m.ledger[Original(m.ledger, r).value];
      UndoKeepsSound(m, original, ReversalEntry(original, r), m');
    }
  }

  lemma UndoKeepsSound(m: Money, original: LedgerEntry, e: LedgerEntry, m': Money)
    requires Sound(m) && original in m.ledger && Reverses(e, original) && EntryWellFormed(e)
    requires EntryInsertable(m.ledger, e) && original.account in m.balanceLocks
    requires Available(m, original.account) >= original.amount
    requires m' == BumpBalance(m, original.account).(ledger := m.ledger + [e])
    ensures Sound(m') && Evolved(m, m')
  {
    hide Balance, Reserved, Processing, TypeTotal, PaidTotal, Debits;
    AppendTotals(m, m', e);
    forall x | x in m'.ledger && x.entryType.COMMISSION_REVERSAL?
      ensures exists credit :: credit in m'.ledger && Reverses(x, credit)
    {
      if x in m.ledger {
        var credit :| credit in m.ledger && Reverses(x, credit);
        assert credit in m'.ledger;
      } else {
        assert original in m'.ledger;
      }
    }
  }

  // ----- committing under snapshot isolation -----

  predicate CanCommit(s: Money, v: Money, c: Money) {
    && s.ledger <= v.ledger && s.ledger <= c.ledger
    && |s.payouts| <= |v.payouts| && |s.payouts| <= |c.payouts|
    && MapMergeable(s.balanceLocks, v.balanceLocks, c.balanceLocks)
    && MapMergeable(s.capacityLocks, v.capacityLocks, c.capacityLocks)
    && RowsMergeable(s.payouts, v.payouts, c.payouts)
    && LedgerUnique(MergeAppended(s.ledger, v.ledger, c.ledger))
    && PayoutsUnique(MergeRows(s.payouts, v.payouts, c.payouts))
  }

  function Merge(s: Money, v: Money, c: Money): (r: Money)
    requires |s.ledger| <= |v.ledger| && |s.payouts| <= |v.payouts| && |s.payouts| <= |c.payouts|
  {
    Money(MergeAppended(s.ledger, v.ledger, c.ledger),
          MergeRows(s.payouts, v.payouts, c.payouts),
          MergeMap(s.balanceLocks, v.balanceLocks, c.balanceLocks),
          MergeMap(s.capacityLocks, v.capacityLocks, c.capacityLocks))
  }

  lemma MergeNothing(s: Money, c: Money)
    requires CanCommit(s, s, c)
    ensures Merge(s, s, c) == c
  {
    MergeNoRows(s.ledger, c.ledger);
    MergeNoRows(s.payouts, c.payouts);
    MergeUntouched(s.balanceLocks, c.balanceLocks);
    MergeUntouched(s.capacityLocks, c.capacityLocks);
  }

  /** A payout admitted on a stale snapshot is admitted by the current state too, if its two lock bumps survive. */
  lemma CreateSerializes(s: Money, c: Money, r: PayoutRequest, v: Money)
    requires Sound(s) && Sound(c) && Evolved(s, c)
    requires CreatePayout(s, r).Success? && v == CreatePayout(s, r).value.money && CanCommit(s, v, c) && v != s
    ensures CreatePayout(c, r).Success? && CreatePayout(c, r).value.money == Merge(s, v, c)
  {
    var p := NewPayout(r);
    CreateAdmits(s, r);
    AdmitMerges(s, c, p);
    PayoutInsertUnique(c.payouts, p);
    NoReplayFound(c.payouts, p);
    CreateAdmits(c, r);
  }

  /** Everything the guards of a new payout look at. */
  ghost predicate Admissible(m: Money, r: PayoutRequest) {
    && r.customerExists
    && ByCreateKey(m.payouts, r.account.owner.tenant, r.key).None?
    && r.account in m.balanceLocks && r.account.owner in m.capacityLocks
    && Processing(m.payouts, r.account.owner) < MAX_PROCESSING_AFFILIATE_PAYOUTS
    && Available(m, r.account) >= r.amount
    && PayoutInsertable(m.payouts, NewPayout(r))
  }

  lemma CreateAdmits(m: Money, r: PayoutRequest)
    ensures Admissible(m, r) <==> CreatePayout(m, r).Success? && CreatePayout(m, r).value.money != m
    ensures Admissible(m, r) ==> CreatePayout(m, r) == Success(PayoutReply(Admitted(m, NewPayout(r)), NewPayout(r)))
  {
    if Admissible(m, r) {
      assert |Admitted(m, NewPayout(r)).payouts| == |m.payouts| + 1;
    }
  }

  function Admitted(m: Money, p: Payout): (r: Money)
    requires p.account in m.balanceLocks && p.account.owner in m.capacityLocks
  {
    var a, o := p.account, p.account.owner;
    Money(m.ledger, m.payouts + [p], m.balanceLocks[a := m.balanceLocks[a] + 1], m.capacityLocks[o := m.capacityLocks[o] + 1])
  }

  lemma NoReplayFound(payouts: seq<Payout>, p: Payout)
    requires PayoutInsertable(payouts, p)
    ensures ByCreateKey(payouts, p.account.owner.tenant, p.createKey).None?
  {
    forall x | x in payouts && x.account.owner.tenant == p.account.owner.tenant ensures x.createKey != p.createKey {
      assert PayoutsCoexist(x, p);
    }
  }

  lemma AdmitMerges(s: Money, c: Money, p: Payout)
    requires Evolved(s, c) && p.account in s.balanceLocks && p.account.owner in s.capacityLocks
    requires CanCommit(s, Admitted(s, p), c)
    ensures p.account in c.balanceLocks && p.account.owner in c.capacityLocks
    ensures Available(s, p.account) <= Available(c, p.account)
    ensures Processing(c.payouts, p.account.owner) <= Processing(s.payouts, p.account.owner)
    ensures Merge(s, Admitted(s, p), c) == Admitted(c, p)
    ensures PayoutsUnique(c.payouts + [p])
  {
    hide Balance, Reserved, Processing, TypeTotal, PaidTotal, Debits, EntriesCoexist, PayoutsCoexist;
    var a, o := p.account, p.account.owner;
    BumpMerges(s.balanceLocks, c.balanceLocks, a);
    BumpMerges(s.capacityLocks, c.capacityLocks, o);
    MergeOneInsert(s.payouts, c.payouts, p);
    MergeNoRows(s.ledger, c.ledger);
  }

  /** A version bump commits only if nobody bumped the lock since the snapshot. */
  lemma BumpMerges<K(!new)>(s: map<K, nat>, c: map<K, nat>, k: K)
    requires k in s && MapMergeable(s, s[k := s[k] + 1], c)
    ensures k in c && c[k] == s[k] && MergeMap(s, s[k := s[k] + 1], c) == c[k := c[k] + 1]
  {
    MergeOneKey(s, c, k, s[k] + 1);
    assert SameAt(s, c, k);
  }

  lemma SettleSerializes(s: Money, c: Money, t: Settlement, v: Money)
    requires Sound(s) && Sound(c) && Evolved(s, c)
    requires SettlePayout(s, t).Success? && v == SettlePayout(s, t).value.money && CanCommit(s, v, c) && v != s
    ensures SettlePayout(c, t).Success? && SettlePayout(c, t).value.money == Merge(s, v, c)
  {
    var i := ById(s.payouts, t.owner, t.payoutId).value;
    var p, q := s.payouts[i], Settled(s.payouts[i], t);
    assert p.status.PROCESSING?;
    CloseMerges(s, c, i, q, if t.outcome.PAID? then [PaidEntry(p, t)] else [], v);
    PayoutUpdateUnique(c.payouts, i, q);
    if t.outcome.PAID? {
      LedgerInsertUnique(c.ledger, PaidEntry(p, t));
    }
    forall j | 0 <= j < i ensures c.payouts[j].id != t.payoutId {
      assert PayoutsCoexist(c.payouts[j], c.payouts[i]);
    }
  }

  lemma CloseMerges(s: Money, c: Money, i: nat, q: Payout, debit: seq<LedgerEntry>, v: Money)
    requires Evolved(s, c) && i < |s.payouts| && q != s.payouts[i] && q.account in s.balanceLocks && |debit| <= 1
    requires v == BumpBalance(s, q.account).(ledger := s.ledger + debit, payouts := s.payouts[i := q])
    requires CanCommit(s, v, c)
    ensures q.account in c.balanceLocks && c.payouts[i] == s.payouts[i]
    ensures Merge(s, v, c) == BumpBalance(c, q.account).(ledger := c.ledger + debit, payouts := c.payouts[i := q])
    ensures LedgerUnique(c.ledger + debit) && PayoutsUnique(c.payouts[i := q])
  {
    hide Balance, Reserved, Processing, TypeTotal, PaidTotal, Debits, EntriesCoexist, PayoutsCoexist;
    var a := q.account;
    MergeOneKey(s.balanceLocks, c.balanceLocks, a, s.balanceLocks[a] + 1);
    MergeUntouched(s.capacityLocks, c.capacityLocks);
    MergeOneRow(s.payouts, c.payouts, i, q);
    assert v.ledger[|s.ledger|..] == debit;
  }

  lemma EarnSerializes(s: Money, c: Money, e: Earning, v: Money)
    requires Sound(s) && Sound(c) && Evolved(s, c)
    requires EarnCommission(s, e) == Success(v) && CanCommit(s, v, c)
    ensures EarnCommission(c, e) == Success(Merge(s, v, c))
  {
    MergeOneInsert(s.ledger, c.ledger, EarnedEntry(e));
    LedgerInsertUnique(c.ledger, EarnedEntry(e));
    MergeNoRows(s.payouts, c.payouts);
    EnsuredSerializes(s.balanceLocks, c.balanceLocks, e.account);
    EnsuredSerializes(s.capacityLocks, c.capacityLocks, e.account.owner);
  }

  lemma EnsuredSerializes<K(!new)>(s: map<K, nat>, c: map<K, nat>, k: K)
    requires MapMergeable(s, Ensured(s, k), c) && s.Keys <= c.Keys
    ensures MergeMap(s, Ensured(s, k), c) == Ensured(c, k)
  {
    if k in s {
      MergeUntouched(s, c);
    } else {
      MergeOneKey(s, c, k, 0);
    }
  }

  lemma ReverseSerializes(s: Money, c: Money, r: Reversal, v: Money)
    requires Sound(s) && Sound(c) && Evolved(s, c)
    requires ReverseCommission(s, r).Success? && v == ReverseCommission(s, r).value.money && CanCommit(s, v, c) && v != s
    ensures ReverseCommission(c, r).Success? && ReverseCommission(c, r).value.money == Merge(s, v, c)
  {
    var i := Original(s.ledger, r).value;
    var original := s.ledger[i];
    var e := ReversalEntry(original, r);
    assert Existing(s.ledger, r).None?;
    UndoMerges(s, c, original.account, e, v);
    LedgerInsertUnique(c.ledger, e);
    OriginalIsStable(s.ledger, c.ledger, r);
    forall x | x in c.ledger ensures !MatchesReversal(x, r) {
      assert EntriesCoexist(x, e);
    }
  }

  lemma OriginalIsStable(was: seq<LedgerEntry>, now: seq<LedgerEntry>, r: Reversal)
    requires was <= now && Original(was, r).Some?
    ensures Original(now, r) == Original(was, r)
  {
    var i := Original(was, r).value;
    assert now[i] == was[i];
    forall j | 0 <= j < i ensures now[j] == was[j] {}
  }

  lemma UndoMerges(s: Money, c: Money, a: Account, e: LedgerEntry, v: Money)
    requires Evolved(s, c) && a in s.balanceLocks
    requires v == BumpBalance(s, a).(ledger := s.ledger + [e]) && CanCommit(s, v, c)
    ensures a in c.balanceLocks && Available(s, a) <= Available(c, a)
    ensures Merge(s, v, c) == BumpBalance(c, a).(ledger := c.ledger + [e]) && LedgerUnique(c.ledger + [e])
  {
    MergeOneKey(s.balanceLocks, c.balanceLocks, a, s.balanceLocks[a] + 1);
    MergeUntouched(s.capacityLocks, c.capacityLocks);
    MergeOneInsert(s.ledger, c.ledger, e);
    MergeNoRows(s.payouts, c.payouts);
  }
}
