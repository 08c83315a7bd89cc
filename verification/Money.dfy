/**
 The affiliate collections (ledger, payouts and the two lock collections), the queries the services run
 over them, and what each transaction does to them when it runs alone on one state.
 Collections that only grow are sequences in insertion order.
 */
module Money {
  import opened Wrappers
  import opened Errors
  import opened Sequences
  import opened Text
  import Economics

  type Id = nat
  type Amount = Economics.Amount

  const MAX_PROCESSING_AFFILIATE_PAYOUTS := 100

  /** Balances are kept per tenant, affiliate and currency; payout capacity per tenant and affiliate. */
  datatype Owner = Owner(tenant: Id, affiliate: Id)
  datatype Account = Account(owner: Owner, currency: string)

  datatype Direction = CREDIT | DEBIT
  datatype EntryType = COMMISSION_EARNED | COMMISSION_REVERSAL | PAYOUT_PAID

  /** Keys of all three kinds live in one index; a client may send any of them. */
  datatype LedgerKey = CommissionKey(conversion: Id) | PayoutKey(payout: Id) | ClientKey(text: string)

  datatype LedgerEntry = LedgerEntry(
    id: Id,
    account: Account,
    conversionId: Option<Id>,
    appointmentId: Option<Id>,
    payoutId: Option<Id>,
    direction: Direction,
    entryType: EntryType,
    amount: Amount,
    key: LedgerKey,
    reversalOf: Option<Id>,
    reason: Option<string>)

  datatype PayoutStatus = PROCESSING | PAID | FAILED | CANCELLED

  datatype Payout = Payout(
    id: Id,
    account: Account,
    amount: Amount,
    status: PayoutStatus,
    createKey: string,
    createReference: Option<string>,
    createdAt: int,
    terminalKey: Option<string>,
    externalReference: Option<string>,
    reason: Option<string>,
    closedAt: Option<int>)

  datatype Money = Money(
    ledger: seq<LedgerEntry>,
    payouts: seq<Payout>,
    balanceLocks: map<Account, nat>,
    capacityLocks: map<Owner, nat>)

  const Empty := Money([], [], map[], map[])

  // ----- unique indexes -----

  /** Two entries that the unique indexes on _id, (tenant, idempotencyKey) and (tenant, reversalOfEntryId) let coexist. */
  predicate EntriesCoexist(a: LedgerEntry, b: LedgerEntry) {
    && a.id != b.id
    && (a.account.owner.tenant == b.account.owner.tenant ==>
          && a.key != b.key
          && (a.reversalOf.Some? ==> a.reversalOf != b.reversalOf))
  }

  /** Two payouts that the unique indexes on _id, (tenant, create key) and (tenant, terminal key) let coexist. */
  predicate PayoutsCoexist(a: Payout, b: Payout) {
    && a.id != b.id
    && (a.account.owner.tenant == b.account.owner.tenant ==>
          && a.createKey != b.createKey
          && (a.terminalKey.Some? ==> a.terminalKey != b.terminalKey))
  }

  predicate EntryInsertable(ledger: seq<LedgerEntry>, e: LedgerEntry) {
    forall x :: x in ledger ==> EntriesCoexist(x, e)
  }

  predicate PayoutInsertable(payouts: seq<Payout>, p: Payout) {
    forall x :: x in payouts ==> PayoutsCoexist(x, p)
  }

  predicate PayoutStorable(payouts: seq<Payout>, i: nat, p: Payout)
    requires i < |payouts|
  {
    forall j :: 0 <= j < |payouts| && j != i ==> PayoutsCoexist(payouts[j], p)
  }

  predicate LedgerUnique(ledger: seq<LedgerEntry>) {
    forall i, j :: 0 <= i < j < |ledger| ==> EntriesCoexist(ledger[i], ledger[j])
  }

  predicate PayoutsUnique(payouts: seq<Payout>) {
    forall i, j :: 0 <= i < j < |payouts| ==> PayoutsCoexist(payouts[i], payouts[j])
  }

  // ----- aggregates -----

  function Signed(e: LedgerEntry): (r: int) {
    var amount: int := e.amount;
    if e.direction.CREDIT? then amount else -amount
  }

  /** The ledger balance of one account, by direction. */
  function Balance(ledger: seq<LedgerEntry>, a: Account): (r: int) {
    if |ledger| == 0 then 0
    else Balance(ledger[..|ledger| - 1], a) +
         (var e := ledger[|ledger| - 1]; if e.account == a then Signed(e) else 0)
  }

  function Reserved(payouts: seq<Payout>, a: Account): (r: int)
    ensures r >= 0
  {
    if |payouts| == 0 then 0
    else Reserved(payouts[..|payouts| - 1], a) + Reserves(payouts[|payouts| - 1], a)
  }

  function Reserves(p: Payout, a: Account): (r: int) {
    if p.account == a && p.status.PROCESSING? then p.amount else 0
  }

  function Processing(payouts: seq<Payout>, o: Owner): (r: nat) {
    if |payouts| == 0 then 0
    else Processing(payouts[..|payouts| - 1], o) + Occupies(payouts[|payouts| - 1], o)
  }

  function Occupies(p: Payout, o: Owner): (r: nat) {
    if p.account.owner == o && p.status.PROCESSING? then 1 else 0
  }

  function Available(m: Money, a: Account): (r: int) {
    Balance(m.ledger, a) - Reserved(m.payouts, a)
  }

  function BumpBalance(m: Money, a: Account): (r: Money)
    requires a in m.balanceLocks
  {
    m.(balanceLocks := m.balanceLocks[a := m.balanceLocks[a] + 1])
  }

  function BumpCapacity(m: Money, o: Owner): (r: Money)
    requires o in m.capacityLocks
  {
    m.(capacityLocks := m.capacityLocks[o := m.capacityLocks[o] + 1])
  }

  // ----- creating a payout -----

  datatype PayoutRequest = PayoutRequest(
    account: Account,
    customerExists: bool,
    amount: Amount,
    key: string,
    reference: Option<string>,
    newId: Id,
    now: int)

  datatype PayoutReply = PayoutReply(money: Money, payout: Payout)

  function CreateReplay(p: Payout, c: PayoutRequest): (r: Result<Payout, Error>) {
    if p.account != c.account || p.amount != c.amount || p.createReference != c.reference
    then Failure(AFFILIATE_PAYOUT_IDEMPOTENCY_CONFLICT)
    else Success(p)
  }

  function NewPayout(c: PayoutRequest): (r: Payout) {
    Payout(c.newId, c.account, c.amount, PROCESSING, c.key, c.reference, c.now, None, c.reference, None, None)
  }

  function ByCreateKey(payouts: seq<Payout>, tenant: Id, key: string): (r: Option<nat>) {
    FirstIndex(payouts, (p: Payout) => p.account.owner.tenant == tenant && p.createKey == key)
  }

  function CreatePayout(m: Money, c: PayoutRequest): (r: Result<PayoutReply, Error>) {
    if !c.customerExists then Failure(CUSTOMER_NOT_FOUND)
    else match ByCreateKey(m.payouts, c.account.owner.tenant, c.key)
      case Some(i) =>
        (match CreateReplay(m.payouts[i], c)
         case Success(p) => Success(PayoutReply(m, p))
         case Failure(e) => Failure(e))
      case None =>
        if c.account.owner !in m.capacityLocks then Failure(AFFILIATE_PAYOUT_INSUFFICIENT_AVAILABLE)
        else if Processing(m.payouts, c.account.owner) >= MAX_PROCESSING_AFFILIATE_PAYOUTS
        then Failure(AFFILIATE_PAYOUT_PROCESSING_LIMIT)
        else if c.account !in m.balanceLocks then Failure(AFFILIATE_PAYOUT_INSUFFICIENT_AVAILABLE)
        else if Available(m, c.account) < c.amount then Failure(AFFILIATE_PAYOUT_INSUFFICIENT_AVAILABLE)
        else if !PayoutInsertable(m.payouts, NewPayout(c)) then Failure(DUPLICATE_KEY)
        else
          var bumped := BumpBalance(BumpCapacity(m, c.account.owner), c.account);
          Success(PayoutReply(bumped.(payouts := m.payouts + [NewPayout(c)]), NewPayout(c)))
  }

  // ----- settling a payout -----

  /** PAID carries an external reference; FAILED and CANCELLED carry a reason. */
  datatype Settlement = Settlement(
    owner: Owner,
    payoutId: Id,
    outcome: ClosingStatus,
    key: string,
    text: string,
    newEntryId: Id,
    now: int)

  type ClosingStatus = s: PayoutStatus | !s.PROCESSING? witness PAID

  function ById(payouts: seq<Payout>, owner: Owner, id: Id): (r: Option<nat>) {
    FirstIndex(payouts, (p: Payout) => p.id == id && p.account.owner == owner)
  }

  function TerminalReplay(p: Payout, s: Settlement): (r: Result<Payout, Error>) {
    if p.status == s.outcome && p.terminalKey == Some(s.key) &&
       (if s.outcome.PAID? then p.externalReference == Some(s.text) else p.reason == Some(s.text))
    then Success(p)
    else Failure(AFFILIATE_PAYOUT_IDEMPOTENCY_CONFLICT)
  }

  function Settled(p: Payout, s: Settlement): (r: Payout) {
    if s.outcome.PAID?
    then p.(status := PAID, externalReference := Some(s.text), closedAt := Some(s.now), terminalKey := Some(s.key))
    else p.(status := s.outcome, reason := Some(s.text), closedAt := Some(s.now), terminalKey := Some(s.key))
  }

  function PaidEntry(p: Payout, s: Settlement): (r: LedgerEntry) {
    LedgerEntry(s.newEntryId, p.account, None, None, Some(p.id), DEBIT, PAYOUT_PAID, p.amount, PayoutKey(p.id), None, None)
  }

  function SettlePayout(m: Money, s: Settlement): (r: Result<PayoutReply, Error>) {
    match ById(m.payouts, s.owner, s.payoutId)
    case None => Failure(AFFILIATE_PAYOUT_NOT_FOUND)
    case Some(i) =>
      var p := m.payouts[i];
      if !p.status.PROCESSING? then
        (match TerminalReplay(p, s)
         case Success(q) => Success(PayoutReply(m, q))
         case Failure(e) => Failure(e))
      else if p.account !in m.balanceLocks then Failure(AFFILIATE_PAYOUT_INSUFFICIENT_AVAILABLE)
      else if s.outcome.PAID? && !EntryInsertable(m.ledger, PaidEntry(p, s)) then Failure(DUPLICATE_KEY)
      else if !PayoutStorable(m.payouts, i, Settled(p, s)) then Failure(DUPLICATE_KEY)
      else
        Success(PayoutReply(
          BumpBalance(m, p.account).(
            ledger := if s.outcome.PAID? then m.ledger + [PaidEntry(p, s)] else m.ledger,
            payouts := m.payouts[i := Settled(p, s)]),
          Settled(p, s)))
  }

  // ----- earning a commission -----

  datatype Earning = Earning(
    conversionId: Id,
    appointmentId: Id,
    account: Account,
    amount: Amount,
    newEntryId: Id)

  function EarnedEntry(e: Earning): (r: LedgerEntry) {
    LedgerEntry(e.newEntryId, e.account, Some(e.conversionId), Some(e.appointmentId), None, CREDIT, COMMISSION_EARNED,
                e.amount, CommissionKey(e.conversionId), None, None)
  }

  function Ensured<K>(locks: map<K, nat>, k: K): (r: map<K, nat>) {
    if k in locks then locks else locks[k := 0]
  }

  function EarnCommission(m: Money, e: Earning): (r: Result<Money, Error>) {
    if !EntryInsertable(m.ledger, EarnedEntry(e)) then Failure(DUPLICATE_KEY)
    else Success(m.(capacityLocks := Ensured(m.capacityLocks, e.account.owner),
                    balanceLocks := Ensured(m.balanceLocks, e.account),
                    ledger := m.ledger + [EarnedEntry(e)]))
  }

  // ----- reversing a commission -----

  datatype Reversal = Reversal(tenant: Id, entryId: Id, reason: string, key: LedgerKey, newEntryId: Id)

  datatype ReversalReply = ReversalReply(money: Money, entry: LedgerEntry)

  function Original(ledger: seq<LedgerEntry>, r: Reversal): (result: Option<nat>) {
    FirstIndex(ledger, (e: LedgerEntry) =>
      e.id == r.entryId && e.account.owner.tenant == r.tenant && e.direction.CREDIT? && e.entryType.COMMISSION_EARNED?)
  }

  /** The documents the replay query may return. */
  predicate MatchesReversal(e: LedgerEntry, r: Reversal) {
    e.account.owner.tenant == r.tenant && (e.reversalOf == Some(r.entryId) || e.key == r.key)
  }

  function Existing(ledger: seq<LedgerEntry>, r: Reversal): (result: Option<nat>) {
    FirstIndex(ledger, (e: LedgerEntry) => MatchesReversal(e, r))
  }

  function ReversalReplay(e: LedgerEntry, r: Reversal): (result: Result<LedgerEntry, Error>) {
    if e.reversalOf == Some(r.entryId) && e.key == r.key then Success(e)
    else Failure(AFFILIATE_COMMISSION_ALREADY_REVERSED)
  }

  function ReversalEntry(original: LedgerEntry, r: Reversal): (result: LedgerEntry) {
    LedgerEntry(r.newEntryId, original.account, original.conversionId, original.appointmentId, None, DEBIT,
                COMMISSION_REVERSAL, original.amount, r.key, Some(original.id), Some(Trim(r.reason)))
  }

  function ReverseCommission(m: Money, r: Reversal): (result: Result<ReversalReply, Error>) {
    if !(6 <= |Trim(r.reason)| <= 500) then Failure(AFFILIATE_REVERSAL_REASON_INVALID)
    else match Original(m.ledger, r)
      case None => Failure(AFFILIATE_COMMISSION_NOT_FOUND)
      case Some(i) =>
        var original := m.ledger[i];
        match Existing(m.ledger, r)
        case Some(j) =>
          (match ReversalReplay(m.ledger[j], r)
           case Success(e) => Success(ReversalReply(m, e))
           case Failure(e) => Failure(e))
        case None =>
          if original.account !in m.balanceLocks then Failure(AFFILIATE_COMMISSION_INSUFFICIENT_AVAILABLE)
          else if Available(m, original.account) < original.amount then Failure(AFFILIATE_COMMISSION_INSUFFICIENT_AVAILABLE)
          else if !EntryInsertable(m.ledger, ReversalEntry(original, r)) then Failure(DUPLICATE_KEY)
          else Success(ReversalReply(
                         BumpBalance(m, original.account).(ledger := m.ledger + [ReversalEntry(original, r)]),
                         ReversalEntry(original, r)))
  }
}
