/**
 The read side of the affiliate program: the balances, the payout page and the activity list of one affiliate,
 and why in every reachable state they tell the same story as the guards that admit payouts.
 */
module AffiliateViews {
  import opened Wrappers
  import opened Sequences
  import opened System
  import opened Runs
  import B = Bookings
  import BS = BookingSafety
  import M = Money
  import MS = MoneySafety
  import Text

  const HISTORY_LIMIT := 100

  // ----- balances -----

  /** One row of each aggregate; the rows of an aggregate are keyed by currency. */
  datatype LedgerRow = LedgerRow(credits: int, reversals: int, paid: int)

  datatype BalanceView = BalanceView(
    currency: string,
    expected: int,
    earned: int,
    paid: int,
    reserved: int,
    balance: int,
    available: int)

  /** Commissions whose appointment, of the same tenant, is still open. */
  function ExpectedTotal(b: B.Bookings, conversions: seq<B.Conversion>, a: M.Account): (r: int) {
    if |conversions| == 0 then 0
    else ExpectedTotal(b, conversions[..|conversions| - 1], a) +
         (var cv := conversions[|conversions| - 1];
          if cv.account == a && IsOpen(b, cv) then cv.commission else 0)
  }

  predicate IsOpen(b: B.Bookings, cv: B.Conversion) {
    && cv.appointment in b.appointments
    && b.appointments[cv.appointment].tenant == cv.account.owner.tenant
    && (var s := b.appointments[cv.appointment].status; s.PENDING? || s.CONFIRMED? || s.IN_PROGRESS?)
  }

  function ExpectedRows(b: B.Bookings, o: M.Owner): (r: map<string, int>) {
    map c | c in set cv | cv in b.conversions && cv.account.owner == o && IsOpen(b, cv) :: cv.account.currency
      :: ExpectedTotal(b, b.conversions, M.Account(o, c))
  }

  function LedgerRows(ledger: seq<M.LedgerEntry>, o: M.Owner): (r: map<string, LedgerRow>) {
    map c | c in set e | e in ledger && e.account.owner == o :: e.account.currency
      :: LedgerRow(MS.TypeTotal(ledger, M.Account(o, c), M.COMMISSION_EARNED),
                   MS.TypeTotal(ledger, M.Account(o, c), M.COMMISSION_REVERSAL),
                   MS.TypeTotal(ledger, M.Account(o, c), M.PAYOUT_PAID))
  }

  function ReservedRows(payouts: seq<M.Payout>, o: M.Owner): (r: map<string, int>) {
    map c | c in set p | p in payouts && p.account.owner == o && p.status.PROCESSING? :: p.account.currency
      :: M.Reserved(payouts, M.Account(o, c))
  }

  function OrZero(rows: map<string, int>, c: string): (r: int) {
    if c in rows then rows[c] else 0
  }

  function ViewOf(expected: map<string, int>, ledger: map<string, LedgerRow>, reserved: map<string, int>, c: string): (r: BalanceView) {
    var row := if c in ledger then ledger[c] else LedgerRow(0, 0, 0);
    var earned := row.credits - row.reversals;
    var balance := earned - row.paid;
    BalanceView(c, OrZero(expected, c), earned, row.paid, OrZero(reserved, c), balance, balance - OrZero(reserved, c))
  }

  ghost function InOrder(keys: set<string>): (r: seq<string>)
    ensures multiset(r) == multiset(keys)
  {
    if keys == {} then []
    else
      var k :| k in keys;
      assert multiset(keys) == multiset(keys - {k}) + multiset{k};
      Insert(InOrder(keys - {k}), k, Text.AtMost)
  }

  ghost function AffiliateBalanceViews(expected: map<string, int>, ledger: map<string, LedgerRow>, reserved: map<string, int>)
    : (r: seq<BalanceView>)
  {
    var currencies := InOrder(expected.Keys + ledger.Keys + reserved.Keys);
    seq(|currencies|, i requires 0 <= i < |currencies| => ViewOf(expected, ledger, reserved, currencies[i]))
  }

  lemma TextOrder()
    ensures TotalPreorder(Text.AtMost)
  {
    forall x, y ensures Text.AtMost(x, y) || Text.AtMost(y, x) {
      Text.AtMostIsTotal(x, y);
    }
    forall x, y, z | Text.AtMost(x, y) && Text.AtMost(y, z) ensures Text.AtMost(x, z) {
      Text.AtMostIsTransitive(x, y, z);
    }
  }

  lemma {:induction false} InOrderIsSorted(keys: set<string>)
    ensures SortedBy(InOrder(keys), Text.AtMost)
  {
    if keys != {} {
      var k :| k in keys && InOrder(keys) == Insert(InOrder(keys - {k}), k, Text.AtMost);
      InOrderIsSorted(keys - {k});
      TextOrder();
      InsertKeepsSorted(InOrder(keys - {k}), k, Text.AtMost);
    }
  }

  /** One view per currency that any of the three aggregates mentions, in currency order. */
  lemma EachCurrencyIsListedOnce(expected: map<string, int>, ledger: map<string, LedgerRow>, reserved: map<string, int>)
    ensures var views := AffiliateBalanceViews(expected, ledger, reserved);
            && (forall i, j :: 0 <= i < j < |views| ==>
                  Text.AtMost(views[i].currency, views[j].currency) && views[i].currency != views[j].currency)
            && (forall v :: v in views <==>
                  v.currency in expected.Keys + ledger.Keys + reserved.Keys && v == ViewOf(expected, ledger, reserved, v.currency))
  {
    hide InOrder, Text.AtMost;
    var keys := expected.Keys + ledger.Keys + reserved.Keys;
    var list, views := InOrder(keys), AffiliateBalanceViews(expected, ledger, reserved);
    InOrderIsSorted(keys);
    InOrderListsOnce(keys);
    assert forall i :: 0 <= i < |views| ==> views[i] == ViewOf(expected, ledger, reserved, list[i]) && views[i].currency == list[i];
    hide ViewOf;
    forall v ensures v in views <==> v.currency in keys && v == ViewOf(expected, ledger, reserved, v.currency) {
      if v.currency in keys {
        var i :| 0 <= i < |list| && list[i] == v.currency;
        assert views[i] == ViewOf(expected, ledger, reserved, v.currency);
      }
    }
  }

  lemma InOrderListsOnce(keys: set<string>)
    ensures NoDuplicates(InOrder(keys)) && forall c :: c in InOrder(keys) <==> c in keys
  {
    var list := InOrder(keys);
    forall i, j | 0 <= i < j < |list| ensures list[i] != list[j] {
      if list[i] == list[j] {
        TwiceInMultiset(list, i, j);
      }
    }
    forall c ensures c in list <==> c in keys {
      assert c in list <==> c in multiset(list);
    }
  }

  /** Summing by direction and summing by type give the same balance. */
  lemma {:induction false} SignedSumIsTypedSum(ledger: seq<M.LedgerEntry>, a: M.Account)
    requires forall e :: e in ledger ==> MS.EntryWellFormed(e)
    ensures M.Balance(ledger, a) ==
            MS.TypeTotal(ledger, a, M.COMMISSION_EARNED) - MS.TypeTotal(ledger, a, M.COMMISSION_REVERSAL) -
            MS.TypeTotal(ledger, a, M.PAYOUT_PAID)
  {
    if |ledger| > 0 {
      SignedSumIsTypedSum(ledger[..|ledger| - 1], a);
      assert MS.EntryWellFormed(ledger[|ledger| - 1]);
    }
  }

  lemma {:induction false} AbsentCurrencyOwesNothing(ledger: seq<M.LedgerEntry>, a: M.Account)
    requires forall e :: e in ledger ==> e.account != a
    ensures M.Balance(ledger, a) == 0 && forall t :: MS.TypeTotal(ledger, a, t) == 0
  {
    if |ledger| > 0 {
      AbsentCurrencyOwesNothing(ledger[..|ledger| - 1], a);
      assert ledger[|ledger| - 1] in ledger;
    }
  }

  lemma {:induction false} AbsentCurrencyReservesNothing(payouts: seq<M.Payout>, a: M.Account)
    requires forall p :: p in payouts && p.status.PROCESSING? ==> p.account != a
    ensures M.Reserved(payouts, a) == 0
  {
    if |payouts| > 0 {
      AbsentCurrencyReservesNothing(payouts[..|payouts| - 1], a);
      assert payouts[|payouts| - 1] in payouts;
    }
  }

  lemma {:induction false} AbsentCurrencyExpectsNothing(b: B.Bookings, conversions: seq<B.Conversion>, a: M.Account)
    requires forall cv :: cv in conversions && IsOpen(b, cv) ==> cv.account != a
    ensures ExpectedTotal(b, conversions, a) == 0
  {
    if |conversions| > 0 {
      AbsentCurrencyExpectsNothing(b, conversions[..|conversions| - 1], a);
      assert conversions[|conversions| - 1] in conversions;
    }
  }

  lemma {:induction false} ExpectedIsOpenFate(b: B.Bookings, conversions: seq<B.Conversion>, a: M.Account)
    requires forall cv :: cv in conversions ==>
               cv.appointment in b.appointments && b.appointments[cv.appointment].tenant == cv.account.owner.tenant
    ensures ExpectedTotal(b, conversions, a) == CommissionTotal(conversions, b.appointments, a, Expected)
  {
    if |conversions| > 0 {
      ExpectedIsOpenFate(b, conversions[..|conversions| - 1], a);
      assert conversions[|conversions| - 1] in conversions;
    }
  }

  /** The views of one affiliate, as the detail page computes them. */
  function BalanceOf(db: Db, o: M.Owner, c: string): (r: BalanceView) {
    ViewOf(ExpectedRows(db.bookings, o), LedgerRows(db.money.ledger, o), ReservedRows(db.money.payouts, o), c)
  }

  /**
   In every reachable state the displayed balance is the ledger's signed balance, the displayed available value is
   the one that admits payouts and is never negative, what was paid matches the paid payouts and never exceeds what
   was earned, and the expected value is exactly the open commissions.
   */
  lemma BalancesAgree(cat: B.Catalog, states: seq<State>, steps: seq<Step>, i: nat, o: M.Owner, c: string)
    requires Run(cat, states, steps) && i < |states|
    ensures var db, a := states[i].db, M.Account(o, c);
            var v := BalanceOf(db, o, c);
            && v.currency == c && v.balance == M.Balance(db.money.ledger, a) && v.reserved == M.Reserved(db.money.payouts, a)
            && v.available == M.Available(db.money, a) && 0 <= v.available <= v.balance
            && v.paid == MS.PaidTotal(db.money.payouts, a) && v.paid <= v.earned
            && v.earned + MS.TypeTotal(db.money.ledger, a, M.COMMISSION_REVERSAL) ==
               CommissionTotal(db.bookings.conversions, db.bookings.appointments, a, Earned)
            && v.expected == CommissionTotal(db.bookings.conversions, db.bookings.appointments, a, Expected)
  {
    EveryStateIsSound(cat, states, steps, i);
    SoundBalances(cat, states[i].db, o, c);
  }

  lemma SoundBalances(cat: B.Catalog, db: Db, o: M.Owner, c: string)
    requires Sound(cat, db)
    ensures var a, v := M.Account(o, c), BalanceOf(db, o, c);
            && v.currency == c && v.balance == M.Balance(db.money.ledger, a) && v.reserved == M.Reserved(db.money.payouts, a)
            && v.available == M.Available(db.money, a) && 0 <= v.available <= v.balance
            && v.paid == MS.PaidTotal(db.money.payouts, a) && v.paid <= v.earned
            && v.earned + MS.TypeTotal(db.money.ledger, a, M.COMMISSION_REVERSAL) ==
               CommissionTotal(db.bookings.conversions, db.bookings.appointments, a, Earned)
            && v.expected == CommissionTotal(db.bookings.conversions, db.bookings.appointments, a, Expected)
  {
    hide M.LedgerUnique, M.PayoutsUnique, MS.ReversalsMatch, MS.WithinCapacity, MS.TerminalKeysSet, BS.LocksExact, BS.TimelineTells,
         BS.AppointmentsWellFormed;
    var a := M.Account(o, c);
    SignedSumIsTypedSum(db.money.ledger, a);
    ExpectedIsOpenFate(db.bookings, db.bookings.conversions, a);
    if c !in LedgerRows(db.money.ledger, o) {
      AbsentCurrencyOwesNothing(db.money.ledger, a);
    }
    if c !in ReservedRows(db.money.payouts, o) {
      AbsentCurrencyReservesNothing(db.money.payouts, a);
    }
    if c !in ExpectedRows(db.bookings, o) {
      AbsentCurrencyExpectsNothing(db.bookings, db.bookings.conversions, a);
    }
    assert M.Available(db.money, a) >= 0;
  }

  // ----- the payout page -----

  datatype PayoutPage = PayoutPage(payouts: seq<M.Payout>, truncated: bool)

  predicate NewestFirst(p: M.Payout, q: M.Payout) {
    p.createdAt > q.createdAt || (p.createdAt == q.createdAt && p.id >= q.id)
  }

  function ProcessingOf(payouts: seq<M.Payout>, o: M.Owner): (r: seq<M.Payout>) {
    Filter(payouts, (p: M.Payout) => p.account.owner == o && p.status.PROCESSING?)
  }

  function TerminalOf(payouts: seq<M.Payout>, o: M.Owner): (r: seq<M.Payout>) {
    Filter(payouts, (p: M.Payout) => p.account.owner == o && !p.status.PROCESSING?)
  }

  /** All processing payouts the limit allows, topped up with the newest closed ones. */
  function PageFrom(newestProcessing: seq<M.Payout>, newestClosed: seq<M.Payout>): (r: PayoutPage) {
    var processing := Take(newestProcessing, M.MAX_PROCESSING_AFFILIATE_PAYOUTS + 1);
    var terminalLimit := if |processing| <= HISTORY_LIMIT then HISTORY_LIMIT - |processing| else 0;
    var terminal := Take(newestClosed, terminalLimit + 1);
    PayoutPage(Sort(Take(processing, HISTORY_LIMIT) + Take(terminal, terminalLimit), NewestFirst),
               |processing| > HISTORY_LIMIT || |terminal| > terminalLimit)
  }

  function Page(payouts: seq<M.Payout>, o: M.Owner): (r: PayoutPage) {
    PageFrom(Sort(ProcessingOf(payouts, o), NewestFirst), Sort(TerminalOf(payouts, o), NewestFirst))
  }

  lemma {:induction false} ProcessingCounts(payouts: seq<M.Payout>, o: M.Owner)
    ensures |ProcessingOf(payouts, o)| == M.Processing(payouts, o)
  {
    if |payouts| > 0 {
      ProcessingCounts(payouts[..|payouts| - 1], o);
    }
  }

  lemma NewestFirstIsTotal()
    ensures TotalPreorder(NewestFirst)
  {
  }

  lemma PayoutsAreDistinct(payouts: seq<M.Payout>)
    requires M.PayoutsUnique(payouts)
    ensures NoDuplicates(payouts)
  {
    forall i, j | 0 <= i < j < |payouts| ensures payouts[i] != payouts[j] {
      assert M.PayoutsCoexist(payouts[i], payouts[j]);
    }
  }

  /** What is on the page once the processing payouts fit on it. */
  lemma PageShape(processing: seq<M.Payout>, closed: seq<M.Payout>, limit: nat)
    requires |processing| + limit == HISTORY_LIMIT
    ensures var page := PageFrom(processing, closed);
            && multiset(page.payouts) == multiset(processing + Take(closed, limit))
            && (page.truncated <==> |closed| > limit)
            && SortedBy(page.payouts, NewestFirst)
  {
    hide NewestFirst, Sort;
    assert Take(Take(closed, limit + 1), limit) == Take(closed, limit);
    var page, listed := PageFrom(processing, closed), processing + Take(closed, limit);
    assert page.payouts == Sort(listed, NewestFirst);
    assert page.truncated <==> |closed| > limit;
    hide PageFrom, Take;
    NewestFirstIsTotal();
    SortIsSorted(listed, NewestFirst);
  }

  /** Newer payouts come first, and of equally old ones the one with the larger identifier. */
  predicate ListedBefore(p: M.Payout, q: M.Payout) {
    q.createdAt <= p.createdAt && (q.createdAt == p.createdAt ==> q.id <= p.id)
  }

  /**
   In every reachable state the page holds every processing payout, at most 100 payouts in all, each one once, newest
   first. It leaves something out exactly when it says that it is truncated, and then it is full, and what it leaves out is
   closed and older than every closed payout that it shows.
   */
  lemma PageHoldsEveryProcessingPayout(cat: B.Catalog, states: seq<State>, steps: seq<Step>, i: nat, o: M.Owner)
    requires Run(cat, states, steps) && i < |states|
    ensures var payouts := states[i].db.money.payouts;
            var page := Page(payouts, o);
            && (forall p :: p in page.payouts ==> p in payouts && p.account.owner == o)
            && (forall p :: p in payouts && p.account.owner == o && p.status.PROCESSING? ==> p in page.payouts)
            && (page.truncated <==> exists p :: p in payouts && p.account.owner == o && p !in page.payouts)
            && |page.payouts| <= 100 && (page.truncated ==> |page.payouts| == 100)
            && (forall j, k :: 0 <= j < k < |page.payouts| ==>
                  page.payouts[j] != page.payouts[k] && ListedBefore(page.payouts[j], page.payouts[k]))
            && (forall p, q :: p in page.payouts && !p.status.PROCESSING? && q in payouts && q.account.owner == o && q !in page.payouts ==>
                  ListedBefore(p, q))
  {
    EveryStateIsSound(cat, states, steps, i);
    var payouts := states[i].db.money.payouts;
    ProcessingCounts(payouts, o);
    assert M.PayoutsUnique(payouts) && |ProcessingOf(payouts, o)| <= HISTORY_LIMIT;
    hide Run, StateSound, M.PayoutsUnique;
    PageIsComplete(payouts, o);
  }

  lemma PageIsComplete(payouts: seq<M.Payout>, o: M.Owner)
    requires M.PayoutsUnique(payouts) && |ProcessingOf(payouts, o)| <= HISTORY_LIMIT
    ensures var page := Page(payouts, o);
            && (forall p :: p in page.payouts ==> p in payouts && p.account.owner == o)
            && (forall p :: p in payouts && p.account.owner == o && p.status.PROCESSING? ==> p in page.payouts)
            && (page.truncated <==> exists p :: p in payouts && p.account.owner == o && p !in page.payouts)
            && |page.payouts| <= 100 && (page.truncated ==> |page.payouts| == 100)
            && (forall j, k :: 0 <= j < k < |page.payouts| ==>
                  page.payouts[j] != page.payouts[k] && ListedBefore(page.payouts[j], page.payouts[k]))
            && (forall p, q :: p in page.payouts && !p.status.PROCESSING? && q in payouts && q.account.owner == o && q !in page.payouts ==>
                  ListedBefore(p, q))
  {
    hide M.PayoutsUnique, NewestFirst, ListedBefore, ProcessingOf, TerminalOf, Page;
    SoundPage(payouts, o);
    TruncatedLeavesOut(payouts, o, Page(payouts, o));
    InNewestOrder(Page(payouts, o).payouts);
    LeftOutIsOlder(payouts, o, Page(payouts, o));
    hide NoDuplicates, SortedBy;
  }

  lemma InNewestOrder(list: seq<M.Payout>)
    requires NoDuplicates(list) && SortedBy(list, NewestFirst)
    ensures forall j, k :: 0 <= j < k < |list| ==> list[j] != list[k] && ListedBefore(list[j], list[k])
  {
  }

  lemma LeftOutIsOlder(payouts: seq<M.Payout>, o: M.Owner, page: PayoutPage)
    requires forall p :: p in payouts && p.account.owner == o && p.status.PROCESSING? ==> p in page.payouts
    requires forall p, q :: p in page.payouts && !p.status.PROCESSING? && q in TerminalOf(payouts, o) && q !in page.payouts ==>
               NewestFirst(p, q)
    ensures forall p, q :: p in page.payouts && !p.status.PROCESSING? && q in payouts && q.account.owner == o && q !in page.payouts ==>
              ListedBefore(p, q)
  {
    forall p, q | p in page.payouts && !p.status.PROCESSING? && q in payouts && q.account.owner == o && q !in page.payouts
      ensures ListedBefore(p, q)
    {
      assert q in TerminalOf(payouts, o) && NewestFirst(p, q);
    }
  }

  /** A page without duplicates that has fewer payouts than there are leaves one out, and one that has as many does not. */
  lemma TruncatedLeavesOut(payouts: seq<M.Payout>, o: M.Owner, page: PayoutPage)
    requires M.PayoutsUnique(payouts) && NoDuplicates(page.payouts)
    requires forall p :: p in page.payouts ==> p in payouts && p.account.owner == o
    requires var total := |ProcessingOf(payouts, o)| + |TerminalOf(payouts, o)|;
             (page.truncated <==> total > HISTORY_LIMIT) && |page.payouts| == (if page.truncated then HISTORY_LIMIT else total)
    ensures page.truncated <==> exists p :: p in payouts && p.account.owner == o && p !in page.payouts
  {
    var all := ProcessingOf(payouts, o) + TerminalOf(payouts, o);
    assert NoDuplicates(all) by {
      PayoutsAreDistinct(payouts);
      FilterKeepsDistinct(payouts, (p: M.Payout) => p.account.owner == o && p.status.PROCESSING?);
      FilterKeepsDistinct(payouts, (p: M.Payout) => p.account.owner == o && !p.status.PROCESSING?);
      forall j, k | 0 <= j < k < |all| ensures all[j] != all[k] {
        assert all[j] in all && all[k] in all;
        if j < |ProcessingOf(payouts, o)| <= k {
          assert all[j] in ProcessingOf(payouts, o) && all[k] in TerminalOf(payouts, o);
        }
      }
    }
    assert forall p :: p in all <==> p in payouts && p.account.owner == o;
    hide M.PayoutsUnique, ProcessingOf, TerminalOf;
    if forall p :: p in all ==> p in page.payouts {
      AsManyAs(all, page.payouts);
    }
    if exists p :: p in all && p !in page.payouts {
      var p :| p in all && p !in page.payouts;
      assert NoDuplicates(page.payouts + [p]);
      AsManyAs(page.payouts + [p], all);
    }
  }

  lemma {:induction false} AsManyAs(xs: seq<M.Payout>, ys: seq<M.Payout>)
    requires NoDuplicates(xs) && forall x :: x in xs ==> x in ys
    ensures |xs| <= |ys|
  {
    if |xs| > 0 {
      var last := xs[|xs| - 1];
      assert last in ys;
      var k :| 0 <= k < |ys| && ys[k] == last;
      var rest := ys[..k] + ys[k + 1..];
      forall x | x in xs[..|xs| - 1] ensures x in rest {
        var j :| 0 <= j < |xs| - 1 && xs[j] == x;
        assert x != last && x in ys;
      }
      AsManyAs(xs[..|xs| - 1], rest);
    }
  }

  lemma SoundPage(payouts: seq<M.Payout>, o: M.Owner)
    requires M.PayoutsUnique(payouts) && |ProcessingOf(payouts, o)| <= HISTORY_LIMIT
    ensures var page := Page(payouts, o);
            var total := |ProcessingOf(payouts, o)| + |TerminalOf(payouts, o)|;
            && (forall p :: p in payouts && p.account.owner == o && p.status.PROCESSING? ==> p in page.payouts)
            && (forall p :: p in page.payouts ==> p in payouts && p.account.owner == o)
            && NoDuplicates(page.payouts) && SortedBy(page.payouts, NewestFirst)
            && (page.truncated <==> total > HISTORY_LIMIT)
            && |page.payouts| == (if page.truncated then HISTORY_LIMIT else total)
            && (forall p, q :: p in page.payouts && !p.status.PROCESSING? && q in TerminalOf(payouts, o) && q !in page.payouts ==>
                  NewestFirst(p, q))
  {
    var mine, closed := ProcessingOf(payouts, o), TerminalOf(payouts, o);
    hide Filter, Sort, NewestFirst, SortedBy, NoDuplicates, PageFrom;
    var processing, newest := Sort(mine, NewestFirst), Sort(closed, NewestFirst);
    SameElements(processing, mine);
    SameElements(newest, closed);
    var limit := HISTORY_LIMIT - |mine|;
    PageShape(processing, newest, limit);
    var page, shown := Page(payouts, o), Take(newest, limit);
    SameElements(processing + shown, page.payouts);
    DistinctParts(payouts, o, processing, newest, limit);
    ShownAreNewest(closed, newest, limit);
    assert forall p :: p in shown ==> p in newest;
    assert forall p :: p in page.payouts <==> p in processing || p in shown;
  }

  lemma ShownAreNewest(closed: seq<M.Payout>, newest: seq<M.Payout>, limit: nat)
    requires newest == Sort(closed, NewestFirst)
    ensures forall p, q :: p in Take(newest, limit) && q in closed && q !in Take(newest, limit) ==> NewestFirst(p, q)
  {
    hide NewestFirst, Sort;
    var shown := Take(newest, limit);
    SameElements(newest, closed);
    NewestFirstIsTotal();
    SortIsSorted(closed, NewestFirst);
    hide TotalPreorder;
    forall p, q | p in shown && q in closed && q !in shown ensures NewestFirst(p, q) {
      var x :| 0 <= x < |shown| && newest[x] == p;
      assert newest == shown + newest[|shown|..];
      var y :| |shown| <= y < |newest| && newest[y] == q;
    }
  }

  lemma DistinctParts(payouts: seq<M.Payout>, o: M.Owner, processing: seq<M.Payout>, newest: seq<M.Payout>, limit: nat)
    requires M.PayoutsUnique(payouts)
    requires processing == Sort(ProcessingOf(payouts, o), NewestFirst) && newest == Sort(TerminalOf(payouts, o), NewestFirst)
    ensures NoDuplicates(processing + Take(newest, limit))
  {
    PayoutsAreDistinct(payouts);
    FilterKeepsDistinct(payouts, (p: M.Payout) => p.account.owner == o && p.status.PROCESSING?);
    FilterKeepsDistinct(payouts, (p: M.Payout) => p.account.owner == o && !p.status.PROCESSING?);
    SameElements(ProcessingOf(payouts, o), processing);
    SameElements(TerminalOf(payouts, o), newest);
    var shown := Take(newest, limit);
    var all := processing + shown;
    forall i, j | 0 <= i < j < |all| ensures all[i] != all[j] {
      if i < |processing| <= j {
        assert all[i] in processing && all[j] in newest;
      }
    }
  }

  // ----- activity -----

  datatype ActivityState = EXPECTED | EARNED | NOT_EARNED | REVERSED

  datatype ActivityView = ActivityView(conversion: B.Conversion, appointment: B.Appointment, state: ActivityState, entries: seq<M.LedgerEntry>)

  function StateFor(a: B.Appointment, entries: seq<M.LedgerEntry>): (r: ActivityState) {
    if exists e :: e in entries && e.entryType.COMMISSION_REVERSAL? then REVERSED
    else if exists e :: e in entries && e.entryType.COMMISSION_EARNED? then EARNED
    else if a.status.CANCELLED? || a.status.NO_SHOW? then NOT_EARNED
    else EXPECTED
  }

  function EntriesOf(rows: seq<M.LedgerEntry>, conversion: Id): (r: seq<M.LedgerEntry>) {
    Filter(rows, (e: M.LedgerEntry) => e.conversionId == Some(conversion))
  }

  /** A conversion is listed if its appointment, service and referred customer were all found. */
  predicate Listed(cv: B.Conversion, appointments: map<Id, B.Appointment>, services: set<Id>, customers: set<Id>) {
    cv.appointment in appointments && cv.service in services && cv.referredCustomer in customers
  }

  function Activity(cv: B.Conversion, appointments: map<Id, B.Appointment>, rows: seq<M.LedgerEntry>): (r: ActivityView)
    requires cv.appointment in appointments
  {
    var entries := EntriesOf(rows, cv.id);
    ActivityView(cv, appointments[cv.appointment], StateFor(appointments[cv.appointment], entries), entries)
  }

  function Activities(page: seq<B.Conversion>, appointments: map<Id, B.Appointment>, services: set<Id>, customers: set<Id>,
                      rows: seq<M.LedgerEntry>): (r: seq<ActivityView>)
  {
    if |page| == 0 then []
    else
      var last := page[|page| - 1];
      Activities(page[..|page| - 1], appointments, services, customers, rows) +
      if Listed(last, appointments, services, customers) then [Activity(last, appointments, rows)] else []
  }

  /** One view for each conversion of the page whose appointment, service and customer were found, in the order of the page. */
  lemma {:induction false} ActivitiesFollowThePage(page: seq<B.Conversion>, appointments: map<Id, B.Appointment>, services: set<Id>,
                                                   customers: set<Id>, rows: seq<M.LedgerEntry>)
    ensures var views := Activities(page, appointments, services, customers, rows);
            var shown := Filter(page, (cv: B.Conversion) =>
              cv.appointment in appointments && cv.service in services && cv.referredCustomer in customers);
            |views| == |shown| && forall i :: 0 <= i < |views| ==>
              shown[i].appointment in appointments && views[i] == Activity(shown[i], appointments, rows)
  {
    if |page| > 0 {
      ActivitiesFollowThePage(page[..|page| - 1], appointments, services, customers, rows);
    }
  }

  /** One pass over the ledger rows collects the entries of every conversion, in the order of the rows. */
  method GroupByConversion(rows: seq<M.LedgerEntry>) returns (ledgerByConversion: map<Id, seq<M.LedgerEntry>>)
    ensures forall k :: EntriesIn(ledgerByConversion, k) == EntriesOf(rows, k)
  {
    ledgerByConversion := map[];
    for i := 0 to |rows|
      invariant forall k :: EntriesIn(ledgerByConversion, k) == EntriesOf(rows[..i], k)
    {
      var entry := rows[i];
      forall k: Id ensures EntriesOf(rows[..i + 1], k) == EntriesOf(rows[..i], k) + if entry.conversionId == Some(k) then [entry] else [] {
        assert rows[..i + 1][..i] == rows[..i];
      }
      if entry.conversionId.Some? {
        var k := entry.conversionId.value;
        ledgerByConversion := ledgerByConversion[k := EntriesIn(ledgerByConversion, k) + [entry]];
      }
    }
    assert rows[..|rows|] == rows;
  }

  function EntriesIn(groups: map<Id, seq<M.LedgerEntry>>, conversion: Id): (r: seq<M.LedgerEntry>) {
    if conversion in groups then groups[conversion] else []
  }

  /** One view per conversion that can be shown, in the order of the page. */
  method ActivityViews(page: seq<B.Conversion>, appointments: map<Id, B.Appointment>, services: set<Id>, customers: set<Id>,
                       rows: seq<M.LedgerEntry>) returns (views: seq<ActivityView>)
    ensures views == Activities(page, appointments, services, customers, rows)
  {
    var ledgerByConversion := GroupByConversion(rows);
    views := [];
    for i := 0 to |page|
      invariant views == Activities(page[..i], appointments, services, customers, rows)
    {
      var cv := page[i];
      assert page[..i + 1][..i] == page[..i];
      if cv.appointment in appointments && cv.service in services && cv.referredCustomer in customers {
        var entries := EntriesIn(ledgerByConversion, cv.id);
        var a := appointments[cv.appointment];
        views := views + [ActivityView(cv, a, StateFor(a, entries), entries)];
      }
    }
    assert page[..|page|] == page;
  }

  /** The commission rows of one affiliate's conversions, however the query orders them. */
  ghost predicate ActivityRows(ledger: seq<M.LedgerEntry>, o: M.Owner, conversions: set<Id>, rows: seq<M.LedgerEntry>) {
    forall e :: e in rows <==>
      && e in ledger && e.account.owner == o && e.conversionId.Some? && e.conversionId.value in conversions
      && (e.entryType.COMMISSION_EARNED? || e.entryType.COMMISSION_REVERSAL?)
  }

  ghost predicate CreditReversed(ledger: seq<M.LedgerEntry>, cv: B.Conversion) {
    exists x, credit :: x in ledger && credit in ledger && CreditFor(credit, cv) && MS.Reverses(x, credit)
  }

  /**
   In every reachable state the listed state of a conversion is the truth about its appointment and its credit:
   expected while the appointment is open, not earned once it is cancelled or missed, earned or reversed once it is
   completed, and reversed exactly when the conversion's credit has been debited back.
   */
  lemma ActivityTellsTheTruth(cat: B.Catalog, states: seq<State>, steps: seq<Step>, i: nat, o: M.Owner, conversions: set<Id>,
                              rows: seq<M.LedgerEntry>, cv: B.Conversion)
    requires Run(cat, states, steps) && i < |states|
    requires ActivityRows(states[i].db.money.ledger, o, conversions, rows)
    requires cv in states[i].db.bookings.conversions && cv.account.owner == o && cv.id in conversions
    ensures cv.appointment in states[i].db.bookings.appointments
    ensures var v := Activity(cv, states[i].db.bookings.appointments, rows);
            && v.conversion == cv && v.appointment == states[i].db.bookings.appointments[cv.appointment]
            && (forall e :: e in v.entries <==> e in rows && e.conversionId == Some(cv.id))
            && (v.state.EXPECTED? <==> B.Live(v.appointment.status))
            && (v.state.NOT_EARNED? <==> v.appointment.status.CANCELLED? || v.appointment.status.NO_SHOW?)
            && (v.state.EARNED? || v.state.REVERSED? <==> v.appointment.status.COMPLETED?)
            && (v.state.REVERSED? <==> CreditReversed(states[i].db.money.ledger, cv))
  {
    EveryStateIsSound(cat, states, steps, i);
    hide Run, Sound, ActivityRows, Activity, CreditReversed;
    SoundActivity(cat, states[i].db, o, conversions, rows, cv);
  }

  lemma SoundActivity(cat: B.Catalog, db: Db, o: M.Owner, conversions: set<Id>, rows: seq<M.LedgerEntry>, cv: B.Conversion)
    requires Sound(cat, db) && ActivityRows(db.money.ledger, o, conversions, rows)
    requires cv in db.bookings.conversions && cv.account.owner == o && cv.id in conversions
    ensures cv.appointment in db.bookings.appointments
    ensures var v := Activity(cv, db.bookings.appointments, rows);
            && v.conversion == cv && v.appointment == db.bookings.appointments[cv.appointment]
            && (forall e :: e in v.entries <==> e in rows && e.conversionId == Some(cv.id))
            && (v.state.EXPECTED? <==> B.Live(v.appointment.status))
            && (v.state.NOT_EARNED? <==> v.appointment.status.CANCELLED? || v.appointment.status.NO_SHOW?)
            && (v.state.EARNED? || v.state.REVERSED? <==> v.appointment.status.COMPLETED?)
            && (v.state.REVERSED? <==> CreditReversed(db.money.ledger, cv))
  {
    hide Sound, ActivityRows;
    assert forall e :: e in EntriesOf(rows, cv.id) <==> e in rows && e.conversionId == Some(cv.id);
    CreditMeansCompleted(cat, db, cv);
    ReversalMeansReversed(cat, db, cv);
    EntriesAreAll(cat, db, o, conversions, rows, cv);
    hide HasRow, CreditReversed, AllRowsOf, EntriesOf;
    StateFollowsRows(db.money.ledger, EntriesOf(rows, cv.id), cv, db.bookings.appointments[cv.appointment]);
  }

  /** Nothing of a conversion is missing from its entries on the page. */
  lemma EntriesAreAll(cat: B.Catalog, db: Db, o: M.Owner, conversions: set<Id>, rows: seq<M.LedgerEntry>, cv: B.Conversion)
    requires Sound(cat, db) && ActivityRows(db.money.ledger, o, conversions, rows)
    requires cv in db.bookings.conversions && cv.account.owner == o && cv.id in conversions
    ensures AllRowsOf(db.money.ledger, cv, EntriesOf(rows, cv.id))
  {
    var entries := EntriesOf(rows, cv.id);
    forall e ensures e in entries <==> IsRowOf(db.money.ledger, cv, e) {
      if IsRowOf(db.money.ledger, cv, e) {
        ConversionRowsShareAccount(cat, db, cv, e);
      }
    }
  }

  ghost predicate IsRowOf(ledger: seq<M.LedgerEntry>, cv: B.Conversion, e: M.LedgerEntry) {
    e in ledger && e.conversionId == Some(cv.id) && !e.entryType.PAYOUT_PAID?
  }

  ghost predicate AllRowsOf(ledger: seq<M.LedgerEntry>, cv: B.Conversion, entries: seq<M.LedgerEntry>) {
    forall e :: e in entries <==> IsRowOf(ledger, cv, e)
  }

  lemma StateFollowsRows(ledger: seq<M.LedgerEntry>, entries: seq<M.LedgerEntry>, cv: B.Conversion, a: B.Appointment)
    requires AllRowsOf(ledger, cv, entries)
    ensures StateFor(a, entries).REVERSED? <==> HasRow(ledger, cv, M.COMMISSION_REVERSAL)
    ensures StateFor(a, entries).EARNED? <==> HasRow(ledger, cv, M.COMMISSION_EARNED) && !HasRow(ledger, cv, M.COMMISSION_REVERSAL)
  {
    forall t: M.EntryType | !t.PAYOUT_PAID?
      ensures HasRow(ledger, cv, t) <==> exists e :: e in entries && e.entryType == t
    {
      assert forall e :: e in entries && e.entryType == t <==> IsRowOf(ledger, cv, e) && e.entryType == t;
    }
    assert HasRow(ledger, cv, M.COMMISSION_REVERSAL) <==> exists e :: e in entries && e.entryType == M.COMMISSION_REVERSAL;
    assert HasRow(ledger, cv, M.COMMISSION_EARNED) <==> exists e :: e in entries && e.entryType == M.COMMISSION_EARNED;
  }

  ghost predicate HasRow(ledger: seq<M.LedgerEntry>, cv: B.Conversion, t: M.EntryType) {
    exists e :: e in ledger && e.conversionId == Some(cv.id) && e.entryType == t
  }

  lemma SameConversion(b: B.Bookings, x: B.Conversion, y: B.Conversion)
    requires B.ConversionsUnique(b.conversions) && x in b.conversions && y in b.conversions && x.id == y.id
    ensures x == y
  {
    forall i, j | 0 <= i < j < |b.conversions| ensures b.conversions[i].id != b.conversions[j].id {
      assert B.ConversionsCoexist(b.conversions[i], b.conversions[j]);
    }
  }

  /** The credit with a conversion's id is that conversion's credit. */
  lemma CreditIsOfConversion(cat: B.Catalog, db: Db, cv: B.Conversion, e: M.LedgerEntry)
    requires Sound(cat, db) && cv in db.bookings.conversions
    requires e in db.money.ledger && e.conversionId == Some(cv.id) && e.entryType.COMMISSION_EARNED?
    ensures CreditFor(e, cv)
  {
    assert CreditHasConversion(e, db.bookings.conversions);
    var other :| other in db.bookings.conversions && CreditFor(e, other);
    SameConversion(db.bookings, cv, other);
  }

  lemma ConversionRowsShareAccount(cat: B.Catalog, db: Db, cv: B.Conversion, e: M.LedgerEntry)
    requires Sound(cat, db) && cv in db.bookings.conversions
    requires e in db.money.ledger && e.conversionId == Some(cv.id) && !e.entryType.PAYOUT_PAID?
    ensures e.account == cv.account
  {
    if e.entryType.COMMISSION_EARNED? {
      CreditIsOfConversion(cat, db, cv, e);
    } else {
      var credit :| credit in db.money.ledger && MS.Reverses(e, credit);
      CreditIsOfConversion(cat, db, cv, credit);
    }
  }

  lemma {:induction false} CreditsFound(ledger: seq<M.LedgerEntry>, cv: B.Conversion)
    ensures Credits(ledger, cv.id) > 0 <==> HasRow(ledger, cv, M.COMMISSION_EARNED)
  {
    if |ledger| > 0 {
      var init, last := ledger[..|ledger| - 1], ledger[|ledger| - 1];
      CreditsFound(init, cv);
      assert ledger == init + [last];
      assert HasRow(ledger, cv, M.COMMISSION_EARNED) <==>
             HasRow(init, cv, M.COMMISSION_EARNED) || (last.conversionId == Some(cv.id) && last.entryType.COMMISSION_EARNED?);
    }
  }

  lemma CreditMeansCompleted(cat: B.Catalog, db: Db, cv: B.Conversion)
    requires Sound(cat, db) && cv in db.bookings.conversions
    ensures cv.appointment in db.bookings.appointments
    ensures HasRow(db.money.ledger, cv, M.COMMISSION_EARNED) <==> db.bookings.appointments[cv.appointment].status.COMPLETED?
  {
    CreditsFound(db.money.ledger, cv);
  }

  lemma ReversalMeansReversed(cat: B.Catalog, db: Db, cv: B.Conversion)
    requires Sound(cat, db) && cv in db.bookings.conversions
    ensures HasRow(db.money.ledger, cv, M.COMMISSION_REVERSAL) <==> CreditReversed(db.money.ledger, cv)
    ensures HasRow(db.money.ledger, cv, M.COMMISSION_REVERSAL) ==> HasRow(db.money.ledger, cv, M.COMMISSION_EARNED)
  {
    var ledger := db.money.ledger;
    if HasRow(ledger, cv, M.COMMISSION_REVERSAL) {
      var e :| e in ledger && e.conversionId == Some(cv.id) && e.entryType.COMMISSION_REVERSAL?;
      var credit :| credit in ledger && MS.Reverses(e, credit);
      CreditIsOfConversion(cat, db, cv, credit);
    }
  }
}
