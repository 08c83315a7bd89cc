/** Cursor paging of the customer search: following the cursors lists every match once, in order. */
module CustomerPager {
  import opened Wrappers
  import opened Sequences
  import opened Text

  type Id = nat

  datatype Customer = Customer(id: Id, tenant: Id, fullName: string, phone: Option<string>, email: Option<string>)

  /** The client may leave out the query, the cursor and the limit. */
  datatype Query = Query(tenant: Id, text: Option<string>, limit: Option<nat>)

  datatype Page = Page(items: seq<Customer>, hasMore: bool, nextCursor: Option<Id>)

  const DEFAULT_LIMIT := 50

  /** What the request validation lets through. */
  predicate ValidQuery(q: Query) { q.limit.Some? ==> 1 <= q.limit.value <= 50 }

  function LimitOf(q: Query): (r: nat) {
    if q.limit.Some? then q.limit.value else DEFAULT_LIMIT
  }

  /** A term is looked for literally: in the name whatever its case, in the phone number as it is. */
  predicate Matches(c: Customer, q: Query) {
    && c.tenant == q.tenant
    && var term := if q.text.Some? then Trim(q.text.value) else "";
       term != "" ==> Contains(Lower(c.fullName), Lower(term)) || (c.phone.Some? && Contains(c.phone.value, term))
  }

  predicate ById(a: Customer, b: Customer) { a.id <= b.id }

  predicate Beyond(c: Customer, q: Query, cursor: Option<Id>) {
    Matches(c, q) && (cursor.Some? ==> c.id > cursor.value)
  }

  function Found(customers: seq<Customer>, q: Query, cursor: Option<Id>): (r: seq<Customer>)
    ensures forall c :: c in r <==> c in customers && Beyond(c, q, cursor)
  {
    Filter(customers, (c: Customer) => Beyond(c, q, cursor))
  }

  /** Everything a query selects beyond a cursor, in id order. */
  function Selected(customers: seq<Customer>, q: Query, cursor: Option<Id>): (r: seq<Customer>) {
    Sort(Found(customers, q, cursor), ById)
  }

  /** Reads one more than the limit to see whether there is a next page. */
  function Search(customers: seq<Customer>, q: Query, cursor: Option<Id>): (r: Page)
    requires ValidQuery(q)
  {
    var limit := LimitOf(q);
    var found := Take(Selected(customers, q, cursor), limit + 1);
    var page := Take(found, limit);
    var hasMore := |found| > limit;
    Page(page, hasMore, if hasMore then Some(page[|page| - 1].id) else None)
  }

  // ----- the order of the matches -----

  ghost predicate IdsUnique(customers: seq<Customer>) {
    forall i, j :: 0 <= i < j < |customers| ==> customers[i].id != customers[j].id
  }

  ghost predicate Ascending(customers: seq<Customer>) {
    forall i, j :: 0 <= i < j < |customers| ==> customers[i].id < customers[j].id
  }

  lemma SelectedIsExact(customers: seq<Customer>, q: Query, cursor: Option<Id>)
    requires IdsUnique(customers)
    ensures Ascending(Selected(customers, q, cursor))
    ensures forall c :: c in Selected(customers, q, cursor) <==> c in customers && Beyond(c, q, cursor)
  {
    hide Beyond, Filter, Sort;
    var found, sorted := Found(customers, q, cursor), Selected(customers, q, cursor);
    FoundAreDistinct(customers, q, cursor);
    SameElements(found, sorted);
    ByIdIsTotal();
    SortIsSorted(found, ById);
    hide Found, Selected;
    forall i, j | 0 <= i < j < |sorted| ensures sorted[i].id < sorted[j].id {
      assert sorted[i] != sorted[j] && sorted[i] in customers && sorted[j] in customers;
    }
  }

  lemma ByIdIsTotal()
    ensures TotalPreorder(ById)
  {
  }

  lemma FoundAreDistinct(customers: seq<Customer>, q: Query, cursor: Option<Id>)
    requires IdsUnique(customers)
    ensures NoDuplicates(Found(customers, q, cursor))
  {
    hide Beyond;
    FilterKeepsDistinct(customers, (c: Customer) => Beyond(c, q, cursor));
  }

  /** Ascending lists with the same customers are the same list. */
  lemma {:induction false} AscendingIsUnique(xs: seq<Customer>, ys: seq<Customer>)
    requires Ascending(xs) && Ascending(ys) && forall c :: c in xs <==> c in ys
    ensures xs == ys
  {
    if xs == [] {
      SomeoneIsListed(ys);
    } else {
      assert xs[0] in ys;
      assert ys != [] && ys[0] in xs;
      assert xs[0] == ys[0];
      forall c ensures c in xs[1..] <==> c in ys[1..] {
        assert c in xs <==> c == xs[0] || c in xs[1..];
        assert c in ys <==> c == ys[0] || c in ys[1..];
      }
      AscendingIsUnique(xs[1..], ys[1..]);
    }
  }

  lemma SomeoneIsListed(ys: seq<Customer>)
    ensures ys != [] ==> exists c :: c in ys
  {
    if ys != [] {
      assert ys[0] in ys;
    }
  }

  /** The next cursor resumes exactly where the page ended. */
  lemma CursorResumes(customers: seq<Customer>, q: Query, cursor: Option<Id>)
    requires IdsUnique(customers) && ValidQuery(q) && Search(customers, q, cursor).hasMore
    ensures var all, page := Selected(customers, q, cursor), Search(customers, q, cursor);
            && |page.items| == LimitOf(q) < |all| && page.nextCursor.Some?
            && page.items == all[..LimitOf(q)]
            && Selected(customers, q, page.nextCursor) == all[LimitOf(q)..]
  {
    hide Selected, Matches;
    var all, page, limit := Selected(customers, q, cursor), Search(customers, q, cursor), LimitOf(q);
    assert Take(Take(all, limit + 1), limit) == all[..limit];
    SelectedIsExact(customers, q, cursor);
    SelectedIsExact(customers, q, page.nextCursor);
    var rest := Selected(customers, q, page.nextCursor);
    var last := all[limit - 1];
    assert last in all && page.nextCursor == Some(last.id);
    forall c ensures c in rest <==> c in all[limit..] {
      assert c in rest <==> c in all && c.id > last.id;
      RestIsBeyond(all, limit, c);
    }
    AscendingIsUnique(rest, all[limit..]);
  }

  lemma RestIsBeyond(all: seq<Customer>, limit: nat, c: Customer)
    requires Ascending(all) && 0 < limit <= |all|
    ensures c in all[limit..] <==> c in all && c.id > all[limit - 1].id
  {
    if c in all && c.id > all[limit - 1].id {
      var i :| 0 <= i < |all| && all[i] == c;
      assert all[limit..][i - limit] == c;
    }
  }

  // ----- following the cursors -----

  /** The pages a client sees who follows every cursor over an unchanged collection. */
  ghost function Pages(customers: seq<Customer>, q: Query, cursor: Option<Id>): (r: seq<Page>)
    requires IdsUnique(customers) && ValidQuery(q)
    decreases |Selected(customers, q, cursor)|
  {
    var page := Search(customers, q, cursor);
    if !page.hasMore then [page]
    else
      CursorResumes(customers, q, cursor);
      [page] + Pages(customers, q, page.nextCursor)
  }

  function Items(pages: seq<Page>): (r: seq<Customer>) {
    if |pages| == 0 then [] else pages[0].items + Items(pages[1..])
  }

  /** The pages come to an end, are all full but the last, and together are every match once, in id order. */
  lemma {:induction false} PagesListEveryMatchOnce(customers: seq<Customer>, q: Query, cursor: Option<Id>)
    requires IdsUnique(customers) && ValidQuery(q)
    ensures var pages := Pages(customers, q, cursor);
            && Items(pages) == Selected(customers, q, cursor)
            && |pages| > 0 && pages[|pages| - 1].nextCursor.None?
            && forall i :: 0 <= i < |pages| - 1 ==>
                 pages[i].nextCursor.Some? && |pages[i].items| == if q.limit.Some? then q.limit.value else 50
    decreases |Selected(customers, q, cursor)|
  {
    hide Selected, Search, Items, IdsUnique;
    var page, pages := Search(customers, q, cursor), Pages(customers, q, cursor);
    if page.hasMore {
      CursorResumes(customers, q, cursor);
      var rest := Pages(customers, q, page.nextCursor);
      PagesListEveryMatchOnce(customers, q, page.nextCursor);
      assert pages == [page] + rest;
      ItemsOfFirst(page, rest);
      forall i | 0 <= i < |pages| - 1 ensures pages[i].nextCursor.Some? && |pages[i].items| == LimitOf(q) {
        assert i > 0 ==> pages[i] == rest[i - 1];
      }
    } else {
      LastPageIsTheRest(customers, q, cursor);
      assert pages == [page] + [];
      ItemsOfFirst(page, []);
      NoItems();
    }
  }

  lemma NoItems()
    ensures Items([]) == []
  {
  }

  lemma ItemsOfFirst(page: Page, rest: seq<Page>)
    ensures Items([page] + rest) == page.items + Items(rest)
  {
    assert ([page] + rest)[1..] == rest;
  }

  lemma LastPageIsTheRest(customers: seq<Customer>, q: Query, cursor: Option<Id>)
    requires ValidQuery(q) && !Search(customers, q, cursor).hasMore
    ensures Search(customers, q, cursor).items == Selected(customers, q, cursor) && Search(customers, q, cursor).nextCursor.None?
  {
    hide Selected;
  }

  predicate StandsAt(text: string, word: string, at: int) {
    0 <= at <= |text| - |word| && text[at..at + |word|] == word
  }

  predicate StandsInAnyCaseAt(text: string, word: string, at: int) {
    0 <= at <= |text| - |word| && forall j :: 0 <= j < |word| ==> LowerChar(text[at + j]) == LowerChar(word[j])
  }

  /** The word occurs literally. */
  ghost predicate Occurs(text: string, word: string) {
    exists at :: StandsAt(text, word, at)
  }

  /** The word occurs whatever the case of its letters. */
  ghost predicate OccursInAnyCase(text: string, word: string) {
    exists at :: StandsInAnyCaseAt(text, word, at)
  }

  lemma MatchesLiterally(c: Customer, q: Query)
    ensures Matches(c, q) <==>
            && c.tenant == q.tenant
            && (q.text.None? || Trim(q.text.value) == "" || OccursInAnyCase(c.fullName, Trim(q.text.value)) ||
                (c.phone.Some? && Occurs(c.phone.value, Trim(q.text.value))))
  {
    if q.text.Some? {
      ContainsInAnyCase(c.fullName, Trim(q.text.value));
      if c.phone.Some? {
        ContainsLiterally(c.phone.value, Trim(q.text.value));
      }
    }
    hide Trim, Contains, Occurs, OccursInAnyCase, Lower;
  }

  lemma ContainsLiterally(text: string, word: string)
    ensures Contains(text, word) <==> Occurs(text, word)
  {
    assert forall at :: OccursAt(text, word, at) <==> StandsAt(text, word, at);
  }

  lemma ContainsInAnyCase(text: string, word: string)
    ensures Contains(Lower(text), Lower(word)) <==> OccursInAnyCase(text, word)
  {
    forall at ensures OccursAt(Lower(text), Lower(word), at) <==> StandsInAnyCaseAt(text, word, at) {
      if 0 <= at <= |text| - |word| {
        LoweredOccursAt(text, word, at);
      }
    }
  }

  lemma LoweredOccursAt(text: string, word: string, at: int)
    requires 0 <= at <= |text| - |word|
    ensures OccursAt(Lower(text), Lower(word), at) <==> StandsInAnyCaseAt(text, word, at)
  {
    var lowered := Lower(text)[at..at + |word|];
    assert forall j :: 0 <= j < |word| ==> lowered[j] == LowerChar(text[at + j]) && Lower(word)[j] == LowerChar(word[j]);
    if StandsInAnyCaseAt(text, word, at) {
      assert lowered == Lower(word);
    }
  }

  /**
   The whole listing is in id order and holds exactly the tenant's customers whose name contains the term in any case, or
   whose phone number contains it literally; without a term it holds all of them.
   */
  lemma PagingIsComplete(customers: seq<Customer>, q: Query)
    requires IdsUnique(customers) && ValidQuery(q)
    ensures var listed := Items(Pages(customers, q, None));
            && (forall i, j :: 0 <= i < j < |listed| ==> listed[i].id < listed[j].id)
            && forall c :: c in listed <==>
                 && c in customers && c.tenant == q.tenant
                 && (q.text.None? || Trim(q.text.value) == "" || OccursInAnyCase(c.fullName, Trim(q.text.value)) ||
                     (c.phone.Some? && Occurs(c.phone.value, Trim(q.text.value))))
  {
    hide Selected, Matches, Occurs, OccursInAnyCase, Trim;
    PagesListEveryMatchOnce(customers, q, None);
    SelectedIsExact(customers, q, None);
    forall c: Customer
      ensures Matches(c, q) <==>
              && c.tenant == q.tenant
              && (q.text.None? || Trim(q.text.value) == "" || OccursInAnyCase(c.fullName, Trim(q.text.value)) ||
                  (c.phone.Some? && Occurs(c.phone.value, Trim(q.text.value))))
    {
      MatchesLiterally(c, q);
    }
  }
}
