/** The operator's portfolio: pages of a fixed listing, and that they partition it. */
module StatusPages {
  import opened Basics
  import opened StatusModel
  import opened StatusRefinement
  import opened StatusIngest

  const MAX_PAGE := 200

  /** What the opaque cursor of an organization is the digest of. */
  datatype PageKey = PageKey(org: string, displayName: string)

  datatype Page = Page(items: seq<Overview>, next: Option<PageKey>)

  function KeyOf(o: Overview): PageKey { PageKey(o.org, o.displayName) }

  predicate IsShown(o: Overview, state: Option<AggregateState>) {
    o.binding.Some? && (state == None || state == Some(o.aggregate))
  }

  function WithState(overviews: seq<Overview>, state: Option<AggregateState>): seq<Overview> {
    if overviews == [] then []
    else (if IsShown(overviews[0], state) then [overviews[0]] else []) + WithState(overviews[1..], state)
  }

  type Arrangement = (Overview, Overview) -> bool

  function PutInto(o: Overview, sorted: seq<Overview>, before: Arrangement): (r: seq<Overview>)
    ensures multiset(r) == multiset([o]) + multiset(sorted)
  {
    if sorted == [] || !before(sorted[0], o) then [o] + sorted
    else
      assert sorted == [sorted[0]] + sorted[1..];
      [sorted[0]] + PutInto(o, sorted[1..], before)
  }

  /** The listing in the order of the host's comparison of names: a stable insertion. */
  function Arranged(overviews: seq<Overview>, before: Arrangement): (r: seq<Overview>)
    ensures multiset(r) == multiset(overviews)
  {
    if overviews == [] then []
    else
      assert overviews == [overviews[0]] + overviews[1..];
      PutInto(overviews[0], Arranged(overviews[1..], before), before)
  }

  /** One more than the position of the first organization with this key, or 0. */
  function After(records: seq<Overview>, key: PageKey): (r: nat)
    ensures r <= |records|
    ensures r > 0 ==> KeyOf(records[r - 1]) == key
    ensures r == 0 ==> forall i | 0 <= i < |records| :: KeyOf(records[i]) != key
  {
    if records == [] then 0
    else if KeyOf(records[0]) == key then 1
    else if After(records[1..], key) == 0 then 0 else 1 + After(records[1..], key)
  }

  function Min(a: nat, b: nat): nat { if a < b then a else b }

  /** The page of the portfolio that a cursor asks for, out of the filtered and arranged listing. */
  function PageOf(records: seq<Overview>, limit: int, cursor: Option<PageKey>): Result<Page, Fault> {
    if limit < 1 || limit > MAX_PAGE then Err(QUERY_REFUSED)
    else
      var start := if cursor.Some? then After(records, cursor.value) else 0;
      if cursor.Some? && start == 0 then Err(CURSOR_REFUSED)
      else
        var items := records[start..Min(start + limit, |records|)];
        Ok(Page(items, if start + |items| < |records| && items != [] then Some(KeyOf(items[|items| - 1])) else None))
  }

  // ---------- following the cursors ----------

  predicate DistinctOrgs(overviews: seq<Overview>) {
    forall i, j | 0 <= i < j < |overviews| :: overviews[i].org != overviews[j].org
  }

  /** Where the page of a cursor starts. */
  function Start(records: seq<Overview>, cursor: Option<PageKey>): nat {
    if cursor.Some? then After(records, cursor.value) else 0
  }

  lemma {:induction false} PageIsNext(records: seq<Overview>, limit: int, cursor: Option<PageKey>)
    requires DistinctOrgs(records) && 1 <= limit <= MAX_PAGE && (cursor.Some? ==> After(records, cursor.value) > 0)
    ensures PageOf(records, limit, cursor).Ok?
    ensures var page := PageOf(records, limit, cursor).value; var start := Start(records, cursor);
      && start <= |records| && |page.items| <= limit
      && page.items == records[start..start + |page.items|]
      && match page.next
         case None => start + |page.items| == |records|
         case Some(key) => |page.items| == limit && After(records, key) == start + |page.items|
  {
    var page := PageOf(records, limit, cursor).value;
    var start := Start(records, cursor);
    if page.next.Some? {
      var last := start + |page.items| - 1;
      var found := After(records, page.next.value);
      assert page.items[|page.items| - 1] == records[last];
      assert found > 0 && KeyOf(records[found - 1]) == KeyOf(records[last]);
      assert found - 1 == last;
    }
  }

  /** The pages that a client is given who starts at `cursor` and follows every next cursor. */
  function Pages(records: seq<Overview>, limit: int, cursor: Option<PageKey>): seq<seq<Overview>>
    requires DistinctOrgs(records) && 1 <= limit <= MAX_PAGE && (cursor.Some? ==> After(records, cursor.value) > 0)
    decreases |records| - Start(records, cursor)
  {
    PageIsNext(records, limit, cursor);
    var page := PageOf(records, limit, cursor).value;
    [page.items] + if page.next.None? then [] else Pages(records, limit, page.next)
  }

  function Joined(pages: seq<seq<Overview>>): seq<Overview> {
    if pages == [] then [] else pages[0] + Joined(pages[1..])
  }

  lemma JoinedWithFirst(page: seq<Overview>, rest: seq<seq<Overview>>)
    ensures Joined([page] + rest) == page + Joined(rest)
  {
    assert ([page] + rest)[1..] == rest;
  }

  lemma SlicesJoin(records: seq<Overview>, start: nat, end: nat)
    requires start <= end <= |records|
    ensures records[start..end] + records[end..] == records[start..]
  {
  }

  /** One page further, in the terms of the page and of what is left. */
  lemma PagesUnfold(
    records: seq<Overview>, limit: int, cursor: Option<PageKey>)
    returns (page: Page, rest: seq<seq<Overview>>, end: nat)
    requires DistinctOrgs(records) && 1 <= limit <= MAX_PAGE && (cursor.Some? ==> After(records, cursor.value) > 0)
    ensures Start(records, cursor) <= end <= |records| && page.items == records[Start(records, cursor)..end]
    ensures Pages(records, limit, cursor) == [page.items] + rest && PageOf(records, limit, cursor) == Ok(page)
    ensures match page.next
      case None => rest == [] && end == |records|
      case Some(key) => After(records, key) == end > Start(records, cursor) && rest == Pages(records, limit, page.next)
  {
    PageIsNext(records, limit, cursor);
    page := PageOf(records, limit, cursor).value;
    end := Start(records, cursor) + |page.items|;
    rest := if page.next.None? then [] else Pages(records, limit, page.next);
  }

  lemma {:induction false} PagesJoinUp(records: seq<Overview>, limit: int, cursor: Option<PageKey>)
    requires DistinctOrgs(records) && 1 <= limit <= MAX_PAGE && (cursor.Some? ==> After(records, cursor.value) > 0)
    ensures Joined(Pages(records, limit, cursor)) == records[Start(records, cursor)..]
    decreases |records| - Start(records, cursor)
  {
    var page, rest, end := PagesUnfold(records, limit, cursor);
    JoinedWithFirst(page.items, rest);
    if page.next.Some? {
      PagesJoinUp(records, limit, page.next);
    }
    SlicesJoin(records, Start(records, cursor), end);
  }

  lemma {:induction false} StatesKeepDistinct(overviews: seq<Overview>, state: Option<AggregateState>)
    requires DistinctOrgs(overviews)
    ensures DistinctOrgs(WithState(overviews, state))
    ensures forall o :: o in WithState(overviews, state) <==> o in overviews && IsShown(o, state)
  {
    if overviews != [] {
      StatesKeepDistinct(overviews[1..], state);
      assert overviews == [overviews[0]] + overviews[1..];
      var rest := WithState(overviews[1..], state);
      forall k | 0 <= k < |rest| ensures rest[k].org != overviews[0].org {
        assert rest[k] in rest;
      }
    }
  }

  lemma {:induction false} ArrangingKeepsDistinct(overviews: seq<Overview>, before: Arrangement)
    requires DistinctOrgs(overviews)
    ensures DistinctOrgs(Arranged(overviews, before))
  {
    if overviews != [] {
      ArrangingKeepsDistinct(overviews[1..], before);
      PuttingKeepsDistinct(overviews[0], Arranged(overviews[1..], before), before, overviews[1..]);
    }
  }

  lemma {:induction false} PuttingKeepsDistinct(
    o: Overview, sorted: seq<Overview>, before: Arrangement, others: seq<Overview>)
    requires DistinctOrgs(sorted) && multiset(sorted) == multiset(others) && forall i | 0 <= i < |others| ::
      others[i].org != o.org
    ensures DistinctOrgs(PutInto(o, sorted, before))
  {
    forall k | 0 <= k < |sorted| ensures sorted[k].org != o.org {
      assert sorted[k] in multiset(others);
    }
    PutKeepsDistinct(o, sorted, before);
  }

  lemma {:induction false} PutKeepsDistinct(o: Overview, sorted: seq<Overview>, before: Arrangement)
    requires DistinctOrgs(sorted) && forall k | 0 <= k < |sorted| :: sorted[k].org != o.org
    ensures DistinctOrgs(PutInto(o, sorted, before))
  {
    if sorted != [] && before(sorted[0], o) {
      PutKeepsDistinct(o, sorted[1..], before);
      var rest := PutInto(o, sorted[1..], before);
      assert sorted == [sorted[0]] + sorted[1..];
      forall k | 0 <= k < |rest| ensures rest[k].org != sorted[0].org {
        assert rest[k] in multiset(rest);
        assert rest[k] in multiset([o]) + multiset(sorted[1..]);
      }
    }
  }

  // ---------- the order of the listing ----------

  /** A comparison that a host may sort by: strict, transitive, and total up to ties. */
  ghost predicate IsOrdering(before: Arrangement) {
    && (forall a, b, c :: before(a, b) && before(b, c) ==> before(a, c))
    && (forall a, b, c :: !before(a, b) && !before(b, c) ==> !before(a, c))
    && (forall a :: !before(a, a))
  }

  predicate InOrder(records: seq<Overview>, before: Arrangement) {
    forall i, j | 0 <= i < j < |records| :: !before(records[j], records[i])
  }

  lemma {:induction false} PuttingKeepsOrder(o: Overview, sorted: seq<Overview>, before: Arrangement)
    requires IsOrdering(before) && InOrder(sorted, before)
    ensures InOrder(PutInto(o, sorted, before), before)
  {
    if sorted != [] && before(sorted[0], o) {
      var rest := PutInto(o, sorted[1..], before);
      PuttingKeepsOrder(o, sorted[1..], before);
      forall k | 0 <= k < |rest| ensures !before(rest[k], sorted[0]) {
        assert rest[k] in multiset(rest);
        assert rest[k] in multiset([o]) + multiset(sorted[1..]);
      }
    }
  }

  lemma {:induction false} ArrangingOrders(overviews: seq<Overview>, before: Arrangement)
    requires IsOrdering(before)
    ensures InOrder(Arranged(overviews, before), before)
  {
    if overviews != [] {
      ArrangingOrders(overviews[1..], before);
      PuttingKeepsOrder(overviews[0], Arranged(overviews[1..], before), before);
    }
  }

  /**
   For a fixed listing, filter and page size, following the next cursor from the start ends, every
   page but the last is full, and the pages joined are the filtered listing in its order: the same
   organizations, sorted, none twice and none left out.
   */
  lemma {:induction false} PagesPartitionTheListing(
    overviews: seq<Overview>, before: Arrangement, state: Option<AggregateState>, limit: int)
    requires DistinctOrgs(overviews) && 1 <= limit <= MAX_PAGE
    ensures var records := Arranged(WithState(overviews, state), before);
      && DistinctOrgs(records) && (forall o :: o in records <==> o in overviews && IsShown(o, state))
      && (IsOrdering(before) ==> InOrder(records, before))
      && Joined(Pages(records, limit, None)) == records
      && FullPages(Pages(records, limit, None), limit)
  {
    var records := Arranged(WithState(overviews, state), before);
    StatesKeepDistinct(overviews, state);
    ArrangingKeepsDistinct(WithState(overviews, state), before);
    if IsOrdering(before) {
      ArrangingOrders(WithState(overviews, state), before);
    }
    forall o ensures o in records <==> o in overviews && IsShown(o, state) {
      assert o in records <==> o in multiset(WithState(overviews, state));
    }
    PagesJoinUp(records, limit, None);
    PagesAreFull(records, limit, None);
    assert records[0..] == records;
  }

  predicate FullPages(pages: seq<seq<Overview>>, limit: int) {
    pages != [] && (forall i | 0 <= i < |pages| - 1 :: |pages[i]| == limit) && |pages[|pages| - 1]| <= limit
  }

  lemma {:induction false} PagesAreFull(records: seq<Overview>, limit: int, cursor: Option<PageKey>)
    requires DistinctOrgs(records) && 1 <= limit <= MAX_PAGE && (cursor.Some? ==> After(records, cursor.value) > 0)
    ensures FullPages(Pages(records, limit, cursor), limit)
    decreases |records| - Start(records, cursor)
  {
    PageIsNext(records, limit, cursor);
    var page := PageOf(records, limit, cursor).value;
    if page.next.Some? {
      PagesAreFull(records, limit, page.next);
      var pages := Pages(records, limit, cursor);
      assert pages[1..] == Pages(records, limit, page.next);
      assert forall i | 0 < i < |pages| :: pages[i] == pages[1..][i - 1];
    }
  }

  // ---------- the portfolio of a store ----------

  predicate IsLeast(org: string, orgs: set<string>) {
    org in orgs && forall o | o in orgs :: o == org || Precedes(org, o)
  }

  lemma {:induction false} LeastExists(orgs: set<string>) returns (org: string)
    requires orgs != {}
    ensures IsLeast(org, orgs)
    decreases |orgs|
  {
    org :| org in orgs;
    var rest := orgs - {org};
    if rest != {} {
      var other := LeastExists(rest);
      PrecedesIsTotal(other, org);
      if Precedes(other, org) {
        org := other;
      } else {
        forall o | o in rest && o != other ensures Precedes(org, o) {
          PrecedesIsTransitive(org, other, o);
        }
      }
      assert orgs == rest + {org} || org in rest;
    }
  }

  /** The organizations in the order of their identifiers. */
  ghost function SortedOrgs(orgs: set<string>): seq<string>
    decreases |orgs|
  {
    if orgs == {} then []
    else
      assert exists o :: IsLeast(o, orgs) by { var o := LeastExists(orgs); }
      var org :| IsLeast(org, orgs);
      [org] + SortedOrgs(orgs - {org})
  }

  lemma {:induction false} SortedOrgsAreAll(orgs: set<string>)
    ensures forall o :: o in SortedOrgs(orgs) <==> o in orgs
    ensures NoRepeats(SortedOrgs(orgs))
    ensures forall i, j | 0 <= i < j < |SortedOrgs(orgs)| :: Precedes(SortedOrgs(orgs)[i], SortedOrgs(orgs)[j])
    decreases |orgs|
  {
    if orgs != {} {
      var sorted := SortedOrgs(orgs);
      var org := sorted[0];
      assert IsLeast(org, orgs) && sorted == [org] + SortedOrgs(orgs - {org});
      SortedOrgsAreAll(orgs - {org});
      forall i | 0 < i < |sorted|
        ensures sorted[i] in orgs && sorted[i] != org && sorted[i] == SortedOrgs(orgs - {org})[i - 1]
      {
        assert SortedOrgs(orgs - {org})[i - 1] in SortedOrgs(orgs - {org});
      }
    }
  }

  /** What is read for each organization in turn, up to the first that cannot be read. */
  function ReadAll(store: Store, orgs: seq<string>, now: int): Result<seq<Overview>, Fault> {
    if orgs == [] then Ok([])
    else
      match Read(store, orgs[0], now)
      case Err(e) => Err(e)
      case Ok(s) =>
        match ReadAll(store, orgs[1..], now)
        case Err(e) => Err(e)
        case Ok(rest) => Ok([s.overview] + rest)
  }

  lemma {:induction false} AllRead(store: Store, orgs: seq<string>, now: int)
    ensures ReadAll(store, orgs, now).Ok? <==> forall i | 0 <= i < |orgs| :: Read(store, orgs[i], now).Ok?
    ensures ReadAll(store, orgs, now).Ok? ==>
      |ReadAll(store, orgs, now).value| == |orgs|
      && forall i | 0 <= i < |orgs| ::
         Read(store, orgs[i], now).Ok? && ReadAll(store, orgs, now).value[i] == Read(store, orgs[i], now).value.overview
  {
    if orgs != [] {
      AllRead(store, orgs[1..], now);
      assert forall i | 0 < i < |orgs| :: orgs[i] == orgs[1..][i - 1];
      assert forall i | 0 <= i < |orgs| - 1 :: orgs[1..][i] == orgs[i + 1];
    }
  }

  /** A page of the portfolio, or why it is refused: one organization that cannot be read refuses the whole. */
  ghost function Portfolio(
    store: Store, before: Arrangement, state: Option<AggregateState>, limit: int, cursor: Option<PageKey>,
    now: int): Result<Page, Fault>
  {
    if limit < 1 || limit > MAX_PAGE then Err(QUERY_REFUSED)
    else
      match ReadAll(store, SortedOrgs(store.projections.Keys), now)
      case Err(e) => Err(e)
      case Ok(overviews) => PageOf(Arranged(WithState(overviews, state), before), limit, cursor)
  }

  /** The records that the pages are cut from. */
  ghost function Listing(store: Store, before: Arrangement, state: Option<AggregateState>, now: int): seq<Overview> {
    match ReadAll(store, SortedOrgs(store.projections.Keys), now)
    case Err(_) => []
    case Ok(overviews) => Arranged(WithState(overviews, state), before)
  }

  /** Every binding of every stored snapshot is valid and was projected by now. */
  predicate AllReadable(store: Store, now: int) {
    forall org | org in store.projections :: IsReadable(store.projections[org], now)
  }

  lemma ReadsExactly(store: Store, org: string, now: int)
    requires org in store.projections
    ensures Read(store, org, now).Ok? <==> IsReadable(store.projections[org], now)
  {
    MaterializesExactly(store.projections[org], Down(store, org), now);
  }

  lemma ReadableExactly(store: Store, now: int)
    ensures ReadAll(store, SortedOrgs(store.projections.Keys), now).Ok? <==> AllReadable(store, now)
  {
    var orgs := SortedOrgs(store.projections.Keys);
    SortedOrgsAreAll(store.projections.Keys);
    AllRead(store, orgs, now);
    if AllReadable(store, now) {
      forall i | 0 <= i < |orgs| ensures Read(store, orgs[i], now).Ok? {
        assert orgs[i] in orgs;
        ReadsExactly(store, orgs[i], now);
      }
    } else {
      var org :| org in store.projections && !IsReadable(store.projections[org], now);
      ReadsExactly(store, org, now);
      var i :| 0 <= i < |orgs| && orgs[i] == org;
    }
  }

  /** With a limit in range, the first page is refused if and only if some stored snapshot has a binding that is
      invalid or projected later than now; then every page is. */
  lemma PortfolioRefusedExactly(store: Store, before: Arrangement, state: Option<AggregateState>, limit: int, now: int)
    requires 1 <= limit <= MAX_PAGE
    ensures Portfolio(store, before, state, limit, None, now).Err? <==> !AllReadable(store, now)
    ensures !AllReadable(store, now) ==> forall cursor :: Portfolio(store, before, state, limit, cursor, now).Err?
  {
    ReadableExactly(store, now);
  }

  lemma ReadingKeepsOrg(store: Store, org: string, now: int)
    requires OrgsAgree(store.projections) && Read(store, org, now).Ok?
    ensures Read(store, org, now).value.overview.org == org
  {
  }

  /** The overviews are those read for these organizations, in this order. */
  predicate AreReadFor(store: Store, orgs: seq<string>, overviews: seq<Overview>, now: int) {
    |overviews| == |orgs|
    && forall i | 0 <= i < |orgs| ::
       Read(store, orgs[i], now).Ok? && overviews[i] == Read(store, orgs[i], now).value.overview
  }

  lemma ReadOverviewsAreNamed(store: Store, orgs: seq<string>, overviews: seq<Overview>, now: int)
    requires OrgsAgree(store.projections) && AreReadFor(store, orgs, overviews, now) && NoRepeats(orgs)
    ensures forall i | 0 <= i < |orgs| :: overviews[i].org == orgs[i]
    ensures DistinctOrgs(overviews)
  {
    forall i | 0 <= i < |orgs| ensures overviews[i].org == orgs[i] {
      ReadingKeepsOrg(store, orgs[i], now);
    }
  }

  /** This is what is read of a stored organization. */
  predicate IsReadOf(store: Store, o: Overview, now: int) {
    o.org in store.projections && Read(store, o.org, now).Ok? && o == Read(store, o.org, now).value.overview
  }

  lemma ReadOverviewsAreAll(store: Store, orgs: seq<string>, overviews: seq<Overview>, now: int)
    requires AreReadFor(store, orgs, overviews, now) && (forall org :: org in orgs <==> org in store.projections)
    requires forall i | 0 <= i < |orgs| :: overviews[i].org == orgs[i]
    ensures forall o :: o in overviews <==> IsReadOf(store, o, now)
  {
    forall o: Overview | IsReadOf(store, o, now) ensures o in overviews {
      var i :| 0 <= i < |orgs| && orgs[i] == o.org;
      assert overviews[i] == o;
    }
    forall o | o in overviews ensures IsReadOf(store, o, now) {
      var i :| 0 <= i < |overviews| && overviews[i] == o;
      assert orgs[i] in orgs;
    }
  }

  /** The overviews read are those of the stored organizations, each under its own name. */
  lemma OverviewsAreThose(store: Store, now: int) returns (overviews: seq<Overview>)
    requires OrgsAgree(store.projections) && AllReadable(store, now)
    ensures ReadAll(store, SortedOrgs(store.projections.Keys), now) == Ok(overviews) && DistinctOrgs(overviews)
    ensures forall o :: o in overviews <==> IsReadOf(store, o, now)
  {
    var orgs := SortedOrgs(store.projections.Keys);
    ReadableExactly(store, now);
    SortedOrgsAreAll(store.projections.Keys);
    AllRead(store, orgs, now);
    overviews := ReadAll(store, orgs, now).value;
    ReadOverviewsAreNamed(store, orgs, overviews, now);
    ReadOverviewsAreAll(store, orgs, overviews, now);
  }

  /**
   After any run, as long as every stored snapshot can be read: the pages that a client gets who follows
   the next cursor from the start are cut from one listing, all but the last are full, and joined they
   are that listing: sorted, and with exactly one record, as it is read, of each organization that the
   filter lets through.
   */
  lemma PortfolioIsPartitioned(
    steps: seq<Step>, before: Arrangement, state: Option<AggregateState>, limit: int, now: int)
    requires 1 <= limit <= MAX_PAGE && AllReadable(Run(steps).store, now)
    ensures var store := Run(steps).store; var records := Listing(store, before, state, now);
      && (forall cursor :: Portfolio(store, before, state, limit, cursor, now) == PageOf(records, limit, cursor))
      && DistinctOrgs(records) && Joined(Pages(records, limit, None)) == records
      && FullPages(Pages(records, limit, None), limit)
      && (forall o :: o in records <==> IsReadOf(store, o, now) && IsShown(o, state))
      && (IsOrdering(before) ==> InOrder(records, before))
  {
    IngestAccounting(steps);
    var store := Run(steps).store;
    var overviews := OverviewsAreThose(store, now);
    PagesPartitionTheListing(overviews, before, state, limit);
  }
}
