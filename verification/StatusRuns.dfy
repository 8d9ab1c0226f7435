/** Runs of the projection store in which one organization's snapshot refuses the portfolio of all. */
module StatusRuns {
  import opened Basics
  import opened StatusModel
  import opened StatusRefinement
  import opened StatusIngest
  import opened StatusPages
  import opened StatusSample

  /** A source's first summary of an organization. */
  function FirstSummary(s: Snapshot, org: string, now: int, eventId: string): SourceSummary
    requires s.overview.binding.Some?
  {
    var b := s.overview.binding.value;
    SourceSummary(
      PROFILE_LOCK, "principal", "admission", eventId, org, 1, "cursor", now, b.profile, b.bundle, b.release,
      b.generation, Content(PROFILE_LOCK, "principal", "admission", 1, eventId, org, b.release, s), s)
  }

  /** Nothing is known of the organization, and the event identifier is new. */
  predicate IsNew(store: Store, org: string, eventId: string) {
    org !in store.projections && (org, PROFILE_LOCK) !in store.cursors && eventId !in store.events
    && org !in store.unavailable
  }

  lemma FirstSummaryIsApplied(store: Store, s: Snapshot, org: string, now: int, eventId: string)
    requires Admitted(s, org, now) && s.overview.binding.value.org == org && IsNew(store, org, eventId)
    ensures var summary := FirstSummary(s, org, now, eventId);
      Ingest(store, summary, true, now) == Applied(Admit(store, summary))
  {
  }

  /** A step that takes a first summary adds the snapshot, the cursor and the event. */
  ghost predicate Adds(store: Store, step: Step, s: Snapshot, org: string, eventId: string) {
    var t := Next(World(store, []), step).store;
    && t.projections == store.projections[org := s] && t.cursors.Keys == store.cursors.Keys + {(org, PROFILE_LOCK)}
    && t.events.Keys == store.events.Keys + {eventId} && t.unavailable == store.unavailable
  }

  lemma FirstSummaryAdds(store: Store, s: Snapshot, org: string, now: int, eventId: string) returns (step: Step)
    requires Admitted(s, org, now) && s.overview.binding.value.org == org && IsNew(store, org, eventId)
    ensures Adds(store, step, s, org, eventId)
  {
    step := Take(FirstSummary(s, org, now, eventId), true, now);
    FirstSummaryIsApplied(store, s, org, now, eventId);
  }

  lemma StoreIgnoresLog(store: Store, applied: seq<SourceSummary>, step: Step)
    ensures Next(World(store, applied), step).store == Next(World(store, []), step).store
  {
  }

  lemma TwoSteps(a: Step, b: Step)
    ensures Run([a]).store == Next(START, a).store
    ensures Run([a, b]).store == Next(World(Run([a]).store, []), b).store
  {
    assert [a][..0] == [] && [a, b][..1] == [a];
    StoreIgnoresLog(Run([a]).store, Run([a]).applied, b);
  }

  /** From its admission on, a snapshot whose parts share their binding can be read. */
  lemma SharedStaysReadable(s: Snapshot, org: string, admitted: int, now: int)
    requires Admitted(s, org, admitted) && SharesBinding(s) && admitted <= now
    ensures IsReadable(s, now)
  {
    OverviewChecked(s, org, admitted);
  }

  /** One healthy organization with a first page, and the other with an admitted snapshot that cannot be read. */
  ghost predicate RefusedByOne(alone: Store, both: Store, healthy: string, other: string, now: int) {
    && alone.projections.Keys == {healthy} && both.projections.Keys == {healthy, other}
    && both.projections[healthy] == alone.projections[healthy] && Admitted(both.projections[other], other, now)
    && (forall later | now <= later :: Read(both, healthy, later).Ok?)
    && (forall before, state, limit, later | 1 <= limit <= MAX_PAGE && now <= later ::
         Portfolio(alone, before, state, limit, None, later).Ok?)
    && (forall before, state, limit, cursor, later :: Portfolio(both, before, state, limit, cursor, later).Err?)
  }

  lemma RefusalByOne(alone: Store, both: Store, healthy: string, other: string, now: int)
    requires alone.projections.Keys == {healthy} && both.projections.Keys == {healthy, other}
    requires both.projections[healthy] == alone.projections[healthy] && Admitted(both.projections[other], other, now)
    requires forall later | now <= later :: IsReadable(both.projections[healthy], later)
    requires forall later :: !IsReadable(both.projections[other], later)
    ensures RefusedByOne(alone, both, healthy, other, now)
  {
    forall later | now <= later ensures Read(both, healthy, later).Ok? {
      ReadsExactly(both, healthy, later);
    }
    forall before, state, limit, later | 1 <= limit <= MAX_PAGE && now <= later
      ensures Portfolio(alone, before, state, limit, None, later).Ok?
    {
      assert AllReadable(alone, later);
      PortfolioRefusedExactly(alone, before, state, limit, later);
    }
    forall before, state, limit, cursor, later ensures Portfolio(both, before, state, limit, cursor, later).Err? {
      if 1 <= limit <= MAX_PAGE {
        assert other in both.projections && !AllReadable(both, later);
        PortfolioRefusedExactly(both, before, state, limit, later);
      }
    }
  }

  /** A snapshot for the one organization that stays readable, and one for the other that never is. */
  lemma GoodAndBad(healthy: string, other: string, now: int) returns (good: Snapshot, bad: Snapshot)
    ensures Admitted(good, healthy, now) && good.overview.binding.value.org == healthy
    ensures Admitted(bad, other, now) && bad.overview.binding.value.org == other
    ensures forall later | now <= later :: IsReadable(good, later)
    ensures forall later :: !IsReadable(bad, later)
  {
    good := SomethingIsAdmitted(healthy, now);
    forall later | now <= later ensures IsReadable(good, later) {
      SharedStaysReadable(good, healthy, now, later);
    }
    var base := SomethingIsAdmitted(other, now);
    bad := PlaneBindingsAreNotChecked(base, other, now);
  }

  lemma TakesBoth(good: Snapshot, bad: Snapshot, healthy: string, other: string, now: int) returns (a: Step, b: Step)
    requires Admitted(good, healthy, now) && good.overview.binding.value.org == healthy
    requires Admitted(bad, other, now) && bad.overview.binding.value.org == other && healthy != other
    ensures Run([a]).store.projections == map[healthy := good]
    ensures Run([a, b]).store.projections == map[healthy := good, other := bad]
  {
    a := FirstSummaryAdds(EMPTY_STORE, good, healthy, now, "event.1");
    var alone := Next(START, a).store;
    b := FirstSummaryAdds(alone, bad, other, now, "event.2");
    TwoSteps(a, b);
  }

  /**
   For any two organizations and any instant: after one summary the portfolio has a first page from
   then on; after a second, admitted for the other organization, no page is ever given, although the
   first organization can still be read.
   */
  lemma OneUnreadableRefusesAll(healthy: string, other: string, now: int) returns (a: Step, b: Step)
    requires healthy != other
    ensures RefusedByOne(Run([a]).store, Run([a, b]).store, healthy, other, now)
  {
    var good, bad := GoodAndBad(healthy, other, now);
    a, b := TakesBoth(good, bad, healthy, other, now);
    RefusalByOne(Run([a]).store, Run([a, b]).store, healthy, other, now);
  }
}
