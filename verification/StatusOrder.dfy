/**
 Status never improves by waiting: as the clock moves on and more sources go out, harnesses only turn
 from ready or degraded to blocked, and no plane and no overview gets a better rank.
 */
module StatusOrder {
  import opened Basics
  import opened StatusModel

  // ---------- the sort finds an extremum ----------

  predicate Ascends<T>(items: seq<T>, rank: T -> int) {
    forall i, j | 0 <= i < j < |items| :: rank(items[i]) <= rank(items[j])
  }

  lemma {:induction false} PlacedPermutes<T>(item: T, sorted: seq<T>, rank: T -> int)
    ensures multiset(Placed(item, sorted, rank)) == multiset([item]) + multiset(sorted)
  {
    if sorted != [] && rank(item) > rank(sorted[0]) {
      assert sorted == [sorted[0]] + sorted[1..];
      PlacedPermutes(item, sorted[1..], rank);
    }
  }

  lemma {:induction false} PlacedAscends<T>(item: T, sorted: seq<T>, rank: T -> int)
    requires Ascends(sorted, rank)
    ensures Ascends(Placed(item, sorted, rank), rank)
  {
    if sorted != [] && rank(item) > rank(sorted[0]) {
      PlacedAscends(item, sorted[1..], rank);
      PlacedPermutes(item, sorted[1..], rank);
      var rest := Placed(item, sorted[1..], rank);
      forall k | 0 <= k < |rest| ensures rank(sorted[0]) <= rank(rest[k]) {
        assert rest[k] in multiset([item]) + multiset(sorted[1..]);
      }
    }
  }

  lemma {:induction false} SortIsSorted<T>(items: seq<T>, rank: T -> int)
    ensures Ascends(SortedBy(items, rank), rank) && multiset(SortedBy(items, rank)) == multiset(items)
  {
    if items != [] {
      assert items == [items[0]] + items[1..];
      SortIsSorted(items[1..], rank);
      PlacedAscends(items[0], SortedBy(items[1..], rank), rank);
      PlacedPermutes(items[0], SortedBy(items[1..], rank), rank);
    }
  }

  /** The first element of the sorted list is one of the list, and none has a lower rank. */
  lemma FirstIsLeast<T>(items: seq<T>, rank: T -> int)
    requires items != []
    ensures SortedBy(items, rank)[0] in items
    ensures forall x | x in items :: rank(SortedBy(items, rank)[0]) <= rank(x)
  {
    SortIsSorted(items, rank);
    var sorted := SortedBy(items, rank);
    assert sorted[0] in multiset(items);
    forall x | x in items ensures rank(sorted[0]) <= rank(x) {
      assert x in multiset(sorted);
    }
  }

  /** `worst` is the highest-ranked of the states, or EMPTY if there is none. */
  predicate IsWorst(states: seq<AggregateState>, worst: AggregateState) {
    && (worst in states || worst == EMPTY)
    && forall s | s in states :: AggregateRank(s) <= AggregateRank(worst)
  }

  lemma WorstIsUnique(states: seq<AggregateState>, a: AggregateState, b: AggregateState)
    requires IsWorst(states, a) && IsWorst(states, b)
    ensures a == b
  {
    assert AggregateRank(a) == AggregateRank(b);
  }

  /** Sorting and taking the first is taking the maximum. */
  lemma WorstAggregateIsWorst(states: seq<AggregateState>)
    ensures IsWorst(states, WorstAggregate(states))
  {
    if states != [] {
      var rank := (s: AggregateState) => -AggregateRank(s);
      FirstIsLeast(states, rank);
      assert WorstAggregate(states) == SortedBy(states, rank)[0];
      forall s | s in states ensures AggregateRank(s) <= AggregateRank(WorstAggregate(states)) {
        assert rank(WorstAggregate(states)) <= rank(s);
      }
    }
  }

  /** So is the running maximum over the planes. */
  lemma {:induction false} WorstPlaneIsWorst(planes: seq<Plane>, start: AggregateState)
    ensures var worst := WorstPlane(planes, start);
      && (worst == start || worst in PlaneAggregates(PlaneSummaries(planes)))
      && AggregateRank(start) <= AggregateRank(worst)
      && forall i | 0 <= i < |planes| :: AggregateRank(planes[i].summary.aggregate) <= AggregateRank(worst)
  {
    if planes != [] {
      var first := planes[0].summary.aggregate;
      var next := if AggregateRank(first) > AggregateRank(start) then first else start;
      WorstPlaneIsWorst(planes[1..], next);
      var all := PlaneAggregates(PlaneSummaries(planes));
      assert all[0] == first;
      assert all[1..] == PlaneAggregates(PlaneSummaries(planes[1..]));
      assert forall i | 0 < i < |planes| :: planes[i] == planes[1..][i - 1];
    }
  }

  // ---------- worse ----------

  /** A harness after more time or with more sources out: as it was, or blocked where it was good. */
  predicate Worsens(a: AggregateState, b: AggregateState) {
    b == a || ((a == AggregateState.READY || a == AggregateState.DEGRADED) && b == AggregateState.BLOCKED)
  }

  predicate StaysUnfresh(f: FreshnessState, g: FreshnessState) { f != CURRENT ==> g != CURRENT }

  lemma MarkingKeepsValid(b: Binding, down: set<string>)
    ensures BindingFault(MarkedBinding(b, down)) == BindingFault(b)
  {
    var m := MarkedBinding(b, down);
    assert |m.cursors| == |b.cursors| && forall i | 0 <= i < |b.cursors| ::
      m.cursors[i].sourceId == b.cursors[i].sourceId;
    if i, j :| 0 <= i < j < |b.cursors| && b.cursors[i].sourceId == b.cursors[j].sourceId {
      assert m.cursors[i].sourceId == m.cursors[j].sourceId;
    }
    if i, j :| 0 <= i < j < |m.cursors| && m.cursors[i].sourceId == m.cursors[j].sourceId {
      assert b.cursors[i].sourceId == b.cursors[j].sourceId;
    }
  }

  lemma FreshnessIsLost(b: Binding, down: set<string>, more: set<string>, now: int, later: int)
    requires down <= more && now <= later && ReadFreshness(b, down, now).Ok?
    ensures ReadFreshness(b, more, later).Ok?
      && StaysUnfresh(ReadFreshness(b, down, now).value, ReadFreshness(b, more, later).value)
  {
    MarkingKeepsValid(b, down);
    MarkingKeepsValid(b, more);
    var m, n := MarkedBinding(b, down), MarkedBinding(b, more);
    if SomeUnavailable(m) {
      var i :| 0 <= i < |m.cursors| && m.cursors[i].unavailable;
      assert n.cursors[i].unavailable;
    }
  }

  lemma AggregateWorsens(
    selection: SelectionState, installation: InstallationState, axes: seq<Axis>, f: FreshnessState, g: FreshnessState)
    requires StaysUnfresh(f, g)
    ensures Worsens(DeriveAggregate(selection, installation, axes, f),
      DeriveAggregate(selection, installation, axes, g))
  {
  }

  lemma WithFreshnessIsMonotone(s: AggregateState, t: AggregateState, f: FreshnessState, g: FreshnessState)
    requires AggregateRank(s) <= AggregateRank(t) && StaysUnfresh(f, g)
    ensures AggregateRank(WithFreshness(s, f)) <= AggregateRank(WithFreshness(t, g))
  {
  }

  /** The same harnesses, each as it was or blocked where it was good. */
  predicate SummariesWorsen(a: seq<Summary>, b: seq<Summary>) {
    |a| == |b| && forall i | 0 <= i < |a| ::
      b[i].plane == a[i].plane && b[i].selection == a[i].selection && Worsens(a[i].aggregate, b[i].aggregate)
  }

  /** The same harnesses, none with a better rank. */
  predicate NoneBetter(a: seq<Summary>, b: seq<Summary>) {
    |a| == |b| && forall i | 0 <= i < |a| ::
      b[i].plane == a[i].plane && b[i].selection == a[i].selection
      && AggregateRank(a[i].aggregate) <= AggregateRank(b[i].aggregate)
  }

  lemma WorseIsNoneBetter(a: seq<Summary>, b: seq<Summary>)
    requires SummariesWorsen(a, b)
    ensures NoneBetter(a, b)
  {
  }

  lemma TailsWorsen(a: seq<Summary>, b: seq<Summary>)
    requires NoneBetter(a, b) && a != []
    ensures NoneBetter(a[1..], b[1..])
  {
  }

  lemma {:induction false} InPlaneWorsens(a: seq<Summary>, b: seq<Summary>, plane: PlaneId)
    requires NoneBetter(a, b)
    ensures NoneBetter(InPlane(a, plane), InPlane(b, plane))
  {
    if a != [] {
      TailsWorsen(a, b);
      InPlaneWorsens(a[1..], b[1..], plane);
    }
  }

  lemma {:induction false} SelectedWorsens(a: seq<Summary>, b: seq<Summary>)
    requires NoneBetter(a, b)
    ensures NoneBetter(Selected(a), Selected(b))
  {
    if a != [] {
      TailsWorsen(a, b);
      SelectedWorsens(a[1..], b[1..]);
    }
  }

  lemma WorstWorsens(a: seq<Summary>, b: seq<Summary>)
    requires NoneBetter(a, b)
    ensures AggregateRank(WorstAggregate(Aggregates(a))) <= AggregateRank(WorstAggregate(Aggregates(b)))
  {
    WorstAggregateIsWorst(Aggregates(a));
    WorstAggregateIsWorst(Aggregates(b));
    var worst := WorstAggregate(Aggregates(a));
    if worst in Aggregates(a) {
      var i :| 0 <= i < |a| && Aggregates(a)[i] == worst;
      assert Aggregates(b)[i] in Aggregates(b);
      assert AggregateRank(a[i].aggregate) <= AggregateRank(b[i].aggregate);
    }
  }

  lemma SummarizedPlaneWorsens(plane: PlaneId, a: seq<Summary>, b: seq<Summary>)
    requires NoneBetter(a, b)
    ensures AggregateRank(SummarizedPlane(plane, InPlane(a, plane)).aggregate)
      <= AggregateRank(SummarizedPlane(plane, InPlane(b, plane)).aggregate)
  {
    InPlaneWorsens(a, b, plane);
    SelectedWorsens(InPlane(a, plane), InPlane(b, plane));
    WorstWorsens(Selected(InPlane(a, plane)), Selected(InPlane(b, plane)));
  }

  // ---------- reading later ----------

  lemma {:induction false} HarnessesWorsen(hs: seq<Harness>, down: set<string>, more: set<string>, now: int, later: int)
    requires down <= more && now <= later && ReadHarnesses(hs, down, now).Ok?
    ensures ReadHarnesses(hs, more, later).Ok?
    ensures SummariesWorsen(Summaries(ReadHarnesses(hs, down, now).value),
      Summaries(ReadHarnesses(hs, more, later).value))
  {
    if hs != [] {
      FreshnessIsLost(hs[0].binding, down, more, now, later);
      HarnessesWorsen(hs[1..], down, more, now, later);
      var f, g := ReadFreshness(hs[0].binding, down, now).value, ReadFreshness(hs[0].binding, more, later).value;
      AggregateWorsens(hs[0].selection, hs[0].installation, hs[0].axes, f, g);
      var a, b := ReadHarnesses(hs, down, now).value, ReadHarnesses(hs, more, later).value;
      JoinWorsens(a, b);
    }
  }

  lemma JoinWorsens(a: seq<Harness>, b: seq<Harness>)
    requires a != [] && b != [] && SummariesWorsen(Summaries(a[1..]), Summaries(b[1..]))
    requires b[0].plane == a[0].plane && b[0].selection == a[0].selection
    requires Worsens(Summarized(a[0]).aggregate, Summarized(b[0]).aggregate)
    ensures SummariesWorsen(Summaries(a), Summaries(b))
  {
    forall i | 0 <= i < |a|
      ensures Summaries(b)[i].plane == Summaries(a)[i].plane && Summaries(b)[i].selection == Summaries(a)[i].selection
        && Worsens(Summaries(a)[i].aggregate, Summaries(b)[i].aggregate)
    {
      if i > 0 {
        assert Summaries(a[1..])[i - 1] == Summaries(a)[i] && Summaries(b[1..])[i - 1] == Summaries(b)[i];
      }
    }
  }

  /** The same planes, none with a better rank. */
  predicate PlanesWorsen(a: seq<Plane>, b: seq<Plane>) {
    |a| == |b| && forall i | 0 <= i < |a| :: PlaneWorsens(a[i], b[i])
  }

  /** The same plane, no better than it was. */
  predicate PlaneWorsens(p: Plane, q: Plane) {
    q.summary.plane == p.summary.plane && AggregateRank(p.summary.aggregate) <= AggregateRank(q.summary.aggregate)
  }

  lemma ReadPlaneWorsens(
    p: Plane, a: seq<Summary>, b: seq<Summary>, down: set<string>, more: set<string>, now: int, later: int)
    requires down <= more && now <= later && NoneBetter(a, b) && ReadPlane(p, a, down, now).Ok?
    ensures ReadPlane(p, b, more, later).Ok?
      && PlaneWorsens(ReadPlane(p, a, down, now).value, ReadPlane(p, b, more, later).value)
  {
    FreshnessIsLost(p.binding, down, more, now, later);
    SummarizedPlaneWorsens(p.summary.plane, a, b);
    WithFreshnessIsMonotone(
      SummarizedPlane(p.summary.plane, InPlane(a, p.summary.plane)).aggregate,
      SummarizedPlane(p.summary.plane, InPlane(b, p.summary.plane)).aggregate,
      ReadFreshness(p.binding, down, now).value, ReadFreshness(p.binding, more, later).value);
  }

  lemma OneMorePlaneWorsens(p: Plane, q: Plane, ps: seq<Plane>, qs: seq<Plane>)
    requires PlaneWorsens(p, q) && PlanesWorsen(ps, qs)
    ensures PlanesWorsen([p] + ps, [q] + qs)
  {
  }

  lemma {:induction false} ReadPlanesWorsen(
    planes: seq<Plane>, a: seq<Summary>, b: seq<Summary>, down: set<string>, more: set<string>, now: int, later: int)
    requires down <= more && now <= later && NoneBetter(a, b) && ReadPlanes(planes, a, down, now).Ok?
    ensures ReadPlanes(planes, b, more, later).Ok?
    ensures PlanesWorsen(ReadPlanes(planes, a, down, now).value, ReadPlanes(planes, b, more, later).value)
  {
    if planes != [] {
      ReadPlaneWorsens(planes[0], a, b, down, more, now, later);
      ReadPlanesWorsen(planes[1..], a, b, down, more, now, later);
      OneMorePlaneWorsens(
        ReadPlane(planes[0], a, down, now).value, ReadPlane(planes[0], b, more, later).value,
        ReadPlanes(planes[1..], a, down, now).value, ReadPlanes(planes[1..], b, more, later).value);
    }
  }

  lemma WorstPlaneWorsens(a: seq<Plane>, b: seq<Plane>)
    requires PlanesWorsen(a, b)
    ensures AggregateRank(WorstPlane(a, EMPTY)) <= AggregateRank(WorstPlane(b, EMPTY))
  {
    WorstPlaneIsWorst(a, EMPTY);
    WorstPlaneIsWorst(b, EMPTY);
    var worst := WorstPlane(a, EMPTY);
    if worst != EMPTY {
      var all := PlaneAggregates(PlaneSummaries(a));
      var i :| 0 <= i < |all| && all[i] == worst;
      assert AggregateRank(a[i].summary.aggregate) <= AggregateRank(b[i].summary.aggregate);
    }
  }

  /**
   A snapshot that can be read can be read at every later time and with every further source out;
   every harness is then as it was or blocked where it was good, and no plane and not the overview
   has a better rank.
   */
  lemma StatusNeverImprovesByWaiting(s: Snapshot, down: set<string>, more: set<string>, now: int, later: int)
    requires down <= more && now <= later && Materialize(s, down, now).Ok?
    ensures Materialize(s, more, later).Ok?
    ensures var a, b := Materialize(s, down, now).value, Materialize(s, more, later).value;
      && (s.overview.binding.Some? ==> SummariesWorsen(a.overview.harnesses, b.overview.harnesses))
      && PlanesWorsen(a.planes, b.planes)
      && AggregateRank(a.overview.aggregate) <= AggregateRank(b.overview.aggregate)
  {
    if s.overview.binding.Some? {
      var binding := s.overview.binding.value;
      FreshnessIsLost(binding, down, more, now, later);
      HarnessesWorsen(s.harnesses, down, more, now, later);
      var a, b := Summaries(ReadHarnesses(s.harnesses, down, now).value),
        Summaries(ReadHarnesses(s.harnesses, more, later).value);
      WorseIsNoneBetter(a, b);
      ReadPlanesWorsen(s.planes, a, b, down, more, now, later);
      var p, q := ReadPlanes(s.planes, a, down, now).value, ReadPlanes(s.planes, b, more, later).value;
      WorstPlaneWorsens(p, q);
      WithFreshnessIsMonotone(
        WorstPlane(p, EMPTY), WorstPlane(q, EMPTY), ReadFreshness(binding, down, now).value,
        ReadFreshness(binding, more, later).value);
    }
  }
}
