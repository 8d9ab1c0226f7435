/**
 Reading refines validation: what was checked when a snapshot was admitted is what a reader at that
 instant is shown, and the overview always dominates its planes and their harnesses.
 */
module StatusRefinement {
  import opened Basics
  import opened StatusModel
  import opened StatusOrder

  /** The snapshot passed every check at `now`, for this organization. */
  predicate Admitted(s: Snapshot, org: string, now: int) {
    SnapshotFault(s, org, now) == None && s.overview.binding.Some?
  }

  // ---------- what validation checked ----------

  lemma {:induction false} HarnessesChecked(o: Overview, b: Binding, harnesses: seq<Harness>, now: int)
    requires HarnessesFault(o, b, harnesses, now) == None
    ensures forall i | 0 <= i < |harnesses| :: HarnessFault(o, b, harnesses[i], now) == None
  {
    if harnesses != [] {
      HarnessesChecked(o, b, harnesses[1..], now);
      assert forall i | 0 < i < |harnesses| :: harnesses[i] == harnesses[1..][i - 1];
    }
  }

  lemma OverviewChecked(s: Snapshot, org: string, now: int)
    requires Admitted(s, org, now)
    ensures var o := s.overview;
      && o.org == o.binding.value.org && |s.harnesses| == HARNESS_COUNT && |o.harnesses| == HARNESS_COUNT
      && (forall i | 0 <= i < HARNESS_COUNT ::
        s.harnesses[i].id == i && HarnessFault(o, o.binding.value, s.harnesses[i], now) == None)
      && o.planes == ExpectedPlanes(o.harnesses) && o.aggregate == WorstAggregate(PlaneAggregates(o.planes))
      && DeriveFreshness(o.binding.value, now).Ok? && o.freshness == Some(DeriveFreshness(o.binding.value, now).value)
  {
    HarnessesChecked(s.overview, s.overview.binding.value, s.harnesses, now);
  }

  lemma PlanesChecked(s: Snapshot, org: string, now: int)
    requires Admitted(s, org, now)
    ensures |s.planes| == 4
    ensures forall i | 0 <= i < |s.harnesses| :: HasPlane(s.planes, s.harnesses[i].plane)
    ensures forall i | 0 <= i < 4 :: s.planes[i].binding.org == org && s.planes[i].summary in s.overview.planes
  {
  }

  // ---------- harnesses ----------

  lemma NothingMarked(b: Binding)
    ensures MarkedBinding(b, {}) == b
  {
    assert MarkedBinding(b, {}).cursors == b.cursors;
  }

  lemma HarnessIsReproduced(o: Overview, b: Binding, h: Harness, now: int)
    requires HarnessFault(o, b, h, now) == None
    ensures ReadHarness(h, {}, now) == Ok(h) && Summarized(h) in o.harnesses
  {
    NothingMarked(h.binding);
  }

  lemma {:induction false} HarnessesAreReproduced(o: Overview, b: Binding, harnesses: seq<Harness>, now: int)
    requires forall i | 0 <= i < |harnesses| :: HarnessFault(o, b, harnesses[i], now) == None
    ensures ReadHarnesses(harnesses, {}, now) == Ok(harnesses)
  {
    if harnesses != [] {
      HarnessIsReproduced(o, b, harnesses[0], now);
      HarnessesAreReproduced(o, b, harnesses[1..], now);
      assert [harnesses[0]] + harnesses[1..] == harnesses;
    }
  }

  // ---------- planes ----------

  lemma {:induction false} InPlaneKeeps(summaries: seq<Summary>, plane: PlaneId)
    ensures forall x :: x in InPlane(summaries, plane) <==> x in summaries && x.plane == plane
  {
    if summaries != [] {
      InPlaneKeeps(summaries[1..], plane);
      assert summaries == [summaries[0]] + summaries[1..];
    }
  }

  lemma {:induction false} SelectedKeeps(summaries: seq<Summary>)
    ensures forall x :: x in Selected(summaries) <==> x in summaries && IsSelected(x)
  {
    if summaries != [] {
      SelectedKeeps(summaries[1..]);
      assert summaries == [summaries[0]] + summaries[1..];
    }
  }

  lemma {:induction false} SameElementsSameWorst(a: seq<Summary>, b: seq<Summary>)
    requires forall x :: x in a <==> x in b
    ensures WorstAggregate(Aggregates(a)) == WorstAggregate(Aggregates(b))
  {
    WorstAggregateIsWorst(Aggregates(a));
    WorstAggregateIsWorst(Aggregates(b));
    SameAggregates(a, b);
    SameAggregates(b, a);
    WorstIsUnique(Aggregates(b), WorstAggregate(Aggregates(a)), WorstAggregate(Aggregates(b)));
  }

  lemma {:induction false} SameAggregates(a: seq<Summary>, b: seq<Summary>)
    requires forall x :: x in a ==> x in b
    ensures Within(Aggregates(a), Aggregates(b))
  {
    forall s | s in Aggregates(a) ensures s in Aggregates(b) {
      var i :| 0 <= i < |a| && Aggregates(a)[i] == s;
      assert a[i] in a;
      var j :| 0 <= j < |b| && b[j] == a[i];
      assert Aggregates(b)[j] == s;
    }
  }

  /** A plane's aggregate does not depend on the order of the harnesses. */
  lemma {:induction false} PlaneIgnoresOrder(plane: PlaneId, a: seq<Summary>, b: seq<Summary>)
    requires forall x :: x in a <==> x in b
    ensures SummarizedPlane(plane, InPlane(a, plane)).aggregate == SummarizedPlane(plane, InPlane(b, plane)).aggregate
  {
    InPlaneKeeps(a, plane);
    InPlaneKeeps(b, plane);
    SelectedKeeps(InPlane(a, plane));
    SelectedKeeps(InPlane(b, plane));
    SameElementsSameWorst(Selected(InPlane(a, plane)), Selected(InPlane(b, plane)));
  }

  /** The summaries in the overview are those of the sixteen harnesses, in some order. */
  lemma {:induction false} SummariesAreThose(s: Snapshot, org: string, now: int)
    requires Admitted(s, org, now)
    ensures forall x :: x in Summaries(s.harnesses) <==> x in s.overview.harnesses
  {
    OverviewChecked(s, org, now);
    var all := Summaries(s.harnesses);
    forall i | 0 <= i < |all| ensures all[i] in s.overview.harnesses {
      HarnessIsReproduced(s.overview, s.overview.binding.value, s.harnesses[i], now);
    }
    DistinctWithin(all, s.overview.harnesses);
  }

  lemma {:induction false} PlaneIsReproduced(s: Snapshot, org: string, now: int, i: nat)
    requires Admitted(s, org, now) && i < |s.planes|
    ensures s.planes[i].summary.aggregate
      == SummarizedPlane(s.planes[i].summary.plane,
        InPlane(Summaries(s.harnesses), s.planes[i].summary.plane)).aggregate
  {
    OverviewChecked(s, org, now);
    PlanesChecked(s, org, now);
    SummariesAreThose(s, org, now);
    var j :| 0 <= j < 4 && s.overview.planes[j] == s.planes[i].summary;
    PlaneIgnoresOrder(PLANES[j], Summaries(s.harnesses), s.overview.harnesses);
  }

  /** The planes a reader is shown: each validated aggregate, under the plane's own freshness. */
  predicate PlanesUnderFreshness(planes: seq<Plane>, read: seq<Plane>, now: int) {
    |read| == |planes| && forall i | 0 <= i < |planes| ::
      DeriveFreshness(planes[i].binding, now).Ok? && read[i].freshness == DeriveFreshness(planes[i].binding, now).value
      && read[i].summary.plane == planes[i].summary.plane
      && read[i].summary.aggregate == WithFreshness(planes[i].summary.aggregate, read[i].freshness)
  }

  lemma {:induction false} PlanesAreRead(planes: seq<Plane>, summaries: seq<Summary>, now: int)
    requires forall i | 0 <= i < |planes| ::
      planes[i].summary.aggregate
        == SummarizedPlane(planes[i].summary.plane, InPlane(summaries, planes[i].summary.plane)).aggregate
    ensures ReadPlanes(planes, summaries, {}, now).Ok?
      <==> forall i | 0 <= i < |planes| :: DeriveFreshness(planes[i].binding, now).Ok?
    ensures ReadPlanes(planes, summaries, {}, now).Ok?
      ==> PlanesUnderFreshness(planes, ReadPlanes(planes, summaries, {}, now).value, now)
  {
    if planes != [] {
      NothingMarked(planes[0].binding);
      PlanesAreRead(planes[1..], summaries, now);
      assert forall i | 0 < i < |planes| :: planes[i] == planes[1..][i - 1];
      assert forall i | 0 <= i < |planes| - 1 :: planes[1..][i] == planes[i + 1];
    }
  }

  /**
   At the instant a snapshot is admitted, with no source out: it can be read exactly when every
   plane's own binding is valid and not in the future (which admission does not check), and then
   the harnesses are as submitted and each plane has its validated aggregate under its own freshness.
   */
  lemma ReadingRefinesValidation(s: Snapshot, org: string, now: int)
    requires Admitted(s, org, now)
    ensures var r := Materialize(s, {}, now);
      && (r.Ok? <==> forall i | 0 <= i < |s.planes| :: DeriveFreshness(s.planes[i].binding, now).Ok?)
      && (r.Ok? ==>
           r.value.harnesses == s.harnesses && r.value.overview.freshness == s.overview.freshness
           && PlanesUnderFreshness(s.planes, r.value.planes, now)
           && r.value.overview.aggregate
              == WithFreshness(WorstPlane(r.value.planes, EMPTY), s.overview.freshness.value))
  {
    OverviewChecked(s, org, now);
    NothingMarked(s.overview.binding.value);
    HarnessesAreReproduced(s.overview, s.overview.binding.value, s.harnesses, now);
    forall i | 0 <= i < |s.planes|
      ensures s.planes[i].summary.aggregate
        == SummarizedPlane(s.planes[i].summary.plane,
          InPlane(Summaries(s.harnesses), s.planes[i].summary.plane)).aggregate
    {
      PlaneIsReproduced(s, org, now, i);
    }
    PlanesAreRead(s.planes, Summaries(s.harnesses), now);
  }

  // ---------- one shared binding ----------

  predicate SharesBinding(s: Snapshot) {
    s.overview.binding.Some?
    && (forall i | 0 <= i < |s.harnesses| :: s.harnesses[i].binding == s.overview.binding.value)
    && (forall i | 0 <= i < |s.planes| :: s.planes[i].binding == s.overview.binding.value)
  }

  lemma StaleIsNeverGood(h: Harness)
    requires h.freshness != CURRENT
    ensures WithFreshness(Summarized(h).aggregate, h.freshness) == Summarized(h).aggregate
  {
  }

  /** If no harness is fresh, the worst of any of them is not ready and not degraded. */
  lemma {:induction false} StalePlaneIsNeverGood(s: Snapshot, plane: PlaneId, f: FreshnessState)
    requires f != CURRENT && forall i | 0 <= i < |s.harnesses| :: s.harnesses[i].freshness == f
    ensures var a := SummarizedPlane(plane, InPlane(Summaries(s.harnesses), plane)).aggregate; WithFreshness(a, f) == a
  {
    var all := Summaries(s.harnesses);
    var chosen := Selected(InPlane(all, plane));
    InPlaneKeeps(all, plane);
    SelectedKeeps(InPlane(all, plane));
    WorstAggregateIsWorst(Aggregates(chosen));
    var worst := WorstAggregate(Aggregates(chosen));
    if worst in Aggregates(chosen) {
      var i :| 0 <= i < |chosen| && Aggregates(chosen)[i] == worst;
      assert chosen[i] in all;
      var j :| 0 <= j < |all| && all[j] == chosen[i];
      StaleIsNeverGood(s.harnesses[j]);
    }
  }

  /** The submitted planes and the overview's have the same aggregates. */
  lemma {:induction false} OwnPlaneIsExpected(s: Snapshot, org: string, now: int, i: nat) returns (j: nat)
    requires Admitted(s, org, now) && i < |s.planes|
    ensures |s.planes| == |s.overview.planes| == 4 && j < 4 && s.overview.planes[j] == s.planes[i].summary
    ensures s.planes[i].summary.plane == PLANES[j]
  {
    OverviewChecked(s, org, now);
    PlanesChecked(s, org, now);
    j :| 0 <= j < 4 && s.overview.planes[j] == s.planes[i].summary;
  }

  lemma {:induction false} HarnessChecked(o: Overview, b: Binding, h: Harness, now: int)
    requires HarnessFault(o, b, h, now) == None
    ensures h.id < HARNESS_COUNT && h.plane == PlaneOf(h.id) && DeriveFreshness(h.binding, now) == Ok(h.freshness)
  {
  }

  lemma {:induction false} HarnessStands(s: Snapshot, org: string, now: int, i: nat)
    requires Admitted(s, org, now) && i < HARNESS_COUNT
    ensures |s.harnesses| == HARNESS_COUNT && s.harnesses[i].plane == PlaneOf(i)
  {
    OverviewChecked(s, org, now);
    HarnessChecked(s.overview, s.overview.binding.value, s.harnesses[i], now);
  }

  lemma {:induction false} EveryPlaneIsSubmitted(s: Snapshot, org: string, now: int, j: nat)
    requires Admitted(s, org, now) && j < 4
    ensures HasPlane(s.planes, PLANES[j])
  {
    PlanesChecked(s, org, now);
    HarnessStands(s, org, now, 4 * j);
  }

  lemma {:induction false} ExpectedPlaneIsOwn(s: Snapshot, org: string, now: int, j: nat) returns (i: nat)
    requires Admitted(s, org, now) && j < 4
    ensures |s.planes| == |s.overview.planes| == 4 && i < 4 && s.overview.planes[j] == s.planes[i].summary
  {
    EveryPlaneIsSubmitted(s, org, now, j);
    i :| 0 <= i < |s.planes| && s.planes[i].summary.plane == PLANES[j];
    var k := OwnPlaneIsExpected(s, org, now, i);
    assert PLANES[k] == PLANES[j] ==> k == j;
  }

  lemma {:induction false} PlanesCover(s: Snapshot, org: string, now: int)
    requires Admitted(s, org, now)
    ensures forall a :: a in PlaneAggregates(PlaneSummaries(s.planes)) <==> a in PlaneAggregates(s.overview.planes)
  {
    PlanesChecked(s, org, now);
    var own, expected := PlaneAggregates(PlaneSummaries(s.planes)), PlaneAggregates(s.overview.planes);
    forall a | a in own ensures a in expected {
      var i :| 0 <= i < |own| && own[i] == a;
      var j := OwnPlaneIsExpected(s, org, now, i);
      assert expected[j] == a;
    }
    forall a | a in expected ensures a in own {
      var j :| 0 <= j < |expected| && expected[j] == a;
      var k := OwnPlaneIsExpected(s, org, now, 0);
      var i := ExpectedPlaneIsOwn(s, org, now, j);
      assert own[i] == a;
    }
  }

  lemma {:induction false} SharedFreshness(s: Snapshot, org: string, now: int)
    requires Admitted(s, org, now) && SharesBinding(s)
    ensures forall i | 0 <= i < |s.harnesses| :: Some(s.harnesses[i].freshness) == s.overview.freshness
  {
    OverviewChecked(s, org, now);
    forall i | 0 <= i < |s.harnesses| ensures Some(s.harnesses[i].freshness) == s.overview.freshness {
      HarnessChecked(s.overview, s.overview.binding.value, s.harnesses[i], now);
    }
  }

  lemma {:induction false} OverviewIsWorstPlane(s: Snapshot, org: string, now: int, planes: seq<Plane>)
    requires Admitted(s, org, now) && |planes| == |s.planes|
    requires forall i | 0 <= i < |planes| :: planes[i].summary.aggregate == s.planes[i].summary.aggregate
    ensures WorstPlane(planes, EMPTY) == s.overview.aggregate
  {
    OverviewChecked(s, org, now);
    PlanesCover(s, org, now);
    WorstPlaneIsWorst(planes, EMPTY);
    var own := PlaneAggregates(PlaneSummaries(s.planes));
    assert PlaneAggregates(PlaneSummaries(planes)) == own;
    WorstAggregateIsWorst(PlaneAggregates(s.overview.planes));
    forall a | a in own ensures AggregateRank(a) <= AggregateRank(WorstPlane(planes, EMPTY)) {
      var i :| 0 <= i < |own| && own[i] == a;
    }
    assert IsWorst(own, WorstPlane(planes, EMPTY)) && IsWorst(own, s.overview.aggregate);
    WorstIsUnique(own, WorstPlane(planes, EMPTY), s.overview.aggregate);
  }

  /**
   With one shared binding and no source out, a reader at the instant of admission is shown exactly
   the validated aggregate of every harness, of every plane and of the overview.
   */
  lemma {:induction false} SharedBindingIsReproduced(s: Snapshot, org: string, now: int)
    requires Admitted(s, org, now) && SharesBinding(s)
    ensures Materialize(s, {}, now).Ok?
    ensures var t := Materialize(s, {}, now).value;
      t.harnesses == s.harnesses && |t.planes| == |s.planes|
      && (forall i | 0 <= i < |s.planes| ::
            t.planes[i].summary.plane == s.planes[i].summary.plane
              && t.planes[i].summary.aggregate == s.planes[i].summary.aggregate)
      && t.overview.aggregate == s.overview.aggregate && t.overview.freshness == s.overview.freshness
  {
    OverviewChecked(s, org, now);
    ReadingRefinesValidation(s, org, now);
    var t := Materialize(s, {}, now).value;
    var f := s.overview.freshness.value;
    SharedFreshness(s, org, now);
    forall i | 0 <= i < |s.planes| ensures t.planes[i].summary.aggregate == s.planes[i].summary.aggregate {
      PlaneIsReproduced(s, org, now, i);
      if f != CURRENT {
        StalePlaneIsNeverGood(s, s.planes[i].summary.plane, f);
      }
    }
    OverviewIsWorstPlane(s, org, now, t.planes);
    StaleOverviewIsNeverGood(s, t.planes, f);
  }

  lemma {:induction false} StaleOverviewIsNeverGood(s: Snapshot, planes: seq<Plane>, f: FreshnessState)
    requires forall i | 0 <= i < |planes| ::
      WithFreshness(planes[i].summary.aggregate, f) == planes[i].summary.aggregate
    ensures WithFreshness(WorstPlane(planes, EMPTY), f) == WorstPlane(planes, EMPTY)
  {
    WorstPlaneIsWorst(planes, EMPTY);
    var all := PlaneAggregates(PlaneSummaries(planes));
    if WorstPlane(planes, EMPTY) in all {
      var i :| 0 <= i < |all| && all[i] == WorstPlane(planes, EMPTY);
      assert WithFreshness(planes[i].summary.aggregate, f) == planes[i].summary.aggregate;
    }
  }

  // ---------- the overview dominates ----------

  lemma {:induction false} ReadHarnessesPointwise(hs: seq<Harness>, down: set<string>, now: int)
    requires ReadHarnesses(hs, down, now).Ok?
    ensures var r := ReadHarnesses(hs, down, now).value;
      |r| == |hs| && forall i | 0 <= i < |hs| ::
        r[i].plane == hs[i].plane && r[i].selection == hs[i].selection && r[i].aggregate == Summarized(r[i]).aggregate
  {
    if hs != [] {
      ReadHarnessesPointwise(hs[1..], down, now);
    }
  }

  lemma {:induction false} ReadPlanesPointwise(planes: seq<Plane>, summaries: seq<Summary>, down: set<string>, now: int)
    requires ReadPlanes(planes, summaries, down, now).Ok?
    ensures var r := ReadPlanes(planes, summaries, down, now).value;
      |r| == |planes| && forall i | 0 <= i < |planes| ::
        r[i].summary.plane == planes[i].summary.plane
        && r[i].summary.aggregate
           == WithFreshness(SummarizedPlane(r[i].summary.plane, InPlane(summaries, r[i].summary.plane)).aggregate,
             r[i].freshness)
  {
    if planes != [] {
      ReadPlanesPointwise(planes[1..], summaries, down, now);
    }
  }

  lemma WithFreshnessNeverLowers(s: AggregateState, f: FreshnessState)
    ensures AggregateRank(s) <= AggregateRank(WithFreshness(s, f))
  {
  }

  /** A plane ranks at least as high as each of its harnesses; those that are not selected rank lowest. */
  lemma {:induction false} PlaneDominates(h: Harness, summaries: seq<Summary>)
    requires Summarized(h) in summaries && h.aggregate == Summarized(h).aggregate
    ensures AggregateRank(h.aggregate) <= AggregateRank(SummarizedPlane(h.plane, InPlane(summaries, h.plane)).aggregate)
  {
    var chosen := Selected(InPlane(summaries, h.plane));
    InPlaneKeeps(summaries, h.plane);
    SelectedKeeps(InPlane(summaries, h.plane));
    WorstAggregateIsWorst(Aggregates(chosen));
    if IsSelected(Summarized(h)) {
      var i :| 0 <= i < |chosen| && chosen[i] == Summarized(h);
      assert Aggregates(chosen)[i] in Aggregates(chosen);
    }
  }

  lemma {:induction false} PlanesDominate(harnesses: seq<Harness>, planes: seq<Plane>, i: nat, j: nat)
    requires i < |harnesses| && j < |planes| && planes[j].summary.plane == harnesses[i].plane
    requires harnesses[i].aggregate == Summarized(harnesses[i]).aggregate
    requires planes[j].summary.aggregate == WithFreshness(
      SummarizedPlane(planes[j].summary.plane, InPlane(Summaries(harnesses), planes[j].summary.plane)).aggregate,
      planes[j].freshness)
    ensures AggregateRank(harnesses[i].aggregate) <= AggregateRank(planes[j].summary.aggregate)
  {
    var all := Summaries(harnesses);
    assert all[i] in all;
    PlaneDominates(harnesses[i], all);
    WithFreshnessNeverLowers(SummarizedPlane(harnesses[i].plane, InPlane(all, harnesses[i].plane)).aggregate,
      planes[j].freshness);
  }

  /** Whenever an admitted snapshot is read, the overview ranks at least as high as every plane and every harness. */
  lemma {:induction false} OverviewDominates(s: Snapshot, org: string, admitted: int, down: set<string>, now: int)
    requires Admitted(s, org, admitted) && Materialize(s, down, now).Ok?
    ensures var t := Materialize(s, down, now).value;
      && (forall i | 0 <= i < |t.planes| ::
        AggregateRank(t.planes[i].summary.aggregate) <= AggregateRank(t.overview.aggregate))
      && (forall i | 0 <= i < |t.harnesses| ::
        AggregateRank(t.harnesses[i].aggregate) <= AggregateRank(t.overview.aggregate))
      && (forall i, j | 0 <= i < |t.harnesses| && 0 <= j < |t.planes|
        && t.planes[j].summary.plane == t.harnesses[i].plane ::
            AggregateRank(t.harnesses[i].aggregate) <= AggregateRank(t.planes[j].summary.aggregate))
  {
    PlanesChecked(s, org, admitted);
    var t := Materialize(s, down, now).value;
    ReadHarnessesPointwise(s.harnesses, down, now);
    ReadPlanesPointwise(s.planes, Summaries(t.harnesses), down, now);
    WorstPlaneIsWorst(t.planes, EMPTY);
    WithFreshnessNeverLowers(WorstPlane(t.planes, EMPTY), t.overview.freshness.value);
    forall i, j | 0 <= i < |t.harnesses| && 0 <= j < |t.planes| && t.planes[j].summary.plane == t.harnesses[i].plane
      ensures AggregateRank(t.harnesses[i].aggregate) <= AggregateRank(t.planes[j].summary.aggregate)
    {
      PlanesDominate(t.harnesses, t.planes, i, j);
    }
    forall i | 0 <= i < |t.harnesses|
      ensures AggregateRank(t.harnesses[i].aggregate) <= AggregateRank(t.overview.aggregate)
    {
      assert HasPlane(s.planes, s.harnesses[i].plane);
      var j :| 0 <= j < |s.planes| && s.planes[j].summary.plane == s.harnesses[i].plane;
      PlanesDominate(t.harnesses, t.planes, i, j);
    }
  }

  // ---------- what can be read ----------

  /** The binding is valid and was projected by now. */
  predicate IsInForce(b: Binding, now: int) { BindingFault(b) == None && b.projectedAt <= now }

  /** Every binding in the snapshot is valid and was projected by now; a snapshot without a binding has none. */
  predicate IsReadable(s: Snapshot, now: int) {
    s.overview.binding.Some? ==>
      && IsInForce(s.overview.binding.value, now)
      && (forall i | 0 <= i < |s.harnesses| :: IsInForce(s.harnesses[i].binding, now))
      && (forall i | 0 <= i < |s.planes| :: IsInForce(s.planes[i].binding, now))
  }

  lemma FreshnessReadExactly(b: Binding, down: set<string>, now: int)
    ensures ReadFreshness(b, down, now).Ok? <==> IsInForce(b, now)
  {
    MarkingKeepsValid(b, down);
  }

  lemma {:induction false} HarnessesReadExactly(harnesses: seq<Harness>, down: set<string>, now: int)
    ensures ReadHarnesses(harnesses, down, now).Ok?
      <==> forall i | 0 <= i < |harnesses| :: IsInForce(harnesses[i].binding, now)
  {
    if harnesses != [] {
      FreshnessReadExactly(harnesses[0].binding, down, now);
      HarnessesReadExactly(harnesses[1..], down, now);
      assert forall i | 0 < i < |harnesses| :: harnesses[i] == harnesses[1..][i - 1];
      assert forall i | 0 <= i < |harnesses| - 1 :: harnesses[1..][i] == harnesses[i + 1];
    }
  }

  lemma {:induction false} PlanesReadExactly(
    planes: seq<Plane>, summaries: seq<Summary>, down: set<string>, now: int)
    ensures ReadPlanes(planes, summaries, down, now).Ok?
      <==> forall i | 0 <= i < |planes| :: IsInForce(planes[i].binding, now)
  {
    if planes != [] {
      FreshnessReadExactly(planes[0].binding, down, now);
      PlanesReadExactly(planes[1..], summaries, down, now);
      assert forall i | 0 < i < |planes| :: planes[i] == planes[1..][i - 1];
      assert forall i | 0 <= i < |planes| - 1 :: planes[1..][i] == planes[i + 1];
    }
  }

  /** Any snapshot, at any time and with any sources out, can be read if and only if its bindings allow it. */
  lemma MaterializesExactly(s: Snapshot, down: set<string>, now: int)
    ensures Materialize(s, down, now).Ok? <==> IsReadable(s, now)
  {
    if s.overview.binding.Some? {
      FreshnessReadExactly(s.overview.binding.value, down, now);
      HarnessesReadExactly(s.harnesses, down, now);
      if ReadHarnesses(s.harnesses, down, now).Ok? {
        PlanesReadExactly(s.planes, Summaries(ReadHarnesses(s.harnesses, down, now).value), down, now);
      }
    }
  }

  /** From its admission on, an admitted snapshot can be read if and only if the bindings of its planes allow it. */
  lemma AdmittedReadsExactly(s: Snapshot, org: string, admitted: int, down: set<string>, now: int)
    requires Admitted(s, org, admitted) && admitted <= now
    ensures Materialize(s, down, now).Ok? <==> forall i | 0 <= i < |s.planes| :: IsInForce(s.planes[i].binding, now)
  {
    MaterializesExactly(s, down, now);
    OverviewChecked(s, org, admitted);
    forall i | 0 <= i < |s.harnesses| ensures IsInForce(s.harnesses[i].binding, now) {
      HarnessChecked(s.overview, s.overview.binding.value, s.harnesses[i], admitted);
    }
  }

  lemma InvalidPlaneIsNotRead(s: Snapshot, i: nat, down: set<string>, now: int)
    requires s.overview.binding.Some? && i < |s.planes| && BindingFault(s.planes[i].binding) != None
    ensures !IsReadable(s, now) && Materialize(s, down, now).Err?
  {
    assert !IsInForce(s.planes[i].binding, now);
    MaterializesExactly(s, down, now);
  }

  /** The snapshot with generation 0 in the binding of its first plane. */
  function Invalidated(s: Snapshot): Snapshot
    requires |s.planes| > 0
  {
    s.(planes := s.planes[0 := s.planes[0].(binding := s.planes[0].binding.(generation := 0))])
  }

  lemma {:induction false} InvalidatedIsAdmitted(s: Snapshot, org: string, now: int)
    requires Admitted(s, org, now)
    ensures |s.planes| == 4 && Admitted(Invalidated(s), org, now)
    ensures PlaneSummaries(Invalidated(s).planes) == PlaneSummaries(s.planes)
  {
    PlanesChecked(s, org, now);
    var twin := Invalidated(s);
    assert forall i | 0 <= i < 4 :: twin.planes[i].summary == s.planes[i].summary;
    forall plane | HasPlane(s.planes, plane) ensures HasPlane(twin.planes, plane) {
      var i :| 0 <= i < |s.planes| && s.planes[i].summary.plane == plane;
      assert twin.planes[i].summary.plane == plane;
    }
    assert PlanesFault(twin, org) == None;
    assert PlaneSummaries(twin.planes) == PlaneSummaries(s.planes);
  }

  lemma InvalidatedIsNeverRead(s: Snapshot)
    requires s.overview.binding.Some? && |s.planes| > 0
    ensures forall later :: !IsReadable(Invalidated(s), later)
    ensures forall down, later :: Materialize(Invalidated(s), down, later).Err?
  {
    forall later ensures !IsReadable(Invalidated(s), later) {
      InvalidPlaneIsNotRead(Invalidated(s), 0, {}, later);
    }
    forall down, later ensures Materialize(Invalidated(s), down, later).Err? {
      InvalidPlaneIsNotRead(Invalidated(s), 0, down, later);
    }
  }

  /** Admission looks at a plane's binding only for its organization: any admitted snapshot has an equally admitted
      twin that can never be read. */
  lemma {:induction false} PlaneBindingsAreNotChecked(s: Snapshot, org: string, now: int) returns (twin: Snapshot)
    requires Admitted(s, org, now)
    ensures Admitted(twin, org, now) && twin.overview == s.overview && twin.harnesses == s.harnesses
    ensures PlaneSummaries(twin.planes) == PlaneSummaries(s.planes)
    ensures forall later :: !IsReadable(twin, later)
    ensures forall down, later :: Materialize(twin, down, later).Err?
  {
    InvalidatedIsAdmitted(s, org, now);
    InvalidatedIsNeverRead(s);
    twin := Invalidated(s);
  }
}
