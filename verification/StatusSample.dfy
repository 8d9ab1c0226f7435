/** A snapshot that passes admission: sixteen harnesses, all selected, installed and with every axis passing. */
module StatusSample {
  import opened Basics
  import opened StatusModel
  import opened StatusMeaning
  import opened StatusRefinement
  import opened StatusIngest

  function SampleBinding(org: string, now: int): Binding {
    Binding(org, "profile", "bundle", "release", 1, now, now + 1, [Cursor("source", "cursor", now, false)])
  }

  function SampleAxes(): (axes: seq<Axis>)
    ensures |axes| == AXIS_COUNT && forall i | 0 <= i < |axes| :: axes[i] == Axis(i, true, PASS, None, false)
  {
    seq(AXIS_COUNT, (i: nat) => Axis(i, true, PASS, None, false))
  }

  function SampleHarness(b: Binding, id: nat): Harness
    requires id < HARNESS_COUNT
  {
    Harness(b, id, PlaneOf(id), SELECTED, InstallationState.READY, AggregateState.READY, SampleAxes(), CURRENT, 0,
      "ready")
  }

  function SampleHarnesses(b: Binding): (r: seq<Harness>)
    ensures |r| == HARNESS_COUNT && forall i | 0 <= i < HARNESS_COUNT :: r[i] == SampleHarness(b, i)
  {
    seq(HARNESS_COUNT, i requires 0 <= i < HARNESS_COUNT => SampleHarness(b, i))
  }

  /** The overview and the planes that are derived from harnesses with this binding. */
  function DerivedSnapshot(b: Binding, harnesses: seq<Harness>): Snapshot {
    var summaries := Summaries(harnesses);
    var planes := ExpectedPlanes(summaries);
    Snapshot(
      Overview(Some(b), b.org, "name", false, WorstAggregate(PlaneAggregates(planes)), Some(CURRENT), planes,
        summaries),
      seq(|planes|, i requires 0 <= i < |planes| => Plane(b, planes[i], CURRENT)),
      harnesses)
  }

  /** Every plane has its four harnesses. */
  lemma {:induction false} FourToAPlane(summaries: seq<Summary>, from: nat, q: nat)
    requires q < 4 && from <= |summaries| == HARNESS_COUNT && forall i | 0 <= i < HARNESS_COUNT ::
      summaries[i].plane == PlaneOf(i)
    ensures |InPlane(summaries[from..], PLANES[q])| == if from <= 4 * q then 4
      else if from < 4 * q + 4 then 4 * q + 4 - from else 0
    decreases HARNESS_COUNT - from
  {
    if from < HARNESS_COUNT {
      FourToAPlane(summaries, from + 1, q);
      assert summaries[from..][1..] == summaries[from + 1..];
      assert PlaneOf(from) == PLANES[q] <==> from / 4 == q;
    }
  }

  lemma {:induction false} FoundAt(summaries: seq<Summary>, from: nat, id: nat)
    requires from <= id < |summaries| && forall i | 0 <= i < |summaries| :: summaries[i].id == i
    ensures FindSummary(summaries[from..], id) == Some(summaries[id])
    decreases id - from
  {
    if from < id {
      FoundAt(summaries, from + 1, id);
      assert summaries[from..][1..] == summaries[from + 1..];
    }
  }

  predicate AllPass(axes: seq<Axis>) {
    |axes| == AXIS_COUNT
    && forall i | 0 <= i < |axes| ::
         axes[i].number == i && axes[i].state == PASS && !axes[i].waived && axes[i].underlying.None?
  }

  predicate IsReady(h: Harness, b: Binding, id: nat) {
    && id < HARNESS_COUNT && h.id == id && h.plane == PlaneOf(id) && h.binding == b && h.selection == SELECTED
    && h.installation == InstallationState.READY && h.aggregate == AggregateState.READY && h.freshness == CURRENT
    && AllPass(h.axes)
  }

  lemma ReadyHarnessStands(o: Overview, b: Binding, h: Harness, now: int, id: nat)
    requires IsReady(h, b, id) && DeriveFreshness(b, now) == Ok(CURRENT)
      && FindSummary(o.harnesses, id) == Some(Summarized(h))
    ensures HarnessFault(o, b, h, now) == None
  {
    ReadyExactly(h.selection, h.installation, h.axes, h.freshness);
  }

  lemma SampleHarnessIsReady(b: Binding, id: nat)
    requires id < HARNESS_COUNT
    ensures IsReady(SampleHarness(b, id), b, id)
  {
  }

  lemma {:induction false} NoHarnessFault(o: Overview, b: Binding, harnesses: seq<Harness>, now: int)
    requires forall i | 0 <= i < |harnesses| :: HarnessFault(o, b, harnesses[i], now) == None
    ensures HarnessesFault(o, b, harnesses, now) == None
  {
    if harnesses != [] {
      NoHarnessFault(o, b, harnesses[1..], now);
    }
  }

  /** An overview whose parts are all derived from ready harnesses. */
  predicate IsDerived(o: Overview, b: Binding, harnesses: seq<Harness>) {
    && o.binding == Some(b) && b.org == o.org && !o.empty && o.freshness == Some(CURRENT)
    && |harnesses| == HARNESS_COUNT && (forall i | 0 <= i < HARNESS_COUNT :: IsReady(harnesses[i], b, i))
    && o.harnesses == Summaries(harnesses) && o.planes == ExpectedPlanes(o.harnesses)
    && o.aggregate == WorstAggregate(PlaneAggregates(o.planes))
  }

  lemma DerivedHarnessesStand(o: Overview, b: Binding, harnesses: seq<Harness>, now: int)
    requires IsDerived(o, b, harnesses) && DeriveFreshness(b, now) == Ok(CURRENT)
    ensures HarnessesFault(o, b, harnesses, now) == None
  {
    forall i | 0 <= i < HARNESS_COUNT ensures HarnessFault(o, b, harnesses[i], now) == None {
      FoundAt(o.harnesses, 0, i);
      assert o.harnesses[0..] == o.harnesses;
      ReadyHarnessStands(o, b, harnesses[i], now, i);
    }
    NoHarnessFault(o, b, harnesses, now);
  }

  lemma DerivedPlanesAreFull(o: Overview, b: Binding, harnesses: seq<Harness>)
    requires IsDerived(o, b, harnesses)
    ensures |o.planes| == 4 && forall q | 0 <= q < 4 :: o.planes[q].plane == PLANES[q] && |o.planes[q].harnesses| == 4
  {
    forall q | 0 <= q < 4 ensures |o.planes[q].harnesses| == 4 {
      FourToAPlane(o.harnesses, 0, q);
      assert o.harnesses[0..] == o.harnesses;
    }
  }

  lemma DerivedOverviewStands(o: Overview, b: Binding, harnesses: seq<Harness>, now: int)
    requires IsDerived(o, b, harnesses) && DeriveFreshness(b, now) == Ok(CURRENT)
    ensures OverviewFault(o, harnesses, now) == None
  {
    DerivedHarnessesStand(o, b, harnesses, now);
    DerivedPlanesAreFull(o, b, harnesses);
  }

  lemma DerivedPlanesStand(s: Snapshot, b: Binding)
    requires IsDerived(s.overview, b, s.harnesses) && |s.planes| == 4
    requires forall q | 0 <= q < 4 :: s.planes[q].binding == b && s.planes[q].summary == s.overview.planes[q]
    ensures PlanesFault(s, b.org) == None
  {
    DerivedPlanesAreFull(s.overview, b, s.harnesses);
    forall i | 0 <= i < HARNESS_COUNT ensures HasPlane(s.planes, s.harnesses[i].plane) {
      assert s.planes[i / 4].summary.plane == PLANES[i / 4];
    }
  }

  lemma DerivedIsDerived(b: Binding, harnesses: seq<Harness>)
    requires |harnesses| == HARNESS_COUNT && forall i | 0 <= i < HARNESS_COUNT :: IsReady(harnesses[i], b, i)
    ensures var s := DerivedSnapshot(b, harnesses);
      && IsDerived(s.overview, b, s.harnesses) && |s.planes| == 4
      && forall q | 0 <= q < 4 :: s.planes[q].binding == b && s.planes[q].summary == s.overview.planes[q]
  {
  }

  lemma DerivedIsAdmitted(b: Binding, harnesses: seq<Harness>, now: int)
    requires |harnesses| == HARNESS_COUNT && forall i | 0 <= i < HARNESS_COUNT :: IsReady(harnesses[i], b, i)
    requires DeriveFreshness(b, now) == Ok(CURRENT)
    ensures Admitted(DerivedSnapshot(b, harnesses), b.org, now) && SharesBinding(DerivedSnapshot(b, harnesses))
  {
    var s := DerivedSnapshot(b, harnesses);
    DerivedIsDerived(b, harnesses);
    DerivedOverviewStands(s.overview, b, harnesses, now);
    DerivedPlanesStand(s, b);
  }

  lemma SampleBindingIsCurrent(org: string, now: int)
    ensures DeriveFreshness(SampleBinding(org, now), now) == Ok(CURRENT)
  {
  }

  /** For every organization and instant some snapshot is admitted, with one binding shared by all its parts. */
  lemma SomethingIsAdmitted(org: string, now: int) returns (s: Snapshot)
    ensures Admitted(s, org, now) && SharesBinding(s) && s.overview.binding.value.org == org
  {
    var b := SampleBinding(org, now);
    var harnesses := SampleHarnesses(b);
    forall i | 0 <= i < HARNESS_COUNT ensures IsReady(harnesses[i], b, i) {
      SampleHarnessIsReady(b, i);
    }
    SampleBindingIsCurrent(org, now);
    DerivedIsAdmitted(b, harnesses, now);
    s := DerivedSnapshot(b, harnesses);
  }
}
