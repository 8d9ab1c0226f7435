/** What each derived state of a harness means, and what passing evidence does to it and to all that readers see. */
module StatusMeaning {
  import opened Basics
  import opened StatusModel
  import opened StatusOrder

  predicate IsChosen(selection: SelectionState) { selection == SELECTED || selection == SelectionState.BLOCKED }

  predicate SomeRequiredFails(axes: seq<Axis>) {
    exists i | 0 <= i < |axes| :: axes[i].required && axes[i].state == FAIL
  }

  predicate SomeRequiredBlocks(axes: seq<Axis>) {
    exists i | 0 <= i < |axes| :: axes[i].required && IsBlocking(axes[i].state)
  }

  predicate AllGood(axes: seq<Axis>) { forall i | 0 <= i < |axes| :: IsGood(axes[i].state) }

  /**
   A harness is ready if and only if it is selected, installed and fresh and every axis, required or
   not, passes or does not apply. So the program's last test, of the required axes alone, never fails.
   */
  lemma ReadyExactly(
    selection: SelectionState, installation: InstallationState, axes: seq<Axis>, freshness: FreshnessState)
    ensures DeriveAggregate(selection, installation, axes, freshness) == AggregateState.READY <==>
      selection == SELECTED && installation == InstallationState.READY && freshness == CURRENT && AllGood(axes)
  {
    if i :| 0 <= i < |axes| && !IsGood(axes[i].state) {
      var a := axes[i];
      assert a.required ==> a.state == FAIL || IsBlocking(a.state) || a.state == WARN || a.state == WAIVED;
    }
  }

  /** It has failed if and only if its installation or a required axis has, and it is not revoked. */
  lemma FailedExactly(
    selection: SelectionState, installation: InstallationState, axes: seq<Axis>, freshness: FreshnessState)
    ensures DeriveAggregate(selection, installation, axes, freshness) == AggregateState.FAILED <==>
      IsChosen(selection) && installation != InstallationState.REVOKED
      && (installation == InstallationState.FAILED || SomeRequiredFails(axes))
  {
    if i :| 0 <= i < |axes| && axes[i].required && axes[i].state == FAIL {
      assert SomeAxis(axes, (a: Axis) => a.required && a.state == FAIL);
    }
  }

  /**
   It is blocked if and only if nothing has failed or been revoked and it was selected as blocked, is
   not installed, is not fresh, or lacks the evidence of a required axis. No other axis blocks it.
   */
  lemma BlockedExactly(
    selection: SelectionState, installation: InstallationState, axes: seq<Axis>, freshness: FreshnessState)
    ensures DeriveAggregate(selection, installation, axes, freshness) == AggregateState.BLOCKED <==>
      IsChosen(selection) && installation != InstallationState.REVOKED && installation != InstallationState.FAILED
      && !SomeRequiredFails(axes)
      && (selection == SelectionState.BLOCKED
        || (installation != InstallationState.READY && installation != InstallationState.DEGRADED)
          || freshness != CURRENT || SomeRequiredBlocks(axes))
  {
    ReadyExactly(selection, installation, axes, freshness);
    FailedExactly(selection, installation, axes, freshness);
    if i :| 0 <= i < |axes| && axes[i].required && IsBlocking(axes[i].state) {
      assert SomeAxis(axes, (a: Axis) => a.required && IsBlocking(a.state));
    }
  }

  /** An axis that comes to pass never makes the state of its harness worse. */
  lemma PassingNeverHurts(
    selection: SelectionState, installation: InstallationState, axes: seq<Axis>, freshness: FreshnessState, i: nat)
    requires i < |axes|
    ensures AggregateRank(DeriveAggregate(selection, installation, axes[i := axes[i].(state := PASS)], freshness))
      <= AggregateRank(DeriveAggregate(selection, installation, axes, freshness))
  {
    var more := axes[i := axes[i].(state := PASS)];
    ReadyExactly(selection, installation, axes, freshness);
    ReadyExactly(selection, installation, more, freshness);
    FailedExactly(selection, installation, axes, freshness);
    FailedExactly(selection, installation, more, freshness);
    BlockedExactly(selection, installation, axes, freshness);
    BlockedExactly(selection, installation, more, freshness);
    if j :| 0 <= j < |more| && more[j].required && more[j].state == FAIL {
      assert axes[j] == more[j];
    }
    if j :| 0 <= j < |more| && more[j].required && IsBlocking(more[j].state) {
      assert axes[j] == more[j];
    }
    if AllGood(axes) {
      assert forall j | 0 <= j < |more| :: more[j] == axes[j] || more[j].state == PASS;
    }
  }

  // ---------- what readers see ----------

  /** The harness with its k-th axis passing. */
  function Passed(h: Harness, k: nat): Harness
    requires k < |h.axes|
  {
    h.(axes := h.axes[k := h.axes[k].(state := PASS)])
  }

  lemma PassedIsRead(h: Harness, k: nat, down: set<string>, now: int)
    requires k < |h.axes| && ReadHarness(h, down, now).Ok?
    ensures ReadHarness(Passed(h, k), down, now).Ok?
    ensures var r, q := ReadHarness(h, down, now).value, ReadHarness(Passed(h, k), down, now).value;
      q.plane == r.plane && q.selection == r.selection
      && AggregateRank(Summarized(q).aggregate) <= AggregateRank(Summarized(r).aggregate)
  {
    PassingNeverHurts(h.selection, h.installation, h.axes, ReadFreshness(h.binding, down, now).value, k);
  }

  lemma NoneBetterThanItself(a: seq<Summary>)
    ensures NoneBetter(a, a)
  {
  }

  lemma JoinNoneBetter(a: seq<Harness>, b: seq<Harness>)
    requires a != [] && b != [] && NoneBetter(Summaries(a[1..]), Summaries(b[1..]))
    requires b[0].plane == a[0].plane && b[0].selection == a[0].selection
    requires AggregateRank(Summarized(a[0]).aggregate) <= AggregateRank(Summarized(b[0]).aggregate)
    ensures NoneBetter(Summaries(a), Summaries(b))
  {
    forall i | 0 <= i < |a|
      ensures Summaries(b)[i].plane == Summaries(a)[i].plane && Summaries(b)[i].selection == Summaries(a)[i].selection
        && AggregateRank(Summaries(a)[i].aggregate) <= AggregateRank(Summaries(b)[i].aggregate)
    {
      if i > 0 {
        assert Summaries(a[1..])[i - 1] == Summaries(a)[i] && Summaries(b[1..])[i - 1] == Summaries(b)[i];
      }
    }
  }

  lemma {:induction false} PassedAreRead(hs: seq<Harness>, i: nat, k: nat, down: set<string>, now: int)
    requires i < |hs| && k < |hs[i].axes| && ReadHarnesses(hs, down, now).Ok?
    ensures ReadHarnesses(hs[i := Passed(hs[i], k)], down, now).Ok?
    ensures NoneBetter(Summaries(ReadHarnesses(hs[i := Passed(hs[i], k)], down, now).value),
      Summaries(ReadHarnesses(hs, down, now).value))
  {
    var passed := hs[i := Passed(hs[i], k)];
    if i == 0 {
      assert passed[1..] == hs[1..];
      PassedIsRead(hs[0], k, down, now);
      NoneBetterThanItself(Summaries(ReadHarnesses(hs[1..], down, now).value));
    } else {
      assert passed[1..] == hs[1..][i - 1 := Passed(hs[1..][i - 1], k)];
      PassedAreRead(hs[1..], i - 1, k, down, now);
    }
    JoinNoneBetter(ReadHarnesses(passed, down, now).value, ReadHarnesses(hs, down, now).value);
  }

  /**
   Whatever snapshot is read, at any time and with any sources out: if one axis of one harness passed
   instead, it could be read as well, and no harness, no plane and not the overview would rank worse.
   */
  lemma PassingNeverHurtsReaders(s: Snapshot, i: nat, k: nat, down: set<string>, now: int)
    requires i < |s.harnesses| && k < |s.harnesses[i].axes|
    requires s.overview.binding.Some? && Materialize(s, down, now).Ok?
    ensures var t := s.(harnesses := s.harnesses[i := Passed(s.harnesses[i], k)]);
      && Materialize(t, down, now).Ok?
      && var a, b := Materialize(t, down, now).value, Materialize(s, down, now).value;
      && NoneBetter(a.overview.harnesses, b.overview.harnesses) && PlanesWorsen(a.planes, b.planes)
      && AggregateRank(a.overview.aggregate) <= AggregateRank(b.overview.aggregate)
  {
    var passed := s.harnesses[i := Passed(s.harnesses[i], k)];
    PassedAreRead(s.harnesses, i, k, down, now);
    var a := Summaries(ReadHarnesses(passed, down, now).value);
    var b := Summaries(ReadHarnesses(s.harnesses, down, now).value);
    PlanesDependOnBindings(s.planes, b, a, down, now);
    ReadPlanesWorsen(s.planes, a, b, down, down, now, now);
    var p, q := ReadPlanes(s.planes, a, down, now).value, ReadPlanes(s.planes, b, down, now).value;
    WorstPlaneWorsens(p, q);
    var f := ReadFreshness(s.overview.binding.value, down, now).value;
    WithFreshnessIsMonotone(WorstPlane(p, EMPTY), WorstPlane(q, EMPTY), f, f);
  }

  /** Whether planes can be read does not depend on the harnesses. */
  lemma {:induction false} PlanesDependOnBindings(
    planes: seq<Plane>, a: seq<Summary>, b: seq<Summary>, down: set<string>, now: int)
    requires ReadPlanes(planes, a, down, now).Ok?
    ensures ReadPlanes(planes, b, down, now).Ok?
  {
    if planes != [] {
      PlanesDependOnBindings(planes[1..], a, b, down, now);
    }
  }
}
