/**
 Harness status: the snapshot a source submits, how its states are derived and checked, and how the
 store derives them again when it is read.
 */
module StatusModel {
  import opened Basics

  // ---------- states ----------

  datatype SelectionState = NOT_SELECTED | PROPOSED | SELECTED | BLOCKED

  datatype InstallationState =
    | ABSENT | PENDING | PREFLIGHT | VERIFYING | APPLYING | HEALTH_CHECKING | READY | BLOCKED | DEGRADED | FAILED
    | UPGRADING | ROLLING_BACK | UNINSTALLING | REMOVED | RETIRED | REVOKED

  datatype EvidenceState =
    | NOT_APPLICABLE | MISSING | COLLECTING | PASS | WARN | FAIL | STALE | WAIVED | NOT_RUN_ENV_UNAVAILABLE

  datatype FreshnessState = CURRENT | STALE | SOURCE_UNAVAILABLE

  datatype AggregateState = EMPTY | READY | DEGRADED | BLOCKED | FAILED | REVOKED

  datatype PlaneId = RUNTIME | KNOWLEDGE | EXECUTION | TRUST

  const PLANES: seq<PlaneId> := [RUNTIME, KNOWLEDGE, EXECUTION, TRUST]
  const HARNESS_COUNT := 16
  const AXIS_COUNT := 11

  /** The plane of a harness; harnesses are numbered from 0 in the order of the taxonomy. */
  function PlaneOf(harness: nat): PlaneId
    requires harness < HARNESS_COUNT
  {
    PLANES[harness / 4]
  }

  function AggregateRank(s: AggregateState): int {
    match s
    case EMPTY => 0
    case READY => 1
    case DEGRADED => 2
    case BLOCKED => 3
    case FAILED => 4
    case REVOKED => 5
  }

  /** The worst installation state comes first. */
  function InstallationRank(s: InstallationState): nat {
    match s
    case REVOKED => 0
    case FAILED => 1
    case BLOCKED => 2
    case DEGRADED => 3
    case ROLLING_BACK => 4
    case UNINSTALLING => 5
    case UPGRADING => 6
    case HEALTH_CHECKING => 7
    case APPLYING => 8
    case VERIFYING => 9
    case PREFLIGHT => 10
    case PENDING => 11
    case READY => 12
    case RETIRED => 13
    case REMOVED => 14
    case ABSENT => 15
  }

  function EvidenceRank(s: EvidenceState): nat {
    match s
    case FAIL => 0
    case STALE => 1
    case NOT_RUN_ENV_UNAVAILABLE => 2
    case MISSING => 3
    case COLLECTING => 4
    case WAIVED => 5
    case WARN => 6
    case PASS => 7
    case NOT_APPLICABLE => 8
  }

  // ---------- entities ----------

  datatype Cursor = Cursor(sourceId: string, cursor: string, observedAt: int, unavailable: bool)

  datatype Binding = Binding(
    org: string, profile: string, bundle: string, release: string, generation: int,
    projectedAt: int, freshUntil: int, cursors: seq<Cursor>)

  datatype Axis = Axis(number: nat, required: bool, state: EvidenceState, underlying: Option<EvidenceState>,
    waived: bool)

  datatype Harness = Harness(
    binding: Binding, id: nat, plane: PlaneId, selection: SelectionState, installation: InstallationState,
    aggregate: AggregateState, axes: seq<Axis>, freshness: FreshnessState, blockers: nat, reason: string)

  datatype Summary = Summary(
    id: nat, plane: PlaneId, selection: SelectionState, installation: InstallationState, aggregate: AggregateState,
    evidence: EvidenceState, freshness: FreshnessState, blockers: nat, reason: string)

  datatype PlaneSummary = PlaneSummary(
    plane: PlaneId, aggregate: AggregateState, selectedCount: nat, notSelectedCount: nat,
    worstInstallation: Option<InstallationState>, freshness: FreshnessState, blockers: nat, harnesses: seq<Summary>)

  datatype Plane = Plane(binding: Binding, summary: PlaneSummary, freshness: FreshnessState)

  datatype Overview = Overview(
    binding: Option<Binding>, org: string, displayName: string, empty: bool, aggregate: AggregateState,
    freshness: Option<FreshnessState>, planes: seq<PlaneSummary>, harnesses: seq<Summary>)

  datatype Snapshot = Snapshot(overview: Overview, planes: seq<Plane>, harnesses: seq<Harness>)

  datatype Fault =
    | GENERATION_INVALID
    | FRESHNESS_WINDOW_INVALID
    | CURSOR_MISSING
    | CURSOR_ORDER_INVALID
    | CLOCK_INVALID
    | EMPTY_INVALID
    | BINDING_MISSING
    | ORGANIZATION_MISMATCH
    | TAXONOMY_INCOMPLETE
    | TAXONOMY_ORDER_INVALID
    | PLANE_ORDER_INVALID
    | HARNESS_INVALID
    | BINDING_MISMATCH
    | AXIS_ORDER_INVALID
    | WAIVER_INVALID
    | HARNESS_DERIVATION_INVALID
    | SUMMARY_DERIVATION_INVALID
    | FRESHNESS_INVALID
    | PLANE_DERIVATION_INVALID
    | AGGREGATE_INVALID
    | SOURCE_PROJECTION_INVALID
    | SOURCE_AUTHORITY_REFUSED
    | SOURCE_ORDER_INVALID
    | SOURCE_BINDING_INVALID
    | EVENT_CONFLICT
    | CURSOR_GAP
    | PROJECTION_BINDING_CONFLICT
    | PROJECTION_NOT_FOUND
    | QUERY_REFUSED
    | CURSOR_REFUSED

  // ---------- sorting ----------

  /** The stable sort of the host, ascending by rank. */
  function SortedBy<T>(items: seq<T>, rank: T -> int): (r: seq<T>)
    ensures |r| == |items|
  {
    if items == [] then [] else Placed(items[0], SortedBy(items[1..], rank), rank)
  }

  function Placed<T>(item: T, sorted: seq<T>, rank: T -> int): (r: seq<T>)
    ensures |r| == |sorted| + 1
  {
    if sorted == [] || rank(item) <= rank(sorted[0]) then [item] + sorted
    else [sorted[0]] + Placed(item, sorted[1..], rank)
  }

  // ---------- derivations ----------

  function BindingFault(b: Binding): Option<Fault> {
    if b.generation < 1 then Some(GENERATION_INVALID)
    else if b.projectedAt >= b.freshUntil then Some(FRESHNESS_WINDOW_INVALID)
    else if b.cursors == [] then Some(CURSOR_MISSING)
    else if exists i, j | 0 <= i < j < |b.cursors| :: b.cursors[i].sourceId == b.cursors[j].sourceId then
      Some(CURSOR_ORDER_INVALID)
    else None
  }

  predicate SomeUnavailable(b: Binding) { exists i | 0 <= i < |b.cursors| :: b.cursors[i].unavailable }

  function DeriveFreshness(b: Binding, now: int): Result<FreshnessState, Fault> {
    match BindingFault(b)
    case Some(e) => Err(e)
    case None =>
      if now < b.projectedAt then Err(CLOCK_INVALID)
      else Ok(if SomeUnavailable(b) then SOURCE_UNAVAILABLE else if b.freshUntil <= now then FreshnessState.STALE
        else CURRENT)
  }

  predicate SomeAxis(axes: seq<Axis>, p: Axis -> bool) { exists i | 0 <= i < |axes| :: p(axes[i]) }

  predicate IsBlocking(s: EvidenceState) {
    s == MISSING || s == COLLECTING || s == EvidenceState.STALE || s == NOT_RUN_ENV_UNAVAILABLE
  }

  predicate IsGood(s: EvidenceState) { s == PASS || s == NOT_APPLICABLE }

  function DeriveAggregate(
    selection: SelectionState, installation: InstallationState, axes: seq<Axis>,
    freshness: FreshnessState): AggregateState
  {
    if selection == NOT_SELECTED || selection == PROPOSED then EMPTY
    else if installation == InstallationState.REVOKED then AggregateState.REVOKED
    else if installation == InstallationState.FAILED || SomeAxis(axes, (a: Axis) => a.required && a.state == FAIL) then
      AggregateState.FAILED
    else if selection == SelectionState.BLOCKED
      || (installation != InstallationState.READY && installation != InstallationState.DEGRADED)
      || freshness != CURRENT || SomeAxis(axes, (a: Axis) => a.required && IsBlocking(a.state)) then
      AggregateState.BLOCKED
    else if installation == InstallationState.DEGRADED
      || SomeAxis(axes, (a: Axis) => a.state == WARN || a.state == WAIVED || (!a.required && !IsGood(a.state))) then
      AggregateState.DEGRADED
    else if SomeAxis(axes, (a: Axis) => a.required && !IsGood(a.state)) then AggregateState.BLOCKED
    else AggregateState.READY
  }

  function HighestEvidence(axes: seq<Axis>): EvidenceState {
    if axes == [] then MISSING else SortedBy(axes, (a: Axis) => EvidenceRank(a.state))[0].state
  }

  function Summarized(h: Harness): Summary {
    Summary(
      h.id, h.plane, h.selection, h.installation, DeriveAggregate(h.selection, h.installation, h.axes, h.freshness),
      HighestEvidence(h.axes), h.freshness, h.blockers, h.reason)
  }

  function Summaries(harnesses: seq<Harness>): (r: seq<Summary>)
    ensures |r| == |harnesses| && forall i | 0 <= i < |r| :: r[i] == Summarized(harnesses[i])
  {
    seq(|harnesses|, i requires 0 <= i < |harnesses| => Summarized(harnesses[i]))
  }

  /** The first of the states sorted from the worst down. */
  function WorstAggregate(states: seq<AggregateState>): AggregateState {
    if states == [] then EMPTY else SortedBy(states, (s: AggregateState) => -AggregateRank(s))[0]
  }

  predicate IsSelected(s: Summary) { s.selection == SELECTED || s.selection == SelectionState.BLOCKED }

  function Selected(summaries: seq<Summary>): seq<Summary> {
    if summaries == [] then []
    else (if IsSelected(summaries[0]) then [summaries[0]] else []) + Selected(summaries[1..])
  }

  function NotSelectedCount(summaries: seq<Summary>): nat {
    if summaries == [] then 0
      else (if summaries[0].selection == NOT_SELECTED then 1 else 0) + NotSelectedCount(summaries[1..])
  }

  function BlockerSum(summaries: seq<Summary>): nat {
    if summaries == [] then 0 else summaries[0].blockers + BlockerSum(summaries[1..])
  }

  function InPlane(summaries: seq<Summary>, plane: PlaneId): seq<Summary> {
    if summaries == [] then []
    else (if summaries[0].plane == plane then [summaries[0]] else []) + InPlane(summaries[1..], plane)
  }

  function Aggregates(summaries: seq<Summary>): (r: seq<AggregateState>)
    ensures |r| == |summaries| && forall i | 0 <= i < |r| :: r[i] == summaries[i].aggregate
  {
    seq(|summaries|, i requires 0 <= i < |summaries| => summaries[i].aggregate)
  }

  predicate SomeFreshness(summaries: seq<Summary>, f: FreshnessState) {
    exists i | 0 <= i < |summaries| :: summaries[i].freshness == f
  }

  function SummarizedPlane(plane: PlaneId, summaries: seq<Summary>): PlaneSummary {
    var selected := Selected(summaries);
    PlaneSummary(
      plane,
      WorstAggregate(Aggregates(selected)),
      |selected|,
      NotSelectedCount(summaries),
      if selected == [] then None
        else Some(SortedBy(selected, (s: Summary) => InstallationRank(s.installation))[0].installation),
      if SomeFreshness(summaries, SOURCE_UNAVAILABLE) then SOURCE_UNAVAILABLE
      else if SomeFreshness(summaries, FreshnessState.STALE) then FreshnessState.STALE else CURRENT,
      BlockerSum(summaries),
      summaries)
  }

  // ---------- validation ----------

  function ExpectedPlanes(summaries: seq<Summary>): (r: seq<PlaneSummary>)
    ensures |r| == 4 && forall i | 0 <= i < 4 :: r[i] == SummarizedPlane(PLANES[i], InPlane(summaries, PLANES[i]))
  {
    seq(4, i requires 0 <= i < 4 => SummarizedPlane(PLANES[i], InPlane(summaries, PLANES[i])))
  }

  function PlaneAggregates(planes: seq<PlaneSummary>): (r: seq<AggregateState>)
    ensures |r| == |planes| && forall i | 0 <= i < |r| :: r[i] == planes[i].aggregate
  {
    seq(|planes|, i requires 0 <= i < |planes| => planes[i].aggregate)
  }

  predicate SameBinding(a: Binding, b: Binding) {
    a.org == b.org && a.profile == b.profile && a.bundle == b.bundle && a.release == b.release
      && a.generation == b.generation
  }

  predicate WaiverStands(a: Axis) {
    if a.state == WAIVED then a.waived && a.underlying.Some? && !IsGood(a.underlying.value)
    else !a.waived && a.underlying.None?
  }

  /** The first summary of a harness. */
  function FindSummary(summaries: seq<Summary>, id: nat): (r: Option<Summary>)
    ensures r.Some? ==> r.value in summaries && r.value.id == id
  {
    if summaries == [] then None else if summaries[0].id == id then Some(summaries[0])
      else FindSummary(summaries[1..], id)
  }

  function HarnessFault(o: Overview, b: Binding, h: Harness, now: int): Option<Fault> {
    if h.id >= HARNESS_COUNT || PlaneOf(h.id) != h.plane then Some(HARNESS_INVALID)
    else if !SameBinding(h.binding, b) then Some(BINDING_MISMATCH)
    else if |h.axes| != AXIS_COUNT || exists i | 0 <= i < |h.axes| :: h.axes[i].number != i then
      Some(AXIS_ORDER_INVALID)
    else if exists i | 0 <= i < |h.axes| :: !WaiverStands(h.axes[i]) then Some(WAIVER_INVALID)
    else if h.aggregate != Summarized(h).aggregate then Some(HARNESS_DERIVATION_INVALID)
    else
      match DeriveFreshness(h.binding, now)
      case Err(e) => Some(e)
      case Ok(f) =>
        if h.freshness != f then Some(HARNESS_DERIVATION_INVALID)
        else if FindSummary(o.harnesses, h.id) != Some(Summarized(h)) then Some(SUMMARY_DERIVATION_INVALID)
        else None
  }

  /** The fault of the first harness that has one. */
  function HarnessesFault(o: Overview, b: Binding, harnesses: seq<Harness>, now: int): Option<Fault> {
    if harnesses == [] then None
    else
      match HarnessFault(o, b, harnesses[0], now)
      case Some(e) => Some(e)
      case None => HarnessesFault(o, b, harnesses[1..], now)
  }

  function OverviewFault(o: Overview, harnesses: seq<Harness>, now: int): Option<Fault> {
    if o.empty then
      if o.binding.Some? || o.aggregate != EMPTY || o.freshness.Some? || o.planes != [] || o.harnesses != [] then
        Some(EMPTY_INVALID)
      else None
    else if o.binding.None? then Some(BINDING_MISSING)
    else
      var b := o.binding.value;
      match BindingFault(b)
      case Some(e) => Some(e)
      case None =>
        if b.org != o.org then Some(ORGANIZATION_MISMATCH)
        else if |harnesses| != HARNESS_COUNT || |o.harnesses| != HARNESS_COUNT || |o.planes| != 4 then
          Some(TAXONOMY_INCOMPLETE)
        else if exists i | 0 <= i < |harnesses| :: harnesses[i].id != i then Some(TAXONOMY_ORDER_INVALID)
        else if exists i | 0 <= i < 4 :: o.planes[i].plane != PLANES[i] || |o.planes[i].harnesses| != 4 then
          Some(PLANE_ORDER_INVALID)
        else
          match HarnessesFault(o, b, harnesses, now)
          case Some(e) => Some(e)
          case None =>
            match DeriveFreshness(b, now)
            case Err(e) => Some(e)
            case Ok(f) =>
              if o.freshness != Some(f) then Some(FRESHNESS_INVALID)
              else if o.planes != ExpectedPlanes(o.harnesses) then Some(PLANE_DERIVATION_INVALID)
              else if o.aggregate != WorstAggregate(PlaneAggregates(o.planes)) then Some(AGGREGATE_INVALID)
              else None
  }

  predicate HasPlane(planes: seq<Plane>, plane: PlaneId) {
    exists i | 0 <= i < |planes| :: planes[i].summary.plane == plane
  }

  /** The snapshot's planes: four, covering every harness, each the overview's own summary of that plane. */
  function PlanesFault(s: Snapshot, org: string): Option<Fault> {
    if |s.planes| != 4 || exists i | 0 <= i < |s.harnesses| :: !HasPlane(s.planes, s.harnesses[i].plane) then
      Some(SOURCE_PROJECTION_INVALID)
    else if exists i | 0 <= i < |s.planes| ::
      s.planes[i].binding.org != org || s.planes[i].summary !in s.overview.planes
    then Some(SOURCE_PROJECTION_INVALID)
    else None
  }

  function SnapshotFault(s: Snapshot, org: string, now: int): Option<Fault> {
    match OverviewFault(s.overview, s.harnesses, now)
    case Some(e) => Some(e)
    case None => PlanesFault(s, org)
  }

  // ---------- reading ----------

  /** Both a source known to be out and an expired window make a good state a blocked one. */
  function WithFreshness(s: AggregateState, f: FreshnessState): AggregateState {
    if f != CURRENT && (s == AggregateState.READY || s == AggregateState.DEGRADED) then AggregateState.BLOCKED else s
  }

  /** The binding with the cursors of the sources in `down` marked. */
  function MarkedBinding(b: Binding, down: set<string>): Binding {
    b.(cursors := seq(|b.cursors|, i requires 0 <= i < |b.cursors| =>
      if b.cursors[i].sourceId in down then b.cursors[i].(unavailable := true) else b.cursors[i]))
  }

  function ReadFreshness(b: Binding, down: set<string>, now: int): Result<FreshnessState, Fault> {
    match DeriveFreshness(MarkedBinding(b, down), now)
    case Err(e) => Err(e)
    case Ok(f) => Ok(if down == {} then f else SOURCE_UNAVAILABLE)
  }

  function ReadHarness(h: Harness, down: set<string>, now: int): Result<Harness, Fault> {
    match ReadFreshness(h.binding, down, now)
    case Err(e) => Err(e)
    case Ok(f) =>
      Ok(h.(binding := MarkedBinding(h.binding, down), freshness := f,
            aggregate := DeriveAggregate(h.selection, h.installation, h.axes, f)))
  }

  function ReadHarnesses(harnesses: seq<Harness>, down: set<string>, now: int): Result<seq<Harness>, Fault> {
    if harnesses == [] then Ok([])
    else
      match ReadHarness(harnesses[0], down, now)
      case Err(e) => Err(e)
      case Ok(h) =>
        match ReadHarnesses(harnesses[1..], down, now)
        case Err(e) => Err(e)
        case Ok(rest) => Ok([h] + rest)
  }

  function WorseFreshness(a: FreshnessState, b: FreshnessState): FreshnessState {
    if a == SOURCE_UNAVAILABLE || b == SOURCE_UNAVAILABLE then SOURCE_UNAVAILABLE
    else if a == FreshnessState.STALE || b == FreshnessState.STALE then FreshnessState.STALE else CURRENT
  }

  function ReadPlane(p: Plane, summaries: seq<Summary>, down: set<string>, now: int): Result<Plane, Fault> {
    match ReadFreshness(p.binding, down, now)
    case Err(e) => Err(e)
    case Ok(f) =>
      var s := SummarizedPlane(p.summary.plane, InPlane(summaries, p.summary.plane));
      Ok(Plane(
        MarkedBinding(p.binding, down),
        s.(aggregate := WithFreshness(s.aggregate, f), freshness := WorseFreshness(s.freshness, f)),
        f))
  }

  function ReadPlanes(
    planes: seq<Plane>, summaries: seq<Summary>, down: set<string>, now: int): Result<seq<Plane>, Fault>
  {
    if planes == [] then Ok([])
    else
      match ReadPlane(planes[0], summaries, down, now)
      case Err(e) => Err(e)
      case Ok(p) =>
        match ReadPlanes(planes[1..], summaries, down, now)
        case Err(e) => Err(e)
        case Ok(rest) => Ok([p] + rest)
  }

  /** The running maximum over the planes. */
  function WorstPlane(planes: seq<Plane>, worst: AggregateState): AggregateState {
    if planes == [] then worst
    else WorstPlane(planes[1..],
      if AggregateRank(planes[0].summary.aggregate) > AggregateRank(worst) then planes[0].summary.aggregate else worst)
  }

  function PlaneSummaries(planes: seq<Plane>): (r: seq<PlaneSummary>)
    ensures |r| == |planes| && forall i | 0 <= i < |r| :: r[i] == planes[i].summary
  {
    seq(|planes|, i requires 0 <= i < |planes| => planes[i].summary)
  }

  /** What a reader sees of a snapshot at `now`, with the sources in `down` out. */
  function Materialize(s: Snapshot, down: set<string>, now: int): Result<Snapshot, Fault> {
    if s.overview.binding.None? then Ok(s)
    else
      match ReadFreshness(s.overview.binding.value, down, now)
      case Err(e) => Err(e)
      case Ok(f) =>
        match ReadHarnesses(s.harnesses, down, now)
        case Err(e) => Err(e)
        case Ok(harnesses) =>
          match ReadPlanes(s.planes, Summaries(harnesses), down, now)
          case Err(e) => Err(e)
          case Ok(planes) =>
            Ok(Snapshot(
              s.overview.(binding := Some(MarkedBinding(s.overview.binding.value, down)), freshness := Some(f),
                aggregate := WithFreshness(WorstPlane(planes, EMPTY), f), planes := PlaneSummaries(planes),
                harnesses := Summaries(harnesses)),
              planes,
              harnesses))
  }
}
