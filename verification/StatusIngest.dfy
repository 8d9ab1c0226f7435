/** The projection store: what ingesting a source's summary does, and what every run keeps count of. */
module StatusIngest {
  import opened Basics
  import opened StatusModel
  import opened StatusOrder
  import opened StatusRefinement

  datatype SourceId =
    | PROFILE_LOCK | DISTRIBUTION_RELEASE | OPERATOR_RECONCILIATION | TRUST_EVIDENCE
    | RUNTIME_HEALTH | SECURITY_ASSURANCE | ASSURANCE_CAMPAIGN | TENANT_ACCEPTANCE

  function CursorId(s: SourceId): string {
    match s
    case PROFILE_LOCK => "source.profile-lock"
    case DISTRIBUTION_RELEASE => "source.distribution-release"
    case OPERATOR_RECONCILIATION => "source.operator-reconciliation"
    case TRUST_EVIDENCE => "source.trust-evidence"
    case RUNTIME_HEALTH => "source.runtime-health"
    case SECURITY_ASSURANCE => "source.security-assurance"
    case ASSURANCE_CAMPAIGN => "source.assurance-campaign"
    case TENANT_ACCEPTANCE => "source.tenant-acceptance"
  }

  /** The digest of a summary's content, idealised as the content itself. */
  datatype Content = Content(
    source: SourceId, principal: string, admission: string, sequence: int, eventId: string, org: string,
    release: string, snapshot: Snapshot)

  datatype SourceSummary = SourceSummary(
    source: SourceId, principal: string, admission: string, eventId: string, org: string, sequence: int, cursor: string,
    observedAt: int, profile: string, bundle: string, release: string, generation: int, content: Content,
    snapshot: Snapshot)

  datatype CursorRecord = CursorRecord(sequence: nat, cursor: string, eventId: string, content: Content,
    observedAt: int)

  type SourceKey = (string, SourceId)

  datatype Store = Store(
    projections: map<string, Snapshot>,
    cursors: map<SourceKey, CursorRecord>,
    events: map<string, Content>,
    unavailable: map<string, set<SourceId>>)

  const EMPTY_STORE := Store(map[], map[], map[], map[])

  datatype Outcome = Applied(store: Store) | Replayed | Refused(fault: Fault)

  function ContentOf(s: SourceSummary): Content {
    Content(s.source, s.principal, s.admission, s.sequence, s.eventId, s.org, s.release, s.snapshot)
  }

  predicate MatchesBinding(s: SourceSummary, b: Binding) {
    b.profile == s.profile && b.bundle == s.bundle && b.release == s.release && b.generation == s.generation
  }

  predicate BindingMatches(s: SourceSummary) {
    s.snapshot.overview.binding.Some? && s.snapshot.overview.binding.value.org == s.org
    && MatchesBinding(s, s.snapshot.overview.binding.value)
  }

  /** The order of cursor texts, by code unit. */
  predicate Precedes(a: string, b: string) {
    if b == "" then false
    else if a == "" then true
    else if a[0] != b[0] then a[0] < b[0]
    else Precedes(a[1..], b[1..])
  }

  function SummaryFault(s: SourceSummary, authorized: bool, now: int): Option<Fault> {
    if !authorized then Some(SOURCE_AUTHORITY_REFUSED)
    else if s.sequence < 1 || s.observedAt > now then Some(SOURCE_ORDER_INVALID)
    else if s.content != ContentOf(s) || !BindingMatches(s) then Some(SOURCE_BINDING_INVALID)
    else SnapshotFault(s.snapshot, s.org, now)
  }

  predicate FollowsCursor(store: Store, s: SourceSummary) {
    if (s.org, s.source) in store.cursors
    then s.sequence == store.cursors[(s.org, s.source)].sequence + 1
      && Precedes(store.cursors[(s.org, s.source)].cursor, s.cursor)
    else s.sequence == 1
  }

  predicate BindingConflicts(store: Store, s: SourceSummary) {
    s.org in store.projections && store.projections[s.org].overview.binding.Some?
    && !MatchesBinding(s, store.projections[s.org].overview.binding.value)
  }

  function Admit(store: Store, s: SourceSummary): Store
    requires s.sequence >= 1
  {
    Store(
      store.projections[s.org := s.snapshot],
      store.cursors[(s.org, s.source) := CursorRecord(s.sequence, s.cursor, s.eventId, s.content, s.observedAt)],
      store.events[s.eventId := s.content],
      if s.org in store.unavailable then store.unavailable[s.org := store.unavailable[s.org] - {s.source}]
        else store.unavailable)
  }

  function Ingest(store: Store, s: SourceSummary, authorized: bool, now: int): Outcome {
    match SummaryFault(s, authorized, now)
    case Some(e) => Refused(e)
    case None =>
      if s.eventId in store.events then
        if store.events[s.eventId] != s.content then Refused(EVENT_CONFLICT) else Replayed
      else if !FollowsCursor(store, s) then Refused(CURSOR_GAP)
      else if BindingConflicts(store, s) then Refused(PROJECTION_BINDING_CONFLICT)
      else Applied(Admit(store, s))
  }

  function MarkUnavailable(store: Store, org: string, source: SourceId): Result<Store, Fault> {
    if org !in store.projections then Err(PROJECTION_NOT_FOUND)
    else
      var known := if org in store.unavailable then store.unavailable[org] else {};
      Ok(store.(unavailable := store.unavailable[org := known + {source}]))
  }

  /** The cursor ids of the sources that are out for an organization. */
  function Down(store: Store, org: string): set<string> {
    if org in store.unavailable then set source | source in store.unavailable[org] :: CursorId(source) else {}
  }

  function Read(store: Store, org: string, now: int): Result<Snapshot, Fault> {
    if org !in store.projections then Err(PROJECTION_NOT_FOUND)
      else Materialize(store.projections[org], Down(store, org), now)
  }

  // ---------- runs ----------

  datatype Step = Take(summary: SourceSummary, authorized: bool, now: int) | Outage(org: string, source: SourceId)

  /** A store, with the summaries that have been applied to it, oldest first. */
  datatype World = World(store: Store, applied: seq<SourceSummary>)

  const START := World(EMPTY_STORE, [])

  function Next(w: World, step: Step): World {
    match step
    case Take(s, authorized, now) =>
      (match Ingest(w.store, s, authorized, now)
       case Applied(store) => World(store, w.applied + [s])
       case Replayed => w
       case Refused(_) => w)
    case Outage(org, source) =>
      match MarkUnavailable(w.store, org, source)
      case Ok(store) => World(store, w.applied)
      case Err(_) => w
  }

  function Run(steps: seq<Step>): World {
    if steps == [] then START else Next(Run(steps[..|steps| - 1]), steps[|steps| - 1])
  }

  /** The summaries applied for one organization and source. */
  function AppliedFor(applied: seq<SourceSummary>, k: SourceKey): seq<SourceSummary> {
    if applied == [] then []
    else
      var last := applied[|applied| - 1];
      AppliedFor(applied[..|applied| - 1], k) + (if (last.org, last.source) == k then [last] else [])
  }

  lemma AppliedForMore(applied: seq<SourceSummary>, s: SourceSummary, k: SourceKey)
    ensures AppliedFor(applied + [s], k) == AppliedFor(applied, k) + (if (s.org, s.source) == k then [s] else [])
  {
    assert (applied + [s])[..|applied|] == applied;
  }

  /** A cursor stands at the last of the summaries applied, which are numbered from 1 with ascending cursors. */
  predicate Counts(mine: seq<SourceSummary>, cursor: CursorRecord) {
    && 0 < |mine| == cursor.sequence
    && cursor.cursor == mine[|mine| - 1].cursor
    && (forall i | 0 <= i < |mine| :: mine[i].sequence == i + 1)
    && (forall i | 0 < i < |mine| :: Precedes(mine[i - 1].cursor, mine[i].cursor))
  }

  ghost predicate CursorsCount(cursors: map<SourceKey, CursorRecord>, applied: seq<SourceSummary>) {
    forall k: SourceKey :: if k in cursors then Counts(AppliedFor(applied, k), cursors[k])
      else AppliedFor(applied, k) == []
  }

  function SequenceOf(c: CursorRecord): nat { c.sequence }

  ghost function SequenceSum(cursors: map<SourceKey, CursorRecord>): nat { Sum(cursors, SequenceOf) }

  /** The sum of all sequences is the number of events recorded. */
  ghost predicate EventsCount(
    cursors: map<SourceKey, CursorRecord>, events: map<string, Content>, applied: seq<SourceSummary>)
  {
    SequenceSum(cursors) == |events| == |applied|
  }

  /** An organization is shown the last snapshot applied for it, and all that were applied agree in the four binding
      fields. */
  ghost predicate BindingsAgree(projections: map<string, Snapshot>, applied: seq<SourceSummary>) {
    && (forall org | org in projections :: projections[org].overview.binding.Some?)
    && (forall i | 0 <= i < |applied| ::
         applied[i].org in projections
         && MatchesBinding(applied[i], projections[applied[i].org].overview.binding.value))
  }

  /** Every organization's snapshot has passed all checks for it. */
  ghost predicate SnapshotsAdmitted(projections: map<string, Snapshot>) {
    forall org | org in projections :: exists now :: Admitted(projections[org], org, now)
  }

  /** Every organization's snapshot names that organization. */
  predicate OrgsAgree(projections: map<string, Snapshot>) {
    forall org | org in projections :: projections[org].overview.org == org
  }

  ghost predicate Accounted(w: World) {
    && CursorsCount(w.store.cursors, w.applied)
    && EventsCount(w.store.cursors, w.store.events, w.applied)
    && BindingsAgree(w.store.projections, w.applied)
    && SnapshotsAdmitted(w.store.projections)
    && OrgsAgree(w.store.projections)
  }

  lemma OneMoreCounts(mine: seq<SourceSummary>, before: CursorRecord, s: SourceSummary, cursor: CursorRecord)
    requires Counts(mine, before) && s.sequence == before.sequence + 1 && Precedes(before.cursor, s.cursor)
    requires cursor.sequence == s.sequence && cursor.cursor == s.cursor
    ensures Counts(mine + [s], cursor)
  {
    var more := mine + [s];
    assert more[|mine|] == s && more[|mine| - 1] == mine[|mine| - 1];
  }

  lemma ApplyingCountsKey(
    cursors: map<SourceKey, CursorRecord>, applied: seq<SourceSummary>, s: SourceSummary, cursor: CursorRecord,
    k: SourceKey)
    requires if k in cursors then Counts(AppliedFor(applied, k), cursors[k]) else AppliedFor(applied, k) == []
    requires k == (s.org, s.source) && cursor.sequence == s.sequence && cursor.cursor == s.cursor
    requires if k in cursors then s.sequence == cursors[k].sequence + 1 && Precedes(cursors[k].cursor, s.cursor)
      else s.sequence == 1
    ensures Counts(AppliedFor(applied + [s], k), cursor)
  {
    AppliedForMore(applied, s, k);
    if k in cursors {
      OneMoreCounts(AppliedFor(applied, k), cursors[k], s, cursor);
    } else {
      assert [] + [s] == [s];
    }
  }

  lemma ApplyingCountsOne(
    cursors: map<SourceKey, CursorRecord>, applied: seq<SourceSummary>, s: SourceSummary, cursor: CursorRecord)
    requires CursorsCount(cursors, applied) && cursor.sequence == s.sequence && cursor.cursor == s.cursor
    requires var k := (s.org, s.source);
      if k in cursors then s.sequence == cursors[k].sequence + 1 && Precedes(cursors[k].cursor, s.cursor)
        else s.sequence == 1
    ensures CursorsCount(cursors[(s.org, s.source) := cursor], applied + [s])
  {
    var k := (s.org, s.source);
    ApplyingCountsKey(cursors, applied, s, cursor, k);
    forall j: SourceKey | j != k ensures AppliedFor(applied + [s], j) == AppliedFor(applied, j) {
      AppliedForMore(applied, s, j);
    }
  }

  lemma OneMoreEvent(
    cursors: map<SourceKey, CursorRecord>, events: map<string, Content>, applied: seq<SourceSummary>, s: SourceSummary,
    cursor: CursorRecord)
    requires EventsCount(cursors, events, applied) && s.eventId !in events
    requires var k := (s.org, s.source); cursor.sequence == 1 + if k in cursors then SequenceOf(cursors[k]) else 0
    ensures EventsCount(cursors[(s.org, s.source) := cursor], events[s.eventId := s.content], applied + [s])
  {
    SumReplaced(cursors, SequenceOf, (s.org, s.source), cursor);
    assert events[s.eventId := s.content].Keys == events.Keys + {s.eventId};
  }

  lemma ApplyingKeepsBindings(store: Store, applied: seq<SourceSummary>, s: SourceSummary)
    requires s.sequence >= 1 && BindingMatches(s) && !BindingConflicts(store, s)
      && BindingsAgree(store.projections, applied)
    ensures BindingsAgree(Admit(store, s).projections, applied + [s])
  {
  }

  lemma ApplyingKeepsOrgs(store: Store, s: SourceSummary, now: int)
    requires OrgsAgree(store.projections) && s.sequence >= 1 && BindingMatches(s) && Admitted(s.snapshot, s.org, now)
    ensures OrgsAgree(Admit(store, s).projections)
  {
    OverviewChecked(s.snapshot, s.org, now);
  }

  lemma ApplyingKeepsAccount(w: World, s: SourceSummary, authorized: bool, now: int)
    requires Accounted(w) && Ingest(w.store, s, authorized, now).Applied?
    ensures Accounted(Next(w, Take(s, authorized, now)))
  {
    assert Admitted(s.snapshot, s.org, now) && BindingMatches(s) && s.sequence >= 1;
    var cursor := CursorRecord(s.sequence, s.cursor, s.eventId, s.content, s.observedAt);
    ApplyingCountsOne(w.store.cursors, w.applied, s, cursor);
    OneMoreEvent(w.store.cursors, w.store.events, w.applied, s, cursor);
    ApplyingKeepsBindings(w.store, w.applied, s);
    ApplyingKeepsOrgs(w.store, s, now);
  }

  lemma StepKeepsAccount(w: World, step: Step)
    requires Accounted(w)
    ensures Accounted(Next(w, step))
  {
    if step.Take? && Ingest(w.store, step.summary, step.authorized, step.now).Applied? {
      ApplyingKeepsAccount(w, step.summary, step.authorized, step.now);
    }
  }

  /**
   After any run: each source's sequence is the number of its applied summaries, in strictly ascending
   cursors; all sequences add up to the number of recorded events; every organization's binding fields
   are those of its first summary; and every stored snapshot has passed validation and names its own
   organization.
   */
  lemma {:induction false} IngestAccounting(steps: seq<Step>)
    ensures Accounted(Run(steps))
    decreases |steps|
  {
    if steps == [] {
      assert AppliedForNothing();
    } else {
      IngestAccounting(steps[..|steps| - 1]);
      StepKeepsAccount(Run(steps[..|steps| - 1]), steps[|steps| - 1]);
    }
  }

  ghost predicate AppliedForNothing() { forall k: SourceKey :: AppliedFor([], k) == [] }

  /** The store changes if and only if a summary is applied: a replayed or refused one leaves all four maps as they
      were. */
  lemma OnlyAppliedChanges(w: World, s: SourceSummary, authorized: bool, now: int)
    ensures Next(w, Take(s, authorized, now)).store != w.store <==> Ingest(w.store, s, authorized, now).Applied?
  {
    if Ingest(w.store, s, authorized, now).Applied? {
      assert s.eventId in Admit(w.store, s).events && s.eventId !in w.store.events;
    }
  }

  // ---------- applied once ----------

  lemma StepKeepsEvents(w: World, step: Step)
    ensures forall id | id in w.store.events ::
      id in Next(w, step).store.events && Next(w, step).store.events[id] == w.store.events[id]
  {
  }

  lemma {:induction false} RunKeepsEvents(steps: seq<Step>, i: nat, id: string)
    requires i <= |steps| && id in Run(steps[..i]).store.events
    ensures id in Run(steps).store.events && Run(steps).store.events[id] == Run(steps[..i]).store.events[id]
    decreases |steps|
  {
    if i < |steps| {
      var most, last := steps[..|steps| - 1], steps[|steps| - 1];
      assert most[..i] == steps[..i];
      RunKeepsEvents(most, i, id);
      StepKeepsEvents(Run(most), last);
    } else {
      assert steps[..i] == steps;
    }
  }

  lemma AppliedIsRecorded(w: World, s: SourceSummary, authorized: bool, now: int)
    requires Ingest(w.store, s, authorized, now).Applied?
    ensures var events := Next(w, Take(s, authorized, now)).store.events;
      s.eventId in events && events[s.eventId] == s.content
  {
  }

  /**
   A summary that has been applied is never applied again, whatever came in between and whoever submits
   it when: it is taken for a repetition if it still passes the checks, and the store stays as it is.
   */
  lemma {:induction false} AppliedOnlyOnce(steps: seq<Step>, i: nat, authorized: bool, now: int)
    requires i < |steps| && steps[i].Take?
    requires Ingest(Run(steps[..i]).store, steps[i].summary, steps[i].authorized, steps[i].now).Applied?
    ensures var s, store := steps[i].summary, Run(steps).store;
      && Ingest(store, s, authorized, now)
         == (match SummaryFault(s, authorized, now) case None => Replayed case Some(e) => Refused(e))
      && Next(Run(steps), Take(s, authorized, now)).store == store
  {
    var s := steps[i].summary;
    assert steps[..i + 1][..i] == steps[..i];
    AppliedIsRecorded(Run(steps[..i]), s, steps[i].authorized, steps[i].now);
    assert s.eventId in Run(steps[..i + 1]).store.events;
    RunKeepsEvents(steps, i + 1, s.eventId);
    OnlyAppliedChanges(Run(steps), s, authorized, now);
  }

  /** Cursors are ordered: the comparison is transitive. */
  lemma {:induction false} PrecedesIsTransitive(a: string, b: string, c: string)
    requires Precedes(a, b) && Precedes(b, c)
    ensures Precedes(a, c)
  {
    if a != "" && a[0] == b[0] == c[0] {
      PrecedesIsTransitive(a[1..], b[1..], c[1..]);
    }
  }

  /** Cursors are ordered: no cursor precedes itself, and of two one precedes the other. */
  lemma {:induction false} PrecedesIsTotal(a: string, b: string)
    ensures !Precedes(a, a)
    ensures a == b || Precedes(a, b) || Precedes(b, a)
  {
    if a != "" {
      PrecedesIsTotal(a[1..], if b == "" then "" else b[1..]);
      if b != "" && a[0] == b[0] && a[1..] == b[1..] {
        assert a == [a[0]] + a[1..] && b == [b[0]] + b[1..];
      }
    }
  }

  // ---------- what readers see over a run ----------

  /** After any run, whenever an organization can be read, its overview dominates its planes and harnesses. */
  lemma EveryReadIsDominated(steps: seq<Step>, org: string, now: int)
    requires Read(Run(steps).store, org, now).Ok?
    ensures var t := Read(Run(steps).store, org, now).value;
      && (forall i | 0 <= i < |t.planes| ::
        AggregateRank(t.planes[i].summary.aggregate) <= AggregateRank(t.overview.aggregate))
      && (forall i | 0 <= i < |t.harnesses| ::
        AggregateRank(t.harnesses[i].aggregate) <= AggregateRank(t.overview.aggregate))
  {
    IngestAccounting(steps);
    var store := Run(steps).store;
    var admitted :| Admitted(store.projections[org], org, admitted);
    OverviewDominates(store.projections[org], org, admitted, Down(store, org), now);
  }

  /** Until a new summary is applied, outages and the clock only make what a reader sees worse. */
  lemma OutagesOnlyWorsen(store: Store, down: string, source: SourceId, org: string, now: int, later: int)
    requires MarkUnavailable(store, down, source).Ok? && now <= later && Read(store, org, now).Ok?
    ensures var next := MarkUnavailable(store, down, source).value;
      && Read(next, org, later).Ok?
      && AggregateRank(Read(store, org, now).value.overview.aggregate)
         <= AggregateRank(Read(next, org, later).value.overview.aggregate)
      && PlanesWorsen(Read(store, org, now).value.planes, Read(next, org, later).value.planes)
  {
    var next := MarkUnavailable(store, down, source).value;
    StatusNeverImprovesByWaiting(store.projections[org], Down(store, org), Down(next, org), now, later);
  }
}
