/** Bundles, their operations and the inbox of reports move in step. */
module ProfileBundles {
  import opened Basics
  import opened ProfileModel
  import opened ProfileInvariant
  import D = DemandModel

  // ---------- requesting a bundle ----------

  lemma OpenLockCases(s: Store, c: Context, profileId: Id, ifMatch: Option<Tag>) returns (p: Profile, l: Lock)
    requires RowsHold(s) && OpenLock(s, c, profileId, ifMatch).Ok?
    ensures OpenLock(s, c, profileId, ifMatch) == Ok((p, l)) && p.reg.org == c.org
    ensures IsLockOf(p, l, s.profiles, s.locks) && (c.org, l.digest) !in s.bundleByLock
  {
    p := s.profiles[(c.org, profileId)];
    l := s.locks[(c.org, p.lockId.value)];
  }

  lemma ReferenceKeepsProfiles(profiles: Profiles, approvals: Approvals, locks: Locks, p: Profile, b: Bundle)
    requires LawfulProfiles(profiles, approvals, locks) && ProfileKey(p) in profiles && profiles[ProfileKey(p)] == p
      && p.state == LOCKED
    ensures LawfulProfiles(profiles[ProfileKey(p) := Referring(p, b)], approvals, locks)
  {
    assert LawfulProfile(p, approvals, locks);
    assert HasApproval(Referring(p, b), approvals, {D.ApprovalState.APPROVED})
      && HasLock(Referring(p, b), approvals, locks);
  }

  lemma ReferenceKeepsBundles(bundles: Bundles, profiles: Profiles, locks: Locks, index: Index, p: Profile, b: Bundle)
    requires LawfulBundles(bundles, profiles, locks, index) && ProfileKey(p) in profiles && profiles[ProfileKey(p)] == p
    ensures LawfulBundles(bundles, profiles[ProfileKey(p) := Referring(p, b)], locks, index)
  {
    forall k | k in bundles ensures LawfulBundle(bundles[k], profiles[ProfileKey(p) := Referring(p, b)], locks, index) {
      assert LawfulBundle(bundles[k], profiles, locks, index);
    }
  }

  lemma NewBundleIsLawful(bundles: Bundles, profiles: Profiles, locks: Locks, index: Index, b: Bundle)
    requires LawfulBundles(bundles, profiles, locks, index) && IndexIsFull(bundles, index)
    requires BundleKey(b) !in bundles && (b.org, b.lockDigest) !in index
    requires (b.org, b.profileId) in profiles && IsLockedWith(profiles[(b.org, b.profileId)], b, locks)
    ensures var more, next := bundles[BundleKey(b) := b], index[(b.org, b.lockDigest) := b.id];
      LawfulBundles(more, profiles, locks, next) && IndexIsFull(more, next)
  {
    var next := index[(b.org, b.lockDigest) := b.id];
    forall k | k in bundles ensures LawfulBundle(bundles[k], profiles, locks, next) {
      assert LawfulBundle(bundles[k], profiles, locks, index);
    }
  }

  /** The lock of a locked profile. */
  predicate IsLockOf(p: Profile, l: Lock, profiles: Profiles, locks: Locks) {
    && ProfileKey(p) in profiles && profiles[ProfileKey(p)] == p && p.state == LOCKED
    && p.lockId.Some? && (p.reg.org, p.lockId.value) in locks && locks[(p.reg.org, p.lockId.value)] == l
  }

  lemma RequestedBundleIsLawful(
    bundles: Bundles, profiles: Profiles, locks: Locks, index: Index, p: Profile, l: Lock, b: Bundle)
    requires LawfulBundles(bundles, profiles, locks, index) && IndexIsFull(bundles, index)
    requires IsLockOf(p, l, profiles, locks) && b == NewBundle(p.reg.org, p, l, b.id, b.operation, b.requestedAt)
    requires BundleKey(b) !in bundles && (b.org, l.digest) !in index
    ensures var more, next := bundles[BundleKey(b) := b], index[(b.org, b.lockDigest) := b.id];
      LawfulBundles(more, profiles[ProfileKey(p) := Referring(p, b)], locks, next) && IndexIsFull(more, next)
  {
    ReferenceKeepsBundles(bundles, profiles, locks, index, p, b);
    NewBundleIsLawful(bundles, profiles[ProfileKey(p) := Referring(p, b)], locks, index, b);
  }

  lemma RequestedBundleKeepsRows(s: Store, p: Profile, l: Lock, b: Bundle, o: Operations)
    requires RowsHold(s) && IsLockOf(p, l, s.profiles, s.locks)
    requires b == NewBundle(p.reg.org, p, l, b.id, b.operation, b.requestedAt)
    requires BundleKey(b) !in s.bundles && (b.org, l.digest) !in s.bundleByLock
    ensures RowsHold(BundleRequested(s, p, b, o))
  {
    ReferenceKeepsProfiles(s.profiles, s.approvals, s.locks, p, b);
    RequestedBundleIsLawful(s.bundles, s.profiles, s.locks, s.bundleByLock, p, l, b);
  }

  lemma RequestedBundleIsInStep(bundles: Bundles, rows: Rows, b: Bundle, o: Operation)
    requires Keyed(rows) && BundlesInStep(bundles, rows) && OperationsOwned(bundles, rows)
    requires BundleKey(b) !in bundles && (o.org, o.id) !in rows && (b.org, b.operation) == (o.org, o.id)
    requires InStep(b, rows[(o.org, o.id) := o])
    ensures var more, next := bundles[BundleKey(b) := b], rows[(o.org, o.id) := o];
      Keyed(next) && BundlesInStep(more, next) && OperationsOwned(more, next)
  {
    var more, next := bundles[BundleKey(b) := b], rows[(o.org, o.id) := o];
    forall k | k in bundles
      ensures InStep(bundles[k], next) && (bundles[k].org, bundles[k].operation) != (o.org, o.id)
    {
      assert InStep(bundles[k], rows);
    }
    forall k | k in next && next[k].kind == BUILD_BUNDLE ensures OwnedBySome(more, k) {
      if k == (o.org, o.id) {
        assert (more[BundleKey(b)].org, more[BundleKey(b)].operation) == k;
      } else {
        assert OwnedBySome(bundles, k);
        var j :| j in bundles && (bundles[j].org, bundles[j].operation) == k;
        assert (more[j].org, more[j].operation) == k;
      }
    }
  }

  lemma RequestedBundleCountsNothing(
    inbox: map<Id, Envelope>, sequences: map<(string, Org), nat>, bundles: Bundles, b: Bundle)
    requires InboxCounts(inbox, sequences, bundles) && InboxTells(inbox, bundles) && b.state == REQUESTED
      && BundleKey(b) !in bundles
    ensures InboxCounts(inbox, sequences, bundles[BundleKey(b) := b]) && InboxTells(inbox, bundles[BundleKey(b) := b])
  {
    SumReplaced(bundles, IsSigned, BundleKey(b), b);
  }

  // ---------- a signed bundle ----------

  lemma SignedIsLawful(bundles: Bundles, profiles: Profiles, locks: Locks, index: Index, b: Bundle, signed: Bundle)
    requires LawfulBundles(bundles, profiles, locks, index) && IndexIsFull(bundles, index)
    requires BundleKey(b) in bundles && bundles[BundleKey(b)] == b && BundleKey(signed) == BundleKey(b)
    requires signed.lockDigest == b.lockDigest && signed.profileId == b.profileId && signed.review == b.review
    ensures var more := bundles[BundleKey(b) := signed];
      LawfulBundles(more, profiles, locks, index) && IndexIsFull(more, index)
  {
    assert LawfulBundle(b, profiles, locks, index);
  }

  lemma SignedKeepsRows(s: Store, b: Bundle, e: Envelope, o: Operations, now: int)
    requires RowsHold(s) && BundleKey(b) in s.bundles && s.bundles[BundleKey(b)] == b && e.sequence >= 1
    ensures RowsHold(BundleSigned(s, b, e, o, now))
  {
    SignedIsLawful(s.bundles, s.profiles, s.locks, s.bundleByLock, b, Signed(b, e, now));
  }

  /** The operation that is completed is the bundle's own and no other's. */
  lemma SignedIsInStep(bundles: Bundles, rows: Rows, b: Bundle, signed: Bundle, done: Operation)
    requires Keyed(rows) && BundlesInStep(bundles, rows) && OperationsOwned(bundles, rows)
    requires BundleKey(b) in bundles && bundles[BundleKey(b)] == b && (done.org, done.id) == (b.org, b.operation)
    requires BundleKey(signed) == BundleKey(b) && signed.operation == b.operation
      && InStep(signed, rows[(done.org, done.id) := done])
    requires done.kind == BUILD_BUNDLE
    ensures var more, next := bundles[BundleKey(b) := signed], rows[(done.org, done.id) := done];
      Keyed(next) && BundlesInStep(more, next) && OperationsOwned(more, next)
  {
    var more, next := bundles[BundleKey(b) := signed], rows[(done.org, done.id) := done];
    assert InStep(b, rows);
    forall k | k in more ensures InStep(more[k], next) {
      if k != BundleKey(b) {
        assert InStep(bundles[k], rows);
        assert (bundles[k].org, bundles[k].operation) != (b.org, b.operation);
      }
    }
    forall k | k in next && next[k].kind == BUILD_BUNDLE ensures OwnedBySome(more, k) {
      assert OwnedBySome(bundles, k);
      var j :| j in bundles && (bundles[j].org, bundles[j].operation) == k;
      assert (more[j].org, more[j].operation) == k;
    }
  }

  lemma SignedCountGrows(bundles: Bundles, b: Bundle, signed: Bundle)
    requires BundleKey(b) in bundles && bundles[BundleKey(b)] == b && b.state == REQUESTED
    requires BundleKey(signed) == BundleKey(b) && signed.state == SOURCE_REPORTED_SIGNED
    ensures SignedCount(bundles[BundleKey(b) := signed]) == SignedCount(bundles) + 1
  {
    SumReplaced(bundles, IsSigned, BundleKey(b), signed);
  }

  lemma SequenceSumGrows(sequences: map<(string, Org), nat>, k: (string, Org), n: nat)
    requires n == 1 + (if k in sequences then sequences[k] else 0)
    ensures SequenceSum(sequences[k := n]) == SequenceSum(sequences) + 1
  {
    SumReplaced(sequences, Itself, k, n);
  }

  lemma SignedCountsOne(
    inbox: map<Id, Envelope>, sequences: map<(string, Org), nat>, bundles: Bundles, b: Bundle, signed: Bundle,
    e: Envelope)
    requires InboxCounts(inbox, sequences, bundles) && BundleKey(b) in bundles && bundles[BundleKey(b)] == b
      && b.state == REQUESTED
    requires BundleKey(signed) == BundleKey(b) && signed.state == SOURCE_REPORTED_SIGNED && e.eventId !in inbox
    requires e.sequence == 1 + (if (e.source, e.partition) in sequences then sequences[(e.source, e.partition)] else 0)
    ensures InboxCounts(inbox[e.eventId := e], sequences[(e.source, e.partition) := e.sequence],
      bundles[BundleKey(b) := signed])
  {
    SignedCountGrows(bundles, b, signed);
    SequenceSumGrows(sequences, (e.source, e.partition), e.sequence);
    assert inbox[e.eventId := e].Keys == inbox.Keys + {e.eventId};
  }

  lemma SignedTells(s: Store, b: Bundle, e: Envelope, now: int)
    requires InboxTells(s.inbox, s.bundles) && BundleKey(b) in s.bundles && s.bundles[BundleKey(b)] == b
      && b.release == None
    requires e.eventId !in s.inbox && BundleKey(b) == (e.org, e.bundleId) && e.sequence >= 1
    ensures InboxTells(s.inbox[e.eventId := e], s.bundles[BundleKey(b) := Signed(b, e, now)])
  {
  }

  // ---------- runs ----------

  predicate IsBundleOperation(s: Store, k: Key) { k in s.operations.rows && s.operations.rows[k].kind == BUILD_BUNDLE }

  /** No row of any kind has this identifier yet. */
  ghost predicate Unused(s: Store, id: Id) {
    forall org: Org ::
      (org, id) !in s.approvals && (org, id) !in s.locks && (org, id) !in s.bundles && (org, id) !in s.operations.rows
  }

  /** The identifiers that the call draws are new. */
  ghost predicate DrawsNew(s: Store, call: Call) { forall id | id in Drawn(call) :: Unused(s, id) }

  /** Identifiers are new, and nobody but the profile store drives a bundle operation. */
  ghost predicate Admissible(s: Store, call: Call) {
    DrawsNew(s, call) && (call.WorkerCall? ==> !IsBundleOperation(s, (call.org, call.operation)))
  }

  function Run(s: Store, calls: seq<Call>): Store {
    if calls == [] then s else After(Run(s, calls[..|calls| - 1]), calls[|calls| - 1])
  }

  /** A run in which nobody else drives bundle operations. */
  ghost predicate Feasible(s: Store, calls: seq<Call>) {
    calls == [] || (Feasible(s, calls[..|calls| - 1]) && Admissible(Run(s, calls[..|calls| - 1]), calls[|calls| - 1]))
  }

  /** Any run: workers may do what they like, to bundle operations too. */
  ghost predicate FeasibleForAll(s: Store, calls: seq<Call>) {
    calls == [] ||
    (FeasibleForAll(s, calls[..|calls| - 1]) && DrawsNew(Run(s, calls[..|calls| - 1]), calls[|calls| - 1]))
  }

  /** A requested bundle carries no release yet. */
  predicate Unreleased(bundles: Bundles) {
    forall k | k in bundles && bundles[k].state == REQUESTED :: bundles[k].release == None
  }

  /** What every run keeps, whatever workers do. */
  ghost predicate Sound(s: Store) { RowsHold(s) && InboxHolds(s) && Unreleased(s.bundles) }

  /** What every run keeps in which nobody else drives bundle operations. */
  ghost predicate Invariant(s: Store) { Sound(s) && OperationsHold(s) }

  // ---------- calls of a person ----------

  predicate IsPersonCall(call: Call) { call.ApprovalCall? || call.DecideCall? || call.LockCall? }

  lemma PersonCallKeepsRows(s: Store, call: Call)
    requires RowsHold(s) && DrawsNew(s, call) && IsPersonCall(call)
    ensures var proposal := Proposed(s, call);
      && (proposal.Propose? ==> RowsHold(Applied(s, proposal.change)))
      && (proposal.Lapse?
        ==> RowsHold(s.(approvals := s.approvals[ApprovalKey(proposal.approval) := proposal.approval])))
  {
    var proposal := Proposed(s, call);
    match call
    case ApprovalCall(r, profileId, ifMatch, now, answer, approvalId) =>
      assert Drawn(call)[0] in Drawn(call) && Unused(s, approvalId);
      if proposal.Propose? { RequestKeepsRows(s, r.context, profileId, ifMatch, now, answer, approvalId); }
    case DecideCall(r, profileId, approve, reason, ifMatch, now) =>
      if proposal.Lapse? { LapseKeepsRows(s, r.context, profileId, approve, reason, ifMatch, now); }
      if proposal.Propose? { DecideKeepsRows(s, r.context, profileId, approve, reason, ifMatch, now); }
    case LockCall(r, profileId, ifMatch, now, lockId) =>
      assert Drawn(call)[0] in Drawn(call) && Unused(s, lockId);
      if proposal.Propose? { LockKeepsRows(s, r.context, profileId, ifMatch, now, lockId); }
  }

  lemma MutateLeavesBundles(s: Store, r: Request, proposal: Proposal)
    ensures var t := Mutate(s, r, proposal).store;
      t.bundles == s.bundles && t.operations == s.operations && t.inbox == s.inbox && t.sequences == s.sequences
  {
  }

  lemma MutateKeepsRows(s: Store, r: Request, proposal: Proposal)
    requires RowsHold(s)
    requires proposal.Propose? ==> RowsHold(Applied(s, proposal.change))
    requires proposal.Lapse?
      ==> RowsHold(s.(approvals := s.approvals[ApprovalKey(proposal.approval) := proposal.approval]))
    ensures RowsHold(Mutate(s, r, proposal).store)
  {
  }

  lemma SameBundlesKeep(s: Store, t: Store)
    requires Sound(s) && RowsHold(t) && t.bundles == s.bundles && t.operations == s.operations
    requires t.inbox == s.inbox && t.sequences == s.sequences
    ensures Sound(t) && (OperationsHold(s) ==> OperationsHold(t))
  {
  }

  lemma MutateKeeps(s: Store, r: Request, proposal: Proposal)
    requires Sound(s)
    requires proposal.Propose? ==> RowsHold(Applied(s, proposal.change))
    requires proposal.Lapse?
      ==> RowsHold(s.(approvals := s.approvals[ApprovalKey(proposal.approval) := proposal.approval]))
    ensures var t := Mutate(s, r, proposal).store; Sound(t) && (OperationsHold(s) ==> OperationsHold(t))
  {
    MutateKeepsRows(s, r, proposal);
    MutateLeavesBundles(s, r, proposal);
    SameBundlesKeep(s, Mutate(s, r, proposal).store);
  }

  lemma PersonCallKeeps(s: Store, call: Call)
    requires Sound(s) && DrawsNew(s, call) && IsPersonCall(call)
    ensures Sound(After(s, call)) && (OperationsHold(s) ==> OperationsHold(After(s, call)))
  {
    PersonCallKeepsRows(s, call);
    MutateKeeps(s, call.r, Proposed(s, call));
    assert After(s, call) == Mutate(s, call.r, Proposed(s, call)).store;
  }

  // ---------- a bundle is requested ----------

  /** Only the two flags that make an audit fail, and the record of answers, may differ. */
  ghost predicate SameButFlags(s: Store, t: Store) {
    t == s.(failAudit := t.failAudit, operations := s.operations.(failAudit := t.operations.failAudit))
  }

  lemma FlagsKeep(s: Store, t: Store)
    requires Sound(s) && SameButFlags(s, t)
    ensures Sound(t) && (OperationsHold(s) ==> OperationsHold(t))
  {
  }

  lemma NewBundleKeepsSound(s: Store, p: Profile, l: Lock, b: Bundle, o: Operations)
    requires Sound(s) && IsLockOf(p, l, s.profiles, s.locks)
    requires b == NewBundle(p.reg.org, p, l, b.id, b.operation, b.requestedAt)
    requires BundleKey(b) !in s.bundles && (b.org, l.digest) !in s.bundleByLock
    ensures Sound(BundleRequested(s, p, b, o))
  {
    RequestedBundleKeepsRows(s, p, l, b, o);
    RequestedBundleCountsNothing(s.inbox, s.sequences, s.bundles, b);
  }

  lemma NewBundleKeepsOperations(s: Store, p: Profile, l: Lock, b: Bundle, done: Performed)
    requires OperationsHold(s) && BundleKey(b) !in s.bundles && (b.org, b.operation) !in s.operations.rows
    requires b == NewBundle(p.reg.org, p, l, b.id, b.operation, b.requestedAt) && done.Done?
    requires done == CreateOperation(s.operations, b.org, b.operation, BUILD_BUNDLE, Some(l.digest), b.requestedAt)
    ensures OperationsHold(BundleRequested(s, p, b, done.operations))
  {
    RequestedBundleIsInStep(s.bundles, s.operations.rows, b, done.row);
  }

  /** The request is new, its lock is free, and both audits take it. */
  predicate BundleIsTaken(s: Store, r: Request, profileId: Id, ifMatch: Option<Tag>, now: int) {
    (r.context.org, r.key) !in s.idempotency && OpenLock(s, r.context, profileId, ifMatch).Ok? && !s.failAudit
    && !s.operations.failAudit && now >= 0
  }

  lemma BundleTaken(s: Store, r: Request, profileId: Id, ifMatch: Option<Tag>, now: int, operationId: Id, bundleId: Id)
    requires BundleIsTaken(s, r, profileId, ifMatch, now)
    ensures var (p, l) := OpenLock(s, r.context, profileId, ifMatch).value;
      var b := NewBundle(r.context.org, p, l, bundleId, operationId, now);
      var done := CreateOperation(s.operations, r.context.org, operationId, BUILD_BUNDLE, Some(l.digest), now);
      done.Done? && RequestBundle(s, r, profileId, ifMatch, now, operationId, bundleId).store
        == Remembered(BundleRequested(s, p, b, done.operations), r, Response(202, BundleBody(b)))
  {
  }

  lemma BundleNotOpened(
    s: Store, r: Request, profileId: Id, ifMatch: Option<Tag>, now: int, operationId: Id, bundleId: Id)
    requires (r.context.org, r.key) in s.idempotency || OpenLock(s, r.context, profileId, ifMatch).Err? || s.failAudit
    ensures var t := RequestBundle(s, r, profileId, ifMatch, now, operationId, bundleId).store;
      t == s || t == s.(failAudit := false)
  {
  }

  lemma BundleNotCreated(
    s: Store, r: Request, profileId: Id, ifMatch: Option<Tag>, now: int, operationId: Id, bundleId: Id)
    requires (r.context.org, r.key) !in s.idempotency && OpenLock(s, r.context, profileId, ifMatch).Ok? && !s.failAudit
    requires s.operations.failAudit || now < 0
    ensures var o := RequestBundle(s, r, profileId, ifMatch, now, operationId, bundleId).store.operations;
      && RequestBundle(s, r, profileId, ifMatch, now, operationId, bundleId).store == s.(operations := o)
      && o == s.operations.(failAudit := o.failAudit)
  {
  }

  lemma BundleNotTaken(
    s: Store, r: Request, profileId: Id, ifMatch: Option<Tag>, now: int, operationId: Id, bundleId: Id)
    requires !BundleIsTaken(s, r, profileId, ifMatch, now)
    ensures SameButFlags(s, RequestBundle(s, r, profileId, ifMatch, now, operationId, bundleId).store)
  {
    if (r.context.org, r.key) in s.idempotency || OpenLock(s, r.context, profileId, ifMatch).Err? || s.failAudit {
      BundleNotOpened(s, r, profileId, ifMatch, now, operationId, bundleId);
    } else {
      BundleNotCreated(s, r, profileId, ifMatch, now, operationId, bundleId);
    }
  }

  lemma RememberingKeeps(s: Store, r: Request, response: Response)
    ensures Sound(s) ==> Sound(Remembered(s, r, response))
    ensures OperationsHold(s) ==> OperationsHold(Remembered(s, r, response))
  {
  }

  lemma TakenBundleKeeps(s: Store, p: Profile, l: Lock, b: Bundle, done: Performed)
    requires Sound(s) && IsLockOf(p, l, s.profiles, s.locks) && BundleKey(b) !in s.bundles
      && (b.org, l.digest) !in s.bundleByLock
    requires b == NewBundle(p.reg.org, p, l, b.id, b.operation, b.requestedAt) && done.Done?
    requires (b.org, b.operation) !in s.operations.rows
      && done == CreateOperation(s.operations, b.org, b.operation, BUILD_BUNDLE, Some(l.digest), b.requestedAt)
    ensures var t := BundleRequested(s, p, b, done.operations);
      Sound(t) && (OperationsHold(s) ==> OperationsHold(t))
  {
    NewBundleKeepsSound(s, p, l, b, done.operations);
    if OperationsHold(s) {
      NewBundleKeepsOperations(s, p, l, b, done);
    }
  }

  lemma BundleCallKeeps(
    s: Store, r: Request, profileId: Id, ifMatch: Option<Tag>, now: int, operationId: Id, bundleId: Id)
    requires Sound(s) && (r.context.org, bundleId) !in s.bundles
      && (r.context.org, operationId) !in s.operations.rows
    ensures var t := RequestBundle(s, r, profileId, ifMatch, now, operationId, bundleId).store;
      Sound(t) && (OperationsHold(s) ==> OperationsHold(t))
  {
    if BundleIsTaken(s, r, profileId, ifMatch, now) {
      var p, l := OpenLockCases(s, r.context, profileId, ifMatch);
      var b := NewBundle(r.context.org, p, l, bundleId, operationId, now);
      var done := CreateOperation(s.operations, r.context.org, operationId, BUILD_BUNDLE, Some(l.digest), now);
      BundleTaken(s, r, profileId, ifMatch, now, operationId, bundleId);
      TakenBundleKeeps(s, p, l, b, done);
      RememberingKeeps(BundleRequested(s, p, b, done.operations), r, Response(202, BundleBody(b)));
    } else {
      BundleNotTaken(s, r, profileId, ifMatch, now, operationId, bundleId);
      FlagsKeep(s, RequestBundle(s, r, profileId, ifMatch, now, operationId, bundleId).store);
    }
  }

  // ---------- a report arrives ----------

  /** The report is in order and the profile store's audit takes it. */
  predicate ReportIsInOrder(s: Store, allowed: set<string>, authenticated: string, e: Envelope, now: int) {
    EnvelopeFault(allowed, authenticated, e, now) == None && e.eventId !in s.inbox && (e.org, e.bundleId) in s.bundles
    && OpenBundle(s, e).Ok? && !s.failAudit
  }

  function CompletionFor(s: Store, e: Envelope, now: int): Performed
    requires (e.org, e.bundleId) in s.bundles
  {
    CompleteOperation(s.operations, e.org, s.bundles[(e.org, e.bundleId)].operation, e.release, now)
  }

  /** The report is in order and both audits take it. */
  predicate ReportIsTaken(s: Store, allowed: set<string>, authenticated: string, e: Envelope, now: int) {
    ReportIsInOrder(s, allowed, authenticated, e, now) && CompletionFor(s, e, now).Done?
  }

  lemma ReportTaken(s: Store, allowed: set<string>, authenticated: string, e: Envelope, now: int)
    requires ReportIsTaken(s, allowed, authenticated, e, now)
    ensures var b := s.bundles[(e.org, e.bundleId)];
      b.state == REQUESTED && e.sequence == LastSequence(s, e) + 1
      && ReportSigned(s, allowed, authenticated, e, now).store
        == BundleSigned(s, b, e, CompleteOperation(s.operations, e.org, b.operation, e.release, now).operations, now)
  {
  }

  lemma ReportNotInOrder(s: Store, allowed: set<string>, authenticated: string, e: Envelope, now: int)
    requires !ReportIsInOrder(s, allowed, authenticated, e, now)
    ensures var t := ReportSigned(s, allowed, authenticated, e, now).store; t == s || t == s.(failAudit := false)
  {
  }

  lemma ReportNotCompleted(s: Store, allowed: set<string>, authenticated: string, e: Envelope, now: int)
    requires ReportIsInOrder(s, allowed, authenticated, e, now) && !CompletionFor(s, e, now).Done?
    ensures ReportSigned(s, allowed, authenticated, e, now).store
      == s.(operations := CompletionFor(s, e, now).operations)
  {
  }

  lemma RefusedCompletion(s: Store, e: Envelope, now: int)
    requires (e.org, e.bundleId) in s.bundles && !CompletionFor(s, e, now).Done?
    ensures SameButFlags(s, s.(operations := CompletionFor(s, e, now).operations))
  {
  }

  lemma ReportNotTaken(s: Store, allowed: set<string>, authenticated: string, e: Envelope, now: int)
    requires !ReportIsTaken(s, allowed, authenticated, e, now)
    ensures SameButFlags(s, ReportSigned(s, allowed, authenticated, e, now).store)
  {
    if ReportIsInOrder(s, allowed, authenticated, e, now) {
      ReportNotCompleted(s, allowed, authenticated, e, now);
      RefusedCompletion(s, e, now);
    } else {
      ReportNotInOrder(s, allowed, authenticated, e, now);
    }
  }

  lemma SigningKeepsOperations(s: Store, b: Bundle, e: Envelope, done: Performed, now: int)
    requires OperationsHold(s) && BundleKey(b) in s.bundles && s.bundles[BundleKey(b)] == b && b.state == REQUESTED
      && e.sequence >= 1
    requires b.org == e.org && done.Done? && done == CompleteOperation(s.operations, e.org, b.operation, e.release, now)
    ensures OperationsHold(BundleSigned(s, b, e, done.operations, now))
  {
    assert InStep(b, s.operations.rows);
    SignedIsInStep(s.bundles, s.operations.rows, b, Signed(b, e, now), done.row);
  }

  lemma SigningKeepsInbox(s: Store, b: Bundle, e: Envelope, o: Operations, now: int)
    requires InboxHolds(s) && BundleKey(b) == (e.org, e.bundleId) && BundleKey(b) in s.bundles
      && s.bundles[BundleKey(b)] == b
    requires b.state == REQUESTED && b.release == None && e.eventId !in s.inbox && e.sequence == LastSequence(s, e) + 1
    ensures InboxHolds(BundleSigned(s, b, e, o, now))
  {
    SignedCountsOne(s.inbox, s.sequences, s.bundles, b, Signed(b, e, now), e);
    SignedTells(s, b, e, now);
  }

  lemma SigningKeepsUnreleased(s: Store, b: Bundle, e: Envelope, o: Operations, now: int)
    requires Unreleased(s.bundles) && e.sequence >= 1
    ensures Unreleased(BundleSigned(s, b, e, o, now).bundles)
  {
  }

  lemma TakenReportKeeps(s: Store, b: Bundle, e: Envelope, done: Performed, now: int)
    requires Sound(s) && BundleKey(b) in s.bundles && s.bundles[BundleKey(b)] == b && b.state == REQUESTED
    requires BundleKey(b) == (e.org, e.bundleId) && e.eventId !in s.inbox && e.sequence == LastSequence(s, e) + 1
    requires done.Done? && done == CompleteOperation(s.operations, e.org, b.operation, e.release, now)
    ensures var t := BundleSigned(s, b, e, done.operations, now);
      Sound(t) && (OperationsHold(s) ==> OperationsHold(t))
  {
    SignedKeepsRows(s, b, e, done.operations, now);
    SigningKeepsInbox(s, b, e, done.operations, now);
    SigningKeepsUnreleased(s, b, e, done.operations, now);
    if OperationsHold(s) {
      SigningKeepsOperations(s, b, e, done, now);
    }
  }

  lemma ReportCallKeeps(s: Store, allowed: set<string>, authenticated: string, e: Envelope, now: int)
    requires Sound(s)
    ensures var t := ReportSigned(s, allowed, authenticated, e, now).store;
      Sound(t) && (OperationsHold(s) ==> OperationsHold(t))
  {
    if ReportIsTaken(s, allowed, authenticated, e, now) {
      ReportTaken(s, allowed, authenticated, e, now);
      var b := s.bundles[(e.org, e.bundleId)];
      assert BundleKey(b) == (e.org, e.bundleId);
      TakenReportKeeps(s, b, e, CompleteOperation(s.operations, e.org, b.operation, e.release, now), now);
    } else {
      ReportNotTaken(s, allowed, authenticated, e, now);
      FlagsKeep(s, ReportSigned(s, allowed, authenticated, e, now).store);
    }
  }

  // ---------- the other calls ----------

  /** The rows of operations agree with the bundles. */
  ghost predicate RowsAgree(bundles: Bundles, rows: Rows) {
    Keyed(rows) && BundlesInStep(bundles, rows) && OperationsOwned(bundles, rows)
  }

  /** An operation that is no bundle operation may be written without anyone noticing. */
  lemma OtherOperationKeeps(bundles: Bundles, rows: Rows, o: Operation)
    requires RowsAgree(bundles, rows) && o.kind != BUILD_BUNDLE
    requires (o.org, o.id) in rows ==> rows[(o.org, o.id)].kind != BUILD_BUNDLE
    ensures RowsAgree(bundles, rows[(o.org, o.id) := o])
  {
    var next := rows[(o.org, o.id) := o];
    forall k | k in bundles ensures InStep(bundles[k], next) {
      assert InStep(bundles[k], rows);
    }
  }

  lemma NewProfileKeepsRows(s: Store, p: Profile)
    requires RowsHold(s) && ProfileKey(p) !in s.profiles && p.state == PROPOSED
      && LawfulProfile(p, s.approvals, s.locks)
    ensures RowsHold(s.(profiles := s.profiles[ProfileKey(p) := p]))
  {
    BundlesStand(s.bundles, s.profiles, s.locks, s.locks, s.bundleByLock, p);
  }

  lemma NewProfileKeeps(s: Store, p: Profile)
    requires Sound(s) && ProfileKey(p) !in s.profiles && p.state == PROPOSED && LawfulProfile(p, s.approvals, s.locks)
    ensures var t := s.(profiles := s.profiles[ProfileKey(p) := p]);
      Sound(t) && (OperationsHold(s) ==> OperationsHold(t))
  {
    NewProfileKeepsRows(s, p);
    SameBundlesKeep(s, s.(profiles := s.profiles[ProfileKey(p) := p]));
  }

  /** What a registration that goes through writes. */
  lemma RegisterCases(s: Store, reg: Registration) returns (p: Profile)
    requires |reg.claimed| == OUTPUT_COUNT && Register(s, reg).Registered?
    ensures Register(s, reg).store == s.(profiles := s.profiles[ProfileKey(p) := p]) && ProfileKey(p) !in s.profiles
    ensures p.state == PROPOSED && LawfulProfile(p, s.approvals, s.locks)
  {
    p := Profile(reg, PROPOSED, 1, None, None, None, reg.createdAt);
  }

  lemma RegisterKeeps(s: Store, reg: Registration)
    requires Sound(s) && |reg.claimed| == OUTPUT_COUNT
    ensures Sound(Register(s, reg).store) && (OperationsHold(s) ==> OperationsHold(Register(s, reg).store))
  {
    if Register(s, reg).Registered? {
      var p := RegisterCases(s, reg);
      NewProfileKeeps(s, p);
    } else {
      assert Register(s, reg).store == s;
    }
  }

  /** The rows of operations are not involved in what every run keeps. */
  lemma OperationsStand(s: Store, o: Operations)
    requires Sound(s)
    ensures Sound(s.(operations := o)) && (RowsAgree(s.bundles, o.rows) ==> OperationsHold(s.(operations := o)))
  {
  }

  lemma TransitKeeps(
    bundles: Bundles, o: Operations, org: Org, id: Id, next: OperationState, reason: string, results: seq<Release>,
    failure: Option<string>, now: int)
    requires RowsAgree(bundles, o.rows) && ((org, id) in o.rows ==> o.rows[(org, id)].kind != BUILD_BUNDLE)
    ensures RowsAgree(bundles, TransitOperation(o, org, id, next, reason, results, failure, now).operations.rows)
  {
    var done := TransitOperation(o, org, id, next, reason, results, failure, now);
    if done.Done? {
      OtherOperationKeeps(bundles, o.rows, done.row);
    }
  }

  lemma WorkerKeeps(
    s: Store, org: Org, id: Id, next: OperationState, reason: string, results: seq<Release>,
    failure: Option<string>, now: int)
    requires Invariant(s) && !IsBundleOperation(s, (org, id))
    ensures var o := TransitOperation(s.operations, org, id, next, reason, results, failure, now).operations;
      Invariant(s.(operations := o))
  {
    TransitKeeps(s.bundles, s.operations, org, id, next, reason, results, failure, now);
    OperationsStand(s, TransitOperation(s.operations, org, id, next, reason, results, failure, now).operations);
  }

  lemma CompileKeeps(s: Store, org: Org, id: Id, now: int)
    requires Invariant(s) && (org, id) !in s.operations.rows
    ensures Invariant(s.(operations := CreateOperation(s.operations, org, id, COMPILE_PROFILE, None, now).operations))
  {
    var done := CreateOperation(s.operations, org, id, COMPILE_PROFILE, None, now);
    if done.Done? {
      OtherOperationKeeps(s.bundles, s.operations.rows, done.row);
    }
    OperationsStand(s, done.operations);
  }

  predicate IsOperationCall(call: Call) { call.CompileCall? || call.WorkerCall? }

  lemma OperationCallKeepsSound(s: Store, call: Call)
    requires Sound(s) && IsOperationCall(call)
    ensures Sound(After(s, call))
  {
    OperationsStand(s, After(s, call).operations);
    assert After(s, call) == s.(operations := After(s, call).operations);
  }

  lemma OperationCallKeeps(s: Store, call: Call)
    requires Invariant(s) && Admissible(s, call) && IsOperationCall(call)
    ensures Invariant(After(s, call))
  {
    if call.CompileCall? {
      assert Drawn(call)[0] == call.operationId && Unused(s, call.operationId);
      CompileKeeps(s, call.org, call.operationId, call.now);
    } else {
      WorkerKeeps(s, call.org, call.operation, call.next, call.reason, call.results, call.failure, call.now);
    }
  }

  lemma RegisterStepKeeps(s: Store, call: Call)
    requires Sound(s) && (call.RegisterCall? || call.FailProfileAudit? || call.FailOperationAudit?)
    ensures Sound(After(s, call)) && (OperationsHold(s) ==> OperationsHold(After(s, call)))
  {
    if call.RegisterCall? {
      if |call.reg.claimed| == OUTPUT_COUNT { RegisterKeeps(s, call.reg); }
    } else {
      FlagsKeep(s, After(s, call));
    }
  }

  lemma BundleStepKeeps(s: Store, call: Call)
    requires Sound(s) && DrawsNew(s, call) && call.BundleCall?
    ensures Sound(After(s, call)) && (OperationsHold(s) ==> OperationsHold(After(s, call)))
  {
    assert Drawn(call)[0] == call.operationId && Drawn(call)[1] == call.bundleId;
    assert Unused(s, call.operationId) && Unused(s, call.bundleId);
    BundleCallKeeps(s, call.r, call.profileId, call.ifMatch, call.now, call.operationId, call.bundleId);
  }

  lemma AfterReport(s: Store, call: Call)
    requires call.ReportCall?
    ensures After(s, call) == ReportSigned(s, call.allowed, call.authenticated, call.envelope, call.now).store
  {
  }

  lemma ReportStepKeeps(s: Store, call: Call)
    requires Sound(s) && call.ReportCall?
    ensures Sound(After(s, call)) && (OperationsHold(s) ==> OperationsHold(After(s, call)))
  {
    AfterReport(s, call);
    ReportCallKeeps(s, call.allowed, call.authenticated, call.envelope, call.now);
  }

  lemma StoreCallKeeps(s: Store, call: Call)
    requires Sound(s) && DrawsNew(s, call) && !IsOperationCall(call)
    ensures Sound(After(s, call)) && (OperationsHold(s) ==> OperationsHold(After(s, call)))
  {
    if IsPersonCall(call) {
      PersonCallKeeps(s, call);
    } else if call.BundleCall? {
      BundleStepKeeps(s, call);
    } else if call.ReportCall? {
      ReportStepKeeps(s, call);
    } else {
      RegisterStepKeeps(s, call);
    }
  }

  lemma CallKeepsSound(s: Store, call: Call)
    requires Sound(s) && DrawsNew(s, call)
    ensures Sound(After(s, call))
  {
    if IsOperationCall(call) {
      OperationCallKeepsSound(s, call);
    } else {
      StoreCallKeeps(s, call);
    }
  }

  lemma CallKeepsInvariant(s: Store, call: Call)
    requires Invariant(s) && Admissible(s, call)
    ensures Invariant(After(s, call))
  {
    if IsOperationCall(call) {
      OperationCallKeeps(s, call);
    } else {
      StoreCallKeeps(s, call);
    }
  }

  /** After any run at all, profiles, approvals, locks, bundles and inbox agree. */
  lemma {:induction false} RunKeepsSound(calls: seq<Call>)
    requires FeasibleForAll(EMPTY, calls)
    ensures Sound(Run(EMPTY, calls))
    decreases |calls|
  {
    if calls != [] {
      RunKeepsSound(calls[..|calls| - 1]);
      CallKeepsSound(Run(EMPTY, calls[..|calls| - 1]), calls[|calls| - 1]);
    }
  }

  /** After any run in which only the profile store drives bundle operations, these agree with their bundles too. */
  lemma {:induction false} RunKeepsInvariant(calls: seq<Call>)
    requires Feasible(EMPTY, calls)
    ensures Invariant(Run(EMPTY, calls))
    decreases |calls|
  {
    if calls != [] {
      RunKeepsInvariant(calls[..|calls| - 1]);
      CallKeepsInvariant(Run(EMPTY, calls[..|calls| - 1]), calls[|calls| - 1]);
    }
  }
}
