/**
 What a worker that drives bundle operations itself does to their pairing with bundles: exactly which
 of its transitions break it, and that a broken pairing is never mended.
 */
module ProfileWorkers {
  import opened Basics
  import opened ProfileModel
  import opened ProfileInvariant
  import opened ProfileBundles

  // ---------- the transitions that break the pairing ----------

  predicate IsTransition(call: Call) { call.WorkerCall? }

  function Transited(s: Store, call: Call): Performed
    requires IsTransition(call)
  {
    TransitOperation(
      s.operations, call.org, call.operation, call.next, call.reason, call.results, call.failure, call.now)
  }

  /** The transition is of a pending bundle operation, to RUNNING or CANCELLED, with a well-formed reason and without
      results or failure, and the audit takes it. */
  predicate BreaksPairing(s: Store, call: Call)
    requires IsTransition(call)
  {
    && IsBundleOperation(s, (call.org, call.operation))
    && s.operations.rows[(call.org, call.operation)].state == PENDING
    && (call.next == RUNNING || call.next == CANCELLED) && IsReason(call.reason)
    && call.results == [] && call.failure == None
    && 0 <= call.now && !s.operations.failAudit
  }

  lemma AfterWorker(s: Store, call: Call)
    requires IsTransition(call)
    ensures After(s, call) == s.(operations := Transited(s, call).operations)
  {
  }

  /** In a reachable state a bundle operation is pending or has succeeded, as its bundle is requested or signed. */
  lemma OwnerOf(s: Store, operation: Key) returns (k: Key)
    requires Invariant(s) && IsBundleOperation(s, operation)
    ensures k in s.bundles && BundleKey(s.bundles[k]) == k && (k.0, s.bundles[k].operation) == operation
    ensures InStep(s.bundles[k], s.operations.rows)
    ensures s.operations.rows[operation].state == if s.bundles[k].state == REQUESTED then PENDING else SUCCEEDED
  {
    assert OwnedBySome(s.bundles, operation);
    k :| k in s.bundles && (s.bundles[k].org, s.bundles[k].operation) == operation;
    assert InStep(s.bundles[k], s.operations.rows) && BundleKey(s.bundles[k]) == k;
  }

  lemma TakenExactly(s: Store, call: Call)
    requires IsTransition(call) && IsBundleOperation(s, (call.org, call.operation))
    requires s.operations.rows[(call.org, call.operation)].state in {PENDING, SUCCEEDED}
    ensures Transited(s, call).Done? <==> BreaksPairing(s, call)
  {
  }

  lemma RefusedRows(s: Store, call: Call)
    requires IsTransition(call) && Transited(s, call).Refused?
    ensures Transited(s, call).operations.rows == s.operations.rows
  {
  }

  lemma TakenRows(s: Store, call: Call)
    requires IsTransition(call) && BreaksPairing(s, call)
    ensures var rows := Transited(s, call).operations.rows; var key := (call.org, call.operation);
      key in rows && rows[key].state == call.next && rows[key].state != PENDING
  {
  }

  /** Rows of operations that are as they were agree with the bundles as they did. */
  lemma SameRowsStand(s: Store, o: Operations)
    requires Invariant(s) && o.rows == s.operations.rows
    ensures Invariant(s.(operations := o))
  {
    OperationsStand(s, o);
  }

  lemma BreakingIsSeen(s: Store, call: Call) returns (k: Key)
    requires Invariant(s) && IsTransition(call) && BreaksPairing(s, call)
    ensures k in s.bundles && (k.0, s.bundles[k].operation) == (call.org, call.operation)
      && s.bundles[k].state == REQUESTED
    ensures BundleKey(s.bundles[k]) == k && !InStep(s.bundles[k], Transited(s, call).operations.rows)
  {
    k := OwnerOf(s, (call.org, call.operation));
    TakenRows(s, call);
  }

  /**
   In a reachable state a worker's transition keeps bundles and operations in step if and only if it is
   not one of a pending bundle operation to RUNNING or CANCELLED that goes through.
   */
  lemma WorkerKeepsExactly(s: Store, call: Call)
    requires Invariant(s) && IsTransition(call)
    ensures Invariant(After(s, call)) <==> !BreaksPairing(s, call)
  {
    AfterWorker(s, call);
    if BreaksPairing(s, call) {
      var k := BreakingIsSeen(s, call);
      assert After(s, call).bundles == s.bundles;
    } else if IsBundleOperation(s, (call.org, call.operation)) {
      var k := OwnerOf(s, (call.org, call.operation));
      TakenExactly(s, call);
      RefusedRows(s, call);
      SameRowsStand(s, Transited(s, call).operations);
    } else {
      WorkerKeeps(s, call.org, call.operation, call.next, call.reason, call.results, call.failure, call.now);
    }
  }

  // ---------- a broken pairing is never mended ----------

  predicate BundlesKeyed(bundles: Bundles) { forall k | k in bundles :: BundleKey(bundles[k]) == k }

  /** The bundle is requested, and its operation is there but no longer pending. */
  predicate Stranded(bundles: Bundles, rows: Rows, k: Key) {
    && BundlesKeyed(bundles) && k in bundles && bundles[k].state == REQUESTED
    && (k.0, bundles[k].operation) in rows && rows[(k.0, bundles[k].operation)].state != PENDING
  }

  predicate IsStranded(s: Store, k: Key) { Stranded(s.bundles, s.operations.rows, k) }

  lemma StrandedIsNotReported(s: Store, k: Key, allowed: set<string>, authenticated: string, e: Envelope, now: int)
    requires IsStranded(s, k) && (e.org, e.bundleId) == k
    ensures !ReportIsTaken(s, allowed, authenticated, e, now)
  {
    assert CompletionFor(s, e, now).Refused?;
  }

  /** The rows are as they were, but for one that was pending or one that is new. */
  predicate OneRowMoves(rows: Rows, next: Rows) {
    forall key | key in rows && rows[key].state != PENDING :: key in next && next[key].state != PENDING
  }

  lemma StaysStranded(bundles: Bundles, more: Bundles, rows: Rows, next: Rows, k: Key)
    requires Stranded(bundles, rows, k) && OneRowMoves(rows, next) && BundlesKeyed(more) && k in more
      && more[k] == bundles[k]
    ensures Stranded(more, next, k)
  {
  }

  lemma CompletionMovesOne(s: Store, e: Envelope, now: int)
    requires (e.org, e.bundleId) in s.bundles
    ensures OneRowMoves(s.operations.rows, CompletionFor(s, e, now).operations.rows)
  {
  }

  lemma CreationMovesOne(o: Operations, org: Org, id: Id, kind: OperationKind, subject: Option<LockDigest>, now: int)
    requires (org, id) !in o.rows
    ensures OneRowMoves(o.rows, CreateOperation(o, org, id, kind, subject, now).operations.rows)
  {
  }

  lemma TransitionMovesOne(s: Store, call: Call)
    requires IsTransition(call)
    ensures OneRowMoves(s.operations.rows, Transited(s, call).operations.rows)
  {
  }

  lemma ReportLeavesStranded(s: Store, allowed: set<string>, authenticated: string, e: Envelope, now: int, k: Key)
    requires IsStranded(s, k)
    ensures var t := ReportSigned(s, allowed, authenticated, e, now).store;
      IsStranded(t, k) && t.bundles[k] == s.bundles[k]
  {
    var t := ReportSigned(s, allowed, authenticated, e, now).store;
    if ReportIsTaken(s, allowed, authenticated, e, now) {
      ReportTaken(s, allowed, authenticated, e, now);
      CompletionMovesOne(s, e, now);
      var b := s.bundles[(e.org, e.bundleId)];
      if (e.org, e.bundleId) == k {
        StrandedIsNotReported(s, k, allowed, authenticated, e, now);
      }
      assert t.bundles == s.bundles[BundleKey(b) := Signed(b, e, now)];
      StaysStranded(s.bundles, t.bundles, s.operations.rows, t.operations.rows, k);
    } else {
      ReportNotTaken(s, allowed, authenticated, e, now);
    }
  }

  lemma BundleLeavesStranded(
    s: Store, r: Request, profileId: Id, ifMatch: Option<Tag>, now: int, operationId: Id, bundleId: Id, k: Key)
    requires IsStranded(s, k) && Unused(s, operationId) && Unused(s, bundleId)
    ensures var t := RequestBundle(s, r, profileId, ifMatch, now, operationId, bundleId).store;
      IsStranded(t, k) && t.bundles[k] == s.bundles[k]
  {
    var t := RequestBundle(s, r, profileId, ifMatch, now, operationId, bundleId).store;
    if BundleIsTaken(s, r, profileId, ifMatch, now) {
      var (p, l) := OpenLock(s, r.context, profileId, ifMatch).value;
      BundleTaken(s, r, profileId, ifMatch, now, operationId, bundleId);
      CreationMovesOne(s.operations, r.context.org, operationId, BUILD_BUNDLE, Some(l.digest), now);
      StaysStranded(s.bundles, t.bundles, s.operations.rows, t.operations.rows, k);
    } else {
      BundleNotTaken(s, r, profileId, ifMatch, now, operationId, bundleId);
    }
  }

  lemma OperationLeavesStranded(s: Store, call: Call, k: Key)
    requires IsStranded(s, k) && DrawsNew(s, call) && (call.CompileCall? || call.WorkerCall?)
    ensures IsStranded(After(s, call), k) && After(s, call).bundles[k] == s.bundles[k]
  {
    var t := After(s, call);
    if call.WorkerCall? {
      AfterWorker(s, call);
      TransitionMovesOne(s, call);
    } else {
      assert Drawn(call)[0] in Drawn(call) && Unused(s, call.operationId);
      CreationMovesOne(s.operations, call.org, call.operationId, COMPILE_PROFILE, None, call.now);
    }
    StaysStranded(s.bundles, t.bundles, s.operations.rows, t.operations.rows, k);
  }

  predicate IsPlain(call: Call) {
    !call.BundleCall? && !call.ReportCall? && !call.CompileCall? && !call.WorkerCall?
  }

  lemma PlainLeavesBundles(s: Store, call: Call)
    requires IsPlain(call)
    ensures After(s, call).bundles == s.bundles && After(s, call).operations.rows == s.operations.rows
  {
    if IsPersonCall(call) {
      MutateLeavesBundles(s, call.r, Proposed(s, call));
      assert After(s, call) == Mutate(s, call.r, Proposed(s, call)).store;
    }
  }

  lemma BundleCallLeavesStranded(s: Store, call: Call, k: Key)
    requires IsStranded(s, k) && DrawsNew(s, call) && call.BundleCall?
    ensures IsStranded(After(s, call), k) && After(s, call).bundles[k] == s.bundles[k]
  {
    assert Drawn(call)[0] == call.operationId && Drawn(call)[1] == call.bundleId;
    assert Unused(s, call.operationId) && Unused(s, call.bundleId);
    BundleLeavesStranded(s, call.r, call.profileId, call.ifMatch, call.now, call.operationId, call.bundleId, k);
  }

  lemma CallLeavesStranded(s: Store, call: Call, k: Key)
    requires IsStranded(s, k) && DrawsNew(s, call)
    ensures IsStranded(After(s, call), k) && After(s, call).bundles[k] == s.bundles[k]
  {
    if call.BundleCall? {
      BundleCallLeavesStranded(s, call, k);
    } else if call.ReportCall? {
      ReportLeavesStranded(s, call.allowed, call.authenticated, call.envelope, call.now, k);
    } else if call.CompileCall? || call.WorkerCall? {
      OperationLeavesStranded(s, call, k);
    } else {
      PlainLeavesBundles(s, call);
    }
  }

  lemma {:induction false} StrandedForEver(s: Store, calls: seq<Call>, k: Key)
    requires IsStranded(s, k) && FeasibleForAll(s, calls)
    ensures IsStranded(Run(s, calls), k) && Run(s, calls).bundles[k] == s.bundles[k]
    decreases |calls|
  {
    if calls != [] {
      var earlier := calls[..|calls| - 1];
      StrandedForEver(s, earlier, k);
      CallLeavesStranded(Run(s, earlier), calls[|calls| - 1], k);
    }
  }

  /** The bundle is requested, as it was, without a report, and out of step with its operation. */
  ghost predicate WaitsInVain(s: Store, k: Key, b: Bundle) {
    && k in s.bundles && s.bundles[k] == b && b.state == REQUESTED && !InStep(b, s.operations.rows)
    && forall allowed: set<string>, authenticated: string, e: Envelope, now: int | (e.org, e.bundleId) == k ::
         !ReportIsTaken(s, allowed, authenticated, e, now)
  }

  lemma StrandedWaitsInVain(s: Store, k: Key)
    requires IsStranded(s, k)
    ensures WaitsInVain(s, k, s.bundles[k])
  {
    assert BundleKey(s.bundles[k]) == k;
    forall allowed: set<string>, authenticated: string, e: Envelope, now: int | (e.org, e.bundleId) == k
      ensures !ReportIsTaken(s, allowed, authenticated, e, now)
    {
      StrandedIsNotReported(s, k, allowed, authenticated, e, now);
    }
  }

  lemma BreakingStrands(s: Store, call: Call) returns (k: Key)
    requires Invariant(s) && IsTransition(call) && BreaksPairing(s, call)
    ensures k in s.bundles && (k.0, s.bundles[k].operation) == (call.org, call.operation)
    ensures IsStranded(After(s, call), k) && After(s, call).bundles[k] == s.bundles[k]
  {
    k := BreakingIsSeen(s, call);
    AfterWorker(s, call);
    TakenRows(s, call);
    assert BundlesKeyed(s.bundles);
  }

  /**
   Once a worker's transition has broken the pairing of a bundle, then after any further calls with new
   identifiers, of workers or of anybody, the bundle is requested as it was and no report of it is taken.
   */
  lemma BrokenForEver(s: Store, call: Call, calls: seq<Call>) returns (k: Key)
    requires Invariant(s) && IsTransition(call) && BreaksPairing(s, call) && FeasibleForAll(After(s, call), calls)
    ensures k in s.bundles && (k.0, s.bundles[k].operation) == (call.org, call.operation)
    ensures WaitsInVain(Run(After(s, call), calls), k, s.bundles[k])
  {
    k := BreakingStrands(s, call);
    StrandedForEver(After(s, call), calls, k);
    StrandedWaitsInVain(Run(After(s, call), calls), k);
  }
}
