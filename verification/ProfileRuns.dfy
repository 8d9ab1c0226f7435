/** Runs from the empty stores that reach the states in which a profile or a bundle is stuck. */
module ProfileRuns {
  import opened Basics
  import opened ProfileModel
  import opened ProfileBundles
  import opened ProfileExpiry
  import opened ProfileLocking
  import opened ProfileWorkers
  import D = DemandModel

  const OUTPUTS: seq<string> := ["p", "q", "r", "s", "t", "u"]
  const KEY := ResultKey("o", 1, 1, "d", "w", "c", "p")
  const REG := Registration("o", 1, 1, KEY, 1, 1, "d", "w", "c", OUTPUTS, OUTPUTS, true, 0, 0)
  const PROFILE: Key := ("o", 1)
  const REQUESTER := Context("o", 7)
  const REVIEWER := Context("o", 8)
  const POLICY := D.Policy("policy", 1, {8}, 10)

  const PROPOSED_ROW := Profile(REG, PROPOSED, 1, None, None, None, 0)
  const PENDING_ROW := PROPOSED_ROW.(state := APPROVAL_PENDING, revision := 2, approvalId := Some(2))
  const APPROVAL := Approval(2, "o", 1, 1, KEY, ReviewOf(REG), 7, POLICY, D.PENDING, 1, [], None, 0, 0)

  function Approved(now: int): Approval { Voted(APPROVAL, D.Decision(8, true, "", now)) }

  // ---------- the calls ----------

  const REGISTER := RegisterCall(REG)
  const REQUEST := ApprovalCall(
    Request(REQUESTER, "a", ""), 1, Some(ProfileTag(PROPOSED_ROW, None, None)), 0,
    D.Offered("policy", 1, [8], 10, false), 2)

  function Vote(now: int): Call {
    DecideCall(Request(REVIEWER, "b", ""), 1, true, "", Some(ApprovalTag(APPROVAL)), now)
  }

  const LOCK := LockCall(Request(REQUESTER, "c", ""), 1, Some(ProfileTag(PENDING_ROW, Some(Approved(1)), None)), 2, 3)
  const LOCK_ROW := Lock(3, "o", 1, KEY, ReviewOf(REG), 2, LockDigest(ReviewOf(REG), Approved(1)), 2)
  const LOCKED_ROW := PENDING_ROW.(state := LOCKED, revision := 3, lockId := Some(3), updatedAt := 2)
  const BUNDLE :=
    BundleCall(Request(REQUESTER, "d", ""), 1, Some(ProfileTag(LOCKED_ROW, Some(Approved(1)), None)), 3, 4, 5)
  const BUNDLE_ROW := Bundle(5, "o", REQUESTED, 1, ReviewOf(REG), LOCK_ROW.digest, 4, None, None, None, 3, 3)

  // ---------- the rows after them ----------

  predicate IsRegistered(s: Store) {
    s.profiles == map[PROFILE := PROPOSED_ROW] && s.approvals == map[] && s.locks == map[] && s.bundles == map[]
    && s.bundleByLock == map[] && s.operations == EMPTY.operations && s.idempotency == map[] && !s.failAudit
  }

  predicate IsRequested(s: Store) {
    s.profiles == map[PROFILE := PENDING_ROW] && s.approvals == map[("o", 2) := APPROVAL] && s.locks == map[]
      && s.bundles == map[]
    && s.bundleByLock == map[] && s.operations == EMPTY.operations && s.idempotency.Keys == {("o", "a")} && !s.failAudit
  }

  predicate IsDecided(s: Store, a: Approval) {
    s.profiles == map[PROFILE := PENDING_ROW] && s.approvals == map[("o", 2) := a] && s.locks == map[]
      && s.bundles == map[]
    && s.bundleByLock == map[] && s.operations == EMPTY.operations && s.idempotency.Keys <= {("o", "a"), ("o", "b")}
    && !s.failAudit
  }

  predicate HasLockRow(s: Store) {
    s.profiles == map[PROFILE := LOCKED_ROW] && s.approvals == map[("o", 2) := Approved(1)]
      && s.locks == map[("o", 3) := LOCK_ROW]
    && s.bundles == map[] && s.bundleByLock == map[] && s.operations == EMPTY.operations
    && s.idempotency.Keys <= {("o", "a"), ("o", "b"), ("o", "c")} && !s.failAudit
  }

  lemma Registering()
    ensures IsRegistered(After(EMPTY, REGISTER)) && DrawsNew(EMPTY, REGISTER)
  {
  }

  lemma Requesting(s: Store)
    requires IsRegistered(s)
    ensures IsRequested(After(s, REQUEST)) && DrawsNew(s, REQUEST)
  {
    assert D.Elements([8]) == {8};
    assert RequestApproval(s, REQUESTER, 1, REQUEST.ifMatch, 0, REQUEST.answer, 2)
      == ApprovalRequested(REQUESTER, PROPOSED_ROW, POLICY, 0, 2);
  }

  lemma Voting(s: Store, now: int)
    requires IsRequested(s) && 0 <= now
    ensures IsDecided(After(s, Vote(now)), if now < 10 then Approved(now) else Expired(APPROVAL, now))
      && DrawsNew(s, Vote(now))
  {
  }

  lemma OneApproval(decision: D.Decision)
    requires decision.approve
    ensures D.Approvals([decision]) == 1
  {
    assert [decision][..0] == [];
  }

  lemma OneVoteDecides(a: Approval, decision: D.Decision)
    requires a.decisions == [] && a.policy.required == 1 && decision.approve
    ensures var v := Voted(a, decision);
      v.state == D.ApprovalState.APPROVED && v.policy == a.policy && v.id == a.id && v.review == a.review
      && v.resultKey == a.resultKey && v.profileRevision == a.profileRevision
  {
    OneApproval(decision);
    assert a.decisions + [decision] == [decision];
  }

  lemma ApprovedByOne()
    ensures Approved(1).state == D.ApprovalState.APPROVED && Approved(1).policy == POLICY && Approved(1).id == 2
    ensures IsAbout(Approved(1), PENDING_ROW)
  {
    OneVoteDecides(APPROVAL, D.Decision(8, true, "", 1));
  }

  lemma LockingRows(s: Store)
    requires IsDecided(s, Approved(1))
    ensures HasLockRow(Mutate(s, LOCK.r, Locked(REQUESTER, PENDING_ROW, Approved(1), 2, 3)).store)
  {
  }

  lemma Locking(s: Store)
    requires IsDecided(s, Approved(1))
    ensures HasLockRow(After(s, LOCK)) && DrawsNew(s, LOCK)
  {
    ApprovedByOne();
    LockPasses(s, PROFILE, PENDING_ROW, Approved(1), LOCK);
    LockingRows(s);
    assert After(s, LOCK) == Mutate(s, LOCK.r, Proposed(s, LOCK)).store;
  }

  /** The bundle is requested and its operation is pending. */
  predicate HasBundleRow(s: Store) {
    s.bundles == map[("o", 5) := BUNDLE_ROW] && ("o", 4) in s.operations.rows && !s.operations.failAudit
    && s.operations.rows[("o", 4)] == Operation(4, "o", BUILD_BUNDLE, PENDING, 1, Some(LOCK_ROW.digest), [], None, 3)
  }

  lemma BundleOpens(s: Store)
    requires HasLockRow(s)
    ensures OpenLock(s, REQUESTER, 1, BUNDLE.ifMatch) == Ok((LOCKED_ROW, LOCK_ROW))
  {
  }

  lemma Bundling(s: Store)
    requires HasLockRow(s)
    ensures DrawsNew(s, BUNDLE) && HasBundleRow(After(s, BUNDLE))
  {
    BundleOpens(s);
    BundleTaken(s, BUNDLE.r, 1, BUNDLE.ifMatch, 3, 4, 5);
  }

  lemma FirstCalls() returns (s: Store)
    ensures IsTimed(EMPTY, 0, [REGISTER, REQUEST]) && s == Run(EMPTY, [REGISTER, REQUEST]) && IsRequested(s)
    ensures Clock(0, [REGISTER, REQUEST]) == 0
  {
    Registering();
    OneMoreCall(EMPTY, 0, [], REGISTER);
    assert [] + [REGISTER] == [REGISTER] && [REGISTER] + [REQUEST] == [REGISTER, REQUEST];
    Requesting(After(EMPTY, REGISTER));
    OneMoreCall(EMPTY, 0, [REGISTER], REQUEST);
    s := Run(EMPTY, [REGISTER, REQUEST]);
  }

  lemma ThirdCall(now: int) returns (s: Store)
    requires 0 <= now
    ensures var calls := [REGISTER, REQUEST, Vote(now)];
      IsTimed(EMPTY, 0, calls) && s == Run(EMPTY, calls) && Clock(0, calls) == now
    ensures IsDecided(s, if now < 10 then Approved(now) else Expired(APPROVAL, now))
  {
    var t := FirstCalls();
    Voting(t, now);
    OneMoreCall(EMPTY, 0, [REGISTER, REQUEST], Vote(now));
    assert [REGISTER, REQUEST] + [Vote(now)] == [REGISTER, REQUEST, Vote(now)];
    s := Run(EMPTY, [REGISTER, REQUEST, Vote(now)]);
  }

  /** The profile is stuck at this time, with its approval in this state. */
  predicate IsStuckWith(s: Store, k: Key, now: int, state: D.ApprovalState) {
    IsStuck(s, k, now) && ApprovalFor(s, k).state == state
  }

  lemma StuckUnvoted(s: Store)
    requires IsRequested(s)
    ensures IsStuckWith(s, PROFILE, 10, D.PENDING)
  {
  }

  lemma StuckDecided(s: Store, a: Approval)
    requires IsDecided(s, a) && a.policy == POLICY
    ensures IsStuckWith(s, PROFILE, 10, a.state)
  {
  }

  /** A profile gets stuck when nobody votes in time, when somebody votes too late, and when nobody locks in time. */
  lemma StuckIsReachable()
    ensures IsTimed(EMPTY, 0, [REGISTER, REQUEST])
      && IsStuckWith(Run(EMPTY, [REGISTER, REQUEST]), PROFILE, 10, D.PENDING)
    ensures var late := [REGISTER, REQUEST, Vote(10)];
      IsTimed(EMPTY, 0, late) && IsStuckWith(Run(EMPTY, late), PROFILE, 10, D.EXPIRED)
    ensures var unlocked := [REGISTER, REQUEST, Vote(1)];
      IsTimed(EMPTY, 0, unlocked) && IsStuckWith(Run(EMPTY, unlocked), PROFILE, 10, D.ApprovalState.APPROVED)
  {
    var unvoted := FirstCalls();
    StuckUnvoted(unvoted);
    var late := ThirdCall(10);
    StuckDecided(late, Expired(APPROVAL, 10));
    var unlocked := ThirdCall(1);
    ApprovedByOne();
    StuckDecided(unlocked, Approved(1));
  }

  lemma FourthCall() returns (s: Store)
    ensures var calls := [REGISTER, REQUEST, Vote(1), LOCK];
      IsTimed(EMPTY, 0, calls) && s == Run(EMPTY, calls) && Clock(0, calls) == 2 && HasLockRow(s)
  {
    var calls := [REGISTER, REQUEST, Vote(1)];
    var t := ThirdCall(1);
    Locking(t);
    OneMoreCall(EMPTY, 0, calls, LOCK);
    assert calls + [LOCK] == [REGISTER, REQUEST, Vote(1), LOCK];
    s := Run(EMPTY, calls + [LOCK]);
  }

  /** A run without workers is one in which nobody else drives bundle operations. */
  lemma {:induction false} WithoutWorkers(s: Store, calls: seq<Call>)
    requires FeasibleForAll(s, calls) && forall i | 0 <= i < |calls| :: !calls[i].WorkerCall?
    ensures Feasible(s, calls)
    decreases |calls|
  {
    if calls != [] {
      WithoutWorkers(s, calls[..|calls| - 1]);
    }
  }

  const TO_BUNDLE: seq<Call> := [REGISTER, REQUEST, Vote(1), LOCK, BUNDLE]

  lemma FifthCall() returns (s: Store)
    ensures IsTimed(EMPTY, 0, TO_BUNDLE) && s == Run(EMPTY, TO_BUNDLE) && HasBundleRow(s)
  {
    var calls := [REGISTER, REQUEST, Vote(1), LOCK];
    var t := FourthCall();
    Bundling(t);
    OneMoreCall(EMPTY, 0, calls, BUNDLE);
    assert calls + [BUNDLE] == TO_BUNDLE;
    s := Run(EMPTY, TO_BUNDLE);
  }

  lemma WorkerMayBreak(s: Store, next: OperationState)
    requires HasBundleRow(s) && (next == RUNNING || next == CANCELLED)
    ensures BreaksPairing(s, WorkerCall("o", 4, next, "R", [], None, 4))
  {
  }

  /** A run to a requested bundle, whose operation a worker may then set running or cancel, which breaks the pairing. */
  lemma BreakingIsReachable(next: OperationState)
    requires next == RUNNING || next == CANCELLED
    ensures Feasible(EMPTY, TO_BUNDLE) && ("o", 5) in Run(EMPTY, TO_BUNDLE).bundles
    ensures Run(EMPTY, TO_BUNDLE).bundles[("o", 5)].state == REQUESTED
      && Run(EMPTY, TO_BUNDLE).bundles[("o", 5)].operation == 4
    ensures BreaksPairing(Run(EMPTY, TO_BUNDLE), WorkerCall("o", 4, next, "R", [], None, 4))
  {
    var s := FifthCall();
    WithoutWorkers(EMPTY, TO_BUNDLE);
    WorkerMayBreak(s, next);
  }
}
