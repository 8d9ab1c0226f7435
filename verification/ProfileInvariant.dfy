/**
 What every run of the two stores keeps: a locked profile rests on an exact quorum, a lock has at most
 one bundle, and a bundle and its operation move together.
 */
module ProfileInvariant {
  import opened Basics
  import opened ProfileModel
  import D = DemandModel
  import DemandInvariant

  type Profiles = map<Key, Profile>
  type Approvals = map<Key, Approval>
  type Locks = map<Key, Lock>
  type Bundles = map<Key, Bundle>
  type Rows = map<Key, Operation>
  type Index = map<(Org, LockDigest), Id>

  // ---------- profiles, approvals and locks ----------

  /** The profile's approval, in one of the given states and about the profile as it is. */
  predicate HasApproval(p: Profile, approvals: Approvals, states: set<D.ApprovalState>) {
    p.approvalId.Some? && (p.reg.org, p.approvalId.value) in approvals
    && var a := approvals[(p.reg.org, p.approvalId.value)];
       a.state in states && a.profileId == p.reg.profileId && a.review == ReviewOf(p.reg)
       && a.resultKey == p.reg.resultKey && a.profileRevision == p.reg.profileRevision
  }

  /** The profile's lock, taken on its review and its approval. */
  predicate HasLock(p: Profile, approvals: Approvals, locks: Locks) {
    p.approvalId.Some? && (p.reg.org, p.approvalId.value) in approvals
    && p.lockId.Some? && (p.reg.org, p.lockId.value) in locks
    && var l := locks[(p.reg.org, p.lockId.value)];
       l.profileId == p.reg.profileId && l.review == ReviewOf(p.reg) && l.resultKey == p.reg.resultKey
       && l.approvalId == p.approvalId.value
       && l.digest == LockDigest(ReviewOf(p.reg), approvals[(p.reg.org, p.approvalId.value)])
  }

  predicate LawfulProfile(p: Profile, approvals: Approvals, locks: Locks) {
    Verifies(p.reg)
    && match p.state
       case PROPOSED => p.approvalId == None && p.lockId == None && p.bundleId == None
       case APPROVAL_PENDING =>
         HasApproval(p, approvals, {D.PENDING, D.ApprovalState.APPROVED, D.EXPIRED}) && p.lockId == None
           && p.bundleId == None
       case REJECTED => HasApproval(p, approvals, {D.ApprovalState.REJECTED}) && p.lockId == None && p.bundleId == None
       case LOCKED => HasApproval(p, approvals, {D.ApprovalState.APPROVED}) && HasLock(p, approvals, locks)
       case SUPERSEDED => false
  }

  predicate LawfulProfiles(profiles: Profiles, approvals: Approvals, locks: Locks) {
    forall k | k in profiles :: ProfileKey(profiles[k]) == k && LawfulProfile(profiles[k], approvals, locks)
  }

  predicate ProperTally(a: Approval) {
    var d, required := a.decisions, a.policy.required;
    match a.state
    case PENDING => DemandInvariant.AllApprove(d) && |d| < required
    case APPROVED => DemandInvariant.AllApprove(d) && |d| == required
    case REJECTED => 0 < |d| <= required && DemandInvariant.AllApprove(d[..|d| - 1]) && !d[|d| - 1].approve
    case EXPIRED => DemandInvariant.AllApprove(d) && |d| < required
    case CANCELLED => false
  }

  predicate LawfulApproval(a: Approval) {
    && DemandInvariant.ProperPolicy(a.policy, a.requester)
    && DemandInvariant.ProperVotes(a.decisions, a.policy.eligible)
    && ProperTally(a)
  }

  predicate LawfulApprovals(approvals: Approvals) {
    forall k | k in approvals :: ApprovalKey(approvals[k]) == k && LawfulApproval(approvals[k])
  }

  // ---------- bundles and operations ----------

  /** A bundle is of the lock of a locked profile, and the only one the index has for that lock. */
  predicate LawfulBundle(b: Bundle, profiles: Profiles, locks: Locks, index: Index) {
    && (b.org, b.lockDigest) in index && index[(b.org, b.lockDigest)] == b.id
    && (b.org, b.profileId) in profiles && IsLockedWith(profiles[(b.org, b.profileId)], b, locks)
  }

  predicate IsLockedWith(p: Profile, b: Bundle, locks: Locks) {
    && p.state == LOCKED && p.lockId.Some? && (b.org, p.lockId.value) in locks
    && b.lockDigest == locks[(b.org, p.lockId.value)].digest && b.review == ReviewOf(p.reg)
  }

  predicate LawfulBundles(bundles: Bundles, profiles: Profiles, locks: Locks, index: Index) {
    forall k | k in bundles :: BundleKey(bundles[k]) == k && LawfulBundle(bundles[k], profiles, locks, index)
  }

  predicate IndexIsFull(bundles: Bundles, index: Index) {
    forall k | k in index :: (k.0, index[k]) in bundles && bundles[(k.0, index[k])].lockDigest == k.1
  }

  /** A requested bundle waits for a pending operation; a signed one has a succeeded operation with its release and
      no other. */
  predicate InStep(b: Bundle, rows: Rows) {
    && (b.org, b.operation) in rows
    && var o := rows[(b.org, b.operation)];
       && o.kind == BUILD_BUNDLE && o.subject == Some(b.lockDigest)
       && match b.state
          case REQUESTED =>
            o.state == PENDING && o.revision == 1 && o.results == [] && b.release == None && b.sequence == None
          case SOURCE_REPORTED_SIGNED =>
            o.state == SUCCEEDED && o.revision == 3 && b.release.Some? && o.results == [b.release.value]
              && b.sequence.Some?
  }

  predicate BundlesInStep(bundles: Bundles, rows: Rows) { forall k | k in bundles :: InStep(bundles[k], rows) }

  /** Every bundle operation belongs to one bundle. */
  predicate OperationsOwned(bundles: Bundles, rows: Rows) {
    && (forall j, k | j in bundles && k in bundles && j != k ::
         (bundles[j].org, bundles[j].operation) != (bundles[k].org, bundles[k].operation))
    && (forall k | k in rows && rows[k].kind == BUILD_BUNDLE :: OwnedBySome(bundles, k))
  }

  predicate OwnedBySome(bundles: Bundles, operation: Key) {
    exists k | k in bundles :: (bundles[k].org, bundles[k].operation) == operation
  }

  function IsSigned(b: Bundle): nat { if b.state == SOURCE_REPORTED_SIGNED then 1 else 0 }

  ghost function SignedCount(bundles: Bundles): nat { Sum(bundles, IsSigned) }

  function Itself(n: nat): nat { n }

  ghost function SequenceSum(sequences: map<(string, Org), nat>): nat { Sum(sequences, Itself) }

  /** The inbox holds one event for each signed bundle, and the sources' sequences add up to them. */
  ghost predicate InboxCounts(inbox: map<Id, Envelope>, sequences: map<(string, Org), nat>, bundles: Bundles) {
    |inbox| == SignedCount(bundles) == SequenceSum(sequences)
  }

  /** What an event in the inbox reported is what its bundle says. */
  predicate InboxTells(inbox: map<Id, Envelope>, bundles: Bundles) {
    forall id | id in inbox ::
      var e := inbox[id];
      e.eventId == id && (e.org, e.bundleId) in bundles
      && bundles[(e.org, e.bundleId)].release == Some(e.release)
      && bundles[(e.org, e.bundleId)].source == Some(e.source)
  }

  predicate Keyed(rows: Rows) { forall k | k in rows :: (rows[k].org, rows[k].id) == k }

  ghost predicate RowsHold(s: Store) {
    && LawfulProfiles(s.profiles, s.approvals, s.locks)
    && LawfulApprovals(s.approvals)
    && LawfulBundles(s.bundles, s.profiles, s.locks, s.bundleByLock)
    && IndexIsFull(s.bundles, s.bundleByLock)
  }

  ghost predicate OperationsHold(s: Store) {
    && Keyed(s.operations.rows)
    && BundlesInStep(s.bundles, s.operations.rows)
    && OperationsOwned(s.bundles, s.operations.rows)
  }

  ghost predicate InboxHolds(s: Store) {
    InboxCounts(s.inbox, s.sequences, s.bundles) && InboxTells(s.inbox, s.bundles)
  }

  // ---------- writing profiles, approvals and locks ----------

  /** Another approval under a key of `p` does not touch the other profiles. */
  lemma OtherProfilesStand(profiles: Profiles, approvals: Approvals, locks: Locks, p: Profile, a: Approval)
    requires LawfulProfiles(profiles, approvals, locks) && a.org == p.reg.org && a.profileId == p.reg.profileId
    requires ApprovalKey(a) in approvals ==> approvals[ApprovalKey(a)].profileId == p.reg.profileId
    requires LawfulProfile(p, approvals[ApprovalKey(a) := a], locks)
    ensures LawfulProfiles(profiles[ProfileKey(p) := p], approvals[ApprovalKey(a) := a], locks)
  {
    var more := approvals[ApprovalKey(a) := a];
    forall k | k in profiles && k != ProfileKey(p) ensures LawfulProfile(profiles[k], more, locks) {
      assert LawfulProfile(profiles[k], approvals, locks) && ProfileKey(profiles[k]) == k;
    }
  }

  lemma NewLockStands(profiles: Profiles, approvals: Approvals, locks: Locks, p: Profile, l: Lock)
    requires LawfulProfiles(profiles, approvals, locks) && LockKey(l) !in locks
    requires LawfulProfile(p, approvals, locks[LockKey(l) := l])
    ensures LawfulProfiles(profiles[ProfileKey(p) := p], approvals, locks[LockKey(l) := l])
  {
    var more := locks[LockKey(l) := l];
    forall k | k in profiles && k != ProfileKey(p) ensures LawfulProfile(profiles[k], approvals, more) {
      assert LawfulProfile(profiles[k], approvals, locks);
    }
  }

  /** Bundles do not notice a profile that was not locked, nor a new lock. */
  lemma BundlesStand(bundles: Bundles, profiles: Profiles, locks: Locks, more: Locks, index: Index, p: Profile)
    requires LawfulBundles(bundles, profiles, locks, index)
    requires forall k | k in locks :: k in more && more[k] == locks[k]
    requires ProfileKey(p) in profiles ==> profiles[ProfileKey(p)].state != LOCKED
    ensures LawfulBundles(bundles, profiles[ProfileKey(p) := p], more, index)
  {
    forall k | k in bundles ensures LawfulBundle(bundles[k], profiles[ProfileKey(p) := p], more, index) {
      assert LawfulBundle(bundles[k], profiles, locks, index);
    }
  }

  lemma VoteIsLawful(a: Approval, decision: D.Decision)
    requires LawfulApproval(a) && a.state == D.PENDING && MayReview(a, decision.actor)
    ensures LawfulApproval(Voted(a, decision))
  {
    var d := a.decisions + [decision];
    assert forall i | 0 <= i < |a.decisions| :: d[i] == a.decisions[i] && d[i].actor != decision.actor;
    assert d[..|d| - 1] == a.decisions;
    if decision.approve {
      DemandInvariant.AllApproveCount(d);
    }
  }

  // ---------- each call on profiles ----------

  /** A change of a profile that is not locked, with its approval and perhaps a new lock. */
  lemma ChangeKeepsRows(s: Store, change: Change)
    requires RowsHold(s)
    requires ProfileKey(change.profile) in s.profiles ==> s.profiles[ProfileKey(change.profile)].state != LOCKED
    requires LawfulProfiles(Applied(s, change).profiles, Applied(s, change).approvals, Applied(s, change).locks)
    requires change.approval.Some? ==> LawfulApproval(change.approval.value)
    requires change.lock.Some? ==> LockKey(change.lock.value) !in s.locks
    ensures RowsHold(Applied(s, change))
  {
    BundlesStand(s.bundles, s.profiles, s.locks, Applied(s, change).locks, s.bundleByLock, change.profile);
  }

  ghost predicate KeepsRows(s: Store, change: Change) { RowsHold(Applied(s, change)) }

  lemma RequestKeepsRows(
    s: Store, c: Context, profileId: Id, ifMatch: Option<Tag>, now: int, answer: D.PolicyAnswer, approvalId: Id)
    requires RowsHold(s) && (c.org, approvalId) !in s.approvals
    requires RequestApproval(s, c, profileId, ifMatch, now, answer, approvalId).Propose?
    ensures KeepsRows(s, RequestApproval(s, c, profileId, ifMatch, now, answer, approvalId).change)
  {
    var p := s.profiles[(c.org, profileId)];
    assert LawfulProfile(p, s.approvals, s.locks);
    DemandInvariant.AdmittedPolicyIsProper(answer, c.subject, now);
    RequestedKeepsRows(s, c, p, D.AdmittedPolicy(answer, c.subject, now).value, now, approvalId);
  }

  lemma RequestedKeepsRows(s: Store, c: Context, p: Profile, policy: D.Policy, now: int, approvalId: Id)
    requires RowsHold(s) && (c.org, approvalId) !in s.approvals && p.reg.org == c.org && ProfileKey(p) in s.profiles
    requires s.profiles[ProfileKey(p)] == p && p.state == PROPOSED && DemandInvariant.ProperPolicy(policy, c.subject)
    ensures KeepsRows(s, ApprovalRequested(c, p, policy, now, approvalId).change)
  {
    var change := ApprovalRequested(c, p, policy, now, approvalId).change;
    assert LawfulProfile(p, s.approvals, s.locks);
    OtherProfilesStand(s.profiles, s.approvals, s.locks, change.profile, change.approval.value);
    ChangeKeepsRows(s, change);
  }

  /** What a decision that is taken is about. */
  lemma DecideCases(
    s: Store, c: Context, profileId: Id, approve: bool, reason: string, ifMatch: Option<Tag>, now: int)
    returns (p: Profile, a: Approval)
    requires LawfulProfiles(s.profiles, s.approvals, s.locks) && LawfulApprovals(s.approvals)
    requires !Decide(s, c, profileId, approve, reason, ifMatch, now).Refuse?
    ensures (c.org, profileId) in s.profiles && p == s.profiles[(c.org, profileId)]
      && ProfileKey(p) == (c.org, profileId)
    ensures p.state == APPROVAL_PENDING && p.approvalId == Some(a.id) && ApprovalKey(a) in s.approvals
      && s.approvals[ApprovalKey(a)] == a
    ensures a.org == c.org && a.state == D.PENDING
    ensures Decide(s, c, profileId, approve, reason, ifMatch, now)
      == if a.policy.expiresAt <= now then Lapse(Expired(a, now))
        else Decided(p, Voted(a, D.Decision(c.subject, approve, reason, now)), now)
    ensures a.policy.expiresAt > now ==> MayReview(a, c.subject)
  {
    p := s.profiles[(c.org, profileId)];
    a := s.approvals[(c.org, p.approvalId.value)];
  }

  lemma DecidedKeepsRows(s: Store, p: Profile, a: Approval, next: Approval, now: int)
    requires RowsHold(s) && ProfileKey(p) in s.profiles && s.profiles[ProfileKey(p)] == p && p.state == APPROVAL_PENDING
    requires p.approvalId == Some(a.id) && a.org == p.reg.org && ApprovalKey(a) in s.approvals
      && s.approvals[ApprovalKey(a)] == a
    requires LawfulApproval(next) && ApprovalKey(next) == ApprovalKey(a) && next.profileId == a.profileId
      && next.review == a.review
    requires next.resultKey == a.resultKey && next.profileRevision == a.profileRevision && next.state != D.CANCELLED
      && next.state != D.EXPIRED
    ensures KeepsRows(s, Decided(p, next, now).change)
  {
    var change := Decided(p, next, now).change;
    assert LawfulProfile(p, s.approvals, s.locks);
    OtherProfilesStand(s.profiles, s.approvals, s.locks, change.profile, next);
    ChangeKeepsRows(s, change);
  }

  lemma DecideKeepsRows(
    s: Store, c: Context, profileId: Id, approve: bool, reason: string, ifMatch: Option<Tag>, now: int)
    requires RowsHold(s) && Decide(s, c, profileId, approve, reason, ifMatch, now).Propose?
    ensures KeepsRows(s, Decide(s, c, profileId, approve, reason, ifMatch, now).change)
  {
    var p, a := DecideCases(s, c, profileId, approve, reason, ifMatch, now);
    var decision := D.Decision(c.subject, approve, reason, now);
    VoteIsLawful(a, decision);
    DecidedKeepsRows(s, p, a, Voted(a, decision), now);
  }

  lemma LapseKeepsRows(
    s: Store, c: Context, profileId: Id, approve: bool, reason: string, ifMatch: Option<Tag>, now: int)
    requires RowsHold(s) && Decide(s, c, profileId, approve, reason, ifMatch, now).Lapse?
    ensures var next := Decide(s, c, profileId, approve, reason, ifMatch, now).approval;
      RowsHold(s.(approvals := s.approvals[ApprovalKey(next) := next]))
  {
    var p, a := DecideCases(s, c, profileId, approve, reason, ifMatch, now);
    assert LawfulProfile(p, s.approvals, s.locks);
    OtherProfilesStand(s.profiles, s.approvals, s.locks, p, Expired(a, now));
    assert s.profiles[ProfileKey(p) := p] == s.profiles;
  }

  lemma LockKeepsRows(s: Store, c: Context, profileId: Id, ifMatch: Option<Tag>, now: int, lockId: Id)
    requires RowsHold(s) && (c.org, lockId) !in s.locks && LockProfile(s, c, profileId, ifMatch, now, lockId).Propose?
    ensures KeepsRows(s, LockProfile(s, c, profileId, ifMatch, now, lockId).change)
  {
    var p := s.profiles[(c.org, profileId)];
    assert LawfulProfile(p, s.approvals, s.locks);
    var a := s.approvals[(c.org, p.approvalId.value)];
    LockedKeepsRows(s, c, p, a, now, lockId);
  }

  lemma LockedKeepsRows(s: Store, c: Context, p: Profile, a: Approval, now: int, lockId: Id)
    requires RowsHold(s) && (c.org, lockId) !in s.locks && p.reg.org == c.org && ProfileKey(p) in s.profiles
    requires s.profiles[ProfileKey(p)] == p && p.state == APPROVAL_PENDING && p.approvalId == Some(a.id)
    requires (c.org, a.id) in s.approvals && s.approvals[(c.org, a.id)] == a && a.state == D.ApprovalState.APPROVED
    ensures KeepsRows(s, Locked(c, p, a, now, lockId).change)
  {
    var change := Locked(c, p, a, now, lockId).change;
    assert LawfulProfile(p, s.approvals, s.locks);
    NewLockStands(s.profiles, s.approvals, s.locks, change.profile, change.lock.value);
    ChangeKeepsRows(s, change);
  }
}
