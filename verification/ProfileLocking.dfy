/** A pending profile whose approval is alive can always be locked; so it can exactly when it is. */
module ProfileLocking {
  import opened Basics
  import opened ProfileModel
  import opened ProfileInvariant
  import opened ProfileBundles
  import opened ProfileExpiry
  import D = DemandModel
  import DemandInvariant
  import DemandQuorum

  // ---------- new identifiers and keys ----------

  lemma NewId(s: Store) returns (id: Id)
    ensures Unused(s, id)
  {
    var used := (set k | k in s.approvals :: k.1) + (set k | k in s.locks :: k.1) + (set k | k in s.bundles :: k.1)
      + (set k | k in s.operations.rows :: k.1);
    id := SomeFreshId(used);
    forall k: Key | k.1 == id ensures k !in s.approvals && k !in s.locks && k !in s.bundles && k !in s.operations.rows {
      assert id !in used;
    }
  }

  lemma NewKey(s: Store, org: Org) returns (key: string)
    ensures (org, key) !in s.idempotency
  {
    var used := set k | k in s.idempotency :: k.1;
    key := DemandQuorum.SomeFreshKey(used);
    assert key !in used;
  }

  // ---------- one call more ----------

  lemma OneMoreCall(s: Store, clock: int, calls: seq<Call>, call: Call)
    requires IsTimed(s, clock, calls) && DrawsNew(Run(s, calls), call)
      && Clock(clock, calls) <= At(call, Clock(clock, calls))
    ensures IsTimed(s, clock, calls + [call]) && Run(s, calls + [call]) == After(Run(s, calls), call)
    ensures Clock(clock, calls + [call]) == At(call, Clock(clock, calls))
  {
    assert (calls + [call])[..|calls|] == calls;
  }

  /** An injected audit failure stops one call that would have written, and is gone then. */
  lemma FailureIsUsedUp(s: Store, call: Call)
    requires IsPersonCall(call) && Proposed(s, call).Propose? && s.failAudit
    requires (call.r.context.org, call.r.key) !in s.idempotency
    ensures After(s, call) == s.(failAudit := false)
  {
  }

  // ---------- votes ----------

  /** The approval is pending and `now` is a time at which it can be decided. */
  predicate IsOpen(s: Store, k: Key, now: int) {
    IsPending(s, k) && ApprovalFor(s, k).state == D.PENDING && 0 <= now < ApprovalFor(s, k).policy.expiresAt
  }

  lemma PendingRows(s: Store, k: Key) returns (p: Profile, a: Approval)
    requires RowsHold(s) && IsPending(s, k)
    ensures p == s.profiles[k] && ProfileKey(p) == k && p.state == APPROVAL_PENDING && p.approvalId == Some(a.id)
      && Verifies(p.reg)
    ensures a == ApprovalFor(s, k) && ApprovalKey(a) == (k.0, a.id) && ApprovalKey(a) in s.approvals
      && s.approvals[ApprovalKey(a)] == a
    ensures IsAbout(a, p) && p.lockId == None && LawfulApproval(a)
    ensures a.state == D.PENDING || a.state == D.ApprovalState.APPROVED || a.state == D.EXPIRED
  {
    p := s.profiles[k];
    a := s.approvals[(k.0, p.approvalId.value)];
    assert LawfulProfile(p, s.approvals, s.locks);
  }

  lemma SomeReviewer(a: Approval) returns (reviewer: Actor)
    requires LawfulApproval(a) && a.state == D.PENDING
    ensures MayReview(a, reviewer)
  {
    DemandQuorum.UndecidedIn(a.decisions, a.policy);
    reviewer :| reviewer in a.policy.eligible - DemandQuorum.Voters(a.decisions);
  }

  /** A vote of a reviewer who may, with the tag of the approval as it is and a key that is new. */
  predicate IsVote(s: Store, k: Key, a: Approval, approve: bool, now: int, call: Call) {
    && call.DecideCall? && call.r.context.org == k.0 && call.profileId == k.1 && call.approve == approve
    && call.now == now
    && call.ifMatch == Some(ApprovalTag(a)) && MayReview(a, call.r.context.subject)
    && (k.0, call.r.key) !in s.idempotency
  }

  function VoteOf(call: Call): D.Decision
    requires call.DecideCall?
  {
    D.Decision(call.r.context.subject, call.approve, call.reason, call.now)
  }

  lemma MakeVote(s: Store, k: Key, approve: bool, now: int) returns (call: Call)
    requires RowsHold(s) && IsOpen(s, k, now)
    ensures IsVote(s, k, ApprovalFor(s, k), approve, now, call) && DrawsNew(s, call)
  {
    var p, a := PendingRows(s, k);
    var reviewer := SomeReviewer(a);
    var key := NewKey(s, k.0);
    call := DecideCall(Request(Context(k.0, reviewer), key, ""), k.1, approve, "", Some(ApprovalTag(a)), now);
  }

  lemma VotePasses(s: Store, k: Key, p: Profile, a: Approval, call: Call)
    requires call.DecideCall? && IsVote(s, k, a, call.approve, call.now, call) && 0 <= call.now < a.policy.expiresAt
    requires k in s.profiles && s.profiles[k] == p && p.state == APPROVAL_PENDING && Verifies(p.reg) && IsAbout(a, p)
    requires p.approvalId == Some(a.id) && (k.0, a.id) in s.approvals && s.approvals[(k.0, a.id)] == a
      && a.state == D.PENDING
    ensures Proposed(s, call) == Decided(p, Voted(a, VoteOf(call)), call.now)
  {
  }

  lemma VoteIsWritten(s: Store, r: Request, k: Key, p: Profile, voted: Approval, now: int)
    requires !s.failAudit && (r.context.org, r.key) !in s.idempotency && voted.state != D.ApprovalState.REJECTED
    requires k in s.profiles && s.profiles[k] == p && ProfileKey(p) == k && p.state == APPROVAL_PENDING
    requires p.approvalId == Some(voted.id) && voted.org == k.0
    ensures var t := Mutate(s, r, Decided(p, voted, now)).store;
      !t.failAudit && IsPending(t, k) && t.profiles[k] == p && ApprovalFor(t, k) == voted
  {
  }

  /** What one approval more makes of a lawful pending approval. */
  lemma OneApprovalMore(a: Approval, decision: D.Decision)
    requires LawfulApproval(a) && a.state == D.PENDING && decision.approve && MayReview(a, decision.actor)
    ensures var next := Voted(a, decision);
      next.policy == a.policy && |next.decisions| == |a.decisions| + 1 <= a.policy.required
      && next.state == if |next.decisions| < a.policy.required then D.PENDING else D.ApprovalState.APPROVED
  {
    DemandInvariant.AllApproveCount(a.decisions + [decision]);
  }

  /** The number of approvals that the quorum still lacks. */
  function Missing(s: Store, k: Key): int
    requires IsPending(s, k)
  {
    ApprovalFor(s, k).policy.required - |ApprovalFor(s, k).decisions|
  }

  predicate IsApproved(s: Store, k: Key, now: int) {
    IsPending(s, k) && ApprovalFor(s, k).state == D.ApprovalState.APPROVED
      && 0 <= now < ApprovalFor(s, k).policy.expiresAt
  }

  /** One approval less is missing; with the last one the approval is approved. */
  predicate ComesCloser(s: Store, t: Store, k: Key, now: int)
    requires IsPending(s, k)
  {
    !t.failAudit && IsPending(t, k) && Missing(t, k) == Missing(s, k) - 1
    && if Missing(s, k) > 1 then IsOpen(t, k, now) else IsApproved(t, k, now)
  }

  lemma VoteComesCloser(s: Store, k: Key, now: int) returns (call: Call)
    requires Sound(s) && IsOpen(s, k, now) && !s.failAudit
    ensures DrawsNew(s, call) && At(call, now) == now && call.DecideCall? && ComesCloser(s, After(s, call), k, now)
  {
    var p, a := PendingRows(s, k);
    call := MakeVote(s, k, true, now);
    VotePasses(s, k, p, a, call);
    OneApprovalMore(a, VoteOf(call));
    VoteIsWritten(s, call.r, k, p, Voted(a, VoteOf(call)), now);
    assert After(s, call) == Mutate(s, call.r, Proposed(s, call)).store;
  }

  lemma ExtendVotes(s: Store, clock: int, given: seq<Call>, here: Store, k: Key, now: int) returns (more: seq<Call>)
    requires IsTimed(s, clock, given) && here == Run(s, given) && Sound(here) && Clock(clock, given) <= now
    requires IsOpen(here, k, now) && !here.failAudit
    ensures IsTimed(s, clock, more) && Clock(clock, more) == now && Sound(Run(s, more))
      && ComesCloser(here, Run(s, more), k, now)
  {
    var call := VoteComesCloser(here, k, now);
    CallKeepsSound(here, call);
    OneMoreCall(s, clock, given, call);
    more := given + [call];
  }

  /** The votes that are still missing after some calls. */
  lemma {:induction false} CompleteQuorum(s: Store, clock: int, given: seq<Call>, here: Store, k: Key, now: int)
    returns (calls: seq<Call>)
    requires IsTimed(s, clock, given) && here == Run(s, given) && Sound(here) && Clock(clock, given) <= now
    requires IsOpen(here, k, now) && !here.failAudit
    ensures IsTimed(s, clock, calls) && Clock(clock, calls) == now && Sound(Run(s, calls))
    ensures IsApproved(Run(s, calls), k, now) && !Run(s, calls).failAudit
    decreases Missing(here, k)
  {
    calls := ExtendVotes(s, clock, given, here, k, now);
    if Missing(here, k) > 1 {
      calls := CompleteQuorum(s, clock, calls, Run(s, calls), k, now);
    }
  }

  // ---------- the lock ----------

  predicate IsLocked(s: Store, k: Key) { k in s.profiles && s.profiles[k].state == LOCKED }

  /** A lock with the tag of the profile as it is, a key and an identifier that are new. */
  predicate IsLock(s: Store, k: Key, now: int, call: Call)
    requires k in s.profiles
  {
    && call.LockCall? && call.r.context.org == k.0 && call.profileId == k.1 && call.now == now
    && call.ifMatch == Some(ProfileTagOf(s, s.profiles[k])) && (k.0, call.r.key) !in s.idempotency
  }

  lemma MakeLock(s: Store, k: Key, now: int) returns (call: Call)
    requires k in s.profiles
    ensures IsLock(s, k, now, call) && DrawsNew(s, call)
  {
    var key := NewKey(s, k.0);
    var id := NewId(s);
    call := LockCall(Request(Context(k.0, 0), key, ""), k.1, Some(ProfileTagOf(s, s.profiles[k])), now, id);
    assert Drawn(call) == [id];
  }

  lemma LockPasses(s: Store, k: Key, p: Profile, a: Approval, call: Call)
    requires call.LockCall? && k in s.profiles && s.profiles[k] == p && IsLock(s, k, call.now, call)
    requires 0 <= call.now < a.policy.expiresAt && p.state == APPROVAL_PENDING && Verifies(p.reg) && IsAbout(a, p)
      && p.lockId == None
    requires p.approvalId == Some(a.id) && (k.0, a.id) in s.approvals && s.approvals[(k.0, a.id)] == a
    requires a.state == D.ApprovalState.APPROVED
    ensures Proposed(s, call) == Locked(call.r.context, p, a, call.now, call.lockId)
  {
  }

  lemma LockIsWritten(s: Store, r: Request, k: Key, p: Profile, a: Approval, now: int, lockId: Id)
    requires !s.failAudit && (r.context.org, r.key) !in s.idempotency && ProfileKey(p) == k
    ensures IsLocked(Mutate(s, r, Locked(r.context, p, a, now, lockId)).store, k)
  {
  }

  lemma LockTakesEffect(s: Store, k: Key, now: int) returns (call: Call)
    requires Sound(s) && IsApproved(s, k, now)
    ensures DrawsNew(s, call) && call.LockCall? && call.now == now
    ensures if s.failAudit then After(s, call) == s.(failAudit := false) else IsLocked(After(s, call), k)
  {
    var p, a := PendingRows(s, k);
    call := MakeLock(s, k, now);
    LockPasses(s, k, p, a, call);
    if s.failAudit {
      FailureIsUsedUp(s, call);
    } else {
      LockIsWritten(s, call.r, k, p, a, now, call.lockId);
      assert After(s, call) == Mutate(s, call.r, Proposed(s, call)).store;
    }
  }

  lemma VoteUsesUpFailure(s: Store, k: Key, now: int) returns (call: Call)
    requires Sound(s) && IsOpen(s, k, now) && s.failAudit
    ensures DrawsNew(s, call) && call.DecideCall? && call.now == now && After(s, call) == s.(failAudit := false)
  {
    var p, a := PendingRows(s, k);
    call := MakeVote(s, k, true, now);
    VotePasses(s, k, p, a, call);
    FailureIsUsedUp(s, call);
  }

  // ---------- reachability ----------

  /** The first instant from `clock` on that a call may carry. */
  function Soonest(clock: int): nat { if clock < 0 then 0 else clock }

  lemma CallUsesUpFailure(s: Store, k: Key, now: int) returns (call: Call)
    requires Sound(s) && s.failAudit && (IsOpen(s, k, now) || IsApproved(s, k, now))
    ensures DrawsNew(s, call) && At(call, now) == now && !call.FailProfileAudit? && !call.FailOperationAudit?
      && !call.RegisterCall?
    ensures After(s, call) == s.(failAudit := false)
  {
    if ApprovalFor(s, k).state == D.PENDING {
      call := VoteUsesUpFailure(s, k, now);
    } else {
      call := LockTakesEffect(s, k, now);
    }
  }

  lemma UnflaggedIsSound(s: Store)
    requires Sound(s)
    ensures Sound(s.(failAudit := false))
  {
    FlagsKeep(s, s.(failAudit := false));
  }

  /** An injected audit failure can be used up without touching the profile. */
  lemma Unflagged(s: Store, k: Key, clock: int) returns (calls: seq<Call>)
    requires Sound(s) && (IsOpen(s, k, Soonest(clock)) || IsApproved(s, k, Soonest(clock)))
    ensures IsTimed(s, clock, calls) && clock <= Clock(clock, calls) <= Soonest(clock)
    ensures Run(s, calls) == s.(failAudit := false)
  {
    calls := [];
    if s.failAudit {
      var call := CallUsesUpFailure(s, k, Soonest(clock));
      OneMoreCall(s, clock, [], call);
      calls := [] + [call];
    }
  }

  lemma FlagIsNotInvolved(s: Store, k: Key, now: int)
    requires IsOpen(s, k, now) || IsApproved(s, k, now)
    ensures var t := s.(failAudit := false); IsOpen(t, k, now) || IsApproved(t, k, now)
  {
  }

  lemma ApprovedFrom(s: Store, clock: int, given: seq<Call>, here: Store, k: Key, now: int) returns (calls: seq<Call>)
    requires IsTimed(s, clock, given) && here == Run(s, given) && Clock(clock, given) <= now
    requires Sound(here) && !here.failAudit && (IsOpen(here, k, now) || IsApproved(here, k, now))
    ensures IsTimed(s, clock, calls) && Clock(clock, calls) <= now && Sound(Run(s, calls))
    ensures IsApproved(Run(s, calls), k, now) && !Run(s, calls).failAudit
  {
    if IsOpen(here, k, now) {
      calls := CompleteQuorum(s, clock, given, here, k, now);
    } else {
      calls := given;
    }
  }

  lemma ApprovedIsReachable(s: Store, k: Key, clock: int) returns (calls: seq<Call>)
    requires Sound(s) && (IsOpen(s, k, Soonest(clock)) || IsApproved(s, k, Soonest(clock)))
    ensures IsTimed(s, clock, calls) && Clock(clock, calls) <= Soonest(clock) && Sound(Run(s, calls))
    ensures IsApproved(Run(s, calls), k, Soonest(clock)) && !Run(s, calls).failAudit
  {
    var given := Unflagged(s, k, clock);
    UnflaggedIsSound(s);
    FlagIsNotInvolved(s, k, Soonest(clock));
    calls := ApprovedFrom(s, clock, given, s.(failAudit := false), k, Soonest(clock));
  }

  /** From every reachable state, a pending profile whose approval is alive can be locked at once. */
  lemma LockIsReachable(s: Store, k: Key, clock: int) returns (calls: seq<Call>)
    requires Sound(s) && IsPending(s, k) && IsAlive(ApprovalFor(s, k), clock)
    ensures IsTimed(s, clock, calls) && IsLocked(Run(s, calls), k)
  {
    calls := ApprovedIsReachable(s, k, clock);
    var call := LockTakesEffect(Run(s, calls), k, Soonest(clock));
    OneMoreCall(s, clock, calls, call);
    calls := calls + [call];
  }

  /** The profile has left APPROVAL_PENDING. */
  predicate HasMoved(s: Store, k: Key) { k in s.profiles && s.profiles[k].state != APPROVAL_PENDING }

  ghost predicate CanBeLocked(s: Store, k: Key, clock: int) {
    exists calls :: IsTimed(s, clock, calls) && IsLocked(Run(s, calls), k)
  }

  ghost predicate CanMove(s: Store, k: Key, clock: int) {
    exists calls :: IsTimed(s, clock, calls) && HasMoved(Run(s, calls), k)
  }

  /**
   A pending profile can still be locked by calls in clock order, and can leave APPROVAL_PENDING at all,
   if and only if its approval is pending or approved and has not expired yet.
   */
  lemma LockableExactly(s: Store, k: Key, clock: int)
    requires Sound(s) && k in s.profiles && s.profiles[k].state == APPROVAL_PENDING
    ensures IsPending(s, k)
    ensures CanBeLocked(s, k, clock) <==> IsAlive(ApprovalFor(s, k), clock)
    ensures CanMove(s, k, clock) <==> IsAlive(ApprovalFor(s, k), clock)
  {
    assert LawfulProfile(s.profiles[k], s.approvals, s.locks) && ProfileKey(s.profiles[k]) == k;
    if IsAlive(ApprovalFor(s, k), clock) {
      var calls := LockIsReachable(s, k, clock);
      assert HasMoved(Run(s, calls), k);
    } else {
      forall calls | IsTimed(s, clock, calls) ensures !HasMoved(Run(s, calls), k) {
        StuckForEver(s, clock, calls, k);
      }
    }
  }

  // ---------- a decision after the expiry ----------

  /** The decision is on the profile's pending approval, with its tag and a new key, at or after its expiry, and the
      audit takes it. */
  predicate ComesTooLate(s: Store, r: Request, profileId: Id, ifMatch: Option<Tag>, now: int) {
    var k := (r.context.org, profileId);
    && IsPending(s, k) && ApprovalFor(s, k).state == D.PENDING && ifMatch == Some(ApprovalTag(ApprovalFor(s, k)))
    && ApprovalFor(s, k).policy.expiresAt <= now && 0 <= now
    && (r.context.org, r.key) !in s.idempotency && !s.failAudit
  }

  lemma LapsesExactly(
    s: Store, c: Context, profileId: Id, approve: bool, reason: string, ifMatch: Option<Tag>, now: int)
    requires RowsHold(s)
    ensures Decide(s, c, profileId, approve, reason, ifMatch, now).Lapse? <==>
      var k := (c.org, profileId);
      && IsPending(s, k) && ApprovalFor(s, k).state == D.PENDING && ifMatch == Some(ApprovalTag(ApprovalFor(s, k)))
      && ApprovalFor(s, k).policy.expiresAt <= now && 0 <= now
    ensures var proposal := Decide(s, c, profileId, approve, reason, ifMatch, now);
      proposal.Lapse? ==> proposal.approval == Expired(ApprovalFor(s, (c.org, profileId)), now)
  {
    if IsPending(s, (c.org, profileId)) {
      var p, a := PendingRows(s, (c.org, profileId));
    }
  }

  lemma LapseWrites(s: Store, r: Request, a: Approval, k: Key, now: int)
    requires IsPending(s, k) && ApprovalFor(s, k) == a && ApprovalKey(a) == (k.0, s.profiles[k].approvalId.value)
      && a.state == D.PENDING
    requires (r.context.org, r.key) !in s.idempotency && !s.failAudit
    ensures var t := Mutate(s, r, Lapse(Expired(a, now)));
      t.Raised? && t.error == PROFILE_APPROVAL_EXPIRED && t.store.approvals != s.approvals
        && t.store.profiles == s.profiles
      && IsPending(t.store, k) && ApprovalFor(t.store, k).state == D.EXPIRED
  {
    assert Mutate(s, r, Lapse(Expired(a, now))).store.approvals[ApprovalKey(a)] != s.approvals[ApprovalKey(a)];
  }

  lemma OnlyLapseWrites(s: Store, r: Request, proposal: Proposal)
    ensures Mutate(s, r, proposal).Raised? ==> Mutate(s, r, proposal).store.profiles == s.profiles
    ensures Mutate(s, r, proposal).Raised? && Mutate(s, r, proposal).store.approvals != s.approvals ==>
      proposal.Lapse? && (r.context.org, r.key) !in s.idempotency && !s.failAudit
  {
  }

  /** A decision raises and yet writes a row, if and only if it comes too late; then it closes the approval and
      strands the profile. */
  lemma RaisesAndWritesExactly(
    s: Store, r: Request, profileId: Id, approve: bool, reason: string, ifMatch: Option<Tag>, now: int)
    requires RowsHold(s)
    ensures var out := Mutate(s, r, Decide(s, r.context, profileId, approve, reason, ifMatch, now));
      && (out.Raised? && out.store.approvals != s.approvals <==> ComesTooLate(s, r, profileId, ifMatch, now))
      && (out.Raised? ==> out.store.profiles == s.profiles)
      && (ComesTooLate(s, r, profileId, ifMatch, now) ==>
           out.error == PROFILE_APPROVAL_EXPIRED && IsStuck(out.store, (r.context.org, profileId), now))
  {
    var proposal := Decide(s, r.context, profileId, approve, reason, ifMatch, now);
    LapsesExactly(s, r.context, profileId, approve, reason, ifMatch, now);
    OnlyLapseWrites(s, r, proposal);
    if ComesTooLate(s, r, profileId, ifMatch, now) {
      var k := (r.context.org, profileId);
      var p, a := PendingRows(s, k);
      LapseWrites(s, r, a, k, now);
    }
  }
}
