/**
 The operation store and the profile lifecycle store as objects whose methods replace entries of their
 maps in place. The profile store holds a reference to the operation store and calls it. Every method
 is proved to do exactly what the corresponding function of ProfileModel says, so that what is proved
 about runs of those functions holds of calls of these methods.
 */
module ProfileStore {
  import opened Basics
  import opened ProfileModel
  import D = DemandModel

  /** The operation store's contents and the method's result are those of `performed`. */
  predicate Performs(performed: Performed, view: Operations, r: Result<Operation, Refusal>) {
    match performed
    case Done(o, row) => view == o && r == Ok(row)
    case Refused(o, why) => view == o && r == Err(why)
  }

  /** The profile store's contents, those of its operation store included, and the method's result are those of
      `outcome`. */
  predicate Agrees(outcome: Outcome, view: Store, r: Result<Response, Refusal>) {
    match outcome
    case Returned(s, response) => view == s && r == Ok(response)
    case Registered(_) => false
    case Raised(s, why) => view == s && r == Err(why)
  }

  class OperationStore {
    var rows: map<Key, Operation>
    var outbox: seq<OperationEvent>
    var failAudit: bool

    constructor ()
      ensures View() == EMPTY.operations
    {
      rows, outbox, failAudit := map[], [], false;
    }

    ghost function View(): Operations
      reads this
    {
      Operations(rows, outbox, failAudit)
    }

    method FailNextAudit()
      modifies this`failAudit
      ensures View() == old(View()).(failAudit := true)
    {
      failAudit := true;
    }

    /** The audit takes the record, or refuses it once. */
    method CommitAudit() returns (taken: bool)
      modifies this`failAudit
      ensures taken == !old(failAudit) && !failAudit
    {
      taken := !failAudit;
      failAudit := false;
    }

    method Create(
      org: Org, id: Id, kind: OperationKind, subject: Option<LockDigest>, now: int)
      returns (r: Result<Operation, Refusal>)
      modifies this
      ensures Performs(CreateOperation(old(View()), org, id, kind, subject, now), View(), r)
    {
      if now < 0 { return Err(PROFILE_TIME_REFUSED); }
      var row := Operation(id, org, kind, PENDING, 1, subject, [], None, now);
      var taken := CommitAudit();
      if !taken { return Err(AUDIT_WRITE_REFUSED); }
      rows := rows[(org, id) := row];
      return Ok(row);
    }

    /** Two transitions in one step: running, then succeeded. */
    method CompleteBundle(org: Org, id: Id, release: Release, now: int) returns (r: Result<Operation, Refusal>)
      modifies this
      ensures Performs(CompleteOperation(old(View()), org, id, release, now), View(), r)
    {
      if (org, id) !in rows || rows[(org, id)].kind != BUILD_BUNDLE || rows[(org, id)].state != PENDING {
        return Err(OPERATION_TRANSITION_REFUSED);
      }
      if now < 0 { return Err(PROFILE_TIME_REFUSED); }
      var running := rows[(org, id)].(state := RUNNING, revision := rows[(org, id)].revision + 1, updatedAt := now);
      var succeeded := running.(state := SUCCEEDED, revision := running.revision + 1, results := [release]);
      var taken := CommitAudit();
      if !taken { return Err(AUDIT_WRITE_REFUSED); }
      rows := rows[(org, id) := succeeded];
      outbox := outbox + [
        OperationEvent(org, id, running.revision, PENDING, RUNNING, PROCESSING),
        OperationEvent(org, id, succeeded.revision, RUNNING, SUCCEEDED, REPORTED_SIGNED)];
      return Ok(succeeded);
    }

    method ApplyWorkerTransition(
      org: Org, id: Id, next: OperationState, reason: string, results: seq<Release>, failure: Option<string>, now: int)
      returns (r: Result<Operation, Refusal>)
      modifies this
      ensures Performs(TransitOperation(old(View()), org, id, next, reason, results, failure, now), View(), r)
    {
      if (org, id) !in rows { return Err(OPERATION_NOT_FOUND); }
      var current := rows[(org, id)];
      if next !in Transitions(current.state) || !IsReason(reason) { return Err(OPERATION_TRANSITION_REFUSED); }
      if (next == FAILED) != failure.Some? { return Err(OPERATION_FAILURE_REFUSED); }
      if next != SUCCEEDED && results != [] { return Err(OPERATION_RESULT_REFUSED); }
      if now < 0 { return Err(PROFILE_TIME_REFUSED); }
      var changed := current.(state := next, revision := current.revision + 1, results := results, failure := failure,
        updatedAt := now);
      var taken := CommitAudit();
      if !taken { return Err(AUDIT_WRITE_REFUSED); }
      rows := rows[(org, id) := changed];
      outbox := outbox + [OperationEvent(org, id, changed.revision, current.state, next, reason)];
      return Ok(changed);
    }
  }

  class ProfileLifecycleStore {
    var profiles: map<Key, Profile>
    var approvals: map<Key, Approval>
    var locks: map<Key, Lock>
    var bundles: map<Key, Bundle>
    var bundleByLock: map<(Org, LockDigest), Id>
    var idempotency: map<(Org, string), Stored>
    var inbox: map<Id, Envelope>
    var sequences: map<(string, Org), nat>
    var failAudit: bool
    const operations: OperationStore
    const allowed: set<string>

    constructor (operations: OperationStore, allowed: set<string>)
      ensures this.operations == operations && this.allowed == allowed
      ensures View() == EMPTY.(operations := operations.View())
    {
      profiles, approvals, locks, bundles, bundleByLock := map[], map[], map[], map[], map[];
      idempotency, inbox, sequences, failAudit := map[], map[], map[], false;
      this.operations := operations;
      this.allowed := allowed;
    }

    ghost function View(): Store
      reads this, operations
    {
      Store(profiles, approvals, locks, bundles, bundleByLock, idempotency, inbox, sequences, failAudit,
        operations.View())
    }

    /** Profiles are kept under their own keys, as every run keeps them. */
    ghost predicate Keyed()
      reads this
    {
      forall k | k in profiles :: ProfileKey(profiles[k]) == k
    }

    method FailNextAudit()
      modifies this`failAudit
      ensures View() == old(View()).(failAudit := true)
    {
      failAudit := true;
    }

    method CommitAudit() returns (taken: bool)
      modifies this`failAudit
      ensures taken == !old(failAudit) && !failAudit
    {
      taken := !failAudit;
      failAudit := false;
    }

    method Register(reg: Registration) returns (r: Option<Refusal>)
      requires |reg.claimed| == OUTPUT_COUNT
      modifies this
      ensures ProfileModel.Register(old(View()), reg)
        == match r case None => Registered(View()) case Some(why) => Raised(View(), why)
    {
      var key := (reg.org, reg.profileId);
      if key in profiles { return Some(PROFILE_REVISION_EXISTS); }
      if reg.resultKey != KeyOf(reg) { return Some(PROFILE_RESULT_KEY_REFUSED); }
      if !Verifies(reg) { return Some(PROFILE_REVISION_TAMPERED); }
      profiles := profiles[key := Profile(reg, PROPOSED, 1, None, None, None, reg.createdAt)];
      return None;
    }

    /** The answer to a request whose key is known. */
    method FindReplay(r: Request) returns (answer: Option<Result<Response, Refusal>>)
      ensures answer.None? == ((r.context.org, r.key) !in idempotency)
      ensures answer.Some? ==> answer.value == var stored := idempotency[(r.context.org, r.key)];
        if stored.fingerprint != r.fingerprint then Err(IDEMPOTENCY_CONFLICT) else Ok(stored.response)
    {
      if (r.context.org, r.key) !in idempotency { return None; }
      var stored := idempotency[(r.context.org, r.key)];
      return Some(if stored.fingerprint != r.fingerprint then Err(IDEMPOTENCY_CONFLICT) else Ok(stored.response));
    }

    method Remember(r: Request, response: Response)
      modifies this`idempotency
      ensures View() == Remembered(old(View()), r, response)
    {
      idempotency := idempotency[(r.context.org, r.key) := Stored(r.fingerprint, response)];
    }

    method Open(org: Org, profileId: Id, ifMatch: Option<Tag>, byProfileTag: bool) returns (r: Result<Profile, Refusal>)
      ensures r == OpenProfile(View(), org, profileId, ifMatch, byProfileTag)
    {
      if ifMatch.None? { return Err(PRECONDITION_REQUIRED); }
      if (org, profileId) !in profiles { return Err(PROFILE_NOT_FOUND); }
      var p := profiles[(org, profileId)];
      if !Verifies(p.reg) { return Err(PROFILE_REVISION_TAMPERED); }
      if byProfileTag {
        var tag := ProfileTag(p, Find(approvals, p.reg.org, p.approvalId), Find(bundles, p.reg.org, p.bundleId));
        if ifMatch != Some(tag) { return Err(PRECONDITION_FAILED); }
      }
      return Ok(p);
    }

    method WriteRequest(
      q: Request, p: Profile, policy: D.Policy, now: int, approvalId: Id) returns (r: Result<Response, Refusal>)
      requires (q.context.org, q.key) !in idempotency
      modifies this
      ensures Agrees(Mutate(old(View()), q, ApprovalRequested(q.context, p, policy, now, approvalId)), View(), r)
    {
      var approval := Approval(
        approvalId, q.context.org, p.reg.profileId, p.reg.profileRevision, p.reg.resultKey, ReviewOf(p.reg),
        q.context.subject, policy, D.PENDING, 1, [], None, now, now);
      var changed := p.(state := APPROVAL_PENDING, revision := p.revision + 1, approvalId := Some(approvalId),
        updatedAt := now);
      var taken := CommitAudit();
      if !taken { return Err(AUDIT_WRITE_REFUSED); }
      approvals := approvals[ApprovalKey(approval) := approval];
      profiles := profiles[ProfileKey(changed) := changed];
      Remember(q, Response(202, ApprovalBody(approval)));
      return Ok(Response(202, ApprovalBody(approval)));
    }

    method RequestApproval(
      q: Request, profileId: Id, ifMatch: Option<Tag>, now: int, answer: D.PolicyAnswer, approvalId: Id)
      returns (r: Result<Response, Refusal>)
      modifies this
      ensures Agrees(
        Mutate(old(View()), q,
          ProfileModel.RequestApproval(old(View()), q.context, profileId, ifMatch, now, answer, approvalId)), View(), r)
    {
      var replay := FindReplay(q);
      if replay.Some? { return replay.value; }
      var open := Open(q.context.org, profileId, ifMatch, true);
      if open.Err? { return Err(open.error); }
      var p := open.value;
      if p.state != PROPOSED { return Err(PROFILE_APPROVAL_STATE_REFUSED); }
      if p.reg.openSelectors > 0 { return Err(PROFILE_SELECTORS_UNRESOLVED); }
      if now < 0 { return Err(PROFILE_TIME_REFUSED); }
      var admitted := D.AdmittedPolicy(answer, q.context.subject, now);
      if admitted.Err? { return Err(PolicyRefusal(admitted.error)); }
      r := WriteRequest(q, p, admitted.value, now, approvalId);
    }

    /** Even an approval found expired is written, although the call raises. */
    method WriteExpiry(q: Request, approval: Approval, now: int) returns (r: Result<Response, Refusal>)
      requires (q.context.org, q.key) !in idempotency
      modifies this
      ensures Agrees(Mutate(old(View()), q, Lapse(Expired(approval, now))), View(), r)
    {
      var taken := CommitAudit();
      if !taken { return Err(AUDIT_WRITE_REFUSED); }
      approvals := approvals[ApprovalKey(approval) := Expired(approval, now)];
      return Err(PROFILE_APPROVAL_EXPIRED);
    }

    method WriteDecision(q: Request, p: Profile, voted: Approval, now: int) returns (r: Result<Response, Refusal>)
      requires (q.context.org, q.key) !in idempotency && ProfileKey(p) in profiles && profiles[ProfileKey(p)] == p
      modifies this
      ensures Agrees(Mutate(old(View()), q, Decided(p, voted, now)), View(), r)
    {
      var taken := CommitAudit();
      if !taken { return Err(AUDIT_WRITE_REFUSED); }
      approvals := approvals[ApprovalKey(voted) := voted];
      if voted.state == D.ApprovalState.REJECTED {
        profiles := profiles[ProfileKey(p) :=
          p.(state := ProfileState.REJECTED, revision := p.revision + 1, updatedAt := now)];
      } else {
        assert profiles[ProfileKey(p) := p] == profiles;
      }
      Remember(q, Response(200, ApprovalBody(voted)));
      return Ok(Response(200, ApprovalBody(voted)));
    }

    method Decide(q: Request, profileId: Id, approve: bool, reason: string, ifMatch: Option<Tag>, now: int)
      returns (r: Result<Response, Refusal>)
      requires Keyed()
      modifies this
      ensures Agrees(
        Mutate(old(View()), q, ProfileModel.Decide(old(View()), q.context, profileId, approve, reason, ifMatch, now)),
        View(), r)
    {
      var replay := FindReplay(q);
      if replay.Some? { return replay.value; }
      var open := Open(q.context.org, profileId, ifMatch, false);
      if open.Err? { return Err(open.error); }
      var p := open.value;
      if p.approvalId.None? || (q.context.org, p.approvalId.value) !in approvals {
        return Err(PROFILE_APPROVAL_NOT_FOUND);
      }
      var approval := approvals[(q.context.org, p.approvalId.value)];
      if ifMatch != Some(ApprovalTag(approval)) { return Err(PRECONDITION_FAILED); }
      if approval.state != D.PENDING || p.state != APPROVAL_PENDING { return Err(PROFILE_APPROVAL_STATE_REFUSED); }
      if !IsAbout(approval, p) { return Err(PROFILE_APPROVAL_BINDING_REFUSED); }
      if approval.policy.expiresAt <= now {
        if now < 0 { return Err(PROFILE_TIME_REFUSED); }
        r := WriteExpiry(q, approval, now);
        return;
      }
      if !MayReview(approval, q.context.subject) { return Err(PROFILE_REVIEWER_REFUSED); }
      if now < 0 { return Err(PROFILE_TIME_REFUSED); }
      r := WriteDecision(q, p, Voted(approval, D.Decision(q.context.subject, approve, reason, now)), now);
    }

    method WriteLock(
      q: Request, p: Profile, approval: Approval, now: int, lockId: Id) returns (r: Result<Response, Refusal>)
      requires (q.context.org, q.key) !in idempotency
      modifies this
      ensures Agrees(Mutate(old(View()), q, Locked(q.context, p, approval, now, lockId)), View(), r)
    {
      var l := Lock(
        lockId, q.context.org, p.reg.profileId, p.reg.resultKey, ReviewOf(p.reg), approval.id,
        LockDigest(ReviewOf(p.reg), approval), now);
      var changed := p.(state := LOCKED, revision := p.revision + 1, lockId := Some(lockId), updatedAt := now);
      var taken := CommitAudit();
      if !taken { return Err(AUDIT_WRITE_REFUSED); }
      locks := locks[LockKey(l) := l];
      profiles := profiles[ProfileKey(changed) := changed];
      Remember(q, Response(201, LockBody(l)));
      return Ok(Response(201, LockBody(l)));
    }

    method LockProfile(
      q: Request, profileId: Id, ifMatch: Option<Tag>, now: int, lockId: Id) returns (r: Result<Response, Refusal>)
      modifies this
      ensures Agrees(
        Mutate(old(View()), q, ProfileModel.LockProfile(old(View()), q.context, profileId, ifMatch, now, lockId)),
        View(), r)
    {
      var replay := FindReplay(q);
      if replay.Some? { return replay.value; }
      var open := Open(q.context.org, profileId, ifMatch, true);
      if open.Err? { return Err(open.error); }
      var p := open.value;
      if p.state != APPROVAL_PENDING || p.approvalId.None? || p.lockId.Some? { return Err(PROFILE_LOCK_STATE_REFUSED); }
      if (q.context.org, p.approvalId.value) !in approvals { return Err(PROFILE_APPROVAL_NOT_FOUND); }
      var approval := approvals[(q.context.org, p.approvalId.value)];
      if approval.state != D.ApprovalState.APPROVED || approval.policy.expiresAt <= now || !IsAbout(approval, p) {
        return Err(PROFILE_LOCK_APPROVAL_REFUSED);
      }
      if now < 0 { return Err(PROFILE_TIME_REFUSED); }
      r := WriteLock(q, p, approval, now, lockId);
    }

    /** The locked profile a bundle is requested of, with its lock, if the lock has no bundle yet. */
    method FindLock(c: Context, profileId: Id, ifMatch: Option<Tag>) returns (r: Result<(Profile, Lock), Refusal>)
      ensures r == OpenLock(View(), c, profileId, ifMatch)
    {
      var open := Open(c.org, profileId, ifMatch, true);
      if open.Err? { return Err(open.error); }
      var p := open.value;
      if p.state != LOCKED || p.lockId.None? { return Err(BUNDLE_PROFILE_NOT_LOCKED); }
      if (c.org, p.lockId.value) !in locks { return Err(PROFILE_LOCK_NOT_FOUND); }
      var l := locks[(c.org, p.lockId.value)];
      if l.review != ReviewOf(p.reg) || l.resultKey != p.reg.resultKey { return Err(PROFILE_LOCK_BINDING_REFUSED); }
      if (c.org, l.digest) in bundleByLock { return Err(BUNDLE_REQUEST_EXISTS); }
      return Ok((p, l));
    }

    /** The operation is created in the other store before this one writes anything. */
    method RequestBundle(q: Request, profileId: Id, ifMatch: Option<Tag>, now: int, operationId: Id, bundleId: Id)
      returns (r: Result<Response, Refusal>)
      modifies this, operations
      ensures Agrees(ProfileModel.RequestBundle(old(View()), q, profileId, ifMatch, now, operationId, bundleId), View(),
        r)
    {
      var replay := FindReplay(q);
      if replay.Some? { return replay.value; }
      var open := FindLock(q.context, profileId, ifMatch);
      if open.Err? { return Err(open.error); }
      var (p, l) := open.value;
      var taken := CommitAudit();
      if !taken { return Err(AUDIT_WRITE_REFUSED); }
      var operation := operations.Create(q.context.org, operationId, BUILD_BUNDLE, Some(l.digest), now);
      if operation.Err? { return Err(operation.error); }
      var b := Bundle(
        bundleId, q.context.org, REQUESTED, p.reg.profileId, ReviewOf(p.reg), l.digest, operationId, None, None, None,
        now, now);
      bundles := bundles[BundleKey(b) := b];
      bundleByLock := bundleByLock[(q.context.org, l.digest) := bundleId];
      profiles := profiles[ProfileKey(p) :=
        p.(revision := p.revision + 1, bundleId := Some(bundleId), updatedAt := now)];
      Remember(q, Response(202, BundleBody(b)));
      return Ok(Response(202, BundleBody(b)));
    }

    /** The bundle a new report is about, if the report is in order. */
    method FindRequested(e: Envelope) returns (r: Result<Bundle, Refusal>)
      requires (e.org, e.bundleId) in bundles
      ensures r == OpenBundle(View(), e)
    {
      var b := bundles[(e.org, e.bundleId)];
      if b.state != REQUESTED { return Err(BUNDLE_SOURCE_STATE_REFUSED); }
      if (e.org, b.profileId) !in profiles { return Err(PROFILE_NOT_FOUND); }
      var p := profiles[(e.org, b.profileId)];
      if !Verifies(p.reg) { return Err(PROFILE_REVISION_TAMPERED); }
      if p.state != LOCKED || b.review != ReviewOf(p.reg) { return Err(BUNDLE_SOURCE_PROFILE_REFUSED); }
      var last := if (e.source, e.partition) in sequences then sequences[(e.source, e.partition)] else 0;
      if e.sequence != last + 1 { return Err(BUNDLE_SOURCE_SEQUENCE_REFUSED); }
      if e.release.org != e.org || e.release.profile != ReviewOf(p.reg) { return Err(BUNDLE_RELEASE_REFUSED); }
      return Ok(b);
    }

    /** The operation is completed in the other store before this one writes anything. */
    method ReportSignedBundle(authenticated: string, e: Envelope, now: int) returns (r: Result<Response, Refusal>)
      modifies this, operations
      ensures Agrees(ReportSigned(old(View()), allowed, authenticated, e, now), View(), r)
    {
      var fault := EnvelopeFault(allowed, authenticated, e, now);
      if fault.Some? { return Err(fault.value); }
      if e.eventId in inbox && inbox[e.eventId] != e { return Err(BUNDLE_SOURCE_EVENT_CONFLICT); }
      if (e.org, e.bundleId) !in bundles { return Err(BUNDLE_REQUEST_NOT_FOUND); }
      if e.eventId in inbox { return Ok(Response(200, BundleBody(bundles[(e.org, e.bundleId)]))); }
      var open := FindRequested(e);
      if open.Err? { return Err(open.error); }
      var b := open.value;
      var taken := CommitAudit();
      if !taken { return Err(AUDIT_WRITE_REFUSED); }
      var operation := operations.CompleteBundle(e.org, b.operation, e.release, now);
      if operation.Err? { return Err(operation.error); }
      var changed := b.(
        state := SOURCE_REPORTED_SIGNED, source := Some(e.source), sequence := Some(e.sequence),
        release := Some(e.release), updatedAt := now);
      bundles := bundles[BundleKey(b) := changed];
      inbox := inbox[e.eventId := e];
      sequences := sequences[(e.source, e.partition) := e.sequence];
      return Ok(Response(200, BundleBody(changed)));
    }
  }
}
