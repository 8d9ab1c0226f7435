/**
 When a profile that waits for its approval can still be locked: exactly while the approval is pending
 or approved and has not expired. After that it stays in APPROVAL_PENDING whatever is called.
 */
module ProfileExpiry {
  import opened Basics
  import opened ProfileModel
  import opened ProfileInvariant
  import opened ProfileBundles
  import D = DemandModel

  // ---------- calls in clock order ----------

  /** The instant a call is made at, for the calls that look at a clock. */
  function At(call: Call, clock: int): int {
    match call
    case ApprovalCall(_, _, _, now, _, _) => now
    case DecideCall(_, _, _, _, _, now) => now
    case LockCall(_, _, _, now, _) => now
    case BundleCall(_, _, _, now, _, _) => now
    case ReportCall(_, _, _, now) => now
    case CompileCall(_, _, now) => now
    case WorkerCall(_, _, _, _, _, _, now) => now
    case _ => clock
  }

  function Clock(clock: int, calls: seq<Call>): int {
    if calls == [] then clock else At(calls[|calls| - 1], Clock(clock, calls[..|calls| - 1]))
  }

  /** The calls are made at or after `clock`, none before an earlier one. */
  predicate Timely(clock: int, calls: seq<Call>) {
    calls != [] ==>
      var earlier := calls[..|calls| - 1];
      Timely(clock, earlier) && Clock(clock, earlier) <= At(calls[|calls| - 1], Clock(clock, earlier))
  }

  /** A run of any calls in clock order that draw new identifiers. */
  ghost predicate IsTimed(s: Store, clock: int, calls: seq<Call>) { FeasibleForAll(s, calls) && Timely(clock, calls) }

  // ---------- what becomes of a pending profile ----------

  /** The profile under this key and its approval, if the profile waits for it. */
  function Waiting(profiles: Profiles, approvals: Approvals, k: Key): Option<(Profile, Approval)> {
    if k in profiles && profiles[k].state == APPROVAL_PENDING && profiles[k].approvalId.Some?
      && (k.0, profiles[k].approvalId.value) in approvals
    then Some((profiles[k], approvals[(k.0, profiles[k].approvalId.value)]))
    else None
  }

  predicate IsPending(s: Store, k: Key) { Waiting(s.profiles, s.approvals, k).Some? }

  function ApprovalFor(s: Store, k: Key): Approval
    requires IsPending(s, k)
  {
    Waiting(s.profiles, s.approvals, k).value.1
  }

  /** The approval can still lead somewhere; the clock of a call must also not be negative. */
  predicate IsAlive(a: Approval, clock: int) {
    (a.state == D.PENDING || a.state == D.ApprovalState.APPROVED) && clock < a.policy.expiresAt
      && 0 < a.policy.expiresAt
  }

  predicate IsStuck(s: Store, k: Key, clock: int) { IsPending(s, k) && !IsAlive(ApprovalFor(s, k), clock) }

  /** The profile is as it was, and its approval is too unless it has been written off as expired. */
  predicate StaysPut(s: Store, t: Store, k: Key)
    requires IsPending(s, k)
  {
    IsPending(t, k) && t.profiles[k] == s.profiles[k]
    && (ApprovalFor(t, k) == ApprovalFor(s, k) || ApprovalFor(t, k).state == D.EXPIRED)
  }

  /** What a proposal writes is neither the profile nor, but for writing it off, its approval. */
  predicate Avoids(s: Store, proposal: Proposal, k: Key)
    requires IsPending(s, k)
  {
    var key := (k.0, s.profiles[k].approvalId.value);
    match proposal
    case Refuse(_) => true
    case Propose(change, _) =>
      ProfileKey(change.profile) != k && (change.approval.Some? ==> ApprovalKey(change.approval.value) != key)
    case Lapse(a) => ApprovalKey(a) == key ==> a.state == D.EXPIRED
  }

  lemma {:induction false} DecisionAvoids(
    s: Store, c: Context, profileId: Id, approve: bool, reason: string, ifMatch: Option<Tag>, now: int, k: Key)
    requires RowsHold(s) && IsStuck(s, k, now)
    ensures Avoids(s, Decide(s, c, profileId, approve, reason, ifMatch, now), k)
  {
    if !Decide(s, c, profileId, approve, reason, ifMatch, now).Refuse? {
      var p, a := DecideCases(s, c, profileId, approve, reason, ifMatch, now);
      assert LawfulProfile(p, s.approvals, s.locks) && LawfulProfile(s.profiles[k], s.approvals, s.locks);
    }
  }

  lemma {:induction false} LockAvoids(
    s: Store, c: Context, profileId: Id, ifMatch: Option<Tag>, now: int, lockId: Id, k: Key)
    requires IsStuck(s, k, now) && forall j | j in s.profiles :: ProfileKey(s.profiles[j]) == j
    ensures Avoids(s, LockProfile(s, c, profileId, ifMatch, now, lockId), k)
  {
  }

  lemma {:induction false} RequestAvoids(
    s: Store, c: Context, profileId: Id, ifMatch: Option<Tag>, now: int, answer: D.PolicyAnswer, approvalId: Id, k: Key)
    requires IsPending(s, k) && (c.org, approvalId) !in s.approvals && forall j | j in s.profiles ::
      ProfileKey(s.profiles[j]) == j
    ensures Avoids(s, RequestApproval(s, c, profileId, ifMatch, now, answer, approvalId), k)
  {
  }

  lemma {:induction false} PersonAvoids(s: Store, call: Call, k: Key, clock: int)
    requires RowsHold(s) && DrawsNew(s, call) && IsStuck(s, k, At(call, clock)) && IsPersonCall(call)
    ensures Avoids(s, Proposed(s, call), k)
  {
    match call
    case ApprovalCall(r, profileId, ifMatch, now, answer, approvalId) =>
      assert Drawn(call)[0] in Drawn(call) && Unused(s, approvalId);
      RequestAvoids(s, r.context, profileId, ifMatch, now, answer, approvalId, k);
    case DecideCall(r, profileId, approve, reason, ifMatch, now) =>
      DecisionAvoids(s, r.context, profileId, approve, reason, ifMatch, now, k);
    case LockCall(r, profileId, ifMatch, now, lockId) =>
      LockAvoids(s, r.context, profileId, ifMatch, now, lockId, k);
  }

  lemma {:induction false} MutateStaysPut(s: Store, r: Request, proposal: Proposal, k: Key)
    requires IsPending(s, k) && Avoids(s, proposal, k)
    ensures StaysPut(s, Mutate(s, r, proposal).store, k)
  {
  }

  lemma {:induction false} FlagsStayPut(s: Store, t: Store, k: Key)
    requires IsPending(s, k) && SameButFlags(s, t)
    ensures StaysPut(s, t, k)
  {
  }

  lemma {:induction false} ReferenceStaysPut(
    s: Store, p: Profile, b: Bundle, o: Operations, k: Key, r: Request, response: Response)
    requires IsPending(s, k) && ProfileKey(p) in s.profiles && s.profiles[ProfileKey(p)] == p && p.state == LOCKED
    ensures StaysPut(s, Remembered(BundleRequested(s, p, b, o), r, response), k)
  {
  }

  lemma {:induction false} BundleStaysPut(
    s: Store, r: Request, profileId: Id, ifMatch: Option<Tag>, now: int, operationId: Id, bundleId: Id, k: Key)
    requires Sound(s) && IsPending(s, k)
    ensures StaysPut(s, RequestBundle(s, r, profileId, ifMatch, now, operationId, bundleId).store, k)
  {
    if BundleIsTaken(s, r, profileId, ifMatch, now) {
      var p, l := OpenLockCases(s, r.context, profileId, ifMatch);
      var b := NewBundle(r.context.org, p, l, bundleId, operationId, now);
      var done := CreateOperation(s.operations, r.context.org, operationId, BUILD_BUNDLE, Some(l.digest), now);
      BundleTaken(s, r, profileId, ifMatch, now, operationId, bundleId);
      ReferenceStaysPut(s, p, b, done.operations, k, r, Response(202, BundleBody(b)));
    } else {
      BundleNotTaken(s, r, profileId, ifMatch, now, operationId, bundleId);
      FlagsStayPut(s, RequestBundle(s, r, profileId, ifMatch, now, operationId, bundleId).store, k);
    }
  }

  lemma {:induction false} ReportStaysPut(
    s: Store, allowed: set<string>, authenticated: string, e: Envelope, now: int, k: Key)
    requires IsPending(s, k)
    ensures StaysPut(s, ReportSigned(s, allowed, authenticated, e, now).store, k)
  {
    if ReportIsTaken(s, allowed, authenticated, e, now) {
      ReportTaken(s, allowed, authenticated, e, now);
    } else {
      ReportNotTaken(s, allowed, authenticated, e, now);
      FlagsStayPut(s, ReportSigned(s, allowed, authenticated, e, now).store, k);
    }
  }

  lemma {:induction false} RegisterStaysPut(s: Store, reg: Registration, k: Key)
    requires IsPending(s, k) && |reg.claimed| == OUTPUT_COUNT
    ensures StaysPut(s, Register(s, reg).store, k)
  {
  }

  predicate IsStoreCall(call: Call) { call.BundleCall? || call.ReportCall? || call.RegisterCall? }

  lemma {:induction false} PersonStaysPut(s: Store, call: Call, k: Key, clock: int)
    requires RowsHold(s) && DrawsNew(s, call) && IsStuck(s, k, At(call, clock)) && IsPersonCall(call)
    ensures StaysPut(s, After(s, call), k)
  {
    PersonAvoids(s, call, k, clock);
    MutateStaysPut(s, call.r, Proposed(s, call), k);
    assert After(s, call) == Mutate(s, call.r, Proposed(s, call)).store;
  }

  lemma {:induction false} RegistrationStaysPut(s: Store, call: Call, k: Key)
    requires IsPending(s, k) && call.RegisterCall?
    ensures StaysPut(s, After(s, call), k)
  {
    if |call.reg.claimed| == OUTPUT_COUNT {
      RegisterStaysPut(s, call.reg, k);
    }
  }

  lemma {:induction false} AfterBundleCall(s: Store, call: Call)
    requires call.BundleCall?
    ensures After(s, call)
      == RequestBundle(s, call.r, call.profileId, call.ifMatch, call.now, call.operationId, call.bundleId).store
  {
  }

  lemma {:induction false} RequestStaysPut(s: Store, call: Call, k: Key)
    requires Sound(s) && IsPending(s, k) && call.BundleCall?
    ensures StaysPut(s, After(s, call), k)
  {
    AfterBundleCall(s, call);
    BundleStaysPut(s, call.r, call.profileId, call.ifMatch, call.now, call.operationId, call.bundleId, k);
  }

  lemma {:induction false} EnvelopeStaysPut(s: Store, call: Call, k: Key)
    requires IsPending(s, k) && call.ReportCall?
    ensures StaysPut(s, After(s, call), k)
  {
    ReportStaysPut(s, call.allowed, call.authenticated, call.envelope, call.now, k);
  }

  lemma {:induction false} StoreCallStaysPut(s: Store, call: Call, k: Key)
    requires Sound(s) && IsPending(s, k) && IsStoreCall(call)
    ensures StaysPut(s, After(s, call), k)
  {
    if call.BundleCall? {
      RequestStaysPut(s, call, k);
    } else if call.ReportCall? {
      EnvelopeStaysPut(s, call, k);
    } else {
      RegistrationStaysPut(s, call, k);
    }
  }

  lemma {:induction false} OtherCallStaysPut(s: Store, call: Call, k: Key)
    requires IsPending(s, k) && !IsPersonCall(call) && !IsStoreCall(call)
    ensures StaysPut(s, After(s, call), k)
  {
    var t := After(s, call);
    assert t.profiles == s.profiles && t.approvals == s.approvals;
  }

  lemma {:induction false} CallStaysPut(s: Store, call: Call, k: Key, clock: int)
    requires Sound(s) && DrawsNew(s, call) && IsStuck(s, k, At(call, clock))
    ensures StaysPut(s, After(s, call), k)
  {
    if IsPersonCall(call) {
      PersonStaysPut(s, call, k, clock);
    } else if IsStoreCall(call) {
      StoreCallStaysPut(s, call, k);
    } else {
      OtherCallStaysPut(s, call, k);
    }
  }

  lemma {:induction false} StaysStuck(s: Store, t: Store, k: Key, clock: int, later: int)
    requires IsStuck(s, k, clock) && clock <= later && StaysPut(s, t, k)
    ensures IsStuck(s, k, later) && IsStuck(t, k, later)
  {
  }

  lemma {:induction false} StaysPutOn(s: Store, t: Store, u: Store, k: Key)
    requires IsPending(s, k) && StaysPut(s, t, k) && StaysPut(t, u, k)
    ensures StaysPut(s, u, k)
  {
  }

  lemma {:induction false} StuckCall(s: Store, t: Store, call: Call, k: Key, clock: int)
    requires Sound(t) && DrawsNew(t, call) && clock <= At(call, clock)
    requires IsPending(s, k) && StaysPut(s, t, k) && IsStuck(t, k, clock)
    ensures StaysPut(s, After(t, call), k) && IsStuck(After(t, call), k, At(call, clock))
  {
    StaysStuck(t, t, k, clock, At(call, clock));
    CallStaysPut(t, call, k, clock);
    StaysStuck(t, After(t, call), k, clock, At(call, clock));
    StaysPutOn(s, t, After(t, call), k);
  }

  /**
   A pending profile whose approval is not alive stays exactly as it is for ever, whatever is called in
   clock order; at most its approval is written off as expired.
   */
  lemma {:induction false} StuckForEver(s: Store, clock: int, calls: seq<Call>, k: Key)
    requires Sound(s) && IsTimed(s, clock, calls) && IsStuck(s, k, clock)
    ensures Sound(Run(s, calls)) && clock <= Clock(clock, calls)
    ensures StaysPut(s, Run(s, calls), k) && IsStuck(Run(s, calls), k, Clock(clock, calls))
    decreases |calls|
  {
    if calls != [] {
      var earlier, call := calls[..|calls| - 1], calls[|calls| - 1];
      StuckForEver(s, clock, earlier, k);
      CallKeepsSound(Run(s, earlier), call);
      StuckCall(s, Run(s, earlier), call, k, Clock(clock, earlier));
    }
  }
}
