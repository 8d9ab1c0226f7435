/**
 What every run of the demand store keeps: how demands and approvals stand to each other, what the
 decisions of an approval look like in each state, and how the audit log tells every row's history.
 */
module DemandInvariant {
  import opened Basics
  import opened DemandModel

  type DemandKey = (Org, Id)
  type Demands = map<DemandKey, DemandRow>
  type ApprovalRows = map<DemandKey, ApprovalRow>

  // ---------- runs ----------

  /** A store, with the identifiers drawn so far. */
  datatype World = World(store: Store, issued: set<Id>)

  const START := World(EMPTY, {})

  predicate Distinct(ids: seq<Id>) { forall i, j | 0 <= i < j < |ids| :: ids[i] != ids[j] }

  predicate Fresh(issued: set<Id>, ids: seq<Id>) { Distinct(ids) && forall i | 0 <= i < |ids| :: ids[i] !in issued }

  function Step(w: World, call: Call): World {
    World(After(w.store, call), w.issued + set id | id in Drawn(call))
  }

  /** The worlds a run passes through, the last one included. */
  function Run(w: World, calls: seq<Call>): World {
    if calls == [] then w else Step(Run(w, calls[..|calls| - 1]), calls[|calls| - 1])
  }

  /** Random identifiers never repeat. */
  predicate Feasible(w: World, calls: seq<Call>) {
    calls == [] ||
    (Feasible(w, calls[..|calls| - 1]) && Fresh(Run(w, calls[..|calls| - 1]).issued, Drawn(calls[|calls| - 1])))
  }

  // ---------- one call ----------

  /** The store after a call that commits `change`. */
  function Written(s: Store, r: Request, change: Change, status: nat): Store {
    Remembered(Applied(s, change), r.context, r.key, r.fingerprint, ResponseTo(Applied(s, change), change, status))
  }

  /** The call passes its checks, is no repetition, and the audit takes its events. */
  predicate Commits(s: Store, call: Call) {
    && !call.FailNextAudit?
    && Replay(s, call.r.context, call.r.key, call.r.fingerprint) == Proceed
    && Propose(s, call).Ok?
    && !s.auditFailure
    && AuditFault(s.audit, call.r.context.org, Propose(s, call).value.0.events) == None
  }

  /** A call either commits the one change it proposes, or leaves every row, finding, event and record as it was. */
  lemma EveryCallIsOneCommit(s: Store, call: Call)
    ensures if Commits(s, call)
      then After(s, call) == Written(s, call.r, Propose(s, call).value.0, Propose(s, call).value.1)
      else After(s, call) == s.(auditFailure := After(s, call).auditFailure)
    ensures call.FailNextAudit? || (Perform(s, call).Returned? <==>
      Commits(s, call) || Replay(s, call.r.context, call.r.key, call.r.fingerprint).Answer?)
  {
    if !call.FailNextAudit? {
      var proposal := Propose(s, call);
      assert Perform(s, call) == Mutate(s, call.r.context, call.r.key, call.r.fingerprint, proposal);
    }
  }

  // ---------- rows ----------

  predicate BoundTo(row: DemandRow, a: ApprovalRow, state: ApprovalState, steps: nat) {
    && a.state == state
    && a.org == row.org && a.demandId == row.id && row.approvalId == Some(a.id)
    && a.demandDigest == OfResource(row.resource) && row.validated == Some(a.demandDigest)
    && row.validatedRevision == Some(a.demandRevision) && a.demandRevision + steps == row.revision
  }

  /** The demand stands on the approval it names, which is in the given state and about its resource. */
  predicate StandsOn(row: DemandRow, approvals: ApprovalRows, state: ApprovalState, steps: nat) {
    row.approvalId.Some? && (row.org, row.approvalId.value) in approvals
    && BoundTo(row, approvals[(row.org, row.approvalId.value)], state, steps)
  }

  predicate LawfulDemand(row: DemandRow, approvals: ApprovalRows) {
    && row.resource == TenantDemand(row.id, row.org, row.input)
    && row.revision >= 1
    && match row.state
       case DRAFT =>
         row.revision == 1 && row.validated == None && row.validatedRevision == None && row.approvalId == None
       case VALIDATED =>
         row.validated == Some(OfResource(row.resource)) && row.validatedRevision == Some(row.revision)
           && row.approvalId == None
       case BLOCKED =>
         row.approvalId == None && (row.validated.Some? ==> row.validated == Some(OfResource(row.resource)))
       case APPROVAL_PENDING => StandsOn(row, approvals, PENDING, 1)
       case APPROVED => StandsOn(row, approvals, ApprovalState.APPROVED, 2)
       case REJECTED => StandsOn(row, approvals, ApprovalState.REJECTED, 2)
       case SUPERSEDED => false
  }

  predicate AllApprove(decisions: seq<Decision>) { forall i | 0 <= i < |decisions| :: decisions[i].approve }

  /** Every decision is from an eligible reviewer, and no reviewer decides twice. */
  predicate ProperVotes(decisions: seq<Decision>, eligible: set<Actor>) {
    && (forall i | 0 <= i < |decisions| :: decisions[i].actor in eligible)
    && (forall i, j | 0 <= i < j < |decisions| :: decisions[i].actor != decisions[j].actor)
  }

  predicate ProperPolicy(policy: Policy, requester: Actor) {
    1 <= policy.required <= |policy.eligible| <= MAX_REVIEWERS && requester !in policy.eligible
  }

  predicate ProperTally(a: ApprovalRow) {
    var d, required := a.decisions, a.policy.required;
    match a.state
    case PENDING => AllApprove(d) && |d| < required && a.revision == 1 + |d|
    case APPROVED => AllApprove(d) && |d| == required && a.revision == 1 + |d|
    case REJECTED => 0 < |d| <= required && AllApprove(d[..|d| - 1]) && !d[|d| - 1].approve && a.revision == 1 + |d|
    case EXPIRED => AllApprove(d) && |d| < required && a.revision == 2 + |d|
    case CANCELLED => false
  }

  predicate LawfulApproval(a: ApprovalRow) {
    && ProperPolicy(a.policy, a.requester)
    && 0 <= a.requestedAt < a.policy.expiresAt
    && a.binding == OfPolicy(a.policy)
    && ProperVotes(a.decisions, a.policy.eligible)
    && ProperTally(a)
  }

  predicate LawfulDemands(demands: Demands, approvals: ApprovalRows) {
    forall k | k in demands :: Key(demands[k]) == k && LawfulDemand(demands[k], approvals)
  }

  predicate LawfulApprovals(approvals: ApprovalRows) {
    forall k | k in approvals :: ApprovalKey(approvals[k]) == k && LawfulApproval(approvals[k])
  }

  /** The demand that waits for `a`. */
  predicate Awaits(demands: Demands, a: ApprovalRow) {
    (a.org, a.demandId) in demands && demands[(a.org, a.demandId)].state == APPROVAL_PENDING
    && demands[(a.org, a.demandId)].approvalId == Some(a.id)
  }

  predicate PendingAreAwaited(demands: Demands, approvals: ApprovalRows) {
    forall k | k in approvals && approvals[k].state == PENDING :: Awaits(demands, approvals[k])
  }

  predicate LawfulRows(demands: Demands, approvals: ApprovalRows) {
    LawfulDemands(demands, approvals) && LawfulApprovals(approvals) && PendingAreAwaited(demands, approvals)
  }

  // ---------- each change keeps the rows lawful ----------

  lemma DemandWriteKeepsRows(demands: Demands, approvals: ApprovalRows, next: DemandRow)
    requires LawfulRows(demands, approvals) && LawfulDemand(next, approvals)
    requires Key(next) in demands ==> demands[Key(next)].state != APPROVAL_PENDING
    ensures LawfulRows(demands[Key(next) := next], approvals)
  {
    forall k | k in approvals && approvals[k].state == PENDING
      ensures Awaits(demands[Key(next) := next], approvals[k])
    {
      assert Awaits(demands, approvals[k]);
    }
  }

  lemma OtherDemandsStand(demands: Demands, approvals: ApprovalRows, next: DemandRow, a: ApprovalRow)
    requires LawfulDemands(demands, approvals) && LawfulDemand(next, approvals[ApprovalKey(a) := a])
    requires a.org == next.org && a.demandId == next.id
    requires ApprovalKey(a) in approvals ==> approvals[ApprovalKey(a)].demandId == next.id
    ensures LawfulDemands(demands[Key(next) := next], approvals[ApprovalKey(a) := a])
  {
    var more := approvals[ApprovalKey(a) := a];
    forall k | k in demands && k != Key(next) ensures LawfulDemand(demands[k], more) {
      var row := demands[k];
      assert LawfulDemand(row, approvals);
    }
  }

  lemma OtherApprovalsAwaited(demands: Demands, approvals: ApprovalRows, next: DemandRow, a: ApprovalRow)
    requires LawfulApprovals(approvals) && PendingAreAwaited(demands, approvals) && LawfulDemands(demands, approvals)
    requires a.org == next.org && a.demandId == next.id
    requires a.state == PENDING ==> next.state == APPROVAL_PENDING && next.approvalId == Some(a.id)
    requires Key(next) in demands ==>
      demands[Key(next)].state == APPROVAL_PENDING ==> demands[Key(next)].approvalId == Some(a.id)
    ensures PendingAreAwaited(demands[Key(next) := next], approvals[ApprovalKey(a) := a])
  {
    var rows, more := demands[Key(next) := next], approvals[ApprovalKey(a) := a];
    forall k | k in more && more[k].state == PENDING ensures Awaits(rows, more[k]) {
      if k != ApprovalKey(a) {
        assert Awaits(demands, approvals[k]);
      }
    }
  }

  lemma BothWritesKeepRows(demands: Demands, approvals: ApprovalRows, next: DemandRow, a: ApprovalRow)
    requires LawfulRows(demands, approvals) && LawfulApproval(a) && LawfulDemand(next, approvals[ApprovalKey(a) := a])
    requires a.org == next.org && a.demandId == next.id
    requires ApprovalKey(a) in approvals ==> approvals[ApprovalKey(a)].demandId == next.id
    requires a.state == PENDING ==> next.state == APPROVAL_PENDING && next.approvalId == Some(a.id)
    requires Key(next) in demands ==>
      demands[Key(next)].state == APPROVAL_PENDING ==> demands[Key(next)].approvalId == Some(a.id)
    ensures LawfulRows(demands[Key(next) := next], approvals[ApprovalKey(a) := a])
  {
    OtherDemandsStand(demands, approvals, next, a);
    OtherApprovalsAwaited(demands, approvals, next, a);
  }

  lemma AdmittedPolicyIsProper(answer: PolicyAnswer, requester: Actor, at: int)
    requires AdmittedPolicy(answer, requester, at).Ok?
    ensures ProperPolicy(AdmittedPolicy(answer, requester, at).value, requester)
    ensures AdmittedPolicy(answer, requester, at).value.expiresAt > at
  {
  }

  /**
   A policy is admitted if and only if it leaves out the requester and can be met: between one and as
   many decisions as there are reviewers, who are distinct, at most 32 and do not include the requester.
   */
  lemma PolicyAdmittedExactly(answer: PolicyAnswer, requester: Actor, at: int)
    ensures AdmittedPolicy(answer, requester, at).Ok? <==>
      answer.Offered? && !answer.requesterMayReview && requester !in answer.reviewers && at < answer.expiresAt
      && 1 <= answer.required <= |answer.reviewers| <= 32
      && (forall i, j | 0 <= i < j < |answer.reviewers| :: answer.reviewers[i] != answer.reviewers[j])
  {
    if answer.Offered? {
      DistinctReviewers(answer.reviewers);
    }
  }

  lemma {:induction false} DistinctReviewers(actors: seq<Actor>)
    ensures |Elements(actors)| <= |actors|
    ensures |Elements(actors)| == |actors| <==> forall i, j | 0 <= i < j < |actors| :: actors[i] != actors[j]
  {
    if actors != [] {
      var n := |actors| - 1;
      DistinctReviewers(actors[..n]);
      assert actors == actors[..n] + [actors[n]];
      assert Elements(actors) == Elements(actors[..n]) + {actors[n]};
      if actors[n] in Elements(actors[..n]) {
        var i :| 0 <= i < n && actors[i] == actors[n];
      }
      assert forall i, j | 0 <= i < j < n :: actors[..n][i] == actors[i] && actors[..n][j] == actors[j];
    }
  }

  lemma {:induction false} AllApproveCount(decisions: seq<Decision>)
    requires AllApprove(decisions)
    ensures Approvals(decisions) == |decisions|
  {
    if decisions != [] {
      AllApproveCount(decisions[..|decisions| - 1]);
    }
  }

  lemma VoteKeepsTally(a: ApprovalRow, decision: Decision)
    requires LawfulApproval(a) && a.state == PENDING && ReviewFault(a, decision.actor) == None
    ensures var d := a.decisions + [decision];
      ProperVotes(d, a.policy.eligible) && d[..|d| - 1] == a.decisions
      && (decision.approve ==> AllApprove(d) && Approvals(d) == |d|)
  {
    var d := a.decisions + [decision];
    assert forall i | 0 <= i < |a.decisions| :: d[i] == a.decisions[i] && d[i].actor != decision.actor;
    if decision.approve {
      AllApproveCount(d);
    }
  }

  lemma DecisionIsLawful(
    c: Context, a: ApprovalRow, demand: DemandRow, approve: bool, reason: string, now: int, first: Id, second: Id)
    requires LawfulApproval(a) && a.state == PENDING && ReviewFault(a, c.subject) == None
    ensures LawfulApproval(DecideChange(c, a, demand, approve, reason, now, first, second).approval.value)
  {
    var decision := Decision(c.subject, approve, reason, now);
    VoteKeepsTally(a, decision);
  }

  lemma ValidateKeepsRows(
    s: Store, c: Context, id: Id, ifMatch: Option<Tag>, now: int, resolution: Resolution, first: Id)
    requires LawfulRows(s.demands, s.approvals) && Validate(s, c, id, ifMatch, now, resolution, first).Ok?
    ensures var next := Applied(s, Validate(s, c, id, ifMatch, now, resolution, first).value.0);
      LawfulRows(next.demands, next.approvals)
  {
    var row := s.demands[(c.org, id)];
    assert LawfulDemand(row, s.approvals);
    DemandWriteKeepsRows(s.demands, s.approvals, ValidateChange(c, row, resolution, now, first).demand);
  }

  lemma CreateKeepsRows(s: Store, c: Context, input: Input, now: int, id: Id, first: Id)
    requires LawfulRows(s.demands, s.approvals) && (c.org, id) !in s.demands
    ensures var next := Applied(s, CreateChange(c, input, now, id, first)); LawfulRows(next.demands, next.approvals)
  {
    DemandWriteKeepsRows(s.demands, s.approvals, CreateChange(c, input, now, id, first).demand);
  }

  lemma RequestKeepsRows(
    s: Store, c: Context, id: Id, ifMatch: Option<Tag>, now: int, answer: PolicyAnswer, approvalId: Id, first: Id,
    second: Id)
    requires LawfulRows(s.demands, s.approvals) && (c.org, approvalId) !in s.approvals
    requires RequestApproval(s, c, id, ifMatch, now, answer, approvalId, first, second).Ok?
    ensures var next := Applied(s, RequestApproval(s, c, id, ifMatch, now, answer, approvalId, first, second).value.0);
      LawfulRows(next.demands, next.approvals)
  {
    var row := s.demands[(c.org, id)];
    var policy := AdmittedPolicy(answer, c.subject, now).value;
    var change := RequestChange(c, row, row.validated.value, row.revision, policy, now, approvalId, first, second);
    assert LawfulDemand(row, s.approvals);
    AdmittedPolicyIsProper(answer, c.subject, now);
    BothWritesKeepRows(s.demands, s.approvals, change.demand, change.approval.value);
  }

  lemma ExpireKeepsRows(
    demands: Demands, approvals: ApprovalRows, c: Context, a: ApprovalRow, demand: DemandRow, now: int, first: Id,
    second: Id)
    requires LawfulRows(demands, approvals) && ApprovalKey(a) in approvals && approvals[ApprovalKey(a)] == a
      && a.state == PENDING
    requires (a.org, a.demandId) in demands && demands[(a.org, a.demandId)] == demand && IsCurrent(a, demand)
    ensures var change := ExpireChange(c, a, demand, now, first, second);
      LawfulRows(demands[Key(change.demand) := change.demand], approvals[ApprovalKey(a) := change.approval.value])
  {
    var change := ExpireChange(c, a, demand, now, first, second);
    assert LawfulDemand(demand, approvals) && LawfulApproval(a);
    BothWritesKeepRows(demands, approvals, change.demand, change.approval.value);
  }

  lemma DecideKeepsRows(
    demands: Demands, approvals: ApprovalRows, c: Context, a: ApprovalRow, demand: DemandRow, approve: bool,
    reason: string, now: int, first: Id, second: Id)
    requires LawfulRows(demands, approvals) && ApprovalKey(a) in approvals && approvals[ApprovalKey(a)] == a
      && a.state == PENDING
    requires (a.org, a.demandId) in demands && demands[(a.org, a.demandId)] == demand && IsCurrent(a, demand)
    requires ReviewFault(a, c.subject) == None
    ensures var change := DecideChange(c, a, demand, approve, reason, now, first, second);
      LawfulRows(demands[Key(change.demand) := change.demand], approvals[ApprovalKey(a) := change.approval.value])
  {
    var change := DecideChange(c, a, demand, approve, reason, now, first, second);
    assert LawfulDemand(demand, approvals) && LawfulApproval(a);
    DecisionIsLawful(c, a, demand, approve, reason, now, first, second);
    BothWritesKeepRows(demands, approvals, change.demand, change.approval.value);
  }

  /** What a decision that passes its checks is about. */
  lemma DecideCases(
    s: Store, c: Context, id: Id, approve: bool, reason: string, ifMatch: Option<Tag>, now: int, answer: PolicyAnswer,
    first: Id, second: Id)
    returns (a: ApprovalRow, demand: DemandRow)
    requires LawfulApprovals(s.approvals) && LawfulDemands(s.demands, s.approvals)
    requires Decide(s, c, id, approve, reason, ifMatch, now, answer, first, second).Ok?
    ensures (c.org, id) in s.approvals && a == s.approvals[(c.org, id)] && ApprovalKey(a) == (c.org, id)
      && a.state == PENDING
    ensures (a.org, a.demandId) in s.demands && demand == s.demands[(a.org, a.demandId)]
      && Key(demand) == (a.org, a.demandId)
    ensures IsCurrent(a, demand) && ReviewFault(a, c.subject) == None && ifMatch == Some(ApprovalTagOf(a))
    ensures Decide(s, c, id, approve, reason, ifMatch, now, answer, first, second).value.0 ==
      if a.policy.expiresAt <= now then ExpireChange(c, a, demand, now, first, second)
      else DecideChange(c, a, demand, approve, reason, now, first, second)
  {
    a := s.approvals[(c.org, id)];
    demand := s.demands[(c.org, a.demandId)];
  }

  lemma DecideCallKeepsRows(
    s: Store, c: Context, id: Id, approve: bool, reason: string, ifMatch: Option<Tag>, now: int, answer: PolicyAnswer,
    first: Id, second: Id)
    requires LawfulRows(s.demands, s.approvals)
      && Decide(s, c, id, approve, reason, ifMatch, now, answer, first, second).Ok?
    ensures var next := Applied(s, Decide(s, c, id, approve, reason, ifMatch, now, answer, first, second).value.0);
      LawfulRows(next.demands, next.approvals)
  {
    var a, demand := DecideCases(s, c, id, approve, reason, ifMatch, now, answer, first, second);
    if a.policy.expiresAt <= now {
      ExpireKeepsRows(s.demands, s.approvals, c, a, demand, now, first, second);
    } else {
      DecideKeepsRows(s.demands, s.approvals, c, a, demand, approve, reason, now, first, second);
    }
  }

  predicate AllIssued(s: Store, issued: set<Id>) {
    && (forall k | k in s.demands :: k.1 in issued)
    && (forall k | k in s.approvals :: k.1 in issued)
    && (forall e | e in s.audit :: e.eventId in issued)
  }

  lemma ProposalKeepsRows(s: Store, issued: set<Id>, call: Call)
    requires LawfulRows(s.demands, s.approvals) && AllIssued(s, issued) && Fresh(issued, Drawn(call))
    requires !call.FailNextAudit? && Propose(s, call).Ok?
    ensures var next := Applied(s, Propose(s, call).value.0); LawfulRows(next.demands, next.approvals)
  {
    assert forall i | 0 <= i < |Drawn(call)| :: Drawn(call)[i] !in issued;
    match call
    case CreateCall(r, input, now, id, first) =>
      assert Drawn(call)[0] == id;
      CreateKeepsRows(s, r.context, input, now, id, first);
    case ValidateCall(r, id, ifMatch, now, resolution, first) =>
      ValidateKeepsRows(s, r.context, id, ifMatch, now, resolution, first);
    case RequestCall(r, id, ifMatch, now, answer, approvalId, first, second) =>
      assert Drawn(call)[0] == approvalId;
      RequestKeepsRows(s, r.context, id, ifMatch, now, answer, approvalId, first, second);
    case DecideCall(r, id, approve, reason, ifMatch, now, answer, first, second) =>
      DecideCallKeepsRows(s, r.context, id, approve, reason, ifMatch, now, answer, first, second);
  }
}
