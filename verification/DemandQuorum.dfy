/** The quorum: what an approved demand rests on, and that a pending approval can always be completed. */
module DemandQuorum {
  import opened Basics
  import opened DemandModel
  import opened DemandInvariant
  import opened DemandAudit
  import opened DemandHistory

  // ---------- safety ----------

  /** Exactly the required number of approvals and no rejection, from distinct eligible people other than the
      requester. */
  predicate ExactQuorum(decisions: seq<Decision>, policy: Policy, requester: Actor) {
    && 1 <= policy.required == |decisions|
    && (forall i | 0 <= i < |decisions| ::
         decisions[i].approve && decisions[i].actor in policy.eligible && decisions[i].actor != requester)
    && (forall i, j | 0 <= i < j < |decisions| :: decisions[i].actor != decisions[j].actor)
  }

  /** After any run, an approved demand rests on an approved approval with an exact quorum on the digest of its
      unchanged resource. */
  lemma QuorumSafety(calls: seq<Call>, k: DemandKey)
    requires Feasible(START, calls)
    requires k in Run(START, calls).store.demands && Run(START, calls).store.demands[k].state == DemandState.APPROVED
    ensures var s := Run(START, calls).store; var row := s.demands[k];
      && row.resource == TenantDemand(k.1, k.0, row.input)
      && row.approvalId.Some? && (k.0, row.approvalId.value) in s.approvals
      && var a := s.approvals[(k.0, row.approvalId.value)];
         a.state == ApprovalState.APPROVED && a.demandId == k.1 && a.demandDigest == OfResource(row.resource)
           && ExactQuorum(a.decisions, a.policy, a.requester)
  {
    RunKeepsInvariant(calls);
    var s := Run(START, calls).store;
    assert LawfulDemand(s.demands[k], s.approvals);
    var a := s.approvals[(k.0, s.demands[k].approvalId.value)];
    assert LawfulApproval(a);
  }

  function Voters(decisions: seq<Decision>): (r: set<Actor>)
    ensures forall a :: a in r <==> HasDecided(decisions, a)
  {
    set i | 0 <= i < |decisions| :: decisions[i].actor
  }

  lemma {:induction false} VotersCount(decisions: seq<Decision>)
    requires forall i, j | 0 <= i < j < |decisions| :: decisions[i].actor != decisions[j].actor
    ensures |Voters(decisions)| == |decisions|
  {
    if decisions != [] {
      var n := |decisions| - 1;
      VotersCount(decisions[..n]);
      forall a ensures a in Voters(decisions) <==> a in Voters(decisions[..n]) + {decisions[n].actor} {
        if HasDecided(decisions[..n], a) {
          var i :| 0 <= i < n && decisions[..n][i].actor == a;
          assert decisions[i].actor == a;
        }
        if HasDecided(decisions, a) && a != decisions[n].actor {
          var i :| 0 <= i < |decisions| && decisions[i].actor == a;
          assert decisions[..n][i].actor == a;
        }
      }
      assert Voters(decisions) == Voters(decisions[..n]) + {decisions[n].actor};
      assert decisions[n].actor !in Voters(decisions[..n]);
    }
  }

  lemma SubsetSize(a: set<Actor>, b: set<Actor>)
    requires a <= b
    ensures |b - a| == |b| - |a|
  {
    assert b == a + (b - a);
  }

  /** Enough eligible people have not decided yet. */
  lemma UndecidedIn(decisions: seq<Decision>, policy: Policy)
    requires ProperVotes(decisions, policy.eligible) && |decisions| < policy.required <= |policy.eligible|
    ensures |policy.eligible - Voters(decisions)| >= policy.required - |decisions| > 0
  {
    VotersCount(decisions);
    forall v | v in Voters(decisions) ensures v in policy.eligible {
      var i :| 0 <= i < |decisions| && decisions[i].actor == v;
    }
    SubsetSize(Voters(decisions), policy.eligible);
  }

  lemma UndecidedAreEnough(a: ApprovalRow)
    requires LawfulApproval(a) && a.state == PENDING
    ensures |a.policy.eligible - Voters(a.decisions)| >= a.policy.required - |a.decisions| > 0
  {
    UndecidedIn(a.decisions, a.policy);
  }

  /**
   After any run, a pending approval is awaited by its demand and by no other, and enough eligible
   reviewers are left to complete the quorum.
   */
  lemma PendingPairsAndCanFinish(calls: seq<Call>, k: DemandKey)
    requires Feasible(START, calls)
    requires k in Run(START, calls).store.approvals && Run(START, calls).store.approvals[k].state == PENDING
    ensures var s := Run(START, calls).store; var a := s.approvals[k];
      && |a.policy.eligible - Voters(a.decisions)| >= a.policy.required - |a.decisions| > 0
      && Awaits(s.demands, a)
      && forall d | d in s.demands && d.0 == k.0 && s.demands[d].state == APPROVAL_PENDING
           && s.demands[d].approvalId == Some(a.id) ::
           d.1 == a.demandId
  {
    RunKeepsInvariant(calls);
    var s := Run(START, calls).store;
    var a := s.approvals[k];
    assert LawfulApproval(a) && Awaits(s.demands, a);
    UndecidedAreEnough(a);
    forall d | d in s.demands && d.0 == k.0 && s.demands[d].state == APPROVAL_PENDING
      && s.demands[d].approvalId == Some(a.id)
      ensures d.1 == a.demandId
    {
      assert LawfulDemand(s.demands[d], s.approvals);
    }
  }

  // ---------- reachability ----------

  lemma {:induction false} SomeFreshKey(used: set<string>) returns (key: string)
    ensures forall k | k in used :: |k| < |key|
    decreases |used|
  {
    if used == {} {
      key := "";
    } else {
      var k :| k in used;
      var longest := SomeFreshKey(used - {k});
      key := if |longest| > |k| then longest else k + "0";
    }
  }

  lemma {:induction false} Listed(actors: set<Actor>) returns (list: seq<Actor>)
    ensures Elements(list) == actors && |list| == |actors|
    decreases |actors|
  {
    if actors == {} {
      list := [];
    } else {
      var a :| a in actors;
      var rest := Listed(actors - {a});
      list := [a] + rest;
      assert Elements(list) == Elements(rest) + {a};
    }
  }

  /** The policy hook answers with the policy of the approval. */
  lemma SameAnswer(a: ApprovalRow) returns (answer: PolicyAnswer)
    requires LawfulApproval(a)
    ensures PolicyFault(a, answer) == None
  {
    var list := Listed(a.policy.eligible);
    assert forall x :: x in list <==> x in Elements(list);
    answer := Offered(a.policy.reference, a.policy.required, list, a.policy.expiresAt, false);
  }

  /** A fresh vote of an eligible reviewer who has not decided, at a time before the expiry. */
  ghost predicate IsVote(w: World, a: ApprovalRow, reviewer: Actor, approve: bool, now: int, call: Call) {
    && call.DecideCall? && call.approve == approve && call.now == now && call.r.context == Context(a.org, reviewer)
    && (a.org, call.r.key) !in w.store.idempotency
    && call.id == a.id && call.ifMatch == Some(ApprovalTagOf(a)) && PolicyFault(a, call.answer) == None
    && Fresh(w.issued, Drawn(call))
  }

  lemma MakeVote(w: World, a: ApprovalRow, reviewer: Actor, approve: bool, now: int) returns (call: Call)
    requires LawfulApproval(a)
    ensures IsVote(w, a, reviewer, approve, now, call)
  {
    var first := SomeFreshId(w.issued);
    var key := SomeFreshKey(set k | k in w.store.idempotency :: k.1);
    var answer := SameAnswer(a);
    call := DecideCall(
      Request(Context(a.org, reviewer), key, ""), a.id, approve, "", Some(ApprovalTagOf(a)), now, answer, first,
      first + 1);
    forall k | k in w.store.idempotency ensures k != (a.org, key) {
      assert k.1 in (set k | k in w.store.idempotency :: k.1);
    }
  }

  lemma ProposedIsWritten(w: World, call: Call, change: Change, status: nat)
    requires Invariant(w) && Fresh(w.issued, Drawn(call)) && !w.store.auditFailure && !call.FailNextAudit?
    requires Replay(w.store, call.r.context, call.r.key, call.r.fingerprint) == Proceed
    requires Propose(w.store, call) == Ok((change, status))
    ensures Step(w, call).store == Written(w.store, call.r, change, status)
  {
    AuditNeverRefuses(w, call);
    EveryCallIsOneCommit(w.store, call);
  }

  /** The approval and the demand that waits for it, when nothing but the vote is missing. */
  lemma AwaitingDemand(w: World, k: DemandKey) returns (a: ApprovalRow, demand: DemandRow)
    requires Invariant(w) && k in w.store.approvals && w.store.approvals[k].state == PENDING
    ensures a == w.store.approvals[k] && ApprovalKey(a) == k && LawfulApproval(a)
    ensures (a.org, a.demandId) in w.store.demands && demand == w.store.demands[(a.org, a.demandId)]
      && IsCurrent(a, demand)
    ensures Key(demand) == (a.org, a.demandId) && demand.validated == Some(OfResource(demand.resource))
  {
    a := w.store.approvals[k];
    assert Awaits(w.store.demands, a);
    demand := w.store.demands[(a.org, a.demandId)];
    assert LawfulDemand(demand, w.store.approvals);
  }

  lemma VotePasses(s: Store, a: ApprovalRow, demand: DemandRow, call: Call)
    requires call.DecideCall? && (a.org, a.id) in s.approvals && s.approvals[(a.org, a.id)] == a && a.state == PENDING
    requires (a.org, a.demandId) in s.demands && s.demands[(a.org, a.demandId)] == demand && IsCurrent(a, demand)
    requires call.r.context.org == a.org && call.id == a.id && call.ifMatch == Some(ApprovalTagOf(a))
    requires ReviewFault(a, call.r.context.subject) == None && PolicyFault(a, call.answer) == None && 0 <= call.now
    ensures Propose(s, call)
      == Settle(call.r.context, a, demand, call.approve, call.reason, call.now, call.first, call.second)
    ensures Propose(s, call) ==
      if a.policy.expiresAt <= call.now
      then Ok((ExpireChange(call.r.context, a, demand, call.now, call.first, call.second), 409))
      else Ok((DecideChange(call.r.context, a, demand, call.approve, call.reason, call.now, call.first, call.second),
        200))
  {
  }

  lemma VoteIsWritten(
    s: Store, r: Request, a: ApprovalRow, demand: DemandRow, decision: Decision, first: Id, second: Id)
    ensures var t :=
      Written(s, r, DecideChange(r.context, a, demand, decision.approve, decision.reason, decision.at, first, second),
        200);
      t.auditFailure == s.auditFailure && ApprovalKey(a) in t.approvals
      && t.approvals[ApprovalKey(a)]
         == Voted(a, Decision(r.context.subject, decision.approve, decision.reason, decision.at))
      && (t.approvals[ApprovalKey(a)].state == ApprovalState.APPROVED
        ==> DemandIsApproved(t.demands, Key(demand), demand.approvalId))
  {
  }

  predicate DemandIsApproved(demands: Demands, k: DemandKey, approvalId: Option<Id>) {
    k in demands && demands[k].state == DemandState.APPROVED && demands[k].approvalId == approvalId
  }

  /** What a vote before the expiry does. */
  lemma VoteCounts(w: World, k: DemandKey, reviewer: Actor, approve: bool, now: int, call: Call)
    requires Invariant(w) && !w.store.auditFailure && k in w.store.approvals && w.store.approvals[k].state == PENDING
    requires IsVote(w, w.store.approvals[k], reviewer, approve, now, call)
    requires ReviewFault(w.store.approvals[k], reviewer) == None && 0 <= now < w.store.approvals[k].policy.expiresAt
    ensures var t := Step(w, call).store;
      !t.auditFailure && k in t.approvals
        && t.approvals[k] == Voted(w.store.approvals[k], Decision(reviewer, approve, call.reason, now))
      && (t.approvals[k].state == ApprovalState.APPROVED ==> IsApproved(t, k))
  {
    var a, demand := AwaitingDemand(w, k);
    var decision := Decision(reviewer, approve, call.reason, now);
    VotePasses(w.store, a, demand, call);
    VoteIsWritten(w.store, call.r, a, demand, decision, call.first, call.second);
    ProposedIsWritten(w, call,
      DecideChange(call.r.context, a, demand, approve, call.reason, now, call.first, call.second), 200);
  }

  lemma OneMoreCall(w: World, calls: seq<Call>, call: Call)
    requires Feasible(w, calls) && Fresh(Run(w, calls).issued, Drawn(call))
    ensures Feasible(w, calls + [call]) && Run(w, calls + [call]) == Step(Run(w, calls), call)
  {
    assert (calls + [call])[..|calls|] == calls;
  }

  /** One more approval of a pending approval, by somebody who may give it. */
  lemma OneMoreApproval(w: World, k: DemandKey, now: int) returns (call: Call)
    requires Invariant(w) && IsOpen(w.store, k, now)
    ensures Fresh(w.issued, Drawn(call)) && call.DecideCall? && call.now == now && call.approve
    ensures ComesCloser(w.store, Step(w, call).store, k, now)
  {
    var a, demand := AwaitingDemand(w, k);
    UndecidedAreEnough(a);
    var reviewer :| reviewer in a.policy.eligible - Voters(a.decisions);
    call := MakeVote(w, a, reviewer, true, now);
    VoteIsOneApprovalOn(a, Decision(reviewer, true, call.reason, now));
    VoteCounts(w, k, reviewer, true, now, call);
  }

  predicate IsOneApprovalOn(a: ApprovalRow, b: ApprovalRow) {
    |a.decisions| < a.policy.required && b.policy == a.policy && |b.decisions| == |a.decisions| + 1
    && b.state == if |a.decisions| + 1 < a.policy.required then PENDING else ApprovalState.APPROVED
  }

  lemma VoteIsOneApprovalOn(a: ApprovalRow, decision: Decision)
    requires LawfulApproval(a) && a.state == PENDING && decision.approve && ReviewFault(a, decision.actor) == None
    ensures IsOneApprovalOn(a, Voted(a, decision))
  {
    VoteKeepsTally(a, decision);
  }

  /**
   From any reachable state, a pending approval can be completed before it expires: exactly the
   missing number of votes, whatever the clock reads, makes it and its demand approved.
   */
  lemma QuorumIsReachable(w: World, k: DemandKey, now: int) returns (calls: seq<Call>)
    requires Invariant(w) && IsOpen(w.store, k, now)
    ensures Feasible(w, calls) && AreApprovals(calls, now) && |calls| == Missing(w.store, k) > 0
    ensures IsApproved(Run(w, calls).store, k)
  {
    calls := CompleteQuorum(w, [], k, now);
  }

  /** The votes that are still missing after some of them. */
  lemma {:induction false} CompleteQuorum(w: World, given: seq<Call>, k: DemandKey, now: int) returns (calls: seq<Call>)
    requires Invariant(w) && Feasible(w, given) && AreApprovals(given, now) && IsOpen(Run(w, given).store, k, now)
    ensures Feasible(w, calls) && AreApprovals(calls, now)
      && |calls| == |given| + Missing(Run(w, given).store, k) > |given|
    ensures IsApproved(Run(w, calls).store, k)
    decreases Missing(Run(w, given).store, k)
  {
    RunGrows(w, given);
    var more := ExtendVotes(w, given, Run(w, given), k, now);
    calls := more;
    if Missing(Run(w, given).store, k) > 1 {
      calls := CompleteQuorum(w, more, k, now);
    }
  }

  lemma ExtendVotes(w: World, given: seq<Call>, here: World, k: DemandKey, now: int) returns (more: seq<Call>)
    requires here == Run(w, given) && Invariant(here) && Feasible(w, given) && AreApprovals(given, now)
      && IsOpen(here.store, k, now)
    ensures Feasible(w, more) && AreApprovals(more, now) && |more| == |given| + 1
    ensures ComesCloser(here.store, Run(w, more).store, k, now)
  {
    var call := OneMoreApproval(here, k, now);
    OneMoreCall(w, given, call);
    more := given + [call];
  }

  /** The approval is pending and has not expired. */
  predicate IsOpen(s: Store, k: DemandKey, now: int) {
    !s.auditFailure && k in s.approvals && s.approvals[k].state == PENDING && 0 <= now < s.approvals[k].policy.expiresAt
  }

  /** The approval is approved, and so is the demand that waited for it. */
  predicate IsApproved(s: Store, k: DemandKey) {
    k in s.approvals && s.approvals[k].state == ApprovalState.APPROVED
    && DemandIsApproved(s.demands, (k.0, s.approvals[k].demandId), Some(k.1))
  }

  /** The number of approvals that the quorum still lacks. */
  function Missing(s: Store, k: DemandKey): int
    requires k in s.approvals
  {
    s.approvals[k].policy.required - |s.approvals[k].decisions|
  }

  /** One approval less is missing; with the last one the approval is approved. */
  predicate ComesCloser(s: Store, t: Store, k: DemandKey, now: int) {
    k in s.approvals && k in t.approvals && Missing(s, k) >= 1 && Missing(t, k) == Missing(s, k) - 1
    && if Missing(s, k) > 1 then IsOpen(t, k, now) else IsApproved(t, k)
  }

  predicate AreApprovals(calls: seq<Call>, now: int) {
    forall i | 0 <= i < |calls| :: calls[i].DecideCall? && calls[i].now == now && calls[i].approve
  }

  // ---------- validation and expiry ----------

  /** A demand passes validation exactly when its source stands as referenced, ready and unexpired, and no
      prerequisite was rejected. */
  lemma {:induction false} ValidationPassesExactly(
    c: Context, row: DemandRow, resolution: Resolution, now: int, first: Id)
    ensures ValidateChange(c, row, resolution, now, first).demand.state == VALIDATED <==>
      && resolution.Resolved? && resolution.source.org == c.org && resolution.source.reference == row.input.source
      && resolution.source.questionnaireReady && resolution.source.readinessPass
      && now < resolution.source.readinessExpiresAt
      && resolution.source.owner.Some? && now < resolution.source.owner.value.expiresAt
      && resolution.source.attestation == row.input.attestation
      && forall i | 0 <= i < |row.input.prerequisites| :: row.input.prerequisites[i].accepted
  {
    NoRejection(row.input.prerequisites);
  }

  lemma {:induction false} NoRejection(prerequisites: seq<Prerequisite>)
    ensures RejectedPrerequisites(prerequisites) == []
      <==> forall i | 0 <= i < |prerequisites| :: prerequisites[i].accepted
  {
    if prerequisites != [] {
      NoRejection(prerequisites[1..]);
      assert forall i | 0 < i < |prerequisites| :: prerequisites[i] == prerequisites[1..][i - 1];
      assert forall i | 0 <= i < |prerequisites| - 1 :: prerequisites[1..][i] == prerequisites[i + 1];
    }
  }

  /** The digest that was to be approved survives the expiry of the approval: the demand is blocked and still carries
      it. */
  lemma ExpiryKeepsValidatedDigest(
    w: World, k: DemandKey, reviewer: Actor, approve: bool, now: int) returns (call: Call)
    requires Invariant(w) && !w.store.auditFailure && k in w.store.approvals && w.store.approvals[k].state == PENDING
    requires ReviewFault(w.store.approvals[k], reviewer) == None && w.store.approvals[k].policy.expiresAt <= now
    ensures Fresh(w.issued, Drawn(call)) && call.DecideCall?
    ensures k in Step(w, call).store.approvals && Step(w, call).store.approvals[k].state == EXPIRED
    ensures var d := (k.0, w.store.approvals[k].demandId); var s := Step(w, call).store;
      d in s.demands && s.demands[d].state == BLOCKED && s.demands[d].approvalId == None
      && s.demands[d].validated == Some(OfResource(s.demands[d].resource))
  {
    var a, demand := AwaitingDemand(w, k);
    call := MakeVote(w, a, reviewer, approve, now);
    VotePasses(w.store, a, demand, call);
    ProposedIsWritten(w, call, ExpireChange(call.r.context, a, demand, now, call.first, call.second), 409);
  }
}
