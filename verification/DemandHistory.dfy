/**
 How rows may change over a run: a row never goes back to an earlier revision, a terminal row never
 changes, and what was answered once is answered the same for ever. With that, an entity tag that
 has been superseded is never accepted again.
 */
module DemandHistory {
  import opened Basics
  import opened DemandModel
  import opened DemandInvariant
  import opened DemandAudit

  predicate IsTerminal(state: DemandState) {
    state == DemandState.APPROVED || state == DemandState.REJECTED || state == SUPERSEDED
  }

  /** `next` is `row`, or a later revision of it; only a row that is not terminal has later revisions. */
  predicate DemandSucceeds(row: DemandRow, next: DemandRow) {
    next == row
    || (next.revision > row.revision && !IsTerminal(row.state)
        && next.id == row.id && next.org == row.org && next.input == row.input && next.resource == row.resource)
  }

  predicate ApprovalSucceeds(a: ApprovalRow, next: ApprovalRow) {
    next == a
    || (next.revision > a.revision && a.state == PENDING
        && next.id == a.id && next.org == a.org && next.demandId == a.demandId && next.policy == a.policy
        && next.requester == a.requester && next.demandDigest == a.demandDigest && a.decisions <= next.decisions)
  }

  predicate DemandsGrow(before: Demands, after: Demands) {
    forall k | k in before :: k in after && DemandSucceeds(before[k], after[k])
  }

  predicate ApprovalsGrow(before: ApprovalRows, after: ApprovalRows) {
    forall k | k in before :: k in after && ApprovalSucceeds(before[k], after[k])
  }

  predicate RecordsGrow(before: map<(Org, string), Stored>, after: map<(Org, string), Stored>) {
    forall k | k in before :: k in after && after[k] == before[k]
  }

  predicate Grows(s: Store, t: Store) {
    && DemandsGrow(s.demands, t.demands) && ApprovalsGrow(s.approvals, t.approvals)
    && RecordsGrow(s.idempotency, t.idempotency)
    && s.audit <= t.audit && s.findings <= t.findings
  }

  lemma GrowsTransitively(s: Store, t: Store, u: Store)
    requires Grows(s, t) && Grows(t, u)
    ensures Grows(s, u)
  {
    forall k | k in s.demands ensures k in u.demands && DemandSucceeds(s.demands[k], u.demands[k]) {
      assert DemandSucceeds(s.demands[k], t.demands[k]) && DemandSucceeds(t.demands[k], u.demands[k]);
    }
    forall k | k in s.approvals ensures k in u.approvals && ApprovalSucceeds(s.approvals[k], u.approvals[k]) {
      assert ApprovalSucceeds(s.approvals[k], t.approvals[k]) && ApprovalSucceeds(t.approvals[k], u.approvals[k]);
    }
  }

  /** What a proposal does to the rows that are already there. */
  ghost predicate Advances(s: Store, change: Change) {
    && (Key(change.demand) in s.demands ==> DemandSucceeds(s.demands[Key(change.demand)], change.demand))
    && (change.approval.Some? ==>
        (ApprovalKey(change.approval.value) in s.approvals ==>
          ApprovalSucceeds(s.approvals[ApprovalKey(change.approval.value)], change.approval.value)))
  }

  lemma DecideAdvances(
    s: Store, c: Context, id: Id, approve: bool, reason: string, ifMatch: Option<Tag>, now: int, answer: PolicyAnswer,
    first: Id, second: Id)
    requires LawfulRows(s.demands, s.approvals)
      && Decide(s, c, id, approve, reason, ifMatch, now, answer, first, second).Ok?
    ensures Advances(s, Decide(s, c, id, approve, reason, ifMatch, now, answer, first, second).value.0)
  {
    var a, demand := DecideCases(s, c, id, approve, reason, ifMatch, now, answer, first, second);
    if a.policy.expiresAt <= now {
      assert Advances(s, ExpireChange(c, a, demand, now, first, second));
    } else {
      assert Advances(s, DecideChange(c, a, demand, approve, reason, now, first, second));
    }
  }

  lemma RequestAdvances(
    s: Store, c: Context, id: Id, ifMatch: Option<Tag>, now: int, answer: PolicyAnswer, approvalId: Id, first: Id,
    second: Id)
    requires LawfulDemands(s.demands, s.approvals) && (c.org, approvalId) !in s.approvals
    requires RequestApproval(s, c, id, ifMatch, now, answer, approvalId, first, second).Ok?
    ensures Advances(s, RequestApproval(s, c, id, ifMatch, now, answer, approvalId, first, second).value.0)
  {
  }

  lemma ProposalAdvances(s: Store, issued: set<Id>, call: Call)
    requires LawfulRows(s.demands, s.approvals) && AllIssued(s, issued) && Fresh(issued, Drawn(call))
    requires !call.FailNextAudit? && Propose(s, call).Ok?
    ensures Advances(s, Propose(s, call).value.0)
  {
    assert forall i | 0 <= i < |Drawn(call)| :: Drawn(call)[i] !in issued;
    match call
    case CreateCall(r, input, now, id, first) => assert Drawn(call)[0] == id;
    case ValidateCall(r, id, ifMatch, now, resolution, first) =>
    case RequestCall(r, id, ifMatch, now, answer, approvalId, first, second) =>
      assert Drawn(call)[0] == approvalId;
      RequestAdvances(s, r.context, id, ifMatch, now, answer, approvalId, first, second);
    case DecideCall(r, id, approve, reason, ifMatch, now, answer, first, second) =>
      DecideAdvances(s, r.context, id, approve, reason, ifMatch, now, answer, first, second);
  }

  lemma ChangeGrows(s: Store, r: Request, change: Change, status: nat)
    requires Advances(s, change) && (r.context.org, r.key) !in s.idempotency
    ensures Grows(s, Written(s, r, change, status))
  {
  }

  lemma StepGrows(w: World, call: Call)
    requires Invariant(w) && Fresh(w.issued, Drawn(call))
    ensures Grows(w.store, Step(w, call).store)
  {
    EveryCallIsOneCommit(w.store, call);
    if Commits(w.store, call) {
      ProposalAdvances(w.store, w.issued, call);
      ChangeGrows(w.store, call.r, Propose(w.store, call).value.0, Propose(w.store, call).value.1);
    }
  }

  /** Rows are never removed and revisions only go up; a row whose revision stands has not changed. */
  lemma {:induction false} RunGrows(w: World, calls: seq<Call>)
    requires Invariant(w) && Feasible(w, calls)
    ensures Invariant(Run(w, calls)) && Grows(w.store, Run(w, calls).store)
    decreases |calls|
  {
    if calls != [] {
      var before := Run(w, calls[..|calls| - 1]);
      RunGrows(w, calls[..|calls| - 1]);
      StepKeepsInvariant(before, calls[|calls| - 1]);
      StepGrows(before, calls[|calls| - 1]);
      GrowsTransitively(w.store, before.store, Run(w, calls).store);
    }
  }

  // ---------- no lost updates ----------

  /** The row a call of validate or requestApproval is about, and the tag it supplies. */
  predicate IsOnDemand(call: Call, k: DemandKey, tag: Tag) {
    match call
    case ValidateCall(r, id, ifMatch, _, _, _) => (r.context.org, id) == k && ifMatch == Some(tag)
    case RequestCall(r, id, ifMatch, _, _, _, _, _) => (r.context.org, id) == k && ifMatch == Some(tag)
    case _ => false
  }

  predicate IsOnApproval(call: Call, k: DemandKey, tag: Tag) {
    call.DecideCall? && (call.r.context.org, call.id) == k && call.ifMatch == Some(tag)
  }

  lemma StaleDemandTagIsRefused(s: Store, call: Call, k: DemandKey, tag: Tag)
    requires k in s.demands && tag != DemandTagOf(s.demands[k]) && IsOnDemand(call, k, tag)
    ensures Propose(s, call) == Err(ETAG_PRECONDITION_FAILED)
  {
  }

  lemma StaleApprovalTagIsRefused(s: Store, call: Call, k: DemandKey, tag: Tag)
    requires k in s.approvals && tag != ApprovalTagOf(s.approvals[k]) && IsOnApproval(call, k, tag)
    ensures Propose(s, call) == Err(ETAG_PRECONDITION_FAILED)
  {
  }

  /** A call that commits supplied the tag of the row as it was, and left the row with a later revision. */
  lemma CommitUsesUpTag(s: Store, call: Call, k: DemandKey, tag: Tag)
    requires LawfulRows(s.demands, s.approvals) && Commits(s, call) && IsOnDemand(call, k, tag)
    ensures k in s.demands && tag == DemandTagOf(s.demands[k])
    ensures k in After(s, call).demands && After(s, call).demands[k].revision > s.demands[k].revision
  {
    EveryCallIsOneCommit(s, call);
  }

  lemma CommitUsesUpApprovalTag(s: Store, call: Call, k: DemandKey, tag: Tag)
    requires LawfulRows(s.demands, s.approvals) && Commits(s, call) && IsOnApproval(call, k, tag)
    ensures k in s.approvals && tag == ApprovalTagOf(s.approvals[k])
    ensures k in After(s, call).approvals && After(s, call).approvals[k].revision > s.approvals[k].revision
  {
    EveryCallIsOneCommit(s, call);
    var a, demand :=
      DecideCases(s, call.r.context, call.id, call.approve, call.reason, call.ifMatch, call.now, call.answer,
        call.first, call.second);
  }

  /** Once a demand has moved on from a revision, that revision's tag is refused for ever. */
  lemma SupersededDemandTagIsRefused(w: World, calls: seq<Call>, k: DemandKey, call: Call)
    requires Invariant(w) && Feasible(w, calls) && k in w.store.demands
    requires IsOnDemand(call, k, DemandTagOf(w.store.demands[k]))
    ensures k in Run(w, calls).store.demands
    ensures Run(w, calls).store.demands[k] != w.store.demands[k] ==>
      Propose(Run(w, calls).store, call) == Err(ETAG_PRECONDITION_FAILED)
  {
    RunGrows(w, calls);
    var later := Run(w, calls).store;
    assert DemandSucceeds(w.store.demands[k], later.demands[k]);
    if later.demands[k] != w.store.demands[k] {
      StaleDemandTagIsRefused(later, call, k, DemandTagOf(w.store.demands[k]));
    }
  }

  /** Once an approval has moved on from a revision, that revision's tag is refused for ever. */
  lemma SupersededApprovalTagIsRefused(w: World, calls: seq<Call>, k: DemandKey, call: Call)
    requires Invariant(w) && Feasible(w, calls) && k in w.store.approvals
    requires IsOnApproval(call, k, ApprovalTagOf(w.store.approvals[k]))
    ensures k in Run(w, calls).store.approvals
    ensures Run(w, calls).store.approvals[k] != w.store.approvals[k] ==>
      Propose(Run(w, calls).store, call) == Err(ETAG_PRECONDITION_FAILED)
  {
    RunGrows(w, calls);
    var later := Run(w, calls).store;
    assert ApprovalSucceeds(w.store.approvals[k], later.approvals[k]);
    if later.approvals[k] != w.store.approvals[k] {
      StaleApprovalTagIsRefused(later, call, k, ApprovalTagOf(w.store.approvals[k]));
    }
  }

  /** For one row and one If-Match value, at most one call ever commits. */
  lemma OneCommitPerTag(w: World, call: Call, calls: seq<Call>, later: Call, k: DemandKey, tag: Tag)
    requires Invariant(w) && Fresh(w.issued, Drawn(call)) && Feasible(Step(w, call), calls)
    requires Commits(w.store, call)
    requires (IsOnDemand(call, k, tag) && IsOnDemand(later, k, tag))
      || (IsOnApproval(call, k, tag) && IsOnApproval(later, k, tag))
    ensures !Commits(Run(Step(w, call), calls).store, later)
  {
    StepKeepsInvariant(w, call);
    RunGrows(Step(w, call), calls);
    var s, t, u := w.store, Step(w, call).store, Run(Step(w, call), calls).store;
    if IsOnDemand(call, k, tag) {
      CommitUsesUpTag(s, call, k, tag);
      assert DemandSucceeds(t.demands[k], u.demands[k]);
      StaleDemandTagIsRefused(u, later, k, tag);
    } else {
      CommitUsesUpApprovalTag(s, call, k, tag);
      assert ApprovalSucceeds(t.approvals[k], u.approvals[k]);
      StaleApprovalTagIsRefused(u, later, k, tag);
    }
  }

  // ---------- terminal rows and refused calls ----------

  /** A demand that is approved or rejected, and an approval that is not pending, stay exactly as they are. */
  lemma TerminalRowsNeverChange(w: World, calls: seq<Call>, k: DemandKey)
    requires Invariant(w) && Feasible(w, calls)
    ensures k in w.store.demands && IsTerminal(w.store.demands[k].state) ==>
      k in Run(w, calls).store.demands && Run(w, calls).store.demands[k] == w.store.demands[k]
    ensures k in w.store.approvals && w.store.approvals[k].state != PENDING ==>
      k in Run(w, calls).store.approvals && Run(w, calls).store.approvals[k] == w.store.approvals[k]
  {
    RunGrows(w, calls);
  }

  /** A call that raises leaves rows, findings, audit and records untouched. */
  lemma RaisingChangesNothing(s: Store, call: Call)
    requires !call.FailNextAudit? && Perform(s, call).Raised?
    ensures After(s, call) == s.(auditFailure := After(s, call).auditFailure)
    ensures After(s, call).auditFailure ==> s.auditFailure
  {
    EveryCallIsOneCommit(s, call);
  }

  // ---------- repeated requests ----------

  /**
   Once a request has been answered, repeating its key and fingerprint gives that answer for ever
   and changes nothing; its key with another fingerprint is always refused.
   */
  lemma AnswersAreForEver(w: World, call: Call, calls: seq<Call>, again: Call)
    requires Invariant(w) && Fresh(w.issued, Drawn(call)) && Feasible(Step(w, call), calls)
    requires !call.FailNextAudit? && Perform(w.store, call).Returned? && !again.FailNextAudit?
    requires again.r.context.org == call.r.context.org && again.r.key == call.r.key
    ensures var s := Run(Step(w, call), calls).store;
      Perform(s, again) == if again.r.fingerprint == call.r.fingerprint then
        Returned(s, Perform(w.store, call).response)
        else Raised(s, IDEMPOTENCY_KEY_CONFLICT)
  {
    StepKeepsInvariant(w, call);
    RunGrows(Step(w, call), calls);
    AnswerIsStored(w.store, call);
    var s := Run(Step(w, call), calls).store;
    assert (call.r.context.org, call.r.key) in s.idempotency;
    RepeatIsReplayed(s, again);
  }

  lemma AnswerIsStored(s: Store, call: Call)
    requires !call.FailNextAudit? && Perform(s, call).Returned?
    ensures (call.r.context.org, call.r.key) in After(s, call).idempotency
    ensures After(s, call).idempotency[(call.r.context.org, call.r.key)]
      == Stored(call.r.fingerprint, Perform(s, call).response)
  {
    var proposal := Propose(s, call);
    assert Perform(s, call) == Mutate(s, call.r.context, call.r.key, call.r.fingerprint, proposal);
  }

  lemma RepeatIsReplayed(s: Store, call: Call)
    requires !call.FailNextAudit? && (call.r.context.org, call.r.key) in s.idempotency
    ensures var stored := s.idempotency[(call.r.context.org, call.r.key)];
      Perform(s, call) == if stored.fingerprint == call.r.fingerprint then Returned(s, stored.response)
        else Raised(s, IDEMPOTENCY_KEY_CONFLICT)
  {
    var proposal := Propose(s, call);
    assert Perform(s, call) == Mutate(s, call.r.context, call.r.key, call.r.fingerprint, proposal);
  }

  // ---------- the audit log ----------

  /**
   After any run, the number of audit events of a row is its revision, the last one carries the
   digest of the row as it is, and a demand has only moved as the table allows or been found
   blocked again.
   */
  lemma AuditTellsEveryRow(calls: seq<Call>, k: DemandKey)
    requires Feasible(START, calls)
    ensures var s := Run(START, calls).store;
      && (k in s.demands ==>
           k !in s.approvals && 0 < |LogOf(s.audit, k)| == s.demands[k].revision
             && TellsDemand(LogOf(s.audit, k), s.demands[k]))
      && (k in s.approvals ==>
           k !in s.demands && 0 < |LogOf(s.audit, k)| == s.approvals[k].revision
             && TellsApproval(LogOf(s.audit, k), s.approvals[k]))
      && (k !in s.demands && k !in s.approvals ==> LogOf(s.audit, k) == [])
  {
    RunKeepsInvariant(calls);
  }

  /**
   A blocked demand still carries a validated digest exactly when the last thing that happened to
   it was the expiry of its approval.
   */
  lemma BlockedKeepsDigestExactly(calls: seq<Call>, k: DemandKey)
    requires Feasible(START, calls)
    requires k in Run(START, calls).store.demands && Run(START, calls).store.demands[k].state == BLOCKED
    ensures var s := Run(START, calls).store; var log := LogOf(s.audit, k);
      log != [] && (s.demands[k].validated.Some? <==> log[|log| - 1].eventType == DEMAND_BLOCKED)
  {
    RunKeepsInvariant(calls);
    assert TellsDemand(LogOf(Run(START, calls).store.audit, k), Run(START, calls).store.demands[k]);
  }
}
