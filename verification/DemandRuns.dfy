/** Runs from the empty store to a pending approval, and from there to its quorum and to its expiry. */
module DemandRuns {
  import opened Basics
  import opened DemandModel
  import opened DemandInvariant
  import opened DemandAudit
  import opened DemandQuorum

  /** The source stands as the request refers to it, until the instant 1. */
  function StandingSource(org: Org, input: Input): Source {
    Source(org, input.source, true, true, 1, Some(Owner("owner", 1)), input.attestation)
  }

  predicate AllAccepted(input: Input) { forall i | 0 <= i < |input.prerequisites| :: input.prerequisites[i].accepted }

  // ---------- the rows ----------

  function DraftRow(c: Context, input: Input): DemandRow { CreateChange(c, input, 0, 0, 1).demand }

  function ValidatedRow(c: Context, input: Input): DemandRow {
    var row := DraftRow(c, input);
    row.(state := VALIDATED, revision := 2, validated := Some(OfResource(row.resource)), validatedRevision := Some(2))
  }

  function PendingRow(c: Context, input: Input): DemandRow {
    ValidatedRow(c, input).(state := APPROVAL_PENDING, revision := 3, approvalId := Some(3))
  }

  function PendingApproval(c: Context, input: Input, policy: Policy): ApprovalRow {
    ApprovalRow(3, c.org, 0, 2, OfResource(DraftRow(c, input).resource), c.subject, policy, OfPolicy(policy), PENDING,
      1, [], None, 0, 0)
  }

  // ---------- the calls ----------

  function CreateIt(c: Context, input: Input): Call { CreateCall(Request(c, "a", ""), input, 0, 0, 1) }

  function ValidateIt(c: Context, input: Input): Call {
    ValidateCall(Request(c, "b", ""), 0, Some(DemandTagOf(DraftRow(c, input))), 0,
      Resolved(StandingSource(c.org, input)), 2)
  }

  function RequestIt(c: Context, input: Input, answer: PolicyAnswer): Call {
    RequestCall(Request(c, "c", ""), 0, Some(DemandTagOf(ValidatedRow(c, input))), 0, answer, 3, 4, 5)
  }

  function ToApproval(c: Context, input: Input, answer: PolicyAnswer): seq<Call> {
    [CreateIt(c, input), ValidateIt(c, input), RequestIt(c, input, answer)]
  }

  // ---------- one call after the other ----------

  lemma WrittenRows(s: Store, r: Request, change: Change, status: nat)
    ensures var t := Written(s, r, change, status);
      && t.demands == s.demands[Key(change.demand) := change.demand] && t.auditFailure == s.auditFailure
      && t.idempotency.Keys == s.idempotency.Keys + {(r.context.org, r.key)}
      && t.approvals == if change.approval.None? then s.approvals
                        else s.approvals[ApprovalKey(change.approval.value) := change.approval.value]
  {
  }

  /** The call carries a new key and fresh identifiers, and passes with this change. */
  ghost predicate Passes(w: World, call: Call, change: Change, status: nat) {
    && Invariant(w) && !w.store.auditFailure && Fresh(w.issued, Drawn(call)) && !call.FailNextAudit?
    && (call.r.context.org, call.r.key) !in w.store.idempotency && Propose(w.store, call) == Ok((change, status))
  }

  /** Such a call writes the demand and the approval of its change. */
  lemma PassingWrites(w: World, call: Call, change: Change, status: nat)
    requires Passes(w, call, change, status)
    ensures var t := Step(w, call).store;
      && Invariant(Step(w, call)) && t.demands == w.store.demands[Key(change.demand) := change.demand]
      && !t.auditFailure && t.idempotency.Keys == w.store.idempotency.Keys + {(call.r.context.org, call.r.key)}
      && t.approvals == if change.approval.None? then w.store.approvals
                        else w.store.approvals[ApprovalKey(change.approval.value) := change.approval.value]
  {
    StepKeepsInvariant(w, call);
    ProposedIsWritten(w, call, change, status);
    WrittenRows(w.store, call.r, change, status);
  }

  lemma SoleRow<K, V>(k: K, v: V, next: V)
    ensures map[k := v][k := next] == map[k := next] && map[][k := next] == map[k := next]
  {
  }

  /** These rows and used keys are all that the store holds. */
  ghost predicate Holds(w: World, demands: Demands, approvals: ApprovalRows, keys: set<(Org, string)>) {
    && Invariant(w) && !w.store.auditFailure && w.store.demands == demands && w.store.approvals == approvals
    && w.store.idempotency.Keys == keys
  }

  lemma Creates(c: Context, input: Input)
    ensures Holds(Step(START, CreateIt(c, input)), map[(c.org, 0) := DraftRow(c, input)], map[], {(c.org, "a")})
    ensures Fresh({}, Drawn(CreateIt(c, input))) && Step(START, CreateIt(c, input)).issued == {0, 1}
  {
    RunKeepsInvariant([]);
    PassingWrites(START, CreateIt(c, input), CreateChange(c, input, 0, 0, 1), 201);
  }

  lemma PassesValidation(c: Context, input: Input, row: DemandRow)
    requires AllAccepted(input) && row == DraftRow(c, input)
    ensures ValidateChange(c, row, Resolved(StandingSource(c.org, input)), 0, 2).demand == ValidatedRow(c, input)
    ensures ValidateChange(c, row, Resolved(StandingSource(c.org, input)), 0, 2).approval == None
  {
    ValidationPassesExactly(c, row, Resolved(StandingSource(c.org, input)), 0, 2);
  }

  lemma ValidationIsProposed(s: Store, c: Context, input: Input, row: DemandRow)
    requires AllAccepted(input) && row == DraftRow(c, input) && (c.org, 0) in s.demands && s.demands[(c.org, 0)] == row
    ensures Propose(s, ValidateIt(c, input))
      == Ok((ValidateChange(c, row, Resolved(StandingSource(c.org, input)), 0, 2), 200))
  {
    PassesValidation(c, input, row);
  }

  function ValidatedChange(c: Context, input: Input): Change {
    ValidateChange(c, DraftRow(c, input), Resolved(StandingSource(c.org, input)), 0, 2)
  }

  lemma ValidationPasses(w: World, c: Context, input: Input)
    requires Holds(w, map[(c.org, 0) := DraftRow(c, input)], map[], {(c.org, "a")}) && w.issued == {0, 1}
    requires AllAccepted(input)
    ensures Passes(w, ValidateIt(c, input), ValidatedChange(c, input), 200)
  {
    ValidationIsProposed(w.store, c, input, DraftRow(c, input));
  }

  lemma OneMoreIssued(w: World, call: Call)
    requires w.issued == {0, 1} && Drawn(call) == [2]
    ensures Step(w, call).issued == {0, 1, 2}
  {
  }

  lemma Validates(w: World, c: Context, input: Input, call: Call)
    requires Holds(w, map[(c.org, 0) := DraftRow(c, input)], map[], {(c.org, "a")}) && w.issued == {0, 1}
    requires AllAccepted(input) && call == ValidateIt(c, input)
    ensures Holds(Step(w, call), map[(c.org, 0) := ValidatedRow(c, input)], map[], {(c.org, "a"), (c.org, "b")})
    ensures Fresh(w.issued, Drawn(call)) && Step(w, call).issued == {0, 1, 2}
  {
    PassesValidation(c, input, DraftRow(c, input));
    ValidationPasses(w, c, input);
    OneMoreIssued(w, call);
    SoleRow((c.org, 0), DraftRow(c, input), ValidatedRow(c, input));
    PassingWrites(w, call, ValidatedChange(c, input), 200);
  }

  function PendingChange(c: Context, input: Input, policy: Policy): Change {
    RequestChange(c, ValidatedRow(c, input), OfResource(DraftRow(c, input).resource), 2, policy, 0, 3, 4, 5)
  }

  lemma RequestIsProposed(s: Store, c: Context, input: Input, answer: PolicyAnswer, policy: Policy)
    requires (c.org, 0) in s.demands && s.demands[(c.org, 0)] == ValidatedRow(c, input)
    requires AdmittedPolicy(answer, c.subject, 0) == Ok(policy)
    ensures Propose(s, RequestIt(c, input, answer)) == Ok((PendingChange(c, input, policy), 201))
  {
  }

  lemma PendingRows(c: Context, input: Input, policy: Policy)
    ensures PendingChange(c, input, policy).demand == PendingRow(c, input) && Key(PendingRow(c, input)) == (c.org, 0)
    ensures PendingChange(c, input, policy).approval == Some(PendingApproval(c, input, policy))
    ensures ApprovalKey(PendingApproval(c, input, policy)) == (c.org, 3)
  {
  }

  lemma RequestWrites(w: World, org: Org, row: DemandRow, call: Call, change: Change, a: ApprovalRow)
    requires Passes(w, call, change, 201) && w.store.demands == map[(org, 0) := row] && w.store.approvals == map[]
    requires Key(change.demand) == (org, 0) && change.approval == Some(a) && ApprovalKey(a) == (org, 3)
    ensures var t := Step(w, call).store;
      && Invariant(Step(w, call)) && !t.auditFailure && t.demands == map[(org, 0) := change.demand]
      && t.approvals == map[(org, 3) := a]
  {
    SoleRow((org, 0), row, change.demand);
    SoleRow((org, 3), a, a);
    PassingWrites(w, call, change, 201);
  }

  lemma RequestPasses(w: World, c: Context, input: Input, answer: PolicyAnswer, policy: Policy)
    requires Holds(w, map[(c.org, 0) := ValidatedRow(c, input)], map[], {(c.org, "a"), (c.org, "b")})
    requires w.issued == {0, 1, 2} && AdmittedPolicy(answer, c.subject, 0) == Ok(policy)
    ensures Passes(w, RequestIt(c, input, answer), PendingChange(c, input, policy), 201)
  {
    RequestIsProposed(w.store, c, input, answer, policy);
  }

  /** One demand, awaiting one approval that nobody has decided on. */
  ghost predicate IsPendingFor(w: World, c: Context, input: Input, policy: Policy) {
    && Invariant(w) && !w.store.auditFailure && w.store.demands == map[(c.org, 0) := PendingRow(c, input)]
    && w.store.approvals == map[(c.org, 3) := PendingApproval(c, input, policy)]
  }

  lemma Requests(w: World, c: Context, input: Input, answer: PolicyAnswer, policy: Policy, call: Call)
    requires Holds(w, map[(c.org, 0) := ValidatedRow(c, input)], map[], {(c.org, "a"), (c.org, "b")})
    requires w.issued == {0, 1, 2} && AdmittedPolicy(answer, c.subject, 0) == Ok(policy)
    requires call == RequestIt(c, input, answer)
    ensures Fresh(w.issued, Drawn(call)) && IsPendingFor(Step(w, call), c, input, policy)
  {
    RequestPasses(w, c, input, answer, policy);
    PendingRows(c, input, policy);
    RequestWrites(w, c.org, ValidatedRow(c, input), call, PendingChange(c, input, policy),
      PendingApproval(c, input, policy));
  }

  /**
   For every input whose prerequisites are all accepted and every admissible policy, three calls reach
   a pending approval under that policy.
   */
  lemma ApprovalIsReachable(c: Context, input: Input, answer: PolicyAnswer, policy: Policy)
    requires AllAccepted(input) && AdmittedPolicy(answer, c.subject, 0) == Ok(policy)
    ensures Feasible(START, ToApproval(c, input, answer))
    ensures IsPendingFor(Run(START, ToApproval(c, input, answer)), c, input, policy)
  {
    var a, b, d := CreateIt(c, input), ValidateIt(c, input), RequestIt(c, input, answer);
    var w1 := Step(START, a);
    var w2 := Step(w1, b);
    Creates(c, input);
    Validates(w1, c, input, b);
    Requests(w2, c, input, answer, policy, d);
    ThreeCalls(a, b, d, w1, w2);
  }

  lemma ThreeCalls(a: Call, b: Call, d: Call, w1: World, w2: World)
    requires w1 == Step(START, a) && w2 == Step(w1, b)
    requires Fresh({}, Drawn(a)) && Fresh(w1.issued, Drawn(b)) && Fresh(w2.issued, Drawn(d))
    ensures Feasible(START, [a, b, d]) && Run(START, [a, b, d]) == Step(w2, d)
  {
    OneMoreCall(START, [], a);
    assert [] + [a] == [a] && [a] + [b] == [a, b] && [a, b] + [d] == [a, b, d];
    OneMoreCall(START, [a], b);
    OneMoreCall(START, [a, b], d);
  }

  /** The last call of a feasible run. */
  lemma LastCall(w: World, calls: seq<Call>)
    requires calls != [] && Feasible(w, calls)
    ensures var most := calls[..|calls| - 1];
      Feasible(w, most) && Fresh(Run(w, most).issued, Drawn(calls[|calls| - 1]))
      && Run(w, calls) == Step(Run(w, most), calls[|calls| - 1])
  {
  }

  lemma SplitLast<T>(a: seq<T>, b: seq<T>)
    requires b != []
    ensures a + b == (a + b[..|b| - 1]) + [b[|b| - 1]]
  {
  }

  lemma {:induction false} RunConcat(w: World, a: seq<Call>, here: World, b: seq<Call>)
    requires Feasible(w, a) && here == Run(w, a) && Feasible(here, b)
    ensures Feasible(w, a + b) && Run(w, a + b) == Run(here, b)
    decreases |b|
  {
    if b == [] {
      assert a + b == a;
    } else {
      var most, last := b[..|b| - 1], b[|b| - 1];
      LastCall(here, b);
      RunConcat(w, a, here, most);
      OneMoreCall(w, a + most, last);
      SplitLast(a, b);
    }
  }

  /** From the empty store, three calls and as many votes as the policy requires approve the demand. */
  lemma ApprovedFromStart(c: Context, input: Input, answer: PolicyAnswer, policy: Policy) returns (calls: seq<Call>)
    requires AllAccepted(input) && AdmittedPolicy(answer, c.subject, 0) == Ok(policy)
    ensures Feasible(START, calls) && |calls| == 3 + policy.required
    ensures ToApproval(c, input, answer) <= calls && IsApproved(Run(START, calls).store, (c.org, 3))
  {
    ApprovalIsReachable(c, input, answer, policy);
    var first := ToApproval(c, input, answer);
    var votes := QuorumIsReachable(Run(START, first), (c.org, 3), 0);
    RunConcat(START, first, Run(START, first), votes);
    calls := first + votes;
  }

  /** The demand is blocked without an approval, and still carries the digest that was to be approved. */
  predicate IsBlockedWithDigest(s: Store, k: DemandKey) {
    k in s.demands && s.demands[k].state == BLOCKED && s.demands[k].approvalId == None
    && s.demands[k].validated == Some(OfResource(s.demands[k].resource))
  }

  /** From the empty store, three calls and one late decision leave a blocked demand with its validated digest. */
  lemma ExpiredFromStart(
    c: Context, input: Input, answer: PolicyAnswer, policy: Policy, reviewer: Actor, approve: bool, now: int)
    returns (calls: seq<Call>)
    requires AllAccepted(input) && AdmittedPolicy(answer, c.subject, 0) == Ok(policy)
    requires reviewer in policy.eligible && policy.expiresAt <= now
    ensures Feasible(START, calls) && |calls| == 4 && ToApproval(c, input, answer) <= calls
    ensures IsBlockedWithDigest(Run(START, calls).store, (c.org, 0))
  {
    ApprovalIsReachable(c, input, answer, policy);
    var first := ToApproval(c, input, answer);
    var call := ExpiryKeepsValidatedDigest(Run(START, first), (c.org, 3), reviewer, approve, now);
    OneMoreCall(START, first, call);
    calls := first + [call];
  }
}
