/**
 The demand approval workflow: its rows, and what each call of the store does to them.

 The source resolver and the policy hook are asked for one answer per call; the answers are
 parameters. Digests are idealised: a digest is the value it was taken of.
 */
module DemandModel {
  import opened Basics
  import AuditChain

  type Id = nat
  type Org = string

  /** The digest of a person's subject. */
  type Actor = nat

  // ---------- entities ----------

  datatype DemandState = DRAFT | BLOCKED | VALIDATED | APPROVAL_PENDING | APPROVED | REJECTED | SUPERSEDED

  datatype ApprovalState = PENDING | APPROVED | REJECTED | EXPIRED | CANCELLED

  datatype SourceReference = SourceReference(
    sessionId: string, sessionRevision: int, answerSetId: string, answerSetDigest: string,
    assessmentId: string, assessmentDigest: string)

  datatype Prerequisite = Prerequisite(harnessId: string, accepted: bool, reason: string)

  /** A checked request; `rest` stands for the members that are only copied. */
  datatype Input = Input(source: SourceReference, prerequisites: seq<Prerequisite>, attestation: string, rest: string)

  /** The TenantDemand document: what of the request goes into the digest that is approved. */
  datatype Resource = Resource(
    id: Id, org: Org, answerSetId: string, assessmentId: string, prerequisites: seq<string>, attestation: string,
    rest: string)

  datatype Decision = Decision(actor: Actor, approve: bool, reason: string, at: int)

  /** An admitted policy. The reviewers are kept sorted and distinct in the program: as a set here. */
  datatype Policy = Policy(reference: string, required: nat, eligible: set<Actor>, expiresAt: int)

  datatype Digest =
    | OfResource(resource: Resource)
    | OfDemand(id: Id, state: DemandState, revision: nat, subject: Digest, validated: Option<Digest>,
      approvalId: Option<Id>)
    | OfApproval(
        id: Id, org: Org, approvalState: ApprovalState, revision: nat, demandId: Id, demand: Digest, reference: string,
        required: nat, requester: Actor, requestedAt: int, expiresAt: int, decisions: seq<Decision>,
        reason: Option<string>)
    | OfPolicy(policy: Policy)

  datatype DemandRow = DemandRow(
    id: Id, org: Org, creator: Actor, input: Input, resource: Resource, state: DemandState, revision: nat,
    validated: Option<Digest>, validatedRevision: Option<nat>, approvalId: Option<Id>, createdAt: int, updatedAt: int)

  datatype ApprovalRow = ApprovalRow(
    id: Id, org: Org, demandId: Id, demandRevision: nat, demandDigest: Digest, requester: Actor,
    policy: Policy, binding: Digest, state: ApprovalState, revision: nat, decisions: seq<Decision>,
    reason: Option<string>, requestedAt: int, updatedAt: int)

  datatype FindingReason =
    | SOURCE_UNAVAILABLE
    | SOURCE_REFERENCE_MISMATCH
    | QUESTIONNAIRE_NOT_READY
    | READINESS_NOT_PASS
    | READINESS_EXPIRED
    | OWNER_APPROVAL_MISSING
    | OWNER_APPROVAL_EXPIRED
    | ENVIRONMENT_ATTESTATION_MISMATCH
    | PREREQUISITE_REJECTED
    | APPROVAL_EXPIRED
    | DEMAND_VALIDATED

  datatype Subject = Named(name: string) | Row(id: Id)

  datatype Finding = Finding(demandId: Id, revision: nat, reason: FindingReason, subject: Subject, occurredAt: int)

  datatype EventType =
    | DEMAND_CREATED | DEMAND_CHECKED | DEMAND_PENDING | DEMAND_BLOCKED | DEMAND_APPROVED | DEMAND_REJECTED
    | APPROVAL_REQUESTED | APPROVAL_DECIDED | APPROVAL_LAPSED

  datatype Event = Event(
    eventId: Id, org: Org, actor: Actor, eventType: EventType, aggregateId: Id, aggregate: Digest, occurredAt: int)

  /** An entity tag, as If-Match supplies it: of a demand, of an approval, or some other text. */
  datatype Tag = DemandTag(digest: Digest) | ApprovalTag(id: Id, revision: nat, digest: Digest) | OtherTag(text: string)

  datatype Body = DemandBody(demand: DemandRow, findings: seq<Finding>) | ApprovalBody(approval: ApprovalRow)

  datatype Response = Response(status: nat, body: Body, etag: Tag)

  datatype Stored = Stored(fingerprint: string, response: Response)

  datatype Store = Store(
    demands: map<(Org, Id), DemandRow>,
    approvals: map<(Org, Id), ApprovalRow>,
    findings: seq<Finding>,
    audit: seq<Event>,
    idempotency: map<(Org, string), Stored>,
    auditFailure: bool)

  const EMPTY := Store(map[], map[], [], [], map[], false)

  datatype Context = Context(org: Org, subject: Actor)

  datatype Refusal =
    | IDEMPOTENCY_KEY_CONFLICT
    | DEMAND_TIME_REFUSED
    | DEMAND_NOT_FOUND
    | APPROVAL_NOT_FOUND
    | IF_MATCH_REQUIRED
    | ETAG_PRECONDITION_FAILED
    | DEMAND_VALIDATION_STATE_REFUSED
    | DEMAND_APPROVAL_STATE_REFUSED
    | DEMAND_TRANSITION_REFUSED
    | APPROVAL_POLICY_UNAVAILABLE
    | APPROVAL_POLICY_DENIED
    | APPROVAL_POLICY_REFUSED
    | APPROVAL_POLICY_STALE
    | APPROVAL_TERMINAL
    | APPROVAL_SELF_REVIEW_REFUSED
    | APPROVAL_REVIEWER_REFUSED
    | APPROVAL_DUPLICATE_REVIEWER
    | APPROVAL_SUBJECT_STALE
    | AUDIT_APPEND_FAILED
    | AUDIT_CHAIN_REFUSED(why: AuditChain.Refusal)

  /** A call returns a response, or raises; either way it leaves a store behind. */
  datatype Outcome = Returned(store: Store, response: Response) | Raised(store: Store, error: Refusal)

  // ---------- digests and tags ----------

  function DemandDigest(row: DemandRow): Digest {
    OfDemand(row.id, row.state, row.revision, OfResource(row.resource), row.validated, row.approvalId)
  }

  function ApprovalDigest(row: ApprovalRow): Digest {
    OfApproval(
      row.id, row.org, row.state, row.revision, row.demandId, row.demandDigest, row.policy.reference,
      row.policy.required, row.requester, row.requestedAt, row.policy.expiresAt, row.decisions, row.reason)
  }

  function DemandTagOf(row: DemandRow): Tag { DemandTag(DemandDigest(row)) }

  function ApprovalTagOf(row: ApprovalRow): Tag { ApprovalTag(row.id, row.revision, ApprovalDigest(row)) }

  function TagFault(expected: Tag, supplied: Option<Tag>): Option<Refusal> {
    match supplied
    case None => Some(IF_MATCH_REQUIRED)
    case Some(tag) => if tag != expected then Some(ETAG_PRECONDITION_FAILED) else None
  }

  // ---------- the table of transitions ----------

  function Transitions(state: DemandState): set<DemandState> {
    match state
    case DRAFT => {BLOCKED, VALIDATED}
    case BLOCKED => {VALIDATED, SUPERSEDED}
    case VALIDATED => {APPROVAL_PENDING, SUPERSEDED}
    case APPROVAL_PENDING => {DemandState.APPROVED, DemandState.REJECTED, BLOCKED, SUPERSEDED}
    case APPROVED => {}
    case REJECTED => {}
    case SUPERSEDED => {}
  }

  // ---------- replay ----------

  datatype Replayed = Proceed | Answer(response: Response) | Conflict

  function Replay(s: Store, c: Context, key: string, fingerprint: string): Replayed {
    if (c.org, key) !in s.idempotency then Proceed
    else if s.idempotency[(c.org, key)].fingerprint != fingerprint then Conflict
    else Answer(s.idempotency[(c.org, key)].response)
  }

  // ---------- committing a change ----------

  /** The rows a call writes, with the findings and the audit events that go with them. */
  datatype Change = Change(demand: DemandRow, approval: Option<ApprovalRow>, findings: seq<Finding>, events: seq<Event>)

  function FactOf(e: Event): AuditChain.Fact<Digest> {
    AuditChain.Fact(e.eventId, e.org, TypeName(e.eventType), e.aggregate, e.actor, e.occurredAt)
  }

  function TypeName(t: EventType): string {
    match t
    case DEMAND_CREATED => "demand.created.v1"
    case DEMAND_CHECKED => "demand.validated.v1"
    case DEMAND_PENDING => "demand.approval-pending.v1"
    case DEMAND_BLOCKED => "demand.blocked.v1"
    case DEMAND_APPROVED => "demand.approved.v1"
    case DEMAND_REJECTED => "demand.rejected.v1"
    case APPROVAL_REQUESTED => "approval.requested.v1"
    case APPROVAL_DECIDED => "approval.decision-recorded.v1"
    case APPROVAL_LAPSED => "approval.expired.v1"
  }

  function FactsOf(events: seq<Event>): (r: seq<AuditChain.Fact<Digest>>)
    ensures |r| == |events|
  {
    if events == [] then [] else [FactOf(events[0])] + FactsOf(events[1..])
  }

  /** The events of one tenant. */
  function OfTenant(audit: seq<Event>, org: Org): seq<Event> {
    if audit == [] then []
    else OfTenant(audit[..|audit| - 1], org) + (if audit[|audit| - 1].org == org then [audit[|audit| - 1]] else [])
  }

  /** Why the tenant's audit chain, which holds the tenant's events, does not take the batch. */
  function AuditFault(audit: seq<Event>, org: Org, events: seq<Event>): Option<AuditChain.Refusal> {
    AuditChain.BatchFault(FactsOf(OfTenant(audit, org)), org, FactsOf(events))
  }

  function Key(row: DemandRow): (Org, Id) { (row.org, row.id) }

  function ApprovalKey(row: ApprovalRow): (Org, Id) { (row.org, row.id) }

  /** The store with the change in it. */
  function Applied(s: Store, change: Change): Store {
    s.(demands := s.demands[Key(change.demand) := change.demand],
       approvals := match change.approval case None => s.approvals case Some(a) => s.approvals[ApprovalKey(a) := a],
       findings := s.findings + change.findings,
       audit := s.audit + change.events)
  }

  function Remembered(s: Store, c: Context, key: string, fingerprint: string, response: Response): Store {
    s.(idempotency := s.idempotency[(c.org, key) := Stored(fingerprint, response)])
  }

  function FindingsFor(findings: seq<Finding>, id: Id): seq<Finding> {
    if findings == [] then []
    else
      FindingsFor(findings[..|findings| - 1], id)
      + (if findings[|findings| - 1].demandId == id then [findings[|findings| - 1]] else [])
  }

  function ResponseTo(s: Store, change: Change, status: nat): Response {
    match change.approval
    case None =>
      Response(status, DemandBody(change.demand, FindingsFor(s.findings, change.demand.id)), DemandTagOf(change.demand))
    case Some(a) => Response(status, ApprovalBody(a), ApprovalTagOf(a))
  }

  /** The audit comes first; only if it takes the events are the rows written and the response remembered. */
  function Commit(s: Store, c: Context, key: string, fingerprint: string, change: Change, status: nat): Outcome {
    if s.auditFailure then Raised(s.(auditFailure := false), AUDIT_APPEND_FAILED)
    else
      match AuditFault(s.audit, c.org, change.events)
      case Some(why) => Raised(s, AUDIT_CHAIN_REFUSED(why))
      case None =>
        var after := Applied(s, change);
        var response := ResponseTo(after, change, status);
        Returned(Remembered(after, c, key, fingerprint, response), response)
  }

  /** What a call that passes its checks writes, with the status of its response; or why it does not pass. */
  type Proposal = Result<(Change, nat), Refusal>

  /** Every call that changes rows: it answers a repeated request from the record, and commits what it proposes
      otherwise. */
  function Mutate(s: Store, c: Context, key: string, fingerprint: string, proposal: Proposal): Outcome {
    match Replay(s, c, key, fingerprint)
    case Answer(response) => Returned(s, response)
    case Conflict => Raised(s, IDEMPOTENCY_KEY_CONFLICT)
    case Proceed =>
      match proposal
      case Err(e) => Raised(s, e)
      case Ok((change, status)) => Commit(s, c, key, fingerprint, change, status)
  }

  function EventFor(
    c: Context, eventId: Id, eventType: EventType, aggregateId: Id, aggregate: Digest, now: int): Event
  {
    Event(eventId, c.org, c.subject, eventType, aggregateId, aggregate, now)
  }

  function DemandEvent(c: Context, eventId: Id, eventType: EventType, row: DemandRow, now: int): Event {
    EventFor(c, eventId, eventType, row.id, DemandDigest(row), now)
  }

  function ApprovalEvent(c: Context, eventId: Id, eventType: EventType, row: ApprovalRow, now: int): Event {
    EventFor(c, eventId, eventType, row.id, ApprovalDigest(row), now)
  }

  // ---------- create ----------

  function AcceptedIds(prerequisites: seq<Prerequisite>): seq<string> {
    if prerequisites == [] then []
    else (if prerequisites[0].accepted then [prerequisites[0].harnessId] else []) + AcceptedIds(prerequisites[1..])
  }

  function TenantDemand(id: Id, org: Org, input: Input): Resource {
    Resource(
      id, org, input.source.answerSetId, input.source.assessmentId, AcceptedIds(input.prerequisites), input.attestation,
      input.rest)
  }

  function CreateChange(c: Context, input: Input, now: int, id: Id, eventId: Id): Change {
    var row := DemandRow(
      id, c.org, c.subject, input, TenantDemand(id, c.org, input), DRAFT, 1, None, None, None, now, now);
    Change(row, None, [], [DemandEvent(c, eventId, DEMAND_CREATED, row, now)])
  }

  function Create(c: Context, input: Input, now: int, id: Id, eventId: Id): Proposal {
    if now < 0 then Err(DEMAND_TIME_REFUSED) else Ok((CreateChange(c, input, now, id, eventId), 201))
  }

  // ---------- validate ----------

  datatype Owner = Owner(approvalId: string, expiresAt: int)

  datatype Source = Source(
    org: Org, reference: SourceReference, questionnaireReady: bool, readinessPass: bool, readinessExpiresAt: int,
    owner: Option<Owner>, attestation: string)

  datatype Resolution = Unresolved | Resolved(source: Source)

  function When(condition: bool, reason: FindingReason, subject: Subject): seq<(FindingReason, Subject)> {
    if condition then [(reason, subject)] else []
  }

  function SourceProblems(org: Org, input: Input, source: Source, now: int): seq<(FindingReason, Subject)> {
    When(source.org != org || source.reference != input.source, SOURCE_REFERENCE_MISMATCH,
      Named(input.source.sessionId))
    + When(!source.questionnaireReady, QUESTIONNAIRE_NOT_READY, Named(source.reference.sessionId))
    + When(!source.readinessPass, READINESS_NOT_PASS, Named(source.reference.assessmentId))
    + When(source.readinessExpiresAt <= now, READINESS_EXPIRED, Named(source.reference.assessmentId))
    + (match source.owner
       case None => [(OWNER_APPROVAL_MISSING, Named(source.reference.assessmentId))]
       case Some(owner) => When(owner.expiresAt <= now, OWNER_APPROVAL_EXPIRED, Named(owner.approvalId)))
    + When(source.attestation != input.attestation, ENVIRONMENT_ATTESTATION_MISMATCH, Named("environment.attestation"))
  }

  function RejectedPrerequisites(prerequisites: seq<Prerequisite>): seq<(FindingReason, Subject)> {
    if prerequisites == [] then []
    else
      When(!prerequisites[0].accepted, PREREQUISITE_REJECTED, Named(prerequisites[0].harnessId))
      + RejectedPrerequisites(prerequisites[1..])
  }

  function Problems(org: Org, input: Input, resolution: Resolution, now: int): seq<(FindingReason, Subject)> {
    (match resolution
     case Unresolved => [(SOURCE_UNAVAILABLE, Named(input.source.sessionId))]
     case Resolved(source) => SourceProblems(org, input, source, now))
    + RejectedPrerequisites(input.prerequisites)
  }

  function FindingsOf(
    row: DemandRow, problems: seq<(FindingReason, Subject)>, revision: nat, now: int): (r: seq<Finding>)
    ensures |r| == |problems| && forall i | 0 <= i < |r| :: r[i].demandId == row.id && r[i].revision == revision
  {
    if problems == [] then []
    else [Finding(row.id, revision, problems[0].0, problems[0].1, now)] + FindingsOf(row, problems[1..], revision, now)
  }

  function ValidateChange(c: Context, row: DemandRow, resolution: Resolution, now: int, eventId: Id): Change {
    var problems := Problems(c.org, row.input, resolution, now);
    var revision := row.revision + 1;
    var passed := problems == [];
    var next := row.(
      state := if passed then VALIDATED else BLOCKED,
      revision := revision,
      validated := if passed then Some(OfResource(row.resource)) else None,
      validatedRevision := if passed then Some(revision) else None,
      updatedAt := now);
    var found := if passed then [(DEMAND_VALIDATED, Row(row.id))] else problems;
    Change(next, None, FindingsOf(row, found, revision, now), [DemandEvent(c, eventId, DEMAND_CHECKED, next, now)])
  }

  function Validate(
    s: Store, c: Context, id: Id, ifMatch: Option<Tag>, now: int, resolution: Resolution, eventId: Id): Proposal
  {
    if (c.org, id) !in s.demands then Err(DEMAND_NOT_FOUND)
    else
      var row := s.demands[(c.org, id)];
      match TagFault(DemandTagOf(row), ifMatch)
      case Some(e) => Err(e)
      case None =>
        if row.state != DRAFT && row.state != BLOCKED then Err(DEMAND_VALIDATION_STATE_REFUSED)
        else if now < 0 then Err(DEMAND_TIME_REFUSED)
        else
          var change := ValidateChange(c, row, resolution, now, eventId);
          if change.demand.state != row.state && change.demand.state !in Transitions(row.state) then
            Err(DEMAND_TRANSITION_REFUSED)
          else Ok((change, 200))
  }

  // ---------- request approval ----------

  datatype PolicyAnswer =
    | Unavailable
    | Denied
    | Offered(reference: string, required: int, reviewers: seq<Actor>, expiresAt: int, requesterMayReview: bool)

  const MAX_REVIEWERS := 32

  function Elements(actors: seq<Actor>): set<Actor> { set a | a in actors }

  /** The policy that an answer admits, for a request made at `at`. */
  function AdmittedPolicy(answer: PolicyAnswer, requester: Actor, at: int): Result<Policy, Refusal> {
    match answer
    case Unavailable => Err(APPROVAL_POLICY_UNAVAILABLE)
    case Denied => Err(APPROVAL_POLICY_DENIED)
    case Offered(reference, required, reviewers, expiresAt, requesterMayReview) =>
      if requesterMayReview || required < 1 || required > MAX_REVIEWERS then Err(APPROVAL_POLICY_REFUSED)
      else if |reviewers| < required || |reviewers| > MAX_REVIEWERS then Err(APPROVAL_POLICY_REFUSED)
      else if |Elements(reviewers)| != |reviewers| || requester in reviewers then Err(APPROVAL_POLICY_REFUSED)
      else if expiresAt <= at then Err(APPROVAL_POLICY_REFUSED)
      else Ok(Policy(reference, required, Elements(reviewers), expiresAt))
  }

  function RequestChange(
    c: Context, row: DemandRow, subject: Digest, revision: nat, policy: Policy, now: int, approvalId: Id, first: Id,
    second: Id): Change
  {
    var approval := ApprovalRow(
      approvalId, c.org, row.id, revision, subject, c.subject, policy, OfPolicy(policy), PENDING, 1, [], None, now,
      now);
    var demand := row.(state := APPROVAL_PENDING, revision := row.revision + 1, approvalId := Some(approvalId),
      updatedAt := now);
    Change(demand, Some(approval), [],
      [ApprovalEvent(c, first, APPROVAL_REQUESTED, approval, now), DemandEvent(c, second, DEMAND_PENDING, demand, now)])
  }

  function RequestApproval(
    s: Store, c: Context, id: Id, ifMatch: Option<Tag>, now: int, answer: PolicyAnswer, approvalId: Id, first: Id,
    second: Id): Proposal
  {
    if (c.org, id) !in s.demands then Err(DEMAND_NOT_FOUND)
    else
      var row := s.demands[(c.org, id)];
      match TagFault(DemandTagOf(row), ifMatch)
      case Some(e) => Err(e)
      case None =>
        if row.state != VALIDATED || row.validated.None? || row.validatedRevision != Some(row.revision)
        then Err(DEMAND_APPROVAL_STATE_REFUSED)
        else
          match AdmittedPolicy(answer, c.subject, now)
          case Err(e) => Err(e)
          case Ok(policy) =>
            if now < 0 then Err(DEMAND_TIME_REFUSED)
            else if APPROVAL_PENDING !in Transitions(row.state) then Err(DEMAND_TRANSITION_REFUSED)
            else Ok((RequestChange(c, row, row.validated.value, row.revision, policy, now, approvalId, first, second),
              201))
  }

  // ---------- decide ----------

  function ExpireChange(c: Context, approval: ApprovalRow, demand: DemandRow, now: int, first: Id, second: Id): Change {
    var expired := approval.(
      state := EXPIRED, revision := approval.revision + 1, reason := Some("APPROVAL_EXPIRED"), updatedAt := now);
    var blocked := demand.(state := BLOCKED, revision := demand.revision + 1, approvalId := None, updatedAt := now);
    Change(blocked, Some(expired), [Finding(demand.id, blocked.revision, APPROVAL_EXPIRED, Row(approval.id), now)],
      [ApprovalEvent(c, first, APPROVAL_LAPSED, expired, now), DemandEvent(c, second, DEMAND_BLOCKED, blocked, now)])
  }

  function Approvals(decisions: seq<Decision>): nat {
    if decisions == [] then 0
    else Approvals(decisions[..|decisions| - 1]) + if decisions[|decisions| - 1].approve then 1 else 0
  }

  predicate HasDecided(decisions: seq<Decision>, actor: Actor) {
    exists i | 0 <= i < |decisions| :: decisions[i].actor == actor
  }

  function NextState(approval: ApprovalRow, decision: Decision): ApprovalState {
    if !decision.approve then ApprovalState.REJECTED
    else if Approvals(approval.decisions + [decision]) >= approval.policy.required then ApprovalState.APPROVED
    else PENDING
  }

  /** The approval with one more decision. */
  function Voted(a: ApprovalRow, decision: Decision): ApprovalRow {
    var state := NextState(a, decision);
    a.(state := state, revision := a.revision + 1, decisions := a.decisions + [decision],
       reason :=
         match state
         case APPROVED => Some("QUORUM_REACHED")
         case REJECTED => Some(decision.reason)
         case _ => None,
       updatedAt := decision.at)
  }

  function DecideChange(
    c: Context, approval: ApprovalRow, demand: DemandRow, approve: bool, reason: string, now: int, first: Id,
    second: Id): Change
  {
    var next := Voted(approval, Decision(c.subject, approve, reason, now));
    var vote := ApprovalEvent(c, first, APPROVAL_DECIDED, next, now);
    if next.state == PENDING then Change(demand, Some(next), [], [vote])
    else
      var approved := next.state == ApprovalState.APPROVED;
      var settled := demand.(
        state := if approved then DemandState.APPROVED else DemandState.REJECTED, revision := demand.revision + 1,
        updatedAt := now);
      Change(settled, Some(next), [],
        [vote, DemandEvent(c, second, if approved then DEMAND_APPROVED else DEMAND_REJECTED, settled, now)])
  }

  /** Whether this reviewer may decide on this approval. */
  function ReviewFault(approval: ApprovalRow, reviewer: Actor): Option<Refusal> {
    if approval.requester == reviewer then Some(APPROVAL_SELF_REVIEW_REFUSED)
    else if reviewer !in approval.policy.eligible then Some(APPROVAL_REVIEWER_REFUSED)
    else if HasDecided(approval.decisions, reviewer) then Some(APPROVAL_DUPLICATE_REVIEWER)
    else None
  }

  /** Whether the approval is still about the demand as it stands. */
  predicate IsCurrent(approval: ApprovalRow, demand: DemandRow) {
    demand.state == APPROVAL_PENDING && demand.validated == Some(approval.demandDigest)
    && demand.validatedRevision == Some(approval.demandRevision) && demand.approvalId == Some(approval.id)
  }

  function PolicyFault(approval: ApprovalRow, answer: PolicyAnswer): Option<Refusal> {
    match AdmittedPolicy(answer, approval.requester, approval.requestedAt)
    case Err(e) => Some(e)
    case Ok(policy) => if OfPolicy(policy) != approval.binding then Some(APPROVAL_POLICY_STALE) else None
  }

  function Settle(
    c: Context, approval: ApprovalRow, demand: DemandRow, approve: bool, reason: string, now: int, first: Id,
    second: Id): Proposal
  {
    if approval.policy.expiresAt <= now then
      if BLOCKED !in Transitions(demand.state) then Err(DEMAND_TRANSITION_REFUSED)
      else Ok((ExpireChange(c, approval, demand, now, first, second), 409))
    else
      var change := DecideChange(c, approval, demand, approve, reason, now, first, second);
      if change.demand != demand && change.demand.state !in Transitions(demand.state) then
        Err(DEMAND_TRANSITION_REFUSED)
      else Ok((change, 200))
  }

  function Decide(
    s: Store, c: Context, id: Id, approve: bool, reason: string, ifMatch: Option<Tag>, now: int,
    answer: PolicyAnswer, first: Id, second: Id): Proposal
  {
    if (c.org, id) !in s.approvals then Err(APPROVAL_NOT_FOUND)
    else
      var approval := s.approvals[(c.org, id)];
      match TagFault(ApprovalTagOf(approval), ifMatch)
      case Some(e) => Err(e)
      case None =>
        if approval.state != PENDING then Err(APPROVAL_TERMINAL)
        else
          match ReviewFault(approval, c.subject)
          case Some(e) => Err(e)
          case None =>
            if (c.org, approval.demandId) !in s.demands then Err(DEMAND_NOT_FOUND)
            else
              var demand := s.demands[(c.org, approval.demandId)];
              if !IsCurrent(approval, demand) then Err(APPROVAL_SUBJECT_STALE)
              else
                match PolicyFault(approval, answer)
                case Some(e) => Err(e)
                case None =>
                  if now < 0 then Err(DEMAND_TIME_REFUSED)
                  else Settle(c, approval, demand, approve, reason, now, first, second)
  }

  // ---------- calls ----------

  /** A request: who makes it, and the idempotency key and fingerprint it carries. */
  datatype Request = Request(context: Context, key: string, fingerprint: string)

  /** The calls of the store, with the answers and identifiers each draws on the way. */
  datatype Call =
    | FailNextAudit
    | CreateCall(r: Request, input: Input, now: int, id: Id, first: Id)
    | ValidateCall(r: Request, id: Id, ifMatch: Option<Tag>, now: int, resolution: Resolution, first: Id)
    | RequestCall(r: Request, id: Id, ifMatch: Option<Tag>, now: int, answer: PolicyAnswer, approvalId: Id, first: Id,
      second: Id)
    | DecideCall(r: Request, id: Id, approve: bool, reason: string, ifMatch: Option<Tag>, now: int,
      answer: PolicyAnswer, first: Id, second: Id)

  function Propose(s: Store, call: Call): Proposal
    requires !call.FailNextAudit?
  {
    match call
    case CreateCall(r, input, now, id, first) => Create(r.context, input, now, id, first)
    case ValidateCall(r, id, ifMatch, now, resolution, first) =>
      Validate(s, r.context, id, ifMatch, now, resolution, first)
    case RequestCall(r, id, ifMatch, now, answer, approvalId, first, second) =>
      RequestApproval(s, r.context, id, ifMatch, now, answer, approvalId, first, second)
    case DecideCall(r, id, approve, reason, ifMatch, now, answer, first, second) =>
      Decide(s, r.context, id, approve, reason, ifMatch, now, answer, first, second)
  }

  function Perform(s: Store, call: Call): Outcome
    requires !call.FailNextAudit?
  {
    Mutate(s, call.r.context, call.r.key, call.r.fingerprint, Propose(s, call))
  }

  function After(s: Store, call: Call): Store {
    if call.FailNextAudit? then s.(auditFailure := true) else Perform(s, call).store
  }

  /** The identifiers a call draws. */
  function Drawn(call: Call): seq<Id> {
    match call
    case FailNextAudit => []
    case CreateCall(_, _, _, id, first) => [id, first]
    case ValidateCall(_, _, _, _, _, first) => [first]
    case RequestCall(_, _, _, _, _, approvalId, first, second) => [approvalId, first, second]
    case DecideCall(_, _, _, _, _, _, _, first, second) => [first, second]
  }
}
