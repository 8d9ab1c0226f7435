/**
 Profile lock, bundle request and operation: two stores that must stay in step. The profile store
 calls the operation store to create a bundle operation and to complete it.

 Approvals follow the same rules as those of demands, whose policies and decisions are shared.
 Digests are idealised: a digest is the value it was taken of.
 */
module ProfileModel {
  import opened Basics
  import D = DemandModel

  type Id = nat
  type Org = string
  type Actor = nat
  type Key = (Org, Id)

  // ---------- entities of the profile store ----------

  datatype ProfileState = PROPOSED | APPROVAL_PENDING | LOCKED | REJECTED | SUPERSEDED

  /** The binding of a compiled result and the digest of its profile.json. */
  datatype ResultKey = ResultKey(
    org: Org, demandId: Id, demandRevision: int, demandDigest: string, wheel: string, catalog: string,
    profileDigest: string)

  /**
   A compiled profile as registered: its binding, the six output digests it claims, those its bytes
   have, and what profile.json says: whether it is the document of this profile, and how many
   selectors it leaves open.
   */
  datatype Registration = Registration(
    org: Org, profileId: Id, profileRevision: int, resultKey: ResultKey, demandId: Id, demandRevision: int,
    demandDigest: string, wheel: string, catalog: string, claimed: seq<string>, actual: seq<string>, isDocument: bool,
    openSelectors: nat, createdAt: int)

  /** What reviewers approve: the digest of the profile's binding and outputs. */
  datatype Review = Review(
    org: Org, profileId: Id, profileRevision: int, resultKey: ResultKey, demandId: Id, demandRevision: int,
    demandDigest: string, wheel: string, catalog: string, outputs: seq<string>)

  datatype Profile = Profile(
    reg: Registration, state: ProfileState, revision: nat, approvalId: Option<Id>, lockId: Option<Id>,
    bundleId: Option<Id>, updatedAt: int)

  datatype Approval = Approval(
    id: Id, org: Org, profileId: Id, profileRevision: int, resultKey: ResultKey, review: Review, requester: Actor,
    policy: D.Policy, state: D.ApprovalState, revision: nat, decisions: seq<D.Decision>, reason: Option<string>,
    requestedAt: int, updatedAt: int)

  /** The digest of a lock covers the review and the approval as it was, but not the lock's own id. */
  datatype LockDigest = LockDigest(review: Review, approval: Approval)

  datatype Lock = Lock(id: Id, org: Org, profileId: Id, resultKey: ResultKey, review: Review, approvalId: Id,
    digest: LockDigest, lockedAt: int)

  datatype BundleState = REQUESTED | SOURCE_REPORTED_SIGNED

  datatype Release = Release(id: string, org: Org, profile: Review, content: string)

  datatype Bundle = Bundle(
    id: Id, org: Org, state: BundleState, profileId: Id, review: Review, lockDigest: LockDigest, operation: Id,
    source: Option<string>, sequence: Option<nat>, release: Option<Release>, requestedAt: int, updatedAt: int)

  /** A distribution source's report that a bundle is signed. */
  datatype Envelope = Envelope(source: string, org: Org, partition: Org, eventId: Id, bundleId: Id, sequence: int,
    observedAt: int, release: Release)

  // ---------- entities of the operation store ----------

  datatype OperationState = PENDING | RUNNING | CANCELLING | SUCCEEDED | FAILED | CANCELLED

  datatype OperationKind = COMPILE_PROFILE | BUILD_BUNDLE

  datatype Operation = Operation(
    id: Id, org: Org, kind: OperationKind, state: OperationState, revision: nat, subject: Option<LockDigest>,
    results: seq<Release>, failure: Option<string>, updatedAt: int)

  datatype OperationEvent = OperationEvent(org: Org, operation: Id, sequence: nat, previous: OperationState,
    current: OperationState, reason: string)

  function Transitions(s: OperationState): set<OperationState> {
    match s
    case PENDING => {RUNNING, CANCELLED}
    case RUNNING => {SUCCEEDED, FAILED, CANCELLING}
    case CANCELLING => {CANCELLED, FAILED}
    case SUCCEEDED => {}
    case FAILED => {}
    case CANCELLED => {}
  }

  const PROCESSING := "BUNDLE_SOURCE_PROCESSING"
  const REPORTED_SIGNED := "BUNDLE_SOURCE_REPORTED_SIGNED"

  // ---------- the two stores ----------

  datatype Operations = Operations(rows: map<Key, Operation>, outbox: seq<OperationEvent>, failAudit: bool)

  datatype Tag = ProfileTag(p: Profile, a: Option<Approval>, b: Option<Bundle>) | ApprovalTag(approval: Approval)

  datatype Body = ApprovalBody(approval: Approval) | LockBody(lock: Lock) | BundleBody(bundle: Bundle)

  datatype Response = Response(status: nat, body: Body)

  datatype Stored = Stored(fingerprint: string, response: Response)

  datatype Store = Store(
    profiles: map<Key, Profile>,
    approvals: map<Key, Approval>,
    locks: map<Key, Lock>,
    bundles: map<Key, Bundle>,
    bundleByLock: map<(Org, LockDigest), Id>,
    idempotency: map<(Org, string), Stored>,
    inbox: map<Id, Envelope>,
    sequences: map<(string, Org), nat>,
    failAudit: bool,
    operations: Operations)

  const EMPTY := Store(map[], map[], map[], map[], map[], map[], map[], map[], false, Operations(map[], [], false))

  datatype Refusal =
    | PROFILE_NOT_FOUND | PROFILE_REVISION_EXISTS | PROFILE_RESULT_KEY_REFUSED | PROFILE_REVISION_TAMPERED
    | PROFILE_TIME_REFUSED
    | IDEMPOTENCY_CONFLICT | PRECONDITION_REQUIRED | PRECONDITION_FAILED | AUDIT_WRITE_REFUSED
    | PROFILE_APPROVAL_STATE_REFUSED | PROFILE_SELECTORS_UNRESOLVED | PROFILE_APPROVAL_POLICY_REFUSED
    | PROFILE_APPROVAL_POLICY_UNAVAILABLE | PROFILE_APPROVAL_POLICY_DENIED
    | PROFILE_APPROVAL_NOT_FOUND | PROFILE_APPROVAL_BINDING_REFUSED | PROFILE_APPROVAL_EXPIRED
    | PROFILE_REVIEWER_REFUSED
    | PROFILE_LOCK_STATE_REFUSED | PROFILE_LOCK_APPROVAL_REFUSED | PROFILE_LOCK_NOT_FOUND | PROFILE_LOCK_BINDING_REFUSED
    | BUNDLE_PROFILE_NOT_LOCKED | BUNDLE_REQUEST_EXISTS | BUNDLE_REQUEST_NOT_FOUND | BUNDLE_SOURCE_ENVELOPE_REFUSED
    | BUNDLE_SOURCE_STATUS_STALE | BUNDLE_SOURCE_EVENT_CONFLICT | BUNDLE_SOURCE_STATE_REFUSED
    | BUNDLE_SOURCE_PROFILE_REFUSED | BUNDLE_SOURCE_SEQUENCE_REFUSED | BUNDLE_RELEASE_REFUSED
    | OPERATION_NOT_FOUND | OPERATION_TRANSITION_REFUSED | OPERATION_FAILURE_REFUSED | OPERATION_RESULT_REFUSED

  datatype Outcome =
    | Returned(store: Store, response: Response)
    | Registered(store: Store)
    | Raised(store: Store, error: Refusal)

  datatype Context = Context(org: Org, subject: Actor)

  datatype Request = Request(context: Context, key: string, fingerprint: string)

  // ---------- the operation store ----------

  /** A call of the operation store: the new contents and the row it wrote, or why it refused. */
  datatype Performed = Done(operations: Operations, row: Operation) | Refused(operations: Operations, why: Refusal)

  function CreateOperation(
    o: Operations, org: Org, id: Id, kind: OperationKind, subject: Option<LockDigest>, now: int): Performed
  {
    if now < 0 then Refused(o, PROFILE_TIME_REFUSED)
    else if o.failAudit then Refused(o.(failAudit := false), AUDIT_WRITE_REFUSED)
    else
      var row := Operation(id, org, kind, PENDING, 1, subject, [], None, now);
      Done(o.(rows := o.rows[(org, id) := row]), row)
  }

  function CompleteOperation(o: Operations, org: Org, id: Id, release: Release, now: int): Performed {
    if (org, id) !in o.rows || o.rows[(org, id)].kind != BUILD_BUNDLE || o.rows[(org, id)].state != PENDING
    then Refused(o, OPERATION_TRANSITION_REFUSED)
    else if now < 0 then Refused(o, PROFILE_TIME_REFUSED)
    else if o.failAudit then Refused(o.(failAudit := false), AUDIT_WRITE_REFUSED)
    else
      var row := o.rows[(org, id)];
      var done := row.(state := SUCCEEDED, revision := row.revision + 2, results := [release], updatedAt := now);
      Done(
        o.(rows := o.rows[(org, id) := done],
           outbox := o.outbox + [
             OperationEvent(org, id, row.revision + 1, PENDING, RUNNING, PROCESSING),
             OperationEvent(org, id, row.revision + 2, RUNNING, SUCCEEDED, REPORTED_SIGNED)]),
        done)
  }

  function TransitOperation(
    o: Operations, org: Org, id: Id, next: OperationState, reason: string, results: seq<Release>,
    failure: Option<string>, now: int): Performed
  {
    if (org, id) !in o.rows then Refused(o, OPERATION_NOT_FOUND)
    else
      var row := o.rows[(org, id)];
      if next !in Transitions(row.state) || !IsReason(reason) then Refused(o, OPERATION_TRANSITION_REFUSED)
      else if (next == FAILED) != failure.Some? then Refused(o, OPERATION_FAILURE_REFUSED)
      else if next != SUCCEEDED && results != [] then Refused(o, OPERATION_RESULT_REFUSED)
      else if now < 0 then Refused(o, PROFILE_TIME_REFUSED)
      else if o.failAudit then Refused(o.(failAudit := false), AUDIT_WRITE_REFUSED)
      else
        var changed := row.(state := next, revision := row.revision + 1, results := results, failure := failure,
          updatedAt := now);
        Done(
          o.(rows := o.rows[(org, id) := changed],
            outbox := o.outbox + [OperationEvent(org, id, row.revision + 1, row.state, next, reason)]),
          changed)
  }

  // ---------- verification of a profile ----------

  const OUTPUT_COUNT := 6

  /** The outputs are those registered, and profile.json is the document of this profile. */
  predicate Verifies(reg: Registration) { reg.actual == reg.claimed && reg.isDocument }

  function ReviewOf(reg: Registration): Review {
    Review(reg.org, reg.profileId, reg.profileRevision, reg.resultKey, reg.demandId, reg.demandRevision,
           reg.demandDigest, reg.wheel, reg.catalog, reg.actual)
  }

  function KeyOf(reg: Registration): ResultKey
    requires reg.claimed != []
  {
    ResultKey(reg.org, reg.demandId, reg.demandRevision, reg.demandDigest, reg.wheel, reg.catalog, reg.claimed[0])
  }

  function Register(s: Store, reg: Registration): Outcome
    requires |reg.claimed| == OUTPUT_COUNT
  {
    if (reg.org, reg.profileId) in s.profiles then Raised(s, PROFILE_REVISION_EXISTS)
    else if reg.resultKey != KeyOf(reg) then Raised(s, PROFILE_RESULT_KEY_REFUSED)
    else if !Verifies(reg) then Raised(s, PROFILE_REVISION_TAMPERED)
    else Registered(s.(profiles :=
      s.profiles[(reg.org, reg.profileId) := Profile(reg, PROPOSED, 1, None, None, None, reg.createdAt)]))
  }

  // ---------- calls of a person ----------

  function Find<T>(rows: map<Key, T>, org: Org, id: Option<Id>): Option<T> {
    if id.Some? && (org, id.value) in rows then Some(rows[(org, id.value)]) else None
  }

  function ProfileTagOf(s: Store, p: Profile): Tag {
    ProfileTag(p, Find(s.approvals, p.reg.org, p.approvalId), Find(s.bundles, p.reg.org, p.bundleId))
  }

  /** The rows that a call writes. */
  datatype Change = Change(profile: Profile, approval: Option<Approval>, lock: Option<Lock>)

  function ProfileKey(p: Profile): Key { (p.reg.org, p.reg.profileId) }

  function ApprovalKey(a: Approval): Key { (a.org, a.id) }

  function LockKey(l: Lock): Key { (l.org, l.id) }

  function BundleKey(b: Bundle): Key { (b.org, b.id) }

  function Applied(s: Store, change: Change): Store {
    s.(profiles := s.profiles[ProfileKey(change.profile) := change.profile],
       approvals := match change.approval case None => s.approvals case Some(a) => s.approvals[ApprovalKey(a) := a],
       locks := match change.lock case None => s.locks case Some(l) => s.locks[LockKey(l) := l])
  }

  function Remembered(s: Store, r: Request, response: Response): Store {
    s.(idempotency := s.idempotency[(r.context.org, r.key) := Stored(r.fingerprint, response)])
  }

  /** What a call that is not a repetition comes to: a refusal, a change with its response, or an approval found
      expired. */
  datatype Proposal = Refuse(why: Refusal) | Propose(change: Change, response: Response) | Lapse(approval: Approval)

  /**
   A repeated request is answered from the record. Otherwise the audit comes first; an approval found
   expired is written although the call raises.
   */
  function Mutate(s: Store, r: Request, proposal: Proposal): Outcome {
    var known := (r.context.org, r.key);
    if known in s.idempotency then
      if s.idempotency[known].fingerprint != r.fingerprint then Raised(s, IDEMPOTENCY_CONFLICT)
      else Returned(s, s.idempotency[known].response)
    else
      match proposal
      case Refuse(why) => Raised(s, why)
      case Propose(change, response) =>
        if s.failAudit then Raised(s.(failAudit := false), AUDIT_WRITE_REFUSED)
        else Returned(Remembered(Applied(s, change), r, response), response)
      case Lapse(a) =>
        if s.failAudit then Raised(s.(failAudit := false), AUDIT_WRITE_REFUSED)
        else Raised(s.(approvals := s.approvals[ApprovalKey(a) := a]), PROFILE_APPROVAL_EXPIRED)
  }

  /** The profile that a request is about; calls on the profile itself supply its tag, a decision that of the
      approval. */
  function OpenProfile(
    s: Store, org: Org, profileId: Id, ifMatch: Option<Tag>, byProfileTag: bool): Result<Profile, Refusal>
  {
    if ifMatch.None? then Err(PRECONDITION_REQUIRED)
    else if (org, profileId) !in s.profiles then Err(PROFILE_NOT_FOUND)
    else
      var p := s.profiles[(org, profileId)];
      if !Verifies(p.reg) then Err(PROFILE_REVISION_TAMPERED)
      else if byProfileTag && ifMatch != Some(ProfileTagOf(s, p)) then Err(PRECONDITION_FAILED)
      else Ok(p)
  }

  function PolicyRefusal(e: D.Refusal): Refusal {
    if e == D.APPROVAL_POLICY_UNAVAILABLE then PROFILE_APPROVAL_POLICY_UNAVAILABLE
    else if e == D.APPROVAL_POLICY_DENIED then PROFILE_APPROVAL_POLICY_DENIED else PROFILE_APPROVAL_POLICY_REFUSED
  }

  function ApprovalRequested(c: Context, p: Profile, policy: D.Policy, now: int, approvalId: Id): Proposal {
    var a := Approval(
      approvalId, c.org, p.reg.profileId, p.reg.profileRevision, p.reg.resultKey, ReviewOf(p.reg), c.subject,
      policy, D.PENDING, 1, [], None, now, now);
    var changed := p.(state := APPROVAL_PENDING, revision := p.revision + 1, approvalId := Some(approvalId),
      updatedAt := now);
    Propose(Change(changed, Some(a), None), Response(202, ApprovalBody(a)))
  }

  function RequestApproval(
    s: Store, c: Context, profileId: Id, ifMatch: Option<Tag>, now: int, answer: D.PolicyAnswer,
    approvalId: Id): Proposal
  {
    match OpenProfile(s, c.org, profileId, ifMatch, true)
    case Err(why) => Refuse(why)
    case Ok(p) =>
      if p.state != PROPOSED then Refuse(PROFILE_APPROVAL_STATE_REFUSED)
      else if p.reg.openSelectors > 0 then Refuse(PROFILE_SELECTORS_UNRESOLVED)
      else if now < 0 then Refuse(PROFILE_TIME_REFUSED)
      else
        match D.AdmittedPolicy(answer, c.subject, now)
        case Err(e) => Refuse(PolicyRefusal(e))
        case Ok(policy) => ApprovalRequested(c, p, policy, now, approvalId)
  }

  /** The approval is about the profile as it stands. */
  predicate IsAbout(a: Approval, p: Profile) {
    a.review == ReviewOf(p.reg) && a.resultKey == p.reg.resultKey && a.profileRevision == p.reg.profileRevision
  }

  predicate MayReview(a: Approval, reviewer: Actor) {
    reviewer != a.requester && reviewer in a.policy.eligible && !D.HasDecided(a.decisions, reviewer)
  }

  function Voted(a: Approval, decision: D.Decision): Approval {
    var state := if !decision.approve then D.ApprovalState.REJECTED
      else if D.Approvals(a.decisions + [decision]) >= a.policy.required then D.ApprovalState.APPROVED else D.PENDING;
    a.(state := state, revision := a.revision + 1, decisions := a.decisions + [decision],
       reason := if state == D.PENDING then None else Some(decision.reason), updatedAt := decision.at)
  }

  function Expired(a: Approval, now: int): Approval {
    a.(state := D.EXPIRED, revision := a.revision + 1, reason := Some("APPROVAL_EXPIRED"), updatedAt := now)
  }

  function Decided(p: Profile, next: Approval, now: int): Proposal {
    var changed := if next.state == D.ApprovalState.REJECTED
      then p.(state := ProfileState.REJECTED, revision := p.revision + 1, updatedAt := now) else p;
    Propose(Change(changed, Some(next), None), Response(200, ApprovalBody(next)))
  }

  function Decide(
    s: Store, c: Context, profileId: Id, approve: bool, reason: string, ifMatch: Option<Tag>, now: int): Proposal
  {
    match OpenProfile(s, c.org, profileId, ifMatch, false)
    case Err(why) => Refuse(why)
    case Ok(p) =>
      match Find(s.approvals, c.org, p.approvalId)
      case None => Refuse(PROFILE_APPROVAL_NOT_FOUND)
      case Some(a) =>
        if ifMatch != Some(ApprovalTag(a)) then Refuse(PRECONDITION_FAILED)
        else if a.state != D.PENDING || p.state != APPROVAL_PENDING then Refuse(PROFILE_APPROVAL_STATE_REFUSED)
        else if !IsAbout(a, p) then Refuse(PROFILE_APPROVAL_BINDING_REFUSED)
        else if a.policy.expiresAt <= now then
          (if now < 0 then Refuse(PROFILE_TIME_REFUSED) else Lapse(Expired(a, now)))
        else if !MayReview(a, c.subject) then Refuse(PROFILE_REVIEWER_REFUSED)
        else if now < 0 then Refuse(PROFILE_TIME_REFUSED)
        else Decided(p, Voted(a, D.Decision(c.subject, approve, reason, now)), now)
  }

  function Locked(c: Context, p: Profile, a: Approval, now: int, lockId: Id): Proposal {
    var l := Lock(lockId, c.org, p.reg.profileId, p.reg.resultKey, ReviewOf(p.reg), a.id,
      LockDigest(ReviewOf(p.reg), a), now);
    var changed := p.(state := LOCKED, revision := p.revision + 1, lockId := Some(lockId), updatedAt := now);
    Propose(Change(changed, None, Some(l)), Response(201, LockBody(l)))
  }

  function LockProfile(s: Store, c: Context, profileId: Id, ifMatch: Option<Tag>, now: int, lockId: Id): Proposal {
    match OpenProfile(s, c.org, profileId, ifMatch, true)
    case Err(why) => Refuse(why)
    case Ok(p) =>
      if p.state != APPROVAL_PENDING || p.approvalId.None? || p.lockId.Some? then Refuse(PROFILE_LOCK_STATE_REFUSED)
      else
        match Find(s.approvals, c.org, p.approvalId)
        case None => Refuse(PROFILE_APPROVAL_NOT_FOUND)
        case Some(a) =>
          if a.state != D.ApprovalState.APPROVED || a.policy.expiresAt <= now || !IsAbout(a, p) then
            Refuse(PROFILE_LOCK_APPROVAL_REFUSED)
          else if now < 0 then Refuse(PROFILE_TIME_REFUSED)
          else Locked(c, p, a, now, lockId)
  }

  /** The lock that a bundle is requested of. */
  function OpenLock(s: Store, c: Context, profileId: Id, ifMatch: Option<Tag>): Result<(Profile, Lock), Refusal> {
    match OpenProfile(s, c.org, profileId, ifMatch, true)
    case Err(why) => Err(why)
    case Ok(p) =>
      if p.state != LOCKED || p.lockId.None? then Err(BUNDLE_PROFILE_NOT_LOCKED)
      else
        match Find(s.locks, c.org, p.lockId)
        case None => Err(PROFILE_LOCK_NOT_FOUND)
        case Some(l) =>
          if l.review != ReviewOf(p.reg) || l.resultKey != p.reg.resultKey then Err(PROFILE_LOCK_BINDING_REFUSED)
          else if (c.org, l.digest) in s.bundleByLock then Err(BUNDLE_REQUEST_EXISTS)
          else Ok((p, l))
  }

  function NewBundle(org: Org, p: Profile, l: Lock, bundleId: Id, operationId: Id, now: int): Bundle {
    Bundle(bundleId, org, REQUESTED, p.reg.profileId, ReviewOf(p.reg), l.digest, operationId, None, None, None, now,
      now)
  }

  /** The profile with its reference to the bundle. */
  function Referring(p: Profile, b: Bundle): Profile {
    p.(revision := p.revision + 1, bundleId := Some(b.id), updatedAt := b.requestedAt)
  }

  /** The bundle, its index entry and the profile's reference to it, after the operation has been created. */
  function BundleRequested(s: Store, p: Profile, b: Bundle, o: Operations): Store {
    s.(bundles := s.bundles[BundleKey(b) := b], bundleByLock := s.bundleByLock[(b.org, b.lockDigest) := b.id],
       profiles := s.profiles[ProfileKey(p) := Referring(p, b)],
       operations := o)
  }

  function RequestBundle(
    s: Store, r: Request, profileId: Id, ifMatch: Option<Tag>, now: int, operationId: Id, bundleId: Id): Outcome
  {
    var known := (r.context.org, r.key);
    if known in s.idempotency then
      if s.idempotency[known].fingerprint != r.fingerprint then Raised(s, IDEMPOTENCY_CONFLICT)
      else Returned(s, s.idempotency[known].response)
    else
      match OpenLock(s, r.context, profileId, ifMatch)
      case Err(why) => Raised(s, why)
      case Ok((p, l)) =>
        if s.failAudit then Raised(s.(failAudit := false), AUDIT_WRITE_REFUSED)
        else
          match CreateOperation(s.operations, r.context.org, operationId, BUILD_BUNDLE, Some(l.digest), now)
          case Refused(o, why) => Raised(s.(operations := o), why)
          case Done(o, _) =>
            var b := NewBundle(r.context.org, p, l, bundleId, operationId, now);
            var response := Response(202, BundleBody(b));
            Returned(Remembered(BundleRequested(s, p, b, o), r, response), response)
  }

  // ---------- the distribution source ----------

  const CLOCK_LEAD := 300
  const MAX_AGE := 3600

  function EnvelopeFault(allowed: set<string>, authenticated: string, e: Envelope, now: int): Option<Refusal> {
    if authenticated != e.source || authenticated !in allowed || e.partition != e.org || e.sequence < 1
    then Some(BUNDLE_SOURCE_ENVELOPE_REFUSED)
    else if e.observedAt > now + CLOCK_LEAD || e.observedAt < now - MAX_AGE then Some(BUNDLE_SOURCE_STATUS_STALE)
    else None
  }

  function LastSequence(s: Store, e: Envelope): nat {
    if (e.source, e.partition) in s.sequences then s.sequences[(e.source, e.partition)] else 0
  }

  function Signed(b: Bundle, e: Envelope, now: int): Bundle
    requires e.sequence >= 1
  {
    b.(state := SOURCE_REPORTED_SIGNED, source := Some(e.source), sequence := Some(e.sequence),
      release := Some(e.release), updatedAt := now)
  }

  function BundleSigned(s: Store, b: Bundle, e: Envelope, o: Operations, now: int): Store
    requires e.sequence >= 1
  {
    s.(bundles := s.bundles[BundleKey(b) := Signed(b, e, now)], inbox := s.inbox[e.eventId := e],
       sequences := s.sequences[(e.source, e.partition) := e.sequence], operations := o)
  }

  /** Why a report that is not a repetition is refused, or the bundle it is about. */
  function OpenBundle(s: Store, e: Envelope): Result<Bundle, Refusal>
    requires (e.org, e.bundleId) in s.bundles
  {
    var b := s.bundles[(e.org, e.bundleId)];
    if b.state != REQUESTED then Err(BUNDLE_SOURCE_STATE_REFUSED)
    else if (e.org, b.profileId) !in s.profiles then Err(PROFILE_NOT_FOUND)
    else
      var p := s.profiles[(e.org, b.profileId)];
      if !Verifies(p.reg) then Err(PROFILE_REVISION_TAMPERED)
      else if p.state != LOCKED || b.review != ReviewOf(p.reg) then Err(BUNDLE_SOURCE_PROFILE_REFUSED)
      else if e.sequence != LastSequence(s, e) + 1 then Err(BUNDLE_SOURCE_SEQUENCE_REFUSED)
      else if e.release.org != e.org || e.release.profile != ReviewOf(p.reg) then Err(BUNDLE_RELEASE_REFUSED)
      else Ok(b)
  }

  function ReportSigned(s: Store, allowed: set<string>, authenticated: string, e: Envelope, now: int): Outcome {
    match EnvelopeFault(allowed, authenticated, e, now)
    case Some(why) => Raised(s, why)
    case None =>
      if e.eventId in s.inbox && s.inbox[e.eventId] != e then Raised(s, BUNDLE_SOURCE_EVENT_CONFLICT)
      else if (e.org, e.bundleId) !in s.bundles then Raised(s, BUNDLE_REQUEST_NOT_FOUND)
      else if e.eventId in s.inbox then Returned(s, Response(200, BundleBody(s.bundles[(e.org, e.bundleId)])))
      else
        match OpenBundle(s, e)
        case Err(why) => Raised(s, why)
        case Ok(b) =>
          if s.failAudit then Raised(s.(failAudit := false), AUDIT_WRITE_REFUSED)
          else
            match CompleteOperation(s.operations, e.org, b.operation, e.release, now)
            case Refused(o, why) => Raised(s.(operations := o), why)
            case Done(o, _) => Returned(BundleSigned(s, b, e, o, now), Response(200, BundleBody(Signed(b, e, now))))
  }

  // ---------- calls ----------

  /** The calls of both stores, with the answers and identifiers each draws on the way. */
  datatype Call =
    | RegisterCall(reg: Registration)
    | ApprovalCall(r: Request, profileId: Id, ifMatch: Option<Tag>, now: int, answer: D.PolicyAnswer, approvalId: Id)
    | DecideCall(r: Request, profileId: Id, approve: bool, reason: string, ifMatch: Option<Tag>, now: int)
    | LockCall(r: Request, profileId: Id, ifMatch: Option<Tag>, now: int, lockId: Id)
    | BundleCall(r: Request, profileId: Id, ifMatch: Option<Tag>, now: int, operationId: Id, bundleId: Id)
    | ReportCall(allowed: set<string>, authenticated: string, envelope: Envelope, now: int)
    | CompileCall(org: Org, operationId: Id, now: int)
    | WorkerCall(org: Org, operation: Id, next: OperationState, reason: string, results: seq<Release>,
      failure: Option<string>, now: int)
    | FailProfileAudit
    | FailOperationAudit

  /** What a person's call on a profile proposes. */
  function Proposed(s: Store, call: Call): Proposal
    requires call.ApprovalCall? || call.DecideCall? || call.LockCall?
  {
    match call
    case ApprovalCall(r, profileId, ifMatch, now, answer, approvalId) =>
      RequestApproval(s, r.context, profileId, ifMatch, now, answer, approvalId)
    case DecideCall(r, profileId, approve, reason, ifMatch, now) =>
      Decide(s, r.context, profileId, approve, reason, ifMatch, now)
    case LockCall(r, profileId, ifMatch, now, lockId) => LockProfile(s, r.context, profileId, ifMatch, now, lockId)
  }

  function After(s: Store, call: Call): Store {
    match call
    case RegisterCall(reg) => if |reg.claimed| == OUTPUT_COUNT then Register(s, reg).store else s
    case BundleCall(r, profileId, ifMatch, now, operationId, bundleId) =>
      RequestBundle(s, r, profileId, ifMatch, now, operationId, bundleId).store
    case ReportCall(allowed, authenticated, e, now) => ReportSigned(s, allowed, authenticated, e, now).store
    case CompileCall(org, operationId, now) =>
      s.(operations := CreateOperation(s.operations, org, operationId, COMPILE_PROFILE, None, now).operations)
    case WorkerCall(org, operation, next, reason, results, failure, now) =>
      s.(operations := TransitOperation(s.operations, org, operation, next, reason, results, failure, now).operations)
    case FailProfileAudit => s.(failAudit := true)
    case FailOperationAudit => s.(operations := s.operations.(failAudit := true))
    case _ => Mutate(s, call.r, Proposed(s, call)).store
  }

  function Drawn(call: Call): seq<Id> {
    match call
    case ApprovalCall(_, _, _, _, _, approvalId) => [approvalId]
    case LockCall(_, _, _, _, lockId) => [lockId]
    case BundleCall(_, _, _, _, operationId, bundleId) => [operationId, bundleId]
    case CompileCall(_, operationId, _) => [operationId]
    case _ => []
  }
}
