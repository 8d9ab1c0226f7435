/**
 The profile compilation queue: its entities, and what each call of the store does to them.

 Every call is given as a total function on the store's contents. A call either returns, with
 the new contents and a value, or raises, with the contents it leaves behind. The class in
 QueueStore.dfy performs the same calls in place and is proved to agree with these functions.

 Random identifiers are parameters. They are numbers: the source compares identifiers only as
 fixed-width lower-case hexadecimal text, whose order is the order of the numbers it spells.
 */
module QueueModel {
  import opened Basics

  type Id = nat
  type Bytes = seq<nat>

  // ---------- entities ----------

  datatype JobState = QUEUED | LEASED | RETRY_WAIT | SUCCEEDED | DEAD_LETTERED

  datatype OperationState = PENDING | RUNNING | CANCELLING | SUCCEEDED | FAILED | CANCELLED

  /** SHA-256, idealised: a digest determines the bytes it was taken of. */
  datatype Digest = Sha256(content: Bytes)

  datatype JobSpec = JobSpec(
    demandId: string, demandRevision: int, demandDigest: string,
    inputDigest: string, catalogDigest: string, wheelDigest: string)

  /** The four lease columns, which the source always sets and clears together. */
  datatype Lease = Lease(owner: string, token: Id, claimedAt: int, expiresAt: int)

  datatype Binding = Binding(
    org: string, demandId: string, demandRevision: int, demandDigest: string,
    wheelDigest: string, catalogDigest: string)

  /** The digest of a binding together with the digest of profile.json, idealised as injective. */
  datatype ResultKey = ResultKey(binding: Binding, profileDigest: Digest)

  datatype Job = Job(
    id: Id, org: string, operationId: Id, spec: JobSpec,
    state: JobState, attempt: nat, availableAt: int, createdAt: int,
    lease: Option<Lease>, failureReason: Option<string>, resultKey: Option<ResultKey>)

  datatype Reference = Reference(profileId: string, digest: Digest)

  datatype Operation = Operation(
    id: Id, org: string, state: OperationState, version: int, requestedAt: int, updatedAt: int,
    resultRefs: seq<Reference>, failureReason: Option<string>, failureRetryable: Option<bool>)

  datatype Revision = Revision(
    key: ResultKey, org: string, profileId: string, spec: JobSpec, profile: Bytes, createdAt: int)

  datatype Event = Event(
    id: Id, tenant: string, partitionKey: string, subject: Id, time: int, sequence: int,
    previous: OperationState, current: OperationState, reason: string, refs: seq<Reference>)

  datatype AuditEntry =
    | CompilationRequested(operation: Id)
    | OperationChanged(operation: Id)
    | ProfileProposed(profileId: string)
    | OutboxPublished(event: Id)
    | EventAccepted(event: Id)

  /**
   What the compiler hands back: the member names in order, the bytes of profile.json, the digest
   that profile.sha256 spells followed by one line feed (if it spells one), and the profile id
   found in profile.json (if it decodes to a well-formed one).
   */
  datatype Outputs = Outputs(
    names: seq<string>, profile: Bytes, checksum: Option<Digest>, profileId: Option<string>)

  datatype Store = Store(
    operations: map<(string, Id), Operation>,
    jobs: map<(string, Id), Job>,
    profiles: map<ResultKey, Revision>,
    bindings: map<Binding, ResultKey>,
    outbox: seq<Event>,
    audit: seq<AuditEntry>,
    inbox: map<(string, Id), Event>,
    sequences: map<(string, Id), int>,
    receipts: set<Id>,
    failpoints: set<string>)

  const EMPTY_STORE := Store(map[], map[], map[], map[], [], [], map[], map[], {}, {})

  datatype Refusal =
    | DIGEST_REFUSED | INJECTED_ATOMIC_FAILURE | OPERATION_TERMINAL | JOB_NOT_FOUND
    | LEASE_FENCE_REFUSED | REASON_CODE_REFUSED
    | COMPILER_OUTPUT_SET_REFUSED | PROFILE_DIGEST_REFUSED | PROFILE_DOCUMENT_REFUSED
    | INJECTED_AFTER_DELIVERY
    | EVENT_SOURCE_REFUSED | EVENT_PARTITION_REFUSED | EVENT_ID_CONFLICT | EVENT_SEQUENCE_REFUSED
    | KEY_ERROR // a dictionary lookup of an absent key

  datatype Outcome<+T> = Returned(store: Store, value: T) | Raised(store: Store, refusal: Refusal)

  // ---------- constants and text shapes ----------

  const OUTPUT_NAMES: seq<string> := [
    "profile.json", "bom.json", "install-plan.json", "evidence-plan.json", "explanation.md", "profile.sha256"]
  const MAX_ATTEMPTS := 3
  const RETRY_DELAYS: seq<int> := [5, 30]

  predicate IsHexDigit(c: char) { '0' <= c <= '9' || 'a' <= c <= 'f' }

  predicate IsSha256(s: string) {
    |s| == 71 && s[..7] == "sha256:" && forall i | 7 <= i < 71 :: IsHexDigit(s[i])
  }

  function WithoutDashes(s: string): string {
    if s == "" then "" else (if s[0] == '-' then "" else [s[0]]) + WithoutDashes(s[1..])
  }

  function TenantId(org: string): string { "tenant." + WithoutDashes(org) }

  // ---------- shared pieces of the calls ----------

  function Disarm(s: Store, name: string): Store {
    s.(failpoints := s.failpoints - {name})
  }

  function BindingOf(job: Job): Binding {
    Binding(job.org, job.spec.demandId, job.spec.demandRevision, job.spec.demandDigest,
            job.spec.wheelDigest, job.spec.catalogDigest)
  }

  function EventOf(o: Operation, previous: OperationState, reason: string, eventId: Id): Event {
    Event(eventId, TenantId(o.org), TenantId(o.org), o.id, o.updatedAt, o.version,
          previous, o.state, reason, o.resultRefs)
  }

  predicate Claimable(job: Job, now: int) {
    || ((job.state.QUEUED? || job.state.RETRY_WAIT?) && job.availableAt <= now)
    || (job.state.LEASED? && job.lease.Some? && job.lease.value.expiresAt <= now)
  }

  /** The order in which claimable jobs are served. */
  predicate ServedBefore(a: Job, b: Job) {
    || a.availableAt < b.availableAt
    || (a.availableAt == b.availableAt && a.createdAt < b.createdAt)
    || (a.availableAt == b.availableAt && a.createdAt == b.createdAt && a.id < b.id)
  }

  predicate Eligible(jobs: map<(string, Id), Job>, org: string, now: int, key: (string, Id)) {
    key in jobs && key.0 == org && Claimable(jobs[key], now)
  }

  /** `key` names a claimable job that no other claimable job of the organization precedes. */
  ghost predicate IsNext(jobs: map<(string, Id), Job>, org: string, now: int, key: (string, Id)) {
    && Eligible(jobs, org, now, key)
    && forall k | Eligible(jobs, org, now, k) && k != key :: ServedBefore(jobs[key], jobs[k])
  }

  ghost function NextJob(jobs: map<(string, Id), Job>, org: string, now: int): Option<(string, Id)> {
    if key :| IsNext(jobs, org, now, key) then Some(key) else None
  }

  /** The lease fence: the job, if this worker holds it under this token at this time. */
  function Leased(s: Store, org: string, jobId: Id, worker: string, token: Id, now: int): (r: Result<Job, Refusal>)
    ensures r.Ok? ==> r.value.lease.Some?
  {
    if (org, jobId) !in s.jobs then Err(JOB_NOT_FOUND) else
    var job := s.jobs[(org, jobId)];
    if job.state.LEASED? && job.lease.Some? && job.lease.value.owner == worker && job.lease.value.token == token
      && now < job.lease.value.expiresAt
    then Ok(job)
    else Err(LEASE_FENCE_REFUSED)
  }

  /** One commit of a job, its operation and the event that announces the change. */
  function Transition(s: Store, key: (string, Id), job: Job, operation: Operation, event: Event): Store {
    s.(jobs := s.jobs[key := job],
       operations := s.operations[(key.0, operation.id) := operation],
       outbox := s.outbox + [event],
       audit := s.audit + [OperationChanged(operation.id)])
  }

  function Ended(job: Job, state: JobState, reason: Option<string>, key: Option<ResultKey>): Job {
    job.(state := state, lease := None, failureReason := reason, resultKey := key)
  }

  // ---------- the calls ----------

  function CreateJob(
    s: Store, org: string, spec: JobSpec, idempotencyKeyDigest: string, now: int, operationId: Id, jobId: Id
  ): Outcome<(Operation, Job)>
  {
    if !(IsSha256(spec.demandDigest) && IsSha256(spec.inputDigest) && IsSha256(spec.catalogDigest)
         && IsSha256(spec.wheelDigest) && IsSha256(idempotencyKeyDigest)) then
      Raised(s, DIGEST_REFUSED)
    else
      var operation := Operation(operationId, org, PENDING, 1, now, now, [], None, None);
      var job := Job(jobId, org, operationId, spec, QUEUED, 0, now, now, None, None, None);
      if "create.before_commit" in s.failpoints then
        Raised(Disarm(s, "create.before_commit"), INJECTED_ATOMIC_FAILURE)
      else
        Returned(s.(operations := s.operations[(org, operationId) := operation],
                    jobs := s.jobs[(org, jobId) := job],
                    audit := s.audit + [CompilationRequested(operationId)]),
                 (operation, job))
  }

  function Claimed(job: Job, worker: string, now: int, leaseSeconds: int, token: Id): Job {
    job.(state := LEASED, attempt := job.attempt + 1,
         lease := Some(Lease(worker, token, now, now + leaseSeconds)), failureReason := None)
  }

  function Started(operation: Operation, now: int): Operation {
    operation.(state := RUNNING, version := operation.version + 1, updatedAt := now)
  }

  ghost function Claim(
    s: Store, org: string, worker: string, now: int, leaseSeconds: int, token: Id, eventId: Id
  ): Outcome<Option<Job>>
  {
    match NextJob(s.jobs, org, now)
    case None => Returned(s, None)
    case Some(key) =>
      var current := s.jobs[key];
      var changed := Claimed(current, worker, now, leaseSeconds, token);
      if (org, current.operationId) !in s.operations then Raised(s, KEY_ERROR) else
      var operation := s.operations[(org, current.operationId)];
      if !operation.state.PENDING? && !operation.state.RUNNING? then
        Raised(s, OPERATION_TERMINAL)
      else if "claim.before_commit" in s.failpoints then
        Raised(Disarm(s, "claim.before_commit"), INJECTED_ATOMIC_FAILURE)
      else if operation.state.PENDING? then
        var started := Started(operation, now);
        Returned(Transition(s, (org, current.id), changed, started,
          EventOf(started, PENDING, "COMPILATION_STARTED", eventId)), Some(changed))
      else
        Returned(s.(jobs := s.jobs[(org, current.id) := changed]), Some(changed))
  }

  function Extend(
    s: Store, org: string, jobId: Id, worker: string, token: Id, now: int, leaseSeconds: int
  ): Outcome<Job>
  {
    match Leased(s, org, jobId, worker, token, now)
    case Err(refusal) => Raised(s, refusal)
    case Ok(current) =>
      if "lease.before_commit" in s.failpoints then
        Raised(Disarm(s, "lease.before_commit"), INJECTED_ATOMIC_FAILURE)
      else
        var changed := current.(lease := Some(current.lease.value.(expiresAt := now + leaseSeconds)));
        Returned(s.(jobs := s.jobs[(org, jobId) := changed]), changed)
  }

  function Retry(
    s: Store, org: string, jobId: Id, worker: string, token: Id, now: int, reason: string, eventId: Id
  ): Outcome<Job>
  {
    match Leased(s, org, jobId, worker, token, now)
    case Err(refusal) => Raised(s, refusal)
    case Ok(current) =>
      if !IsReason(reason) then Raised(s, REASON_CODE_REFUSED)
      else if current.attempt >= MAX_ATTEMPTS then
        match Fail(s, org, jobId, worker, token, now, "RETRY_EXHAUSTED", false, eventId)
        case Raised(s', refusal) => Raised(s', refusal)
        case Returned(s', _) =>
          if (org, jobId) in s'.jobs then Returned(s', s'.jobs[(org, jobId)]) else Raised(s', KEY_ERROR)
      else
        RetryCommit(s, org, jobId, current, now, DelayAfter(current.attempt), reason)
  }

  /** The source indexes RETRY_DELAYS with attempt - 1; index -1 would select its last entry. */
  function DelayAfter(attempt: nat): int
    requires attempt < MAX_ATTEMPTS
  {
    RETRY_DELAYS[if attempt == 0 then |RETRY_DELAYS| - 1 else attempt - 1]
  }

  function RetryCommit(
    s: Store, org: string, jobId: Id, current: Job, now: int, delay: int, reason: string): Outcome<Job>
  {
    var changed := current.(state := RETRY_WAIT, availableAt := now + delay, lease := None,
      failureReason := Some(reason));
    if "retry.before_commit" in s.failpoints then
      Raised(Disarm(s, "retry.before_commit"), INJECTED_ATOMIC_FAILURE)
    else
      Returned(s.(jobs := s.jobs[(org, jobId) := changed]), changed)
  }

  function Finished(operation: Operation, state: OperationState, now: int, refs: seq<Reference>,
                    reason: Option<string>, retryable: Option<bool>): Operation {
    operation.(state := state, version := operation.version + 1, updatedAt := now, resultRefs := refs,
               failureReason := reason, failureRetryable := retryable)
  }

  function Fail(
    s: Store, org: string, jobId: Id, worker: string, token: Id, now: int, reason: string, retryable: bool, eventId: Id
  ): Outcome<Operation>
  {
    match Leased(s, org, jobId, worker, token, now)
    case Err(refusal) => Raised(s, refusal)
    case Ok(current) =>
      if !IsReason(reason) then Raised(s, REASON_CODE_REFUSED)
      else if (org, current.operationId) !in s.operations then Raised(s, KEY_ERROR)
      else
        var operation := s.operations[(org, current.operationId)];
        if !operation.state.RUNNING? then Raised(s, OPERATION_TERMINAL) else
        var job := Ended(current, DEAD_LETTERED, Some(reason), current.resultKey);
        var failed := Finished(operation, FAILED, now, operation.resultRefs, Some(reason), Some(retryable));
        if "failure.before_commit" in s.failpoints then
          Raised(Disarm(s, "failure.before_commit"), INJECTED_ATOMIC_FAILURE)
        else
          Returned(Transition(s, (org, jobId), job, failed, EventOf(failed, RUNNING, reason, eventId)), failed)
  }

  /** The profile id of an acceptable set of outputs. */
  function ValidateOutputs(outputs: Outputs): Result<string, Refusal> {
    if outputs.names != OUTPUT_NAMES then Err(COMPILER_OUTPUT_SET_REFUSED)
    else if outputs.checksum != Some(Sha256(outputs.profile)) then Err(PROFILE_DIGEST_REFUSED)
    else if outputs.profileId.None? then Err(PROFILE_DOCUMENT_REFUSED)
    else Ok(outputs.profileId.value)
  }

  /** The revision a successful compilation of `job` resolves to: the stored one, or a new one. */
  function RevisionFor(s: Store, job: Job, outputs: Outputs, profileId: string, now: int): Result<Revision, Refusal> {
    var binding := BindingOf(job);
    if binding in s.bindings then
      if s.bindings[binding] in s.profiles then Ok(s.profiles[s.bindings[binding]]) else Err(KEY_ERROR)
    else
      Ok(Revision(ResultKey(binding, Sha256(outputs.profile)), job.org, profileId, job.spec, outputs.profile, now))
  }

  function Succeed(
    s: Store, org: string, jobId: Id, worker: string, token: Id, now: int, outputs: Outputs, eventId: Id
  ): Outcome<Revision>
  {
    if (org, jobId) in s.jobs && s.jobs[(org, jobId)].state.SUCCEEDED? && s.jobs[(org, jobId)].resultKey.Some? then
      var key := s.jobs[(org, jobId)].resultKey.value;
      if key in s.profiles then Returned(s, s.profiles[key]) else Raised(s, KEY_ERROR)
    else
      match Leased(s, org, jobId, worker, token, now)
      case Err(refusal) => Raised(s, refusal)
      case Ok(current) =>
        match ValidateOutputs(outputs)
        case Err(refusal) => Raised(s, refusal)
        case Ok(profileId) =>
          match RevisionFor(s, current, outputs, profileId, now)
          case Err(refusal) => Raised(s, refusal)
          case Ok(revision) =>
            if (org, current.operationId) !in s.operations then Raised(s, KEY_ERROR) else
            var operation := s.operations[(org, current.operationId)];
            if !operation.state.RUNNING? then Raised(s, OPERATION_TERMINAL) else
            var completed :=
              Finished(operation, OperationState.SUCCEEDED, now, [Reference(profileId, Sha256(outputs.profile))], None,
                None);
            var job := Ended(current, JobState.SUCCEEDED, None, Some(revision.key));
            if "result.before_commit" in s.failpoints then
              Raised(Disarm(s, "result.before_commit"), INJECTED_ATOMIC_FAILURE)
            else
              var recorded := s.(profiles := s.profiles[revision.key := revision],
                                 bindings := s.bindings[BindingOf(current) := revision.key],
                                 audit := s.audit + [ProfileProposed(revision.profileId)]);
              Returned(Transition(recorded, (org, jobId), job, completed,
                EventOf(completed, RUNNING, "COMPILATION_SUCCEEDED", eventId)), revision)
  }

  /** The order in which undelivered events are published. */
  predicate PublishedBefore(a: Event, b: Event) {
    a.time < b.time || (a.time == b.time && a.id < b.id)
  }

  /** `e` is an event without a receipt that precedes every other one. */
  ghost predicate IsNextEvent(s: Store, e: Event) {
    && e in s.outbox && e.id !in s.receipts
    && forall f | f in s.outbox && f.id !in s.receipts :: f == e || PublishedBefore(e, f)
  }

  ghost function NextEvent(s: Store): Option<Event> {
    if e :| IsNextEvent(s, e) then Some(e) else None
  }

  function LastSequence(s: Store, tenant: string, subject: Id): int {
    if (tenant, subject) in s.sequences then s.sequences[(tenant, subject)] else 0
  }

  /** The inbox. `true` when the event is new, `false` when it is an exact repetition. */
  function AcceptEvent(s: Store, source: string, allowed: set<string>, e: Event): Outcome<bool> {
    if source !in allowed then Raised(s, EVENT_SOURCE_REFUSED)
    else if e.partitionKey != e.tenant then Raised(s, EVENT_PARTITION_REFUSED)
    else if (e.tenant, e.id) in s.inbox then
      if s.inbox[(e.tenant, e.id)] != e then Raised(s, EVENT_ID_CONFLICT) else Returned(s, false)
    else if e.sequence <= LastSequence(s, e.tenant, e.subject) then Raised(s, EVENT_SEQUENCE_REFUSED)
    else if "inbox.before_commit" in s.failpoints then
      Raised(Disarm(s, "inbox.before_commit"), INJECTED_ATOMIC_FAILURE)
    else
      Returned(s.(inbox := s.inbox[(e.tenant, e.id) := e],
                  sequences := s.sequences[(e.tenant, e.subject) := e.sequence],
                  audit := s.audit + [EventAccepted(e.id)]), true)
  }

  function Acknowledged(s: Store, id: Id): Store {
    s.(receipts := s.receipts + {id}, audit := s.audit + [OutboxPublished(id)])
  }

  /** Publishing one event to the inbox, with an optional crash between delivery and receipt. */
  ghost function DeliverNext(s: Store, source: string, allowed: set<string>, crash: bool): Outcome<Option<Id>> {
    match NextEvent(s)
    case None => Returned(s, None)
    case Some(e) =>
      match AcceptEvent(s, source, allowed, e)
      case Raised(s', refusal) => Raised(s', refusal)
      case Returned(s', _) =>
        if crash then Raised(s', INJECTED_AFTER_DELIVERY)
        else if "delivery.before_receipt" in s'.failpoints then
          Raised(Disarm(s', "delivery.before_receipt"), INJECTED_ATOMIC_FAILURE)
        else
          Returned(Acknowledged(s', e.id), Some(e.id))
  }

  // ---------- the worker ----------

  datatype Compilation = Refused(reason: string, retryable: bool) | Produced(outputs: Outputs)

  datatype RunOutcome = IDLE_NO_JOB | RAN(final: JobState)

  /**
   One pass of the worker: claim, then retry, fail or succeed one second later.
   `wheel` is the digest of the installed compiler and `answer` what it does with the claimed job.
   */
  ghost function RunOnce(
    s: Store, org: string, worker: string, now: int, wheel: string, answer: Compilation, token: Id, startId: Id,
    endId: Id
  ): Outcome<RunOutcome>
  {
    match Claim(s, org, worker, now, 60, token, startId)
    case Raised(s1, refusal) => Raised(s1, refusal)
    case Returned(s1, None) => Returned(s1, IDLE_NO_JOB)
    case Returned(s1, Some(job)) => Conclude(s1, org, worker, now, wheel, answer, token, endId, job)
  }

  /** What the worker does with a job it claimed. */
  function Conclude(
    s1: Store, org: string, worker: string, now: int, wheel: string, answer: Compilation, token: Id, endId: Id, job: Job
  ): Outcome<RunOutcome>
  {
    if job.spec.wheelDigest != wheel then
      GiveUp(s1, org, job.id, worker, token, now + 1, "COMPILER_WHEEL_MISMATCH", endId)
    else
      match answer
      case Refused(reason, true) =>
        (match Retry(s1, org, job.id, worker, token, now + 1, reason, endId)
         case Raised(s2, refusal) => Raised(s2, refusal)
         case Returned(s2, retried) => Returned(s2, RAN(retried.state)))
      case Refused(reason, false) =>
        GiveUp(s1, org, job.id, worker, token, now + 1, reason, endId)
      case Produced(outputs) =>
        match Succeed(s1, org, job.id, worker, token, now + 1, outputs, endId)
        case Returned(s2, _) => Returned(s2, RAN(JobState.SUCCEEDED))
        case Raised(s2, refusal) =>
          if refusal.COMPILER_OUTPUT_SET_REFUSED? || refusal.PROFILE_DIGEST_REFUSED?
            || refusal.PROFILE_DOCUMENT_REFUSED? then
            GiveUp(s2, org, job.id, worker, token, now + 1, RefusalText(refusal), endId)
          else
            Raised(s2, refusal)
  }

  function GiveUp(
    s: Store, org: string, jobId: Id, worker: string, token: Id, now: int, reason: string,
    eventId: Id): Outcome<RunOutcome>
  {
    match Fail(s, org, jobId, worker, token, now, reason, false, eventId)
    case Raised(s', refusal) => Raised(s', refusal)
    case Returned(s', _) => Returned(s', RAN(DEAD_LETTERED))
  }

  function RefusalText(refusal: Refusal): string {
    match refusal
    case COMPILER_OUTPUT_SET_REFUSED => "COMPILER_OUTPUT_SET_REFUSED"
    case PROFILE_DIGEST_REFUSED => "PROFILE_DIGEST_REFUSED"
    case _ => "PROFILE_DOCUMENT_REFUSED"
  }
}
