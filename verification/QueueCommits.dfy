/**
 What a call of the queue can do to its contents. Whatever the arguments, a call makes at most
 one of seven commits. The invariants and the arguments about whole runs are then proved commit
 by commit instead of call by call.
 */
module QueueCommits {
  import opened Basics
  import opened QueueModel

  datatype Commit =
    | NoCommit
    | Created(operation: Operation, job: Job)
    | Begun(key: (string, Id), job: Job, operation: Operation, event: Event)       // first claim
    | Retaken(key: (string, Id), job: Job)                                         // any later claim
    | Prolonged(key: (string, Id), job: Job, at: int)                              // lease extension
    | PutOff(key: (string, Id), job: Job)                                          // retry later
    | Closed(key: (string, Id), job: Job, operation: Operation, event: Event, result: Option<Revision>)
    | Delivered(sent: Event, isNew: bool, receipt: bool)

  function OperationKey(job: Job): (string, Id) { (job.org, job.operationId) }

  predicate SameIdentity(a: Job, b: Job) {
    a.id == b.id && a.org == b.org && a.operationId == b.operationId && a.spec == b.spec
  }

  /** The inbox with one more event. */
  function Take(s: Store, e: Event): Store {
    s.(inbox := s.inbox[(e.tenant, e.id) := e],
       sequences := s.sequences[(e.tenant, e.subject) := e.sequence],
       audit := s.audit + [EventAccepted(e.id)])
  }

  /** The contents after a commit. */
  function After(s: Store, c: Commit): Store {
    match c
    case NoCommit => s
    case Created(operation, job) =>
      s.(operations := s.operations[(operation.org, operation.id) := operation],
         jobs := s.jobs[(job.org, job.id) := job],
         audit := s.audit + [CompilationRequested(operation.id)])
    case Begun(key, job, operation, event) => Transition(s, key, job, operation, event)
    case Retaken(key, job) => s.(jobs := s.jobs[key := job])
    case Prolonged(key, job, _) => s.(jobs := s.jobs[key := job])
    case PutOff(key, job) => s.(jobs := s.jobs[key := job])
    case Closed(key, job, operation, event, None) => Transition(s, key, job, operation, event)
    case Closed(key, job, operation, event, Some(revision)) =>
      Transition(s.(profiles := s.profiles[revision.key := revision],
                    bindings := s.bindings[BindingOf(job) := revision.key],
                    audit := s.audit + [ProfileProposed(revision.profileId)]),
                 key, job, operation, event)
    case Delivered(e, isNew, receipt) => Handed(s, e, isNew, receipt)
  }

  /** The inbox takes the event if it is new, and the outbox may take the receipt. */
  function Handed(s: Store, e: Event, isNew: bool, receipt: bool): Store {
    var taken := if isNew then Take(s, e) else s;
    if receipt then Acknowledged(taken, e.id) else taken
  }

  /** A commit that moves a job forward together with its operation, announcing it. */
  ghost predicate Moves(s: Store, key: (string, Id), job: Job, operation: Operation, event: Event) {
    && key in s.jobs && SameIdentity(s.jobs[key], job)
    && (key.0, job.operationId) in s.operations
    && var before := s.operations[(key.0, job.operationId)];
    && operation.id == before.id && operation.org == before.org && operation.version == before.version + 1
    && event == EventOf(operation, before.state, event.reason, event.id)
  }

  /** When a commit may happen, and which of its parts are forced. */
  ghost predicate Enabled(s: Store, c: Commit) {
    match c
    case NoCommit => true
    case Created(operation, job) =>
      && operation.state.PENDING? && operation.version == 1
      && job.org == operation.org && job.operationId == operation.id
      && job.state.QUEUED? && job.attempt == 0 && job.lease.None? && job.resultKey.None?
    case Begun(key, job, operation, event) =>
      && Moves(s, key, job, operation, event)
      && s.operations[(key.0, job.operationId)].state.PENDING? && operation.state.RUNNING?
      && job.state.LEASED? && job.lease.Some? && job.attempt == s.jobs[key].attempt + 1
      && job.resultKey == s.jobs[key].resultKey
      && !s.jobs[key].state.SUCCEEDED? && !s.jobs[key].state.DEAD_LETTERED?
    case Retaken(key, job) =>
      && key in s.jobs && SameIdentity(s.jobs[key], job)
      && (key.0, job.operationId) in s.operations && s.operations[(key.0, job.operationId)].state.RUNNING?
      && !s.jobs[key].state.SUCCEEDED? && !s.jobs[key].state.DEAD_LETTERED?
      && job.state.LEASED? && job.lease.Some?
      && (s.jobs[key].state.LEASED?
        ==> s.jobs[key].lease.Some? && s.jobs[key].lease.value.expiresAt <= job.lease.value.claimedAt)
      && job.attempt == s.jobs[key].attempt + 1
      && job.resultKey == s.jobs[key].resultKey
    case Prolonged(key, job, at) =>
      && key in s.jobs && SameIdentity(s.jobs[key], job)
      && s.jobs[key].state.LEASED? && s.jobs[key].lease.Some? && at < s.jobs[key].lease.value.expiresAt
      && job.state.LEASED? && job.lease.Some? && job.attempt == s.jobs[key].attempt
      && job.lease.value.token == s.jobs[key].lease.value.token
      && job.resultKey == s.jobs[key].resultKey
    case PutOff(key, job) =>
      && key in s.jobs && SameIdentity(s.jobs[key], job)
      && s.jobs[key].state.LEASED? && s.jobs[key].attempt < MAX_ATTEMPTS
      && job.state.RETRY_WAIT? && job.lease.None? && job.attempt == s.jobs[key].attempt
      && job.resultKey == s.jobs[key].resultKey
    case Closed(key, job, operation, event, result) =>
      && Moves(s, key, job, operation, event)
      && s.operations[(key.0, job.operationId)].state.RUNNING?
      && s.jobs[key].state.LEASED? && job.lease.None? && job.attempt == s.jobs[key].attempt
      && (match result
          case None => job.state.DEAD_LETTERED? && operation.state.FAILED? && job.resultKey == s.jobs[key].resultKey
          case Some(revision) =>
            && job.state.SUCCEEDED? && operation.state.SUCCEEDED? && job.resultKey == Some(revision.key)
            && (if BindingOf(job) in s.bindings
                then s.bindings[BindingOf(job)] in s.profiles && revision == s.profiles[s.bindings[BindingOf(job)]]
                else revision.key.binding == BindingOf(job) && revision.org == job.org && revision.spec == job.spec
                     && revision.key.profileDigest == Sha256(revision.profile)))
    case Delivered(e, isNew, receipt) =>
      && IsNextEvent(s, e)
      && (isNew ==> (e.tenant, e.id) !in s.inbox && e.sequence > LastSequence(s, e.tenant, e.subject))
      && (!isNew ==> (e.tenant, e.id) in s.inbox && s.inbox[(e.tenant, e.id)] == e)
  }

  /** The commits that replace one existing job. */
  predicate Rewrites(c: Commit) { c.Begun? || c.Retaken? || c.Prolonged? || c.PutOff? || c.Closed? }

  predicate Terminal(job: Job) { job.state.SUCCEEDED? || job.state.DEAD_LETTERED? }

  /** How one job may change: claimed once more, or, while leased, kept, put off or ended. */
  predicate JobStep(before: Job, after: Job) {
    && !Terminal(before) && SameIdentity(before, after)
    && (|| (after.state.LEASED? && after.attempt == before.attempt + 1)
        || (before.state.LEASED? && after.attempt == before.attempt
            && (after.state.LEASED? || (after.state.RETRY_WAIT? && before.attempt < MAX_ATTEMPTS) || Terminal(after))))
  }

  lemma RewritesOneJob(s: Store, c: Commit)
    requires Enabled(s, c) && Rewrites(c)
    ensures c.key in s.jobs && JobStep(s.jobs[c.key], c.job)
  {
  }

  lemma JobsAfter(s: Store, c: Commit)
    ensures After(s, c).jobs == (if c.Created? then s.jobs[(c.job.org, c.job.id) := c.job]
                                 else if Rewrites(c) then s.jobs[c.key := c.job] else s.jobs)
  {
  }

  /** The identifiers a commit introduces. */
  function Introduced(c: Commit): set<Id> {
    match c
    case Created(operation, job) => {operation.id, job.id}
    case Begun(_, job, _, event) => (if job.lease.Some? then {job.lease.value.token} else {}) + {event.id}
    case Retaken(_, job) => if job.lease.Some? then {job.lease.value.token} else {}
    case Closed(_, _, _, event, _) => {event.id}
    case _ => {}
  }

  // ---------- calls as steps ----------

  datatype Step =
    | CreateStep(org: string, spec: JobSpec, keyDigest: string, now: int, operationId: Id, newJobId: Id)
    | ClaimStep(org: string, worker: string, now: int, leaseSeconds: int, newToken: Id, eventId: Id)
    | ExtendStep(org: string, jobId: Id, worker: string, token: Id, now: int, leaseSeconds: int)
    | RetryStep(org: string, jobId: Id, worker: string, token: Id, now: int, reason: string, eventId: Id)
    | FailStep(org: string, jobId: Id, worker: string, token: Id, now: int, reason: string, retryable: bool,
      eventId: Id)
    | SucceedStep(org: string, jobId: Id, worker: string, token: Id, now: int, outputs: Outputs, eventId: Id)
    | DeliverStep(source: string, allowed: set<string>, crash: bool)
    | ArmStep(failpoint: string)

  /** The contents a call leaves behind, whether it returns or raises. */
  ghost function Perform(s: Store, step: Step): Store {
    match step
    case CreateStep(org, spec, keyDigest, now, operationId, jobId) =>
      CreateJob(s, org, spec, keyDigest, now, operationId, jobId).store
    case ClaimStep(org, worker, now, leaseSeconds, token, eventId) =>
      Claim(s, org, worker, now, leaseSeconds, token, eventId).store
    case ExtendStep(org, jobId, worker, token, now, leaseSeconds) =>
      Extend(s, org, jobId, worker, token, now, leaseSeconds).store
    case RetryStep(org, jobId, worker, token, now, reason, eventId) =>
      Retry(s, org, jobId, worker, token, now, reason, eventId).store
    case FailStep(org, jobId, worker, token, now, reason, retryable, eventId) =>
      Fail(s, org, jobId, worker, token, now, reason, retryable, eventId).store
    case SucceedStep(org, jobId, worker, token, now, outputs, eventId) =>
      Succeed(s, org, jobId, worker, token, now, outputs, eventId).store
    case DeliverStep(source, allowed, crash) =>
      DeliverNext(s, source, allowed, crash).store
    case ArmStep(name) => s.(failpoints := s.failpoints + {name})
  }

  /** The identifiers a call draws. */
  function Drawn(step: Step): set<Id> {
    match step
    case CreateStep(_, _, _, _, operationId, jobId) => {operationId, jobId}
    case ClaimStep(_, _, _, _, token, eventId) => {token, eventId}
    case RetryStep(_, _, _, _, _, _, eventId) => {eventId}
    case FailStep(_, _, _, _, _, _, _, eventId) => {eventId}
    case SucceedStep(_, _, _, _, _, _, eventId) => {eventId}
    case _ => {}
  }

  /** Rows are filed under their own organization and identifier, and operation identifiers are unique. */
  ghost predicate Keyed(jobs: map<(string, Id), Job>, operations: map<(string, Id), Operation>) {
    && (forall k | k in jobs :: k == (jobs[k].org, jobs[k].id))
    && (forall k | k in operations :: k == (operations[k].org, operations[k].id))
    && (forall k, l | k in operations && l in operations :: k.1 == l.1 ==> k == l)
  }

  /** `c` accounts for everything a step did except arming or disarming a failpoint. */
  ghost predicate Explains(s: Store, s': Store, c: Commit) {
    Enabled(s, c) && s' == After(s, c).(failpoints := s'.failpoints)
  }

  ghost function CreateCommit(org: string, spec: JobSpec, now: int, operationId: Id, jobId: Id): Commit {
    Created(Operation(operationId, org, PENDING, 1, now, now, [], None, None),
            Job(jobId, org, operationId, spec, QUEUED, 0, now, now, None, None, None))
  }

  ghost function ExtendCommit(s: Store, org: string, jobId: Id, now: int, leaseSeconds: int): Commit {
    if (org, jobId) in s.jobs && s.jobs[(org, jobId)].lease.Some? then
      var job := s.jobs[(org, jobId)];
      Prolonged((org, jobId), job.(lease := Some(job.lease.value.(expiresAt := now + leaseSeconds))), now)
    else NoCommit
  }

  ghost function FailCommit(
    s: Store, org: string, jobId: Id, now: int, reason: string, retryable: bool, eventId: Id): Commit
    requires (org, jobId) in s.jobs && (org, s.jobs[(org, jobId)].operationId) in s.operations
  {
    var current := s.jobs[(org, jobId)];
    var operation := s.operations[(org, current.operationId)];
    var failed := Finished(operation, FAILED, now, operation.resultRefs, Some(reason), Some(retryable));
    Closed((org, jobId), Ended(current, DEAD_LETTERED, Some(reason), current.resultKey), failed,
           EventOf(failed, RUNNING, reason, eventId), None)
  }

  ghost function PutOffCommit(s: Store, org: string, jobId: Id, availableAt: int, reason: string): Commit
    requires (org, jobId) in s.jobs
  {
    PutOff((org, jobId),
      s.jobs[(org, jobId)].(state := RETRY_WAIT, availableAt := availableAt, lease := None,
        failureReason := Some(reason)))
  }

  ghost function RetryIntended(s: Store, org: string, jobId: Id, now: int, reason: string, eventId: Id): Commit {
    if (org, jobId) !in s.jobs then NoCommit else
    var job := s.jobs[(org, jobId)];
    if job.attempt < MAX_ATTEMPTS then PutOffCommit(s, org, jobId, now + DelayAfter(job.attempt), reason)
    else if (org, job.operationId) in s.operations then
      FailCommit(s, org, jobId, now, "RETRY_EXHAUSTED", false, eventId)
    else NoCommit
  }

  ghost function SucceedCommit(s: Store, org: string, jobId: Id, now: int, outputs: Outputs, eventId: Id): Commit
    requires CanSucceed(s, org, jobId, now, outputs)
  {
    var current := s.jobs[(org, jobId)];
    var operation := s.operations[(org, current.operationId)];
    var profileId := ValidateOutputs(outputs).value;
    var revision := RevisionFor(s, current, outputs, profileId, now).value;
    var completed :=
      Finished(operation, OperationState.SUCCEEDED, now, [Reference(profileId, Sha256(outputs.profile))], None, None);
    Closed((org, jobId), Ended(current, JobState.SUCCEEDED, None, Some(revision.key)), completed,
           EventOf(completed, RUNNING, "COMPILATION_SUCCEEDED", eventId), Some(revision))
  }

  ghost function ClaimCommit(
    s: Store, org: string, worker: string, now: int, leaseSeconds: int, token: Id, eventId: Id): Commit
  {
    match NextJob(s.jobs, org, now)
    case None => NoCommit
    case Some(key) =>
      var changed := Claimed(s.jobs[key], worker, now, leaseSeconds, token);
      if (org, changed.operationId) !in s.operations then NoCommit else
      var operation := s.operations[(org, changed.operationId)];
      if operation.state.PENDING? then
        Begun(key, changed, Started(operation, now),
          EventOf(Started(operation, now), PENDING, "COMPILATION_STARTED", eventId))
      else Retaken(key, changed)
  }

  ghost function DeliverCommit(s: Store, crash: bool): Commit {
    match NextEvent(s)
    case None => NoCommit
    case Some(e) => Delivered(e, (e.tenant, e.id) !in s.inbox, !crash && "delivery.before_receipt" !in s.failpoints)
  }

  /** The commit of a call that goes through. */
  ghost function Intended(s: Store, step: Step): Commit {
    match step
    case CreateStep(org, spec, _, now, operationId, jobId) =>
      CreateCommit(org, spec, now, operationId, jobId)
    case ClaimStep(org, worker, now, leaseSeconds, token, eventId) =>
      ClaimCommit(s, org, worker, now, leaseSeconds, token, eventId)
    case ExtendStep(org, jobId, _, _, now, leaseSeconds) =>
      ExtendCommit(s, org, jobId, now, leaseSeconds)
    case RetryStep(org, jobId, _, _, now, reason, eventId) =>
      RetryIntended(s, org, jobId, now, reason, eventId)
    case FailStep(org, jobId, _, _, now, reason, retryable, eventId) =>
      if (org, jobId) in s.jobs && (org, s.jobs[(org, jobId)].operationId) in s.operations then
        FailCommit(s, org, jobId, now, reason, retryable, eventId)
      else NoCommit
    case SucceedStep(org, jobId, _, _, now, outputs, eventId) =>
      if CanSucceed(s, org, jobId, now, outputs) then SucceedCommit(s, org, jobId, now, outputs, eventId) else NoCommit
    case DeliverStep(_, _, crash) => DeliverCommit(s, crash)
    case ArmStep(_) => NoCommit
  }

  /** The commit a step makes: the intended one, or none. */
  ghost function CommitOf(s: Store, step: Step): Commit {
    if Explains(s, Perform(s, step), Intended(s, step)) then Intended(s, step) else NoCommit
  }

  lemma ClaimExplained(s: Store, org: string, worker: string, now: int, leaseSeconds: int, token: Id, eventId: Id)
    requires Keyed(s.jobs, s.operations)
    ensures var t := Claim(s, org, worker, now, leaseSeconds, token, eventId).store;
            Explains(s, t, ClaimCommit(s, org, worker, now, leaseSeconds, token, eventId)) || Explains(s, t, NoCommit)
  {
    var t := Claim(s, org, worker, now, leaseSeconds, token, eventId).store;
    var key := NextJob(s.jobs, org, now);
    if key.Some? {
      var current := s.jobs[key.value];
      assert key.value == (org, current.id);
    }
  }

  lemma FailExplained(
    s: Store, org: string, jobId: Id, worker: string, token: Id, now: int, reason: string, retryable: bool, eventId: Id)
    requires Keyed(s.jobs, s.operations)
    ensures var t := Fail(s, org, jobId, worker, token, now, reason, retryable, eventId).store;
            || Explains(s, t, NoCommit)
            || ((org, jobId) in s.jobs && (org, s.jobs[(org, jobId)].operationId) in s.operations
                && Explains(s, t, FailCommit(s, org, jobId, now, reason, retryable, eventId)))
  {
  }

  lemma RetryCommitExplained(s: Store, org: string, jobId: Id, delay: int, now: int, reason: string)
    requires (org, jobId) in s.jobs
    requires var job := s.jobs[(org, jobId)]; job.state.LEASED? && job.attempt < MAX_ATTEMPTS
    ensures var job := s.jobs[(org, jobId)];
            var t := RetryCommit(s, org, jobId, job, now, delay, reason).store;
            Explains(s, t, NoCommit) || Explains(s, t, PutOffCommit(s, org, jobId, now + delay, reason))
  {
  }

  lemma RetryExplained(
    s: Store, org: string, jobId: Id, worker: string, token: Id, now: int, reason: string, eventId: Id)
    requires Keyed(s.jobs, s.operations)
    ensures var t := Retry(s, org, jobId, worker, token, now, reason, eventId).store;
            Explains(s, t, NoCommit) || Explains(s, t, RetryIntended(s, org, jobId, now, reason, eventId))
  {
    FailExplained(s, org, jobId, worker, token, now, "RETRY_EXHAUSTED", false, eventId);
    if Leased(s, org, jobId, worker, token, now).Ok? && s.jobs[(org, jobId)].attempt < MAX_ATTEMPTS {
      RetryCommitExplained(s, org, jobId, DelayAfter(s.jobs[(org, jobId)].attempt), now, reason);
    }
  }

  ghost predicate CanSucceed(s: Store, org: string, jobId: Id, now: int, outputs: Outputs) {
    && (org, jobId) in s.jobs && (org, s.jobs[(org, jobId)].operationId) in s.operations
    && ValidateOutputs(outputs).Ok?
    && RevisionFor(s, s.jobs[(org, jobId)], outputs, ValidateOutputs(outputs).value, now).Ok?
  }

  lemma SucceedEnabled(s: Store, org: string, jobId: Id, now: int, outputs: Outputs, eventId: Id)
    requires Keyed(s.jobs, s.operations) && CanSucceed(s, org, jobId, now, outputs)
    requires s.jobs[(org, jobId)].state.LEASED? && s.operations[(org, s.jobs[(org, jobId)].operationId)].state.RUNNING?
    ensures Enabled(s, SucceedCommit(s, org, jobId, now, outputs, eventId))
  {
  }

  lemma SucceedExplained(
    s: Store, org: string, jobId: Id, worker: string, token: Id, now: int, outputs: Outputs, eventId: Id)
    requires Keyed(s.jobs, s.operations)
    ensures var t := Succeed(s, org, jobId, worker, token, now, outputs, eventId).store;
            || Explains(s, t, NoCommit)
            || (CanSucceed(s, org, jobId, now, outputs)
              && Explains(s, t, SucceedCommit(s, org, jobId, now, outputs, eventId)))
  {
    var t := Succeed(s, org, jobId, worker, token, now, outputs, eventId).store;
    if t == s || t == Disarm(s, "result.before_commit") {
      assert Explains(s, t, NoCommit);
    } else {
      SucceedEnabled(s, org, jobId, now, outputs, eventId);
      assert t == After(s, SucceedCommit(s, org, jobId, now, outputs, eventId));
    }
  }

  lemma AcceptEventCases(s: Store, source: string, allowed: set<string>, e: Event)
    ensures var out := AcceptEvent(s, source, allowed, e);
      && (out.Raised? ==> out.store == s.(failpoints := out.store.failpoints))
      && (out.Returned? ==>
            out.value == ((e.tenant, e.id) !in s.inbox)
            && out.store == (if out.value then Take(s, e) else s)
            && (if out.value then e.sequence > LastSequence(s, e.tenant, e.subject)
              else s.inbox[(e.tenant, e.id)] == e))
  {
  }

  lemma DeliverExplained(s: Store, source: string, allowed: set<string>, crash: bool)
    ensures var t := DeliverNext(s, source, allowed, crash).store;
            Explains(s, t, DeliverCommit(s, crash)) || Explains(s, t, NoCommit)
  {
    var next := NextEvent(s);
    if next.Some? {
      var e := next.value;
      AcceptEventCases(s, source, allowed, e);
      var out := AcceptEvent(s, source, allowed, e);
      if out.Returned? {
        var c := DeliverCommit(s, crash);
        assert Enabled(s, c);
        assert out.store.failpoints == s.failpoints;
      }
    }
  }

  lemma CreateExplained(s: Store, org: string, spec: JobSpec, keyDigest: string, now: int, operationId: Id, jobId: Id)
    ensures var t := CreateJob(s, org, spec, keyDigest, now, operationId, jobId).store;
            Explains(s, t, NoCommit) || Explains(s, t, CreateCommit(org, spec, now, operationId, jobId))
  {
  }

  lemma ExtendExplained(s: Store, org: string, jobId: Id, worker: string, token: Id, now: int, leaseSeconds: int)
    ensures var t := Extend(s, org, jobId, worker, token, now, leaseSeconds).store;
            Explains(s, t, NoCommit) || Explains(s, t, ExtendCommit(s, org, jobId, now, leaseSeconds))
  {
  }

  lemma StepExplained(s: Store, step: Step)
    requires Keyed(s.jobs, s.operations)
    ensures Explains(s, Perform(s, step), Intended(s, step)) || Explains(s, Perform(s, step), NoCommit)
  {
    match step
    case CreateStep(org, spec, keyDigest, now, operationId, jobId) =>
      CreateExplained(s, org, spec, keyDigest, now, operationId, jobId);
    case ClaimStep(org, worker, now, leaseSeconds, token, eventId) =>
      ClaimExplained(s, org, worker, now, leaseSeconds, token, eventId);
    case ExtendStep(org, jobId, worker, token, now, leaseSeconds) =>
      ExtendExplained(s, org, jobId, worker, token, now, leaseSeconds);
    case RetryStep(org, jobId, worker, token, now, reason, eventId) =>
      RetryExplained(s, org, jobId, worker, token, now, reason, eventId);
    case FailStep(org, jobId, worker, token, now, reason, retryable, eventId) =>
      FailExplained(s, org, jobId, worker, token, now, reason, retryable, eventId);
    case SucceedStep(org, jobId, worker, token, now, outputs, eventId) =>
      SucceedExplained(s, org, jobId, worker, token, now, outputs, eventId);
    case DeliverStep(source, allowed, crash) => DeliverExplained(s, source, allowed, crash);
    case ArmStep(_) =>
  }

  lemma IntroducedIsDrawn(s: Store, step: Step)
    ensures Introduced(Intended(s, step)) <= Drawn(step)
  {
  }

  /** Whatever a step is given, its effect is one commit or none. */
  lemma EveryStepIsOneCommit(s: Store, step: Step)
    requires Keyed(s.jobs, s.operations)
    ensures Explains(s, Perform(s, step), CommitOf(s, step))
    ensures Introduced(CommitOf(s, step)) <= Drawn(step)
  {
    StepExplained(s, step);
    IntroducedIsDrawn(s, step);
  }
}
