/**
 The compilation store and its worker, as objects updated in place. Every method is proved to do
 exactly what the corresponding function of QueueModel says, so that what is proved about runs of
 those functions holds of calls of these methods.
 */
module QueueStore {
  import opened Basics
  import opened QueueModel
  import opened QueueCommits
  import opened QueueInvariant

  /** A call that ended with `r` and left the contents `s` did what `out` says. */
  ghost predicate Agrees<T>(out: Outcome<T>, s: Store, r: Result<T, Refusal>) {
    match r
    case Ok(value) => out == Returned(s, value)
    case Err(refusal) => out == Raised(s, refusal)
  }

  lemma NextJobIs(jobs: map<(string, Id), Job>, org: string, now: int, key: (string, Id))
    requires IsNext(jobs, org, now, key)
    ensures NextJob(jobs, org, now) == Some(key)
  {
    var other := NextJob(jobs, org, now).value;
    assert IsNext(jobs, org, now, other);
  }

  lemma NoNextJob(jobs: map<(string, Id), Job>, org: string, now: int)
    requires forall k | k in jobs :: !Eligible(jobs, org, now, k)
    ensures NextJob(jobs, org, now) == None
  {
  }

  lemma NextEventIs(s: Store, e: Event)
    requires IsNextEvent(s, e)
    ensures NextEvent(s) == Some(e)
  {
    var other := NextEvent(s).value;
    assert IsNextEvent(s, other);
  }

  class CompilationStore {
    var operations: map<(string, Id), Operation>
    var jobs: map<(string, Id), Job>
    var profiles: map<ResultKey, Revision>
    var bindings: map<Binding, ResultKey>
    var outbox: seq<Event>
    var audit: seq<AuditEntry>
    var inbox: map<(string, Id), Event>
    var sequences: map<(string, Id), int>
    var receipts: set<Id>
    var failpoints: set<string>

    ghost function View(): Store
      reads this
    {
      Store(operations, jobs, profiles, bindings, outbox, audit, inbox, sequences, receipts, failpoints)
    }

    constructor ()
      ensures View() == EMPTY_STORE
    {
      operations, jobs, profiles, bindings := map[], map[], map[], map[];
      outbox, audit, inbox, sequences, receipts, failpoints := [], [], map[], map[], {}, {};
    }

    method InjectFailure(name: string)
      modifies this`failpoints
      ensures View() == old(View()).(failpoints := old(failpoints) + {name})
    {
      failpoints := failpoints + {name};
    }

    /** Disarms the failpoint if it is armed. */
    method Tripped(name: string) returns (tripped: bool)
      modifies this`failpoints
      ensures tripped == (name in old(failpoints))
      ensures View() == if tripped then Disarm(old(View()), name) else old(View())
    {
      tripped := name in failpoints;
      if tripped {
        failpoints := failpoints - {name};
      }
    }

    method Create(org: string, spec: JobSpec, keyDigest: string, now: int, operationId: Id, jobId: Id)
      returns (r: Result<(Operation, Job), Refusal>)
      modifies this
      ensures Agrees(CreateJob(old(View()), org, spec, keyDigest, now, operationId, jobId), View(), r)
    {
      if !(IsSha256(spec.demandDigest) && IsSha256(spec.inputDigest) && IsSha256(spec.catalogDigest)
           && IsSha256(spec.wheelDigest) && IsSha256(keyDigest)) {
        return Err(DIGEST_REFUSED);
      }
      var operation := Operation(operationId, org, PENDING, 1, now, now, [], None, None);
      var job := Job(jobId, org, operationId, spec, QUEUED, 0, now, now, None, None, None);
      var tripped := Tripped("create.before_commit");
      if tripped {
        return Err(INJECTED_ATOMIC_FAILURE);
      }
      operations := operations[(org, operationId) := operation];
      jobs := jobs[(org, jobId) := job];
      audit := audit + [CompilationRequested(operationId)];
      return Ok((operation, job));
    }

    /** The claimable job of the organization that is served first. */
    method SelectJob(org: string, now: int) returns (best: Option<(string, Id)>)
      requires Keyed(jobs, operations)
      ensures best == NextJob(jobs, org, now)
    {
      best := None;
      var remaining := jobs.Keys;
      while remaining != {}
        invariant remaining <= jobs.Keys
        invariant best.None? ==> forall k | k in jobs && k !in remaining :: !Eligible(jobs, org, now, k)
        invariant best.Some? ==> Eligible(jobs, org, now, best.value) && best.value !in remaining
        invariant best.Some?
          ==> forall k | k in jobs && k !in remaining && k != best.value && Eligible(jobs, org, now, k) ::
          ServedBefore(jobs[best.value], jobs[k])
        decreases |remaining|
      {
        var key :| key in remaining;
        remaining := remaining - {key};
        if key.0 == org && Claimable(jobs[key], now) {
          if best.None? || ServedBefore(jobs[key], jobs[best.value]) {
            best := Some(key);
          }
        }
      }
      if best.Some? {
        assert IsNext(jobs, org, now, best.value);
        NextJobIs(jobs, org, now, best.value);
      } else {
        NoNextJob(jobs, org, now);
      }
    }

    method Claim(org: string, worker: string, now: int, leaseSeconds: int, token: Id, eventId: Id)
      returns (r: Result<Option<Job>, Refusal>)
      requires Keyed(jobs, operations)
      modifies this
      ensures Agrees(QueueModel.Claim(old(View()), org, worker, now, leaseSeconds, token, eventId), View(), r)
    {
      var next := SelectJob(org, now);
      if next.None? {
        return Ok(None);
      }
      var current := jobs[next.value];
      var changed := Claimed(current, worker, now, leaseSeconds, token);
      var operationKey := (org, current.operationId);
      if operationKey !in operations {
        return Err(KEY_ERROR);
      }
      var operation := operations[operationKey];
      var changedOperation := operation;
      var announced := false;
      if operation.state.PENDING? {
        changedOperation := Started(operation, now);
        announced := true;
      } else if !operation.state.RUNNING? {
        return Err(OPERATION_TERMINAL);
      }
      var tripped := Tripped("claim.before_commit");
      if tripped {
        return Err(INJECTED_ATOMIC_FAILURE);
      }
      jobs := jobs[(org, current.id) := changed];
      operations := operations[(org, operation.id) := changedOperation];
      if announced {
        outbox := outbox + [EventOf(changedOperation, PENDING, "COMPILATION_STARTED", eventId)];
        audit := audit + [OperationChanged(operation.id)];
      }
      return Ok(Some(changed));
    }

    /** The job, if this worker holds it under this token at this time. */
    method Fenced(org: string, jobId: Id, worker: string, token: Id, now: int) returns (r: Result<Job, Refusal>)
      ensures r == Leased(View(), org, jobId, worker, token, now)
    {
      if (org, jobId) !in jobs {
        return Err(JOB_NOT_FOUND);
      }
      var current := jobs[(org, jobId)];
      if !current.state.LEASED? || current.lease.None? || current.lease.value.owner != worker
        || current.lease.value.token != token || current.lease.value.expiresAt <= now
      {
        return Err(LEASE_FENCE_REFUSED);
      }
      return Ok(current);
    }

    method Extend(org: string, jobId: Id, worker: string, token: Id, now: int, leaseSeconds: int)
      returns (r: Result<Job, Refusal>)
      modifies this
      ensures Agrees(QueueModel.Extend(old(View()), org, jobId, worker, token, now, leaseSeconds), View(), r)
    {
      var fenced := Fenced(org, jobId, worker, token, now);
      if fenced.Err? {
        return Err(fenced.error);
      }
      var lease := fenced.value.lease.value;
      var changed := fenced.value.(lease := Some(lease.(expiresAt := now + leaseSeconds)));
      var tripped := Tripped("lease.before_commit");
      if tripped {
        return Err(INJECTED_ATOMIC_FAILURE);
      }
      jobs := jobs[(org, jobId) := changed];
      return Ok(changed);
    }

    method Retry(org: string, jobId: Id, worker: string, token: Id, now: int, reason: string, eventId: Id)
      returns (r: Result<Job, Refusal>)
      modifies this
      ensures Agrees(QueueModel.Retry(old(View()), org, jobId, worker, token, now, reason, eventId), View(), r)
    {
      var fenced := Fenced(org, jobId, worker, token, now);
      if fenced.Err? {
        return Err(fenced.error);
      }
      var current := fenced.value;
      if !IsReason(reason) {
        return Err(REASON_CODE_REFUSED);
      }
      if current.attempt >= MAX_ATTEMPTS {
        var failed := Fail(org, jobId, worker, token, now, "RETRY_EXHAUSTED", false, eventId);
        if failed.Err? {
          return Err(failed.error);
        }
        return Ok(jobs[(org, jobId)]);
      }
      var delay := DelayAfter(current.attempt);
      var changed := current.(state := RETRY_WAIT, availableAt := now + delay, lease := None,
        failureReason := Some(reason));
      var tripped := Tripped("retry.before_commit");
      if tripped {
        return Err(INJECTED_ATOMIC_FAILURE);
      }
      jobs := jobs[(org, jobId) := changed];
      return Ok(changed);
    }

    method Fail(
      org: string, jobId: Id, worker: string, token: Id, now: int, reason: string, retryable: bool, eventId: Id)
      returns (r: Result<Operation, Refusal>)
      modifies this
      ensures Agrees(QueueModel.Fail(old(View()), org, jobId, worker, token, now, reason, retryable, eventId), View(),
        r)
      ensures r.Ok? ==> (org, jobId) in jobs
    {
      var fenced := Fenced(org, jobId, worker, token, now);
      if fenced.Err? {
        return Err(fenced.error);
      }
      var current := fenced.value;
      if !IsReason(reason) {
        return Err(REASON_CODE_REFUSED);
      }
      if (org, current.operationId) !in operations {
        return Err(KEY_ERROR);
      }
      var operation := operations[(org, current.operationId)];
      if !operation.state.RUNNING? {
        return Err(OPERATION_TERMINAL);
      }
      var failedJob := Ended(current, DEAD_LETTERED, Some(reason), current.resultKey);
      var failed := Finished(operation, FAILED, now, operation.resultRefs, Some(reason), Some(retryable));
      var tripped := Tripped("failure.before_commit");
      if tripped {
        return Err(INJECTED_ATOMIC_FAILURE);
      }
      jobs := jobs[(org, jobId) := failedJob];
      operations := operations[(org, operation.id) := failed];
      outbox := outbox + [EventOf(failed, RUNNING, reason, eventId)];
      audit := audit + [OperationChanged(operation.id)];
      return Ok(failed);
    }

    /** The stored revision of the job's binding, or a new one. */
    method Resolve(job: Job, outputs: Outputs, profileId: string, now: int) returns (r: Result<Revision, Refusal>)
      ensures r == RevisionFor(View(), job, outputs, profileId, now)
    {
      var binding := BindingOf(job);
      if binding !in bindings {
        return Ok(Revision(ResultKey(binding, Sha256(outputs.profile)), job.org, profileId, job.spec, outputs.profile,
          now));
      }
      if bindings[binding] !in profiles {
        return Err(KEY_ERROR);
      }
      return Ok(profiles[bindings[binding]]);
    }

    /** The writes of a success, or none of them. */
    method RecordSuccess(org: string, jobId: Id, current: Job, completed: Operation, revision: Revision, eventId: Id)
      returns (r: Result<Revision, Refusal>)
      modifies this
      ensures var s := old(View());
        if "result.before_commit" in s.failpoints
        then r == Err(INJECTED_ATOMIC_FAILURE) && View() == Disarm(s, "result.before_commit")
        else
          var recorded := s.(
            profiles := s.profiles[revision.key := revision],
            bindings := s.bindings[BindingOf(current) := revision.key],
            audit := s.audit + [ProfileProposed(revision.profileId)]);
          r == Ok(revision) && View() == Transition(
            recorded, (org, jobId), Ended(current, JobState.SUCCEEDED, None, Some(revision.key)), completed,
            EventOf(completed, RUNNING, "COMPILATION_SUCCEEDED", eventId))
    {
      var tripped := Tripped("result.before_commit");
      if tripped {
        return Err(INJECTED_ATOMIC_FAILURE);
      }
      profiles := profiles[revision.key := revision];
      bindings := bindings[BindingOf(current) := revision.key];
      jobs := jobs[(org, jobId) := Ended(current, JobState.SUCCEEDED, None, Some(revision.key))];
      operations := operations[(org, completed.id) := completed];
      outbox := outbox + [EventOf(completed, RUNNING, "COMPILATION_SUCCEEDED", eventId)];
      audit := audit + [ProfileProposed(revision.profileId)] + [OperationChanged(completed.id)];
      return Ok(revision);
    }

    method Succeed(org: string, jobId: Id, worker: string, token: Id, now: int, outputs: Outputs, eventId: Id)
      returns (r: Result<Revision, Refusal>)
      modifies this
      ensures Agrees(QueueModel.Succeed(old(View()), org, jobId, worker, token, now, outputs, eventId), View(), r)
    {
      if (org, jobId) in jobs {
        var existing := jobs[(org, jobId)];
        if existing.state.SUCCEEDED? && existing.resultKey.Some? {
          if existing.resultKey.value !in profiles {
            return Err(KEY_ERROR);
          }
          return Ok(profiles[existing.resultKey.value]);
        }
      }
      var fenced := Fenced(org, jobId, worker, token, now);
      if fenced.Err? {
        return Err(fenced.error);
      }
      var current := fenced.value;
      var validated := ValidateOutputs(outputs);
      if validated.Err? {
        return Err(validated.error);
      }
      var profileId := validated.value;
      var resolved := Resolve(current, outputs, profileId, now);
      if resolved.Err? {
        return Err(resolved.error);
      }
      var revision := resolved.value;
      if (org, current.operationId) !in operations {
        return Err(KEY_ERROR);
      }
      var operation := operations[(org, current.operationId)];
      if !operation.state.RUNNING? {
        return Err(OPERATION_TERMINAL);
      }
      var reference := Reference(profileId, Sha256(outputs.profile));
      r := RecordSuccess(org, jobId, current,
        Finished(operation, OperationState.SUCCEEDED, now, [reference], None, None), revision, eventId);
    }

    method AcceptEvent(source: string, allowed: set<string>, e: Event) returns (r: Result<bool, Refusal>)
      modifies this
      ensures Agrees(QueueModel.AcceptEvent(old(View()), source, allowed, e), View(), r)
    {
      if source !in allowed {
        return Err(EVENT_SOURCE_REFUSED);
      }
      if e.partitionKey != e.tenant {
        return Err(EVENT_PARTITION_REFUSED);
      }
      if (e.tenant, e.id) in inbox {
        if inbox[(e.tenant, e.id)] != e {
          return Err(EVENT_ID_CONFLICT);
        }
        return Ok(false);
      }
      var last := if (e.tenant, e.subject) in sequences then sequences[(e.tenant, e.subject)] else 0;
      if e.sequence <= last {
        return Err(EVENT_SEQUENCE_REFUSED);
      }
      var tripped := Tripped("inbox.before_commit");
      if tripped {
        return Err(INJECTED_ATOMIC_FAILURE);
      }
      inbox := inbox[(e.tenant, e.id) := e];
      sequences := sequences[(e.tenant, e.subject) := e.sequence];
      audit := audit + [EventAccepted(e.id)];
      return Ok(true);
    }

    /** The event without a receipt that is published first. */
    method SelectEvent() returns (best: Option<Event>)
      requires DistinctIds(outbox)
      ensures best == NextEvent(View())
    {
      best := None;
      for i := 0 to |outbox|
        invariant best.None? ==> forall j | 0 <= j < i :: outbox[j].id in receipts
        invariant best.Some? ==> best.value in outbox && best.value.id !in receipts
        invariant best.Some? ==> forall j | 0 <= j < i && outbox[j].id !in receipts ::
          outbox[j] == best.value || PublishedBefore(best.value, outbox[j])
        invariant best.Some? ==> exists j :: 0 <= j < i && outbox[j] == best.value
      {
        var e := outbox[i];
        if e.id !in receipts && (best.None? || PublishedBefore(e, best.value)) {
          best := Some(e);
        }
      }
      if best.Some? {
        assert IsNextEvent(View(), best.value);
        NextEventIs(View(), best.value);
      }
    }

    /** Publishes one event to this store's own inbox. */
    method DeliverNext(source: string, allowed: set<string>, crash: bool) returns (r: Result<Option<Id>, Refusal>)
      requires DistinctIds(outbox)
      modifies this
      ensures Agrees(QueueModel.DeliverNext(old(View()), source, allowed, crash), View(), r)
    {
      var next := SelectEvent();
      if next.None? {
        return Ok(None);
      }
      var sent := AcceptEvent(source, allowed, next.value);
      if sent.Err? {
        return Err(sent.error);
      }
      if crash {
        return Err(INJECTED_AFTER_DELIVERY);
      }
      var tripped := Tripped("delivery.before_receipt");
      if tripped {
        return Err(INJECTED_ATOMIC_FAILURE);
      }
      receipts := receipts + {next.value.id};
      audit := audit + [OutboxPublished(next.value.id)];
      return Ok(Some(next.value.id));
    }
  }

  /** The one-shot worker. `wheel` is the digest of its compiler, `answer` what the compiler does with the job it
      claims. */
  class CompilerWorker {
    const store: CompilationStore
    const wheel: string

    constructor (store: CompilationStore, wheel: string)
      ensures this.store == store && this.wheel == wheel
    {
      this.store := store;
      this.wheel := wheel;
    }

    method RunOnce(org: string, worker: string, now: int, answer: Compilation, token: Id, startId: Id, endId: Id)
      returns (r: Result<RunOutcome, Refusal>)
      requires Keyed(store.jobs, store.operations)
      modifies store
      ensures Agrees(QueueModel.RunOnce(old(store.View()), org, worker, now, wheel, answer, token, startId, endId),
        store.View(), r)
    {
      var claimed := store.Claim(org, worker, now, 60, token, startId);
      if claimed.Err? {
        return Err(claimed.error);
      }
      if claimed.value.None? {
        return Ok(IDLE_NO_JOB);
      }
      r := Finish(org, worker, now, answer, token, endId, claimed.value.value);
    }

    method Finish(org: string, worker: string, now: int, answer: Compilation, token: Id, endId: Id, job: Job)
      returns (r: Result<RunOutcome, Refusal>)
      modifies store
      ensures Agrees(Conclude(old(store.View()), org, worker, now, wheel, answer, token, endId, job), store.View(), r)
    {
      if job.spec.wheelDigest != wheel {
        r := DeadLetter(org, job.id, worker, token, now + 1, "COMPILER_WHEEL_MISMATCH", endId);
        return;
      }
      match answer {
        case Refused(reason, true) =>
          var retried := store.Retry(org, job.id, worker, token, now + 1, reason, endId);
          return if retried.Err? then Err(retried.error) else Ok(RAN(retried.value.state));
        case Refused(reason, false) =>
          r := DeadLetter(org, job.id, worker, token, now + 1, reason, endId);
        case Produced(outputs) =>
          var stored := store.Succeed(org, job.id, worker, token, now + 1, outputs, endId);
          if stored.Ok? {
            return Ok(RAN(JobState.SUCCEEDED));
          }
          if !(stored.error.COMPILER_OUTPUT_SET_REFUSED? || stored.error.PROFILE_DIGEST_REFUSED?
            || stored.error.PROFILE_DOCUMENT_REFUSED?) {
            return Err(stored.error);
          }
          r := DeadLetter(org, job.id, worker, token, now + 1, RefusalText(stored.error), endId);
      }
    }

    method DeadLetter(org: string, jobId: Id, worker: string, token: Id, now: int, reason: string, eventId: Id)
      returns (r: Result<RunOutcome, Refusal>)
      modifies store
      ensures Agrees(GiveUp(old(store.View()), org, jobId, worker, token, now, reason, eventId), store.View(), r)
    {
      var failed := store.Fail(org, jobId, worker, token, now, reason, false, eventId);
      return if failed.Err? then Err(failed.error) else Ok(RAN(DEAD_LETTERED));
    }
  }
}
