/** Who is served when: claims go in order of availability, and a job that was put off waits its delay. */
module QueueService {
  import opened Basics
  import opened QueueModel
  import opened QueueCommits
  import opened QueueInvariant
  import opened QueueLeases
  import opened QueueProgress

  /** What a claim that goes through does with the job it takes. */
  lemma ClaimTakesNext(
    s: Store, org: string, worker: string, now: int, leaseSeconds: int, token: Id, eventId: Id, key: (string, Id))
    requires Keyed(s.jobs, s.operations) && NextJob(s.jobs, org, now) == Some(key)
    requires Claim(s, org, worker, now, leaseSeconds, token, eventId).Returned?
    ensures var out := Claim(s, org, worker, now, leaseSeconds, token, eventId);
      var job := Claimed(s.jobs[key], worker, now, leaseSeconds, token);
      out.value == Some(job) && key == (org, job.id) && key in out.store.jobs && out.store.jobs[key] == job
  {
  }

  lemma LeaseRuns(
    s: Store, key: (string, Id), before: Job, worker: string, now: int, leaseSeconds: int, token: Id, at: int)
    requires key in s.jobs && s.jobs[key] == Claimed(before, worker, now, leaseSeconds, token)
    ensures Leased(s, key.0, key.1, worker, token, at).Ok? <==> at < now + leaseSeconds
  {
  }

  /**
   No claimable job of the organization has been available for longer than the one that a claim takes,
   and the worker then holds that job under its token for exactly the length of the lease.
   */
  lemma ClaimServesFirst(
    s: Store, org: string, worker: string, now: int, leaseSeconds: int, token: Id, eventId: Id, k: (string, Id))
    requires Keyed(s.jobs, s.operations) && Eligible(s.jobs, org, now, k)
    requires Claim(s, org, worker, now, leaseSeconds, token, eventId).Returned?
    ensures var out := Claim(s, org, worker, now, leaseSeconds, token, eventId);
      && out.value.Some?
      && var key := (org, out.value.value.id);
         && Eligible(s.jobs, org, now, key) && s.jobs[key].availableAt <= s.jobs[k].availableAt
         && forall at :: Leased(out.store, org, key.1, worker, token, at).Ok? <==> at < now + leaseSeconds
  {
    NextJobExists(s.jobs, org, now);
    var key := NextJob(s.jobs, org, now).value;
    var t := Claim(s, org, worker, now, leaseSeconds, token, eventId).store;
    ClaimTakesNext(s, org, worker, now, leaseSeconds, token, eventId, key);
    forall at ensures Leased(t, org, key.1, worker, token, at).Ok? <==> at < now + leaseSeconds {
      LeaseRuns(t, key, s.jobs[key], worker, now, leaseSeconds, token, at);
    }
  }

  // ---------- backoff ----------

  /** What the job is put off by after its first and after its second attempt. */
  function Backoff(attempt: nat): int { if attempt == 1 then 5 else 30 }

  /** The job is as it was put off. */
  predicate Waits(jobs: map<(string, Id), Job>, key: (string, Id), job: Job) {
    key in jobs && jobs[key] == job && job.state.RETRY_WAIT?
  }

  lemma RetakenIsEligible(s: Store, step: Step, clock: int)
    requires CommitOf(s, step).Retaken?
    ensures Eligible(s.jobs, CommitOf(s, step).key.0, At(step, clock), CommitOf(s, step).key)
  {
    assert step.ClaimStep?;
  }

  lemma CommitLeavesWaiting(s: Store, c: Commit, key: (string, Id), job: Job)
    requires Keyed(s.jobs, s.operations) && Paired(s.jobs, s.operations) && Enabled(s, c) && Waits(s.jobs, key, job)
    requires c.Retaken? ==> c.key != key
    requires c.Created? ==> (c.job.org, c.job.id) != key
    ensures Waits(After(s, c).jobs, key, job)
  {
    JobsAfter(s, c);
    assert InStep(s.jobs[key], s.operations[OperationKey(s.jobs[key])]);
  }

  lemma StepLeavesWaiting(w: World, step: Step, key: (string, Id), job: Job, clock: int)
    requires Invariant(w) && Fresh(w, step) && Waits(w.store.jobs, key, job) && At(step, clock) < job.availableAt
    ensures Waits(Next(w, step).store.jobs, key, job)
  {
    EveryStepIsOneCommit(w.store, step);
    var c := CommitOf(w.store, step);
    if c.Retaken? {
      RetakenIsEligible(w.store, step, clock);
    }
    assert key.1 in w.issued;
    CommitLeavesWaiting(w.store, c, key, job);
  }

  lemma {:induction false} WaitsUntilDue(w: World, steps: seq<Step>, key: (string, Id), job: Job, clock: int)
    requires Invariant(w) && Feasible(w, steps) && Timely(clock, steps) && Clock(clock, steps) < job.availableAt
    requires Waits(w.store.jobs, key, job)
    ensures Waits(Run(w, steps).store.jobs, key, job)
    decreases |steps|
  {
    if steps != [] {
      ClockGoesOn(At(steps[0], clock), steps[1..]);
      StepLeavesWaiting(w, steps[0], key, job, clock);
      StepKeepsInvariant(w, steps[0]);
      WaitsUntilDue(Next(w, steps[0]), steps[1..], key, job, At(steps[0], clock));
    }
  }

  lemma {:induction false} ClockGoesOn(clock: int, steps: seq<Step>)
    requires Timely(clock, steps)
    ensures clock <= Clock(clock, steps)
    decreases |steps|
  {
    if steps != [] {
      ClockGoesOn(At(steps[0], clock), steps[1..]);
    }
  }

  /** The retry puts the job off. */
  ghost predicate PutsOff(s: Store, step: Step, job: Job) {
    step.RetryStep?
    && Retry(s, step.org, step.jobId, step.worker, step.token, step.now, step.reason, step.eventId)
       == Returned(Perform(s, step), job)
    && job.state.RETRY_WAIT?
  }

  /**
   A job put off after its first attempt is left alone for 5 seconds, and after its second for 30,
   whatever is called in time order meanwhile; and from then on it can be claimed.
   */
  lemma BackoffIsKept(w: World, step: Step, job: Job, steps: seq<Step>)
    requires Invariant(w) && Fresh(w, step) && PutsOff(w.store, step, job)
    requires Feasible(Next(w, step), steps) && Timely(step.now, steps)
    ensures 1 <= job.attempt <= 2 && job.availableAt == step.now + Backoff(job.attempt)
    ensures Clock(step.now, steps) < job.availableAt
      ==> Waits(Run(Next(w, step), steps).store.jobs, (step.org, step.jobId), job)
    ensures forall at :: Claimable(job, at) <==> job.availableAt <= at
  {
    RetryPutsOff(w.store, step.org, step.jobId, step.worker, step.token, step.now, step.reason, step.eventId);
    StepKeepsInvariant(w, step);
    if Clock(step.now, steps) < job.availableAt {
      WaitsUntilDue(Next(w, step), steps, (step.org, step.jobId), job, step.now);
    }
  }

  lemma RetryPutsOff(s: Store, org: string, jobId: Id, worker: string, token: Id, now: int, reason: string, eventId: Id)
    requires Paired(s.jobs, s.operations)
    requires var out := Retry(s, org, jobId, worker, token, now, reason, eventId);
      out.Returned? && out.value.state.RETRY_WAIT?
    ensures var out := Retry(s, org, jobId, worker, token, now, reason, eventId);
      && Waits(out.store.jobs, (org, jobId), out.value)
      && 1 <= out.value.attempt <= 2 && out.value.availableAt == now + Backoff(out.value.attempt)
  {
    var job := s.jobs[(org, jobId)];
    assert InStep(job, s.operations[OperationKey(job)]);
  }

  // ---------- retries ----------

  /** How many more times a job can be put off. */
  function Allowance(jobs: map<(string, Id), Job>, key: (string, Id)): nat {
    if key !in jobs then 2
    else
      var job := jobs[key];
      if Terminal(job) then 0
      else if job.state.LEASED? then (if job.attempt < MAX_ATTEMPTS then MAX_ATTEMPTS - job.attempt else 0)
      else if job.attempt < MAX_ATTEMPTS - 1 then MAX_ATTEMPTS - 1 - job.attempt else 0
  }

  predicate PutsOffJob(c: Commit, key: (string, Id)) { c.PutOff? && c.key == key }

  /** How often the calls put this job off. */
  ghost function TimesPutOff(w: World, steps: seq<Step>, key: (string, Id)): nat
    decreases |steps|
  {
    if steps == [] then 0
    else
      (if PutsOffJob(CommitOf(w.store, steps[0]), key) then 1 else 0) + TimesPutOff(Next(w, steps[0]), steps[1..], key)
  }

  lemma RewriteSpends(s: Store, c: Commit)
    requires Paired(s.jobs, s.operations) && Enabled(s, c) && Rewrites(c)
    ensures Allowance(s.jobs[c.key := c.job], c.key) + (if c.PutOff? then 1 else 0) <= Allowance(s.jobs, c.key)
  {
    assert InStep(s.jobs[c.key], s.operations[OperationKey(s.jobs[c.key])]);
  }

  lemma CommitSpends(s: Store, c: Commit, key: (string, Id))
    requires Paired(s.jobs, s.operations) && Enabled(s, c)
    requires c.Created? ==> (c.job.org, c.job.id) !in s.jobs
    ensures Allowance(After(s, c).jobs, key) + (if PutsOffJob(c, key) then 1 else 0) <= Allowance(s.jobs, key)
  {
    JobsAfter(s, c);
    if Rewrites(c) && c.key == key {
      RewriteSpends(s, c);
    }
  }

  lemma StepSpends(w: World, step: Step, key: (string, Id))
    requires Invariant(w) && Fresh(w, step)
    ensures Allowance(Next(w, step).store.jobs, key) + (if PutsOffJob(CommitOf(w.store, step), key) then 1 else 0)
      <= Allowance(w.store.jobs, key)
  {
    EveryStepIsOneCommit(w.store, step);
    CommitSpends(w.store, CommitOf(w.store, step), key);
  }

  lemma {:induction false} RetriesAreSpent(w: World, steps: seq<Step>, key: (string, Id))
    requires Invariant(w) && Feasible(w, steps)
    ensures TimesPutOff(w, steps, key) + Allowance(Run(w, steps).store.jobs, key) <= Allowance(w.store.jobs, key)
    decreases |steps|
  {
    if steps != [] {
      StepSpends(w, steps[0], key);
      StepKeepsInvariant(w, steps[0]);
      RetriesAreSpent(Next(w, steps[0]), steps[1..], key);
    }
  }

  /** Over any run, whatever is called, a job is put off at most twice; and a retry is the only call that puts one
      off. */
  lemma TwoRetriesPerJob(steps: seq<Step>, key: (string, Id))
    requires Feasible(START, steps)
    ensures TimesPutOff(START, steps, key) <= 2
    ensures forall s: Store, step: Step :: CommitOf(s, step).PutOff? ==> step.RetryStep?
  {
    StartKeepsInvariant();
    RetriesAreSpent(START, steps, key);
  }
}
