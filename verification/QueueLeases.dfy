/**
 Lease fencing. With a clock that never runs backwards, a lease that has ended by expiry, by
 being taken over, by a retry or by completion never again lets its holder change the job.
 */
module QueueLeases {
  import opened Basics
  import opened QueueModel
  import opened QueueCommits
  import opened QueueInvariant

  /** The instant a call is made at, for the calls that look at a clock. */
  function At(step: Step, clock: int): int {
    match step
    case CreateStep(_, _, _, now, _, _) => now
    case ClaimStep(_, _, now, _, _, _) => now
    case ExtendStep(_, _, _, _, now, _) => now
    case RetryStep(_, _, _, _, now, _, _) => now
    case FailStep(_, _, _, _, now, _, _, _) => now
    case SucceedStep(_, _, _, _, now, _, _) => now
    case _ => clock
  }

  /** The calls are made at or after `clock`, none before an earlier one. */
  predicate Timely(clock: int, steps: seq<Step>)
    decreases |steps|
  {
    steps != [] ==> clock <= At(steps[0], clock) && Timely(At(steps[0], clock), steps[1..])
  }

  function Clock(clock: int, steps: seq<Step>): int
    decreases |steps|
  {
    if steps == [] then clock else Clock(At(steps[0], clock), steps[1..])
  }

  /** This worker may act on the job under this token at this instant. */
  predicate Holds(s: Store, key: (string, Id), worker: string, token: Id, now: int) {
    Leased(s, key.0, key.1, worker, token, now).Ok?
  }

  /** The token is not the job's current lease at `clock` or later. */
  predicate Spent(jobs: map<(string, Id), Job>, key: (string, Id), token: Id, clock: int) {
    key in jobs && jobs[key].lease.Some? && jobs[key].lease.value.token == token ==>
      jobs[key].lease.value.expiresAt <= clock
  }

  lemma CommitKeepsSpent(s: Store, c: Commit, key: (string, Id), token: Id, clock: int, now: int)
    requires Enabled(s, c) && Spent(s.jobs, key, token, clock) && clock <= now
    requires token !in Introduced(c)
    requires c.Prolonged? ==> c.at == now
    ensures Spent(After(s, c).jobs, key, token, now)
  {
  }

  lemma ProlongedAtItsTime(s: Store, step: Step, clock: int)
    ensures CommitOf(s, step).Prolonged? ==> CommitOf(s, step).at == At(step, clock)
  {
    var c := Intended(s, step);
    if c.Prolonged? {
      assert step.ExtendStep?;
    }
  }

  lemma StepKeepsSpent(w: World, step: Step, key: (string, Id), token: Id, clock: int)
    requires Invariant(w) && Fresh(w, step) && token in w.issued
    requires Spent(w.store.jobs, key, token, clock) && clock <= At(step, clock)
    ensures Spent(Next(w, step).store.jobs, key, token, At(step, clock))
  {
    EveryStepIsOneCommit(w.store, step);
    ProlongedAtItsTime(w.store, step, clock);
    CommitKeepsSpent(w.store, CommitOf(w.store, step), key, token, clock, At(step, clock));
  }

  lemma {:induction false} SpentStaysSpent(w: World, steps: seq<Step>, key: (string, Id), token: Id, clock: int)
    requires Invariant(w) && Feasible(w, steps) && Timely(clock, steps) && token in w.issued
    requires Spent(w.store.jobs, key, token, clock)
    ensures Spent(Run(w, steps).store.jobs, key, token, Clock(clock, steps))
    decreases |steps|
  {
    if steps != [] {
      StepKeepsSpent(w, steps[0], key, token, clock);
      StepKeepsInvariant(w, steps[0]);
      SpentStaysSpent(Next(w, steps[0]), steps[1..], key, token, At(steps[0], clock));
    }
  }

  /** The calls a worker makes under a token for a job. */
  predicate Uses(step: Step, key: (string, Id), token: Id) {
    match step
    case ExtendStep(org, jobId, _, t, _, _) => (org, jobId) == key && t == token
    case RetryStep(org, jobId, _, t, _, _, _) => (org, jobId) == key && t == token
    case FailStep(org, jobId, _, t, _, _, _, _) => (org, jobId) == key && t == token
    case SucceedStep(org, jobId, _, t, _, _, _) => (org, jobId) == key && t == token
    case _ => false
  }

  lemma SpentIsInert(s: Store, step: Step, key: (string, Id), token: Id, clock: int)
    requires Spent(s.jobs, key, token, clock) && Uses(step, key, token) && clock <= At(step, clock)
    ensures Perform(s, step) == s
  {
    match step
    case ExtendStep(org, jobId, worker, t, now, _) => assert Leased(s, org, jobId, worker, t, now).Err?;
    case RetryStep(org, jobId, worker, t, now, _, _) => assert Leased(s, org, jobId, worker, t, now).Err?;
    case FailStep(org, jobId, worker, t, now, _, _, _) => assert Leased(s, org, jobId, worker, t, now).Err?;
    case SucceedStep(org, jobId, worker, t, now, _, _) => assert Leased(s, org, jobId, worker, t, now).Err?;
  }

  /**
   The fence. Once a token that was drawn is not the job's live lease, then after any further calls
   made in time order nobody holds the job under it, and a call that uses it changes nothing.
   */
  lemma FencedForever(w: World, steps: seq<Step>, key: (string, Id), token: Id, clock: int, worker: string, last: Step)
    requires Invariant(w) && Feasible(w, steps) && Timely(clock, steps) && token in w.issued
    requires Spent(w.store.jobs, key, token, clock)
    ensures forall now | Clock(clock, steps) <= now :: !Holds(Run(w, steps).store, key, worker, token, now)
    ensures Uses(last, key, token) && Clock(clock, steps) <= At(last, Clock(clock, steps)) ==>
      Perform(Run(w, steps).store, last) == Run(w, steps).store
  {
    SpentStaysSpent(w, steps, key, token, clock);
    if Uses(last, key, token) && Clock(clock, steps) <= At(last, Clock(clock, steps)) {
      SpentIsInert(Run(w, steps).store, last, key, token, Clock(clock, steps));
    }
  }

  /**
   Two leases of one job never alternate: once a second token has been live, the first is not live
   again, whatever is called in between.
   */
  lemma LeasesDoNotOverlap(w: World, steps: seq<Step>, key: (string, Id), clock: int,
                           a: Id, b: Id, workerA: string, workerB: string, now: int)
    requires Invariant(w) && Feasible(w, steps) && Timely(clock, steps) && a in w.issued && a != b
    requires Holds(w.store, key, workerB, b, clock)
    requires Clock(clock, steps) <= now
    ensures !Holds(Run(w, steps).store, key, workerA, a, now)
  {
    SpentStaysSpent(w, steps, key, a, clock);
  }

  /** What a commit that rewrites a leased job makes of its lease. */
  lemma RewriteHandsOver(s: Store, c: Commit)
    requires Paired(s.jobs, s.operations) && Enabled(s, c) && Rewrites(c) && !c.Begun? && s.jobs[c.key].lease.Some?
    ensures c.job.lease.Some? && c.job.lease.value.token != s.jobs[c.key].lease.value.token ==>
      s.jobs[c.key].lease.value.expiresAt <= c.job.lease.value.claimedAt
  {
    assert InStep(s.jobs[c.key], s.operations[OperationKey(s.jobs[c.key])]);
  }

  lemma CommitHandsOver(s: Store, c: Commit, key: (string, Id))
    requires Paired(s.jobs, s.operations) && Enabled(s, c) && key in s.jobs && s.jobs[key].lease.Some?
    requires c.Created? ==> (c.job.org, c.job.id) != key
    requires c.Begun? ==> c.key != key
    ensures key in After(s, c).jobs
    ensures var before, after := s.jobs[key].lease.value, After(s, c).jobs[key].lease;
      after.Some? && after.value.token != before.token ==> before.expiresAt <= after.value.claimedAt
  {
    JobsAfter(s, c);
    if Rewrites(c) && c.key == key {
      RewriteHandsOver(s, c);
    }
  }

  /** A job with a lease is past its first claim, and newly created jobs have other keys. */
  lemma LeasedIsOld(w: World, c: Commit, key: (string, Id))
    requires Keyed(w.store.jobs, w.store.operations) && Paired(w.store.jobs, w.store.operations)
      && Drawable(w.store, w.issued)
    requires Enabled(w.store, c) && Introduced(c) !! w.issued && key in w.store.jobs && w.store.jobs[key].lease.Some?
    ensures c.Created? ==> (c.job.org, c.job.id) != key
    ensures c.Begun? ==> c.key != key
  {
    OperationFound(w.store, key);
  }

  /** A lease is handed over only when the one before it has run out. */
  lemma HandedOverAfterExpiry(w: World, step: Step, key: (string, Id))
    requires Invariant(w) && Fresh(w, step) && key in w.store.jobs && w.store.jobs[key].lease.Some?
    ensures key in Next(w, step).store.jobs
    ensures var before, after := w.store.jobs[key].lease.value, Next(w, step).store.jobs[key].lease;
      after.Some? && after.value.token != before.token ==> before.expiresAt <= after.value.claimedAt
  {
    EveryStepIsOneCommit(w.store, step);
    LeasedIsOld(w, CommitOf(w.store, step), key);
    CommitHandsOver(w.store, CommitOf(w.store, step), key);
  }
}
