/**
 The worker always makes progress. Each completed pass that found a job uses up one unit of a
 potential that starts at three per created job and that no other call raises.
 */
module QueueProgress {
  import opened Basics
  import opened QueueModel
  import opened QueueCommits
  import opened QueueInvariant

  /** How many more completed passes a job can take. */
  function Potential(job: Job): nat {
    if Terminal(job) then 0
    else if job.attempt < MAX_ATTEMPTS - 1 then MAX_ATTEMPTS - job.attempt
    else 1
  }

  ghost function Total(jobs: map<(string, Id), Job>): nat { Sum(jobs, Potential) }

  lemma TotalReplaced(jobs: map<(string, Id), Job>, key: (string, Id), job: Job)
    ensures Total(jobs[key := job]) == Total(jobs) - (if key in jobs then Potential(jobs[key]) else 0) + Potential(job)
  {
    SumReplaced(jobs, Potential, key, job);
  }

  /** Only creating a job raises the total, and it does so by three. */
  lemma CommitKeepsTotal(s: Store, c: Commit)
    requires Enabled(s, c)
    ensures Total(After(s, c).jobs) <= Total(s.jobs) + (if c.Created? then MAX_ATTEMPTS else 0)
  {
    JobsAfter(s, c);
    if c.Created? {
      assert Potential(c.job) <= MAX_ATTEMPTS;
      TotalReplaced(s.jobs, (c.job.org, c.job.id), c.job);
    } else if Rewrites(c) {
      RewritesOneJob(s, c);
      TotalReplaced(s.jobs, c.key, c.job);
    }
  }

  lemma StepKeepsTotal(w: World, step: Step)
    requires Invariant(w) && Fresh(w, step)
    ensures Total(Next(w, step).store.jobs) <= Total(w.store.jobs) + (if step.CreateStep? then MAX_ATTEMPTS else 0)
  {
    EveryStepIsOneCommit(w.store, step);
    CreatedByCreate(w.store, step);
    CommitKeepsTotal(w.store, CommitOf(w.store, step));
  }

  lemma CreatedByCreate(s: Store, step: Step)
    ensures CommitOf(s, step).Created? ==> step.CreateStep?
  {
  }

  // ---------- one pass ----------

  /** What a worker has in hand after a claim: the job, leased to it for a minute, and a running operation. */
  ghost predicate InHand(before: Store, after: Store, org: string, worker: string, token: Id, now: int, job: Job) {
    var key := (org, job.id);
    && after.failpoints == before.failpoints
    && after.profiles == before.profiles && after.bindings == before.bindings
    && key in before.jobs && after.jobs == before.jobs[key := job]
    && Leased(after, org, job.id, worker, token, now + 1) == Ok(job)
    && 1 <= job.attempt && Potential(before.jobs[key]) >= 1
    && Potential(before.jobs[key]) >= MAX_ATTEMPTS + 1 - job.attempt
    && (org, job.operationId) in after.operations && after.operations[(org, job.operationId)].state.RUNNING?
  }

  lemma ClaimedInHand(s: Store, t: Store, key: (string, Id), worker: string, now: int, token: Id)
    requires key in s.jobs && !Terminal(s.jobs[key]) && key == (s.jobs[key].org, s.jobs[key].id)
    requires var job := Claimed(s.jobs[key], worker, now, 60, token);
      && t.failpoints == s.failpoints && t.profiles == s.profiles && t.bindings == s.bindings
      && t.jobs == s.jobs[key := job]
      && (key.0, job.operationId) in t.operations && t.operations[(key.0, job.operationId)].state.RUNNING?
    ensures InHand(s, t, key.0, worker, token, now, Claimed(s.jobs[key], worker, now, 60, token))
  {
  }

  lemma ClaimCommits(s: Store, org: string, worker: string, now: int, token: Id, startId: Id)
    requires Keyed(s.jobs, s.operations) && Paired(s.jobs, s.operations) && NextJob(s.jobs, org, now).Some?
    ensures var key := NextJob(s.jobs, org, now).value;
      var out := Claim(s, org, worker, now, 60, token, startId);
      && key in s.jobs && key == (org, s.jobs[key].id) && !Terminal(s.jobs[key])
      && (s.failpoints == {} ==> out.Returned?)
      && (out.Returned? ==>
            var job := Claimed(s.jobs[key], worker, now, 60, token);
            && out.value == Some(job)
            && out.store.failpoints == s.failpoints && out.store.profiles == s.profiles
            && out.store.bindings == s.bindings
            && out.store.jobs == s.jobs[key := job]
            && (org, job.operationId) in out.store.operations
            && out.store.operations[(org, job.operationId)].state.RUNNING?)
  {
    OperationFound(s, NextJob(s.jobs, org, now).value);
  }

  lemma ClaimTakesInHand(s: Store, org: string, worker: string, now: int, token: Id, startId: Id)
    requires Keyed(s.jobs, s.operations) && Paired(s.jobs, s.operations)
    ensures var out := Claim(s, org, worker, now, 60, token, startId);
      && (s.failpoints == {} ==> out.Returned?)
      && (out.Returned? && out.value.None? ==> out.store == s && NextJob(s.jobs, org, now).None?)
      && (out.Returned? && out.value.Some? ==> InHand(s, out.store, org, worker, token, now, out.value.value))
  {
    var next := NextJob(s.jobs, org, now);
    if next.Some? {
      ClaimCommits(s, org, worker, now, token, startId);
      var out := Claim(s, org, worker, now, 60, token, startId);
      if out.Returned? {
        ClaimedInHand(s, out.store, next.value, worker, now, token);
      }
    }
  }

  /** The worker holds the job, its operation is running and no failpoint is armed. */
  ghost predicate Ready(s: Store, org: string, jobId: Id, worker: string, token: Id, now: int) {
    && s.failpoints == {} && Leased(s, org, jobId, worker, token, now).Ok?
    && (org, s.jobs[(org, jobId)].operationId) in s.operations
    && s.operations[(org, s.jobs[(org, jobId)].operationId)].state.RUNNING?
  }

  /** A call that returned left the job `final` under `key` and every other job alone. */
  ghost predicate Leaves(s: Store, t: Store, key: (string, Id), final: Job) { t.jobs == s.jobs[key := final] }

  lemma FailLeaves(s: Store, org: string, jobId: Id, worker: string, token: Id, now: int, reason: string, eventId: Id)
    ensures var out := Fail(s, org, jobId, worker, token, now, reason, false, eventId);
      && (out.Returned? ==> exists final :: Leaves(s, out.store, (org, jobId), final) && final.state.DEAD_LETTERED?)
      && (IsReason(reason) && Ready(s, org, jobId, worker, token, now) ==> out.Returned?)
  {
    var out := Fail(s, org, jobId, worker, token, now, reason, false, eventId);
    if out.Returned? {
      assert Leaves(s, out.store, (org, jobId), out.store.jobs[(org, jobId)]);
    }
  }

  lemma RetryLeaves(s: Store, org: string, jobId: Id, worker: string, token: Id, now: int, reason: string, eventId: Id)
    ensures var out := Retry(s, org, jobId, worker, token, now, reason, eventId);
      && (out.Returned? ==>
            && Leaves(s, out.store, (org, jobId), out.value) && (org, jobId) in s.jobs
            && (if s.jobs[(org, jobId)].attempt < MAX_ATTEMPTS
                then out.value.state.RETRY_WAIT? && out.value.attempt == s.jobs[(org, jobId)].attempt
                else out.value.state.DEAD_LETTERED?))
      && (IsReason(reason) && Ready(s, org, jobId, worker, token, now) ==> out.Returned?)
  {
    assert IsReason("RETRY_EXHAUSTED");
    FailLeaves(s, org, jobId, worker, token, now, "RETRY_EXHAUSTED", eventId);
  }

  predicate OutputRefusal(refusal: Refusal) {
    refusal.COMPILER_OUTPUT_SET_REFUSED? || refusal.PROFILE_DIGEST_REFUSED? || refusal.PROFILE_DOCUMENT_REFUSED?
  }

  lemma SucceedLeaves(
    s: Store, org: string, jobId: Id, worker: string, token: Id, now: int, outputs: Outputs, eventId: Id)
    requires Leased(s, org, jobId, worker, token, now).Ok?
    ensures var out := Succeed(s, org, jobId, worker, token, now, outputs, eventId);
      && (out.Returned? ==> exists final :: Leaves(s, out.store, (org, jobId), final) && final.state.SUCCEEDED?)
      && (out.Raised? && OutputRefusal(out.refusal) ==> out.store == s)
      && (WriteOnce(s.jobs, s.profiles, s.bindings) && Ready(s, org, jobId, worker, token, now) ==>
            out.Returned? || OutputRefusal(out.refusal))
  {
    var out := Succeed(s, org, jobId, worker, token, now, outputs, eventId);
    if out.Returned? {
      assert Leaves(s, out.store, (org, jobId), out.store.jobs[(org, jobId)]);
    }
  }

  // ---------- a whole pass ----------

  predicate WellFormed(answer: Compilation) { answer.Refused? ==> IsReason(answer.reason) }

  /** Leaving the claimed job with less potential than it had lowers the total. */
  lemma TotalDrops(
    before: Store, mid: Store, after: Store, org: string, worker: string, token: Id, now: int, job: Job, final: Job)
    requires InHand(before, mid, org, worker, token, now, job) && Leaves(mid, after, (org, job.id), final)
    requires Terminal(final) || (final.state.RETRY_WAIT? && final.attempt == job.attempt && job.attempt < MAX_ATTEMPTS)
    ensures Total(after.jobs) < Total(before.jobs)
  {
    var key := (org, job.id);
    assert after.jobs == before.jobs[key := final];
    TotalReplaced(before.jobs, key, final);
  }

  /** A completed pass that found a job ends in one of three states and lowers the total. */
  ghost predicate Spends(s: Store, out: Outcome<RunOutcome>) {
    out.Returned? ==>
      && out.value.RAN? && (out.value.final.RETRY_WAIT? || out.value.final.SUCCEEDED? || out.value.final.DEAD_LETTERED?)
      && Total(out.store.jobs) < Total(s.jobs)
  }

  lemma GiveUpSpends(
    s: Store, s1: Store, org: string, worker: string, now: int, token: Id, endId: Id, job: Job, reason: string)
    requires InHand(s, s1, org, worker, token, now, job)
    ensures var out := GiveUp(s1, org, job.id, worker, token, now + 1, reason, endId);
      Spends(s, out) && (s.failpoints == {} && IsReason(reason) ==> out.Returned?)
  {
    FailLeaves(s1, org, job.id, worker, token, now + 1, reason, endId);
    var out := Fail(s1, org, job.id, worker, token, now + 1, reason, false, endId);
    if out.Returned? {
      var final :| Leaves(s1, out.store, (org, job.id), final) && final.state.DEAD_LETTERED?;
      TotalDrops(s, s1, out.store, org, worker, token, now, job, final);
    }
  }

  lemma RetrySpends(s: Store, s1: Store, org: string, worker: string, now: int, wheel: string, reason: string,
                    token: Id, endId: Id, job: Job)
    requires InHand(s, s1, org, worker, token, now, job) && job.spec.wheelDigest == wheel
    ensures var out := Conclude(s1, org, worker, now, wheel, Refused(reason, true), token, endId, job);
      Spends(s, out) && (s.failpoints == {} && IsReason(reason) ==> out.Returned?)
  {
    RetryLeaves(s1, org, job.id, worker, token, now + 1, reason, endId);
    var out := Retry(s1, org, job.id, worker, token, now + 1, reason, endId);
    if out.Returned? {
      TotalDrops(s, s1, out.store, org, worker, token, now, job, out.value);
    }
  }

  lemma SucceedSpends(s: Store, s1: Store, org: string, worker: string, now: int, wheel: string, outputs: Outputs,
                      token: Id, endId: Id, job: Job)
    requires InHand(s, s1, org, worker, token, now, job) && job.spec.wheelDigest == wheel
    ensures var out := Conclude(s1, org, worker, now, wheel, Produced(outputs), token, endId, job);
      Spends(s, out) && (s.failpoints == {} && WriteOnce(s1.jobs, s1.profiles, s1.bindings) ==> out.Returned?)
  {
    SucceedLeaves(s1, org, job.id, worker, token, now + 1, outputs, endId);
    var out := Succeed(s1, org, job.id, worker, token, now + 1, outputs, endId);
    if out.Returned? {
      var final :| Leaves(s1, out.store, (org, job.id), final) && final.state.SUCCEEDED?;
      TotalDrops(s, s1, out.store, org, worker, token, now, job, final);
    } else if OutputRefusal(out.refusal) {
      ReasonsOfWorker();
      GiveUpSpends(s, s1, org, worker, now, token, endId, job, RefusalText(out.refusal));
    }
  }

  lemma ReasonsOfWorker()
    ensures IsReason("COMPILER_WHEEL_MISMATCH") && IsReason("COMPILER_OUTPUT_SET_REFUSED")
    ensures IsReason("PROFILE_DIGEST_REFUSED") && IsReason("PROFILE_DOCUMENT_REFUSED")
  {
  }

  /** The second half of a pass, from the claim on. */
  lemma ConcludeSpends(s: Store, s1: Store, org: string, worker: string, now: int, wheel: string, answer: Compilation,
                       token: Id, endId: Id, job: Job)
    requires InHand(s, s1, org, worker, token, now, job)
    ensures var out := Conclude(s1, org, worker, now, wheel, answer, token, endId, job);
      Spends(s, out)
        && (s.failpoints == {} && WellFormed(answer) && WriteOnce(s1.jobs, s1.profiles, s1.bindings) ==> out.Returned?)
  {
    if job.spec.wheelDigest != wheel {
      ReasonsOfWorker();
      GiveUpSpends(s, s1, org, worker, now, token, endId, job, "COMPILER_WHEEL_MISMATCH");
    } else {
      match answer
      case Refused(reason, true) => RetrySpends(s, s1, org, worker, now, wheel, reason, token, endId, job);
      case Refused(reason, false) => GiveUpSpends(s, s1, org, worker, now, token, endId, job, reason);
      case Produced(outputs) => SucceedSpends(s, s1, org, worker, now, wheel, outputs, token, endId, job);
    }
  }

  // ---------- the next job exists ----------

  lemma {:induction false} FirstServed(
    jobs: map<(string, Id), Job>, org: string, now: int, keys: set<(string, Id)>) returns (first: (string, Id))
    requires forall k | k in jobs :: k == (jobs[k].org, jobs[k].id)
    requires keys != {} && forall k | k in keys :: Eligible(jobs, org, now, k)
    ensures first in keys && first in jobs
    ensures forall k | k in keys && k != first :: Eligible(jobs, org, now, k) && ServedBefore(jobs[first], jobs[k])
    decreases |keys|
  {
    var one :| one in keys;
    if keys == {one} {
      first := one;
    } else {
      first := FirstServed(jobs, org, now, keys - {one});
      if ServedBefore(jobs[one], jobs[first]) {
        first := one;
      }
    }
  }

  /** A claim finds nothing exactly when nothing is claimable. */
  lemma NextJobExists(jobs: map<(string, Id), Job>, org: string, now: int)
    requires forall k | k in jobs :: k == (jobs[k].org, jobs[k].id)
    ensures NextJob(jobs, org, now).None? <==> forall k :: !Eligible(jobs, org, now, k)
  {
    var keys := set k | k in jobs && Eligible(jobs, org, now, k);
    if keys != {} {
      var first := FirstServed(jobs, org, now, keys);
      assert forall k | Eligible(jobs, org, now, k) :: k in keys;
      assert IsNext(jobs, org, now, first);
    } else {
      forall k ensures !Eligible(jobs, org, now, k) {
        assert k !in keys;
      }
    }
  }

  // ---------- a whole pass ----------

  /**
   In every reachable store with no failpoint armed, and a compiler that gives well-formed reason
   codes, a pass of the worker never raises. It is idle exactly when no job is claimable, and then
   changes nothing; otherwise it ends in one of three states and lowers the total.
   */
  lemma PassNeverRaises(w: World, org: string, worker: string, now: int, wheel: string, answer: Compilation,
                        token: Id, startId: Id, endId: Id)
    requires Invariant(w) && Fresh(w, ClaimStep(org, worker, now, 60, token, startId))
    requires w.store.failpoints == {} && WellFormed(answer)
    ensures var out := RunOnce(w.store, org, worker, now, wheel, answer, token, startId, endId);
      && out.Returned?
      && (out.value.IDLE_NO_JOB? <==> forall k :: !Eligible(w.store.jobs, org, now, k))
      && (out.value.IDLE_NO_JOB? ==> out.store == w.store)
      && (out.value.RAN? ==> Spends(w.store, out))
  {
    var step := ClaimStep(org, worker, now, 60, token, startId);
    ClaimTakesInHand(w.store, org, worker, now, token, startId);
    StepKeepsInvariant(w, step);
    NextJobExists(w.store.jobs, org, now);
    var claim := Claim(w.store, org, worker, now, 60, token, startId);
    if claim.value.Some? {
      ConcludeSpends(w.store, claim.store, org, worker, now, wheel, answer, token, endId, claim.value.value);
      assert NextJob(w.store.jobs, org, now).Some?;
    }
  }

  /** Failpoints or not, a pass that completes and found a job lowers the total. */
  lemma CompletedPassSpends(w: World, org: string, worker: string, now: int, wheel: string, answer: Compilation,
                            token: Id, startId: Id, endId: Id)
    requires Keyed(w.store.jobs, w.store.operations) && Paired(w.store.jobs, w.store.operations)
    ensures var out := RunOnce(w.store, org, worker, now, wheel, answer, token, startId, endId);
      out.Returned? && out.value.RAN? ==> Total(out.store.jobs) < Total(w.store.jobs)
  {
    ClaimTakesInHand(w.store, org, worker, now, token, startId);
    var claim := Claim(w.store, org, worker, now, 60, token, startId);
    if claim.Returned? && claim.value.Some? {
      ConcludeSpends(w.store, claim.store, org, worker, now, wheel, answer, token, endId, claim.value.value);
    }
  }

  // ---------- runs with whole passes ----------

  /** A call made on its own, which is also how a pass that was cut short appears, or a whole pass. */
  datatype Action =
    | Call(step: Step)
    | Pass(org: string, worker: string, now: int, wheel: string, answer: Compilation, token: Id, startId: Id, endId: Id)

  ghost function PassOutcome(s: Store, a: Action): Outcome<RunOutcome>
    requires a.Pass?
  {
    RunOnce(s, a.org, a.worker, a.now, a.wheel, a.answer, a.token, a.startId, a.endId)
  }

  /** The second call of a pass. */
  ghost function SecondCall(s1: Store, a: Action, job: Job): Step
    requires a.Pass?
  {
    if job.spec.wheelDigest != a.wheel then
      FailStep(a.org, job.id, a.worker, a.token, a.now + 1, "COMPILER_WHEEL_MISMATCH", false, a.endId)
    else
      match a.answer
      case Refused(reason, true) => RetryStep(a.org, job.id, a.worker, a.token, a.now + 1, reason, a.endId)
      case Refused(reason, false) => FailStep(a.org, job.id, a.worker, a.token, a.now + 1, reason, false, a.endId)
      case Produced(outputs) =>
        var out := Succeed(s1, a.org, job.id, a.worker, a.token, a.now + 1, outputs, a.endId);
        if out.Raised? && OutputRefusal(out.refusal) then
          FailStep(a.org, job.id, a.worker, a.token, a.now + 1, RefusalText(out.refusal), false, a.endId)
        else
          SucceedStep(a.org, job.id, a.worker, a.token, a.now + 1, outputs, a.endId)
  }

  /** The calls an action consists of. */
  ghost function Calls(s: Store, a: Action): seq<Step> {
    match a
    case Call(step) => [step]
    case Pass(org, worker, now, _, _, token, startId, _) =>
      var claim := Claim(s, org, worker, now, 60, token, startId);
      [ClaimStep(org, worker, now, 60, token, startId)]
      + (if claim.Returned? && claim.value.Some? then [SecondCall(claim.store, a, claim.value.value)] else [])
  }

  /** A pass leaves what its calls leave. */
  lemma PassIsItsCalls(w: World, a: Action)
    requires a.Pass? && Keyed(w.store.jobs, w.store.operations) && Paired(w.store.jobs, w.store.operations)
    ensures Run(w, Calls(w.store, a)).store == PassOutcome(w.store, a).store
  {
    var claim := Claim(w.store, a.org, a.worker, a.now, 60, a.token, a.startId);
    var first := ClaimStep(a.org, a.worker, a.now, 60, a.token, a.startId);
    var w1 := Next(w, first);
    assert w1.store == claim.store;
    if claim.Returned? && claim.value.Some? {
      var second := SecondCall(claim.store, a, claim.value.value);
      var calls := [first, second];
      assert Calls(w.store, a) == calls && calls[1..] == [second];
      RunOne(w1, second);
      assert Run(w, calls) == Run(w1, [second]);
      ClaimTakesInHand(w.store, a.org, a.worker, a.now, a.token, a.startId);
      ConcludeIsSecondCall(claim.store, a, claim.value.value);
    } else {
      RunOne(w, first);
    }
  }

  lemma RunOne(w: World, step: Step)
    ensures Run(w, [step]) == Next(w, step)
  {
    assert [step][1..] == [];
    assert Run(Next(w, step), []) == Next(w, step);
  }

  lemma GiveUpIsFail(s: Store, org: string, jobId: Id, worker: string, token: Id, now: int, reason: string, eventId: Id)
    ensures GiveUp(s, org, jobId, worker, token, now, reason, eventId).store
         == Perform(s, FailStep(org, jobId, worker, token, now, reason, false, eventId))
  {
  }

  lemma RetryIsRetry(
    s: Store, org: string, worker: string, now: int, wheel: string, reason: string, token: Id, endId: Id, job: Job)
    requires job.spec.wheelDigest == wheel
    ensures Conclude(s, org, worker, now, wheel, Refused(reason, true), token, endId, job).store
         == Perform(s, RetryStep(org, job.id, worker, token, now + 1, reason, endId))
  {
  }

  lemma ProducedIsSucceed(s1: Store, a: Action, job: Job)
    requires a.Pass? && job.spec.wheelDigest == a.wheel && a.answer.Produced?
    requires var out := Succeed(s1, a.org, job.id, a.worker, a.token, a.now + 1, a.answer.outputs, a.endId);
      !(out.Raised? && OutputRefusal(out.refusal))
    ensures Conclude(s1, a.org, a.worker, a.now, a.wheel, a.answer, a.token, a.endId, job).store
         == Perform(s1, SecondCall(s1, a, job))
  {
    var step := SucceedStep(a.org, job.id, a.worker, a.token, a.now + 1, a.answer.outputs, a.endId);
    assert SecondCall(s1, a, job) == step;
  }

  lemma ProducedIsFail(s1: Store, a: Action, job: Job)
    requires a.Pass? && job.spec.wheelDigest == a.wheel && a.answer.Produced?
    requires var out := Succeed(s1, a.org, job.id, a.worker, a.token, a.now + 1, a.answer.outputs, a.endId);
      out.Raised? && OutputRefusal(out.refusal) && out.store == s1
    ensures Conclude(s1, a.org, a.worker, a.now, a.wheel, a.answer, a.token, a.endId, job).store
         == Perform(s1, SecondCall(s1, a, job))
  {
    var out := Succeed(s1, a.org, job.id, a.worker, a.token, a.now + 1, a.answer.outputs, a.endId);
    var step := FailStep(a.org, job.id, a.worker, a.token, a.now + 1, RefusalText(out.refusal), false, a.endId);
    assert SecondCall(s1, a, job) == step;
    GiveUpIsFail(s1, a.org, job.id, a.worker, a.token, a.now + 1, RefusalText(out.refusal), a.endId);
  }

  lemma ProducedIsSecondCall(s1: Store, a: Action, job: Job)
    requires a.Pass? && Leased(s1, a.org, job.id, a.worker, a.token, a.now + 1).Ok?
    requires job.spec.wheelDigest == a.wheel && a.answer.Produced?
    ensures Conclude(s1, a.org, a.worker, a.now, a.wheel, a.answer, a.token, a.endId, job).store
         == Perform(s1, SecondCall(s1, a, job))
  {
    SucceedLeaves(s1, a.org, job.id, a.worker, a.token, a.now + 1, a.answer.outputs, a.endId);
    var out := Succeed(s1, a.org, job.id, a.worker, a.token, a.now + 1, a.answer.outputs, a.endId);
    if out.Raised? && OutputRefusal(out.refusal) {
      ProducedIsFail(s1, a, job);
    } else {
      ProducedIsSucceed(s1, a, job);
    }
  }

  lemma ConcludeIsSecondCall(s1: Store, a: Action, job: Job)
    requires a.Pass? && Leased(s1, a.org, job.id, a.worker, a.token, a.now + 1).Ok?
    ensures Conclude(s1, a.org, a.worker, a.now, a.wheel, a.answer, a.token, a.endId, job).store
         == Perform(s1, SecondCall(s1, a, job))
  {
    if job.spec.wheelDigest != a.wheel {
      GiveUpIsFail(s1, a.org, job.id, a.worker, a.token, a.now + 1, "COMPILER_WHEEL_MISMATCH", a.endId);
    } else {
      match a.answer
      case Refused(reason, true) => RetryIsRetry(s1, a.org, a.worker, a.now, a.wheel, reason, a.token, a.endId, job);
      case Refused(reason, false) => GiveUpIsFail(s1, a.org, job.id, a.worker, a.token, a.now + 1, reason, a.endId);
      case Produced(outputs) => ProducedIsSecondCall(s1, a, job);
    }
  }

  ghost function AfterAction(w: World, a: Action): World { Run(w, Calls(w.store, a)) }

  ghost function RunActions(w: World, actions: seq<Action>): World
    decreases |actions|
  {
    if actions == [] then w else RunActions(AfterAction(w, actions[0]), actions[1..])
  }

  ghost predicate FeasibleActions(w: World, actions: seq<Action>)
    decreases |actions|
  {
    actions != [] ==>
      Feasible(w, Calls(w.store, actions[0])) && FeasibleActions(AfterAction(w, actions[0]), actions[1..])
  }

  ghost predicate Completes(s: Store, a: Action) {
    a.Pass? && PassOutcome(s, a).Returned? && PassOutcome(s, a).value.RAN?
  }

  /** How many passes of a run completed and were not idle. */
  ghost function Completed(w: World, actions: seq<Action>): nat
    decreases |actions|
  {
    if actions == [] then 0 else
    (if Completes(w.store, actions[0]) then 1 else 0) + Completed(AfterAction(w, actions[0]), actions[1..])
  }

  /** How many jobs a run asked to create. */
  function Creations(actions: seq<Action>): nat
    decreases |actions|
  {
    if actions == [] then 0 else
    (if actions[0].Call? && actions[0].step.CreateStep? then 1 else 0) + Creations(actions[1..])
  }

  lemma CompletedPassKeepsTotal(w: World, a: Action)
    requires Keyed(w.store.jobs, w.store.operations) && Paired(w.store.jobs, w.store.operations)
    requires Completes(w.store, a)
    ensures 1 + Total(AfterAction(w, a).store.jobs) <= Total(w.store.jobs)
  {
    PassIsItsCalls(w, a);
    CompletedPassSpends(w, a.org, a.worker, a.now, a.wheel, a.answer, a.token, a.startId, a.endId);
  }

  lemma OnlyCallsCreate(s: Store, a: Action)
    ensures forall i | 0 <= i < |Calls(s, a)| :: Calls(s, a)[i].CreateStep? ==> i == 0 && a.Call? && a.step.CreateStep?
  {
  }

  lemma ActionKeepsTotal(w: World, a: Action)
    requires Invariant(w) && Feasible(w, Calls(w.store, a))
    ensures (if Completes(w.store, a) then 1 else 0) + Total(AfterAction(w, a).store.jobs)
         <= Total(w.store.jobs) + (if a.Call? && a.step.CreateStep? then MAX_ATTEMPTS else 0)
  {
    if Completes(w.store, a) {
      CompletedPassKeepsTotal(w, a);
    } else {
      OnlyCallsCreate(w.store, a);
      CallsKeepTotal(w, Calls(w.store, a));
    }
  }

  lemma {:induction false} CallsKeepTotal(w: World, steps: seq<Step>)
    requires Invariant(w) && Feasible(w, steps)
    requires forall i | 0 <= i < |steps| :: steps[i].CreateStep? ==> i == 0
    ensures Total(Run(w, steps).store.jobs)
         <= Total(w.store.jobs) + (if steps != [] && steps[0].CreateStep? then MAX_ATTEMPTS else 0)
    decreases |steps|
  {
    if steps != [] {
      StepKeepsTotal(w, steps[0]);
      StepKeepsInvariant(w, steps[0]);
      CallsKeepTotal(Next(w, steps[0]), steps[1..]);
    }
  }

  /**
   Whatever the compiler answers, and however many passes are cut short after the claim: at most
   three passes per created job complete without being idle.
   */
  lemma {:induction false} ThreePassesPerJob(w: World, actions: seq<Action>)
    requires Invariant(w) && FeasibleActions(w, actions)
    ensures Completed(w, actions) + Total(RunActions(w, actions).store.jobs)
      <= Total(w.store.jobs) + MAX_ATTEMPTS * Creations(actions)
    ensures w == START ==> Completed(w, actions) <= MAX_ATTEMPTS * Creations(actions)
    decreases |actions|
  {
    if actions != [] {
      ActionKeepsTotal(w, actions[0]);
      RunKeepsInvariant(w, Calls(w.store, actions[0]));
      ThreePassesPerJob(AfterAction(w, actions[0]), actions[1..]);
    }
  }
}
