/**
 The queue empties: enough passes of its workers, each made half a minute after the one before it,
 end every job of an organization, whatever the compiler answers.
 */
module QueueLiveness {
  import opened Basics
  import opened QueueModel
  import opened QueueCommits
  import opened QueueInvariant
  import opened QueueProgress
  import opened QueueService

  type Jobs = map<(string, Id), Job>

  /** Every unfinished job of the organization can be claimed at this time: it has waited, or its lease has expired. */
  predicate DueBy(jobs: Jobs, org: string, t: int) {
    forall k | k in jobs && k.0 == org :: Terminal(jobs[k]) || Claimable(jobs[k], t)
  }

  predicate Finished(jobs: Jobs, org: string) { forall k | k in jobs && k.0 == org :: Terminal(jobs[k]) }

  function Unfinished(jobs: Jobs, org: string): set<(string, Id)> {
    set k | k in jobs && k.0 == org && !Terminal(jobs[k])
  }

  // ---------- what is left for an organization ----------

  function PotentialIn(org: string): Job -> nat { (job: Job) => if job.org == org then Potential(job) else 0 }

  ghost function Left(jobs: Jobs, org: string): nat { Sum(jobs, PotentialIn(org)) }

  lemma NothingLeft(jobs: Jobs, org: string)
    requires Left(jobs, org) == 0 && forall k | k in jobs :: jobs[k].org == k.0
    ensures Finished(jobs, org)
  {
    forall k | k in jobs && k.0 == org ensures Terminal(jobs[k]) {
      SumWithout(jobs, PotentialIn(org), k);
      assert PotentialIn(org)(jobs[k]) == Potential(jobs[k]);
    }
  }

  /** At most three passes are left for each unfinished job. */
  lemma {:induction false} LeftIsBounded(jobs: Jobs, org: string)
    requires forall k | k in jobs :: jobs[k].org == k.0
    ensures Left(jobs, org) <= MAX_ATTEMPTS * |Unfinished(jobs, org)|
    decreases |jobs|
  {
    if jobs != map[] {
      var key :| key in jobs;
      var rest := jobs - {key};
      SumWithout(jobs, PotentialIn(org), key);
      LeftIsBounded(rest, org);
      assert Unfinished(rest, org) == Unfinished(jobs, org) - {key};
      assert PotentialIn(org)(jobs[key]) <= if key in Unfinished(jobs, org) then MAX_ATTEMPTS else 0;
    }
  }

  // ---------- one pass ----------

  /** The job under `key` is left with less potential: ended, or put off by no more than half a minute. */
  predicate EndsOne(before: Jobs, after: Jobs, key: (string, Id), final: Job, now: int) {
    && key in before && after == before[key := final] && Potential(final) < Potential(before[key])
    && (Terminal(final) || (final.state.RETRY_WAIT? && final.availableAt <= now + 31))
  }

  ghost predicate EndsSome(before: Jobs, after: Jobs, org: string, now: int) {
    exists id: Id, final: Job :: EndsOne(before, after, (org, id), final, now)
  }

  /** A pass takes one job on, or finds none that can be claimed and does nothing. */
  ghost predicate Serves(before: Jobs, after: Jobs, org: string, now: int) {
    EndsSome(before, after, org, now) || (after == before && forall k :: !Eligible(before, org, now, k))
  }

  lemma LeavingEnds(
    before: Store, mid: Store, after: Store, org: string, worker: string, token: Id, now: int, job: Job, final: Job)
    requires InHand(before, mid, org, worker, token, now, job) && Leaves(mid, after, (org, job.id), final)
    requires Terminal(final) || (final.state.RETRY_WAIT? && final.attempt == job.attempt && job.attempt < MAX_ATTEMPTS
                                 && final.availableAt <= now + 31)
    ensures EndsSome(before.jobs, after.jobs, org, now)
  {
    assert after.jobs == before.jobs[(org, job.id) := final];
    assert EndsOne(before.jobs, after.jobs, (org, job.id), final, now);
  }

  lemma GiveUpEnds(
    s: Store, s1: Store, org: string, worker: string, now: int, token: Id, endId: Id, job: Job, reason: string)
    requires InHand(s, s1, org, worker, token, now, job)
    ensures var out := GiveUp(s1, org, job.id, worker, token, now + 1, reason, endId);
      out.Returned? ==> EndsSome(s.jobs, out.store.jobs, org, now) && out.store.failpoints == s1.failpoints
  {
    FailLeaves(s1, org, job.id, worker, token, now + 1, reason, endId);
    var out := Fail(s1, org, job.id, worker, token, now + 1, reason, false, endId);
    if out.Returned? {
      var final :| Leaves(s1, out.store, (org, job.id), final) && final.state.DEAD_LETTERED?;
      LeavingEnds(s, s1, out.store, org, worker, token, now, job, final);
    }
  }

  lemma RetryKeepsFailpoints(
    s: Store, org: string, jobId: Id, worker: string, token: Id, now: int, reason: string, eventId: Id)
    ensures var out := Retry(s, org, jobId, worker, token, now, reason, eventId);
      out.Returned? ==> out.store.failpoints == s.failpoints
  {
    var failed := Fail(s, org, jobId, worker, token, now, "RETRY_EXHAUSTED", false, eventId);
    assert failed.Returned? ==> failed.store.failpoints == s.failpoints;
  }

  lemma RetryEnds(
    s: Store, s1: Store, org: string, worker: string, now: int, token: Id, endId: Id, job: Job, reason: string)
    requires InHand(s, s1, org, worker, token, now, job) && Paired(s1.jobs, s1.operations)
    ensures var out := Retry(s1, org, job.id, worker, token, now + 1, reason, endId);
      out.Returned? ==> EndsSome(s.jobs, out.store.jobs, org, now) && out.store.failpoints == s1.failpoints
  {
    RetryLeaves(s1, org, job.id, worker, token, now + 1, reason, endId);
    RetryKeepsFailpoints(s1, org, job.id, worker, token, now + 1, reason, endId);
    var out := Retry(s1, org, job.id, worker, token, now + 1, reason, endId);
    if out.Returned? {
      if out.value.state.RETRY_WAIT? {
        RetryPutsOff(s1, org, job.id, worker, token, now + 1, reason, endId);
      }
      LeavingEnds(s, s1, out.store, org, worker, token, now, job, out.value);
    }
  }

  lemma SuccessKeepsFailpoints(
    s: Store, org: string, jobId: Id, worker: string, token: Id, now: int, outputs: Outputs, eventId: Id)
    ensures var out := Succeed(s, org, jobId, worker, token, now, outputs, eventId);
      out.Returned? ==> out.store.failpoints == s.failpoints
  {
  }

  lemma SuccessEnds(
    s: Store, s1: Store, org: string, worker: string, now: int, token: Id, endId: Id, job: Job, outputs: Outputs)
    requires InHand(s, s1, org, worker, token, now, job)
    ensures var out := Succeed(s1, org, job.id, worker, token, now + 1, outputs, endId);
      && (out.Returned? ==> EndsSome(s.jobs, out.store.jobs, org, now) && out.store.failpoints == s1.failpoints)
      && (out.Raised? && OutputRefusal(out.refusal) ==> out.store == s1)
  {
    SucceedLeaves(s1, org, job.id, worker, token, now + 1, outputs, endId);
    SuccessKeepsFailpoints(s1, org, job.id, worker, token, now + 1, outputs, endId);
    var out := Succeed(s1, org, job.id, worker, token, now + 1, outputs, endId);
    if out.Returned? {
      var final :| Leaves(s1, out.store, (org, job.id), final) && final.state.SUCCEEDED?;
      LeavingEnds(s, s1, out.store, org, worker, token, now, job, final);
    }
  }

  lemma ConcludeEnds(
    s: Store, s1: Store, org: string, worker: string, now: int, wheel: string, answer: Compilation, token: Id,
    endId: Id, job: Job)
    requires InHand(s, s1, org, worker, token, now, job) && Paired(s1.jobs, s1.operations)
    ensures var out := Conclude(s1, org, worker, now, wheel, answer, token, endId, job);
      out.Returned? ==> EndsSome(s.jobs, out.store.jobs, org, now) && out.store.failpoints == s1.failpoints
  {
    if job.spec.wheelDigest != wheel {
      GiveUpEnds(s, s1, org, worker, now, token, endId, job, "COMPILER_WHEEL_MISMATCH");
    } else {
      match answer
      case Refused(reason, true) => RetryEnds(s, s1, org, worker, now, token, endId, job, reason);
      case Refused(reason, false) => GiveUpEnds(s, s1, org, worker, now, token, endId, job, reason);
      case Produced(outputs) =>
        SuccessEnds(s, s1, org, worker, now, token, endId, job, outputs);
        var out := Succeed(s1, org, job.id, worker, token, now + 1, outputs, endId);
        if out.Raised? && OutputRefusal(out.refusal) {
          GiveUpEnds(s, s1, org, worker, now, token, endId, job, RefusalText(out.refusal));
        }
    }
  }

  /** A pass of a worker whose compiler gives well-formed reason codes. */
  predicate IsPass(a: Action) { a.Pass? && WellFormed(a.answer) }

  /** A pass that completes serves the queue and leaves no failpoint armed. */
  lemma PassServes(w: World, a: Action)
    requires Invariant(w) && w.store.failpoints == {} && IsPass(a)
    requires Fresh(w, ClaimStep(a.org, a.worker, a.now, 60, a.token, a.startId))
    ensures var out := PassOutcome(w.store, a);
      Serves(w.store.jobs, out.store.jobs, a.org, a.now) && out.store.failpoints == {}
  {
    var out := PassOutcome(w.store, a);
    var claim := Claim(w.store, a.org, a.worker, a.now, 60, a.token, a.startId);
    PassNeverRaises(w, a.org, a.worker, a.now, a.wheel, a.answer, a.token, a.startId, a.endId);
    ClaimTakesInHand(w.store, a.org, a.worker, a.now, a.token, a.startId);
    if claim.value.Some? {
      StepKeepsInvariant(w, ClaimStep(a.org, a.worker, a.now, 60, a.token, a.startId));
      var job := claim.value.value;
      ConcludeEnds(w.store, claim.store, a.org, a.worker, a.now, a.wheel, a.answer, a.token, a.endId, job);
    } else {
      assert out.value.IDLE_NO_JOB?;
    }
  }

  lemma ActionServes(w: World, a: Action)
    requires Invariant(w) && w.store.failpoints == {} && IsPass(a) && Feasible(w, Calls(w.store, a))
    ensures var v := AfterAction(w, a);
      Invariant(v) && v.store.failpoints == {} && Serves(w.store.jobs, v.store.jobs, a.org, a.now)
  {
    assert Calls(w.store, a)[0] == ClaimStep(a.org, a.worker, a.now, 60, a.token, a.startId);
    PassServes(w, a);
    PassIsItsCalls(w, a);
    RunKeepsInvariant(w, Calls(w.store, a));
  }

  // ---------- many passes ----------

  predicate ArePasses(actions: seq<Action>) { forall i | 0 <= i < |actions| :: IsPass(actions[i]) }

  predicate IsFor(org: string, a: Action) { a.Pass? && a.org == org }

  /** The earliest instant for the next pass for the organization. */
  function NextAt(org: string, t: int, a: Action): int { if IsFor(org, a) then a.now + 31 else t }

  /** Passes for the organization are made at or after `t`, and 31 seconds or more apart. */
  predicate Spaced(org: string, t: int, actions: seq<Action>)
    decreases |actions|
  {
    actions != [] ==>
      (IsFor(org, actions[0]) ==> t <= actions[0].now) && Spaced(org, NextAt(org, t, actions[0]), actions[1..])
  }

  /** The number of passes for the organization. */
  function PassesFor(org: string, actions: seq<Action>): nat {
    if actions == [] then 0 else (if IsFor(org, actions[0]) then 1 else 0) + PassesFor(org, actions[1..])
  }

  predicate OrgsKeyed(jobs: Jobs) { forall k | k in jobs :: jobs[k].org == k.0 }

  lemma ForeignPassIsNotSeen(before: Jobs, after: Jobs, served: string, now: int, org: string, t: int)
    requires OrgsKeyed(before) && OrgsKeyed(after) && Serves(before, after, served, now) && served != org
    ensures DueBy(before, org, t) ==> DueBy(after, org, t)
    ensures Finished(before, org) ==> Finished(after, org)
    ensures Left(after, org) == Left(before, org)
  {
    if EndsSome(before, after, served, now) {
      var id, final :| EndsOne(before, after, (served, id), final, now);
      assert after[(served, id)] == final;
      SumReplaced(before, PotentialIn(org), (served, id), final);
    }
  }

  lemma OwnPassServes(before: Jobs, after: Jobs, org: string, t: int, now: int)
    requires OrgsKeyed(before) && OrgsKeyed(after) && Serves(before, after, org, now)
    requires DueBy(before, org, t) && t <= now
    ensures DueBy(after, org, now + 31)
    ensures Finished(before, org) ==> Finished(after, org)
    ensures Finished(before, org) || Left(after, org) < Left(before, org)
  {
    if EndsSome(before, after, org, now) {
      var id, final :| EndsOne(before, after, (org, id), final, now);
      assert after[(org, id)] == final;
      SumReplaced(before, PotentialIn(org), (org, id), final);
    } else {
      forall k | k in before && k.0 == org ensures Terminal(before[k]) {
        assert !Eligible(before, org, now, k);
      }
    }
  }

  lemma JobsAreKeyed(w: World)
    requires Invariant(w)
    ensures OrgsKeyed(w.store.jobs)
  {
  }

  /** The organization's jobs are due, and finished or outnumbered by the passes to come. */
  ghost predicate WillFinish(jobs: Jobs, org: string, t: int, passes: nat) {
    DueBy(jobs, org, t) && (Finished(jobs, org) || passes >= Left(jobs, org))
  }

  /** One pass, for this organization or another, and one less to come. */
  lemma JobsMove(before: Jobs, after: Jobs, a: Action, org: string, t: int, passes: nat)
    requires OrgsKeyed(before) && OrgsKeyed(after) && a.Pass? && Serves(before, after, a.org, a.now)
    requires IsFor(org, a) ==> t <= a.now
    requires WillFinish(before, org, t, passes + if IsFor(org, a) then 1 else 0)
    ensures WillFinish(after, org, NextAt(org, t, a), passes)
  {
    if a.org == org {
      OwnPassServes(before, after, org, t, a.now);
    } else {
      ForeignPassIsNotSeen(before, after, a.org, a.now, org, t);
    }
  }

  lemma PassMoves(w: World, v: World, a: Action, org: string, t: int, passes: nat)
    requires Invariant(w) && w.store.failpoints == {} && IsPass(a) && Feasible(w, Calls(w.store, a))
    requires v == AfterAction(w, a) && (IsFor(org, a) ==> t <= a.now)
    requires WillFinish(w.store.jobs, org, t, passes + if IsFor(org, a) then 1 else 0)
    ensures Invariant(v) && v.store.failpoints == {} && WillFinish(v.store.jobs, org, NextAt(org, t, a), passes)
  {
    ActionServes(w, a);
    JobsAreKeyed(w);
    JobsAreKeyed(v);
    JobsMove(w.store.jobs, v.store.jobs, a, org, t, passes);
  }

  lemma NoPassLeft(w: World, org: string, t: int)
    requires Invariant(w) && WillFinish(w.store.jobs, org, t, 0)
    ensures Finished(w.store.jobs, org)
  {
    JobsAreKeyed(w);
    if !Finished(w.store.jobs, org) {
      NothingLeft(w.store.jobs, org);
    }
  }

  lemma FirstAction(w: World, actions: seq<Action>, a: Action, rest: seq<Action>)
    requires actions != [] && FeasibleActions(w, actions) && a == actions[0] && rest == actions[1..]
    ensures Feasible(w, Calls(w.store, a)) && FeasibleActions(AfterAction(w, a), rest)
    ensures RunActions(w, actions) == RunActions(AfterAction(w, a), rest)
  {
  }

  lemma FirstPass(org: string, t: int, passes: seq<Action>, a: Action, rest: seq<Action>)
    requires passes != [] && ArePasses(passes) && Spaced(org, t, passes) && a == passes[0] && rest == passes[1..]
    ensures IsPass(a) && ArePasses(rest) && (IsFor(org, a) ==> t <= a.now) && Spaced(org, NextAt(org, t, a), rest)
    ensures PassesFor(org, passes) == PassesFor(org, rest) + if IsFor(org, a) then 1 else 0
  {
  }

  lemma {:induction false} PassesFinish(w: World, org: string, passes: seq<Action>, t: int)
    requires Invariant(w) && w.store.failpoints == {} && FeasibleActions(w, passes)
    requires ArePasses(passes) && Spaced(org, t, passes)
    requires WillFinish(w.store.jobs, org, t, PassesFor(org, passes))
    ensures Finished(RunActions(w, passes).store.jobs, org)
    decreases |passes|
  {
    if passes == [] {
      NoPassLeft(w, org, t);
    } else {
      var a, rest := passes[0], passes[1..];
      var v := AfterAction(w, a);
      FirstAction(w, passes, a, rest);
      FirstPass(org, t, passes, a, rest);
      PassMoves(w, v, a, org, t, PassesFor(org, rest));
      PassesFinish(v, org, rest, NextAt(org, t, a));
    }
  }

  /** There is an instant by which everything unfinished can be claimed. */
  lemma {:induction false} SomeInstantIsDue(jobs: Jobs, org: string) returns (t: int)
    requires forall k | k in jobs :: jobs[k].lease.Some? <==> jobs[k].state.LEASED?
    ensures DueBy(jobs, org, t)
    decreases |jobs|
  {
    if jobs == map[] {
      t := 0;
    } else {
      var key :| key in jobs;
      var rest := SomeInstantIsDue(jobs - {key}, org);
      var own := if jobs[key].lease.Some? then jobs[key].lease.value.expiresAt else jobs[key].availableAt;
      t := if own < rest then rest else own;
      forall k | k in jobs && k.0 == org ensures Terminal(jobs[k]) || Claimable(jobs[k], t) {
        if k != key {
          assert k in jobs - {key};
        }
      }
    }
  }

  /**
   From every reachable store without armed failpoints there is an instant such that any passes, of any
   workers and for any organizations, whatever the compilers answer, leave every job of the organization
   succeeded or dead-lettered, if those for it begin no earlier than that, follow one another by 31
   seconds or more, and are three for each job of it that was unfinished.
   */
  lemma EveryJobEnds(w: World, org: string) returns (t: int)
    requires Invariant(w) && w.store.failpoints == {}
    ensures DueBy(w.store.jobs, org, t)
    ensures forall passes: seq<Action> |
      && ArePasses(passes) && FeasibleActions(w, passes) && Spaced(org, t, passes)
      && PassesFor(org, passes) >= MAX_ATTEMPTS * |Unfinished(w.store.jobs, org)| ::
        Finished(RunActions(w, passes).store.jobs, org)
  {
    forall k | k in w.store.jobs ensures w.store.jobs[k].lease.Some? <==> w.store.jobs[k].state.LEASED? {
      assert InStep(w.store.jobs[k], w.store.operations[OperationKey(w.store.jobs[k])]);
    }
    t := SomeInstantIsDue(w.store.jobs, org);
    JobsAreKeyed(w);
    LeftIsBounded(w.store.jobs, org);
    forall passes: seq<Action> |
      && ArePasses(passes) && FeasibleActions(w, passes) && Spaced(org, t, passes)
      && PassesFor(org, passes) >= MAX_ATTEMPTS * |Unfinished(w.store.jobs, org)|
      ensures Finished(RunActions(w, passes).store.jobs, org)
    {
      PassesFinish(w, org, passes, t);
    }
  }

  // ---------- such passes exist ----------

  /** A pass with three identifiers from `first` on. */
  function PassAt(org: string, now: int, first: Id): Action {
    Pass(org, "w", now, "", Refused("R", false), first, first + 1, first + 2)
  }

  lemma PassIsFeasible(w: World, org: string, now: int, first: Id)
    requires forall id | id in w.issued :: id < first
    ensures Feasible(w, Calls(w.store, PassAt(org, now, first))) && IsPass(PassAt(org, now, first))
  {
    var a := PassAt(org, now, first);
    var calls := Calls(w.store, a);
    assert IsReason("R");
    assert calls[0] == ClaimStep(org, "w", now, 60, first, first + 1);
    if |calls| > 1 {
      assert Drawn(calls[1]) == {first + 2} && calls[1..][1..] == [];
    }
  }

  lemma OnePassMore(w: World, v: World, org: string, t: int, a: Action, rest: seq<Action>, passes: seq<Action>)
    requires v == AfterAction(w, a) && passes == [a] + rest && IsPass(a) && IsFor(org, a) && a.now == t
    requires Feasible(w, Calls(w.store, a)) && FeasibleActions(v, rest) && ArePasses(rest) && Spaced(org, t + 31, rest)
    ensures FeasibleActions(w, passes) && ArePasses(passes) && Spaced(org, t, passes)
    ensures PassesFor(org, passes) == PassesFor(org, rest) + 1
  {
    assert passes[1..] == rest;
  }

  lemma {:induction false} PassesExist(w: World, org: string, t: int, n: nat) returns (passes: seq<Action>)
    ensures FeasibleActions(w, passes) && ArePasses(passes) && Spaced(org, t, passes) && PassesFor(org, passes) == n
    decreases n
  {
    passes := [];
    if n > 0 {
      var first := SomeFreshId(w.issued);
      var a := PassAt(org, t, first);
      PassIsFeasible(w, org, t, first);
      var rest := PassesExist(AfterAction(w, a), org, t + 31, n - 1);
      passes := [a] + rest;
      OnePassMore(w, AfterAction(w, a), org, t, a, rest, passes);
    }
  }

  /** So from every reachable store without armed failpoints, all jobs of an organization can be ended by passes. */
  lemma JobsCanEnd(w: World, org: string) returns (passes: seq<Action>)
    requires Invariant(w) && w.store.failpoints == {}
    ensures FeasibleActions(w, passes) && ArePasses(passes)
    ensures Finished(RunActions(w, passes).store.jobs, org)
  {
    var t := EveryJobEnds(w, org);
    passes := PassesExist(w, org, t, MAX_ATTEMPTS * |Unfinished(w.store.jobs, org)|);
  }
}
