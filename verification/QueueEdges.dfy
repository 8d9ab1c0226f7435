/**
 Runs that show where the obvious stronger claims about the queue fail: attempts are not bounded
 by three, and a succeeded operation need not refer to the revision stored for its binding.
 */
module QueueEdges {
  import opened Basics
  import opened QueueModel
  import opened QueueCommits
  import opened QueueInvariant
  import opened QueueResults

  ghost predicate Admissible(spec: JobSpec, keyDigest: string) {
    IsSha256(spec.demandDigest) && IsSha256(spec.inputDigest) && IsSha256(spec.catalogDigest)
    && IsSha256(spec.wheelDigest) && IsSha256(keyDigest)
  }

  lemma RunAppend(w: World, steps: seq<Step>, last: Step)
    ensures Run(w, steps + [last]) == Next(Run(w, steps), last)
    ensures Feasible(w, steps + [last]) <==> Feasible(w, steps) && Fresh(Run(w, steps), last)
  {
    RunConcat(w, steps, [last]);
    var w1 := Run(w, steps);
    assert [last][1..] == [] && Run(Next(w1, last), []) == Next(w1, last);
    assert Run(w1, [last]) == Next(w1, last);
  }

  lemma RunThree(w: World, steps: seq<Step>, w1: World, w2: World, w3: World)
    requires |steps| == 3 && w1 == Next(w, steps[0]) && w2 == Next(w1, steps[1]) && w3 == Next(w2, steps[2])
    ensures Run(w, steps) == w3
    ensures Feasible(w, steps) <==> Fresh(w, steps[0]) && Fresh(w1, steps[1]) && Fresh(w2, steps[2])
  {
    assert steps[1..][0] == steps[1] && steps[1..][1..] == [steps[2]] && [steps[2]][1..] == [];
    assert Run(w3, []) == w3;
    assert Run(w2, [steps[2]]) == w3;
    assert Run(w1, steps[1..]) == w3;
    assert Feasible(w2, [steps[2]]) <==> Fresh(w2, steps[2]);
    assert Feasible(w1, steps[1..]) <==> Fresh(w1, steps[1]) && Fresh(w2, steps[2]);
  }

  function FirstJob(spec: JobSpec, operationId: Id, jobId: Id): Job {
    Job(jobId, "o", operationId, spec, QUEUED, 0, 0, 0, None, None, None)
  }

  function FirstOperation(operationId: Id): Operation { Operation(operationId, "o", PENDING, 1, 0, 0, [], None, None) }

  // ---------- attempts ----------

  /** A store with one unfinished job, attempted so often and leased for a minute each time. */
  ghost predicate OneJob(s: Store, attempt: nat) {
    && s.failpoints == {} && s.jobs.Keys == {("o", 1)} && s.operations.Keys == {("o", 0)}
    && var job, operation := s.jobs[("o", 1)], s.operations[("o", 0)];
    && job.id == 1 && job.org == "o" && job.operationId == 0 && job.attempt == attempt
    && operation.id == 0 && operation.org == "o"
    && (if attempt == 0 then job.state.QUEUED? && job.availableAt == 0 && operation.state.PENDING?
        else
          job.state.LEASED? && job.lease.Some? && job.lease.value.expiresAt == 60 * attempt
          && operation.state.RUNNING?)
  }

  lemma OnlyJobIsNext(jobs: map<(string, Id), Job>, key: (string, Id), now: int)
    requires jobs.Keys == {key} && Claimable(jobs[key], now)
    ensures NextJob(jobs, key.0, now) == Some(key)
  {
    assert IsNext(jobs, key.0, now, key);
    assert forall k | IsNext(jobs, key.0, now, k) :: k == key;
  }

  lemma ClaimAgain(s: Store, attempt: nat, now: int, token: Id, eventId: Id)
    requires OneJob(s, attempt) && now == 60 * attempt
    ensures OneJob(Claim(s, "o", "w", now, 60, token, eventId).store, attempt + 1)
  {
    OnlyJobIsNext(s.jobs, ("o", 1), now);
  }

  lemma CreatesOneJob(spec: JobSpec, keyDigest: string)
    requires Admissible(spec, keyDigest)
    ensures OneJob(Perform(EMPTY_STORE, CreateStep("o", spec, keyDigest, 0, 0, 1)), 0)
  {
  }

  /** The i-th claim of the job, when the lease before it has just run out. */
  function MinuteClaim(i: nat): Step
    requires i > 0
  {
    ClaimStep("o", "w", 60 * (i - 1), 60, 2 * i, 2 * i + 1)
  }

  lemma ClaimsAgain(s: Store, n: nat)
    requires n > 0 && OneJob(s, n - 1)
    ensures OneJob(Perform(s, MinuteClaim(n)), n)
  {
    ClaimAgain(s, n - 1, 60 * (n - 1), 2 * n, 2 * n + 1);
  }

  /** For every n there is a run after which a job has been attempted n times, by claims a minute apart with leases
      of a minute. */
  lemma {:induction false} AttemptsAreUnbounded(spec: JobSpec, keyDigest: string, n: nat) returns (steps: seq<Step>)
    requires Admissible(spec, keyDigest)
    ensures Feasible(START, steps)
    ensures OneJob(Run(START, steps).store, n)
    ensures |steps| == n + 1 && forall i | 0 < i <= n :: steps[i] == MinuteClaim(i)
    ensures forall id | id in Run(START, steps).issued :: id < 2 + 2 * n
  {
    if n == 0 {
      var first := CreateStep("o", spec, keyDigest, 0, 0, 1);
      RunAppend(START, [], first);
      CreatesOneJob(spec, keyDigest);
      assert [] + [first] == [first];
      steps := [first];
    } else {
      var before := AttemptsAreUnbounded(spec, keyDigest, n - 1);
      var next := MinuteClaim(n);
      RunAppend(START, before, next);
      ClaimsAgain(Run(START, before).store, n);
      steps := before + [next];
    }
  }

  // ---------- references ----------

  /** The bytes of a profile.json and the identifier of the profile they describe when they are parsed. */
  datatype Document = Document(bytes: Bytes, profileId: string)

  /** The outputs of a compilation that produced this document. */
  function Compiled(d: Document): Outputs { Outputs(OUTPUT_NAMES, d.bytes, Some(Sha256(d.bytes)), Some(d.profileId)) }

  /** Only finished jobs, and every bound revision stored. */
  ghost predicate AllDone(s: Store) {
    && s.failpoints == {}
    && (forall k | k in s.jobs :: Terminal(s.jobs[k]))
    && Stored(s)
  }

  ghost predicate Stored(s: Store) {
    forall b | b in s.bindings :: s.bindings[b] in s.profiles && s.profiles[s.bindings[b]].key == s.bindings[b]
  }

  /** Afterwards the new operation refers to these outputs, and the binding keeps its first revision. */
  ghost predicate Compiles(s: Store, t: Store, binding: Binding, operationId: Id, d: Document) {
    && AllDone(t) && Stored(s)
    && ("o", operationId) in t.operations
    && t.operations[("o", operationId)].state.SUCCEEDED?
    && t.operations[("o", operationId)].resultRefs == [Reference(d.profileId, Sha256(d.bytes))]
    && binding in t.bindings && t.bindings[binding] in t.profiles
    && (if binding in s.bindings
        then t.bindings == s.bindings && t.profiles[t.bindings[binding]] == s.profiles[s.bindings[binding]]
        else t.profiles[t.bindings[binding]].profile == d.bytes)
  }

  function BindingFor(spec: JobSpec): Binding { BindingOf(FirstJob(spec, 0, 0)) }

  lemma CreatedRow(s: Store, spec: JobSpec, keyDigest: string, now: int, first: Id)
    requires Admissible(spec, keyDigest) && s.failpoints == {}
    ensures CreateJob(s, "o", spec, keyDigest, now, first, first + 1).store
      == s.(operations := s.operations[("o", first) := FirstOperation(first).(requestedAt := now, updatedAt := now)],
            jobs := s.jobs[("o", first + 1) := FirstJob(spec, first, first + 1).(availableAt := now, createdAt := now)],
            audit := s.audit + [CompilationRequested(first)])
  {
  }

  lemma RoundClaims(s: Store, t: Store, job: Job, operation: Operation, now: int, token: Id, eventId: Id)
    requires AllDone(s) && ("o", job.id) !in s.jobs && job.org == "o" && job.operationId == operation.id
    requires job.state.QUEUED? && job.availableAt <= now && operation.org == "o" && operation.state.PENDING?
    requires t.failpoints == {} && t.jobs == s.jobs[("o", job.id) := job]
      && t.operations == s.operations[("o", operation.id) := operation]
    ensures var started := Started(operation, now);
      Claim(t, "o", "w", now, 60, token, eventId).store
        == Transition(t, ("o", job.id), Claimed(job, "w", now, 60, token), started,
          EventOf(started, PENDING, "COMPILATION_STARTED", eventId))
  {
    assert forall k | k in t.jobs && Claimable(t.jobs[k], now) :: k == ("o", job.id);
    assert IsNext(t.jobs, "o", now, ("o", job.id));
  }

  lemma RoundSucceeds(s: Store, job: Job, operation: Operation, now: int, token: Id, eventId: Id, d: Document)
    requires s.failpoints == {} && (forall k | k in s.jobs && k != ("o", job.id) :: Terminal(s.jobs[k]))
    requires Stored(s)
    requires ("o", job.id) in s.jobs && s.jobs[("o", job.id)] == job && job.org == "o"
      && job.operationId == operation.id
    requires job.state.LEASED? && job.lease.Some? && job.lease.value.owner == "w" && job.lease.value.token == token
      && now < job.lease.value.expiresAt
    requires ("o", operation.id) in s.operations && s.operations[("o", operation.id)] == operation
      && operation.state.RUNNING?
    ensures Compiles(s, Succeed(s, "o", job.id, "w", token, now, Compiled(d), eventId).store, BindingOf(job),
      operation.id, d)
  {
    assert ValidateOutputs(Compiled(d)) == Ok(d.profileId);
  }

  function RoundSteps(spec: JobSpec, keyDigest: string, now: int, first: Id, d: Document): seq<Step> {
    [CreateStep("o", spec, keyDigest, now, first, first + 1),
     ClaimStep("o", "w", now, 60, first + 2, first + 3),
     SucceedStep("o", first + 1, "w", first + 2, now + 1, Compiled(d), first + 4)]
  }

  /** The three calls of a round draw consecutive identifiers. */
  lemma RoundIsFeasible(w: World, steps: seq<Step>, spec: JobSpec, keyDigest: string, now: int, first: Id, d: Document)
    requires steps == RoundSteps(spec, keyDigest, now, first, d)
    requires forall id | id in w.issued :: id < first
    ensures Feasible(w, steps)
    ensures Run(w, steps).issued == w.issued + {first, first + 1} + {first + 2, first + 3} + {first + 4}
    ensures Run(w, steps).store == Perform(Perform(Perform(w.store, steps[0]), steps[1]), steps[2])
  {
    var w1 := Next(w, steps[0]);
    var w2 := Next(w1, steps[1]);
    var w3 := Next(w2, steps[2]);
    RunThree(w, steps, w1, w2, w3);
  }

  lemma RoundPerformed(s: Store, steps: seq<Step>, spec: JobSpec, keyDigest: string, now: int, first: Id, d: Document)
    requires steps == RoundSteps(spec, keyDigest, now, first, d)
    ensures Perform(s, steps[0]) == CreateJob(s, "o", spec, keyDigest, now, first, first + 1).store
    ensures Perform(s, steps[1]) == Claim(s, "o", "w", now, 60, first + 2, first + 3).store
    ensures Perform(s, steps[2]) == Succeed(s, "o", first + 1, "w", first + 2, now + 1, Compiled(d), first + 4).store
  {
  }

  lemma RoundCompiles(s: Store, steps: seq<Step>, spec: JobSpec, keyDigest: string, now: int, first: Id, d: Document)
    requires steps == RoundSteps(spec, keyDigest, now, first, d)
    requires Admissible(spec, keyDigest) && AllDone(s) && ("o", first + 1) !in s.jobs
    ensures var t := Perform(Perform(Perform(s, steps[0]), steps[1]), steps[2]);
      Compiles(s, t, BindingFor(spec), first, d) && t.jobs.Keys == s.jobs.Keys + {("o", first + 1)}
  {
    var s1 := Perform(s, steps[0]);
    var s2 := Perform(s1, steps[1]);
    RoundPerformed(s, steps, spec, keyDigest, now, first, d);
    RoundPerformed(s1, steps, spec, keyDigest, now, first, d);
    RoundPerformed(s2, steps, spec, keyDigest, now, first, d);
    RoundAtStore(s, s1, s2, spec, keyDigest, now, first, d);
  }

  /** Creating, claiming and compiling one job in a store of finished jobs. */
  lemma Round(w: World, spec: JobSpec, keyDigest: string, now: int, first: Id, d: Document)
    requires Admissible(spec, keyDigest) && AllDone(w.store) && ("o", first + 1) !in w.store.jobs
    requires forall id | id in w.issued :: id < first
    ensures Feasible(w, RoundSteps(spec, keyDigest, now, first, d))
    ensures Compiles(w.store, Run(w, RoundSteps(spec, keyDigest, now, first, d)).store, BindingFor(spec), first, d)
    ensures Run(w, RoundSteps(spec, keyDigest, now, first, d)).issued
         == w.issued + {first, first + 1} + {first + 2, first + 3} + {first + 4}
    ensures Run(w, RoundSteps(spec, keyDigest, now, first, d)).store.jobs.Keys == w.store.jobs.Keys + {("o", first + 1)}
  {
    var steps := RoundSteps(spec, keyDigest, now, first, d);
    RoundIsFeasible(w, steps, spec, keyDigest, now, first, d);
    RoundCompiles(w.store, steps, spec, keyDigest, now, first, d);
  }

  lemma RoundAtStore(s: Store, s1: Store, s2: Store, spec: JobSpec, keyDigest: string, now: int, first: Id, d: Document)
    requires Admissible(spec, keyDigest) && AllDone(s) && ("o", first + 1) !in s.jobs
    requires s1 == CreateJob(s, "o", spec, keyDigest, now, first, first + 1).store
    requires s2 == Claim(s1, "o", "w", now, 60, first + 2, first + 3).store
    ensures var t := Succeed(s2, "o", first + 1, "w", first + 2, now + 1, Compiled(d), first + 4).store;
      Compiles(s, t, BindingFor(spec), first, d) && t.jobs.Keys == s.jobs.Keys + {("o", first + 1)}
  {
    var job := FirstJob(spec, first, first + 1).(availableAt := now, createdAt := now);
    var operation := FirstOperation(first).(requestedAt := now, updatedAt := now);
    CreatedRow(s, spec, keyDigest, now, first);
    RoundClaims(s, s1, job, operation, now, first + 2, first + 3);
    RoundSucceeds(s2, Claimed(job, "w", now, 60, first + 2), Started(operation, now), now + 1, first + 2, first + 4, d);
  }

  /**
   After two compilations of one binding to documents whose bytes differ, if only in white space, the
   second operation refers to outputs that are not those of the revision stored for the binding.
   */
  lemma ReferenceCanDiffer(spec: JobSpec, keyDigest: string, d: Document, e: Document)
    requires Admissible(spec, keyDigest) && d.bytes != e.bytes
    ensures var steps := RoundSteps(spec, keyDigest, 0, 0, d) + RoundSteps(spec, keyDigest, 5, 5, e);
      && Feasible(START, steps)
      && var t := Run(START, steps).store;
      && ("o", 5) in t.operations && BindingFor(spec) in t.bindings && t.bindings[BindingFor(spec)] in t.profiles
      && t.operations[("o", 5)].state.SUCCEEDED?
      && !RefersToStored(t.operations[("o", 5)], t.profiles[t.bindings[BindingFor(spec)]])
  {
    var first, second := RoundSteps(spec, keyDigest, 0, 0, d), RoundSteps(spec, keyDigest, 5, 5, e);
    Round(START, spec, keyDigest, 0, 0, d);
    var w := Run(START, first);
    Round(w, spec, keyDigest, 5, 5, e);
    RunConcat(START, first, second);
  }

  lemma {:induction false} RunConcat(w: World, a: seq<Step>, b: seq<Step>)
    ensures Run(w, a + b) == Run(Run(w, a), b)
    ensures Feasible(w, a + b) <==> Feasible(w, a) && Feasible(Run(w, a), b)
    decreases |a|
  {
    if a == [] {
      assert a + b == b;
    } else {
      assert (a + b)[0] == a[0] && (a + b)[1..] == a[1..] + b;
      RunConcat(Next(w, a[0]), a[1..], b);
    }
  }
}
