/**
 Consequences for single calls in reachable stores: which refusals can happen, what a raised call
 leaves behind, what compiled results promise, and how often a job can be attempted.
 */
module QueueResults {
  import opened Basics
  import opened QueueModel
  import opened QueueCommits
  import opened QueueInvariant

  // ---------- refusals ----------

  /** The refusal a call ends with, if it raises. */
  ghost function RefusalOf(s: Store, step: Step): Option<Refusal> {
    match step
    case CreateStep(org, spec, keyDigest, now, operationId, jobId) =>
      Why(CreateJob(s, org, spec, keyDigest, now, operationId, jobId))
    case ClaimStep(org, worker, now, leaseSeconds, token, eventId) =>
      Why(Claim(s, org, worker, now, leaseSeconds, token, eventId))
    case ExtendStep(org, jobId, worker, token, now, leaseSeconds) =>
      Why(Extend(s, org, jobId, worker, token, now, leaseSeconds))
    case RetryStep(org, jobId, worker, token, now, reason, eventId) =>
      Why(Retry(s, org, jobId, worker, token, now, reason, eventId))
    case FailStep(org, jobId, worker, token, now, reason, retryable, eventId) =>
      Why(Fail(s, org, jobId, worker, token, now, reason, retryable, eventId))
    case SucceedStep(org, jobId, worker, token, now, outputs, eventId) =>
      Why(Succeed(s, org, jobId, worker, token, now, outputs, eventId))
    case DeliverStep(source, allowed, crash) =>
      Why(DeliverNext(s, source, allowed, crash))
    case ArmStep(_) => None
  }

  function Why<T>(out: Outcome<T>): Option<Refusal> {
    match out
    case Returned(_, _) => None
    case Raised(_, refusal) => Some(refusal)
  }

  ghost predicate Healthy(s: Store) {
    Keyed(s.jobs, s.operations) && Paired(s.jobs, s.operations) && WriteOnce(s.jobs, s.profiles, s.bindings)
  }

  predicate Broken(r: Option<Refusal>) { r == Some(KEY_ERROR) || r == Some(OPERATION_TERMINAL) }

  lemma ClaimFindsItsRows(s: Store, org: string, worker: string, now: int, leaseSeconds: int, token: Id, eventId: Id)
    requires Healthy(s)
    ensures !Broken(Why(Claim(s, org, worker, now, leaseSeconds, token, eventId)))
  {
    var next := NextJob(s.jobs, org, now);
    if next.Some? {
      OperationFound(s, next.value);
    }
  }

  lemma FailFindsItsRows(
    s: Store, org: string, jobId: Id, worker: string, token: Id, now: int, reason: string, retryable: bool, eventId: Id)
    requires Healthy(s)
    ensures !Broken(Why(Fail(s, org, jobId, worker, token, now, reason, retryable, eventId)))
  {
    if (org, jobId) in s.jobs {
      OperationFound(s, (org, jobId));
    }
  }

  lemma RetryFindsItsRows(
    s: Store, org: string, jobId: Id, worker: string, token: Id, now: int, reason: string, eventId: Id)
    requires Healthy(s)
    ensures !Broken(Why(Retry(s, org, jobId, worker, token, now, reason, eventId)))
  {
    FailFindsItsRows(s, org, jobId, worker, token, now, "RETRY_EXHAUSTED", false, eventId);
  }

  lemma SucceedFindsItsRows(
    s: Store, org: string, jobId: Id, worker: string, token: Id, now: int, outputs: Outputs, eventId: Id)
    requires Healthy(s)
    ensures !Broken(Why(Succeed(s, org, jobId, worker, token, now, outputs, eventId)))
  {
    if (org, jobId) in s.jobs {
      OperationFound(s, (org, jobId));
    }
  }

  lemma OthersFindTheirRows(s: Store, step: Step)
    requires step.CreateStep? || step.ExtendStep? || step.ArmStep?
    ensures !Broken(RefusalOf(s, step))
  {
  }

  lemma DeliverFindsItsRows(s: Store, source: string, allowed: set<string>, crash: bool)
    ensures !Broken(Why(DeliverNext(s, source, allowed, crash)))
  {
  }

  /** In a reachable store no call looks up an absent row or finds a leased job's operation at its end. */
  lemma RowsAreAlwaysFound(w: World, step: Step)
    requires Invariant(w)
    ensures !Broken(RefusalOf(w.store, step))
  {
    HealthyRowsFound(w.store, step);
  }

  lemma HealthyRowsFound(s: Store, step: Step)
    requires Healthy(s)
    ensures !Broken(RefusalOf(s, step))
  {
    match step
    case ClaimStep(org, worker, now, leaseSeconds, token, eventId) =>
      ClaimFindsItsRows(s, org, worker, now, leaseSeconds, token, eventId);
    case RetryStep(org, jobId, worker, token, now, reason, eventId) =>
      RetryFindsItsRows(s, org, jobId, worker, token, now, reason, eventId);
    case FailStep(org, jobId, worker, token, now, reason, retryable, eventId) =>
      FailFindsItsRows(s, org, jobId, worker, token, now, reason, retryable, eventId);
    case SucceedStep(org, jobId, worker, token, now, outputs, eventId) =>
      SucceedFindsItsRows(s, org, jobId, worker, token, now, outputs, eventId);
    case DeliverStep(source, allowed, crash) => DeliverFindsItsRows(s, source, allowed, crash);
    case _ => OthersFindTheirRows(s, step);
  }

  /** A call that raises leaves everything but, at most, the failpoint that stopped it. */
  ghost predicate Atomic<T>(s: Store, out: Outcome<T>) {
    out.Raised? ==>
      && out.store == s.(failpoints := out.store.failpoints)
      && out.store.failpoints <= s.failpoints
      && (out.store.failpoints == s.failpoints <==> !out.refusal.INJECTED_ATOMIC_FAILURE?)
  }

  /** A claim that raises has changed nothing but a failpoint it tripped. */
  lemma ClaimIsAtomic(s: Store, org: string, worker: string, now: int, leaseSeconds: int, token: Id, eventId: Id)
    ensures Atomic(s, Claim(s, org, worker, now, leaseSeconds, token, eventId))
  {
  }

  lemma FailIsAtomic(
    s: Store, org: string, jobId: Id, worker: string, token: Id, now: int, reason: string, retryable: bool, eventId: Id)
    ensures Atomic(s, Fail(s, org, jobId, worker, token, now, reason, retryable, eventId))
  {
  }

  /** So has a retry, also one that gives up. */
  lemma RetryIsAtomic(
    s: Store, org: string, jobId: Id, worker: string, token: Id, now: int, reason: string, eventId: Id)
    ensures Atomic(s, Retry(s, org, jobId, worker, token, now, reason, eventId))
  {
    FailIsAtomic(s, org, jobId, worker, token, now, "RETRY_EXHAUSTED", false, eventId);
    if Leased(s, org, jobId, worker, token, now).Ok? && s.jobs[(org, jobId)].attempt >= MAX_ATTEMPTS {
      var out := Fail(s, org, jobId, worker, token, now, "RETRY_EXHAUSTED", false, eventId);
      assert out.Returned? ==> (org, jobId) in out.store.jobs;
    }
  }

  /** So has a success. */
  lemma SucceedIsAtomic(
    s: Store, org: string, jobId: Id, worker: string, token: Id, now: int, outputs: Outputs, eventId: Id)
    ensures Atomic(s, Succeed(s, org, jobId, worker, token, now, outputs, eventId))
  {
  }

  /** So has the inbox. */
  lemma AcceptIsAtomic(s: Store, source: string, allowed: set<string>, e: Event)
    ensures Atomic(s, AcceptEvent(s, source, allowed, e))
  {
  }

  lemma CreateIsAtomic(s: Store, org: string, spec: JobSpec, keyDigest: string, now: int, operationId: Id, jobId: Id)
    ensures Atomic(s, CreateJob(s, org, spec, keyDigest, now, operationId, jobId))
  {
  }

  lemma ExtendIsAtomic(s: Store, org: string, jobId: Id, worker: string, token: Id, now: int, leaseSeconds: int)
    ensures Atomic(s, Extend(s, org, jobId, worker, token, now, leaseSeconds))
  {
  }

  /** The contents are the same but for failpoints. */
  predicate SameRows(s: Store, t: Store) { t == s.(failpoints := t.failpoints) }

  /** The inbox takes the event, as one it has not had. */
  predicate Takes(s: Store, source: string, allowed: set<string>, e: Event) {
    && source in allowed && e.partitionKey == e.tenant && (e.tenant, e.id) !in s.inbox
    && e.sequence > LastSequence(s, e.tenant, e.subject) && "inbox.before_commit" !in s.failpoints
  }

  lemma TakesExactly(s: Store, source: string, allowed: set<string>, e: Event)
    ensures Takes(s, source, allowed, e) <==>
      AcceptEvent(s, source, allowed, e).Returned? && AcceptEvent(s, source, allowed, e).value
  {
  }

  /** A delivery of an event that the inbox takes, stopped before the receipt by a crash or an armed failpoint. */
  ghost predicate StopsBeforeReceipt(s: Store, step: Step) {
    && step.DeliverStep? && NextEvent(s).Some? && Takes(s, step.source, step.allowed, NextEvent(s).value)
    && (step.crash || "delivery.before_receipt" in s.failpoints)
  }

  lemma RaisedDelivery(s: Store, source: string, allowed: set<string>, crash: bool)
    requires DeliverNext(s, source, allowed, crash).Raised?
    ensures var t := DeliverNext(s, source, allowed, crash).store;
      && (!SameRows(s, t) <==> NextEvent(s).Some? && Takes(s, source, allowed, NextEvent(s).value))
      && (!SameRows(s, t) ==> SameRows(AcceptEvent(s, source, allowed, NextEvent(s).value).store, t))
  {
    var e := NextEvent(s).value;
    AcceptIsAtomic(s, source, allowed, e);
    TakesExactly(s, source, allowed, e);
    var out := AcceptEvent(s, source, allowed, e);
    if out == Returned(out.store, true) {
      assert (e.tenant, e.id) in out.store.inbox && (e.tenant, e.id) !in s.inbox;
    }
  }

  lemma RaisesAfterTaking(s: Store, source: string, allowed: set<string>, crash: bool)
    requires NextEvent(s).Some? && Takes(s, source, allowed, NextEvent(s).value)
    ensures DeliverNext(s, source, allowed, crash).Raised? <==> crash || "delivery.before_receipt" in s.failpoints
  {
    TakesExactly(s, source, allowed, NextEvent(s).value);
  }

  lemma RaisedIsAtomic(s: Store, step: Step)
    requires RefusalOf(s, step).Some? && !step.DeliverStep?
    ensures SameRows(s, Perform(s, step))
  {
    match step
    case CreateStep(org, spec, keyDigest, now, operationId, jobId) =>
      CreateIsAtomic(s, org, spec, keyDigest, now, operationId, jobId);
    case ClaimStep(org, worker, now, leaseSeconds, token, eventId) =>
      ClaimIsAtomic(s, org, worker, now, leaseSeconds, token, eventId);
    case ExtendStep(org, jobId, worker, token, now, leaseSeconds) =>
      ExtendIsAtomic(s, org, jobId, worker, token, now, leaseSeconds);
    case RetryStep(org, jobId, worker, token, now, reason, eventId) =>
      RetryIsAtomic(s, org, jobId, worker, token, now, reason, eventId);
    case FailStep(org, jobId, worker, token, now, reason, retryable, eventId) =>
      FailIsAtomic(s, org, jobId, worker, token, now, reason, retryable, eventId);
    case SucceedStep(org, jobId, worker, token, now, outputs, eventId) =>
      SucceedIsAtomic(s, org, jobId, worker, token, now, outputs, eventId);
    case ArmStep(_) =>
  }

  /**
   A call raises and yet has written something if and only if it is a delivery of an event that passes
   every check of the inbox, stopped before the receipt. Every other call that raises is atomic.
   */
  lemma RaisingWritesExactly(s: Store, step: Step)
    ensures RefusalOf(s, step).Some? && !SameRows(s, Perform(s, step)) <==> StopsBeforeReceipt(s, step)
  {
    if step.DeliverStep? {
      if RefusalOf(s, step).Some? {
        RaisedDelivery(s, step.source, step.allowed, step.crash);
      }
      if NextEvent(s).Some? && Takes(s, step.source, step.allowed, NextEvent(s).value) {
        RaisesAfterTaking(s, step.source, step.allowed, step.crash);
      }
    } else if RefusalOf(s, step).Some? {
      RaisedIsAtomic(s, step);
    }
  }

  // ---------- the inbox entered from outside ----------

  lemma InvariantElsewhere(w: World, t: Store)
    requires Invariant(w) && t.jobs == w.store.jobs && t.operations == w.store.operations && t.outbox == w.store.outbox
    requires t.profiles == w.store.profiles && t.bindings == w.store.bindings
    ensures Invariant(World(t, w.issued))
  {
    assert Drawable(t, w.issued);
  }

  lemma DirectAcceptWrites(s: Store, source: string, allowed: set<string>, e: Event)
    ensures var t := AcceptEvent(s, source, allowed, e).store;
      t == s.(inbox := t.inbox, sequences := t.sequences, audit := t.audit, failpoints := t.failpoints)
  {
  }

  /**
   Handing any event at all to the inbox directly, without the outbox, leaves everything but the inbox,
   its sequences and the audit as it was, so jobs, operations and revisions stay as every run keeps them.
   */
  lemma DirectAcceptKeepsInvariant(w: World, source: string, allowed: set<string>, e: Event)
    requires Invariant(w)
    ensures var t := AcceptEvent(w.store, source, allowed, e).store;
      && t == w.store.(inbox := t.inbox, sequences := t.sequences, audit := t.audit, failpoints := t.failpoints)
      && Invariant(World(t, w.issued))
  {
    DirectAcceptWrites(w.store, source, allowed, e);
    InvariantElsewhere(w, AcceptEvent(w.store, source, allowed, e).store);
  }

  // ---------- results ----------

  /** A stored revision is never replaced or removed, and a binding keeps its first key. */
  ghost predicate Extends(s: Store, t: Store) {
    && (forall key | key in s.profiles :: key in t.profiles && t.profiles[key] == s.profiles[key])
    && (forall b | b in s.bindings :: b in t.bindings && t.bindings[b] == s.bindings[b])
  }

  lemma RecordingExtends(s: Store, c: Commit)
    requires WriteOnce(s.jobs, s.profiles, s.bindings) && Enabled(s, c) && c.Closed? && c.result.Some?
    ensures Extends(s, After(s, c))
  {
    var revision := c.result.value;
    if BindingOf(c.job) in s.bindings {
      assert revision.key == s.bindings[BindingOf(c.job)];
    } else {
      assert revision.key !in s.profiles;
    }
    assert After(s, c).profiles == s.profiles[revision.key := revision];
    assert After(s, c).bindings == s.bindings[BindingOf(c.job) := revision.key];
  }

  lemma CommitExtends(s: Store, c: Commit)
    requires WriteOnce(s.jobs, s.profiles, s.bindings) && Enabled(s, c)
    ensures Extends(s, After(s, c))
  {
    if c.Closed? && c.result.Some? {
      RecordingExtends(s, c);
    } else {
      assert After(s, c).profiles == s.profiles && After(s, c).bindings == s.bindings;
    }
  }

  /** Revisions and bindings are write-once: whatever is called, what is stored stays as it is. */
  lemma {:induction false} RevisionsAreForever(w: World, steps: seq<Step>)
    requires Invariant(w) && Feasible(w, steps)
    ensures Extends(w.store, Run(w, steps).store)
    decreases |steps|
  {
    if steps != [] {
      EveryStepIsOneCommit(w.store, steps[0]);
      CommitExtends(w.store, CommitOf(w.store, steps[0]));
      StepKeepsInvariant(w, steps[0]);
      RevisionsAreForever(Next(w, steps[0]), steps[1..]);
    }
  }

  lemma CommitKeepsTerminal(s: Store, c: Commit, issued: set<Id>, key: (string, Id))
    requires Drawable(s, issued) && Introduced(c) !! issued && Enabled(s, c)
    requires key in s.jobs && Terminal(s.jobs[key])
    ensures key in After(s, c).jobs && After(s, c).jobs[key] == s.jobs[key]
  {
    JobsAfter(s, c);
    if Rewrites(c) {
      RewritesOneJob(s, c);
    }
  }

  lemma TerminalStays(w: World, step: Step, key: (string, Id))
    requires Invariant(w) && Fresh(w, step) && key in w.store.jobs && Terminal(w.store.jobs[key])
    ensures key in Next(w, step).store.jobs && Next(w, step).store.jobs[key] == w.store.jobs[key]
  {
    EveryStepIsOneCommit(w.store, step);
    CommitKeepsTerminal(w.store, CommitOf(w.store, step), w.issued, key);
  }

  /** A job that has ended never changes again. */
  lemma {:induction false} TerminalStaysForever(w: World, steps: seq<Step>, key: (string, Id))
    requires Invariant(w) && Feasible(w, steps) && key in w.store.jobs && Terminal(w.store.jobs[key])
    ensures key in Run(w, steps).store.jobs && Run(w, steps).store.jobs[key] == w.store.jobs[key]
    decreases |steps|
  {
    if steps != [] {
      TerminalStays(w, steps[0], key);
      StepKeepsInvariant(w, steps[0]);
      TerminalStaysForever(Next(w, steps[0]), steps[1..], key);
    }
  }

  /**
   Once a job has succeeded, its revision is stored under its own binding for good, and succeeding
   again, under any token, at any time and with any outputs, returns that revision and changes nothing.
   */
  lemma SuccessIsReplayed(
    w: World, steps: seq<Step>, key: (string, Id), worker: string, token: Id, now: int, outputs: Outputs, eventId: Id)
    requires Invariant(w) && Feasible(w, steps) && key in w.store.jobs && w.store.jobs[key].state.SUCCEEDED?
    ensures w.store.jobs[key].resultKey.Some?
    ensures var resultKey := w.store.jobs[key].resultKey.value;
      && resultKey.binding == BindingOf(w.store.jobs[key])
      && resultKey in w.store.profiles
      && Succeed(Run(w, steps).store, key.0, key.1, worker, token, now, outputs, eventId)
         == Returned(Run(w, steps).store, w.store.profiles[resultKey])
  {
    OperationFound(w.store, key);
    TerminalStaysForever(w, steps, key);
    RevisionsAreForever(w, steps);
  }

  // ---------- the reference in the operation ----------

  /** The operation of a succeeded job refers to the revision that is stored for it. */
  ghost predicate RefersToStored(operation: Operation, revision: Revision) {
    operation.resultRefs == [Reference(revision.profileId, Sha256(revision.profile))]
  }

  /**
   A success that goes through leaves the operation referring to the outputs just compiled, also
   when the binding already had a revision. So the operation refers to the stored revision if and
   only if the binding was new or the outputs agree with what was stored for it.
   */
  lemma ReferenceAgreesExactly(
    s: Store, org: string, jobId: Id, worker: string, token: Id, now: int, outputs: Outputs, eventId: Id)
    requires Healthy(s) && Leased(s, org, jobId, worker, token, now).Ok?
    requires Succeed(s, org, jobId, worker, token, now, outputs, eventId).Returned?
    ensures var job := s.jobs[(org, jobId)];
      var out := Succeed(s, org, jobId, worker, token, now, outputs, eventId);
      && (org, job.operationId) in out.store.operations
      && out.store.profiles[out.value.key] == out.value
      && (RefersToStored(out.store.operations[(org, job.operationId)], out.value) <==>
            BindingOf(job) !in s.bindings
            || (outputs.profile == s.profiles[s.bindings[BindingOf(job)]].profile
                && outputs.profileId == Some(s.profiles[s.bindings[BindingOf(job)]].profileId)))
  {
    OperationFound(s, (org, jobId));
  }

  // ---------- attempts ----------

  /** A claim takes a job past its third attempt if and only if it takes over an expired third or later lease. */
  lemma FourthAttemptExactly(s: Store, org: string, worker: string, now: int, leaseSeconds: int, token: Id, eventId: Id)
    requires Healthy(s)
    ensures var out := Claim(s, org, worker, now, leaseSeconds, token, eventId);
      out.Returned? && out.value.Some? ==>
        var before := s.jobs[NextJob(s.jobs, org, now).value];
        && NextJob(s.jobs, org, now).Some?
        && (out.value.value.attempt > MAX_ATTEMPTS <==> before.state.LEASED? && before.attempt >= MAX_ATTEMPTS)
  {
    var next := NextJob(s.jobs, org, now);
    if next.Some? {
      OperationFound(s, next.value);
    }
  }
}
