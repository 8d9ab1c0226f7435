/**
 What holds of the queue in every reachable state: a job and its operation move in lockstep, the
 outbox tells each operation's history exactly, and compiled revisions are written once.
 */
module QueueInvariant {
  import opened Basics
  import opened QueueModel
  import opened QueueCommits

  /** The store, with every identifier drawn so far. */
  datatype World = World(store: Store, issued: set<Id>)

  const START := World(EMPTY_STORE, {})

  /** Identifiers are drawn afresh. */
  ghost predicate Fresh(w: World, step: Step) { Drawn(step) !! w.issued }

  ghost function Next(w: World, step: Step): World {
    World(Perform(w.store, step), w.issued + Drawn(step))
  }

  ghost function Run(w: World, steps: seq<Step>): World
    decreases |steps|
  {
    if steps == [] then w else Run(Next(w, steps[0]), steps[1..])
  }

  ghost predicate Feasible(w: World, steps: seq<Step>)
    decreases |steps|
  {
    steps != [] ==> Fresh(w, steps[0]) && Feasible(Next(w, steps[0]), steps[1..])
  }

  // ---------- the invariant ----------

  /** The states a job and its operation can be in together, and what goes with each. */
  ghost predicate InStep(job: Job, operation: Operation) {
    && (job.lease.Some? <==> job.state.LEASED?)
    && (job.resultKey.Some? <==> job.state.SUCCEEDED?)
    && match job.state
       case QUEUED => operation.state.PENDING? && job.attempt == 0
       case LEASED => operation.state.RUNNING? && 1 <= job.attempt
       case RETRY_WAIT => operation.state.RUNNING? && 1 <= job.attempt < MAX_ATTEMPTS
       case SUCCEEDED => operation.state.SUCCEEDED? && 1 <= job.attempt
       case DEAD_LETTERED => operation.state.FAILED? && 1 <= job.attempt
  }

  ghost predicate HasJob(jobs: map<(string, Id), Job>, key: (string, Id)) {
    exists j :: j in jobs && OperationKey(jobs[j]) == key
  }

  ghost predicate Paired(jobs: map<(string, Id), Job>, operations: map<(string, Id), Operation>) {
    && (forall k | k in jobs ::
      OperationKey(jobs[k]) in operations && InStep(jobs[k], operations[OperationKey(jobs[k])]))
    && (forall k, l | k in jobs && l in jobs :: OperationKey(jobs[k]) == OperationKey(jobs[l]) ==> k == l)
    && (forall k | k in operations :: HasJob(jobs, k))
  }

  /** The events of one operation, in the order they were emitted. */
  function EventsOf(outbox: seq<Event>, subject: Id): seq<Event> {
    if outbox == [] then [] else
    var last := outbox[|outbox| - 1];
    EventsOf(outbox[..|outbox| - 1], subject) + (if last.subject == subject then [last] else [])
  }

  function StateAt(version: int, final: OperationState): OperationState {
    if version == 1 then PENDING else if version == 2 then RUNNING else final
  }

  /** `events` is the complete history of `operation`: sequences 2 to its version, one transition each. */
  ghost predicate Tells(operation: Operation, events: seq<Event>) {
    && 1 <= operation.version <= 3
    && operation.state == StateAt(operation.version, operation.state)
    && (operation.version == 3 ==> operation.state.SUCCEEDED? || operation.state.FAILED?)
    && |events| == operation.version - 1
    && (forall i | 0 <= i < |events| ::
          && events[i].sequence == i + 2
          && events[i].subject == operation.id
          && events[i].tenant == TenantId(operation.org) && events[i].partitionKey == events[i].tenant
          && events[i].previous == StateAt(i + 1, operation.state)
          && events[i].current == StateAt(i + 2, operation.state))
    && (events != [] ==> events[|events| - 1].time == operation.updatedAt)
  }

  ghost predicate DistinctIds(outbox: seq<Event>) {
    forall i, j | 0 <= i < j < |outbox| :: outbox[i].id != outbox[j].id
  }

  ghost predicate Announced(operations: map<(string, Id), Operation>, outbox: seq<Event>) {
    && (forall k | k in operations :: Tells(operations[k], EventsOf(outbox, k.1)))
    && (forall e | e in outbox :: exists k :: k in operations && k.1 == e.subject)
    && DistinctIds(outbox)
  }

  /** Every identifier in use was drawn. */
  ghost predicate Drawable(s: Store, issued: set<Id>) {
    && (forall k | k in s.operations :: k.1 in issued)
    && (forall k | k in s.jobs :: k.1 in issued)
    && (forall k | k in s.jobs && s.jobs[k].lease.Some? :: s.jobs[k].lease.value.token in issued)
    && (forall e | e in s.outbox :: e.id in issued)
  }

  /** Bindings and revisions are in bijection, and every succeeded job names a revision of its own binding. */
  ghost predicate WriteOnce(
    jobs: map<(string, Id), Job>, profiles: map<ResultKey, Revision>, bindings: map<Binding, ResultKey>)
  {
    && (forall b | b in bindings :: bindings[b].binding == b && bindings[b] in profiles)
    && (forall key | key in profiles ::
          && profiles[key].key == key
          && key.binding in bindings && bindings[key.binding] == key
          && key.profileDigest == Sha256(profiles[key].profile))
    && (forall k | k in jobs && jobs[k].resultKey.Some? ::
          && jobs[k].resultKey.value in profiles
          && jobs[k].resultKey.value.binding == BindingOf(jobs[k]))
  }

  ghost predicate Invariant(w: World) {
    var s := w.store;
    && Keyed(s.jobs, s.operations)
    && Paired(s.jobs, s.operations)
    && Announced(s.operations, s.outbox)
    && Drawable(s, w.issued)
    && WriteOnce(s.jobs, s.profiles, s.bindings)
  }

  // ---------- histories ----------

  lemma EventsOfAppend(outbox: seq<Event>, e: Event, subject: Id)
    ensures EventsOf(outbox + [e], subject) == EventsOf(outbox, subject) + (if e.subject == subject then [e] else [])
  {
    assert (outbox + [e])[..|outbox|] == outbox;
  }

  lemma {:induction false} EventsOfMember(outbox: seq<Event>, subject: Id, e: Event)
    ensures e in EventsOf(outbox, subject) <==> e in outbox && e.subject == subject
  {
    if outbox != [] {
      var front, last := outbox[..|outbox| - 1], outbox[|outbox| - 1];
      EventsOfMember(front, subject, e);
      assert outbox == front + [last];
    }
  }

  lemma {:induction false} NoEvents(outbox: seq<Event>, subject: Id)
    requires forall e | e in outbox :: e.subject != subject
    ensures EventsOf(outbox, subject) == []
  {
    if outbox != [] {
      var front, last := outbox[..|outbox| - 1], outbox[|outbox| - 1];
      assert outbox == front + [last];
      NoEvents(front, subject);
    }
  }

  // ---------- commits keep the invariant ----------

  lemma KeyedReplaced(
    jobs: map<(string, Id), Job>, operations: map<(string, Id), Operation>, key: (string, Id), job: Job)
    requires Keyed(jobs, operations) && key in jobs && SameIdentity(jobs[key], job)
    ensures Keyed(jobs[key := job], operations)
  {
  }

  lemma KeyedMoved(
    jobs: map<(string, Id), Job>, operations: map<(string, Id), Operation>, key: (string, Id), job: Job,
    operation: Operation)
    requires Keyed(jobs, operations) && key in jobs && SameIdentity(jobs[key], job)
    requires (key.0, operation.id) in operations && operation.org == key.0
    ensures Keyed(jobs[key := job], operations[(key.0, operation.id) := operation])
  {
    KeyedReplaced(jobs, operations, key, job);
  }

  lemma KeyedCreated(s: Store, operation: Operation, job: Job, issued: set<Id>)
    requires Keyed(s.jobs, s.operations) && Drawable(s, issued) && operation.id !in issued
    ensures Keyed(s.jobs[(job.org, job.id) := job], s.operations[(operation.org, operation.id) := operation])
  {
  }

  lemma KeyedKept(s: Store, c: Commit, issued: set<Id>)
    requires Keyed(s.jobs, s.operations) && Enabled(s, c) && Introduced(c) !! issued && Drawable(s, issued)
    ensures Keyed(After(s, c).jobs, After(s, c).operations)
  {
    match c
    case Begun(key, job, operation, _) => KeyedMoved(s.jobs, s.operations, key, job, operation);
    case Closed(key, job, operation, _, _) => KeyedMoved(s.jobs, s.operations, key, job, operation);
    case Retaken(key, job) => KeyedReplaced(s.jobs, s.operations, key, job);
    case Prolonged(key, job, _) => KeyedReplaced(s.jobs, s.operations, key, job);
    case PutOff(key, job) => KeyedReplaced(s.jobs, s.operations, key, job);
    case Created(operation, job) => KeyedCreated(s, operation, job, issued);
    case _ =>
  }

  lemma DrawableMore(s: Store, issued: set<Id>, more: set<Id>)
    requires Drawable(s, issued)
    ensures Drawable(s, issued + more)
  {
  }

  lemma DrawableReplaced(s: Store, issued: set<Id>, key: (string, Id), job: Job)
    requires Drawable(s, issued) && key in s.jobs
    requires job.lease.Some? ==> job.lease.value.token in issued
    ensures Drawable(s.(jobs := s.jobs[key := job]), issued)
  {
  }

  lemma DrawableMoved(s: Store, issued: set<Id>, key: (string, Id), job: Job, operation: Operation, event: Event)
    requires Drawable(s, issued) && key in s.jobs && (key.0, operation.id) in s.operations
    requires job.lease.Some? ==> job.lease.value.token in issued
    requires event.id in issued
    ensures Drawable(Transition(s, key, job, operation, event), issued)
  {
    DrawableReplaced(s, issued, key, job);
  }

  lemma DrawableKept(s: Store, c: Commit, issued: set<Id>)
    requires Keyed(s.jobs, s.operations) && Drawable(s, issued) && Enabled(s, c)
    ensures Drawable(After(s, c), issued + Introduced(c))
  {
    var more := issued + Introduced(c);
    DrawableMore(s, issued, Introduced(c));
    match c
    case Begun(key, job, operation, event) => DrawableMoved(s, more, key, job, operation, event);
    case Closed(key, job, operation, event, result) =>
      DrawableMoved(s, more, key, job, operation, event);
    case Retaken(key, job) => DrawableReplaced(s, more, key, job);
    case Prolonged(key, job, _) => DrawableReplaced(s, more, key, job);
    case PutOff(key, job) => DrawableReplaced(s, more, key, job);
    case _ =>
  }

  /** One job, alone or with its operation, is replaced by its successor. */
  lemma PairedReplaced(jobs: map<(string, Id), Job>, operations: map<(string, Id), Operation>,
                       key: (string, Id), job: Job, operation: Operation)
    requires Keyed(jobs, operations) && Paired(jobs, operations)
    requires key in jobs && SameIdentity(jobs[key], job) && (key.0, job.operationId) in operations
    requires operation.id == job.operationId && operation.org == job.org && InStep(job, operation)
    ensures Paired(jobs[key := job], operations[(key.0, operation.id) := operation])
  {
    var jobs', operations' := jobs[key := job], operations[(key.0, operation.id) := operation];
    forall k | k in operations' ensures HasJob(jobs', k) {
      assert HasJob(jobs, k);
      var j :| j in jobs && OperationKey(jobs[j]) == k;
      assert OperationKey(jobs'[j]) == k;
    }
  }

  lemma PairedCreated(
    jobs: map<(string, Id), Job>, operations: map<(string, Id), Operation>, job: Job, operation: Operation)
    requires Keyed(jobs, operations) && Paired(jobs, operations)
    requires (operation.org, operation.id) !in operations && (job.org, job.id) !in jobs
    requires OperationKey(job) == (operation.org, operation.id) && InStep(job, operation)
    ensures Paired(jobs[(job.org, job.id) := job], operations[(operation.org, operation.id) := operation])
  {
    var jobs', operations' := jobs[(job.org, job.id) := job], operations[(operation.org, operation.id) := operation];
    forall k | k in operations' ensures HasJob(jobs', k) {
      if k in operations {
        assert HasJob(jobs, k);
        var j :| j in jobs && OperationKey(jobs[j]) == k;
        assert OperationKey(jobs'[j]) == k;
      } else {
        assert OperationKey(jobs'[(job.org, job.id)]) == k;
      }
    }
  }

  /** Inside the invariant a job's operation is found where the calls look for it. */
  lemma OperationFound(s: Store, key: (string, Id))
    requires Keyed(s.jobs, s.operations) && Paired(s.jobs, s.operations) && key in s.jobs
    ensures (key.0, s.jobs[key].operationId) in s.operations
    ensures OperationKey(s.jobs[key]) == (key.0, s.jobs[key].operationId)
    ensures InStep(s.jobs[key], s.operations[(key.0, s.jobs[key].operationId)])
  {
  }

  lemma PairedKept(s: Store, c: Commit, issued: set<Id>)
    requires Keyed(s.jobs, s.operations) && Paired(s.jobs, s.operations) && Enabled(s, c)
    requires Introduced(c) !! issued && Drawable(s, issued)
    ensures Paired(After(s, c).jobs, After(s, c).operations)
  {
    match c
    case Created(operation, job) => PairedCreated(s.jobs, s.operations, job, operation);
    case Begun(key, job, operation, _) => PairedReplaced(s.jobs, s.operations, key, job, operation);
    case Closed(key, job, operation, _, _) =>
      OperationFound(s, key);
      PairedReplaced(s.jobs, s.operations, key, job, operation);
    case Retaken(key, job) => PairedJob(s, key, job);
    case Prolonged(key, job, _) => OperationFound(s, key); PairedJob(s, key, job);
    case PutOff(key, job) => OperationFound(s, key); PairedJob(s, key, job);
    case _ =>
  }

  lemma PairedJob(s: Store, key: (string, Id), job: Job)
    requires Keyed(s.jobs, s.operations) && Paired(s.jobs, s.operations)
    requires key in s.jobs && SameIdentity(s.jobs[key], job) && (key.0, job.operationId) in s.operations
    requires InStep(job, s.operations[(key.0, job.operationId)])
    ensures Paired(s.jobs[key := job], s.operations)
  {
    var operation := s.operations[(key.0, job.operationId)];
    PairedReplaced(s.jobs, s.operations, key, job, operation);
    assert s.operations[(key.0, operation.id) := operation] == s.operations;
  }

  /** A transition of an operation from PENDING to RUNNING, or from RUNNING to an end. */
  ghost predicate Follows(before: Operation, operation: Operation, event: Event) {
    && operation.id == before.id && operation.org == before.org && operation.version == before.version + 1
    && event == EventOf(operation, before.state, event.reason, event.id)
    && (|| (before.state.PENDING? && operation.state.RUNNING?)
        || (before.state.RUNNING? && (operation.state.SUCCEEDED? || operation.state.FAILED?)))
  }

  lemma TellsMore(before: Operation, operation: Operation, events: seq<Event>, event: Event)
    requires Tells(before, events) && Follows(before, operation, event)
    ensures Tells(operation, events + [event])
  {
  }

  lemma AnnouncedMoved(
    operations: map<(string, Id), Operation>, outbox: seq<Event>, org: string, operation: Operation, event: Event)
    requires forall k | k in operations :: k == (operations[k].org, operations[k].id)
    requires forall k, l | k in operations && l in operations :: k.1 == l.1 ==> k == l
    requires Announced(operations, outbox)
    requires (org, operation.id) in operations && Follows(operations[(org, operation.id)], operation, event)
    requires forall e | e in outbox :: e.id != event.id
    ensures Announced(operations[(org, operation.id) := operation], outbox + [event])
  {
    var operations', outbox' := operations[(org, operation.id) := operation], outbox + [event];
    forall k | k in operations' ensures Tells(operations'[k], EventsOf(outbox', k.1)) {
      EventsOfAppend(outbox, event, k.1);
      if k.1 == operation.id {
        assert k == (org, operation.id);
        TellsMore(operations[k], operation, EventsOf(outbox, k.1), event);
      } else {
        assert EventsOf(outbox', k.1) == EventsOf(outbox, k.1);
      }
    }
    SubjectsKept(operations, outbox, (org, operation.id), operation, event);
  }

  lemma SubjectsKept(
    operations: map<(string, Id), Operation>, outbox: seq<Event>, key: (string, Id), operation: Operation, event: Event)
    requires forall e | e in outbox :: exists k :: k in operations && k.1 == e.subject
    requires key.1 == event.subject
    ensures forall e | e in outbox + [event] :: exists k :: k in operations[key := operation] && k.1 == e.subject
  {
    var operations' := operations[key := operation];
    forall e | e in outbox + [event] ensures exists k :: k in operations' && k.1 == e.subject {
      if e in outbox {
        var k :| k in operations && k.1 == e.subject;
        assert k in operations';
      } else {
        assert key in operations';
      }
    }
  }

  lemma AnnouncedCreated(operations: map<(string, Id), Operation>, outbox: seq<Event>, operation: Operation)
    requires Announced(operations, outbox)
    requires forall k | k in operations :: k.1 != operation.id
    requires operation.state.PENDING? && operation.version == 1
    ensures Announced(operations[(operation.org, operation.id) := operation], outbox)
  {
    var operations' := operations[(operation.org, operation.id) := operation];
    NoEvents(outbox, operation.id);
    forall e | e in outbox ensures exists k :: k in operations' && k.1 == e.subject {
      var k :| k in operations && k.1 == e.subject;
      assert k in operations';
    }
  }

  lemma AnnouncedKept(s: Store, c: Commit, issued: set<Id>)
    requires Keyed(s.jobs, s.operations) && Announced(s.operations, s.outbox) && Enabled(s, c)
    requires Introduced(c) !! issued && Drawable(s, issued)
    ensures Announced(After(s, c).operations, After(s, c).outbox)
  {
    match c
    case Created(operation, _) => AnnouncedCreated(s.operations, s.outbox, operation);
    case Begun(key, _, operation, event) => AnnouncedMoved(s.operations, s.outbox, key.0, operation, event);
    case Closed(key, _, operation, event, _) => AnnouncedMoved(s.operations, s.outbox, key.0, operation, event);
    case _ =>
  }

  lemma WriteOnceJob(
    jobs: map<(string, Id), Job>, profiles: map<ResultKey, Revision>, bindings: map<Binding, ResultKey>,
                     key: (string, Id), job: Job)
    requires WriteOnce(jobs, profiles, bindings)
    requires job.resultKey.Some? ==> job.resultKey.value in profiles && job.resultKey.value.binding == BindingOf(job)
    ensures WriteOnce(jobs[key := job], profiles, bindings)
  {
  }

  /** Recording a revision adds it, or changes nothing when its binding already had one. */
  lemma WriteOnceRecorded(
    jobs: map<(string, Id), Job>, profiles: map<ResultKey, Revision>, bindings: map<Binding, ResultKey>,
                          binding: Binding, revision: Revision)
    requires WriteOnce(jobs, profiles, bindings)
    requires if binding in bindings then revision == profiles[bindings[binding]]
             else revision.key == ResultKey(binding, Sha256(revision.profile))
    ensures WriteOnce(jobs, profiles[revision.key := revision], bindings[binding := revision.key])
  {
    if binding in bindings {
      assert profiles[revision.key := revision] == profiles;
      assert bindings[binding := revision.key] == bindings;
    }
  }

  lemma WriteOnceKept(s: Store, c: Commit)
    requires Keyed(s.jobs, s.operations) && Enabled(s, c)
    requires WriteOnce(s.jobs, s.profiles, s.bindings)
    ensures WriteOnce(After(s, c).jobs, After(s, c).profiles, After(s, c).bindings)
  {
    match c
    case Created(operation, job) => WriteOnceJob(s.jobs, s.profiles, s.bindings, (job.org, job.id), job);
    case Begun(key, job, _, _) => WriteOnceJob(s.jobs, s.profiles, s.bindings, key, job);
    case Retaken(key, job) => WriteOnceJob(s.jobs, s.profiles, s.bindings, key, job);
    case Prolonged(key, job, _) => WriteOnceJob(s.jobs, s.profiles, s.bindings, key, job);
    case PutOff(key, job) => WriteOnceJob(s.jobs, s.profiles, s.bindings, key, job);
    case Closed(key, job, _, _, None) => WriteOnceJob(s.jobs, s.profiles, s.bindings, key, job);
    case Closed(key, job, _, _, Some(revision)) =>
      WriteOnceRecorded(s.jobs, s.profiles, s.bindings, BindingOf(job), revision);
      WriteOnceJob(s.jobs, s.profiles[revision.key := revision], s.bindings[BindingOf(job) := revision.key], key, job);
    case _ =>
  }

  lemma CommitKeepsInvariant(s: Store, c: Commit, issued: set<Id>)
    requires Invariant(World(s, issued)) && Enabled(s, c) && Introduced(c) !! issued
    ensures Invariant(World(After(s, c), issued + Introduced(c)))
  {
    KeyedKept(s, c, issued);
    DrawableKept(s, c, issued);
    PairedKept(s, c, issued);
    AnnouncedKept(s, c, issued);
    WriteOnceKept(s, c);
  }

  lemma StepKeepsInvariant(w: World, step: Step)
    requires Invariant(w) && Fresh(w, step)
    ensures Invariant(Next(w, step))
  {
    EveryStepIsOneCommit(w.store, step);
    var c := CommitOf(w.store, step);
    CommitKeepsInvariant(w.store, c, w.issued);
  }

  /** The invariant holds after any run of calls, in any order and with any arguments. */
  lemma {:induction false} RunKeepsInvariant(w: World, steps: seq<Step>)
    requires Invariant(w) && Feasible(w, steps)
    ensures Invariant(Run(w, steps))
    decreases |steps|
  {
    if steps != [] {
      StepKeepsInvariant(w, steps[0]);
      RunKeepsInvariant(Next(w, steps[0]), steps[1..]);
    }
  }

  lemma StartKeepsInvariant()
    ensures Invariant(START)
  {
  }

  /** A job and its operation, which no other job shares, and the operation's whole history. */
  ghost predicate Locked(s: Store, key: (string, Id)) {
    key in s.jobs &&
    var job := s.jobs[key];
    && OperationKey(job) in s.operations
    && (forall k | k in s.jobs && OperationKey(s.jobs[k]) == OperationKey(job) :: k == key)
    && var operation := s.operations[OperationKey(job)];
    && InStep(job, operation)
    && operation.version
       == (if job.state.QUEUED? then 1 else if job.state.LEASED? || job.state.RETRY_WAIT? then 2 else 3)
    && Tells(operation, EventsOf(s.outbox, operation.id))
  }

  lemma InvariantLocks(s: Store, key: (string, Id))
    requires Keyed(s.jobs, s.operations) && Paired(s.jobs, s.operations) && Announced(s.operations, s.outbox)
    requires key in s.jobs
    ensures Locked(s, key)
  {
    OperationFound(s, key);
    assert Tells(s.operations[OperationKey(s.jobs[key])], EventsOf(s.outbox, s.jobs[key].operationId));
  }

  /**
   Lockstep. After any run from the empty store, each job has its own operation; the operation is
   at version 1, 2 or 3 as the job is waiting for its first claim, under way or ended, and has
   emitted exactly one event for each version after the first.
   */
  lemma Lockstep(steps: seq<Step>, key: (string, Id))
    requires Feasible(START, steps) && key in Run(START, steps).store.jobs
    ensures Locked(Run(START, steps).store, key)
  {
    StartKeepsInvariant();
    RunKeepsInvariant(START, steps);
    InvariantLocks(Run(START, steps).store, key);
  }
}
