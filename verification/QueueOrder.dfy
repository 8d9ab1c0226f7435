/**
 Order of delivery.

 Events are published by (time, identifier) and identifiers are random, so two transitions of one
 operation within one second may be published in the wrong order. The second is then refused by
 the inbox every time, and since it stays first in line, nothing behind it is delivered again.
 */
module QueueOrder {
  import opened Basics
  import opened QueueModel
  import opened QueueCommits
  import opened QueueInvariant
  import opened QueueDelivery

  predicate Pending(s: Store, e: Event) { e in s.outbox && e.id !in s.receipts }

  ghost predicate Earlier(e: Event, f: Event) { e.subject == f.subject && e.sequence < f.sequence }

  /** For every two events of one operation, as long as the first is not accepted it will be published first. */
  ghost predicate Deliverable(s: Store) {
    forall e, f | e in s.outbox && f in s.outbox && Earlier(e, f) && !Accepted(s, e) ::
      !Accepted(s, f) && PublishedBefore(e, f)
  }

  /** Nothing is accepted before an earlier event of its operation. */
  ghost predicate Prefixed(s: Store) {
    forall e, f | e in s.outbox && f in s.outbox && Earlier(e, f) && Accepted(s, f) :: Accepted(s, e)
  }

  /** The events of each operation are published in the order of their sequence: by time, then by identifier. */
  ghost predicate PublishedInOrder(outbox: seq<Event>) {
    forall e, f | e in outbox && f in outbox && Earlier(e, f) :: PublishedBefore(e, f)
  }

  /** Transition times increase strictly along each operation. */
  ghost predicate Chronological(outbox: seq<Event>) {
    forall e, f | e in outbox && f in outbox && Earlier(e, f) :: e.time < f.time
  }

  lemma ChronologicalIsPublishedInOrder(outbox: seq<Event>)
    requires Chronological(outbox)
    ensures PublishedInOrder(outbox)
  {
  }

  lemma PublishedInOrderBefore(outbox: seq<Event>, more: seq<Event>)
    requires outbox <= more && PublishedInOrder(more)
    ensures PublishedInOrder(outbox)
  {
  }

  lemma PublishedInOrderIsDeliverable(s: Store)
    requires Prefixed(s) && PublishedInOrder(s.outbox)
    ensures Deliverable(s)
  {
  }

  // ---------- the next event ----------

  /** Among the first `n` events, if one is pending then one precedes all other pending ones. */
  lemma {:induction false} FirstPending(s: Store, n: nat) returns (first: Option<Event>)
    requires n <= |s.outbox|
    requires DistinctIds(s.outbox)
    ensures first.None? ==> forall i | 0 <= i < n :: s.outbox[i].id in s.receipts
    ensures first.Some? ==> Pending(s, first.value) && first.value in s.outbox[..n]
    ensures first.Some?
      ==> forall i | 0 <= i < n && s.outbox[i].id !in s.receipts ::
        s.outbox[i] == first.value || PublishedBefore(first.value, s.outbox[i])
  {
    if n == 0 {
      first := None;
    } else {
      first := FirstPending(s, n - 1);
      var last := s.outbox[n - 1];
      assert s.outbox[..n] == s.outbox[..n - 1] + [last];
      if last.id !in s.receipts && (first.None? || PublishedBefore(last, first.value)) {
        first := Some(last);
      }
    }
  }

  lemma NextEventExists(s: Store, e: Event)
    requires DistinctIds(s.outbox)
    requires Pending(s, e)
    ensures NextEvent(s).Some?
  {
    var first := FirstPending(s, |s.outbox|);
    assert IsNextEvent(s, first.value);
  }

  // ---------- one delivery ----------

  lemma TellsApart(operation: Operation, events: seq<Event>, e: Event, f: Event)
    requires Tells(operation, events) && e in events && f in events
    ensures e.tenant == f.tenant == TenantId(operation.org) && e.partitionKey == e.tenant
    ensures e.sequence == f.sequence ==> e == f
    ensures 2 <= e.sequence <= operation.version
    ensures e.sequence == operation.version ==> e.time == operation.updatedAt
  {
  }

  /** Subjects belong to one tenant, partition keys are tenants and sequences within a subject differ. */
  lemma Subjects(operations: map<(string, Id), Operation>, outbox: seq<Event>, e: Event, f: Event)
    requires Announced(operations, outbox) && e in outbox && f in outbox && e.subject == f.subject
    ensures e.tenant == f.tenant && e.partitionKey == e.tenant
    ensures e.sequence == f.sequence ==> e == f
    ensures 2 <= e.sequence
  {
    var k :| k in operations && k.1 == e.subject;
    EventsOfMember(outbox, k.1, e);
    EventsOfMember(outbox, k.1, f);
    TellsApart(operations[k], EventsOf(outbox, k.1), e, f);
  }

  /**
   The inbox refuses an emitted event for exactly one reason: it was not accepted yet, and a later
   event of the same operation was.
   */
  lemma RefusedExactly(s: Store, source: string, allowed: set<string>, e: Event)
    requires Announced(s.operations, s.outbox) && Inboxed(s) && Sequenced(s)
    requires source in allowed && e in s.outbox
    ensures var out := AcceptEvent(s, source, allowed, e);
      && (out.Raised? && !out.refusal.INJECTED_ATOMIC_FAILURE? <==> Overtaken(s, e))
      && (out.Raised? ==> out.refusal.INJECTED_ATOMIC_FAILURE? || out.refusal.EVENT_SEQUENCE_REFUSED?)
      && (out.Raised? && out.refusal.INJECTED_ATOMIC_FAILURE? ==> "inbox.before_commit" in s.failpoints)
  {
    Subjects(s.operations, s.outbox, e, e);
    if Accepted(s, e) {
      SameEvent(s.outbox, e, s.inbox[(e.tenant, e.id)]);
    } else {
      OvertakenBySequence(s, e);
    }
  }

  /** Some later event of the operation was accepted, and this one was not. */
  ghost predicate Overtaken(s: Store, e: Event) {
    !Accepted(s, e) && exists f :: f in s.outbox && Earlier(e, f) && Accepted(s, f)
  }

  lemma OvertakenBySequence(s: Store, e: Event)
    requires Announced(s.operations, s.outbox) && Sequenced(s)
    requires e in s.outbox && !Accepted(s, e)
    ensures Overtaken(s, e) <==> e.sequence <= LastSequence(s, e.tenant, e.subject)
  {
    var key := (e.tenant, e.subject);
    Subjects(s.operations, s.outbox, e, e);
    if key in s.sequences {
      var f :| LastAccepted(s, key, f);
      Subjects(s.operations, s.outbox, e, f);
    }
    forall f | f in s.outbox && Earlier(e, f) && Accepted(s, f)
      ensures e.sequence <= LastSequence(s, e.tenant, e.subject)
    {
      Subjects(s.operations, s.outbox, e, f);
    }
  }

  // ---------- over runs whose events are published in order ----------

  /** A new event of an operation has the highest sequence of it. */
  lemma LastInLine(
    operations: map<(string, Id), Operation>, outbox: seq<Event>, before: Operation, operation: Operation, event: Event,
    e: Event)
    requires Announced(operations, outbox) && (before.org, before.id) in operations
      && operations[(before.org, before.id)] == before
    requires Follows(before, operation, event) && e in outbox && e.subject == event.subject
    ensures e.sequence < event.sequence
  {
    var events := EventsOf(outbox, before.id);
    EventsOfMember(outbox, before.id, e);
    assert Tells(before, events);
    TellsApart(before, events, e, e);
  }

  lemma PrefixedAppend(s: Store, operation: Operation, event: Event, s': Store)
    requires Announced(s.operations, s.outbox) && Inboxed(s) && Prefixed(s)
    requires (operation.org, operation.id) in s.operations
    requires Follows(s.operations[(operation.org, operation.id)], operation, event)
    requires s'.outbox == s.outbox + [event] && s'.inbox == s.inbox && !Emitted(s.outbox, event.id)
    ensures Prefixed(s')
  {
    NewIsUntouched(s, s', event);
    var before := s.operations[(operation.org, operation.id)];
    forall e | e in s.outbox && e.subject == event.subject ensures e.sequence < event.sequence {
      LastInLine(s.operations, s.outbox, before, operation, event, e);
    }
    assert forall e | e in s'.outbox :: e in s.outbox || e == event;
  }

  lemma OrderedTaken(s: Store, e: Event, f: Event)
    requires DistinctIds(s.outbox)
    requires Inboxed(s) && Deliverable(s) && IsNextEvent(s, f)
    requires e in s.outbox && Earlier(e, f)
    ensures Accepted(s, e)
  {
    assert !Accepted(s, e) ==> PublishedBefore(e, f) && e.id !in s.receipts;
  }

  lemma PrefixedTaken(s: Store, g: Event, s': Store)
    requires DistinctIds(s.outbox)
    requires Inboxed(s) && Prefixed(s) && PublishedInOrder(s.outbox) && IsNextEvent(s, g)
    requires s'.outbox == s.outbox && s'.inbox == s.inbox[(g.tenant, g.id) := g]
    ensures Prefixed(s')
  {
    PublishedInOrderIsDeliverable(s);
    forall e, f | e in s.outbox && f in s.outbox && Earlier(e, f) && Accepted(s', f) ensures Accepted(s', e) {
      if !Accepted(s, f) {
        SameEvent(s.outbox, g, f);
        OrderedTaken(s, e, f);
      }
    }
  }

  lemma HandedWrites(s: Store, e: Event, isNew: bool, receipt: bool)
    ensures var t := Handed(s, e, isNew, receipt);
      t.outbox == s.outbox && t.inbox == if isNew then s.inbox[(e.tenant, e.id) := e] else s.inbox
  {
  }

  lemma PrefixedHanded(s: Store, e: Event, isNew: bool, receipt: bool)
    requires DistinctIds(s.outbox) && Inboxed(s) && Prefixed(s) && PublishedInOrder(s.outbox) && IsNextEvent(s, e)
    ensures Prefixed(Handed(s, e, isNew, receipt))
  {
    HandedWrites(s, e, isNew, receipt);
    if isNew {
      PrefixedTaken(s, e, Handed(s, e, isNew, receipt));
    }
  }

  lemma SameEventsSamePrefix(s: Store, t: Store)
    requires Prefixed(s) && t.outbox == s.outbox && t.inbox == s.inbox
    ensures Prefixed(t)
  {
  }

  predicate Announces(c: Commit) { c.Begun? || c.Closed? }

  lemma AnnouncingAppends(s: Store, c: Commit)
    requires Announces(c)
    ensures After(s, c).outbox == s.outbox + [c.event] && After(s, c).inbox == s.inbox
  {
  }

  lemma OthersLeaveEvents(s: Store, c: Commit)
    requires !Announces(c) && !c.Delivered?
    ensures After(s, c).outbox == s.outbox && After(s, c).inbox == s.inbox
  {
  }

  lemma AnnouncedIsNext(w: World, c: Commit)
    requires Invariant(w) && Enabled(w.store, c) && Introduced(c) !! w.issued && Announces(c)
    ensures (c.operation.org, c.operation.id) in w.store.operations
    ensures Follows(w.store.operations[(c.operation.org, c.operation.id)], c.operation, c.event)
    ensures !Emitted(w.store.outbox, c.event.id)
  {
  }

  lemma AnnouncedKeepsPrefixed(w: World, c: Commit, t: Store)
    requires Invariant(w) && Inboxed(w.store) && Prefixed(w.store)
    requires Enabled(w.store, c) && Introduced(c) !! w.issued && Announces(c)
    requires t.outbox == w.store.outbox + [c.event] && t.inbox == w.store.inbox
    ensures Prefixed(t)
  {
    AnnouncedIsNext(w, c);
    PrefixedAppend(w.store, c.operation, c.event, t);
  }

  lemma CommitKeepsPrefixed(w: World, c: Commit, t: Store)
    requires Invariant(w) && Inboxed(w.store) && Prefixed(w.store) && PublishedInOrder(w.store.outbox)
    requires Enabled(w.store, c) && Introduced(c) !! w.issued && t == After(w.store, c)
    ensures Prefixed(t)
  {
    if Announces(c) {
      AnnouncingAppends(w.store, c);
      AnnouncedKeepsPrefixed(w, c, t);
    } else if c.Delivered? {
      PrefixedHanded(w.store, c.sent, c.isNew, c.receipt);
    } else {
      OthersLeaveEvents(w.store, c);
      SameEventsSamePrefix(w.store, t);
    }
  }

  lemma CommitKeepsEvents(s: Store, c: Commit)
    ensures s.outbox <= After(s, c).outbox
  {
  }

  /** A call only adds to the outbox, so what is published in order afterwards was before. */
  lemma ExplainedKeepsPrefixed(w: World, c: Commit, t: Store)
    requires Invariant(w) && Ledger(w.store) && Prefixed(w.store) && PublishedInOrder(t.outbox)
    requires Explains(w.store, t, c) && Introduced(c) !! w.issued
    ensures Prefixed(t)
  {
    CommitKeepsEvents(w.store, c);
    PublishedInOrderBefore(w.store.outbox, t.outbox);
    CommitKeepsPrefixed(w, c, After(w.store, c));
    SameEventsSamePrefix(After(w.store, c), t);
  }

  lemma StepKeepsPrefixed(w: World, step: Step)
    requires Invariant(w) && Ledger(w.store) && Prefixed(w.store)
    requires Fresh(w, step) && PublishedInOrder(Perform(w.store, step).outbox)
    ensures Prefixed(Perform(w.store, step))
  {
    EveryStepIsOneCommit(w.store, step);
    ExplainedKeepsPrefixed(w, CommitOf(w.store, step), Perform(w.store, step));
  }

  lemma StepKeepsEvents(w: World, step: Step)
    requires Invariant(w)
    ensures w.store.outbox <= Next(w, step).store.outbox
  {
    EveryStepIsOneCommit(w.store, step);
    CommitKeepsEvents(w.store, CommitOf(w.store, step));
  }

  lemma {:induction false} RunKeepsEvents(w: World, steps: seq<Step>)
    requires Invariant(w) && Feasible(w, steps)
    ensures w.store.outbox <= Run(w, steps).store.outbox
    decreases |steps|
  {
    if steps != [] {
      StepKeepsEvents(w, steps[0]);
      StepKeepsInvariant(w, steps[0]);
      RunKeepsEvents(Next(w, steps[0]), steps[1..]);
    }
  }

  lemma StepKeepsAll(w: World, step: Step)
    requires Invariant(w) && Ledger(w.store) && Prefixed(w.store)
    requires Fresh(w, step) && PublishedInOrder(Next(w, step).store.outbox)
    ensures Invariant(Next(w, step)) && Ledger(Next(w, step).store) && Prefixed(Next(w, step).store)
  {
    StepKeepsInvariant(w, step);
    StepKeepsPrefixed(w, step);
    assert Run(w, [step]) == Next(w, step);
    RunKeepsLedger(w, [step]);
  }

  lemma {:induction false} RunKeepsPrefixed(w: World, steps: seq<Step>)
    requires Invariant(w) && Ledger(w.store) && Prefixed(w.store)
    requires Feasible(w, steps) && PublishedInOrder(Run(w, steps).store.outbox)
    ensures Prefixed(Run(w, steps).store)
    decreases |steps|
  {
    if steps != [] {
      var next := Next(w, steps[0]);
      StepKeepsInvariant(w, steps[0]);
      RunKeepsEvents(next, steps[1..]);
      PublishedInOrderBefore(next.store.outbox, Run(next, steps[1..]).store.outbox);
      StepKeepsAll(w, steps[0]);
      RunKeepsPrefixed(next, steps[1..]);
    }
  }

  // ---------- times ----------

  /** The end of an operation comes later than its previous transition. */
  ghost predicate EndsLater(s: Store, c: Commit) {
    c.Closed? && (c.key.0, c.job.operationId) in s.operations ==>
      s.operations[(c.key.0, c.job.operationId)].updatedAt < c.event.time
  }

  /** Every call that ends an operation does so later than its previous transition. */
  ghost predicate AlwaysEndsLater(w: World, steps: seq<Step>)
    decreases |steps|
  {
    steps != [] ==>
      EndsLater(w.store, CommitOf(w.store, steps[0])) && AlwaysEndsLater(Next(w, steps[0]), steps[1..])
  }

  lemma LastInTime(
    operations: map<(string, Id), Operation>, outbox: seq<Event>, before: Operation, operation: Operation, event: Event,
    e: Event)
    requires Announced(operations, outbox) && Chronological(outbox) && (before.org, before.id) in operations
      && operations[(before.org, before.id)] == before
    requires Follows(before, operation, event) && (operation.state.RUNNING? || before.updatedAt < event.time)
    requires e in outbox && e.subject == event.subject
    ensures e.time < event.time
  {
    var events := EventsOf(outbox, before.id);
    EventsOfMember(outbox, before.id, e);
    assert Tells(before, events);
    TellsApart(before, events, e, e);
    EventsOfMember(outbox, before.id, events[|events| - 1]);
  }

  lemma ChronologicalAppend(
    operations: map<(string, Id), Operation>, outbox: seq<Event>, operation: Operation, event: Event)
    requires Announced(operations, outbox) && Chronological(outbox)
    requires (operation.org, operation.id) in operations
    requires var before := operations[(operation.org, operation.id)];
      Follows(before, operation, event) && (operation.state.RUNNING? || before.updatedAt < event.time)
      && (before.org, before.id) == (operation.org, operation.id)
    ensures Chronological(outbox + [event])
  {
    var before := operations[(operation.org, operation.id)];
    forall e | e in outbox && e.subject == event.subject ensures e.sequence < event.sequence && e.time < event.time {
      LastInLine(operations, outbox, before, operation, event, e);
      LastInTime(operations, outbox, before, operation, event, e);
    }
    assert forall e | e in outbox + [event] :: e in outbox || e == event;
  }

  lemma EndsInTime(s: Store, c: Commit)
    requires Enabled(s, c) && Announces(c) && EndsLater(s, c) && Keyed(s.jobs, s.operations)
    ensures var k := (c.operation.org, c.operation.id);
      k in s.operations && (s.operations[k].org, s.operations[k].id) == k
      && (c.operation.state.RUNNING? || s.operations[k].updatedAt < c.event.time)
  {
  }

  lemma CommitKeepsChronology(w: World, c: Commit)
    requires Invariant(w) && Enabled(w.store, c) && Introduced(c) !! w.issued
    requires EndsLater(w.store, c) && Chronological(w.store.outbox)
    ensures Chronological(After(w.store, c).outbox)
  {
    if Announces(c) {
      AnnouncingAppends(w.store, c);
      AnnouncedIsNext(w, c);
      EndsInTime(w.store, c);
      ChronologicalAppend(w.store.operations, w.store.outbox, c.operation, c.event);
    } else if !c.Delivered? {
      OthersLeaveEvents(w.store, c);
    } else {
      HandedWrites(w.store, c.sent, c.isNew, c.receipt);
    }
  }

  lemma {:induction false} ChronologyGoesOn(w: World, steps: seq<Step>)
    requires Invariant(w) && Chronological(w.store.outbox) && Feasible(w, steps) && AlwaysEndsLater(w, steps)
    ensures Chronological(Run(w, steps).store.outbox)
    decreases |steps|
  {
    if steps != [] {
      EveryStepIsOneCommit(w.store, steps[0]);
      CommitKeepsChronology(w, CommitOf(w.store, steps[0]));
      StepKeepsInvariant(w, steps[0]);
      ChronologyGoesOn(Next(w, steps[0]), steps[1..]);
    }
  }

  /** After any run in which operations end later than they last changed, the events of each are published in order. */
  lemma {:induction false} EndingLaterPublishesInOrder(steps: seq<Step>)
    requires Feasible(START, steps) && AlwaysEndsLater(START, steps)
    ensures PublishedInOrder(Run(START, steps).store.outbox)
  {
    StartsRight();
    ChronologyGoesOn(START, steps);
    ChronologicalIsPublishedInOrder(Run(START, steps).store.outbox);
  }

  // ---------- exactly once, in order ----------

  /** The accepted events of a subject are a prefix of those emitted for it. */
  ghost predicate AcceptedPrefix(s: Store, events: seq<Event>, n: nat) {
    n <= |events| && forall i | 0 <= i < |events| :: Accepted(s, events[i]) <==> i < n
  }

  lemma {:induction false} PrefixLength(s: Store, events: seq<Event>) returns (n: nat)
    requires forall i, j | 0 <= i < j < |events| :: Accepted(s, events[j]) ==> Accepted(s, events[i])
    ensures AcceptedPrefix(s, events, n)
  {
    if events == [] || Accepted(s, events[|events| - 1]) {
      n := |events|;
    } else {
      n := PrefixLength(s, events[..|events| - 1]);
      assert forall i | 0 <= i < |events| - 1 :: events[i] == events[..|events| - 1][i];
    }
  }

  lemma AcceptedInSequence(w: World, key: (string, Id))
    requires Invariant(w) && Prefixed(w.store) && key in w.store.operations
    ensures exists n :: AcceptedPrefix(w.store, EventsOf(w.store.outbox, key.1), n)
  {
    var s := w.store;
    var events := EventsOf(s.outbox, key.1);
    assert Tells(s.operations[key], events);
    forall i, j | 0 <= i < j < |events| && Accepted(s, events[j]) ensures Accepted(s, events[i]) {
      EventsOfMember(s.outbox, key.1, events[i]);
      EventsOfMember(s.outbox, key.1, events[j]);
      assert Earlier(events[i], events[j]);
    }
    var n := PrefixLength(s, events);
  }

  lemma StartsRight()
    ensures Invariant(START) && Ledger(START.store) && Prefixed(START.store)
  {
    StartKeepsInvariant();
  }

  /** No event is accepted twice, and the audit log says which were accepted. */
  ghost predicate AcceptedOnce(s: Store) {
    && (forall id: Id :: Times(s.audit, EventAccepted(id)) <= 1)
    && (forall e | e in s.outbox :: Times(s.audit, EventAccepted(e.id)) == if Accepted(s, e) then 1 else 0)
  }

  /** The inbox would take any event of the outbox, but for an armed failpoint. */
  ghost predicate Admits(s: Store, source: string, allowed: set<string>, e: Event) {
    var out := AcceptEvent(s, source, allowed, e);
    out.Returned? || (out.refusal.INJECTED_ATOMIC_FAILURE? && "inbox.before_commit" in s.failpoints)
  }

  ghost predicate NoneRefused(s: Store) {
    forall source, allowed, e | source in allowed && e in s.outbox :: Admits(s, source, allowed, e)
  }

  ghost predicate AcceptedInOrder(s: Store) {
    forall key | key in s.operations :: exists n :: AcceptedPrefix(s, EventsOf(s.outbox, key.1), n)
  }

  /** Once every event has its receipt, the inbox is the outbox. */
  ghost predicate DrainedIntoInbox(s: Store) {
    (forall e | e in s.outbox :: e.id in s.receipts) ==> s.inbox.Values == set e | e in s.outbox
  }

  lemma NoneRefusedWhenPrefixed(w: World)
    requires Invariant(w) && Ledger(w.store) && Prefixed(w.store)
    ensures NoneRefused(w.store)
  {
    forall source, allowed, e | source in allowed && e in w.store.outbox ensures Admits(w.store, source, allowed, e) {
      RefusedExactly(w.store, source, allowed, e);
    }
  }

  /**
   Over any run after which the events of each operation are published in the order of their sequence,
   with crashes after delivery and failpoints anywhere: each event is accepted at most once, none would
   be refused, every operation's accepted events are a prefix of those it emitted, and a drained outbox
   is the inbox. Calls that change no operation may come at any time.
   */
  lemma ExactlyOnceInOrder(steps: seq<Step>)
    requires Feasible(START, steps) && PublishedInOrder(Run(START, steps).store.outbox)
    ensures AcceptedOnce(Run(START, steps).store)
    ensures NoneRefused(Run(START, steps).store)
    ensures AcceptedInOrder(Run(START, steps).store)
    ensures DrainedIntoInbox(Run(START, steps).store)
  {
    var w := Run(START, steps);
    StartsRight();
    RunKeepsInvariant(START, steps);
    RunKeepsLedger(START, steps);
    RunKeepsPrefixed(START, steps);
    NoneRefusedWhenPrefixed(w);
    forall key | key in w.store.operations
      ensures exists n :: AcceptedPrefix(w.store, EventsOf(w.store.outbox, key.1), n)
    {
      AcceptedInSequence(w, key);
    }
    if forall e | e in w.store.outbox :: e.id in w.store.receipts {
      InboxIsOutbox(w);
    }
  }

  lemma InboxIsOutbox(w: World)
    requires Invariant(w) && Ledger(w.store) && forall e | e in w.store.outbox :: e.id in w.store.receipts
    ensures w.store.inbox.Values == set e | e in w.store.outbox
  {
    var s := w.store;
    forall e | e in s.outbox ensures e in s.inbox.Values {
      assert Accepted(s, e);
      SameEvent(s.outbox, e, s.inbox[(e.tenant, e.id)]);
    }
    forall e | e in s.inbox.Values ensures e in s.outbox {
      var k :| k in s.inbox && s.inbox[k] == e;
    }
  }
}
