/**
 Without any promise about the clock: draining the outbox succeeds exactly when, of every two
 events of one operation, the one emitted first is already accepted or is published first.
 */
module QueueDrain {
  import opened Basics
  import opened QueueModel
  import opened QueueCommits
  import opened QueueInvariant
  import opened QueueDelivery
  import opened QueueOrder
  import opened QueueResults
  import opened QueueEdges

  function PendingIds(s: Store): set<Id> {
    set e | e in s.outbox && e.id !in s.receipts :: e.id
  }

  lemma DeliveryShrinks(s: Store, source: string)
    ensures var out := DeliverNext(s, source, {source}, false);
      out.Returned? && out.value.Some? ==> |PendingIds(out.store)| < |PendingIds(s)|
  {
    var out := DeliverNext(s, source, {source}, false);
    if out.Returned? && out.value.Some? {
      var e := NextEvent(s).value;
      AcceptEventCases(s, source, {source}, e);
      assert out.store.outbox == s.outbox && out.store.receipts == s.receipts + {e.id};
      assert e.id in PendingIds(s);
      Smaller(PendingIds(out.store), PendingIds(s), e.id);
    }
  }

  lemma Smaller(a: set<Id>, b: set<Id>, x: Id)
    requires a <= b && x in b && x !in a
    ensures |a| < |b|
  {
    assert |b - a| + |b * a| == |b|;
    assert b * a == a && x in b - a;
  }

  /** Deliveries one after another, until nothing is pending (true) or one is refused (false). */
  ghost function Drain(s: Store, source: string): (r: (Store, bool))
    decreases |PendingIds(s)|
  {
    match DeliverNext(s, source, {source}, false)
    case Raised(s', _) => (s', false)
    case Returned(s', None) => (s', true)
    case Returned(s', Some(_)) =>
      DeliveryShrinks(s, source);
      Drain(s', source)
  }

  /** What draining relies on: the outbox tells the operations' histories and the inbox follows it. */
  ghost predicate Settled(s: Store) {
    Announced(s.operations, s.outbox) && Inboxed(s) && Sequenced(s) && s.failpoints == {}
  }

  ghost function Sent(s: Store, e: Event): Store {
    Acknowledged(if Accepted(s, e) then s else Take(s, e), e.id)
  }

  lemma NothingPending(s: Store)
    requires DistinctIds(s.outbox) && NextEvent(s).None?
    ensures forall e | e in s.outbox :: e.id in s.receipts
  {
    forall e | e in s.outbox ensures e.id in s.receipts {
      if e.id !in s.receipts {
        NextEventExists(s, e);
      }
    }
  }

  lemma RefusedDelivery(s: Store, source: string)
    requires Settled(s) && NextEvent(s).Some? && Overtaken(s, NextEvent(s).value)
    ensures DeliverNext(s, source, {source}, false).Raised?
  {
    RefusedExactly(s, source, {source}, NextEvent(s).value);
  }

  lemma Delivery(s: Store, source: string)
    requires Settled(s) && NextEvent(s).Some? && !Overtaken(s, NextEvent(s).value)
    ensures var e := NextEvent(s).value; DeliverNext(s, source, {source}, false) == Returned(Sent(s, e), Some(e.id))
  {
    var e := NextEvent(s).value;
    RefusedExactly(s, source, {source}, e);
    AcceptEventCases(s, source, {source}, e);
  }

  lemma TakenIsSettled(s: Store, e: Event)
    requires Settled(s) && e in s.outbox && !Accepted(s, e) && !Overtaken(s, e)
    ensures Settled(Take(s, e))
  {
    OvertakenBySequence(s, e);
    TakeKeepsInboxed(s, e);
    TakeKeepsSequenced(s, e);
  }

  lemma AcknowledgedIsSettled(s: Store, e: Event)
    requires Settled(s) && e in s.outbox && Accepted(s, e)
    ensures Settled(Acknowledged(s, e.id))
  {
    AcknowledgeKeepsInboxed(s, e);
    AcknowledgeKeepsSequenced(s, e.id);
  }

  lemma SentIsSettled(s: Store, e: Event)
    requires Settled(s) && e in s.outbox && !Overtaken(s, e)
    ensures Settled(Sent(s, e))
  {
    if Accepted(s, e) {
      AcknowledgedIsSettled(s, e);
    } else {
      TakenIsSettled(s, e);
      AcknowledgedIsSettled(Take(s, e), e);
    }
  }

  ghost predicate InOrder(s: Store, e: Event, f: Event) {
    !Accepted(s, e) ==> !Accepted(s, f) && PublishedBefore(e, f)
  }

  lemma SendingAcceptsOne(s: Store, g: Event)
    requires DistinctIds(s.outbox) && IsNextEvent(s, g)
    ensures Sent(s, g).outbox == s.outbox
    ensures forall e | e in s.outbox :: Accepted(Sent(s, g), e) <==> Accepted(s, e) || e == g
  {
    forall e | e in s.outbox && e.id == g.id ensures e == g { SameEvent(s.outbox, e, g); }
  }

  /** A delivery that goes through changes nothing about whether the rest can be delivered. */
  lemma SendingKeepsDeliverable(s: Store, g: Event)
    requires DistinctIds(s.outbox) && Inboxed(s) && IsNextEvent(s, g) && !Overtaken(s, g)
    ensures Deliverable(s) <==> Deliverable(Sent(s, g))
  {
    SendingAcceptsOne(s, g);
    forall e, f | e in s.outbox && f in s.outbox && Earlier(e, f)
      ensures InOrder(s, e, f) <==> InOrder(Sent(s, g), e, f)
    {
      if !Accepted(s, e) && e == g {
        assert !Accepted(s, f);
        assert f.id !in s.receipts;
        assert PublishedBefore(g, f);
      } else if !Accepted(s, e) && f == g {
        assert e.id !in s.receipts;
        assert PublishedBefore(g, e);
      }
    }
    assert Deliverable(s) <==> forall e, f | e in s.outbox && f in s.outbox && Earlier(e, f) :: InOrder(s, e, f);
    assert Deliverable(Sent(s, g))
      <==> forall e, f | e in s.outbox && f in s.outbox && Earlier(e, f) :: InOrder(Sent(s, g), e, f);
  }

  lemma {:induction false} DrainsWhenSettled(s: Store, source: string)
    requires Settled(s)
    ensures Drain(s, source).1 <==> Deliverable(s)
    ensures Drain(s, source).1 ==>
      forall e | e in s.outbox :: Accepted(Drain(s, source).0, e) && e.id in Drain(s, source).0.receipts
    decreases |PendingIds(s)|
  {
    var next := NextEvent(s);
    if next.None? {
      NothingPending(s);
    } else if Overtaken(s, next.value) {
      RefusedDelivery(s, source);
    } else {
      Delivery(s, source);
      DeliveryShrinks(s, source);
      SentIsSettled(s, next.value);
      SendingKeepsDeliverable(s, next.value);
      DrainsWhenSettled(Sent(s, next.value), source);
    }
  }

  /**
   In every reachable store with no failpoint armed, draining succeeds if and only if the store is
   deliverable, and then it leaves every event accepted and receipted.
   */
  lemma DrainsExactlyWhenDeliverable(steps: seq<Step>, source: string)
    requires Feasible(START, steps) && Run(START, steps).store.failpoints == {}
    ensures var s := Run(START, steps).store; Drain(s, source).1 <==> Deliverable(s)
    ensures var s := Run(START, steps).store;
      Drain(s, source).1 ==>
        forall e | e in s.outbox :: Accepted(Drain(s, source).0, e) && e.id in Drain(s, source).0.receipts
  {
    StartsRight();
    RunKeepsInvariant(START, steps);
    RunKeepsLedger(START, steps);
    DrainsWhenSettled(Run(START, steps).store, source);
  }

  // ---------- the order can fail ----------

  /** One job, claimed and failed within the same second, whose second event drew the smaller identifier. */
  function HastySteps(spec: JobSpec, keyDigest: string): seq<Step> {
    [CreateStep("o", spec, keyDigest, 0, 1, 2),
     ClaimStep("o", "w", 0, 60, 3, 9),
     FailStep("o", 2, "w", 3, 0, "R", false, 4)]
  }

  function HastyJob(spec: JobSpec): Job { Job(2, "o", 1, spec, QUEUED, 0, 0, 0, None, None, None) }

  function HastyOperation(): Operation { Operation(1, "o", PENDING, 1, 0, 0, [], None, None) }

  lemma HastyClaim(s: Store, spec: JobSpec)
    requires s.jobs == map[("o", 2) := HastyJob(spec)] && s.operations == map[("o", 1) := HastyOperation()]
    requires s.outbox == [] && s.failpoints == {}
    ensures var job := Claimed(HastyJob(spec), "w", 0, 60, 3);
      var started := Started(HastyOperation(), 0);
      Claim(s, "o", "w", 0, 60, 3, 9).store
        == Transition(s, ("o", 2), job, started, EventOf(started, PENDING, "COMPILATION_STARTED", 9))
  {
    assert IsNext(s.jobs, "o", 0, ("o", 2));
  }

  lemma HastyFail(s: Store, spec: JobSpec)
    requires s.jobs == map[("o", 2) := Claimed(HastyJob(spec), "w", 0, 60, 3)]
    requires s.operations == map[("o", 1) := Started(HastyOperation(), 0)] && s.failpoints == {}
    ensures var failed := Finished(Started(HastyOperation(), 0), FAILED, 0, [], Some("R"), Some(false));
      && Fail(s, "o", 2, "w", 3, 0, "R", false, 4).store.outbox == s.outbox + [EventOf(failed, RUNNING, "R", 4)]
      && Fail(s, "o", 2, "w", 3, 0, "R", false, 4).store.inbox == s.inbox
      && Fail(s, "o", 2, "w", 3, 0, "R", false, 4).store.failpoints == {}
  {
    assert IsReason("R");
  }

  /** The contents once the job is created, and once it is claimed. */
  function HastyCreated(spec: JobSpec): Store {
    EMPTY_STORE.(operations := map[("o", 1) := HastyOperation()], jobs := map[("o", 2) := HastyJob(spec)],
                 audit := [CompilationRequested(1)])
  }

  /** The event of the claim. */
  function HastyEvent(): Event { EventOf(Started(HastyOperation(), 0), PENDING, "COMPILATION_STARTED", 9) }

  lemma HastyBegins(spec: JobSpec, keyDigest: string)
    requires Admissible(spec, keyDigest)
    ensures Perform(EMPTY_STORE, HastySteps(spec, keyDigest)[0]) == HastyCreated(spec)
  {
  }

  /** After these three calls, delivering the outbox ends in a refusal. */
  lemma OrderCanFail(spec: JobSpec, keyDigest: string, source: string)
    requires Admissible(spec, keyDigest)
    ensures Feasible(START, HastySteps(spec, keyDigest))
    ensures !Drain(Run(START, HastySteps(spec, keyDigest)).store, source).1
  {
    var steps := HastySteps(spec, keyDigest);
    var w1 := Next(START, steps[0]);
    var w2 := Next(w1, steps[1]);
    var w3 := Next(w2, steps[2]);
    HastyBegins(spec, keyDigest);
    HastyClaim(w1.store, spec);
    HastyFail(w2.store, spec);
    RunThree(START, steps, w1, w2, w3);
    var first, second := w3.store.outbox[0], w3.store.outbox[1];
    assert Earlier(first, second) && !Accepted(w3.store, first) && !PublishedBefore(first, second);
    DrainsExactlyWhenDeliverable(steps, source);
  }

  // ---------- a delivery that raises and writes ----------

  /** One job, claimed, and its event delivered with a crash before the receipt. */
  function CrashSteps(spec: JobSpec, keyDigest: string, source: string): seq<Step> {
    HastySteps(spec, keyDigest)[..2] + [DeliverStep(source, {source}, true)]
  }

  lemma OnlyEventIsNext(s: Store, e: Event)
    requires s.outbox == [e] && s.receipts == {}
    ensures NextEvent(s) == Some(e)
  {
    assert IsNextEvent(s, e);
  }

  /** Nothing is known of the job's event but that it was emitted. */
  ghost predicate JustEmitted(s: Store) {
    s.outbox == [HastyEvent()] && s.receipts == {} && s.inbox == map[] && s.sequences == map[] && s.failpoints == {}
  }

  lemma ClaimEmits(s: Store, spec: JobSpec)
    requires s == HastyCreated(spec)
    ensures JustEmitted(Claim(s, "o", "w", 0, 60, 3, 9).store)
  {
    HastyClaim(s, spec);
  }

  lemma CrashStops(s: Store, source: string)
    requires JustEmitted(s)
    ensures StopsBeforeReceipt(s, DeliverStep(source, {source}, true))
    ensures DeliverNext(s, source, {source}, true) == Raised(Take(s, HastyEvent()), INJECTED_AFTER_DELIVERY)
  {
    OnlyEventIsNext(s, HastyEvent());
  }

  lemma Redelivers(s: Store, source: string, e: Event)
    requires s.outbox == [e] && s.receipts == {} && e.partitionKey == e.tenant && s.failpoints == {}
    requires s.inbox == map[(e.tenant, e.id) := e]
    ensures Drain(s, source).1 && Drain(s, source).0.inbox == s.inbox && Drain(s, source).0.receipts == {e.id}
  {
    OnlyEventIsNext(s, e);
    assert DeliverNext(s, source, {source}, false) == Returned(Acknowledged(s, e.id), Some(e.id));
    assert DeliverNext(Acknowledged(s, e.id), source, {source}, false).value == None;
  }

  /** The call raised, the inbox has the event and the outbox no receipt; delivering again adds just the receipt. */
  ghost predicate RaisedYetWrote(s: Store, t: Store, step: Step, source: string, e: Event) {
    && t == Perform(s, step) && RefusalOf(s, step) == Some(INJECTED_AFTER_DELIVERY)
    && s.inbox == map[] && t.inbox == map[(e.tenant, e.id) := e] && t.receipts == {}
    && Drain(t, source).1 && Drain(t, source).0.inbox == t.inbox && Drain(t, source).0.receipts == {e.id}
  }

  lemma CrashThenRedelivery(s: Store, t: Store, step: Step, source: string)
    requires JustEmitted(s) && step == DeliverStep(source, {source}, true) && t == Perform(s, step)
    ensures RaisedYetWrote(s, t, step, source, HastyEvent())
  {
    CrashStops(s, source);
    Redelivers(t, source, HastyEvent());
  }

  lemma RunTwo(w: World, steps: seq<Step>, w1: World, w2: World)
    requires |steps| == 2 && w1 == Next(w, steps[0]) && w2 == Next(w1, steps[1])
    ensures Run(w, steps) == w2
  {
    assert Run(w2, []) == w2;
    assert steps[1..] == [steps[1]] && [steps[1]][1..] == [];
    assert Run(w1, [steps[1]]) == w2;
  }

  /**
   After two calls, a third delivers the first event, crashes before the receipt, and raises although
   the inbox has the event. Delivering again gives the receipt and changes nothing in the inbox.
   */
  lemma DeliveryRaisesAndWrites(spec: JobSpec, keyDigest: string, source: string)
    requires Admissible(spec, keyDigest)
    ensures var steps := CrashSteps(spec, keyDigest, source);
      && Feasible(START, steps)
      && RaisedYetWrote(Run(START, steps[..2]).store, Run(START, steps).store, steps[2], source, HastyEvent())
  {
    var steps := CrashSteps(spec, keyDigest, source);
    var w1 := Next(START, steps[0]);
    var w2 := Next(w1, steps[1]);
    var w3 := Next(w2, steps[2]);
    RunThree(START, steps, w1, w2, w3);
    RunTwo(START, steps[..2], w1, w2);
    HastyBegins(spec, keyDigest);
    ClaimEmits(w1.store, spec);
    CrashThenRedelivery(w2.store, w3.store, steps[2], source);
  }
}
