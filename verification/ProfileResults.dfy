/** What the profile and operation stores guarantee after every run. */
module ProfileResults {
  import opened Basics
  import opened ProfileModel
  import opened ProfileInvariant
  import opened ProfileBundles
  import D = DemandModel
  import DemandQuorum

  /**
   After any run, whatever workers do, a locked profile has a lock taken on its review and on an approved approval of it
   with an exact quorum of distinct eligible reviewers.
   */
  lemma {:induction false} LockRestsOnQuorum(calls: seq<Call>, k: Key)
    requires FeasibleForAll(EMPTY, calls)
    requires k in Run(EMPTY, calls).profiles && Run(EMPTY, calls).profiles[k].state == LOCKED
    ensures var s := Run(EMPTY, calls); var p := s.profiles[k];
      && p.approvalId.Some? && (k.0, p.approvalId.value) in s.approvals && p.lockId.Some?
      && (k.0, p.lockId.value) in s.locks
      && var a, l := s.approvals[(k.0, p.approvalId.value)], s.locks[(k.0, p.lockId.value)];
         a.state == D.ApprovalState.APPROVED && a.review == ReviewOf(p.reg)
         && DemandQuorum.ExactQuorum(a.decisions, a.policy, a.requester) && l.digest == LockDigest(ReviewOf(p.reg), a)
  {
    RunKeepsSound(calls);
    var s := Run(EMPTY, calls);
    assert LawfulProfile(s.profiles[k], s.approvals, s.locks);
    assert LawfulApproval(s.approvals[(k.0, s.profiles[k].approvalId.value)]);
  }

  /** After any run, whatever workers do, a lock has at most one bundle. */
  lemma {:induction false} OneBundlePerLock(calls: seq<Call>, j: Key, k: Key)
    requires FeasibleForAll(EMPTY, calls) && j in Run(EMPTY, calls).bundles && k in Run(EMPTY, calls).bundles
    requires j.0 == k.0 && Run(EMPTY, calls).bundles[j].lockDigest == Run(EMPTY, calls).bundles[k].lockDigest
    ensures j == k
  {
    RunKeepsSound(calls);
    var s := Run(EMPTY, calls);
    assert LawfulBundle(s.bundles[j], s.profiles, s.locks, s.bundleByLock)
      && LawfulBundle(s.bundles[k], s.profiles, s.locks, s.bundleByLock);
  }

  /**
   After any run in which nobody else drives bundle operations, a requested bundle pairs with its
   pending operation and a signed one with its succeeded operation that carries its one release; and
   every bundle operation is some bundle's.
   */
  lemma {:induction false} BundlesAndOperationsAgree(calls: seq<Call>)
    requires Feasible(EMPTY, calls)
    ensures var s := Run(EMPTY, calls);
      && (forall k | k in s.bundles :: InStep(s.bundles[k], s.operations.rows))
      && (forall k | IsBundleOperation(s, k) :: OwnedBySome(s.bundles, k))
  {
    RunKeepsInvariant(calls);
  }

  /** After any run, whatever workers do, the inbox holds as many events as there are signed bundles, and as the
      sources' sequences add up to. */
  lemma {:induction false} InboxAddsUp(calls: seq<Call>)
    requires FeasibleForAll(EMPTY, calls)
    ensures var s := Run(EMPTY, calls);
      |s.inbox| == SignedCount(s.bundles) == SequenceSum(s.sequences) && InboxTells(s.inbox, s.bundles)
  {
    RunKeepsSound(calls);
  }

  /** The source may speak for the organization, and speaks of no earlier than an hour ago and no later than five
      minutes ahead. */
  predicate SpeaksInTime(allowed: set<string>, authenticated: string, e: Envelope, now: int) {
    authenticated == e.source && authenticated in allowed && e.partition == e.org
    && e.observedAt - 300 <= now <= e.observedAt + 3600 && 0 <= now
  }

  /** A report of a requested bundle, next in its source's sequence, with a release of what was reviewed. */
  predicate IsNextReport(s: Store, e: Envelope) {
    && e.eventId !in s.inbox && e.sequence == LastSequence(s, e) + 1
    && (e.org, e.bundleId) in s.bundles && s.bundles[(e.org, e.bundleId)].state == REQUESTED
    && e.release.org == e.org && e.release.profile == s.bundles[(e.org, e.bundleId)].review
  }

  lemma {:induction false} RequestedIsReady(s: Store, k: Key)
    requires Sound(s) && k in s.bundles && s.bundles[k].state == REQUESTED
    ensures var b := s.bundles[k];
      && b.org == k.0 && (k.0, b.profileId) in s.profiles
      && var p := s.profiles[(k.0, b.profileId)];
         Verifies(p.reg) && p.state == LOCKED && b.review == ReviewOf(p.reg)
  {
    var b := s.bundles[k];
    assert BundleKey(b) == k && LawfulBundle(b, s.profiles, s.locks, s.bundleByLock);
    assert LawfulProfile(s.profiles[(k.0, b.profileId)], s.approvals, s.locks);
  }

  /** The bundle's operation is there and waits. */
  predicate IsAwaited(s: Store, b: Bundle) {
    IsBundleOperation(s, (b.org, b.operation)) && s.operations.rows[(b.org, b.operation)].state == PENDING
  }

  lemma {:induction false} RequestedIsAwaited(s: Store, k: Key)
    requires Invariant(s) && k in s.bundles && s.bundles[k].state == REQUESTED
    ensures IsAwaited(s, s.bundles[k])
  {
    assert InStep(s.bundles[k], s.operations.rows);
  }

  lemma {:induction false} CompletesExactly(s: Store, e: Envelope, b: Bundle, now: int)
    requires (e.org, e.bundleId) in s.bundles && s.bundles[(e.org, e.bundleId)] == b && b.org == e.org
    ensures CompletionFor(s, e, now).Done? <==> IsAwaited(s, b) && now >= 0 && !s.operations.failAudit
  {
  }

  lemma {:induction false} NeverOpens(s: Store, e: Envelope)
    requires (e.org, e.bundleId) in s.bundles && s.bundles[(e.org, e.bundleId)].state != REQUESTED
    ensures OpenBundle(s, e).Err?
  {
  }

  lemma {:induction false} OpensIfReady(s: Store, e: Envelope, b: Bundle, p: Profile)
    requires (e.org, e.bundleId) in s.bundles && s.bundles[(e.org, e.bundleId)] == b && b.state == REQUESTED
    requires (e.org, b.profileId) in s.profiles && s.profiles[(e.org, b.profileId)] == p
    requires Verifies(p.reg) && p.state == LOCKED && b.review == ReviewOf(p.reg)
    ensures OpenBundle(s, e).Ok? <==>
      e.sequence == LastSequence(s, e) + 1 && e.release.org == e.org && e.release.profile == b.review
  {
  }

  lemma {:induction false} OpensExactly(s: Store, e: Envelope)
    requires Sound(s) && (e.org, e.bundleId) in s.bundles
    ensures OpenBundle(s, e).Ok? <==>
      s.bundles[(e.org, e.bundleId)].state == REQUESTED && e.sequence == LastSequence(s, e) + 1
      && e.release.org == e.org && e.release.profile == s.bundles[(e.org, e.bundleId)].review
  {
    var b := s.bundles[(e.org, e.bundleId)];
    if b.state == REQUESTED {
      RequestedIsReady(s, (e.org, e.bundleId));
      OpensIfReady(s, e, b, s.profiles[(e.org, b.profileId)]);
    } else {
      NeverOpens(s, e);
    }
  }

  lemma {:induction false} SpeaksExactly(allowed: set<string>, authenticated: string, e: Envelope, now: int)
    requires 0 <= now && e.sequence >= 1
    ensures EnvelopeFault(allowed, authenticated, e, now) == None <==> SpeaksInTime(allowed, authenticated, e, now)
  {
  }

  lemma {:induction false} OpensExactlyNext(s: Store, e: Envelope)
    requires Sound(s)
    ensures IsNextReport(s, e) <==> e.eventId !in s.inbox && (e.org, e.bundleId) in s.bundles && OpenBundle(s, e).Ok?
  {
    if (e.org, e.bundleId) in s.bundles {
      OpensExactly(s, e);
    }
  }

  lemma {:induction false} BundleIsOwn(s: Store, e: Envelope)
    requires Sound(s) && (e.org, e.bundleId) in s.bundles
    ensures s.bundles[(e.org, e.bundleId)].org == e.org
  {
    assert BundleKey(s.bundles[(e.org, e.bundleId)]) == (e.org, e.bundleId);
  }

  /**
   In any reachable state a report is taken if and only if its source speaks in time, it is the next one
   of a requested bundle whose operation is still pending, and neither audit fails: what else the program
   checks of the profile always holds then.
   */
  lemma {:induction false} ReportTakenExactly(
    s: Store, allowed: set<string>, authenticated: string, e: Envelope, now: int)
    requires Sound(s)
    ensures ReportIsTaken(s, allowed, authenticated, e, now) <==>
      && SpeaksInTime(allowed, authenticated, e, now) && IsNextReport(s, e)
      && IsAwaited(s, s.bundles[(e.org, e.bundleId)]) && !s.failAudit && !s.operations.failAudit
  {
    OpensExactlyNext(s, e);
    if IsNextReport(s, e) {
      BundleIsOwn(s, e);
      CompletesExactly(s, e, s.bundles[(e.org, e.bundleId)], now);
      if 0 <= now {
        SpeaksExactly(allowed, authenticated, e, now);
      }
    }
  }

  /** As long as nobody else drives bundle operations, the operation of a requested bundle is always still pending. */
  lemma {:induction false} ReportTakenWhenPaired(
    s: Store, allowed: set<string>, authenticated: string, e: Envelope, now: int)
    requires Invariant(s)
    ensures ReportIsTaken(s, allowed, authenticated, e, now) <==>
      SpeaksInTime(allowed, authenticated, e, now) && IsNextReport(s, e) && !s.failAudit && !s.operations.failAudit
  {
    ReportTakenExactly(s, allowed, authenticated, e, now);
    if IsNextReport(s, e) {
      RequestedIsAwaited(s, (e.org, e.bundleId));
    }
  }
}
