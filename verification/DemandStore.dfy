/**
 The demand approval store as the program has it: maps and lists that its methods replace in place,
 and the tenant audit chain that every change must reach first.
 */
module DemandStore {
  import opened Basics
  import opened DemandModel
  import AuditChain

  /** The object's contents and the method's result are those of `outcome`. */
  predicate Agrees(outcome: Outcome, view: Store, r: Result<Response, Refusal>) {
    match outcome
    case Returned(s, response) => view == s && r == Ok(response)
    case Raised(s, e) => view == s && r == Err(e)
  }

  lemma {:induction false} FactsOfBoth(a: seq<Event>, b: seq<Event>)
    ensures FactsOf(a + b) == FactsOf(a) + FactsOf(b)
  {
    if a == [] {
      assert a + b == b;
    } else {
      FactsOfBoth(a[1..], b);
      assert (a + b)[1..] == a[1..] + b;
    }
  }

  lemma {:induction false} OfTenantMore(audit: seq<Event>, events: seq<Event>, org: Org)
    ensures OfTenant(audit + events, org) == OfTenant(audit, org) + OfTenant(events, org)
  {
    if events == [] {
      assert audit + events == audit;
    } else {
      var n := |events| - 1;
      OfTenantMore(audit, events[..n], org);
      assert (audit + events)[..|audit| + n] == audit + events[..n];
    }
  }

  lemma OfTenantLast(events: seq<Event>, last: Event, other: Org)
    ensures OfTenant(events + [last], other) == OfTenant(events, other) + (if last.org == other then [last] else [])
  {
    assert (events + [last])[..|events|] == events;
  }

  lemma {:induction false} OfTenantAll(events: seq<Event>, org: Org, other: Org)
    requires forall i | 0 <= i < |events| :: events[i].org == org
    ensures OfTenant(events, other) == if other == org then events else []
  {
    if events != [] {
      var most, last := events[..|events| - 1], events[|events| - 1];
      OfTenantAll(most, org, other);
      OfTenantLast(most, last, other);
      assert events == most + [last];
    }
  }

  lemma {:induction false} FactsKeepTenants(events: seq<Event>)
    ensures forall i | 0 <= i < |events| :: FactsOf(events)[i].org == events[i].org
  {
    if events != [] {
      FactsKeepTenants(events[1..]);
      assert forall i | 0 < i < |events| :: events[i] == events[1..][i - 1];
    }
  }

  /** A batch that the chain takes adds its events to the tenant's, and to no other tenant's. */
  lemma TakenBatch(audit: seq<Event>, events: seq<Event>, org: Org, other: Org)
    requires AuditFault(audit, org, events) == None
    ensures FactsOf(OfTenant(audit + events, other))
      == FactsOf(OfTenant(audit, other)) + (if other == org then FactsOf(events) else [])
  {
    AuditChain.FaultlessExactly(FactsOf(OfTenant(audit, org)), org, FactsOf(events));
    FactsKeepTenants(events);
    OfTenantMore(audit, events, other);
    OfTenantAll(events, org, other);
    FactsOfBoth(OfTenant(audit, other), OfTenant(events, other));
    assert FactsOf(events) == FactsOf(events) + [];
  }

  class DemandApprovalStore {
    var demands: map<(Org, Id), DemandRow>
    var approvals: map<(Org, Id), ApprovalRow>
    var findings: seq<Finding>
    var audit: seq<Event>
    var idempotency: map<(Org, string), Stored>
    var auditFailure: bool
    const auditChain: AuditChain.TenantAuditChain<Digest>

    constructor (hashing: AuditChain.Hashing<Digest>)
      ensures Valid() && View() == EMPTY && fresh(auditChain)
    {
      demands, approvals, findings, audit, idempotency, auditFailure := map[], map[], [], [], map[], false;
      auditChain := new AuditChain.TenantAuditChain(hashing);
    }

    ghost function View(): Store
      reads this
    {
      Store(demands, approvals, findings, audit, idempotency, auditFailure)
    }

    /** The chain verifies for every tenant and holds exactly the tenant's events, in order. */
    ghost predicate Valid()
      reads this, auditChain
    {
      auditChain.Valid() && forall org: Org :: auditChain.FactsOf(org) == FactsOf(OfTenant(audit, org))
    }

    method FailNextAudit()
      requires Valid()
      modifies this
      ensures Valid() && View() == old(View()).(auditFailure := true)
    {
      auditFailure := true;
    }

    method CommitAudit(c: Context, events: seq<Event>) returns (fault: Option<Refusal>)
      requires Valid() && 1 <= |events| <= AuditChain.MAX_BATCH && events[0].org == c.org
      modifies this, auditChain
      ensures Valid()
      ensures fault == if old(auditFailure) then Some(AUDIT_APPEND_FAILED)
        else match AuditFault(old(audit), c.org, events)
          case None => None
          case Some(why) => Some(AUDIT_CHAIN_REFUSED(why))
      ensures View() == old(View()).(
        auditFailure := false, audit := if fault == None then old(audit) + events else old(audit))
    {
      if auditFailure {
        auditFailure := false;
        return Some(AUDIT_APPEND_FAILED);
      }
      var r := auditChain.Append(FactsOf(events));
      assert FactsOf(events)[0].org == c.org;
      assert old(AuditChain.Facts(AuditChain.Chain(auditChain.recordsByTenant, c.org)))
        == FactsOf(OfTenant(audit, c.org));
      if r.Err? {
        return Some(AUDIT_CHAIN_REFUSED(r.error));
      }
      ghost var before := old(AuditChain.Chain(auditChain.recordsByTenant, c.org));
      AuditChain.ExtendedFacts(auditChain.hashing, before, FactsOf(events));
      forall org: Org ensures auditChain.FactsOf(org) == FactsOf(OfTenant(audit + events, org)) {
        TakenBatch(audit, events, c.org, org);
        assert old(auditChain.FactsOf(org)) == FactsOf(OfTenant(audit, org));
        assert auditChain.FactsOf(org) == old(auditChain.FactsOf(org)) + (if org == c.org then FactsOf(events) else []);
      }
      audit := audit + events;
      return None;
    }

    method FindReplay(c: Context, key: string, fingerprint: string) returns (r: Replayed)
      ensures r == Replay(View(), c, key, fingerprint)
    {
      if (c.org, key) !in idempotency {
        return Proceed;
      }
      var stored := idempotency[(c.org, key)];
      if stored.fingerprint != fingerprint {
        return Conflict;
      }
      return Answer(stored.response);
    }

    /** The end of every call: the audit first, then the rows and findings, then the remembered response. */
    method CommitChange(
      c: Context, key: string, fingerprint: string, change: Change, status: nat) returns (r: Result<Response, Refusal>)
      requires Valid() && 1 <= |change.events| <= AuditChain.MAX_BATCH && change.events[0].org == c.org
      modifies this, auditChain
      ensures Valid() && Agrees(Commit(old(View()), c, key, fingerprint, change, status), View(), r)
    {
      var fault := CommitAudit(c, change.events);
      if fault.Some? {
        return Err(fault.value);
      }
      if change.approval.Some? {
        approvals := approvals[ApprovalKey(change.approval.value) := change.approval.value];
      }
      demands := demands[Key(change.demand) := change.demand];
      findings := findings + change.findings;
      var response := if change.approval.Some?
        then Response(status, ApprovalBody(change.approval.value), ApprovalTagOf(change.approval.value))
        else Response(status, DemandBody(change.demand, FindingsFor(findings, change.demand.id)),
          DemandTagOf(change.demand));
      idempotency := idempotency[(c.org, key) := Stored(fingerprint, response)];
      return Ok(response);
    }

    method CreateDemand(c: Context, input: Input, key: string, fingerprint: string, now: int, id: Id, eventId: Id)
      returns (r: Result<Response, Refusal>)
      requires Valid()
      modifies this, auditChain
      ensures Valid()
      ensures Agrees(Mutate(old(View()), c, key, fingerprint, Create(c, input, now, id, eventId)), View(), r)
    {
      var replay := FindReplay(c, key, fingerprint);
      if replay.Conflict? { return Err(IDEMPOTENCY_KEY_CONFLICT); }
      if replay.Answer? { return Ok(replay.response); }
      if now < 0 { return Err(DEMAND_TIME_REFUSED); }
      var change := CreateChange(c, input, now, id, eventId);
      r := CommitChange(c, key, fingerprint, change, 201);
    }

    /** The findings of a validation, collected one after the other. */
    method CollectProblems(
      c: Context, input: Input, resolution: Resolution, now: int) returns (problems: seq<(FindingReason, Subject)>)
      ensures problems == Problems(c.org, input, resolution, now)
    {
      if resolution.Unresolved? {
        problems := [(SOURCE_UNAVAILABLE, Named(input.source.sessionId))];
      } else {
        problems := SourceProblems(c.org, input, resolution.source, now);
      }
      var i := 0;
      while i < |input.prerequisites|
        invariant i <= |input.prerequisites|
        invariant Problems(c.org, input, resolution, now) == problems + RejectedPrerequisites(input.prerequisites[i..])
      {
        var decision := input.prerequisites[i];
        assert input.prerequisites[i..][1..] == input.prerequisites[i + 1..];
        if !decision.accepted {
          problems := problems + [(PREREQUISITE_REJECTED, Named(decision.harnessId))];
        }
        i := i + 1;
      }
      assert problems + RejectedPrerequisites(input.prerequisites[i..]) == problems;
    }

    method ValidateDemand(
      c: Context, id: Id, ifMatch: Option<Tag>, key: string, fingerprint: string, now: int, resolution: Resolution,
      eventId: Id)
      returns (r: Result<Response, Refusal>)
      requires Valid()
      modifies this, auditChain
      ensures Valid()
      ensures Agrees(Mutate(old(View()), c, key, fingerprint,
        Validate(old(View()), c, id, ifMatch, now, resolution, eventId)), View(), r)
    {
      var replay := FindReplay(c, key, fingerprint);
      if replay.Conflict? { return Err(IDEMPOTENCY_KEY_CONFLICT); }
      if replay.Answer? { return Ok(replay.response); }
      if (c.org, id) !in demands { return Err(DEMAND_NOT_FOUND); }
      var row := demands[(c.org, id)];
      var fault := TagFault(DemandTagOf(row), ifMatch);
      if fault.Some? { return Err(fault.value); }
      if row.state != DRAFT && row.state != BLOCKED { return Err(DEMAND_VALIDATION_STATE_REFUSED); }
      if now < 0 { return Err(DEMAND_TIME_REFUSED); }
      var problems := CollectProblems(c, row.input, resolution, now);
      var change := ValidateChange(c, row, resolution, now, eventId);
      assert change.demand.state == if problems == [] then VALIDATED else BLOCKED;
      if change.demand.state != row.state && change.demand.state !in Transitions(row.state) {
        return Err(DEMAND_TRANSITION_REFUSED);
      }
      r := CommitChange(c, key, fingerprint, change, 200);
    }

    method RequestDemandApproval(c: Context, id: Id, ifMatch: Option<Tag>, key: string, fingerprint: string, now: int,
      answer: PolicyAnswer, approvalId: Id, first: Id, second: Id) returns (r: Result<Response, Refusal>)
      requires Valid()
      modifies this, auditChain
      ensures Valid()
      ensures Agrees(
        Mutate(old(View()), c, key, fingerprint,
          RequestApproval(old(View()), c, id, ifMatch, now, answer, approvalId, first, second)), View(), r)
    {
      var replay := FindReplay(c, key, fingerprint);
      if replay.Conflict? { return Err(IDEMPOTENCY_KEY_CONFLICT); }
      if replay.Answer? { return Ok(replay.response); }
      if (c.org, id) !in demands { return Err(DEMAND_NOT_FOUND); }
      var row := demands[(c.org, id)];
      var fault := TagFault(DemandTagOf(row), ifMatch);
      if fault.Some? { return Err(fault.value); }
      if row.state != VALIDATED || row.validated.None? || row.validatedRevision != Some(row.revision) {
        return Err(DEMAND_APPROVAL_STATE_REFUSED);
      }
      var admitted := AdmittedPolicy(answer, c.subject, now);
      if admitted.Err? { return Err(admitted.error); }
      if now < 0 { return Err(DEMAND_TIME_REFUSED); }
      var change := RequestChange(c, row, row.validated.value, row.revision, admitted.value, now, approvalId, first,
        second);
      r := CommitChange(c, key, fingerprint, change, 201);
    }

    method DecideApproval(
      c: Context, id: Id, approve: bool, reason: string, ifMatch: Option<Tag>, key: string, fingerprint: string,
      now: int, answer: PolicyAnswer, first: Id, second: Id) returns (r: Result<Response, Refusal>)
      requires Valid()
      modifies this, auditChain
      ensures Valid()
      ensures Agrees(
        Mutate(old(View()), c, key, fingerprint,
          Decide(old(View()), c, id, approve, reason, ifMatch, now, answer, first, second)), View(), r)
    {
      var replay := FindReplay(c, key, fingerprint);
      if replay.Conflict? { return Err(IDEMPOTENCY_KEY_CONFLICT); }
      if replay.Answer? { return Ok(replay.response); }
      if (c.org, id) !in approvals { return Err(APPROVAL_NOT_FOUND); }
      var approval := approvals[(c.org, id)];
      var fault := TagFault(ApprovalTagOf(approval), ifMatch);
      if fault.Some? { return Err(fault.value); }
      if approval.state != PENDING { return Err(APPROVAL_TERMINAL); }
      var review := ReviewFault(approval, c.subject);
      if review.Some? { return Err(review.value); }
      if (c.org, approval.demandId) !in demands { return Err(DEMAND_NOT_FOUND); }
      var demand := demands[(c.org, approval.demandId)];
      if !IsCurrent(approval, demand) { return Err(APPROVAL_SUBJECT_STALE); }
      var policy := PolicyFault(approval, answer);
      if policy.Some? { return Err(policy.value); }
      if now < 0 { return Err(DEMAND_TIME_REFUSED); }
      if approval.policy.expiresAt <= now {
        r := CommitChange(c, key, fingerprint, ExpireChange(c, approval, demand, now, first, second), 409);
      } else {
        r := CommitChange(c, key, fingerprint, DecideChange(c, approval, demand, approve, reason, now, first, second),
          200);
      }
    }
  }
}
