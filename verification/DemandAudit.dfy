/** The audit log tells the history of every row, one event for each revision. */
module DemandAudit {
  import opened Basics
  import opened DemandModel
  import opened DemandInvariant
  import AuditChain

  predicate IsAbout(e: Event, k: DemandKey) { e.org == k.0 && e.aggregateId == k.1 }

  /** The events about one row, oldest first. */
  function LogOf(audit: seq<Event>, k: DemandKey): seq<Event> {
    if audit == [] then []
    else LogOf(audit[..|audit| - 1], k) + (if IsAbout(audit[|audit| - 1], k) then [audit[|audit| - 1]] else [])
  }

  lemma LogOfMore(audit: seq<Event>, e: Event, k: DemandKey)
    ensures LogOf(audit + [e], k) == LogOf(audit, k) + (if IsAbout(e, k) then [e] else [])
  {
    assert (audit + [e])[..|audit|] == audit;
  }

  /** The moves of a demand: those of the table, and a blocked demand that is found blocked again. */
  predicate Moves(from: DemandState, to: DemandState) {
    to in Transitions(from) || (from == BLOCKED && to == BLOCKED)
  }

  predicate DigestOfDemand(d: Digest, row: DemandRow, revision: nat) {
    d.OfDemand? && d.id == row.id && d.revision == revision && d.subject == OfResource(row.resource)
  }

  predicate DigestOfApproval(d: Digest, a: ApprovalRow, revision: nat) {
    d.OfApproval? && d.id == a.id && d.revision == revision && d.demandId == a.demandId
  }

  /** The i-th event of a demand's log is the digest of its revision i + 1. */
  predicate TellsDemand(log: seq<Event>, row: DemandRow) {
    && |log| == row.revision
    && (forall i | 0 <= i < |log| :: DigestOfDemand(log[i].aggregate, row, i + 1))
    && (|log| > 0 ==> log[0].aggregate.state == DRAFT && log[|log| - 1].aggregate == DemandDigest(row))
    && (forall i | 0 < i < |log| :: Moves(log[i - 1].aggregate.state, log[i].aggregate.state))
    && (row.state == BLOCKED && |log| > 0 ==> (row.validated.Some? <==> log[|log| - 1].eventType == DEMAND_BLOCKED))
  }

  predicate TellsApproval(log: seq<Event>, a: ApprovalRow) {
    && |log| == a.revision
    && (forall i | 0 <= i < |log| :: DigestOfApproval(log[i].aggregate, a, i + 1))
    && (|log| > 0 ==> log[|log| - 1].aggregate == ApprovalDigest(a))
    && (forall i | 0 <= i < |log| - 1 :: log[i].aggregate.approvalState == PENDING)
  }

  predicate DemandsTold(demands: Demands, audit: seq<Event>) {
    forall k | k in demands :: demands[k].revision >= 1 && TellsDemand(LogOf(audit, k), demands[k])
  }

  predicate ApprovalsTold(approvals: ApprovalRows, audit: seq<Event>) {
    forall k | k in approvals :: approvals[k].revision >= 1 && TellsApproval(LogOf(audit, k), approvals[k])
  }

  ghost predicate NothingElseTold(demands: Demands, approvals: ApprovalRows, audit: seq<Event>) {
    forall k: DemandKey | k !in demands && k !in approvals :: LogOf(audit, k) == []
  }

  ghost predicate Mirrors(demands: Demands, approvals: ApprovalRows, audit: seq<Event>) {
    && demands.Keys !! approvals.Keys
    && DemandsTold(demands, audit)
    && ApprovalsTold(approvals, audit)
    && NothingElseTold(demands, approvals, audit)
  }

  // ---------- writing a row with its event ----------

  lemma DemandEventTells(log: seq<Event>, row: DemandRow, e: Event, next: DemandRow)
    requires row.revision >= 1 && TellsDemand(log, row) && e.aggregate == DemandDigest(next)
    requires next.id == row.id && next.resource == row.resource && next.revision == row.revision + 1
      && Moves(row.state, next.state)
    requires next.state == BLOCKED ==> (next.validated.Some? <==> e.eventType == DEMAND_BLOCKED)
    ensures TellsDemand(log + [e], next)
  {
    var more := log + [e];
    assert more[|log|] == e && more[|log| - 1] == log[|log| - 1];
  }

  lemma ApprovalEventTells(log: seq<Event>, a: ApprovalRow, e: Event, next: ApprovalRow)
    requires a.revision >= 1 && TellsApproval(log, a) && a.state == PENDING && e.aggregate == ApprovalDigest(next)
    requires next.id == a.id && next.demandId == a.demandId && next.revision == a.revision + 1
    ensures TellsApproval(log + [e], next)
  {
    var more := log + [e];
    assert more[|log|] == e && more[|log| - 1] == log[|log| - 1];
  }

  lemma OtherDemandsTold(demands: Demands, audit: seq<Event>, e: Event, k: DemandKey)
    requires DemandsTold(demands, audit) && IsAbout(e, k) && k !in demands
    ensures DemandsTold(demands, audit + [e])
  {
    forall j | j in demands ensures TellsDemand(LogOf(audit + [e], j), demands[j]) {
      LogOfMore(audit, e, j);
    }
  }

  lemma OtherApprovalsTold(approvals: ApprovalRows, audit: seq<Event>, e: Event, k: DemandKey)
    requires ApprovalsTold(approvals, audit) && IsAbout(e, k) && k !in approvals
    ensures ApprovalsTold(approvals, audit + [e])
  {
    forall j | j in approvals ensures TellsApproval(LogOf(audit + [e], j), approvals[j]) {
      LogOfMore(audit, e, j);
    }
  }

  lemma WithoutKeyTold(demands: Demands, audit: seq<Event>, k: DemandKey)
    requires DemandsTold(demands, audit)
    ensures DemandsTold(demands - {k}, audit)
  {
  }

  lemma StillNothingElse(demands: Demands, approvals: ApprovalRows, audit: seq<Event>, e: Event, k: DemandKey)
    requires NothingElseTold(demands, approvals, audit) && IsAbout(e, k)
    ensures forall j: DemandKey | j !in demands && j !in approvals && j != k :: LogOf(audit + [e], j) == []
  {
    forall j: DemandKey | j !in demands && j !in approvals && j != k ensures LogOf(audit + [e], j) == [] {
      LogOfMore(audit, e, j);
    }
  }

  lemma DemandToldNext(demands: Demands, audit: seq<Event>, e: Event, next: DemandRow)
    requires DemandsTold(demands, audit) && IsAbout(e, Key(next)) && next.revision >= 1
    requires TellsDemand(LogOf(audit, Key(next)) + [e], next)
    ensures DemandsTold(demands[Key(next) := next], audit + [e])
  {
    WithoutKeyTold(demands, audit, Key(next));
    OtherDemandsTold(demands - {Key(next)}, audit, e, Key(next));
    LogOfMore(audit, e, Key(next));
  }

  lemma ApprovalToldNext(approvals: ApprovalRows, audit: seq<Event>, e: Event, next: ApprovalRow)
    requires ApprovalsTold(approvals, audit) && IsAbout(e, ApprovalKey(next)) && next.revision >= 1
    requires TellsApproval(LogOf(audit, ApprovalKey(next)) + [e], next)
    ensures ApprovalsTold(approvals[ApprovalKey(next) := next], audit + [e])
  {
    assert ApprovalsTold(approvals - {ApprovalKey(next)}, audit);
    OtherApprovalsTold(approvals - {ApprovalKey(next)}, audit, e, ApprovalKey(next));
    LogOfMore(audit, e, ApprovalKey(next));
  }

  lemma DemandWritten(demands: Demands, approvals: ApprovalRows, audit: seq<Event>, e: Event, next: DemandRow)
    requires Mirrors(demands, approvals, audit) && Key(next) !in approvals && IsAbout(e, Key(next))
      && next.revision >= 1
    requires TellsDemand(LogOf(audit, Key(next)) + [e], next)
    ensures Mirrors(demands[Key(next) := next], approvals, audit + [e])
  {
    DemandToldNext(demands, audit, e, next);
    OtherApprovalsTold(approvals, audit, e, Key(next));
    StillNothingElse(demands, approvals, audit, e, Key(next));
  }

  lemma ApprovalWritten(demands: Demands, approvals: ApprovalRows, audit: seq<Event>, e: Event, next: ApprovalRow)
    requires Mirrors(demands, approvals, audit) && ApprovalKey(next) !in demands && IsAbout(e, ApprovalKey(next))
      && next.revision >= 1
    requires TellsApproval(LogOf(audit, ApprovalKey(next)) + [e], next)
    ensures Mirrors(demands, approvals[ApprovalKey(next) := next], audit + [e])
  {
    ApprovalToldNext(approvals, audit, e, next);
    OtherDemandsTold(demands, audit, e, ApprovalKey(next));
    StillNothingElse(demands, approvals, audit, e, ApprovalKey(next));
  }

  lemma DemandMoves(
    demands: Demands, approvals: ApprovalRows, audit: seq<Event>, row: DemandRow, e: Event, next: DemandRow)
    requires Mirrors(demands, approvals, audit) && Key(row) in demands && demands[Key(row)] == row
    requires e.aggregate == DemandDigest(next) && IsAbout(e, Key(row)) && Key(next) == Key(row)
    requires next.resource == row.resource && next.revision == row.revision + 1 && Moves(row.state, next.state)
    requires next.state == BLOCKED ==> (next.validated.Some? <==> e.eventType == DEMAND_BLOCKED)
    ensures Mirrors(demands[Key(next) := next], approvals, audit + [e])
  {
    DemandEventTells(LogOf(audit, Key(row)), row, e, next);
    DemandWritten(demands, approvals, audit, e, next);
  }

  lemma ApprovalMoves(
    demands: Demands, approvals: ApprovalRows, audit: seq<Event>, a: ApprovalRow, e: Event, next: ApprovalRow)
    requires Mirrors(demands, approvals, audit) && ApprovalKey(a) in approvals && approvals[ApprovalKey(a)] == a
      && a.state == PENDING
    requires e.aggregate == ApprovalDigest(next) && IsAbout(e, ApprovalKey(a)) && ApprovalKey(next) == ApprovalKey(a)
    requires next.demandId == a.demandId && next.revision == a.revision + 1
    ensures Mirrors(demands, approvals[ApprovalKey(next) := next], audit + [e])
  {
    ApprovalEventTells(LogOf(audit, ApprovalKey(a)), a, e, next);
    ApprovalWritten(demands, approvals, audit, e, next);
  }

  lemma ApprovalAppears(demands: Demands, approvals: ApprovalRows, audit: seq<Event>, e: Event, a: ApprovalRow)
    requires Mirrors(demands, approvals, audit) && ApprovalKey(a) !in demands && ApprovalKey(a) !in approvals
    requires e.aggregate == ApprovalDigest(a) && IsAbout(e, ApprovalKey(a)) && a.revision == 1
    ensures Mirrors(demands, approvals[ApprovalKey(a) := a], audit + [e])
  {
    assert LogOf(audit, ApprovalKey(a)) == [];
    assert [] + [e] == [e];
    ApprovalWritten(demands, approvals, audit, e, a);
  }

  // ---------- each change ----------

  lemma CreateIsTold(s: Store, c: Context, input: Input, now: int, id: Id, first: Id)
    requires Mirrors(s.demands, s.approvals, s.audit) && (c.org, id) !in s.demands && (c.org, id) !in s.approvals
    ensures var t := Applied(s, CreateChange(c, input, now, id, first)); Mirrors(t.demands, t.approvals, t.audit)
  {
    var change := CreateChange(c, input, now, id, first);
    var e := change.events[0];
    assert LogOf(s.audit, (c.org, id)) == [];
    assert [] + [e] == [e] && change.events == [e];
    DemandWritten(s.demands, s.approvals, s.audit, e, change.demand);
  }

  lemma ValidateIsTold(s: Store, c: Context, row: DemandRow, resolution: Resolution, now: int, first: Id)
    requires Mirrors(s.demands, s.approvals, s.audit) && (c.org, row.id) in s.demands
      && row == s.demands[(c.org, row.id)]
    requires row.org == c.org && (row.state == DRAFT || row.state == BLOCKED)
    ensures var t := Applied(s, ValidateChange(c, row, resolution, now, first));
      Mirrors(t.demands, t.approvals, t.audit)
  {
    var change := ValidateChange(c, row, resolution, now, first);
    var e := change.events[0];
    assert change.events == [e];
    DemandMoves(s.demands, s.approvals, s.audit, row, e, change.demand);
  }

  /** An approval appears and the demand it is about moves on. */
  lemma BothAppear(
    demands: Demands, approvals: ApprovalRows, audit: seq<Event>, a: ApprovalRow, demand: DemandRow, moved: DemandRow,
    e: Event, f: Event)
    requires Mirrors(demands, approvals, audit) && ApprovalKey(a) !in demands && ApprovalKey(a) !in approvals
    requires e.aggregate == ApprovalDigest(a) && IsAbout(e, ApprovalKey(a)) && a.revision == 1
    requires Key(demand) in demands && demands[Key(demand)] == demand
    requires f.aggregate == DemandDigest(moved) && IsAbout(f, Key(demand)) && Key(moved) == Key(demand)
    requires moved.resource == demand.resource && moved.revision == demand.revision + 1
      && Moves(demand.state, moved.state)
    requires moved.state != BLOCKED
    ensures Mirrors(demands[Key(moved) := moved], approvals[ApprovalKey(a) := a], audit + [e, f])
  {
    assert audit + [e, f] == (audit + [e]) + [f];
    ApprovalAppears(demands, approvals, audit, e, a);
    DemandMoves(demands, approvals[ApprovalKey(a) := a], audit + [e], demand, f, moved);
  }

  lemma RequestIsTold(
    s: Store, c: Context, row: DemandRow, subject: Digest, revision: nat, policy: Policy, now: int, approvalId: Id,
    first: Id, second: Id)
    requires Mirrors(s.demands, s.approvals, s.audit) && (c.org, row.id) in s.demands
      && row == s.demands[(c.org, row.id)]
    requires row.org == c.org && row.state == VALIDATED && (c.org, approvalId) !in s.demands
      && (c.org, approvalId) !in s.approvals
    ensures var t := Applied(s, RequestChange(c, row, subject, revision, policy, now, approvalId, first, second));
      Mirrors(t.demands, t.approvals, t.audit)
  {
    var change := RequestChange(c, row, subject, revision, policy, now, approvalId, first, second);
    assert change.events == [change.events[0], change.events[1]];
    BothAppear(s.demands, s.approvals, s.audit, change.approval.value, row, change.demand, change.events[0],
      change.events[1]);
  }

  /** An approval that moves on, and the demand with it. */
  lemma BothAreTold(demands: Demands, approvals: ApprovalRows, audit: seq<Event>, a: ApprovalRow, next: ApprovalRow,
    demand: DemandRow, moved: DemandRow, e: Event, f: Event)
    requires Mirrors(demands, approvals, audit) && ApprovalKey(a) in approvals && approvals[ApprovalKey(a)] == a
      && a.state == PENDING
    requires e.aggregate == ApprovalDigest(next) && IsAbout(e, ApprovalKey(a)) && ApprovalKey(next) == ApprovalKey(a)
    requires next.demandId == a.demandId && next.revision == a.revision + 1
    requires Key(demand) in demands && demands[Key(demand)] == demand
    requires f.aggregate == DemandDigest(moved) && IsAbout(f, Key(demand)) && Key(moved) == Key(demand)
    requires moved.resource == demand.resource && moved.revision == demand.revision + 1
      && Moves(demand.state, moved.state)
    requires moved.state == BLOCKED ==> (moved.validated.Some? <==> f.eventType == DEMAND_BLOCKED)
    ensures Mirrors(demands[Key(moved) := moved], approvals[ApprovalKey(next) := next], audit + [e, f])
  {
    assert audit + [e, f] == (audit + [e]) + [f];
    ApprovalMoves(demands, approvals, audit, a, e, next);
    DemandMoves(demands, approvals[ApprovalKey(next) := next], audit + [e], demand, f, moved);
  }

  /** What is known of an approval and its demand when a decision has passed its checks. */
  ghost predicate Deciding(s: Store, org: Org, a: ApprovalRow, demand: DemandRow) {
    && a.org == org && ApprovalKey(a) in s.approvals && s.approvals[ApprovalKey(a)] == a && a.state == PENDING
    && demand.org == org && Key(demand) in s.demands && s.demands[Key(demand)] == demand && IsCurrent(a, demand)
  }

  lemma ExpireIsTold(s: Store, c: Context, a: ApprovalRow, demand: DemandRow, now: int, first: Id, second: Id)
    requires Mirrors(s.demands, s.approvals, s.audit) && Deciding(s, c.org, a, demand)
    ensures var t := Applied(s, ExpireChange(c, a, demand, now, first, second));
      Mirrors(t.demands, t.approvals, t.audit)
  {
    var change := ExpireChange(c, a, demand, now, first, second);
    BothAreTold(s.demands, s.approvals, s.audit, a, change.approval.value, demand, change.demand, change.events[0],
      change.events[1]);
  }

  lemma ApprovalChangeIsTold(s: Store, change: Change, a: ApprovalRow, next: ApprovalRow, e: Event)
    requires Mirrors(s.demands, s.approvals, s.audit) && ApprovalKey(a) in s.approvals
      && s.approvals[ApprovalKey(a)] == a && a.state == PENDING
    requires e.aggregate == ApprovalDigest(next) && IsAbout(e, ApprovalKey(a)) && ApprovalKey(next) == ApprovalKey(a)
    requires next.demandId == a.demandId && next.revision == a.revision + 1
    requires change.approval == Some(next) && change.events == [e]
    requires Key(change.demand) in s.demands && s.demands[Key(change.demand)] == change.demand
    ensures var t := Applied(s, change); Mirrors(t.demands, t.approvals, t.audit)
  {
    ApprovalMoves(s.demands, s.approvals, s.audit, a, e, next);
    assert s.demands[Key(change.demand) := change.demand] == s.demands;
  }

  lemma VoteIsTold(
    s: Store, c: Context, a: ApprovalRow, demand: DemandRow, approve: bool, reason: string, now: int, first: Id,
    second: Id)
    requires Mirrors(s.demands, s.approvals, s.audit) && Deciding(s, c.org, a, demand)
    requires NextState(a, Decision(c.subject, approve, reason, now)) == PENDING
    ensures var t := Applied(s, DecideChange(c, a, demand, approve, reason, now, first, second));
      Mirrors(t.demands, t.approvals, t.audit)
  {
    var change := DecideChange(c, a, demand, approve, reason, now, first, second);
    ApprovalChangeIsTold(s, change, a, change.approval.value, change.events[0]);
  }

  lemma SettlementIsTold(
    s: Store, c: Context, a: ApprovalRow, demand: DemandRow, approve: bool, reason: string, now: int, first: Id,
    second: Id)
    requires Mirrors(s.demands, s.approvals, s.audit) && Deciding(s, c.org, a, demand)
    requires NextState(a, Decision(c.subject, approve, reason, now)) != PENDING
    ensures var t := Applied(s, DecideChange(c, a, demand, approve, reason, now, first, second));
      Mirrors(t.demands, t.approvals, t.audit)
  {
    var change := DecideChange(c, a, demand, approve, reason, now, first, second);
    assert change.events == [change.events[0], change.events[1]];
    BothAreTold(s.demands, s.approvals, s.audit, a, change.approval.value, demand, change.demand, change.events[0],
      change.events[1]);
  }

  lemma DecideCallIsTold(
    s: Store, c: Context, id: Id, approve: bool, reason: string, ifMatch: Option<Tag>, now: int, answer: PolicyAnswer,
    first: Id, second: Id)
    requires LawfulRows(s.demands, s.approvals) && Mirrors(s.demands, s.approvals, s.audit)
    requires Decide(s, c, id, approve, reason, ifMatch, now, answer, first, second).Ok?
    ensures var t := Applied(s, Decide(s, c, id, approve, reason, ifMatch, now, answer, first, second).value.0);
      Mirrors(t.demands, t.approvals, t.audit)
  {
    var a, demand := DecideCases(s, c, id, approve, reason, ifMatch, now, answer, first, second);
    if a.policy.expiresAt <= now {
      ExpireIsTold(s, c, a, demand, now, first, second);
    } else if NextState(a, Decision(c.subject, approve, reason, now)) == PENDING {
      VoteIsTold(s, c, a, demand, approve, reason, now, first, second);
    } else {
      SettlementIsTold(s, c, a, demand, approve, reason, now, first, second);
    }
  }

  lemma RequestCallIsTold(
    s: Store, c: Context, id: Id, ifMatch: Option<Tag>, now: int, answer: PolicyAnswer, approvalId: Id, first: Id,
    second: Id)
    requires LawfulDemands(s.demands, s.approvals) && Mirrors(s.demands, s.approvals, s.audit)
    requires (c.org, approvalId) !in s.demands && (c.org, approvalId) !in s.approvals
    requires RequestApproval(s, c, id, ifMatch, now, answer, approvalId, first, second).Ok?
    ensures var t := Applied(s, RequestApproval(s, c, id, ifMatch, now, answer, approvalId, first, second).value.0);
      Mirrors(t.demands, t.approvals, t.audit)
  {
    var row := s.demands[(c.org, id)];
    var policy := AdmittedPolicy(answer, c.subject, now).value;
    RequestIsTold(s, c, row, row.validated.value, row.revision, policy, now, approvalId, first, second);
  }

  lemma ProposalIsTold(s: Store, issued: set<Id>, call: Call)
    requires LawfulRows(s.demands, s.approvals) && Mirrors(s.demands, s.approvals, s.audit)
    requires AllIssued(s, issued) && Fresh(issued, Drawn(call)) && !call.FailNextAudit? && Propose(s, call).Ok?
    ensures var t := Applied(s, Propose(s, call).value.0); Mirrors(t.demands, t.approvals, t.audit)
  {
    assert forall i | 0 <= i < |Drawn(call)| :: Drawn(call)[i] !in issued;
    match call
    case CreateCall(r, input, now, id, first) =>
      assert Drawn(call)[0] == id;
      CreateIsTold(s, r.context, input, now, id, first);
    case ValidateCall(r, id, ifMatch, now, resolution, first) =>
      ValidateIsTold(s, r.context, s.demands[(r.context.org, id)], resolution, now, first);
    case RequestCall(r, id, ifMatch, now, answer, approvalId, first, second) =>
      assert Drawn(call)[0] == approvalId;
      RequestCallIsTold(s, r.context, id, ifMatch, now, answer, approvalId, first, second);
    case DecideCall(r, id, approve, reason, ifMatch, now, answer, first, second) =>
      DecideCallIsTold(s, r.context, id, approve, reason, ifMatch, now, answer, first, second);
  }

  // ---------- the audit chain takes every batch ----------

  /** The events of a proposal belong to the tenant and carry the event ids that the call drew. */
  predicate OwnEvents(events: seq<Event>, org: Org, drawn: seq<Id>) {
    && |events| <= |drawn|
    && (forall i | 0 <= i < |events| :: events[i].org == org && events[i].eventId in drawn)
    && (forall i, j | 0 <= i < j < |events| :: events[i].eventId != events[j].eventId)
  }

  lemma OneOwnEvent(events: seq<Event>, org: Org, drawn: seq<Id>, first: Id)
    requires |events| == 1 && events[0].org == org && events[0].eventId == first && first in drawn
    ensures OwnEvents(events, org, drawn)
  {
  }

  lemma OwnEventsOf(events: seq<Event>, org: Org, drawn: seq<Id>, first: Id, second: Id)
    requires 1 <= |events| <= 2 && events[0].org == org && events[0].eventId == first
    requires |events| == 2 ==> events[1].org == org && events[1].eventId == second
    requires |drawn| >= 2 && first in drawn && second in drawn && first != second
    ensures OwnEvents(events, org, drawn)
  {
  }

  lemma ProposalHasOwnEvents(s: Store, call: Call)
    requires !call.FailNextAudit? && Propose(s, call).Ok? && Distinct(Drawn(call))
    ensures OwnEvents(Propose(s, call).value.0.events, call.r.context.org, Drawn(call))
  {
    var events, drawn, org := Propose(s, call).value.0.events, Drawn(call), call.r.context.org;
    match call
    case CreateCall(r, input, now, id, first) => assert drawn[1] == first; OneOwnEvent(events, org, drawn, first);
    case ValidateCall(r, id, ifMatch, now, resolution, first) =>
      assert drawn[0] == first; OneOwnEvent(events, org, drawn, first);
    case RequestCall(r, id, ifMatch, now, answer, approvalId, first, second) =>
      assert drawn[1] == first && drawn[2] == second;
      OwnEventsOf(events, org, drawn, first, second);
    case DecideCall(r, id, approve, reason, ifMatch, now, answer, first, second) =>
      assert drawn[0] == first && drawn[1] == second;
      OwnEventsOf(events, org, drawn, first, second);
  }

  lemma {:induction false} FactsOfEvents(events: seq<Event>)
    ensures forall i | 0 <= i < |events| :: FactsOf(events)[i] == FactOf(events[i])
  {
    if events != [] {
      FactsOfEvents(events[1..]);
      assert forall i | 0 < i < |events| :: events[i] == events[1..][i - 1];
    }
  }

  lemma {:induction false} TenantsEvents(audit: seq<Event>, org: Org)
    ensures forall e | e in OfTenant(audit, org) :: e in audit
  {
    if audit != [] {
      TenantsEvents(audit[..|audit| - 1], org);
      assert audit == audit[..|audit| - 1] + [audit[|audit| - 1]];
    }
  }

  lemma AuditTakesFreshEvents(s: Store, issued: set<Id>, org: Org, events: seq<Event>, drawn: seq<Id>)
    requires AllIssued(s, issued) && Fresh(issued, drawn) && OwnEvents(events, org, drawn)
    ensures AuditFault(s.audit, org, events) == None
  {
    var told := OfTenant(s.audit, org);
    TenantsEvents(s.audit, org);
    FactsOfEvents(told);
    FactsOfEvents(events);
    forall i | 0 <= i < |events| ensures !AuditChain.Knows(FactsOf(told), events[i].eventId) {
      var d :| 0 <= d < |drawn| && drawn[d] == events[i].eventId;
      forall j | 0 <= j < |told| ensures FactsOf(told)[j].eventId != events[i].eventId {
        assert told[j] in told;
      }
    }
    AuditChain.FaultlessExactly(FactsOf(told), org, FactsOf(events));
  }

  // ---------- all runs ----------

  ghost predicate Invariant(w: World) {
    && LawfulRows(w.store.demands, w.store.approvals)
    && Mirrors(w.store.demands, w.store.approvals, w.store.audit)
    && AllIssued(w.store, w.issued)
  }

  /** The change writes no row whose id is neither drawn by the call nor stored already. */
  ghost predicate KnownIds(s: Store, change: Change, drawn: seq<Id>) {
    && (change.demand.id in drawn || Key(change.demand) in s.demands)
    && (change.approval.Some?
      ==> change.approval.value.id in drawn || ApprovalKey(change.approval.value) in s.approvals)
  }

  lemma DecisionHasKnownIds(s: Store, call: Call)
    requires LawfulRows(s.demands, s.approvals) && call.DecideCall? && Propose(s, call).Ok?
    ensures KnownIds(s, Propose(s, call).value.0, Drawn(call))
  {
    var a, demand := DecideCases(
      s, call.r.context, call.id, call.approve, call.reason, call.ifMatch, call.now, call.answer, call.first,
      call.second);
    var change := Propose(s, call).value.0;
    assert Key(change.demand) == Key(demand) && change.approval.Some?
      && ApprovalKey(change.approval.value) == ApprovalKey(a);
  }

  lemma ProposalHasKnownIds(s: Store, call: Call)
    requires LawfulRows(s.demands, s.approvals) && !call.FailNextAudit? && Propose(s, call).Ok?
    ensures KnownIds(s, Propose(s, call).value.0, Drawn(call))
  {
    match call
    case CreateCall(r, input, now, id, first) => assert Drawn(call)[0] == id;
    case ValidateCall(r, id, ifMatch, now, resolution, first) =>
    case RequestCall(r, id, ifMatch, now, answer, approvalId, first, second) => assert Drawn(call)[0] == approvalId;
    case DecideCall(r, id, approve, reason, ifMatch, now, answer, first, second) => DecisionHasKnownIds(s, call);
  }

  lemma ChangeIsIssued(s: Store, issued: set<Id>, change: Change, org: Org, drawn: seq<Id>)
    requires AllIssued(s, issued) && OwnEvents(change.events, org, drawn) && KnownIds(s, change, drawn)
    ensures AllIssued(Applied(s, change), issued + set id | id in drawn)
  {
  }

  lemma StepKeepsInvariant(w: World, call: Call)
    requires Invariant(w) && Fresh(w.issued, Drawn(call))
    ensures Invariant(Step(w, call))
  {
    EveryCallIsOneCommit(w.store, call);
    if Commits(w.store, call) {
      ProposalKeepsRows(w.store, w.issued, call);
      ProposalIsTold(w.store, w.issued, call);
      ProposalHasOwnEvents(w.store, call);
      ProposalHasKnownIds(w.store, call);
      ChangeIsIssued(w.store, w.issued, Propose(w.store, call).value.0, call.r.context.org, Drawn(call));
    }
  }

  /** After any run of calls with fresh identifiers: rows are lawful, the audit tells every row, and identifiers in
      use were drawn. */
  lemma {:induction false} RunKeepsInvariant(calls: seq<Call>)
    requires Feasible(START, calls)
    ensures Invariant(Run(START, calls))
    decreases |calls|
  {
    if calls != [] {
      RunKeepsInvariant(calls[..|calls| - 1]);
      StepKeepsInvariant(Run(START, calls[..|calls| - 1]), calls[|calls| - 1]);
    }
  }

  /** With fresh event ids the audit chain never refuses: a call that passes its checks fails only by the injected
      failure. */
  lemma AuditNeverRefuses(w: World, call: Call)
    requires Invariant(w) && Fresh(w.issued, Drawn(call)) && !call.FailNextAudit? && Propose(w.store, call).Ok?
    requires Replay(w.store, call.r.context, call.r.key, call.r.fingerprint) == Proceed
    ensures if w.store.auditFailure then
      Perform(w.store, call) == Raised(w.store.(auditFailure := false), AUDIT_APPEND_FAILED)
      else Perform(w.store, call).Returned? && Commits(w.store, call)
  {
    ProposalHasOwnEvents(w.store, call);
    AuditTakesFreshEvents(w.store, w.issued, call.r.context.org, Propose(w.store, call).value.0.events, Drawn(call));
    EveryCallIsOneCommit(w.store, call);
  }
}
