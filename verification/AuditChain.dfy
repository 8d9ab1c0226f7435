/**
 The tenant audit chain. Every record carries the digest of the record before it. SHA-256 over the
 canonical form of a record is the parameter `hash`, about which nothing is assumed.
 */
module AuditChain {
  import opened Basics

  type Org = string
  type Id = nat
  type Digest = nat

  /** What an event says; `A` is the type of the digests of the rows it is about. */
  datatype Fact<A> = Fact(eventId: Id, org: Org, eventType: string, aggregate: A, actor: Id, occurredAt: int)

  /** Everything of a record that its digest covers. */
  datatype Unsigned<A> = Unsigned(sequence: int, previous: Digest, fact: Fact<A>)

  datatype Record<A> = Record(unsigned: Unsigned<A>, digest: Digest)

  datatype Verification = Verification(valid: bool, verifiedLength: nat, head: Digest)

  datatype Refusal = BATCH_REFUSED | CHAIN_TAMPERED | FACT_REFUSED | DUPLICATE_EVENT

  const MAX_BATCH := 32

  /** The digest function and the digest of the empty text, which stands before the first record. */
  datatype Hashing<!A(!new)> = Hashing(hash: Unsigned<A> -> Digest, genesis: Digest)

  // ---------- valid chains ----------

  function Head<A(!new)>(h: Hashing<A>, records: seq<Record<A>>): Digest {
    if records == [] then h.genesis else records[|records| - 1].digest
  }

  predicate SeenBefore<A(!new)>(records: seq<Record<A>>, i: nat, eventId: Id)
    requires i <= |records|
  {
    exists j | 0 <= j < i :: records[j].unsigned.fact.eventId == eventId
  }

  /** The record at `i` belongs to the tenant, follows the one before it and is sealed by its digest. */
  predicate Links<A(!new)>(h: Hashing<A>, org: Org, records: seq<Record<A>>, i: nat)
    requires i < |records|
  {
    var r := records[i];
    && r.unsigned.fact.org == org
    && r.unsigned.sequence == i + 1
    && r.unsigned.previous == Head(h, records[..i])
    && h.hash(r.unsigned) == r.digest
    && !SeenBefore(records, i, r.unsigned.fact.eventId)
  }

  predicate IsChain<A(!new)>(h: Hashing<A>, org: Org, records: seq<Record<A>>) {
    forall i | 0 <= i < |records| :: Links(h, org, records, i)
  }

  function Facts<A(!new)>(records: seq<Record<A>>): (r: seq<Fact<A>>)
    ensures |r| == |records| && forall i | 0 <= i < |r| :: r[i] == records[i].unsigned.fact
  {
    seq(|records|, i requires 0 <= i < |records| => records[i].unsigned.fact)
  }

  /** The loop of the verifier: it stops at the first record that does not link. */
  method VerifyAuditChain<A(!new)>(h: Hashing<A>, org: Org, records: seq<Record<A>>) returns (v: Verification)
    ensures v.verifiedLength <= |records|
    ensures forall i | 0 <= i < v.verifiedLength :: Links(h, org, records, i)
    ensures v.verifiedLength < |records| ==> !Links(h, org, records, v.verifiedLength)
    ensures v.valid <==> v.verifiedLength == |records|
    ensures v.valid <==> IsChain(h, org, records)
    ensures v.head == Head(h, records[..v.verifiedLength])
  {
    var previous := h.genesis;
    var index := 0;
    while index < |records|
      invariant index <= |records|
      invariant forall i | 0 <= i < index :: Links(h, org, records, i)
      invariant previous == Head(h, records[..index])
    {
      var record := records[index];
      if record.unsigned.fact.org != org {
        return Verification(false, index, previous);
      }
      if record.unsigned.sequence != index + 1 || record.unsigned.previous != previous
        || h.hash(record.unsigned) != record.digest || SeenBefore(records, index, record.unsigned.fact.eventId)
      {
        return Verification(false, index, previous);
      }
      assert records[..index + 1][index] == record;
      previous := record.digest;
      index := index + 1;
    }
    assert records[..|records|] == records;
    return Verification(true, |records|, previous);
  }

  lemma LinksInPrefix<A(!new)>(h: Hashing<A>, org: Org, records: seq<Record<A>>, n: nat, i: nat)
    requires i < n <= |records|
    ensures Links(h, org, records[..n], i) <==> Links(h, org, records, i)
  {
    assert records[..n][..i] == records[..i];
    assert forall j | 0 <= j < i :: records[..n][j] == records[j];
  }

  /** The verified length is that of the longest prefix that is a chain. */
  lemma VerifiedPrefixIsLongest<A(!new)>(h: Hashing<A>, org: Org, records: seq<Record<A>>, length: nat)
    requires length <= |records| && forall i | 0 <= i < length :: Links(h, org, records, i)
    requires length < |records| ==> !Links(h, org, records, length)
    ensures forall n | 0 <= n <= |records| :: IsChain(h, org, records[..n]) <==> n <= length
  {
    forall n | 0 <= n <= |records| ensures IsChain(h, org, records[..n]) <==> n <= length {
      forall i | 0 <= i < n ensures Links(h, org, records[..n], i) <==> Links(h, org, records, i) {
        LinksInPrefix(h, org, records, n, i);
      }
      if n > length {
        assert !Links(h, org, records[..n], length);
      }
    }
  }

  // ---------- the head commits to the history ----------

  /** Two different records of the two chains have one digest. */
  ghost predicate Collide<A(!new)>(h: Hashing<A>, a: seq<Record<A>>, b: seq<Record<A>>, i: nat, j: nat) {
    && i < |a| && j < |b| && a[i].unsigned != b[j].unsigned
    && h.hash(a[i].unsigned) == h.hash(b[j].unsigned)
  }

  /** A record of the chain has the digest of the empty text. */
  predicate MeetsGenesis<A(!new)>(h: Hashing<A>, a: seq<Record<A>>, i: nat) {
    i < |a| && h.hash(a[i].unsigned) == h.genesis
  }

  /** The digest function is broken on records of these two chains. */
  ghost predicate IsBrokenOn<A(!new)>(h: Hashing<A>, a: seq<Record<A>>, b: seq<Record<A>>) {
    || (exists i: nat, j: nat :: Collide(h, a, b, i, j))
    || (exists i: nat :: MeetsGenesis(h, a, i))
    || (exists i: nat :: MeetsGenesis(h, b, i))
  }

  lemma BrokenOnPrefixes<A(!new)>(h: Hashing<A>, a: seq<Record<A>>, b: seq<Record<A>>, m: nat, n: nat)
    requires m <= |a| && n <= |b| && IsBrokenOn(h, a[..m], b[..n])
    ensures IsBrokenOn(h, a, b)
  {
    if i: nat, j: nat :| Collide(h, a[..m], b[..n], i, j) {
      assert Collide(h, a, b, i, j);
    } else if i: nat :| MeetsGenesis(h, a[..m], i) {
      assert MeetsGenesis(h, a, i);
    } else {
      var i: nat :| MeetsGenesis(h, b[..n], i);
      assert MeetsGenesis(h, b, i);
    }
  }

  lemma ChainPrefix<A(!new)>(h: Hashing<A>, org: Org, records: seq<Record<A>>, n: nat)
    requires IsChain(h, org, records) && n <= |records|
    ensures IsChain(h, org, records[..n])
  {
    forall i | 0 <= i < n ensures Links(h, org, records[..n], i) {
      LinksInPrefix(h, org, records, n, i);
    }
  }

  /**
   Two chains with one head digest are equal record by record, unless the digest function is broken on
   them: then two different records of theirs have one digest, or one has that of the empty text.
   */
  lemma {:induction false} HeadCommitsToHistory<A(!new)>(h: Hashing<A>, org: Org, a: seq<Record<A>>, b: seq<Record<A>>)
    requires IsChain(h, org, a) && IsChain(h, org, b) && Head(h, a) == Head(h, b)
    ensures a == b || IsBrokenOn(h, a, b)
    decreases |a|
  {
    if a == [] && b == [] {
    } else if a == [] {
      assert Links(h, org, b, |b| - 1);
      assert MeetsGenesis(h, b, |b| - 1);
    } else if b == [] {
      assert Links(h, org, a, |a| - 1);
      assert MeetsGenesis(h, a, |a| - 1);
    } else {
      var m, n := |a| - 1, |b| - 1;
      assert Links(h, org, a, m) && Links(h, org, b, n);
      if a[m].unsigned != b[n].unsigned {
        assert Collide(h, a, b, m, n);
      } else {
        ChainPrefix(h, org, a, m);
        ChainPrefix(h, org, b, n);
        HeadCommitsToHistory(h, org, a[..m], b[..n]);
        assert a == a[..m] + [a[m]] && b == b[..n] + [b[n]];
        if a[..m] != b[..n] {
          BrokenOnPrefixes(h, a, b, m, n);
        }
      }
    }
  }

  // ---------- appending ----------

  /** The records that the facts become behind a chain of length `length` with head `previous`. */
  function Sealed<A(!new)>(h: Hashing<A>, length: nat, previous: Digest, facts: seq<Fact<A>>): (r: seq<Record<A>>)
    ensures |r| == |facts|
    decreases |facts|
  {
    if facts == [] then []
    else
      var unsigned := Unsigned(length + 1, previous, facts[0]);
      [Record(unsigned, h.hash(unsigned))] + Sealed(h, length + 1, h.hash(unsigned), facts[1..])
  }

  predicate Knows<A(!new)>(facts: seq<Fact<A>>, eventId: Id) {
    exists i | 0 <= i < |facts| :: facts[i].eventId == eventId
  }

  /** What keeps a batch out of a chain that holds `facts`: the first fact of another tenant, or with an event id
      seen before. */
  function BatchFault<A(!new)>(facts: seq<Fact<A>>, org: Org, batch: seq<Fact<A>>): Option<Refusal>
    decreases |batch|
  {
    if batch == [] then None
    else if batch[0].org != org then Some(FACT_REFUSED)
    else if Knows(facts, batch[0].eventId) then Some(DUPLICATE_EVENT)
    else BatchFault(facts + [batch[0]], org, batch[1..])
  }

  function Extended<A(!new)>(h: Hashing<A>, records: seq<Record<A>>, batch: seq<Fact<A>>): seq<Record<A>> {
    records + Sealed(h, |records|, Head(h, records), batch)
  }

  lemma {:induction false} SealedFacts<A(!new)>(h: Hashing<A>, length: nat, previous: Digest, facts: seq<Fact<A>>)
    ensures Facts(Sealed(h, length, previous, facts)) == facts
    decreases |facts|
  {
    if facts != [] {
      SealedFacts(h, length + 1, h.hash(Unsigned(length + 1, previous, facts[0])), facts[1..]);
      var all := Sealed(h, length, previous, facts);
      assert all[1..] == Sealed(h, length + 1, h.hash(Unsigned(length + 1, previous, facts[0])), facts[1..]);
      forall i | 0 <= i < |facts| ensures all[i].unsigned.fact == facts[i] {
        if i > 0 { assert all[i] == all[1..][i - 1]; }
      }
    }
  }

  lemma ExtendedFacts<A(!new)>(h: Hashing<A>, records: seq<Record<A>>, batch: seq<Fact<A>>)
    ensures Facts(Extended(h, records, batch)) == Facts(records) + batch
  {
    SealedFacts(h, |records|, Head(h, records), batch);
    var tail := Sealed(h, |records|, Head(h, records), batch);
    forall i | 0 <= i < |batch| ensures tail[i].unsigned.fact == batch[i] {
      assert Facts(tail)[i] == batch[i];
    }
  }

  lemma AppendOne<A(!new)>(h: Hashing<A>, org: Org, records: seq<Record<A>>, fact: Fact<A>)
    requires IsChain(h, org, records) && fact.org == org && !Knows(Facts(records), fact.eventId)
    ensures IsChain(h, org, Extended(h, records, [fact]))
  {
    var unsigned := Unsigned(|records| + 1, Head(h, records), fact);
    var record := Record(unsigned, h.hash(unsigned));
    var all := Extended(h, records, [fact]);
    assert [fact][1..] == [];
    assert Sealed(h, |records| + 1, h.hash(unsigned), []) == [];
    assert all == records + [record];
    assert all[..|records|] == records;
    forall i | 0 <= i < |all| ensures Links(h, org, all, i) {
      if i < |records| {
        LinksInPrefix(h, org, all, |records|, i);
      } else {
        forall j | 0 <= j < i ensures all[j].unsigned.fact.eventId != fact.eventId {
          assert Facts(records)[j] == all[j].unsigned.fact;
        }
      }
    }
  }

  lemma ExtendedStepwise<A(!new)>(h: Hashing<A>, records: seq<Record<A>>, batch: seq<Fact<A>>)
    requires batch != []
    ensures Extended(h, records, batch) == Extended(h, Extended(h, records, [batch[0]]), batch[1..])
    ensures Facts(Extended(h, records, [batch[0]])) == Facts(records) + [batch[0]]
  {
    var unsigned := Unsigned(|records| + 1, Head(h, records), batch[0]);
    var record := Record(unsigned, h.hash(unsigned));
    assert [batch[0]][1..] == [];
    assert Sealed(h, |records| + 1, h.hash(unsigned), []) == [];
    assert Extended(h, records, [batch[0]]) == records + [record];
    ExtendedFacts(h, records, [batch[0]]);
  }

  /** A batch without fault always extends a chain to a chain, so the check after appending cannot fail. */
  lemma {:induction false} AppendKeepsChain<A(!new)>(
    h: Hashing<A>, org: Org, records: seq<Record<A>>, batch: seq<Fact<A>>)
    requires IsChain(h, org, records) && BatchFault(Facts(records), org, batch) == None
    ensures IsChain(h, org, Extended(h, records, batch))
    decreases |batch|
  {
    if batch == [] {
      assert Extended(h, records, batch) == records;
    } else {
      AppendOne(h, org, records, batch[0]);
      ExtendedStepwise(h, records, batch);
      AppendKeepsChain(h, org, Extended(h, records, [batch[0]]), batch[1..]);
    }
  }

  /** A batch has no fault exactly when it is all the tenant's own, with event ids that are new and distinct. */
  lemma {:induction false} FaultlessExactly<A(!new)>(facts: seq<Fact<A>>, org: Org, batch: seq<Fact<A>>)
    ensures BatchFault(facts, org, batch) == None <==>
      (forall i | 0 <= i < |batch| :: batch[i].org == org && !Knows(facts, batch[i].eventId))
      && (forall i, j | 0 <= i < j < |batch| :: batch[i].eventId != batch[j].eventId)
    decreases |batch|
  {
    if batch != [] && batch[0].org == org && !Knows(facts, batch[0].eventId) {
      var more, rest := facts + [batch[0]], batch[1..];
      FaultlessExactly(more, org, rest);
      assert more[|facts|] == batch[0];
      assert forall k | 0 <= k < |facts| :: more[k] == facts[k];
      assert forall i | 0 <= i < |rest| :: rest[i] == batch[i + 1];
      assert forall i | 0 < i < |batch| :: batch[i] == rest[i - 1];
      forall eventId: Id ensures Knows(more, eventId) <==> Knows(facts, eventId) || eventId == batch[0].eventId {
        if Knows(facts, eventId) {
          var k :| 0 <= k < |facts| && facts[k].eventId == eventId;
          assert more[k].eventId == eventId;
        }
      }
    }
  }

  /** What appending a batch to the chains of all tenants does. */
  function Appended<A(!new)>(
    h: Hashing<A>, chains: map<Org, seq<Record<A>>>, batch: seq<Fact<A>>): Result<map<Org, seq<Record<A>>>, Refusal>
  {
    if |batch| < 1 || |batch| > MAX_BATCH then Err(BATCH_REFUSED)
    else
      var org := batch[0].org;
      var current := Chain(chains, org);
      if !IsChain(h, org, current) then Err(CHAIN_TAMPERED)
      else
        match BatchFault(Facts(current), org, batch)
        case Some(e) => Err(e)
        case None => Ok(chains[org := Extended(h, current, batch)])
  }

  function Chain<A(!new)>(chains: map<Org, seq<Record<A>>>, org: Org): seq<Record<A>> {
    if org in chains then chains[org] else []
  }

  lemma EventsGrow<A(!new)>(facts: seq<Fact<A>>, seen: set<Id>, fact: Fact<A>)
    requires forall e :: e in seen <==> Knows(facts, e)
    ensures forall e :: e in seen + {fact.eventId} <==> Knows(facts + [fact], e)
  {
    var more := facts + [fact];
    assert more[|facts|] == fact;
    assert forall k | 0 <= k < |facts| :: more[k] == facts[k];
  }

  lemma BatchStep<A(!new)>(
    h: Hashing<A>, length: nat, previous: Digest, before: seq<Fact<A>>, org: Org, rest: seq<Fact<A>>)
    requires rest != []
    ensures var unsigned := Unsigned(length + 1, previous, rest[0]);
      Sealed(h, length, previous, rest)
        == [Record(unsigned, h.hash(unsigned))] + Sealed(h, length + 1, h.hash(unsigned), rest[1..])
    ensures BatchFault(before, org, rest)
      == if rest[0].org != org then Some(FACT_REFUSED)
         else if Knows(before, rest[0].eventId) then Some(DUPLICATE_EVENT)
         else BatchFault(before + [rest[0]], org, rest[1..])
  {
  }

  /** The loop that seals the facts of a batch one behind the other. */
  method SealBatch<A(!new)>(
    h: Hashing<A>, org: Org, current: seq<Record<A>>, facts: seq<Fact<A>>) returns (r: Result<seq<Record<A>>, Refusal>)
    ensures match BatchFault(Facts(current), org, facts)
      case Some(e) => r == Err(e)
      case None => r == Ok(Sealed(h, |current|, Head(h, current), facts))
  {
    var seen := set k | 0 <= k < |current| :: current[k].unsigned.fact.eventId;
    var appended: seq<Record<A>> := [];
    var previous := Head(h, current);
    var index := 0;
    ghost var before, rest, length := Facts(current), facts, |current|;
    while index < |facts|
      invariant index == |appended| <= |facts| && rest == facts[index..] && length == |current| + index
      invariant forall e :: e in seen <==> Knows(before, e)
      invariant BatchFault(Facts(current), org, facts) == BatchFault(before, org, rest)
      invariant Sealed(h, |current|, Head(h, current), facts) == appended + Sealed(h, length, previous, rest)
    {
      var fact := facts[index];
      BatchStep(h, length, previous, before, org, rest);
      if fact.org != org {
        return Err(FACT_REFUSED);
      }
      if fact.eventId in seen {
        return Err(DUPLICATE_EVENT);
      }
      EventsGrow(before, seen, fact);
      seen := seen + {fact.eventId};
      var unsigned := Unsigned(|current| + |appended| + 1, previous, fact);
      ghost var sealed := Sealed(h, length + 1, h.hash(unsigned), rest[1..]);
      assert appended + ([Record(unsigned, h.hash(unsigned))] + sealed)
        == (appended + [Record(unsigned, h.hash(unsigned))]) + sealed;
      appended := appended + [Record(unsigned, h.hash(unsigned))];
      previous := h.hash(unsigned);
      before, rest, length := before + [fact], rest[1..], length + 1;
      index := index + 1;
    }
    assert rest == [] && appended + [] == appended;
    return Ok(appended);
  }

  class TenantAuditChain<A(!new)> {
    const hashing: Hashing<A>
    var recordsByTenant: map<Org, seq<Record<A>>>

    constructor (hashing: Hashing<A>)
      ensures this.hashing == hashing && recordsByTenant == map[]
    {
      this.hashing := hashing;
      recordsByTenant := map[];
    }

    /** Every tenant's records form a chain. */
    ghost predicate Valid()
      reads this
    {
      forall org | org in recordsByTenant :: IsChain(hashing, org, recordsByTenant[org])
    }

    /** The events that the chain of a tenant holds. */
    ghost function FactsOf(org: Org): seq<Fact<A>>
      reads this
    {
      Facts(Chain(recordsByTenant, org))
    }

    method Append(facts: seq<Fact<A>>) returns (r: Result<seq<Record<A>>, Refusal>)
      modifies this
      ensures match Appended(hashing, old(recordsByTenant), facts)
        case Ok(chains) =>
          recordsByTenant == chains && r.Ok?
          && Chain(chains, facts[0].org) == Chain(old(recordsByTenant), facts[0].org) + r.value
        case Err(e) => recordsByTenant == old(recordsByTenant) && r == Err(e)
      ensures old(Valid()) ==> Valid()
    {
      if |facts| < 1 || |facts| > MAX_BATCH {
        return Err(BATCH_REFUSED);
      }
      var org := facts[0].org;
      var current := Chain(recordsByTenant, org);
      var verification := VerifyAuditChain(hashing, org, current);
      if !verification.valid {
        return Err(CHAIN_TAMPERED);
      }
      r := SealBatch(hashing, org, current, facts);
      if r.Err? {
        return;
      }
      var replacement := current + r.value;
      AppendKeepsChain(hashing, org, current, facts);
      verification := VerifyAuditChain(hashing, org, replacement);
      // The program refuses here if the result does not verify: it always does.
      assert verification.valid;
      recordsByTenant := recordsByTenant[org := replacement];
    }

    method Verification(org: Org) returns (v: Verification)
      ensures v.valid <==> IsChain(hashing, org, Chain(recordsByTenant, org))
    {
      v := VerifyAuditChain(hashing, org, Chain(recordsByTenant, org));
    }
  }
}
