/**
 The canonical form: members sorted by key at every level, then printed. The program sorts with the
 host's locale comparison; here the order of keys is any strict total order.
 */
module JsonCanonical {
  import opened Basics
  import opened JsonText
  import opened JsonReading
  import opened JsonGrammar
  import opened JsonPrinter

  type Order = (Text, Text) -> bool

  ghost predicate IsStrictTotalOrder(less: Order) {
    && (forall a :: !less(a, a))
    && (forall a, b, c :: less(a, b) && less(b, c) ==> less(a, c))
    && (forall a, b :: a == b || less(a, b) || less(b, a))
  }

  /** Puts `m` before the first member whose key is not smaller. */
  function Insert(m: Member, members: seq<Member>, less: Order): (r: seq<Member>)
    ensures multiset(r) == multiset([m]) + multiset(members)
  {
    if members == [] || !less(members[0].key, m.key) then [m] + members
    else
      assert members == [members[0]] + members[1..];
      [members[0]] + Insert(m, members[1..], less)
  }

  function Sorted(members: seq<Member>, less: Order): (r: seq<Member>)
    ensures multiset(r) == multiset(members)
  {
    if members == [] then []
    else
      assert members == [members[0]] + members[1..];
      Insert(members[0], Sorted(members[1..], less), less)
  }

  function Normalized(v: Json, less: Order): Json {
    match v
    case Array(items) => Array(NormalizedItems(items, less))
    case Object(members) => Object(Sorted(NormalizedMembers(members, less), less))
    case _ => v
  }

  function NormalizedItems(items: seq<Json>, less: Order): (r: seq<Json>)
    ensures |r| == |items| && forall i | 0 <= i < |r| :: r[i] == Normalized(items[i], less)
  {
    if items == [] then [] else [Normalized(items[0], less)] + NormalizedItems(items[1..], less)
  }

  function NormalizedMembers(members: seq<Member>, less: Order): (r: seq<Member>)
    ensures |r| == |members| && forall i | 0 <= i < |r| :: r[i] == NormalizedMember(members[i], less)
  {
    if members == [] then [] else [NormalizedMember(members[0], less)] + NormalizedMembers(members[1..], less)
  }

  function NormalizedMember(m: Member, less: Order): Member { Member(m.key, Normalized(m.value, less)) }

  // ---------- equality up to the order of members ----------

  /** The same value, except that the members of objects may stand in another order. */
  predicate SameUpToOrder(v: Json, w: Json)
    decreases v, 0
  {
    match v
    case Array(items) =>
      w.Array? && |w.items| == |items| && forall i | 0 <= i < |items| :: SameUpToOrder(items[i], w.items[i])
    case Object(members) =>
      w.Object? && |w.members| == |members| && forall i | 0 <= i < |members| :: SameAsSome(members[i], w.members)
    case _ => v == w
  }

  predicate SameAsSome(m: Member, others: seq<Member>)
    decreases m, 1
  {
    exists j | 0 <= j < |others| :: m.key == others[j].key && SameUpToOrder(m.value, others[j].value)
  }

  ghost predicate KeysAscend(members: seq<Member>, less: Order) {
    forall i, j | 0 <= i < j < |members| :: less(members[i].key, members[j].key)
  }

  /** Members ascend at every level. */
  ghost predicate IsNormal(v: Json, less: Order) {
    match v
    case Array(items) => forall i | 0 <= i < |items| :: IsNormal(items[i], less)
    case Object(members) =>
      KeysAscend(members, less) && forall i | 0 <= i < |members| :: IsNormal(members[i].value, less)
    case _ => true
  }

  predicate AllPrintable(members: seq<Member>) { forall i | 0 <= i < |members| :: Printable(members[i].value) }

  ghost predicate AllNormal(members: seq<Member>, less: Order) {
    forall i | 0 <= i < |members| :: IsNormal(members[i].value, less)
  }

  // ---------- sorting ----------

  lemma SamePermutation(a: seq<Member>, b: seq<Member>)
    requires multiset(a) == multiset(b)
    ensures |a| == |b| && forall m :: m in a <==> m in b
  {
    assert forall m :: m in a <==> m in multiset(a);
    assert forall m :: m in b <==> m in multiset(b);
    assert |multiset(a)| == |a| && |multiset(b)| == |b|;
  }

  lemma {:induction false} InsertKeepsAscending(m: Member, members: seq<Member>, less: Order)
    requires IsStrictTotalOrder(less) && KeysAscend(members, less) && !HasKey(members, m.key)
    ensures KeysAscend(Insert(m, members, less), less)
  {
    if members != [] && less(members[0].key, m.key) {
      var rest := Insert(m, members[1..], less);
      InsertKeepsAscending(m, members[1..], less);
      assert multiset(rest) == multiset([m] + members[1..]);
      SamePermutation(rest, [m] + members[1..]);
      forall k | 0 <= k < |rest| ensures less(members[0].key, rest[k].key) {
        assert rest[k] in rest;
        if rest[k] != m {
          var j :| 0 <= j < |members| - 1 && members[1..][j] == rest[k];
          assert less(members[0].key, members[j + 1].key);
        }
      }
    } else {
      assert forall k | 0 <= k < |members| :: members[k].key != m.key;
      assert members != [] ==> less(m.key, members[0].key);
    }
  }

  lemma {:induction false} SortedAscends(members: seq<Member>, less: Order)
    requires IsStrictTotalOrder(less) && DistinctKeys(members)
    ensures KeysAscend(Sorted(members, less), less)
  {
    if members != [] {
      var rest := Sorted(members[1..], less);
      SortedAscends(members[1..], less);
      SamePermutation(rest, members[1..]);
      forall k | 0 <= k < |rest| ensures rest[k].key != members[0].key {
        assert rest[k] in rest;
        var j :| 0 <= j < |members| - 1 && members[1..][j] == rest[k];
        assert members[0].key != members[j + 1].key;
      }
      InsertKeepsAscending(members[0], rest, less);
    }
  }

  lemma AscendingKeysAreDistinct(members: seq<Member>, less: Order)
    requires IsStrictTotalOrder(less) && KeysAscend(members, less)
    ensures DistinctKeys(members)
  {
  }

  lemma WithinNothing(a: seq<Member>)
    requires Within(a, [])
    ensures a == []
  {
    assert forall m :: m in multiset(a) ==> m in a;
    assert multiset(a) == multiset{};
  }

  /** An ascending sequence is determined by what is in it. */
  lemma {:induction false} AscendingIsUnique(a: seq<Member>, b: seq<Member>, less: Order)
    requires IsStrictTotalOrder(less) && KeysAscend(a, less) && KeysAscend(b, less) && Within(a, b) && Within(b, a)
    ensures a == b
  {
    if a == [] {
      WithinNothing(b);
    } else if b == [] {
      WithinNothing(a);
    } else {
      FirstIsLeast(a, b, less);
      FirstIsLeast(b, a, less);
      RestWithin(a, b, less);
      RestWithin(b, a, less);
      AscendingIsUnique(a[1..], b[1..], less);
      assert a == [a[0]] + a[1..] && b == [b[0]] + b[1..];
    }
  }

  lemma FirstIsLeast(a: seq<Member>, b: seq<Member>, less: Order)
    requires a != [] && b != [] && KeysAscend(b, less) && Within(a, b)
    ensures a[0] == b[0] || less(b[0].key, a[0].key)
  {
    assert a[0] in b;
  }

  lemma RestWithin(a: seq<Member>, b: seq<Member>, less: Order)
    requires IsStrictTotalOrder(less) && a != [] && b != [] && a[0] == b[0] && KeysAscend(a, less) && Within(a, b)
    ensures Within(a[1..], b[1..])
  {
    forall m | m in a[1..] ensures m in b[1..] {
      var k :| 0 <= k < |a| - 1 && a[1..][k] == m;
      assert less(a[0].key, a[k + 1].key);
      assert a[k + 1] in a;
      assert m in b;
    }
  }

  // ---------- normal forms ----------

  /** Normalising keeps the value up to the order of members, and puts every object's members in order. */
  lemma {:induction false} NormalizedIsSame(v: Json, less: Order)
    requires IsStrictTotalOrder(less) && Printable(v)
    ensures SameUpToOrder(v, Normalized(v, less)) && IsNormal(Normalized(v, less), less)
      && Printable(Normalized(v, less))
  {
    match v
    case Array(items) =>
      forall i | 0 <= i < |items|
        ensures SameUpToOrder(items[i], Normalized(items[i], less))
        ensures IsNormal(Normalized(items[i], less), less) && Printable(Normalized(items[i], less))
      {
        NormalizedIsSame(items[i], less);
      }
    case Object(members) =>
      forall i | 0 <= i < |members|
        ensures SameUpToOrder(members[i].value, Normalized(members[i].value, less))
        ensures IsNormal(Normalized(members[i].value, less), less) && Printable(Normalized(members[i].value, less))
      {
        NormalizedIsSame(members[i].value, less);
      }
      SortedIsSame(members, less);
      SortedIsNormal(NormalizedMembers(members, less), less);
    case _ =>
  }

  lemma SortedIsSame(members: seq<Member>, less: Order)
    requires forall i | 0 <= i < |members| :: SameUpToOrder(members[i].value, Normalized(members[i].value, less))
    ensures SameUpToOrder(Object(members), Normalized(Object(members), less))
  {
    var normal := NormalizedMembers(members, less);
    var sorted := Sorted(normal, less);
    SamePermutation(sorted, normal);
    forall i | 0 <= i < |members| ensures SameAsSome(members[i], sorted) {
      assert normal[i] in normal;
      var j :| 0 <= j < |sorted| && sorted[j] == normal[i];
    }
  }

  lemma SortedIsNormal(members: seq<Member>, less: Order)
    requires IsStrictTotalOrder(less) && DistinctKeys(members) && AllNormal(members, less) && AllPrintable(members)
    ensures IsNormal(Object(Sorted(members, less)), less) && Printable(Object(Sorted(members, less)))
  {
    var sorted := Sorted(members, less);
    SamePermutation(sorted, members);
    SortedAscends(members, less);
    AscendingKeysAreDistinct(sorted, less);
    forall j | 0 <= j < |sorted| ensures IsNormal(sorted[j].value, less) && Printable(sorted[j].value) {
      assert sorted[j] in sorted;
      var i :| 0 <= i < |members| && members[i] == sorted[j];
    }
  }

  /** The members `m` and `n` have one key, and one normal form. */
  predicate Alike(m: Member, n: Member, less: Order) { NormalizedMember(m, less) == NormalizedMember(n, less) }

  predicate AlikeSome(m: Member, others: seq<Member>, less: Order) {
    exists j | 0 <= j < |others| :: Alike(m, others[j], less)
  }

  /** Two values have one normal form exactly when they differ in nothing but the order of members. */
  lemma {:induction false} SameNormalForm(v: Json, w: Json, less: Order)
    requires IsStrictTotalOrder(less) && Printable(v) && Printable(w)
    ensures Normalized(v, less) == Normalized(w, less) <==> SameUpToOrder(v, w)
    decreases v, 0
  {
    match v
    case Array(items) =>
      if w.Array? && |w.items| == |items| {
        forall i | 0 <= i < |items|
          ensures Normalized(items[i], less) == Normalized(w.items[i], less) <==> SameUpToOrder(items[i], w.items[i])
        {
          SameNormalForm(items[i], w.items[i], less);
        }
        SameArrays(items, w.items, less);
      }
    case Object(members) =>
      if w.Object? {
        forall i | 0 <= i < |members|
          ensures AlikeSome(members[i], w.members, less) <==> SameAsSome(members[i], w.members)
        {
          SameNormalMember(members[i], w.members, less);
        }
        SameObjects(members, w.members, less);
        AlikeExactly(members, w.members, less);
      }
    case _ =>
  }

  lemma {:induction false} SameNormalMember(m: Member, others: seq<Member>, less: Order)
    requires IsStrictTotalOrder(less) && Printable(m.value) && AllPrintable(others)
    ensures AlikeSome(m, others, less) <==> SameAsSome(m, others)
    decreases m, 1
  {
    forall j | 0 <= j < |others|
      ensures Normalized(m.value, less) == Normalized(others[j].value, less)
        <==> SameUpToOrder(m.value, others[j].value)
    {
      SameNormalForm(m.value, others[j].value, less);
    }
    assert forall j | 0 <= j < |others| ::
      Alike(m, others[j], less) <==> m.key == others[j].key && SameUpToOrder(m.value, others[j].value);
  }

  lemma SameArrays(items: seq<Json>, others: seq<Json>, less: Order)
    requires |items| == |others|
    requires forall i | 0 <= i < |items| ::
      Normalized(items[i], less) == Normalized(others[i], less) <==> SameUpToOrder(items[i], others[i])
    ensures Normalized(Array(items), less) == Normalized(Array(others), less)
      <==> SameUpToOrder(Array(items), Array(others))
  {
    var a, b := NormalizedItems(items, less), NormalizedItems(others, less);
    if a == b {
      forall i | 0 <= i < |items| ensures SameUpToOrder(items[i], others[i]) {
        assert a[i] == b[i];
      }
    }
    if SameUpToOrder(Array(items), Array(others)) {
      forall i | 0 <= i < |items| ensures a[i] == b[i] {
        assert SameUpToOrder(items[i], others[i]);
      }
      assert a == b;
    }
  }

  lemma SameObjects(members: seq<Member>, others: seq<Member>, less: Order)
    requires forall i | 0 <= i < |members| :: AlikeSome(members[i], others, less) <==> SameAsSome(members[i], others)
    ensures AllAlike(members, others, less) <==> SameUpToOrder(Object(members), Object(others))
  {
  }

  lemma AlikeExactly(members: seq<Member>, others: seq<Member>, less: Order)
    requires IsStrictTotalOrder(less) && DistinctKeys(members) && DistinctKeys(others)
    ensures Sorted(NormalizedMembers(members, less), less) == Sorted(NormalizedMembers(others, less), less)
      <==> AllAlike(members, others, less)
  {
    if AllAlike(members, others, less) {
      AllAlikeSortAlike(members, others, less);
    }
    if Sorted(NormalizedMembers(members, less), less) == Sorted(NormalizedMembers(others, less), less) {
      SortedAlikeAllAlike(members, others, less);
    }
  }

  predicate AllAlike(members: seq<Member>, others: seq<Member>, less: Order) {
    |others| == |members| && forall i | 0 <= i < |members| :: AlikeSome(members[i], others, less)
  }

  lemma AllAlikeSortAlike(members: seq<Member>, others: seq<Member>, less: Order)
    requires IsStrictTotalOrder(less) && DistinctKeys(members) && DistinctKeys(others)
      && AllAlike(members, others, less)
    ensures Sorted(NormalizedMembers(members, less), less) == Sorted(NormalizedMembers(others, less), less)
  {
    var a, b := NormalizedMembers(members, less), NormalizedMembers(others, less);
    forall m | m in a ensures m in b {
      var i :| 0 <= i < |a| && a[i] == m;
      assert AlikeSome(members[i], others, less);
      var j :| 0 <= j < |others| && Alike(members[i], others[j], less);
      assert b[j] == m;
    }
    assert NoRepeats(a);
    DistinctWithin(a, b);
    SortedIsDetermined(a, b, less);
  }

  lemma SortedIsDetermined(a: seq<Member>, b: seq<Member>, less: Order)
    requires IsStrictTotalOrder(less) && DistinctKeys(a) && DistinctKeys(b) && Within(a, b) && Within(b, a)
    ensures Sorted(a, less) == Sorted(b, less)
  {
    SortedAscends(a, less);
    SortedAscends(b, less);
    SamePermutation(Sorted(a, less), a);
    SamePermutation(Sorted(b, less), b);
    AscendingIsUnique(Sorted(a, less), Sorted(b, less), less);
  }

  lemma SortedAlikeAllAlike(members: seq<Member>, others: seq<Member>, less: Order)
    requires Sorted(NormalizedMembers(members, less), less) == Sorted(NormalizedMembers(others, less), less)
    ensures AllAlike(members, others, less)
  {
    SortedAlikePermute(NormalizedMembers(members, less), NormalizedMembers(others, less), less);
    forall i | 0 <= i < |members| ensures AlikeSome(members[i], others, less) {
      WithinIsAlike(members, others, i, less);
    }
  }

  lemma SortedAlikePermute(a: seq<Member>, b: seq<Member>, less: Order)
    requires Sorted(a, less) == Sorted(b, less)
    ensures |a| == |b| && Within(a, b)
  {
    SamePermutation(a, b);
  }

  lemma WithinIsAlike(members: seq<Member>, others: seq<Member>, i: nat, less: Order)
    requires i < |members| && Within(NormalizedMembers(members, less), NormalizedMembers(others, less))
    ensures AlikeSome(members[i], others, less)
  {
    var a, b := NormalizedMembers(members, less), NormalizedMembers(others, less);
    assert a[i] in a;
    var j :| 0 <= j < |b| && b[j] == a[i];
    assert Alike(members[i], others[j], less);
  }

  // ---------- the main results ----------

  function Canonical(v: Json, less: Order): Text
    requires Printable(Normalized(v, less))
  {
    Stringify(Normalized(v, less))
  }

  /** Reading a canonical text gives back the value, up to the order of members. */
  lemma CanonicalRoundTrip(v: Json, less: Order, maxBytes: nat)
    requires IsStrictTotalOrder(less) && Printable(v)
    ensures Printable(Normalized(v, less))
    ensures var r := Parse(Canonical(v, less), maxBytes);
      if Utf8Length(Canonical(v, less)) <= maxBytes then r.Ok? && SameUpToOrder(v, r.value) else r == Err(TOO_LARGE)
  {
    NormalizedIsSame(v, less);
    PrintedIsRead(Normalized(v, less), maxBytes);
  }

  /** Normalising is idempotent, so printing what was read from a canonical text gives that text again. */
  lemma CanonicalIsAFixedPoint(v: Json, less: Order)
    requires IsStrictTotalOrder(less) && Printable(v)
    ensures Printable(Normalized(v, less)) && Document(Canonical(v, less)).Ok?
    ensures var w := Document(Canonical(v, less)).value;
      Printable(Normalized(w, less)) && Canonical(w, less) == Canonical(v, less)
  {
    NormalizedIsSame(v, less);
    PrintedIsRead(Normalized(v, less), Utf8Length(Canonical(v, less)));
    SameNormalForm(v, Normalized(v, less), less);
  }

  /** Two values have one canonical text exactly when they differ in nothing but the order of members. */
  lemma CanonicalIsInjectiveUpToOrder(v: Json, w: Json, less: Order)
    requires IsStrictTotalOrder(less) && Printable(v) && Printable(w)
    ensures Printable(Normalized(v, less)) && Printable(Normalized(w, less))
    ensures Canonical(v, less) == Canonical(w, less) <==> SameUpToOrder(v, w)
  {
    NormalizedIsSame(v, less);
    NormalizedIsSame(w, less);
    var bytes := Utf8Length(Canonical(v, less));
    PrintedIsRead(Normalized(v, less), bytes);
    if Canonical(v, less) == Canonical(w, less) {
      PrintedIsRead(Normalized(w, less), bytes);
    }
    SameNormalForm(v, w, less);
  }
}
