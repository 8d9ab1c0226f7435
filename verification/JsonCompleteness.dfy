/**
 Every well-formed text is read: as the value it means if that is admissible, and otherwise it is
 refused for a repeated key or an infinite number and for nothing else.
 */
module JsonCompleteness {
  import opened Basics
  import opened JsonText
  import opened JsonReading
  import opened JsonGrammar
  import opened JsonTokens

  /** A result of the reader, with the two refusals of well-formed texts taken together. */
  datatype Judgement<T> = Admitted(value: T, end: nat) | Refused | Malformed

  function Judged<T>(r: Read<T>): Judgement<T> {
    match r
    case Ok((v, end)) => Admitted(v, end)
    case Err(e) => if e == NUMBER_INVALID || e == DUPLICATE_MEMBER then Refused else Malformed
  }

  /** Whether the reader accepts a value: admissibility, in the order in which the reader finds it out. */
  predicate Accepted(v: Json) {
    match v
    case Number(x) => IsFinite(x)
    case Array(items) => AllAccepted(items)
    case Object(members) => NewAndAccepted([], members)
    case _ => true
  }

  predicate AllAccepted(items: seq<Json>) {
    items == [] || (Accepted(items[0]) && AllAccepted(items[1..]))
  }

  predicate NewAndAccepted(read: seq<Member>, more: seq<Member>)
    decreases more
  {
    more == [] || (!HasKey(read, more[0].key) && Accepted(more[0].value) && NewAndAccepted(read + [more[0]], more[1..]))
  }

  lemma {:induction false} AcceptedMeansAdmissible(v: Json)
    ensures Accepted(v) <==> Admissible(v)
    decreases v, 0
  {
    match v
    case Array(items) => AllAcceptedMeansAdmissible(items);
    case Object(members) => NewMeansDistinct([], members); assert [] + members == members;
    case _ =>
  }

  lemma {:induction false} AllAcceptedMeansAdmissible(items: seq<Json>)
    ensures AllAccepted(items) <==> forall i | 0 <= i < |items| :: Admissible(items[i])
    decreases items, 1
  {
    if items != [] {
      AcceptedMeansAdmissible(items[0]);
      AllAcceptedMeansAdmissible(items[1..]);
      assert forall i | 0 <= i < |items| - 1 :: items[1..][i] == items[i + 1];
      assert forall i | 0 < i < |items| :: items[i] == items[1..][i - 1];
    }
  }

  lemma {:induction false} NewMeansDistinct(read: seq<Member>, more: seq<Member>)
    requires DistinctKeys(read)
    ensures NewAndAccepted(read, more)
      <==> DistinctKeys(read + more) && forall i | 0 <= i < |more| :: Admissible(more[i].value)
    decreases more, 1
  {
    var all := read + more;
    if more == [] {
      assert all == read;
    } else {
      AcceptedMeansAdmissible(more[0].value);
      assert all == (read + [more[0]]) + more[1..];
      assert all[|read|] == more[0];
      assert forall k | 0 <= k < |read| :: all[k] == read[k];
      if !HasKey(read, more[0].key) {
        NewMeansDistinct(read + [more[0]], more[1..]);
        assert forall i | 0 < i < |more| :: more[i] == more[1..][i - 1];
        assert forall i | 0 <= i < |more| - 1 :: more[1..][i] == more[i + 1];
      }
    }
  }

  /** The value `v`, ending at `end`, if that is accepted, and a refusal if it is not. */
  function Deserved(v: Json, end: nat): Judgement<Json> {
    if Accepted(v) then Admitted(v, end) else Refused
  }

  /** A value may be followed by what stands at `i`. */
  predicate Stops(s: Text, i: nat) {
    i < |s| ==> s[i] == COMMA || s[i] == CLOSE_BRACKET || s[i] == CLOSE_BRACE
  }

  lemma SpaceStops(s: Text, i: nat, space: Text)
    requires AllSpace(space) && At(s, i, space) && Stops(s, i + |space|)
    ensures SpaceEnd(s, i) == i + |space| && Delimited(s, i)
  {
    SpaceSkipped(s, i, space);
    if space != [] { AtHead(s, i, space); }
  }

  lemma SpaceBefore(s: Text, i: nat, space: Text, u: Unit)
    requires AllSpace(space) && At(s, i, space) && Is(s, i + |space|, u) && !IsSpace(u)
    ensures SpaceEnd(s, i) == i + |space|
  {
    SpaceSkipped(s, i, space);
  }

  /** The first character of a value's text tells which kind of value it is. */
  function HeadOf(t: Tree): Unit {
    var text := TreeText(t);
    if text == [] then 0 else text[0]
  }

  lemma NumberHead(n: NumberToken)
    requires WellFormedNumber(n)
    ensures NumberText(n) != [] && (NumberText(n)[0] == MINUS || IsDigit(NumberText(n)[0]))
  {
    assert IsDigit(n.whole[0]);
  }

  lemma TreeHead(s: Text, i: nat, t: Tree)
    requires WellFormed(t) && At(s, i, TreeText(t))
    ensures TreeText(t) != [] && Is(s, i, HeadOf(t)) && !IsSpace(HeadOf(t)) && SpaceEnd(s, i) == i
  {
    if t.NumberTree? { NumberHead(t.number); }
    AtHead(s, i, TreeText(t));
  }

  // ---------- leaves ----------

  lemma LiteralIsRead(s: Text, i: nat, t: Tree)
    requires (t.NullTree? || t.TrueTree? || t.FalseTree?) && At(s, i, TreeText(t))
    ensures Judged(ValueFrom(s, i)) == Deserved(TreeValue(t), i + |TreeText(t)|)
  {
    AtHead(s, i, TreeText(t));
    if t.NullTree? {
      assert !At(s, i, TRUE_TEXT) by { if At(s, i, TRUE_TEXT) { AtHead(s, i, TRUE_TEXT); } }
      assert !At(s, i, FALSE_TEXT) by { if At(s, i, FALSE_TEXT) { AtHead(s, i, FALSE_TEXT); } }
    }
    if t.FalseTree? {
      assert !At(s, i, TRUE_TEXT) by { if At(s, i, TRUE_TEXT) { AtHead(s, i, TRUE_TEXT); } }
    }
  }

  lemma NoLiteral(s: Text, i: nat)
    requires i < |s| && (s[i] == MINUS || IsDigit(s[i]))
    ensures !At(s, i, TRUE_TEXT) && !At(s, i, FALSE_TEXT) && !At(s, i, NULL_TEXT)
  {
    if At(s, i, TRUE_TEXT) { AtHead(s, i, TRUE_TEXT); }
    if At(s, i, FALSE_TEXT) { AtHead(s, i, FALSE_TEXT); }
    if At(s, i, NULL_TEXT) { AtHead(s, i, NULL_TEXT); }
  }

  lemma NumberValueIsRead(s: Text, i: nat, n: NumberToken)
    requires WellFormedNumber(n) && At(s, i, NumberText(n)) && Delimited(s, i + |NumberText(n)|)
    ensures Judged(ValueFrom(s, i)) == Deserved(Number(NumeralValue(TokenNumeral(n))), i + |NumberText(n)|)
  {
    NumberHead(n);
    AtHead(s, i, NumberText(n));
    NoLiteral(s, i);
    NumberIsRead(s, i, n);
    assert ValueFrom(s, i) == NumberFrom(s, i);
  }

  lemma StringValueIsRead(s: Text, i: nat, pieces: seq<Piece>)
    requires WellFormedPieces(pieces) && At(s, i, QuotedText(pieces))
    ensures ValueFrom(s, i) == Ok((String(PiecesValue(pieces)), i + |QuotedText(pieces)|))
  {
    QuotedIsRead(s, i, pieces);
  }

  lemma EmptyIsRead(s: Text, i: nat, open: Unit, space: Text, close: Unit)
    requires AllSpace(space) && At(s, i, [open] + (space + [close])) && !IsSpace(close)
    ensures Is(s, i, open) && SpaceEnd(s, i + 1) == i + 1 + |space| && Is(s, i + 1 + |space|, close)
  {
    AtFirst(s, i, open, space + [close]);
    AtParts(s, i + 1, space, [close]);
    AtUnit(s, i + 1 + |space|, close);
    SpaceBefore(s, i + 1, space, close);
  }

  lemma EmptyArrayIsRead(s: Text, i: nat, space: Text, end: nat)
    requires AllSpace(space) && At(s, i, [OPEN_BRACKET] + (space + [CLOSE_BRACKET])) && end == i + 2 + |space|
    ensures ValueFrom(s, i) == Ok((Array([]), end))
  {
    EmptyIsRead(s, i, OPEN_BRACKET, space, CLOSE_BRACKET);
  }

  lemma EmptyObjectIsRead(s: Text, i: nat, space: Text, end: nat)
    requires AllSpace(space) && At(s, i, [OPEN_BRACE] + (space + [CLOSE_BRACE])) && end == i + 2 + |space|
    ensures ValueFrom(s, i) == Ok((Object([]), end))
  {
    EmptyIsRead(s, i, OPEN_BRACE, space, CLOSE_BRACE);
  }

  lemma EmptyTreeIsRead(s: Text, i: nat, t: Tree, end: nat)
    requires WellFormed(t) && At(s, i, TreeText(t)) && end == i + |TreeText(t)| && (t.EmptyArray? || t.EmptyObject?)
    ensures Judged(ValueFrom(s, i)) == Deserved(TreeValue(t), end)
  {
    if t.EmptyArray? {
      EmptyArrayIsRead(s, i, t.space, end);
    } else {
      EmptyObjectIsRead(s, i, t.space, end);
    }
  }

  predicate IsLeaf(t: Tree) { !t.EmptyArray? && !t.EmptyObject? && !t.ArrayTree? && !t.ObjectTree? }

  lemma LeafIsRead(s: Text, i: nat, t: Tree, end: nat)
    requires WellFormed(t) && At(s, i, TreeText(t)) && end == i + |TreeText(t)| && Delimited(s, end) && IsLeaf(t)
    ensures Judged(ValueFrom(s, i)) == Deserved(TreeValue(t), end)
  {
    match t
    case NumberTree(n) => NumberValueIsRead(s, i, n);
    case StringTree(pieces) => StringValueIsRead(s, i, pieces);
    case _ => LiteralIsRead(s, i, t);
  }

  // ---------- arrays ----------

  lemma {:induction false} TreeIsRead(s: Text, i: nat, t: Tree, end: nat)
    requires WellFormed(t) && At(s, i, TreeText(t)) && end == i + |TreeText(t)| && Delimited(s, end)
    ensures Judged(ValueFrom(s, i)) == Deserved(TreeValue(t), end)
    decreases t, 0
  {
    match t
    case ArrayTree(items) => ArrayIsRead(s, i, items, end);
    case ObjectTree(members) => ObjectIsRead(s, i, members, end);
    case EmptyArray(_) => EmptyTreeIsRead(s, i, t, end);
    case EmptyObject(_) => EmptyTreeIsRead(s, i, t, end);
    case _ => LeafIsRead(s, i, t, end);
  }

  lemma ArrayOpens(s: Text, i: nat, items: Items)
    requires WellFormedItems(items) && At(s, i, [OPEN_BRACKET] + ItemsText(items))
    ensures At(s, i + 1, ItemsText(items)) && ValueFrom(s, i) == ItemsFrom(s, i + 1, [])
  {
    AtFirst(s, i, OPEN_BRACKET, ItemsText(items));
    FirstItem(s, i + 1, items);
    ItemsAfterSpace(s, i + 1);
  }

  lemma {:induction false} ArrayIsRead(s: Text, i: nat, items: Items, end: nat)
    requires WellFormedItems(items) && At(s, i, [OPEN_BRACKET] + ItemsText(items)) && end == i + 1 + |ItemsText(items)|
    ensures Judged(ValueFrom(s, i)) == Deserved(Array(ItemsValue(items)), end)
    decreases items, 2
  {
    ArrayOpens(s, i, items);
    ItemsAreRead(s, i + 1, items, [], end);
    assert [] + ItemsValue(items) == ItemsValue(items);
  }

  lemma ObjectOpens(s: Text, i: nat, members: Members)
    requires WellFormedMembers(members) && At(s, i, [OPEN_BRACE] + MembersText(members))
    ensures At(s, i + 1, MembersText(members)) && ValueFrom(s, i) == MembersFrom(s, i + 1, [])
  {
    AtFirst(s, i, OPEN_BRACE, MembersText(members));
    FirstMember(s, i + 1, members);
    MembersAfterSpace(s, i + 1);
  }

  lemma {:induction false} ObjectIsRead(s: Text, i: nat, members: Members, end: nat)
    requires WellFormedMembers(members) && At(s, i, [OPEN_BRACE] + MembersText(members))
      && end == i + 1 + |MembersText(members)|
    ensures Judged(ValueFrom(s, i)) == Deserved(Object(MembersValue(members)), end)
    decreases members, 2
  {
    ObjectOpens(s, i, members);
    MembersAreRead(s, i + 1, members, [], end);
    assert [] + MembersValue(members) == MembersValue(members);
  }

  lemma SpaceEndTwice(s: Text, i: nat)
    requires i <= |s|
    ensures SpaceEnd(s, SpaceEnd(s, i)) == SpaceEnd(s, i)
  {
    SpaceEndStops(s, i);
  }

  lemma ItemsAfterSpace(s: Text, i: nat)
    requires i <= |s|
    ensures ItemsFrom(s, SpaceEnd(s, i), []) == ItemsFrom(s, i, [])
  {
    SpaceEndTwice(s, i);
    assert ValueFrom(s, SpaceEnd(s, i)) == ValueFrom(s, i);
  }

  lemma MembersAfterSpace(s: Text, i: nat)
    requires i <= |s|
    ensures MembersFrom(s, SpaceEnd(s, i), []) == MembersFrom(s, i, [])
  {
    SpaceEndTwice(s, i);
    assert MemberFrom(s, SpaceEnd(s, i), []) == MemberFrom(s, i, []);
  }

  lemma PaddedLayout(s: Text, i: nat, p: Padded) returns (j: nat, end: nat)
    requires WellFormedPadded(p) && At(s, i, PaddedText(p)) && Stops(s, i + |PaddedText(p)|)
    ensures j == SpaceEnd(s, i) && At(s, j, TreeText(p.tree)) && SpaceEnd(s, j) == j
    ensures end == j + |TreeText(p.tree)| && Delimited(s, end) && SpaceEnd(s, end) == i + |PaddedText(p)|
  {
    j := i + |p.before|;
    end := j + |TreeText(p.tree)|;
    AtParts(s, i, p.before, TreeText(p.tree) + p.after);
    AtParts(s, j, TreeText(p.tree), p.after);
    SpaceStops(s, end, p.after);
    TreeHead(s, j, p.tree);
    SpaceBefore(s, i, p.before, HeadOf(p.tree));
  }

  lemma ValueAfterSpace(s: Text, i: nat)
    requires i <= |s|
    ensures ValueFrom(s, SpaceEnd(s, i)) == ValueFrom(s, i)
  {
    SpaceEndTwice(s, i);
  }

  lemma {:induction false} PaddedIsRead(s: Text, i: nat, p: Padded) returns (end: nat)
    requires WellFormedPadded(p) && At(s, i, PaddedText(p)) && Stops(s, i + |PaddedText(p)|)
    ensures Judged(ValueFrom(s, i)) == Deserved(PaddedValue(p), end)
    ensures end <= |s| && SpaceEnd(s, end) == i + |PaddedText(p)|
    decreases p, 0
  {
    var j;
    j, end := PaddedLayout(s, i, p);
    TreeIsRead(s, j, p.tree, end);
    ValueAfterSpace(s, i);
  }

  /** The items of an array do not begin with its closing bracket. */
  lemma FirstItem(s: Text, i: nat, items: Items)
    requires WellFormedItems(items) && At(s, i, ItemsText(items))
    ensures !Is(s, SpaceEnd(s, i), CLOSE_BRACKET)
  {
    var p := items.item;
    var rest := if items.LastItem? then [CLOSE_BRACKET] else [COMMA] + ItemsText(items.rest);
    AtParts(s, i, PaddedText(p), rest);
    FirstOfPadded(s, i, p);
  }

  lemma FirstOfPadded(s: Text, i: nat, p: Padded)
    requires WellFormedPadded(p) && At(s, i, PaddedText(p))
    ensures SpaceEnd(s, i) == i + |p.before| && Is(s, SpaceEnd(s, i), HeadOf(p.tree)) && HeadOf(p.tree) != CLOSE_BRACKET
  {
    AtParts(s, i, p.before, TreeText(p.tree) + p.after);
    AtParts(s, i + |p.before|, TreeText(p.tree), p.after);
    TreeHead(s, i + |p.before|, p.tree);
    SpaceBefore(s, i, p.before, HeadOf(p.tree));
    if p.tree.NumberTree? { NumberHead(p.tree.number); }
  }

  lemma ItemsLayout(s: Text, i: nat, items: Items) returns (k: nat)
    requires At(s, i, ItemsText(items))
    ensures At(s, i, PaddedText(items.item)) && k == i + |PaddedText(items.item)| && Stops(s, k)
    ensures match items
      case LastItem(_) => Is(s, k, CLOSE_BRACKET) && k + 1 == i + |ItemsText(items)|
      case MoreItems(_, rest) =>
        Is(s, k, COMMA) && At(s, k + 1, ItemsText(rest)) && k + 1 + |ItemsText(rest)| == i + |ItemsText(items)|
  {
    var p := items.item;
    k := i + |PaddedText(p)|;
    match items
    case LastItem(_) =>
      AtParts(s, i, PaddedText(p), [CLOSE_BRACKET]);
      AtUnit(s, k, CLOSE_BRACKET);
    case MoreItems(_, rest) =>
      AtParts(s, i, PaddedText(p), [COMMA] + ItemsText(rest));
      AtFirst(s, k, COMMA, ItemsText(rest));
  }

  /** The array of the items already read and `more`, if those are accepted. */
  function ItemsDeserve(read: seq<Json>, more: seq<Json>, end: nat): Judgement<Json> {
    if AllAccepted(more) then Admitted(Array(read + more), end) else Refused
  }

  lemma LastItemStep(s: Text, i: nat, read: seq<Json>, v: Json, j: nat, end: nat)
    requires i <= |s| && j <= |s| && Judged(ValueFrom(s, i)) == Deserved(v, j)
    requires Is(s, SpaceEnd(s, j), CLOSE_BRACKET) && end == SpaceEnd(s, j) + 1
    ensures Judged(ItemsFrom(s, i, read)) == ItemsDeserve(read, [v], end)
  {
    assert AllAccepted([v]) == Accepted(v);
  }

  lemma NextItemStep(s: Text, i: nat, read: seq<Json>, v: Json, rest: seq<Json>, j: nat, end: nat)
    requires i <= |s| && j <= |s| && Judged(ValueFrom(s, i)) == Deserved(v, j)
    requires Is(s, SpaceEnd(s, j), COMMA)
    requires Judged(ItemsFrom(s, SpaceEnd(s, j) + 1, read + [v])) == ItemsDeserve(read + [v], rest, end)
    ensures Judged(ItemsFrom(s, i, read)) == ItemsDeserve(read, [v] + rest, end)
  {
    var more := [v] + rest;
    assert more[1..] == rest;
    assert (read + [v]) + rest == read + more;
  }

  lemma {:induction false} ItemIsRead(s: Text, i: nat, items: Items) returns (j: nat)
    requires WellFormedItems(items) && At(s, i, ItemsText(items))
    ensures j <= |s| && Judged(ValueFrom(s, i)) == Deserved(PaddedValue(items.item), j)
    ensures var k := SpaceEnd(s, j);
      match items
      case LastItem(_) => Is(s, k, CLOSE_BRACKET) && k + 1 == i + |ItemsText(items)|
      case MoreItems(_, rest) =>
        Is(s, k, COMMA) && At(s, k + 1, ItemsText(rest)) && k + 1 + |ItemsText(rest)| == i + |ItemsText(items)|
    decreases items, 0
  {
    var k := ItemsLayout(s, i, items);
    j := PaddedIsRead(s, i, items.item);
  }

  lemma LastOfItems(s: Text, i: nat, items: Items, read: seq<Json>, j: nat, end: nat)
    requires WellFormedItems(items) && items.LastItem? && i <= |s| && j <= |s|
    requires Judged(ValueFrom(s, i)) == Deserved(PaddedValue(items.item), j)
    requires Is(s, SpaceEnd(s, j), CLOSE_BRACKET) && end == SpaceEnd(s, j) + 1
    ensures Judged(ItemsFrom(s, i, read)) == ItemsDeserve(read, ItemsValue(items), end)
  {
    LastItemStep(s, i, read, PaddedValue(items.item), j, end);
  }

  lemma NextOfItems(s: Text, i: nat, items: Items, read: seq<Json>, more: seq<Json>, j: nat, k: nat, end: nat)
    requires WellFormedItems(items) && items.MoreItems? && i <= |s| && j <= |s|
    requires Judged(ValueFrom(s, i)) == Deserved(PaddedValue(items.item), j)
    requires Is(s, SpaceEnd(s, j), COMMA) && k == SpaceEnd(s, j) + 1 && more == read + [PaddedValue(items.item)]
    requires Judged(ItemsFrom(s, k, more)) == ItemsDeserve(more, ItemsValue(items.rest), end)
    ensures Judged(ItemsFrom(s, i, read)) == ItemsDeserve(read, ItemsValue(items), end)
  {
    NextItemStep(s, i, read, PaddedValue(items.item), ItemsValue(items.rest), j, end);
  }

  lemma {:induction false} ItemsAreRead(s: Text, i: nat, items: Items, read: seq<Json>, end: nat)
    requires WellFormedItems(items) && At(s, i, ItemsText(items)) && end == i + |ItemsText(items)|
    ensures Judged(ItemsFrom(s, i, read)) == ItemsDeserve(read, ItemsValue(items), end)
    decreases items, 1
  {
    var j := ItemIsRead(s, i, items);
    if items.LastItem? {
      LastOfItems(s, i, items, read, j, end);
    } else {
      var k, more := SpaceEnd(s, j) + 1, read + [PaddedValue(items.item)];
      ItemsAreRead(s, k, items.rest, more, end);
      NextOfItems(s, i, items, read, more, j, k, end);
    }
  }

  // ---------- objects ----------

  lemma FirstMember(s: Text, i: nat, members: Members)
    requires WellFormedMembers(members) && At(s, i, MembersText(members))
    ensures !Is(s, SpaceEnd(s, i), CLOSE_BRACE)
  {
    var m := members.member;
    var rest := if members.LastMember? then [CLOSE_BRACE] else [COMMA] + MembersText(members.rest);
    AtParts(s, i, MemberText(m), rest);
    var j, k := KeyStands(s, i, m);
  }

  lemma KeyStands(s: Text, i: nat, m: MemberTree) returns (j: nat, k: nat)
    requires WellFormedMember(m) && At(s, i, MemberText(m))
    ensures j == SpaceEnd(s, i) == i + |m.before| && Is(s, j, QUOTE)
    ensures StringFrom(s, j) == Ok((PiecesValue(m.key), k))
    ensures k <= |s| && Is(s, SpaceEnd(s, k), COLON) && At(s, SpaceEnd(s, k) + 1, PaddedText(m.value))
    ensures SpaceEnd(s, k) + 1 + |PaddedText(m.value)| == i + |MemberText(m)|
  {
    j := i + |m.before|;
    k := j + |QuotedText(m.key)|;
    var tail := [COLON] + PaddedText(m.value);
    AtParts(s, i, m.before, QuotedText(m.key) + (m.between + tail));
    AtParts(s, j, QuotedText(m.key), m.between + tail);
    AtParts(s, k, m.between, tail);
    AtFirst(s, k + |m.between|, COLON, PaddedText(m.value));
    QuotedIsRead(s, j, m.key);
    SpaceBefore(s, i, m.before, QUOTE);
    SpaceBefore(s, k, m.between, COLON);
  }

  /** The member `m`, ending at `end`, if its value is accepted and its key is new. */
  function MemberDeserves(read: seq<Member>, m: Member, end: nat): Judgement<Member> {
    if !HasKey(read, m.key) && Accepted(m.value) then Admitted(m, end) else Refused
  }

  lemma {:induction false} MemberIsRead(s: Text, i: nat, m: MemberTree, read: seq<Member>) returns (end: nat)
    requires WellFormedMember(m) && At(s, i, MemberText(m)) && Stops(s, i + |MemberText(m)|)
    ensures Judged(MemberFrom(s, i, read)) == MemberDeserves(read, MemberValue(m), end)
    ensures end <= |s| && SpaceEnd(s, end) == i + |MemberText(m)|
    decreases m, 0
  {
    var j, k := KeyStands(s, i, m);
    var v := SpaceEnd(s, k) + 1;
    end := PaddedIsRead(s, v, m.value);
    MemberFromParts(s, i, m, read, j, k, v, end);
  }

  lemma MemberFromParts(s: Text, i: nat, m: MemberTree, read: seq<Member>, j: nat, k: nat, v: nat, end: nat)
    requires WellFormedMember(m) && i <= |s| && j == SpaceEnd(s, i) && Is(s, j, QUOTE)
    requires StringFrom(s, j) == Ok((PiecesValue(m.key), k)) && k <= |s| && Is(s, SpaceEnd(s, k), COLON)
    requires v == SpaceEnd(s, k) + 1 && Judged(ValueFrom(s, v)) == Deserved(PaddedValue(m.value), end)
    ensures Judged(MemberFrom(s, i, read)) == MemberDeserves(read, MemberValue(m), end)
  {
    MemberStep(s, i, read, j, k, MemberValue(m), end);
  }

  lemma MemberStep(s: Text, i: nat, read: seq<Member>, j: nat, k: nat, m: Member, end: nat)
    requires i <= |s| && j == SpaceEnd(s, i) && Is(s, j, QUOTE) && StringFrom(s, j) == Ok((m.key, k))
    requires k <= |s| && Is(s, SpaceEnd(s, k), COLON)
      && Judged(ValueFrom(s, SpaceEnd(s, k) + 1)) == Deserved(m.value, end)
    ensures Judged(MemberFrom(s, i, read)) == MemberDeserves(read, m, end)
  {
  }

  lemma MembersLayout(s: Text, i: nat, members: Members) returns (k: nat)
    requires At(s, i, MembersText(members))
    ensures At(s, i, MemberText(members.member)) && k == i + |MemberText(members.member)| && Stops(s, k)
    ensures match members
      case LastMember(_) => Is(s, k, CLOSE_BRACE) && k + 1 == i + |MembersText(members)|
      case MoreMembers(_, rest) =>
        Is(s, k, COMMA) && At(s, k + 1, MembersText(rest)) && k + 1 + |MembersText(rest)| == i + |MembersText(members)|
  {
    var m := members.member;
    k := i + |MemberText(m)|;
    match members
    case LastMember(_) =>
      AtParts(s, i, MemberText(m), [CLOSE_BRACE]);
      AtUnit(s, k, CLOSE_BRACE);
    case MoreMembers(_, rest) =>
      AtParts(s, i, MemberText(m), [COMMA] + MembersText(rest));
      AtFirst(s, k, COMMA, MembersText(rest));
  }

  /** The object of the members already read and `more`, if those are new and accepted. */
  function MembersDeserve(read: seq<Member>, more: seq<Member>, end: nat): Judgement<Json> {
    if NewAndAccepted(read, more) then Admitted(Object(read + more), end) else Refused
  }

  lemma LastMemberStep(s: Text, i: nat, read: seq<Member>, m: Member, j: nat, end: nat)
    requires i <= |s| && j <= |s| && Judged(MemberFrom(s, i, read)) == MemberDeserves(read, m, j)
    requires Is(s, SpaceEnd(s, j), CLOSE_BRACE) && end == SpaceEnd(s, j) + 1
    ensures Judged(MembersFrom(s, i, read)) == MembersDeserve(read, [m], end)
  {
    assert NewAndAccepted(read, [m]) == (!HasKey(read, m.key) && Accepted(m.value));
  }

  lemma DeserveOneMore(read: seq<Member>, m: Member, rest: seq<Member>, end: nat)
    ensures MembersDeserve(read, [m] + rest, end)
      == if !HasKey(read, m.key) && Accepted(m.value) then MembersDeserve(read + [m], rest, end) else Refused
  {
    var both := [m] + rest;
    assert both[1..] == rest;
    assert (read + [m]) + rest == read + both;
  }

  /** One member and a comma put off the judgement to the members behind them. */
  lemma CommaGoesOn(s: Text, i: nat, read: seq<Member>, m: Member, j: nat, judgement: Judgement<Json>)
    requires i <= |s| && j <= |s| && Judged(MemberFrom(s, i, read)) == MemberDeserves(read, m, j)
    requires Is(s, SpaceEnd(s, j), COMMA)
    requires Judged(MembersFrom(s, SpaceEnd(s, j) + 1, read + [m])) == judgement
    ensures Judged(MembersFrom(s, i, read))
      == if !HasKey(read, m.key) && Accepted(m.value) then judgement else Refused
  {
  }

  lemma NextMemberStep(
    s: Text, i: nat, read: seq<Member>, m: Member, more: seq<Member>, rest: seq<Member>, j: nat, k: nat, end: nat)
    requires i <= |s| && j <= |s| && Judged(MemberFrom(s, i, read)) == MemberDeserves(read, m, j)
    requires Is(s, SpaceEnd(s, j), COMMA) && k == SpaceEnd(s, j) + 1 && more == read + [m]
    requires Judged(MembersFrom(s, k, more)) == MembersDeserve(more, rest, end)
    ensures Judged(MembersFrom(s, i, read)) == MembersDeserve(read, [m] + rest, end)
  {
    DeserveOneMore(read, m, rest, end);
    CommaGoesOn(s, i, read, m, j, MembersDeserve(more, rest, end));
  }

  lemma {:induction false} FirstMemberIsRead(s: Text, i: nat, members: Members, read: seq<Member>) returns (j: nat)
    requires WellFormedMembers(members) && At(s, i, MembersText(members))
    ensures j <= |s| && Judged(MemberFrom(s, i, read)) == MemberDeserves(read, MemberValue(members.member), j)
    ensures var k := SpaceEnd(s, j);
      match members
      case LastMember(_) => Is(s, k, CLOSE_BRACE) && k + 1 == i + |MembersText(members)|
      case MoreMembers(_, rest) =>
        Is(s, k, COMMA) && At(s, k + 1, MembersText(rest)) && k + 1 + |MembersText(rest)| == i + |MembersText(members)|
    decreases members, 0
  {
    var k := MembersLayout(s, i, members);
    j := MemberIsRead(s, i, members.member, read);
  }

  lemma LastOfMembers(s: Text, i: nat, members: Members, read: seq<Member>, j: nat, end: nat)
    requires WellFormedMembers(members) && members.LastMember? && i <= |s| && j <= |s|
    requires Judged(MemberFrom(s, i, read)) == MemberDeserves(read, MemberValue(members.member), j)
    requires Is(s, SpaceEnd(s, j), CLOSE_BRACE) && end == SpaceEnd(s, j) + 1
    ensures Judged(MembersFrom(s, i, read)) == MembersDeserve(read, MembersValue(members), end)
  {
    LastMemberStep(s, i, read, MemberValue(members.member), j, end);
  }

  lemma NextOfMembers(
    s: Text, i: nat, members: Members, read: seq<Member>, more: seq<Member>, j: nat, k: nat, end: nat)
    requires WellFormedMembers(members) && members.MoreMembers? && i <= |s| && j <= |s|
    requires Judged(MemberFrom(s, i, read)) == MemberDeserves(read, MemberValue(members.member), j)
    requires Is(s, SpaceEnd(s, j), COMMA) && k == SpaceEnd(s, j) + 1 && more == read + [MemberValue(members.member)]
    requires Judged(MembersFrom(s, k, more)) == MembersDeserve(more, MembersValue(members.rest), end)
    ensures Judged(MembersFrom(s, i, read)) == MembersDeserve(read, MembersValue(members), end)
  {
    NextMemberStep(s, i, read, MemberValue(members.member), more, MembersValue(members.rest), j, k, end);
  }

  lemma {:induction false} MembersAreRead(s: Text, i: nat, members: Members, read: seq<Member>, end: nat)
    requires WellFormedMembers(members) && At(s, i, MembersText(members)) && end == i + |MembersText(members)|
    ensures Judged(MembersFrom(s, i, read)) == MembersDeserve(read, MembersValue(members), end)
    decreases members, 1
  {
    var j := FirstMemberIsRead(s, i, members, read);
    if members.LastMember? {
      LastOfMembers(s, i, members, read, j, end);
    } else {
      var k, more := SpaceEnd(s, j) + 1, read + [MemberValue(members.member)];
      MembersAreRead(s, k, members.rest, more, end);
      NextOfMembers(s, i, members, read, more, j, k, end);
    }
  }

  // ---------- documents ----------

  /** The reader accepts every text of the grammar, with the value the text means, or says what is not admissible in
      it. */
  lemma WellFormedTextsAreRead(p: Padded)
    requires WellFormedPadded(p)
    ensures if Admissible(PaddedValue(p)) then Document(PaddedText(p)) == Ok(PaddedValue(p))
      else Document(PaddedText(p)) in {Err(NUMBER_INVALID), Err(DUPLICATE_MEMBER)}
  {
    var end := PaddedIsRead(PaddedText(p), 0, p);
    AcceptedMeansAdmissible(PaddedValue(p));
  }
}
