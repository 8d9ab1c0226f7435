/** Whatever the reader accepts is the text of some well-formed tree with the value it returns. */
module JsonSoundness {
  import opened Basics
  import opened JsonText
  import opened JsonReading
  import opened JsonGrammar
  import opened JsonTokens
  import opened JsonCompleteness

  lemma SpaceRead(s: Text, i: nat) returns (space: Text)
    requires i <= |s|
    ensures AllSpace(space) && At(s, i, space) && SpaceEnd(s, i) == i + |space|
  {
    space := s[i..SpaceEnd(s, i)];
    SpaceEndStops(s, i);
    AtSlice(s, i, space);
  }

  /** `t` stands in `s` from `i` to `end` and means `v`. */
  ghost predicate Spells(s: Text, i: nat, t: Tree, v: Json, end: nat) {
    WellFormed(t) && At(s, i, TreeText(t)) && end == i + |TreeText(t)| && TreeValue(t) == v
  }

  ghost predicate SpellsPadded(s: Text, i: nat, p: Padded, v: Json, end: nat) {
    WellFormedPadded(p) && At(s, i, PaddedText(p)) && end == i + |PaddedText(p)| && PaddedValue(p) == v
  }

  ghost predicate SpellsItems(s: Text, i: nat, items: Items, vs: seq<Json>, end: nat) {
    WellFormedItems(items) && At(s, i, ItemsText(items)) && end == i + |ItemsText(items)| && ItemsValue(items) == vs
  }

  ghost predicate SpellsMember(s: Text, i: nat, m: MemberTree, v: Member, end: nat) {
    WellFormedMember(m) && At(s, i, MemberText(m)) && end == i + |MemberText(m)| && MemberValue(m) == v
  }

  ghost predicate SpellsMembers(s: Text, i: nat, members: Members, vs: seq<Member>, end: nat) {
    WellFormedMembers(members) && At(s, i, MembersText(members)) && end == i + |MembersText(members)|
    && MembersValue(members) == vs
  }

  // ---------- joining the parts ----------

  lemma Pad(s: Text, i: nat, before: Text, t: Tree, after: Text, v: Json, end: nat) returns (p: Padded)
    requires AllSpace(before) && At(s, i, before) && Spells(s, i + |before|, t, v, end)
    requires AllSpace(after) && At(s, end, after)
    ensures SpellsPadded(s, i, p, v, end + |after|) && p == Padded(before, t, after)
  {
    p := Padded(before, t, after);
    AtParts(s, i + |before|, TreeText(t), after);
    AtParts(s, i, before, TreeText(t) + after);
  }

  lemma PadAfter(s: Text, i: nat, p: Padded, v: Json, end: nat) returns (q: Padded, next: nat)
    requires SpellsPadded(s, i, p, v, end) && p.after == []
    ensures end <= |s| && next == SpaceEnd(s, end) && SpellsPadded(s, i, q, v, next)
  {
    var after := SpaceRead(s, end);
    q := p.(after := after);
    next := end + |after|;
    AtParts(s, i, PaddedText(p), after);
    assert PaddedText(p) + after == PaddedText(q) by {
      assert TreeText(p.tree) + [] == TreeText(p.tree);
      assert (p.before + TreeText(p.tree)) + after == p.before + (TreeText(p.tree) + after);
    }
  }

  lemma JoinLastItem(s: Text, i: nat, p: Padded, v: Json, k: nat) returns (items: Items)
    requires SpellsPadded(s, i, p, v, k) && Is(s, k, CLOSE_BRACKET)
    ensures SpellsItems(s, i, items, [v], k + 1)
  {
    items := LastItem(p);
    AtUnit(s, k, CLOSE_BRACKET);
    AtParts(s, i, PaddedText(p), [CLOSE_BRACKET]);
  }

  lemma JoinItems(
    s: Text, i: nat, p: Padded, v: Json, k: nat, rest: Items, vs: seq<Json>, end: nat) returns (items: Items)
    requires SpellsPadded(s, i, p, v, k) && Is(s, k, COMMA) && SpellsItems(s, k + 1, rest, vs, end)
    ensures SpellsItems(s, i, items, [v] + vs, end)
  {
    items := MoreItems(p, rest);
    AtFirst(s, k, COMMA, ItemsText(rest));
    AtParts(s, i, PaddedText(p), [COMMA] + ItemsText(rest));
  }

  lemma JoinLastMember(s: Text, i: nat, m: MemberTree, v: Member, k: nat) returns (members: Members)
    requires SpellsMember(s, i, m, v, k) && Is(s, k, CLOSE_BRACE)
    ensures SpellsMembers(s, i, members, [v], k + 1)
  {
    members := LastMember(m);
    AtUnit(s, k, CLOSE_BRACE);
    AtParts(s, i, MemberText(m), [CLOSE_BRACE]);
  }

  lemma JoinMembers(
    s: Text, i: nat, m: MemberTree, v: Member, k: nat, rest: Members, vs: seq<Member>, end: nat)
    returns (members: Members)
    requires SpellsMember(s, i, m, v, k) && Is(s, k, COMMA) && SpellsMembers(s, k + 1, rest, vs, end)
    ensures SpellsMembers(s, i, members, [v] + vs, end)
  {
    members := MoreMembers(m, rest);
    AtFirst(s, k, COMMA, MembersText(rest));
    AtParts(s, i, MemberText(m), [COMMA] + MembersText(rest));
  }

  lemma JoinMember(
    s: Text, i: nat, before: Text, key: seq<Piece>, between: Text, p: Padded, v: Json, end: nat) returns (m: MemberTree)
    requires AllSpace(before) && At(s, i, before) && WellFormedPieces(key) && At(s, i + |before|, QuotedText(key))
    requires var k := i + |before| + |QuotedText(key)|;
      AllSpace(between) && At(s, k, between) && Is(s, k + |between|, COLON)
        && SpellsPadded(s, k + |between| + 1, p, v, end)
    ensures SpellsMember(s, i, m, Member(PiecesValue(key), v), end)
  {
    m := MemberTree(before, key, between, p);
    var k := i + |before| + |QuotedText(key)|;
    var tail := [COLON] + PaddedText(p);
    AtFirst(s, k + |between|, COLON, PaddedText(p));
    AtParts(s, k, between, tail);
    AtParts(s, i + |before|, QuotedText(key), between + tail);
    AtParts(s, i, before, QuotedText(key) + (between + tail));
  }

  // ---------- taking a text apart ----------

  lemma LiteralIsTree(s: Text, i: nat) returns (t: Tree)
    requires i <= |s| && SpaceEnd(s, i) == i
    requires At(s, i, TRUE_TEXT) || At(s, i, FALSE_TEXT) || At(s, i, NULL_TEXT)
    ensures ValueFrom(s, i).Ok? && Spells(s, i, t, ValueFrom(s, i).value.0, ValueFrom(s, i).value.1)
  {
    t := if At(s, i, TRUE_TEXT) then TrueTree else if At(s, i, FALSE_TEXT) then FalseTree else NullTree;
    AtHead(s, i, TreeText(t));
  }

  lemma EmptyIsTree(s: Text, i: nat, open: Unit, close: Unit) returns (space: Text)
    requires Is(s, i, open) && Is(s, SpaceEnd(s, i + 1), close)
    ensures AllSpace(space) && At(s, i, [open] + (space + [close])) && SpaceEnd(s, i + 1) == i + 1 + |space|
  {
    space := SpaceRead(s, i + 1);
    AtUnit(s, i + 1 + |space|, close);
    AtParts(s, i + 1, space, [close]);
    AtFirst(s, i, open, space + [close]);
  }

  lemma StringIsTree(s: Text, i: nat) returns (t: Tree)
    requires Is(s, i, QUOTE) && StringValueFrom(s, i).Ok?
    ensures Spells(s, i, t, StringValueFrom(s, i).value.0, StringValueFrom(s, i).value.1)
  {
    var pieces := ReadStringIsQuoted(s, i);
    t := StringTree(pieces);
  }

  lemma NumberTreeStands(n: NumberToken)
    requires WellFormedNumber(n)
    ensures WellFormed(NumberTree(n)) && TreeText(NumberTree(n)) == NumberText(n)
    ensures TreeValue(NumberTree(n)) == Number(NumeralValue(TokenNumeral(n)))
  {
  }

  lemma NumberIsRead(s: Text, i: nat)
    requires i <= |s| && NumberFrom(s, i).Ok?
    ensures NumberAt(s, i).Some?
    ensures NumberFrom(s, i).value == (Number(NumeralValue(NumberAt(s, i).value.0)), NumberAt(s, i).value.1)
  {
  }

  lemma NumberIsTree(s: Text, i: nat) returns (t: Tree)
    requires i <= |s| && NumberFrom(s, i).Ok?
    ensures Spells(s, i, t, NumberFrom(s, i).value.0, NumberFrom(s, i).value.1)
  {
    NumberIsRead(s, i);
    var n := ReadNumberIsToken(s, i);
    t := NumberTree(n);
    NumberTreeStands(n);
  }

  /** No array or object begins at `i`. */
  predicate IsScalar(s: Text, i: nat) { !Is(s, i, OPEN_BRACE) && !Is(s, i, OPEN_BRACKET) }

  lemma ScalarIsTree(s: Text, i: nat) returns (t: Tree)
    requires i <= |s| && SpaceEnd(s, i) == i && ValueFrom(s, i).Ok? && IsScalar(s, i)
    ensures Spells(s, i, t, ValueFrom(s, i).value.0, ValueFrom(s, i).value.1)
  {
    if Is(s, i, QUOTE) {
      t := StringIsTree(s, i);
    } else if At(s, i, TRUE_TEXT) || At(s, i, FALSE_TEXT) || At(s, i, NULL_TEXT) {
      t := LiteralIsTree(s, i);
    } else {
      assert ValueFrom(s, i) == NumberFrom(s, i);
      t := NumberIsTree(s, i);
    }
  }

  lemma {:induction false} ValueIsTree(s: Text, i: nat) returns (t: Tree)
    requires i <= |s| && SpaceEnd(s, i) == i && ValueFrom(s, i).Ok?
    ensures Spells(s, i, t, ValueFrom(s, i).value.0, ValueFrom(s, i).value.1)
    decreases |s| - i, 1
  {
    if Is(s, i, OPEN_BRACE) {
      t := ObjectIsTree(s, i);
    } else if Is(s, i, OPEN_BRACKET) {
      t := ArrayIsTree(s, i);
    } else {
      t := ScalarIsTree(s, i);
    }
  }

  lemma {:induction false} PaddedIsTree(s: Text, i: nat) returns (p: Padded)
    requires i <= |s| && ValueFrom(s, i).Ok?
    ensures SpellsPadded(s, i, p, ValueFrom(s, i).value.0, ValueFrom(s, i).value.1) && p.after == []
    decreases |s| - i, 2
  {
    var before := SpaceRead(s, i);
    ValueAfterSpace(s, i);
    SpaceEndTwice(s, i);
    var t := ValueIsTree(s, i + |before|);
    var (v, end) := ValueFrom(s, i).value;
    AtSlice(s, end, []);
    p := Pad(s, i, before, t, [], v, end);
  }

  lemma {:induction false} ArrayIsTree(s: Text, i: nat) returns (t: Tree)
    requires Is(s, i, OPEN_BRACKET) && ArrayFrom(s, i).Ok?
    ensures Spells(s, i, t, ArrayFrom(s, i).value.0, ArrayFrom(s, i).value.1)
    decreases |s| - i, 0
  {
    if Is(s, SpaceEnd(s, i + 1), CLOSE_BRACKET) {
      var space := EmptyIsTree(s, i, OPEN_BRACKET, CLOSE_BRACKET);
      t := EmptyArray(space);
    } else {
      ItemsAfterSpace(s, i + 1);
      var items, vs, end := ItemsAreTrees(s, i + 1, []);
      assert [] + vs == vs;
      AtFirst(s, i, OPEN_BRACKET, ItemsText(items));
      t := ArrayTree(items);
    }
  }

  lemma {:induction false} ItemsAreTrees(
    s: Text, i: nat, read: seq<Json>) returns (items: Items, vs: seq<Json>, end: nat)
    requires i <= |s| && ItemsFrom(s, i, read).Ok?
    ensures SpellsItems(s, i, items, vs, end) && ItemsFrom(s, i, read) == Ok((Array(read + vs), end))
    decreases |s| - i, 3
  {
    var (v, j) := ValueFrom(s, i).value;
    var q := PaddedIsTree(s, i);
    var p, k := PadAfter(s, i, q, v, j);
    if Is(s, k, CLOSE_BRACKET) {
      items := JoinLastItem(s, i, p, v, k);
      vs, end := [v], k + 1;
    } else {
      var rest, more;
      rest, more, end := ItemsAreTrees(s, k + 1, read + [v]);
      items := JoinItems(s, i, p, v, k, rest, more, end);
      vs := [v] + more;
      assert (read + [v]) + more == read + vs;
    }
  }

  lemma {:induction false} ObjectIsTree(s: Text, i: nat) returns (t: Tree)
    requires Is(s, i, OPEN_BRACE) && ObjectFrom(s, i).Ok?
    ensures Spells(s, i, t, ObjectFrom(s, i).value.0, ObjectFrom(s, i).value.1)
    decreases |s| - i, 0
  {
    if Is(s, SpaceEnd(s, i + 1), CLOSE_BRACE) {
      var space := EmptyIsTree(s, i, OPEN_BRACE, CLOSE_BRACE);
      t := EmptyObject(space);
    } else {
      MembersAfterSpace(s, i + 1);
      var members, vs, end := MembersAreTrees(s, i + 1, []);
      assert [] + vs == vs;
      AtFirst(s, i, OPEN_BRACE, MembersText(members));
      t := ObjectTree(members);
    }
  }

  lemma {:induction false} MemberIsTree(s: Text, i: nat, read: seq<Member>) returns (m: MemberTree, k: nat)
    requires i <= |s| && MemberFrom(s, i, read).Ok?
    ensures var (v, j) := MemberFrom(s, i, read).value; k == SpaceEnd(s, j) && SpellsMember(s, i, m, v, k)
    decreases |s| - i, 3
  {
    var before := SpaceRead(s, i);
    var j := i + |before|;
    var key := ReadStringIsQuoted(s, j);
    var n := j + |QuotedText(key)|;
    var between := SpaceRead(s, n);
    var q := PaddedIsTree(s, n + |between| + 1);
    var (v, end) := ValueFrom(s, n + |between| + 1).value;
    var p;
    p, k := PadAfter(s, n + |between| + 1, q, v, end);
    m := JoinMember(s, i, before, key, between, p, v, k);
  }

  lemma MembersGoOn(s: Text, i: nat, read: seq<Member>, v: Member, j: nat, k: nat)
    requires i <= |s| && j <= |s| && MemberFrom(s, i, read) == Ok((v, j)) && k == SpaceEnd(s, j)
      && MembersFrom(s, i, read).Ok?
    ensures if Is(s, k, CLOSE_BRACE) then MembersFrom(s, i, read) == Ok((Object(read + [v]), k + 1))
      else Is(s, k, COMMA) && MembersFrom(s, i, read) == MembersFrom(s, k + 1, read + [v])
  {
  }

  lemma MembersRegroup(read: seq<Member>, v: Member, more: seq<Member>)
    ensures (read + [v]) + more == read + ([v] + more)
  {
  }

  lemma {:induction false} MembersAreTrees(
    s: Text, i: nat, read: seq<Member>) returns (members: Members, vs: seq<Member>, end: nat)
    requires i <= |s| && MembersFrom(s, i, read).Ok?
    ensures SpellsMembers(s, i, members, vs, end) && MembersFrom(s, i, read) == Ok((Object(read + vs), end))
    decreases |s| - i, 4
  {
    var (v, j) := MemberFrom(s, i, read).value;
    var m, k := MemberIsTree(s, i, read);
    MembersGoOn(s, i, read, v, j, k);
    if Is(s, k, CLOSE_BRACE) {
      members := JoinLastMember(s, i, m, v, k);
      vs, end := [v], k + 1;
    } else {
      var rest, more;
      rest, more, end := MembersAreTrees(s, k + 1, read + [v]);
      members := JoinMembers(s, i, m, v, k, rest, more, end);
      MembersRegroup(read, v, more);
      vs := [v] + more;
    }
  }

  // ---------- the main results ----------

  ghost predicate Means(s: Text, v: Json) {
    exists p: Padded :: WellFormedPadded(p) && PaddedText(p) == s && PaddedValue(p) == v
  }

  /** An accepted text is one of the grammar, with the value it was read as. */
  lemma AcceptedTextsAreWellFormed(s: Text)
    requires Document(s).Ok?
    ensures Means(s, Document(s).value) && Admissible(Document(s).value)
  {
    var (v, end) := ValueFrom(s, 0).value;
    var q := PaddedIsTree(s, 0);
    var p, k := PadAfter(s, 0, q, v, end);
    AtSlice(s, 0, PaddedText(p));
    assert s[0..|s|] == s;
    WellFormedTextsAreRead(p);
  }

  /**
   The reader returns exactly the admissible meanings of a text: `v` if and only if the text is
   within the limit, is one that the grammar derives with the value `v`, and `v` has no repeated
   key and no infinite number.
   */
  lemma ParseIsTheGrammar(s: Text, maxBytes: nat, v: Json)
    ensures Parse(s, maxBytes) == Ok(v) <==> Utf8Length(s) <= maxBytes && Means(s, v) && Admissible(v)
  {
    if Document(s) == Ok(v) {
      AcceptedTextsAreWellFormed(s);
    }
    if Means(s, v) && Admissible(v) {
      var p :| WellFormedPadded(p) && PaddedText(p) == s && PaddedValue(p) == v;
      WellFormedTextsAreRead(p);
    }
  }

  /** No text has two meanings, unless it has none that is admissible. */
  lemma MeaningIsUnique(s: Text, v: Json, w: Json)
    requires Means(s, v) && Means(s, w) && Admissible(v)
    ensures v == w
  {
    ParseIsTheGrammar(s, Utf8Length(s), v);
    var p :| WellFormedPadded(p) && PaddedText(p) == s && PaddedValue(p) == w;
    WellFormedTextsAreRead(p);
  }
}
