/** The printer: the text of a value, and that the reader takes it back to the same value. */
module JsonPrinter {
  import opened Basics
  import opened JsonText
  import opened JsonReading
  import opened JsonGrammar
  import opened JsonCompleteness

  const MAX_SAFE_INTEGER := 0x1F_FFFF_FFFF_FFFF

  /** The numbers in scope: the integers a double holds exactly. The others are printed by the shortest-double rule. */
  predicate IsSafeInteger(x: real) {
    x == x.Floor as real && -MAX_SAFE_INTEGER <= x.Floor <= MAX_SAFE_INTEGER
  }

  predicate Printable(v: Json) {
    match v
    case Number(x) => IsSafeInteger(x)
    case Array(items) => forall i | 0 <= i < |items| :: Printable(items[i])
    case Object(members) => DistinctKeys(members) && forall i | 0 <= i < |members| :: Printable(members[i].value)
    case _ => true
  }

  // ---------- JSON.stringify ----------

  function HexDigit(n: nat): Unit
    requires n < 16
  {
    if n < 10 then 48 + n else 87 + n
  }

  function FourHexText(u: Unit): Text {
    var (a, b, c) := (u / 16 / 16 / 16, u / 16 / 16 % 16, u / 16 % 16);
    [HexDigit(a), HexDigit(b), HexDigit(c), HexDigit(u % 16)]
  }

  function UnicodeEscape(u: Unit): Text { [BACKSLASH, 117] + FourHexText(u) }

  /** A control character, a quote or a backslash escaped, an unpaired surrogate spelled out, the rest as it is. */
  function CharacterText(u: Unit): Text {
    if u == 8 then [BACKSLASH, 98]
    else if u == 9 then [BACKSLASH, 116]
    else if u == 10 then [BACKSLASH, 110]
    else if u == 12 then [BACKSLASH, 102]
    else if u == 13 then [BACKSLASH, 114]
    else if u == QUOTE || u == BACKSLASH then [BACKSLASH, u]
    else if u < 32 || IsHigh(u) || IsLow(u) then UnicodeEscape(u)
    else [u]
  }

  function CharactersText(t: Text): Text {
    if t == [] then []
    else if IsHigh(t[0]) && |t| > 1 && IsLow(t[1]) then [t[0]] + ([t[1]] + CharactersText(t[2..]))
    else CharacterText(t[0]) + CharactersText(t[1..])
  }

  function StringText(t: Text): Text { [QUOTE] + (CharactersText(t) + [QUOTE]) }

  function DecimalText(n: nat): Text {
    if n < 10 then [48 + n] else DecimalText(n / 10) + [48 + n % 10]
  }

  function IntegerText(n: int): Text {
    if n < 0 then [MINUS] + DecimalText(-n) else DecimalText(n)
  }

  function Stringify(v: Json): Text
    requires Printable(v)
  {
    match v
    case Null => NULL_TEXT
    case Bool(truth) => if truth then TRUE_TEXT else FALSE_TEXT
    case Number(x) => IntegerText(x.Floor)
    case String(t) => StringText(t)
    case Array(items) => if items == [] then [OPEN_BRACKET, CLOSE_BRACKET] else [OPEN_BRACKET] + StringifyItems(items)
    case Object(members) =>
      if members == [] then [OPEN_BRACE, CLOSE_BRACE] else [OPEN_BRACE] + StringifyMembers(members)
  }

  function StringifyItems(items: seq<Json>): Text
    requires items != [] && forall i | 0 <= i < |items| :: Printable(items[i])
  {
    Stringify(items[0]) + if |items| == 1 then [CLOSE_BRACKET] else [COMMA] + StringifyItems(items[1..])
  }

  function StringifyMembers(members: seq<Member>): Text
    requires members != [] && forall i | 0 <= i < |members| :: Printable(members[i].value)
  {
    (StringText(members[0].key) + ([COLON] + Stringify(members[0].value)))
    + if |members| == 1 then [CLOSE_BRACE] else [COMMA] + StringifyMembers(members[1..])
  }

  // ---------- the tree the printer spells ----------

  function PieceOf(u: Unit): Piece {
    if u == 8 then Short(98)
    else if u == 9 then Short(116)
    else if u == 10 then Short(110)
    else if u == 12 then Short(102)
    else if u == 13 then Short(114)
    else if u == QUOTE || u == BACKSLASH then Short(u)
    else if u < 32 || IsHigh(u) || IsLow(u) then Long(FourHexText(u))
    else Plain(u)
  }

  lemma HexDigitIsHex(n: nat)
    requires n < 16
    ensures IsHex(HexDigit(n)) && HexValue(HexDigit(n)) == n
  {
  }

  lemma FourHexRoundTrip(u: Unit)
    ensures FourHex(FourHexText(u)) && FourHexValue(FourHexText(u)) == u
  {
    HexDigitIsHex(u / 16 / 16 / 16);
    HexDigitIsHex(u / 16 / 16 % 16);
    HexDigitIsHex(u / 16 % 16);
    HexDigitIsHex(u % 16);
  }

  lemma PieceIsCharacter(u: Unit)
    ensures WellFormedPiece(PieceOf(u)) && PieceText(PieceOf(u)) == CharacterText(u) && PieceValue(PieceOf(u)) == u
  {
    FourHexRoundTrip(u);
  }

  lemma AddPiece(p: Piece, pieces: seq<Piece>)
    requires WellFormedPiece(p) && WellFormedPieces(pieces)
    ensures WellFormedPieces([p] + pieces) && PiecesText([p] + pieces) == PieceText(p) + PiecesText(pieces)
    ensures PiecesValue([p] + pieces) == [PieceValue(p)] + PiecesValue(pieces)
  {
    assert ([p] + pieces)[1..] == pieces;
  }

  lemma {:induction false} CharactersArePieces(t: Text) returns (pieces: seq<Piece>)
    ensures WellFormedPieces(pieces) && PiecesText(pieces) == CharactersText(t) && PiecesValue(pieces) == t
    decreases |t|
  {
    if t == [] {
      pieces := [];
    } else if IsHigh(t[0]) && |t| > 1 && IsLow(t[1]) {
      var rest := CharactersArePieces(t[2..]);
      AddPiece(Plain(t[1]), rest);
      AddPiece(Plain(t[0]), [Plain(t[1])] + rest);
      pieces := [Plain(t[0])] + ([Plain(t[1])] + rest);
      assert t == [t[0]] + ([t[1]] + t[2..]);
    } else {
      var rest := CharactersArePieces(t[1..]);
      PieceIsCharacter(t[0]);
      AddPiece(PieceOf(t[0]), rest);
      pieces := [PieceOf(t[0])] + rest;
      assert t == [t[0]] + t[1..];
    }
  }

  lemma {:induction false} DecimalIsDigits(n: nat)
    ensures DecimalText(n) != [] && AllDigits(DecimalText(n)) && DigitsValue(DecimalText(n)) == n
    ensures DecimalText(n)[0] == 48 ==> n == 0
  {
    if n >= 10 {
      DecimalIsDigits(n / 10);
      var t := DecimalText(n);
      assert t[..|t| - 1] == DecimalText(n / 10);
    } else {
      assert DigitsValue([]) == 0;
    }
  }

  lemma {:induction false} PowerAdds(base: nat, m: nat, n: nat)
    ensures Power(base, m + n) == Power(base, m) * Power(base, n)
  {
    if m > 0 {
      PowerAdds(base, m - 1, n);
      assert base * (Power(base, m - 1) * Power(base, n)) == (base * Power(base, m - 1)) * Power(base, n);
    }
  }

  lemma {:induction false} PowerOfTwoGrows(n: nat)
    ensures Power(2, n) >= n + 1
  {
    if n > 0 { PowerOfTwoGrows(n - 1); }
  }

  lemma PowerTo54()
    ensures Power(2, 54) == 0x40_0000_0000_0000
  {
    assert Power(2, 9) == 512;
    PowerAdds(2, 9, 9);
    PowerAdds(2, 18, 9);
    PowerAdds(2, 27, 27);
  }

  lemma SafeIntegersAreFinite(x: real)
    requires IsSafeInteger(x)
    ensures IsFinite(x)
  {
    PowerTo54();
    PowerOfTwoGrows(970);
    var p := Power(2, 970);
    PowerAdds(2, 970, 54);
    assert Power(2, 1024) - p >= p * 0x3F_FFFF_FFFF_FFFF >= 0x3F_FFFF_FFFF_FFFF;
  }

  function IntegerToken(n: int): NumberToken {
    NumberToken(n < 0, DecimalText(Magnitude(n)), [], NoExponent)
  }

  function Magnitude(n: int): nat { if n < 0 then -n else n }

  lemma IntegerTokenText(n: int)
    ensures NumberText(IntegerToken(n)) == IntegerText(n)
  {
    var digits := DecimalText(Magnitude(n));
    assert digits + ([] + []) == digits && [] + digits == digits;
  }

  lemma IntegerTokenIsWellFormed(n: int)
    ensures WellFormedNumber(IntegerToken(n)) && AllDigits(DecimalText(Magnitude(n)))
  {
    DecimalIsDigits(Magnitude(n));
    assert Magnitude(n) == 0 ==> DecimalText(Magnitude(n)) == [48];
  }

  lemma IntegerTokenValue(n: int)
    requires WellFormedNumber(IntegerToken(n))
    ensures NumeralValue(TokenNumeral(IntegerToken(n))) == n as real
  {
    var digits := DecimalText(Magnitude(n));
    DecimalIsDigits(Magnitude(n));
    assert digits + [] == digits;
    ScaledByNothing(n);
  }

  lemma ScaledByNothing(n: int)
    ensures Scaled(n, 0) == n as real
  {
  }

  /** The digits of a safe integer are a number token with that value. */
  lemma IntegerIsToken(x: real)
    requires IsSafeInteger(x)
    ensures var n := IntegerToken(x.Floor);
      WellFormedNumber(n) && NumberText(n) == IntegerText(x.Floor) && NumeralValue(TokenNumeral(n)) == x
  {
    IntegerTokenIsWellFormed(x.Floor);
    IntegerTokenText(x.Floor);
    IntegerTokenValue(x.Floor);
  }

  // ---------- printing and reading ----------

  /** `t` is a well-formed tree for `v` that spells `text`. */
  ghost predicate Prints(t: Tree, v: Json, text: Text) {
    WellFormed(t) && TreeValue(t) == v && TreeText(t) == text
  }

  ghost predicate PrintsItems(t: Items, vs: seq<Json>, text: Text) {
    WellFormedItems(t) && ItemsValue(t) == vs && ItemsText(t) == text
  }

  ghost predicate PrintsMembers(t: Members, vs: seq<Member>, text: Text) {
    WellFormedMembers(t) && MembersValue(t) == vs && MembersText(t) == text
  }

  lemma Bare(t: Tree)
    requires WellFormed(t)
    ensures WellFormedPadded(Padded([], t, [])) && PaddedText(Padded([], t, [])) == TreeText(t)
    ensures PaddedValue(Padded([], t, [])) == TreeValue(t)
  {
  }

  lemma {:induction false} ValueIsPrinted(v: Json) returns (t: Tree)
    requires Printable(v)
    ensures Prints(t, v, Stringify(v))
    decreases v, 0
  {
    match v
    case Null => t := NullTree;
    case Bool(truth) => t := if truth then TrueTree else FalseTree;
    case Number(x) =>
      IntegerIsToken(x);
      t := NumberTree(IntegerToken(x.Floor));
    case String(s) =>
      var pieces := CharactersArePieces(s);
      t := StringTree(pieces);
    case Array(items) =>
      if items == [] {
        t := EmptyArray([]);
      } else {
        var all := ItemsArePrinted(items);
        t := ArrayTree(all);
      }
    case Object(members) =>
      if members == [] {
        t := EmptyObject([]);
      } else {
        var all := MembersArePrinted(members);
        t := ObjectTree(all);
      }
  }

  lemma {:induction false} ItemsArePrinted(items: seq<Json>) returns (t: Items)
    requires items != [] && forall i | 0 <= i < |items| :: Printable(items[i])
    ensures PrintsItems(t, items, StringifyItems(items))
    decreases items, 1
  {
    var first := ValueIsPrinted(items[0]);
    Bare(first);
    if |items| == 1 {
      t := LastItem(Padded([], first, []));
    } else {
      var rest := ItemsArePrinted(items[1..]);
      t := MoreItems(Padded([], first, []), rest);
      assert items == [items[0]] + items[1..];
    }
  }

  lemma {:induction false} MemberIsPrinted(m: Member) returns (t: MemberTree)
    requires Printable(m.value)
    ensures WellFormedMember(t) && MemberValue(t) == m
    ensures MemberText(t) == StringText(m.key) + ([COLON] + Stringify(m.value))
    decreases m, 1
  {
    var key := CharactersArePieces(m.key);
    var value := ValueIsPrinted(m.value);
    Bare(value);
    t := MemberTree([], key, [], Padded([], value, []));
  }

  lemma {:induction false} MembersArePrinted(members: seq<Member>) returns (t: Members)
    requires members != [] && forall i | 0 <= i < |members| :: Printable(members[i].value)
    ensures PrintsMembers(t, members, StringifyMembers(members))
    decreases members, 2
  {
    var first := MemberIsPrinted(members[0]);
    if |members| == 1 {
      t := LastMember(first);
    } else {
      var rest := MembersArePrinted(members[1..]);
      t := MoreMembers(first, rest);
      assert members == [members[0]] + members[1..];
    }
  }

  lemma {:induction false} PrintableIsAdmissible(v: Json)
    requires Printable(v)
    ensures Admissible(v)
  {
    match v
    case Number(x) => SafeIntegersAreFinite(x);
    case Array(items) =>
      forall i | 0 <= i < |items| ensures Admissible(items[i]) { PrintableIsAdmissible(items[i]); }
    case Object(members) =>
      forall i | 0 <= i < |members| ensures Admissible(members[i].value) { PrintableIsAdmissible(members[i].value); }
    case _ =>
  }

  /** The reader undoes the printer, for every value of integers, strings, arrays and objects with distinct keys. */
  lemma PrintedIsRead(v: Json, maxBytes: nat)
    requires Printable(v)
    ensures Parse(Stringify(v), maxBytes) == if Utf8Length(Stringify(v)) <= maxBytes then Ok(v) else Err(TOO_LARGE)
  {
    var t := ValueIsPrinted(v);
    Bare(t);
    PrintableIsAdmissible(v);
    WellFormedTextsAreRead(Padded([], t, []));
  }
}
