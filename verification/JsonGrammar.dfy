/**
 An independent account of JSON texts: concrete syntax trees by sections 2 to 7 of RFC 8259, the
 text each spells and the value each means. The two rules the RFC leaves to the reader are part of
 well-formedness here: no object repeats a decoded key, and every number is finite.
 */
module JsonGrammar {
  import opened Basics
  import opened JsonText
  import opened JsonReading

  datatype Piece = Plain(u: Unit) | Short(u: Unit) | Long(digits: Text)

  datatype ExponentToken = NoExponent | ExponentToken(marker: Unit, sign: Option<Unit>, digits: Text)

  datatype NumberToken = NumberToken(negative: bool, whole: Text, fraction: Text, exponent: ExponentToken)

  datatype Tree =
    | NullTree
    | TrueTree
    | FalseTree
    | NumberTree(number: NumberToken)
    | StringTree(pieces: seq<Piece>)
    | EmptyArray(space: Text)
    | ArrayTree(items: Items)
    | EmptyObject(space: Text)
    | ObjectTree(members: Members)

  datatype Padded = Padded(before: Text, tree: Tree, after: Text)

  datatype Items = LastItem(item: Padded) | MoreItems(item: Padded, rest: Items)

  datatype Members = LastMember(member: MemberTree) | MoreMembers(member: MemberTree, rest: Members)

  datatype MemberTree = MemberTree(before: Text, key: seq<Piece>, between: Text, value: Padded)

  // ---------- the text a tree spells ----------

  function PieceText(p: Piece): Text {
    match p
    case Plain(u) => [u]
    case Short(u) => [BACKSLASH, u]
    case Long(digits) => [BACKSLASH, 117] + digits
  }

  function PiecesText(pieces: seq<Piece>): Text {
    if pieces == [] then [] else PieceText(pieces[0]) + PiecesText(pieces[1..])
  }

  function QuotedText(pieces: seq<Piece>): Text { [QUOTE] + (PiecesText(pieces) + [QUOTE]) }

  function SignText(negative: bool): Text { if negative then [MINUS] else [] }

  function FractionText(fraction: Text): Text { if fraction == [] then [] else [DOT] + fraction }

  function ExponentText(e: ExponentToken): Text {
    match e
    case NoExponent => []
    case ExponentToken(marker, sign, digits) => [marker] + ((if sign.Some? then [sign.value] else []) + digits)
  }

  function NumberText(n: NumberToken): Text {
    SignText(n.negative) + (n.whole + (FractionText(n.fraction) + ExponentText(n.exponent)))
  }

  function TreeText(t: Tree): Text {
    match t
    case NullTree => NULL_TEXT
    case TrueTree => TRUE_TEXT
    case FalseTree => FALSE_TEXT
    case NumberTree(n) => NumberText(n)
    case StringTree(pieces) => QuotedText(pieces)
    case EmptyArray(space) => [OPEN_BRACKET] + (space + [CLOSE_BRACKET])
    case ArrayTree(items) => [OPEN_BRACKET] + ItemsText(items)
    case EmptyObject(space) => [OPEN_BRACE] + (space + [CLOSE_BRACE])
    case ObjectTree(members) => [OPEN_BRACE] + MembersText(members)
  }

  function PaddedText(p: Padded): Text { p.before + (TreeText(p.tree) + p.after) }

  /** The items with their commas and the closing bracket. */
  function ItemsText(items: Items): Text {
    match items
    case LastItem(p) => PaddedText(p) + [CLOSE_BRACKET]
    case MoreItems(p, rest) => PaddedText(p) + ([COMMA] + ItemsText(rest))
  }

  function MemberText(m: MemberTree): Text {
    m.before + (QuotedText(m.key) + (m.between + ([COLON] + PaddedText(m.value))))
  }

  /** The members with their commas and the closing brace. */
  function MembersText(members: Members): Text {
    match members
    case LastMember(m) => MemberText(m) + [CLOSE_BRACE]
    case MoreMembers(m, rest) => MemberText(m) + ([COMMA] + MembersText(rest))
  }

  // ---------- the value a tree means ----------

  predicate WellFormedPiece(p: Piece) {
    match p
    case Plain(u) => u >= 32 && u != QUOTE && u != BACKSLASH
    case Short(u) => IsEscape(u)
    case Long(digits) => FourHex(digits)
  }

  predicate WellFormedPieces(pieces: seq<Piece>) { forall p | p in pieces :: WellFormedPiece(p) }

  function PieceValue(p: Piece): Unit
    requires WellFormedPiece(p)
  {
    match p
    case Plain(u) => u
    case Short(u) => Unescaped(u)
    case Long(digits) => FourHexValue(digits)
  }

  function PiecesValue(pieces: seq<Piece>): Text
    requires WellFormedPieces(pieces)
  {
    if pieces == [] then [] else [PieceValue(pieces[0])] + PiecesValue(pieces[1..])
  }

  predicate WellFormedExponent(e: ExponentToken) {
    match e
    case NoExponent => true
    case ExponentToken(marker, sign, digits) =>
      (marker == 101 || marker == 69) && (sign.Some? ==> sign.value == PLUS || sign.value == MINUS)
      && digits != [] && AllDigits(digits)
  }

  function ExponentTokenValue(e: ExponentToken): int
    requires WellFormedExponent(e)
  {
    match e
    case NoExponent => 0
    case ExponentToken(_, sign, digits) => ExponentValue(sign == Some(MINUS), digits)
  }

  /** No leading zero, and digits on both sides of a decimal point. */
  predicate WellFormedNumber(n: NumberToken) {
    n.whole != [] && AllDigits(n.whole) && (n.whole[0] == 48 ==> n.whole == [48])
    && AllDigits(n.fraction) && WellFormedExponent(n.exponent)
  }

  function TokenNumeral(n: NumberToken): Numeral
    requires WellFormedNumber(n)
  {
    Numeral(n.negative, n.whole, n.fraction, ExponentTokenValue(n.exponent))
  }

  predicate WellFormed(t: Tree) {
    match t
    case NullTree => true
    case TrueTree => true
    case FalseTree => true
    case NumberTree(n) => WellFormedNumber(n)
    case StringTree(pieces) => WellFormedPieces(pieces)
    case EmptyArray(space) => AllSpace(space)
    case ArrayTree(items) => WellFormedItems(items)
    case EmptyObject(space) => AllSpace(space)
    case ObjectTree(members) => WellFormedMembers(members)
  }

  predicate WellFormedPadded(p: Padded) {
    AllSpace(p.before) && AllSpace(p.after) && WellFormed(p.tree)
  }

  predicate WellFormedItems(items: Items) {
    match items
    case LastItem(p) => WellFormedPadded(p)
    case MoreItems(p, rest) => WellFormedPadded(p) && WellFormedItems(rest)
  }

  predicate WellFormedMember(m: MemberTree) {
    AllSpace(m.before) && WellFormedPieces(m.key) && AllSpace(m.between) && WellFormedPadded(m.value)
  }

  predicate WellFormedMembers(members: Members) {
    match members
    case LastMember(m) => WellFormedMember(m)
    case MoreMembers(m, rest) => WellFormedMember(m) && WellFormedMembers(rest)
  }

  function TreeValue(t: Tree): Json
    requires WellFormed(t)
  {
    match t
    case NullTree => Null
    case TrueTree => Bool(true)
    case FalseTree => Bool(false)
    case NumberTree(n) => Number(NumeralValue(TokenNumeral(n)))
    case StringTree(pieces) => String(PiecesValue(pieces))
    case EmptyArray(_) => Array([])
    case ArrayTree(items) => Array(ItemsValue(items))
    case EmptyObject(_) => Object([])
    case ObjectTree(members) => Object(MembersValue(members))
  }

  function ItemsValue(items: Items): seq<Json>
    requires WellFormedItems(items)
  {
    match items
    case LastItem(p) => [PaddedValue(p)]
    case MoreItems(p, rest) => [PaddedValue(p)] + ItemsValue(rest)
  }

  function PaddedValue(p: Padded): Json
    requires WellFormedPadded(p)
  {
    TreeValue(p.tree)
  }

  function MemberValue(m: MemberTree): Member
    requires WellFormedMember(m)
  {
    Member(PiecesValue(m.key), PaddedValue(m.value))
  }

  function MembersValue(members: Members): seq<Member>
    requires WellFormedMembers(members)
  {
    match members
    case LastMember(m) => [MemberValue(m)]
    case MoreMembers(m, rest) => [MemberValue(m)] + MembersValue(rest)
  }

  // ---------- what the reader admits ----------

  predicate DistinctKeys(members: seq<Member>) {
    forall i, j | 0 <= i < j < |members| :: members[i].key != members[j].key
  }

  /** No object repeats a key, and no number is too large for a double. */
  predicate Admissible(v: Json) {
    match v
    case Null => true
    case Bool(_) => true
    case Number(x) => IsFinite(x)
    case String(_) => true
    case Array(items) => forall i | 0 <= i < |items| :: Admissible(items[i])
    case Object(members) => DistinctKeys(members) && forall i | 0 <= i < |members| :: Admissible(members[i].value)
  }
}
