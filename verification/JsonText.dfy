/**
 JSON texts as the reader sees them: sequences of UTF-16 code units. This module has the lexical
 level, shared by the reader and by the grammar it is compared with.
 */
module JsonText {
  import opened Basics

  type Unit = u: int | 0 <= u < 0x1_0000
  type Text = seq<Unit>

  const QUOTE: Unit := 34
  const BACKSLASH: Unit := 92
  const COMMA: Unit := 44
  const COLON: Unit := 58
  const MINUS: Unit := 45
  const PLUS: Unit := 43
  const DOT: Unit := 46
  const OPEN_BRACKET: Unit := 91
  const CLOSE_BRACKET: Unit := 93
  const OPEN_BRACE: Unit := 123
  const CLOSE_BRACE: Unit := 125
  const TRUE_TEXT: Text := [116, 114, 117, 101]
  const FALSE_TEXT: Text := [102, 97, 108, 115, 101]
  const NULL_TEXT: Text := [110, 117, 108, 108]

  predicate IsDigit(u: Unit) { 48 <= u <= 57 }

  predicate IsHex(u: Unit) { IsDigit(u) || 65 <= u <= 70 || 97 <= u <= 102 }

  function HexValue(u: Unit): (n: nat)
    requires IsHex(u)
    ensures n < 16
  {
    if IsDigit(u) then u - 48 else if u <= 70 then u - 55 else u - 87
  }

  /** `t` stands in `s` at `i`. */
  predicate At(s: Text, i: nat, t: Text) {
    i + |t| <= |s| && forall k | 0 <= k < |t| :: s[i + k] == t[k]
  }

  lemma AtParts(s: Text, i: nat, a: Text, b: Text)
    ensures At(s, i, a + b) <==> At(s, i, a) && At(s, i + |a|, b)
  {
    var t := a + b;
    assert forall k | 0 <= k < |a| :: t[k] == a[k];
    assert forall k | 0 <= k < |b| :: t[|a| + k] == b[k];
    if At(s, i, t) {
      forall k | 0 <= k < |b| ensures s[i + |a| + k] == b[k] {
        assert s[i + (|a| + k)] == t[|a| + k];
      }
    }
    if At(s, i, a) && At(s, i + |a|, b) {
      forall k | 0 <= k < |t| ensures s[i + k] == t[k] {
        if k >= |a| {
          assert s[i + |a| + (k - |a|)] == b[k - |a|];
        }
      }
    }
  }

  lemma AtAfterFirst(s: Text, i: nat, a: Text, b: Text, c: Text)
    requires At(s, i, (a + b) + c)
    ensures At(s, i, a) && At(s, i + |a|, b + c)
  {
    assert (a + b) + c == a + (b + c);
    AtParts(s, i, a, b + c);
  }

  predicate Is(s: Text, i: nat, u: Unit) { i < |s| && s[i] == u }

  lemma AtUnit(s: Text, i: nat, u: Unit)
    ensures At(s, i, [u]) <==> Is(s, i, u)
  {
    if At(s, i, [u]) {
      assert s[i + 0] == [u][0];
    }
  }

  lemma AtFirst(s: Text, i: nat, u: Unit, rest: Text)
    ensures At(s, i, [u] + rest) <==> Is(s, i, u) && At(s, i + 1, rest)
  {
    AtParts(s, i, [u], rest);
    AtUnit(s, i, u);
  }

  lemma AtHead(s: Text, i: nat, t: Text)
    requires At(s, i, t) && t != []
    ensures Is(s, i, t[0])
  {
    assert s[i + 0] == t[0];
  }

  lemma AtSlice(s: Text, i: nat, t: Text)
    ensures At(s, i, t) <==> i + |t| <= |s| && s[i..i + |t|] == t
  {
  }

  /** The first position from `i` on that does not hold white space. */
  function SpaceEnd(s: Text, i: nat): (j: nat)
    requires i <= |s|
    ensures i <= j <= |s|
    decreases |s| - i
  {
    if i < |s| && IsSpace(s[i]) then SpaceEnd(s, i + 1) else i
  }

  lemma {:induction false} SpaceEndStops(s: Text, i: nat)
    requires i <= |s|
    ensures forall k | i <= k < SpaceEnd(s, i) :: IsSpace(s[k])
    ensures SpaceEnd(s, i) < |s| ==> !IsSpace(s[SpaceEnd(s, i)])
    decreases |s| - i
  {
    if i < |s| && IsSpace(s[i]) {
      SpaceEndStops(s, i + 1);
    }
  }

  predicate AllSpace(t: Text) { forall u | u in t :: IsSpace(u) }

  lemma SpaceSkipped(s: Text, i: nat, t: Text)
    requires At(s, i, t) && AllSpace(t) && (i + |t| < |s| ==> !IsSpace(s[i + |t|]))
    ensures SpaceEnd(s, i) == i + |t|
  {
    SpaceEndStops(s, i);
    forall k | i <= k < i + |t| ensures IsSpace(s[k]) {
      assert s[i + (k - i)] == t[k - i];
    }
  }

  /** The first position from `i` on that does not hold a digit. */
  function DigitsEnd(s: Text, i: nat): (j: nat)
    requires i <= |s|
    ensures i <= j <= |s|
    decreases |s| - i
  {
    if i < |s| && IsDigit(s[i]) then DigitsEnd(s, i + 1) else i
  }

  lemma {:induction false} DigitsEndStops(s: Text, i: nat)
    requires i <= |s|
    ensures forall k | i <= k < DigitsEnd(s, i) :: IsDigit(s[k])
    ensures DigitsEnd(s, i) < |s| ==> !IsDigit(s[DigitsEnd(s, i)])
    decreases |s| - i
  {
    if i < |s| && IsDigit(s[i]) {
      DigitsEndStops(s, i + 1);
    }
  }

  predicate AllDigits(t: Text) { forall u | u in t :: IsDigit(u) }

  lemma DigitsSkipped(s: Text, i: nat, t: Text)
    requires At(s, i, t) && AllDigits(t) && (i + |t| < |s| ==> !IsDigit(s[i + |t|]))
    ensures DigitsEnd(s, i) == i + |t|
  {
    DigitsEndStops(s, i);
    forall k | i <= k < i + |t| ensures IsDigit(s[k]) {
      assert s[i + (k - i)] == t[k - i];
    }
  }

  // ---------- strings ----------

  predicate IsEscape(u: Unit) {
    u == 34 || u == 92 || u == 47 || u == 98 || u == 102 || u == 110 || u == 114 || u == 116
  }

  function Unescaped(u: Unit): Unit
    requires IsEscape(u)
  {
    if u == 98 then 8 else if u == 102 then 12 else if u == 110 then 10
    else if u == 114 then 13 else if u == 116 then 9 else u
  }

  predicate FourHex(t: Text) { |t| == 4 && forall i | 0 <= i < 4 :: IsHex(t[i]) }

  function FourHexValue(t: Text): Unit
    requires FourHex(t)
  {
    HexValue(t[0]) * 0x1000 + HexValue(t[1]) * 0x100 + HexValue(t[2]) * 0x10 + HexValue(t[3])
  }

  /** What the text between two quotes spells, by section 7 of RFC 8259, if it is well-formed. */
  function Decoded(body: Text): Option<Text> {
    if body == [] then Some([])
    else if body[0] == BACKSLASH then
      if |body| >= 2 && IsEscape(body[1]) then Then(Unescaped(body[1]), Decoded(body[2..]))
      else if |body| >= 6 && body[1] == 117 && FourHex(body[2..6]) then
        Then(FourHexValue(body[2..6]), Decoded(body[6..]))
      else None
    else if body[0] < 32 || body[0] == QUOTE then None
    else Then(body[0], Decoded(body[1..]))
  }

  function Then(u: Unit, rest: Option<Text>): Option<Text> {
    match rest
    case None => None
    case Some(t) => Some([u] + t)
  }

  /** How a string token ends: behind its closing quote, at a control character, or not at all. */
  datatype Scan = Closed(end: nat) | Control | Unterminated

  /** The reader's scan from `i`, which is inside a string; `escaped` after an unpaired backslash. */
  function ScanString(s: Text, i: nat, escaped: bool): (r: Scan)
    requires i <= |s|
    ensures r.Closed? ==> i < r.end <= |s| && s[r.end - 1] == QUOTE
    decreases |s| - i
  {
    if i == |s| then Unterminated
    else if escaped then ScanString(s, i + 1, false)
    else if s[i] == BACKSLASH then ScanString(s, i + 1, true)
    else if s[i] == QUOTE then Closed(i + 1)
    else if s[i] < 32 then Control
    else ScanString(s, i + 1, false)
  }

  // ---------- numbers ----------

  /** The digits of a number token, and the power of ten that scales them. */
  datatype Numeral = Numeral(negative: bool, whole: Text, fraction: Text, exponent: int)

  function DigitsValue(t: Text): nat
    requires AllDigits(t)
  {
    if t == [] then 0 else DigitsValue(t[..|t| - 1]) * 10 + DigitValue(t[|t| - 1])
  }

  function DigitValue(u: Unit): nat
    requires IsDigit(u)
  {
    u - 48
  }

  function Power(base: nat, n: nat): nat { if n == 0 then 1 else base * Power(base, n - 1) }

  lemma {:induction false} PowerIsPositive(base: nat, n: nat)
    requires base > 0
    ensures Power(base, n) > 0
  {
    if n > 0 { PowerIsPositive(base, n - 1); }
  }

  /** m times ten to the power e. */
  function Scaled(m: int, e: int): real {
    PowerIsPositive(10, if e >= 0 then e else -e);
    if e >= 0 then (m * Power(10, e)) as real else m as real / Power(10, -e) as real
  }

  function NumeralValue(n: Numeral): real
    requires AllDigits(n.whole) && AllDigits(n.fraction)
  {
    var digits: int := DigitsValue(n.whole + n.fraction);
    Scaled(if n.negative then -digits else digits, n.exponent - |n.fraction|)
  }

  /** From here on, the nearest double is infinite. */
  function Overflow(): real { (Power(2, 1024) - Power(2, 970)) as real }

  predicate IsFinite(x: real) { -Overflow() < x < Overflow() }

  function ExponentValue(negative: bool, digits: Text): int
    requires AllDigits(digits)
  {
    var value: int := DigitsValue(digits);
    if negative then -value else value
  }

  lemma DigitsRead(s: Text, i: nat)
    requires i <= |s|
    ensures AllDigits(s[i..DigitsEnd(s, i)])
  {
    DigitsEndStops(s, i);
  }

  /** Where the whole part that starts at `i` ends, if one does. */
  function WholeEnd(s: Text, i: nat): (r: Option<nat>)
    requires i <= |s|
    ensures r.Some? ==> i < r.value <= |s| && AllDigits(s[i..r.value])
  {
    if i < |s| && s[i] == 48 then Some(i + 1)
    else if i < |s| && IsDigit(s[i]) then DigitsRead(s, i); Some(DigitsEnd(s, i))
    else None
  }

  /** Where the fraction that starts at `i` ends: at `i` if there is none. */
  function FractionEnd(s: Text, i: nat): (j: nat)
    requires i <= |s|
    ensures i <= j <= |s| && j != i + 1
    ensures j > i ==> AllDigits(s[i + 1..j])
  {
    if i < |s| && s[i] == DOT && DigitsEnd(s, i + 1) > i + 1 then DigitsRead(s, i + 1); DigitsEnd(s, i + 1)
    else i
  }

  /** The exponent that starts at `i` and where it ends: zero, at `i`, if there is none. */
  function Exponent(s: Text, i: nat): (r: (int, nat))
    requires i <= |s|
    ensures i <= r.1 <= |s|
  {
    if i < |s| && (s[i] == 101 || s[i] == 69) then
      var k := if i + 1 < |s| && (s[i + 1] == PLUS || s[i + 1] == MINUS) then i + 2 else i + 1;
      var j := DigitsEnd(s, k);
      DigitsRead(s, k);
      if j > k then (ExponentValue(s[i + 1] == MINUS, s[k..j]), j) else (0, i)
    else (0, i)
  }

  /** The number token at `i`, by section 6 of RFC 8259, and where it ends. */
  function NumberAt(s: Text, i: nat): (r: Option<(Numeral, nat)>)
    requires i <= |s|
    ensures r.Some? ==> i < r.value.1 <= |s| && AllDigits(r.value.0.whole) && AllDigits(r.value.0.fraction)
  {
    var negative := i < |s| && s[i] == MINUS;
    var start := if negative then i + 1 else i;
    match WholeEnd(s, start)
    case None => None
    case Some(j) =>
      var k := FractionEnd(s, j);
      var (e, end) := Exponent(s, k);
      Some((Numeral(negative, s[start..j], if k > j then s[j + 1..k] else [], e), end))
  }
}
