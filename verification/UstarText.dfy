/** The texts in a tar header: UTF-8 by RFC 3629, and numbers in octal digits. */
module UstarText {
  import opened Basics

  type Byte = b: int | 0 <= b < 0x100
  type Bytes = seq<Byte>

  /** A Unicode scalar value. */
  type Scalar = c: int | 0 <= c < 0xD800 || 0xE000 <= c < 0x11_0000
  type Text = seq<Scalar>

  const BYTE_ORDER_MARK: Scalar := 0xFEFF

  // ---------- UTF-8 ----------

  function EncodeScalar(c: Scalar): (r: Bytes)
    ensures 1 <= |r| <= 4
  {
    if c < 0x80 then [c]
    else if c < 0x800 then [0xC0 + c / 64, 0x80 + c % 64]
    else if c < 0x1_0000 then [0xE0 + c / 64 / 64, 0x80 + c / 64 % 64, 0x80 + c % 64]
    else [0xF0 + c / 64 / 64 / 64, 0x80 + c / 64 / 64 % 64, 0x80 + c / 64 % 64, 0x80 + c % 64]
  }

  function Encode(t: Text): Bytes {
    if t == [] then [] else EncodeScalar(t[0]) + Encode(t[1..])
  }

  predicate IsTail(b: Byte) { 0x80 <= b < 0xC0 }

  /** The scalar value at the front, with its length: no overlong form, no surrogate, nothing above 10FFFF. */
  function FirstScalar(b: Bytes): (r: Option<(Scalar, nat)>)
    ensures r.Some? ==> 1 <= r.value.1 <= |b|
  {
    if b == [] then None
    else if b[0] < 0x80 then Some((b[0], 1))
    else if 0xC2 <= b[0] < 0xE0 && |b| >= 2 && IsTail(b[1]) then Some((Bits(b[0], 0xC0) * 64 + Bits(b[1], 0x80), 2))
    else if 0xE0 <= b[0] < 0xF0 && |b| >= 3 && IsTail(b[1]) && IsTail(b[2]) then
      var c := (Bits(b[0], 0xE0) * 64 + Bits(b[1], 0x80)) * 64 + Bits(b[2], 0x80);
      if c < 0x800 || 0xD800 <= c < 0xE000 then None else Some((c, 3))
    else if 0xF0 <= b[0] < 0xF5 && |b| >= 4 && IsTail(b[1]) && IsTail(b[2]) && IsTail(b[3]) then
      var c := ((Bits(b[0], 0xF0) * 64 + Bits(b[1], 0x80)) * 64 + Bits(b[2], 0x80)) * 64 + Bits(b[3], 0x80);
      if c < 0x1_0000 || c >= 0x11_0000 then None else Some((c, 4))
    else None
  }

  /** The bits of a byte behind its marker. */
  function Bits(b: Byte, marker: int): int { b - marker }

  function Decode(b: Bytes): Option<Text> {
    if b == [] then Some([])
    else
      match FirstScalar(b)
      case None => None
      case Some((c, n)) =>
        match Decode(b[n..])
        case None => None
        case Some(rest) => Some([c] + rest)
  }

  /** What the host's text decoder gives: the text without one leading byte order mark. */
  function WithoutMark(t: Text): Text {
    if t != [] && t[0] == BYTE_ORDER_MARK then t[1..] else t
  }

  lemma FirstOfEncoded(c: Scalar, rest: Bytes)
    ensures FirstScalar(EncodeScalar(c) + rest) == Some((c, |EncodeScalar(c)|))
  {
  }

  /** Decoding undoes encoding. */
  lemma {:induction false} DecodeEncode(t: Text)
    ensures Decode(Encode(t)) == Some(t)
  {
    if t != [] {
      var first := EncodeScalar(t[0]);
      FirstOfEncoded(t[0], Encode(t[1..]));
      DecodeEncode(t[1..]);
      assert (first + Encode(t[1..]))[|first|..] == Encode(t[1..]);
      assert t == [t[0]] + t[1..];
    }
  }

  lemma EncodedScalarHasNoNul(c: Scalar)
    requires c != 0
    ensures 0 !in EncodeScalar(c)
  {
  }

  lemma {:induction false} EncodedHasNoNul(t: Text)
    requires 0 !in t
    ensures 0 !in Encode(t)
  {
    if t != [] {
      assert t == [t[0]] + t[1..];
      EncodedScalarHasNoNul(t[0]);
      EncodedHasNoNul(t[1..]);
    }
  }

  lemma {:induction false} EncodedIsLonger(t: Text)
    ensures |Encode(t)| >= |t|
  {
    if t != [] { EncodedIsLonger(t[1..]); }
  }

  // ---------- fields ----------

  /** The bytes before the first NUL. */
  function BeforeNul(b: Bytes): (r: Bytes)
    ensures |r| <= |b| && r == b[..|r|] && 0 !in r
    ensures |r| < |b| ==> b[|r|] == 0
  {
    if b == [] || b[0] == 0 then [] else [b[0]] + BeforeNul(b[1..])
  }

  lemma {:induction false} BeforeNulOf(text: Bytes, rest: Bytes)
    requires 0 !in text && (rest == [] || rest[0] == 0)
    ensures BeforeNul(text + rest) == text
  {
    if text != [] {
      assert text == [text[0]] + text[1..];
      assert (text + rest)[1..] == text[1..] + rest;
      BeforeNulOf(text[1..], rest);
    } else {
      assert text + rest == rest;
    }
  }

  function Field(bytes: Bytes): Option<Text> {
    match Decode(BeforeNul(bytes))
    case None => None
    case Some(t) => Some(WithoutMark(t))
  }

  // ---------- octal ----------

  function TrimStart(t: Text): Text {
    if t != [] && IsSpace(t[0]) then TrimStart(t[1..]) else t
  }

  function TrimEnd(t: Text): Text {
    if t != [] && IsSpace(t[|t| - 1]) then TrimEnd(t[..|t| - 1]) else t
  }

  predicate IsOctalDigit(c: Scalar) { 48 <= c < 56 }

  predicate AllOctal(t: Text) { forall i | 0 <= i < |t| :: IsOctalDigit(t[i]) }

  function OctalValue(t: Text): nat
    requires AllOctal(t)
  {
    if t == [] then 0 else OctalValue(t[..|t| - 1]) * 8 + DigitOf(t[|t| - 1])
  }

  function DigitOf(c: Scalar): nat
    requires IsOctalDigit(c)
  {
    c - 48
  }

  /** The number that a field spells in octal digits, with white space around it. */
  function Octal(bytes: Bytes): Option<nat> {
    match Field(bytes)
    case None => None
    case Some(t) =>
      var raw := TrimEnd(TrimStart(t));
      if raw != [] && AllOctal(raw) then Some(OctalValue(raw)) else None
  }

  /** `n` in exactly `width` octal digits. */
  function OctalDigits(n: nat, width: nat): (r: Text)
    ensures |r| == width && AllOctal(r)
  {
    if width == 0 then [] else OctalDigits(n / 8, width - 1) + [48 + n % 8]
  }

  function PowerOf8(k: nat): nat { if k == 0 then 1 else 8 * PowerOf8(k - 1) }

  lemma {:induction false} OctalRoundTrip(n: nat, width: nat)
    requires n < PowerOf8(width)
    ensures OctalValue(OctalDigits(n, width)) == n
  {
    if width > 0 {
      OctalRoundTrip(n / 8, width - 1);
      var t := OctalDigits(n, width);
      assert t[..width - 1] == OctalDigits(n / 8, width - 1);
    }
  }

  /** Octal digits are the same as bytes and as text. */
  function DigitBytes(t: Text): (r: Bytes)
    requires AllOctal(t)
    ensures |r| == |t| && forall i | 0 <= i < |r| :: r[i] == t[i]
  {
    seq(|t|, i requires 0 <= i < |t| => assert IsOctalDigit(t[i]); t[i] as Byte)
  }

  lemma {:induction false} DigitsAreTheirEncoding(t: Text)
    requires AllOctal(t)
    ensures Encode(t) == DigitBytes(t)
  {
    if t != [] {
      assert IsOctalDigit(t[0]);
      assert AllOctal(t[1..]);
      DigitsAreTheirEncoding(t[1..]);
      assert DigitBytes(t) == [t[0] as Byte] + DigitBytes(t[1..]);
    }
  }

  lemma {:induction false} DigitsAreTrimmed(t: Text)
    requires t != [] && AllOctal(t)
    ensures TrimEnd(TrimStart(t)) == t
  {
    assert IsOctalDigit(t[0]) && IsOctalDigit(t[|t| - 1]);
  }

  /** A field of digits that ends in NUL, or in NUL and anything, spells its number. */
  lemma {:induction false} OctalFieldRoundTrip(n: nat, width: nat, rest: Bytes)
    requires width > 0 && n < PowerOf8(width) && rest != [] && rest[0] == 0
    ensures Octal(DigitBytes(OctalDigits(n, width)) + rest) == Some(n)
  {
    var t := OctalDigits(n, width);
    assert forall i | 0 <= i < |t| :: IsOctalDigit(t[i]) && DigitBytes(t)[i] != 0;
    BeforeNulOf(DigitBytes(t), rest);
    DigitsAreTheirEncoding(t);
    DecodeEncode(t);
    assert WithoutMark(t) == t by { assert IsOctalDigit(t[0]); }
    DigitsAreTrimmed(t);
    OctalRoundTrip(n, width);
  }
}
