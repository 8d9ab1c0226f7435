/**
 The reader's string and number tokens against the grammar: a token's text is read back as the
 token's value, and whatever is read is the text of some token.
 */
module JsonTokens {
  import opened Basics
  import opened JsonText
  import opened JsonReading
  import opened JsonGrammar

  // ---------- strings ----------

  lemma {:induction false} PiecesAreDecoded(pieces: seq<Piece>)
    requires WellFormedPieces(pieces)
    ensures Decoded(PiecesText(pieces)) == Some(PiecesValue(pieces))
  {
    if pieces != [] {
      PiecesAreDecoded(pieces[1..]);
      var first, rest := PieceText(pieces[0]), PiecesText(pieces[1..]);
      var body := first + rest;
      assert body[|first|..] == rest;
      assert WellFormedPiece(pieces[0]);
      match pieces[0]
      case Plain(_) =>
      case Short(_) =>
      case Long(digits) => assert body[2..6] == digits;
    }
  }

  lemma QuoteIsScanned(s: Text, i: nat)
    requires At(s, i, [QUOTE])
    ensures ScanString(s, i, false) == Closed(i + 1)
  {
    AtUnit(s, i, QUOTE);
  }

  lemma {:induction false} PiecesAreScanned(s: Text, i: nat, pieces: seq<Piece>, body: Text)
    requires WellFormedPieces(pieces) && body == PiecesText(pieces) && At(s, i, body + [QUOTE])
    ensures ScanString(s, i, false) == Closed(i + |body| + 1)
    decreases |pieces|
  {
    if pieces == [] {
      assert [] + [QUOTE] == [QUOTE];
      QuoteIsScanned(s, i);
    } else {
      var first, rest := PieceText(pieces[0]), PiecesText(pieces[1..]);
      AtAfterFirst(s, i, first, rest, [QUOTE]);
      PieceIsScanned(s, i, pieces[0]);
      PiecesAreScanned(s, i + |first|, pieces[1..], rest);
    }
  }

  lemma PieceIsScanned(s: Text, i: nat, p: Piece)
    requires WellFormedPiece(p) && At(s, i, PieceText(p))
    ensures ScanString(s, i, false) == ScanString(s, i + |PieceText(p)|, false)
  {
    match p
    case Plain(u) =>
      AtUnit(s, i, u);
    case Short(u) =>
      assert [BACKSLASH, u] == [BACKSLASH] + [u];
      AtFirst(s, i, BACKSLASH, [u]);
      AtUnit(s, i + 1, u);
      assert ScanString(s, i, false) == ScanString(s, i + 1, true);
    case Long(digits) =>
      AtParts(s, i, [BACKSLASH, 117], digits);
      assert [BACKSLASH, 117] == [BACKSLASH] + [117];
      AtFirst(s, i, BACKSLASH, [117]);
      AtUnit(s, i + 1, 117);
      assert ScanString(s, i, false) == ScanString(s, i + 1, true);
      HexIsScanned(s, i + 2, digits, 0);
  }

  lemma {:induction false} HexIsScanned(s: Text, i: nat, digits: Text, k: nat)
    requires FourHex(digits) && At(s, i, digits) && k <= 4
    ensures ScanString(s, i + k, false) == ScanString(s, i + 4, false)
    decreases 4 - k
  {
    if k < 4 {
      assert IsHex(digits[k]) && s[i + k] == digits[k];
      HexIsScanned(s, i, digits, k + 1);
    }
  }

  lemma QuotedLayout(s: Text, i: nat, body: Text)
    requires At(s, i, [QUOTE] + (body + [QUOTE]))
    ensures Is(s, i, QUOTE) && At(s, i + 1, body + [QUOTE]) && s[i + 1..i + 1 + |body|] == body
  {
    AtFirst(s, i, QUOTE, body + [QUOTE]);
    AtParts(s, i + 1, body, [QUOTE]);
    AtSlice(s, i + 1, body);
  }

  lemma StringFromBody(s: Text, i: nat, end: nat, text: Text)
    requires i < |s| && ScanString(s, i + 1, false) == Closed(end) && i + 1 < end
      && Decoded(s[i + 1..end - 1]) == Some(text)
    ensures StringFrom(s, i) == Ok((text, end))
  {
  }

  lemma QuotedIsRead(s: Text, i: nat, pieces: seq<Piece>)
    requires WellFormedPieces(pieces) && At(s, i, QuotedText(pieces))
    ensures Is(s, i, QUOTE) && StringFrom(s, i) == Ok((PiecesValue(pieces), i + |QuotedText(pieces)|))
  {
    var body := PiecesText(pieces);
    QuotedLayout(s, i, body);
    PiecesAreScanned(s, i + 1, pieces, body);
    PiecesAreDecoded(pieces);
    StringFromBody(s, i, i + |body| + 2, PiecesValue(pieces));
  }

  lemma {:induction false} DecodedHasPieces(body: Text) returns (pieces: seq<Piece>)
    requires Decoded(body).Some?
    ensures WellFormedPieces(pieces) && PiecesText(pieces) == body && PiecesValue(pieces) == Decoded(body).value
    decreases |body|
  {
    if body == [] {
      pieces := [];
    } else {
      var p, n := FirstPiece(body);
      var rest := DecodedHasPieces(body[n..]);
      pieces := [p] + rest;
      assert pieces[1..] == rest;
      assert body == body[..n] + body[n..];
    }
  }

  lemma FirstPiece(body: Text) returns (p: Piece, n: nat)
    requires body != [] && Decoded(body).Some?
    ensures 0 < n <= |body| && WellFormedPiece(p) && PieceText(p) == body[..n]
    ensures Decoded(body[n..]).Some? && Decoded(body).value == [PieceValue(p)] + Decoded(body[n..]).value
  {
    if body[0] != BACKSLASH {
      p, n := Plain(body[0]), 1;
    } else if IsEscape(body[1]) {
      p, n := Short(body[1]), 2;
    } else {
      p, n := Long(body[2..6]), 6;
    }
  }

  lemma QuotedStands(s: Text, i: nat, end: nat, pieces: seq<Piece>)
    requires Is(s, i, QUOTE) && i + 1 < end && Is(s, end - 1, QUOTE) && PiecesText(pieces) == s[i + 1..end - 1]
    ensures At(s, i, QuotedText(pieces)) && end == i + |QuotedText(pieces)|
  {
    var body := PiecesText(pieces);
    AtSlice(s, i + 1, body);
    AtUnit(s, end - 1, QUOTE);
    AtParts(s, i + 1, body, [QUOTE]);
    AtFirst(s, i, QUOTE, body + [QUOTE]);
  }

  lemma StringFromParts(s: Text, i: nat) returns (end: nat, body: Text)
    requires i < |s| && StringFrom(s, i).Ok?
    ensures i + 1 < end && Is(s, end - 1, QUOTE) && body == s[i + 1..end - 1] && Decoded(body).Some?
    ensures StringFrom(s, i).value == (Decoded(body).value, end)
  {
    end := ScanString(s, i + 1, false).end;
    body := s[i + 1..end - 1];
  }

  lemma StringFromPieces(s: Text, i: nat) returns (end: nat, pieces: seq<Piece>)
    requires i < |s| && StringFrom(s, i).Ok?
    ensures i + 1 < end && Is(s, end - 1, QUOTE) && WellFormedPieces(pieces) && PiecesText(pieces) == s[i + 1..end - 1]
    ensures StringFrom(s, i).value == (PiecesValue(pieces), end)
  {
    var body;
    end, body := StringFromParts(s, i);
    pieces := DecodedHasPieces(body);
  }

  lemma ReadStringIsQuoted(s: Text, i: nat) returns (pieces: seq<Piece>)
    requires Is(s, i, QUOTE) && StringFrom(s, i).Ok?
    ensures WellFormedPieces(pieces) && At(s, i, QuotedText(pieces))
    ensures StringFrom(s, i).value == (PiecesValue(pieces), i + |QuotedText(pieces)|)
  {
    var end;
    end, pieces := StringFromPieces(s, i);
    QuotedStands(s, i, end, pieces);
  }

  // ---------- numbers ----------

  /** No number token can go on at `i`. */
  predicate Delimited(s: Text, i: nat) {
    i < |s| ==> !IsDigit(s[i]) && s[i] != DOT && s[i] != 101 && s[i] != 69
  }

  lemma WholeIsRead(s: Text, i: nat, whole: Text)
    requires whole != [] && AllDigits(whole) && (whole[0] == 48 ==> whole == [48])
    requires At(s, i, whole) && (i + |whole| < |s| ==> !IsDigit(s[i + |whole|]))
    ensures IsDigit(s[i]) && WholeEnd(s, i) == Some(i + |whole|) && s[i..i + |whole|] == whole
  {
    AtHead(s, i, whole);
    assert IsDigit(whole[0]);
    AtSlice(s, i, whole);
    DigitsSkipped(s, i, whole);
  }

  lemma FractionIsRead(s: Text, i: nat, fraction: Text, end: nat)
    requires AllDigits(fraction) && At(s, i, FractionText(fraction)) && end == i + |FractionText(fraction)|
    requires end < |s| ==> !IsDigit(s[end]) && s[end] != DOT
    ensures i < |s| ==> !IsDigit(s[i])
    ensures FractionEnd(s, i) == end && fraction == if end > i then s[i + 1..end] else []
  {
    if fraction != [] {
      AtFirst(s, i, DOT, fraction);
      AtSlice(s, i + 1, fraction);
      DigitsSkipped(s, i + 1, fraction);
    }
  }

  lemma ExponentDigitsAreRead(s: Text, i: nat, k: nat, sign: Option<Unit>, digits: Text)
    requires i < |s| && (s[i] == 101 || s[i] == 69)
    requires
      match sign
      case None => k == i + 1
      case Some(u) => k == i + 2 && Is(s, i + 1, u) && (u == PLUS || u == MINUS)
    requires digits != [] && AllDigits(digits) && At(s, k, digits) && Delimited(s, k + |digits|)
    ensures Exponent(s, i) == (ExponentValue(sign == Some(MINUS), digits), k + |digits|)
  {
    AtHead(s, k, digits);
    assert IsDigit(digits[0]);
    AtSlice(s, k, digits);
    DigitsSkipped(s, k, digits);
  }

  lemma ExponentIsRead(s: Text, i: nat, e: ExponentToken, end: nat)
    requires WellFormedExponent(e) && At(s, i, ExponentText(e)) && end == i + |ExponentText(e)| && Delimited(s, end)
    ensures i < |s| ==> !IsDigit(s[i]) && s[i] != DOT
    ensures Exponent(s, i) == (ExponentTokenValue(e), end)
  {
    match e
    case NoExponent =>
    case ExponentToken(marker, None, digits) =>
      AtFirst(s, i, marker, [] + digits);
      assert [] + digits == digits;
      ExponentDigitsAreRead(s, i, i + 1, None, digits);
    case ExponentToken(marker, Some(u), digits) =>
      AtFirst(s, i, marker, [u] + digits);
      AtFirst(s, i + 1, u, digits);
      ExponentDigitsAreRead(s, i, i + 2, Some(u), digits);
  }

  lemma SignIsRead(s: Text, i: nat, negative: bool, rest: Text)
    requires At(s, i, SignText(negative) + rest) && rest != [] && IsDigit(rest[0])
    ensures Is(s, i, MINUS) == negative && At(s, i + |SignText(negative)|, rest)
  {
    AtParts(s, i, SignText(negative), rest);
    AtHead(s, i + |SignText(negative)|, rest);
    if negative {
      AtUnit(s, i, MINUS);
    }
  }

  /** A number token's parts stand one behind the other. */
  lemma NumberParts(s: Text, i: nat, n: NumberToken) returns (start: nat, j: nat, k: nat, end: nat)
    requires WellFormedNumber(n) && At(s, i, NumberText(n))
    ensures start == i + |SignText(n.negative)| && j == start + |n.whole|
    ensures k == j + |FractionText(n.fraction)| && end == k + |ExponentText(n.exponent)| == i + |NumberText(n)|
    ensures Is(s, i, MINUS) == n.negative && At(s, start, n.whole)
    ensures At(s, j, FractionText(n.fraction)) && At(s, k, ExponentText(n.exponent))
  {
    var fraction, exponent := FractionText(n.fraction), ExponentText(n.exponent);
    assert IsDigit(n.whole[0]);
    SignIsRead(s, i, n.negative, n.whole + (fraction + exponent));
    start := i + |SignText(n.negative)|;
    j := start + |n.whole|;
    k := j + |fraction|;
    end := k + |exponent|;
    AtParts(s, start, n.whole, fraction + exponent);
    AtParts(s, j, fraction, exponent);
  }

  lemma NumberIsRead(s: Text, i: nat, n: NumberToken)
    requires WellFormedNumber(n) && At(s, i, NumberText(n)) && Delimited(s, i + |NumberText(n)|)
    ensures NumberAt(s, i) == Some((TokenNumeral(n), i + |NumberText(n)|))
  {
    var start, j, k, end := NumberParts(s, i, n);
    ExponentIsRead(s, k, n.exponent, end);
    FractionIsRead(s, j, n.fraction, k);
    WholeIsRead(s, start, n.whole);
    NumberAtParts(s, i, start, j, k);
  }

  lemma NumberAtParts(s: Text, i: nat, start: nat, j: nat, k: nat)
    requires i <= |s| && start == (if Is(s, i, MINUS) then i + 1 else i) && WholeEnd(s, start) == Some(j)
    requires FractionEnd(s, j) == k
    ensures NumberAt(s, i) == Some((
      Numeral(Is(s, i, MINUS), s[start..j], if k > j then s[j + 1..k] else [], Exponent(s, k).0), Exponent(s, k).1))
  {
  }

  lemma ReadFractionIsToken(s: Text, i: nat) returns (fraction: Text)
    requires i <= |s|
    ensures AllDigits(fraction) && At(s, i, FractionText(fraction)) && FractionEnd(s, i) == i + |FractionText(fraction)|
    ensures fraction == if FractionEnd(s, i) > i then s[i + 1..FractionEnd(s, i)] else []
  {
    var j := FractionEnd(s, i);
    fraction := if j > i then s[i + 1..j] else [];
    if j > i {
      AtSlice(s, i + 1, fraction);
      AtFirst(s, i, DOT, fraction);
    }
  }

  /** Where the digits of an exponent begin, after its marker and perhaps a sign. */
  ghost predicate DigitsBegin(s: Text, i: nat, sign: Option<Unit>, k: nat) {
    i < |s| && (s[i] == 101 || s[i] == 69)
    && match sign case None => k == i + 1 case Some(u) => k == i + 2 && Is(s, i + 1, u) && (u == PLUS || u == MINUS)
  }

  lemma ExponentShape(s: Text, i: nat) returns (sign: Option<Unit>, k: nat, digits: Text)
    requires i <= |s| && Exponent(s, i).1 > i
    ensures DigitsBegin(s, i, sign, k) && digits != [] && AllDigits(digits) && At(s, k, digits)
    ensures Exponent(s, i) == (ExponentValue(sign == Some(MINUS), digits), k + |digits|)
  {
    sign := if i + 1 < |s| && (s[i + 1] == PLUS || s[i + 1] == MINUS) then Some(s[i + 1]) else None;
    k := if sign.Some? then i + 2 else i + 1;
    DigitsRead(s, k);
    digits := s[k..DigitsEnd(s, k)];
    AtSlice(s, k, digits);
  }

  lemma ExponentStands(s: Text, i: nat, sign: Option<Unit>, k: nat, digits: Text)
    requires DigitsBegin(s, i, sign, k) && At(s, k, digits)
    ensures var e := ExponentText(ExponentToken(s[i], sign, digits)); At(s, i, e) && i + |e| == k + |digits|
  {
    match sign
    case None =>
      assert [] + digits == digits;
      AtFirst(s, i, s[i], digits);
    case Some(u) =>
      AtFirst(s, i + 1, u, digits);
      AtFirst(s, i, s[i], [u] + digits);
  }

  lemma ReadExponentIsToken(s: Text, i: nat) returns (e: ExponentToken)
    requires i <= |s|
    ensures WellFormedExponent(e) && At(s, i, ExponentText(e))
    ensures Exponent(s, i) == (ExponentTokenValue(e), i + |ExponentText(e)|)
  {
    if Exponent(s, i).1 > i {
      var sign, k, digits := ExponentShape(s, i);
      ExponentStands(s, i, sign, k, digits);
      e := ExponentToken(s[i], sign, digits);
    } else {
      e := NoExponent;
    }
  }

  lemma ReadNumberIsToken(s: Text, i: nat) returns (n: NumberToken)
    requires i <= |s| && NumberAt(s, i).Some?
    ensures WellFormedNumber(n) && At(s, i, NumberText(n))
    ensures NumberAt(s, i).value == (TokenNumeral(n), i + |NumberText(n)|)
  {
    var start := if Is(s, i, MINUS) then i + 1 else i;
    var j, whole := ReadWholeIsDigits(s, i, start);
    var k := FractionEnd(s, j);
    var fraction := ReadFractionIsToken(s, j);
    var e := ReadExponentIsToken(s, k);
    n := NumberToken(Is(s, i, MINUS), whole, fraction, e);
    NumberAtParts(s, i, start, j, k);
    NumberPartsJoin(s, i, start, j, k, n);
  }

  lemma ReadWholeIsDigits(s: Text, i: nat, start: nat) returns (j: nat, whole: Text)
    requires i <= |s| && NumberAt(s, i).Some? && start == if Is(s, i, MINUS) then i + 1 else i
    ensures start < j <= |s| && WholeEnd(s, start) == Some(j) && whole == s[start..j] && At(s, start, whole)
    ensures AllDigits(whole) && (whole[0] == 48 ==> whole == [48])
  {
    j := WholeEnd(s, start).value;
    whole := s[start..j];
    AtSlice(s, start, whole);
  }

  lemma NumberPartsJoin(s: Text, i: nat, start: nat, j: nat, k: nat, n: NumberToken)
    requires Is(s, i, MINUS) == n.negative && start == i + |SignText(n.negative)|
    requires At(s, start, n.whole) && j == start + |n.whole|
    requires At(s, j, FractionText(n.fraction)) && k == j + |FractionText(n.fraction)|
    requires At(s, k, ExponentText(n.exponent))
    ensures At(s, i, NumberText(n)) && i + |NumberText(n)| == k + |ExponentText(n.exponent)|
  {
    var sign, fraction, exponent := SignText(n.negative), FractionText(n.fraction), ExponentText(n.exponent);
    AtParts(s, j, fraction, exponent);
    AtParts(s, start, n.whole, fraction + exponent);
    if n.negative {
      AtUnit(s, i, MINUS);
    }
    AtParts(s, i, sign, n.whole + (fraction + exponent));
  }
}
