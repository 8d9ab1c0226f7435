/**
 What the JSON reader returns for every text, as functions on the text and a position in it.
 The class in JsonReader.dfy reads the same way with an offset that it advances.
 */
module JsonReading {
  import opened Basics
  import opened JsonText

  /** A number is kept exactly as written; the source rounds it to a double. */
  datatype Json =
    | Null
    | Bool(truth: bool)
    | Number(number: real)
    | String(text: Text)
    | Array(items: seq<Json>)
    | Object(members: seq<Member>)

  datatype Member = Member(key: Text, value: Json)

  datatype Fault =
    | TOO_LARGE
    | TRAILING_DATA
    | STRING_INVALID
    | STRING_UNTERMINATED
    | VALUE_INVALID
    | NUMBER_INVALID
    | ARRAY_INVALID
    | OBJECT_KEY_INVALID
    | DUPLICATE_MEMBER
    | OBJECT_INVALID

  /** What was read and where it ended, or why nothing could be read. */
  type Read<T> = Result<(T, nat), Fault>

  /** A successful read moved forward and stayed inside the text. */
  predicate Advances<T>(s: Text, i: nat, r: Read<T>) {
    r.Ok? ==> i < r.value.1 <= |s|
  }

  predicate HasKey(members: seq<Member>, key: Text) {
    exists k | 0 <= k < |members| :: members[k].key == key
  }

  function StringFrom(s: Text, i: nat): (r: Read<Text>)
    requires i < |s|
    ensures Advances(s, i, r)
  {
    match ScanString(s, i + 1, false)
    case Unterminated => Err(STRING_UNTERMINATED)
    case Control => Err(STRING_INVALID)
    case Closed(end) =>
      match Decoded(s[i + 1..end - 1])
      case None => Err(STRING_INVALID)
      case Some(t) => Ok((t, end))
  }

  function NumberFrom(s: Text, i: nat): (r: Read<Json>)
    requires i <= |s|
    ensures Advances(s, i, r)
  {
    match NumberAt(s, i)
    case None => Err(VALUE_INVALID)
    case Some((numeral, end)) =>
      if IsFinite(NumeralValue(numeral)) then Ok((Number(NumeralValue(numeral)), end)) else Err(NUMBER_INVALID)
  }

  function ValueFrom(s: Text, i: nat): (r: Read<Json>)
    requires i <= |s|
    ensures Advances(s, i, r)
    decreases |s| - i, 1
  {
    var j := SpaceEnd(s, i);
    if Is(s, j, OPEN_BRACE) then ObjectFrom(s, j)
    else if Is(s, j, OPEN_BRACKET) then ArrayFrom(s, j)
    else if Is(s, j, QUOTE) then StringValueFrom(s, j)
    else if At(s, j, TRUE_TEXT) then Ok((Bool(true), j + 4))
    else if At(s, j, FALSE_TEXT) then Ok((Bool(false), j + 5))
    else if At(s, j, NULL_TEXT) then Ok((Null, j + 4))
    else NumberFrom(s, j)
  }

  function StringValueFrom(s: Text, i: nat): (r: Read<Json>)
    requires i < |s|
    ensures Advances(s, i, r)
  {
    match StringFrom(s, i)
    case Err(e) => Err(e)
    case Ok((t, end)) => Ok((String(t), end))
  }

  function ArrayFrom(s: Text, i: nat): (r: Read<Json>)
    requires Is(s, i, OPEN_BRACKET)
    ensures Advances(s, i, r)
    decreases |s| - i, 0
  {
    var j := SpaceEnd(s, i + 1);
    if Is(s, j, CLOSE_BRACKET) then Ok((Array([]), j + 1)) else ItemsFrom(s, j, [])
  }

  /** The rest of an array of which `items` have been read. */
  function ItemsFrom(s: Text, i: nat, items: seq<Json>): (r: Read<Json>)
    requires i <= |s|
    ensures Advances(s, i, r)
    decreases |s| - i, 2
  {
    match ValueFrom(s, i)
    case Err(e) => Err(e)
    case Ok((v, j)) =>
      var k := SpaceEnd(s, j);
      if Is(s, k, CLOSE_BRACKET) then Ok((Array(items + [v]), k + 1))
      else if Is(s, k, COMMA) then ItemsFrom(s, k + 1, items + [v])
      else Err(ARRAY_INVALID)
  }

  function ObjectFrom(s: Text, i: nat): (r: Read<Json>)
    requires Is(s, i, OPEN_BRACE)
    ensures Advances(s, i, r)
    decreases |s| - i, 0
  {
    var j := SpaceEnd(s, i + 1);
    if Is(s, j, CLOSE_BRACE) then Ok((Object([]), j + 1)) else MembersFrom(s, j, [])
  }

  /** The next member of an object of which `members` have been read, up to the end of its value. */
  function MemberFrom(s: Text, i: nat, members: seq<Member>): (r: Read<Member>)
    requires i <= |s|
    ensures Advances(s, i, r)
    decreases |s| - i, 2
  {
    var j := SpaceEnd(s, i);
    if !Is(s, j, QUOTE) then Err(OBJECT_KEY_INVALID)
    else
      match StringFrom(s, j)
      case Err(e) => Err(e)
      case Ok((key, k)) =>
        if HasKey(members, key) then Err(DUPLICATE_MEMBER)
        else
          var m := SpaceEnd(s, k);
          if !Is(s, m, COLON) then Err(OBJECT_INVALID)
          else
            match ValueFrom(s, m + 1)
            case Err(e) => Err(e)
            case Ok((v, n)) => Ok((Member(key, v), n))
  }

  /** The rest of an object of which `members` have been read. */
  function MembersFrom(s: Text, i: nat, members: seq<Member>): (r: Read<Json>)
    requires i <= |s|
    ensures Advances(s, i, r)
    decreases |s| - i, 3
  {
    match MemberFrom(s, i, members)
    case Err(e) => Err(e)
    case Ok((m, j)) =>
      var k := SpaceEnd(s, j);
      if Is(s, k, CLOSE_BRACE) then Ok((Object(members + [m]), k + 1))
      else if Is(s, k, COMMA) then MembersFrom(s, k + 1, members + [m])
      else Err(OBJECT_INVALID)
  }

  /** One value, with nothing but white space around it. */
  function Document(s: Text): Result<Json, Fault> {
    match ValueFrom(s, 0)
    case Err(e) => Err(e)
    case Ok((v, j)) => if SpaceEnd(s, j) == |s| then Ok(v) else Err(TRAILING_DATA)
  }

  // ---------- size in UTF-8 ----------

  predicate IsHigh(u: Unit) { 0xD800 <= u <= 0xDBFF }

  predicate IsLow(u: Unit) { 0xDC00 <= u <= 0xDFFF }

  /** The number of bytes the text takes in UTF-8, an unpaired surrogate taking three. */
  function Utf8Length(s: Text): nat {
    if s == [] then 0
    else if s[0] < 0x80 then 1 + Utf8Length(s[1..])
    else if s[0] < 0x800 then 2 + Utf8Length(s[1..])
    else if IsHigh(s[0]) && |s| > 1 && IsLow(s[1]) then 4 + Utf8Length(s[2..])
    else 3 + Utf8Length(s[1..])
  }

  function Parse(s: Text, maxBytes: nat): Result<Json, Fault> {
    if Utf8Length(s) > maxBytes then Err(TOO_LARGE) else Document(s)
  }
}
