/** The reader as the program has it: one offset that every method advances. */
module JsonReader {
  import opened Basics
  import opened JsonText
  import opened JsonReading

  /** The reader returned what `read` says and, unless it refused, stopped where `read` ends. */
  predicate Agrees<T(==)>(read: Read<T>, r: Result<T, Fault>, offset: nat) {
    match read
    case Ok((v, end)) => r == Ok(v) && offset == end
    case Err(e) => r == Err(e)
  }

  class JsonReader {
    const source: Text
    var offset: nat

    constructor (source: Text)
      ensures this.source == source && offset == 0
    {
      this.source := source;
      offset := 0;
    }

    /** The character at the offset, if there is one. */
    function Peek(): (u: Option<Unit>)
      reads this
      ensures forall c: Unit :: u == Some(c) <==> Is(source, offset, c)
    {
      if offset < |source| then Some(source[offset]) else None
    }

    method Space()
      requires offset <= |source|
      modifies this
      ensures offset == SpaceEnd(source, old(offset))
    {
      while offset < |source| && IsSpace(source[offset])
        invariant offset <= |source| && SpaceEnd(source, offset) == SpaceEnd(source, old(offset))
      {
        offset := offset + 1;
      }
    }

    method Take(literal: Text) returns (taken: bool)
      modifies this
      ensures taken == At(source, old(offset), literal)
      ensures offset == if taken then old(offset) + |literal| else old(offset)
    {
      AtSlice(source, offset, literal);
      taken := offset + |literal| <= |source| && source[offset..offset + |literal|] == literal;
      if taken {
        offset := offset + |literal|;
      }
    }

    method ReadString() returns (r: Result<Text, Fault>)
      requires offset < |source|
      modifies this
      ensures Agrees(StringFrom(source, old(offset)), r, offset)
    {
      var start := offset;
      offset := offset + 1;
      var escaped := false;
      while offset < |source|
        invariant start < offset <= |source|
        invariant ScanString(source, start + 1, false) == ScanString(source, offset, escaped)
      {
        var next := source[offset];
        if escaped {
          escaped := false;
        } else if next == BACKSLASH {
          escaped := true;
        } else if next == QUOTE {
          offset := offset + 1;
          var decoded := Decoded(source[start + 1..offset - 1]);
          return if decoded.Some? then Ok(decoded.value) else Err(STRING_INVALID);
        } else if next < 32 {
          return Err(STRING_INVALID);
        }
        offset := offset + 1;
      }
      return Err(STRING_UNTERMINATED);
    }

    method ReadNumber() returns (r: Result<Json, Fault>)
      requires offset <= |source|
      modifies this
      ensures Agrees(NumberFrom(source, old(offset)), r, offset)
    {
      var token := NumberAt(source, offset);
      if token.None? {
        return Err(VALUE_INVALID);
      }
      offset := token.value.1;
      var value := NumeralValue(token.value.0);
      return if IsFinite(value) then Ok(Number(value)) else Err(NUMBER_INVALID);
    }

    method Value() returns (r: Result<Json, Fault>)
      requires offset <= |source|
      modifies this
      ensures Agrees(ValueFrom(source, old(offset)), r, offset)
      decreases |source| - offset, 1
    {
      Space();
      var next := Peek();
      if next == Some(OPEN_BRACE) {
        r := ReadObject();
        return;
      }
      if next == Some(OPEN_BRACKET) {
        r := ReadArray();
        return;
      }
      if next == Some(QUOTE) {
        var text := ReadString();
        return if text.Ok? then Ok(String(text.value)) else Err(text.error);
      }
      var taken := Take(TRUE_TEXT);
      if taken { return Ok(Bool(true)); }
      taken := Take(FALSE_TEXT);
      if taken { return Ok(Bool(false)); }
      taken := Take(NULL_TEXT);
      if taken { return Ok(Null); }
      r := ReadNumber();
    }

    method ReadArray() returns (r: Result<Json, Fault>)
      requires Is(source, offset, OPEN_BRACKET)
      modifies this
      ensures Agrees(ArrayFrom(source, old(offset)), r, offset)
      decreases |source| - offset, 0
    {
      offset := offset + 1;
      var values: seq<Json> := [];
      Space();
      if Peek() == Some(CLOSE_BRACKET) {
        offset := offset + 1;
        return Ok(Array(values));
      }
      while true
        invariant old(offset) < offset <= |source|
        invariant ArrayFrom(source, old(offset)) == ItemsFrom(source, offset, values)
        decreases |source| - offset
      {
        var value := Value();
        if value.Err? { return Err(value.error); }
        values := values + [value.value];
        Space();
        var next := Peek();
        offset := offset + 1;
        if next == Some(CLOSE_BRACKET) { return Ok(Array(values)); }
        if next != Some(COMMA) { return Err(ARRAY_INVALID); }
      }
    }

    /** One turn of the loop over the members, up to the end of the member's value. */
    method ReadMember(members: seq<Member>, keys: set<Text>) returns (r: Result<Member, Fault>)
      requires offset <= |source| && forall key :: key in keys <==> HasKey(members, key)
      modifies this
      ensures Agrees(MemberFrom(source, old(offset), members), r, offset)
      decreases |source| - offset, 2
    {
      Space();
      if Peek() != Some(QUOTE) { return Err(OBJECT_KEY_INVALID); }
      var key := ReadString();
      if key.Err? { return Err(key.error); }
      if key.value in keys { return Err(DUPLICATE_MEMBER); }
      Space();
      var next := Peek();
      offset := offset + 1;
      if next != Some(COLON) { return Err(OBJECT_INVALID); }
      var value := Value();
      return if value.Ok? then Ok(Member(key.value, value.value)) else Err(value.error);
    }

    method ReadObject() returns (r: Result<Json, Fault>)
      requires Is(source, offset, OPEN_BRACE)
      modifies this
      ensures Agrees(ObjectFrom(source, old(offset)), r, offset)
      decreases |source| - offset, 0
    {
      offset := offset + 1;
      var members: seq<Member> := [];
      var keys: set<Text> := {};
      Space();
      if Peek() == Some(CLOSE_BRACE) {
        offset := offset + 1;
        return Ok(Object(members));
      }
      while true
        invariant old(offset) < offset <= |source|
        invariant forall key :: key in keys <==> HasKey(members, key)
        invariant ObjectFrom(source, old(offset)) == MembersFrom(source, offset, members)
        decreases |source| - offset
      {
        var member := ReadMember(members, keys);
        if member.Err? { return Err(member.error); }
        KeysGrow(members, keys, member.value);
        members, keys := members + [member.value], keys + {member.value.key};
        Space();
        var next := Peek();
        offset := offset + 1;
        if next == Some(CLOSE_BRACE) { return Ok(Object(members)); }
        if next != Some(COMMA) { return Err(OBJECT_INVALID); }
      }
    }

    /** The whole text: one value with white space around it. */
    method ParseAll() returns (r: Result<Json, Fault>)
      requires offset == 0
      modifies this
      ensures r == Document(source)
    {
      r := Value();
      if r.Ok? {
        Space();
        if offset != |source| { return Err(TRAILING_DATA); }
      }
    }
  }

  lemma KeysGrow(members: seq<Member>, keys: set<Text>, m: Member)
    requires forall key :: key in keys <==> HasKey(members, key)
    ensures forall key :: key in keys + {m.key} <==> HasKey(members + [m], key)
  {
    var more := members + [m];
    assert forall k | 0 <= k < |members| :: more[k] == members[k];
    assert more[|members|] == m;
  }

  method ParseJsonNoDuplicates(source: Text, maxBytes: nat) returns (r: Result<Json, Fault>)
    ensures r == Parse(source, maxBytes)
  {
    if Utf8Length(source) > maxBytes {
      return Err(TOO_LARGE);
    }
    var reader := new JsonReader(source);
    r := reader.ParseAll();
  }
}
