/** What the reader makes of the writer's bytes. */
module UstarRoundTrip {
  import opened Basics
  import opened UstarText
  import opened UstarModel

  // ---------- one header ----------

  lemma {:induction false} ByteSumBound(b: Bytes)
    ensures ByteSum(b) <= 255 * |b|
  {
    if b != [] { ByteSumBound(b[1..]); }
  }

  lemma PowersOf8()
    ensures PowerOf8(6) == 262144 && PowerOf8(7) == 2097152 && PowerOf8(11) == 8589934592
  {
    assert PowerOf8(3) == 512;
    assert PowerOf8(6) == 8 * (8 * (8 * PowerOf8(3)));
    assert PowerOf8(9) == 8 * (8 * (8 * PowerOf8(6)));
    assert PowerOf8(11) == 8 * (8 * PowerOf8(9));
  }

  /** The sum of a header never overflows its six digits, nor a size within the limit its eleven. */
  lemma FieldsNeverOverflow(path: Text, size: nat)
    requires |Encode(path)| <= 100 && size <= MAX_FILE
    ensures ByteSum(Front(path, size) + Blanks() + Back()) < PowerOf8(6) && size < PowerOf8(11)
  {
    ByteSumBound(Front(path, size) + Blanks() + Back());
    PowersOf8();
  }

  lemma Slice(a: Bytes, b: Bytes, c: Bytes)
    ensures (a + b + c)[|a|..|a| + |b|] == b && (a + b + c)[..|a|] == a && (a + b + c)[|a| + |b|..] == c
  {
  }

  lemma HeaderParts(path: Text, size: nat)
    requires |Encode(path)| <= 100
    ensures var h := Header(path, size);
      && h[..148] == Front(path, size)
      && h[148..156] == NumberField(ByteSum(Front(path, size) + Blanks() + Back()), 6) + [SPACE]
      && h[156..] == Back()
  {
    var sum := ByteSum(Front(path, size) + Blanks() + Back());
    Slice(Front(path, size), NumberField(sum, 6) + [SPACE], Back());
  }

  lemma SixParts(a: Bytes, b: Bytes, c: Bytes, d: Bytes, e: Bytes, g: Bytes)
    ensures var all := a + b + c + d + e + g; var n := |a| + |b| + |c| + |d|;
      all[..|a|] == a && all[|a|..|a| + |b|] == b && all[n..n + |e|] == e
  {
    var all := a + b + c + d + e + g;
    assert all == a + b + (c + d + e + g);
    Slice(a, b, c + d + e + g);
    Slice(a + b + c + d, e, g);
  }

  lemma FrontParts(path: Text, size: nat)
    requires |Encode(path)| <= 100
    ensures var f := Front(path, size);
      && f[0..100] == Encode(path) + Zeros(100 - |Encode(path)|)
      && f[100..108] == NumberField(PLAIN_MODE, 7)
      && f[124..136] == NumberField(size, 11)
  {
    var name := Encode(path) + Zeros(100 - |Encode(path)|);
    var f := Front(path, size);
    SixParts(name, NumberField(PLAIN_MODE, 7), NumberField(0, 7), NumberField(0, 7), NumberField(size, 11),
      NumberField(0, 11));
    assert f[0..100] == f[..100];
  }

  lemma BackParts()
    ensures Back()[0] == 48 && AllZero(Back()[189..344])
  {
    Slice([48] + Zeros(100), MAGIC, Zeros(247));
  }

  lemma HeaderChecks(path: Text, size: nat)
    requires |Encode(path)| <= 100 && size <= MAX_FILE
    ensures var h := Header(path, size);
      OctalField(h[148..156], CHECKSUM_REFUSED) == Ok(Checksum(h))
  {
    var h := Header(path, size);
    var sum := ByteSum(Front(path, size) + Blanks() + Back());
    HeaderParts(path, size);
    FieldsNeverOverflow(path, size);
    assert NumberField(sum, 6) + [SPACE] == DigitBytes(OctalDigits(sum, 6)) + [0, SPACE];
    OctalFieldRoundTrip(sum, 6, [0, SPACE]);
    OctalIsField(h[148..156]);
    BlankedHeader(h, Front(path, size), Back());
  }

  lemma BlankedHeader(h: Bytes, front: Bytes, back: Bytes)
    requires |h| == BLOCK && |front| == 148 && h[..148] == front && h[156..] == back
    ensures Blanked(h) == front + Blanks() + back
  {
    var blanked := front + Blanks() + back;
    forall i | 0 <= i < BLOCK ensures Blanked(h)[i] == blanked[i] {
      if i < 148 {
        assert h[i] == h[..148][i];
      } else if i >= 156 {
        assert h[i] == h[156..][i - 156];
      }
    }
  }

  lemma OctalIsField(bytes: Bytes)
    ensures Octal(bytes).Some? ==> Field(bytes).Some?
  {
  }

  lemma HeaderNumbers(path: Text, size: nat)
    requires |Encode(path)| <= 100 && size <= MAX_FILE
    ensures var h := Header(path, size);
      OctalField(h[100..108], MODE_REFUSED) == Ok(PLAIN_MODE) && OctalField(h[124..136], SIZE_REFUSED) == Ok(size)
      && h[156] == 48 && h[100] != 0
  {
    var h := Header(path, size);
    HeaderParts(path, size);
    FrontParts(path, size);
    BackParts();
    assert h[100..108] == h[..148][100..108] && h[124..136] == h[..148][124..136];
    assert h[156] == h[156..][0];
    PowersOf8();
    OctalFieldRoundTrip(PLAIN_MODE, 7, [0]);
    OctalFieldRoundTrip(size, 11, [0]);
    assert h[100] == h[100..108][0] == DigitBytes(OctalDigits(PLAIN_MODE, 7))[0];
    assert IsOctalDigit(OctalDigits(PLAIN_MODE, 7)[0]);
  }

  lemma NulField(bytes: Bytes)
    requires bytes != [] && AllZero(bytes)
    ensures Field(bytes) == Some([])
  {
    BeforeNulOf([], bytes);
    assert [] + bytes == bytes;
  }

  lemma HeaderPath(path: Text, size: nat)
    requires |Encode(path)| <= 100 && 0 !in path
    ensures var h := Header(path, size);
      Field(h[0..100]) == Some(WithoutMark(path)) && Field(h[345..500]) == Some([])
  {
    var h := Header(path, size);
    HeaderParts(path, size);
    FrontParts(path, size);
    BackParts();
    assert h[0..100] == h[..148][0..100];
    assert h[345..500] == h[156..][189..344];
    EncodedHasNoNul(path);
    BeforeNulOf(Encode(path), Zeros(100 - |Encode(path)|));
    DecodeEncode(path);
    NulField(h[345..500]);
  }

  /** A written header announces its path without a leading byte order mark, and its size. */
  lemma HeaderIsAnnounced(path: Text, size: nat)
    requires |Encode(path)| <= 100 && 0 !in path && size <= MAX_FILE
    ensures !AllZero(Header(path, size))
    ensures Announced(Header(path, size)) == if IsSafePath(WithoutMark(path)) then Ok((WithoutMark(path), size))
      else Err(PATH_REFUSED)
  {
    HeaderChecks(path, size);
    HeaderNumbers(path, size);
    HeaderPath(path, size);
    AnnouncedParts(Header(path, size), WithoutMark(path), size);
  }

  lemma AnnouncedParts(h: Bytes, path: Text, size: nat)
    requires |h| == BLOCK && size <= MAX_FILE && h[156] == 48
    requires OctalField(h[148..156], CHECKSUM_REFUSED) == Ok(Checksum(h))
    requires OctalField(h[100..108], MODE_REFUSED) == Ok(PLAIN_MODE)
      && OctalField(h[124..136], SIZE_REFUSED) == Ok(size)
    requires Field(h[0..100]) == Some(path) && Field(h[345..500]) == Some([])
    ensures Announced(h) == if IsSafePath(path) then Ok((path, size)) else Err(PATH_REFUSED)
  {
    assert !IsExecutable(PLAIN_MODE);
  }

  // ---------- one entry ----------

  /** What the property demands of an entry; only a leading byte order mark is left to look at. */
  predicate IsWritable(e: Entry) {
    |Encode(e.path)| <= 100 && 0 !in e.path && IsSafePath(e.path) && |e.content| <= MAX_FILE && Decode(e.content).Some?
  }

  lemma FourParts(a: Bytes, b: Bytes, c: Bytes, d: Bytes)
    ensures var all := (a + b + c) + d;
      all[..|a|] == a && all[|a|..|a| + |b|] == b && all[|a| + |b| + |c|..] == d
  {
    var all := (a + b + c) + d;
    assert all == a + b + (c + d);
    Slice(a, b, c + d);
  }

  lemma EntryParts(e: Entry, rest: Bytes)
    requires |Encode(e.path)| <= 100
    ensures var all := EntryBytes(e) + rest;
      && all[..BLOCK] == Header(e.path, |e.content|)
      && all[BLOCK..BLOCK + |e.content|] == e.content
      && all[BLOCK + Padded(|e.content|)..] == rest
  {
    FourParts(Header(e.path, |e.content|), e.content, Zeros(Padded(|e.content|) - |e.content|), rest);
  }

  /** What the reader does with the content behind a header. */
  lemma ContentIsTaken(all: Bytes, files: Files, path: Text, content: Bytes)
    requires |all| % BLOCK == 0 && |all| >= BLOCK + |content|
    requires all[BLOCK..BLOCK + |content|] == content && Decode(content).Some?
    ensures if path !in files && |files| < MAX_FILES
      then TakeContent(all, path, |content|, files) == Ok((files[path := content], BLOCK + Padded(|content|)))
      else TakeContent(all, path, |content|, files).Err?
  {
    if path !in files {
      assert |files[path := content]| == |files| + 1;
    }
  }

  lemma EntryIsAnnounced(e: Entry, all: Bytes, rest: Bytes)
    requires IsWritable(e) && all == EntryBytes(e) + rest
    ensures |all| >= BLOCK && !AllZero(all[..BLOCK])
    ensures Announced(all[..BLOCK])
      == if IsSafePath(WithoutMark(e.path)) then Ok((WithoutMark(e.path), |e.content|)) else Err(PATH_REFUSED)
  {
    EntryParts(e, rest);
    HeaderIsAnnounced(e.path, |e.content|);
  }

  lemma EntryLayout(e: Entry, all: Bytes, rest: Bytes)
    requires |Encode(e.path)| <= 100 && |rest| % BLOCK == 0 && all == EntryBytes(e) + rest
    ensures |all| % BLOCK == 0 && |all| >= BLOCK + |e.content| && all[BLOCK..BLOCK + |e.content|] == e.content
    ensures all[BLOCK + Padded(|e.content|)..] == rest
  {
    BlocksAdd(|EntryBytes(e)|, |rest|);
    EntryParts(e, rest);
  }

  lemma EntryIsTaken(all: Bytes, files: Files, path: Text, content: Bytes)
    requires |all| % BLOCK == 0 && |all| >= BLOCK + |content| && all[BLOCK..BLOCK + |content|] == content
      && Decode(content).Some?
    requires Announced(all[..BLOCK]) == if IsSafePath(path) then Ok((path, |content|)) else Err(PATH_REFUSED)
    ensures if IsSafePath(path) && path !in files && |files| < MAX_FILES
      then ReadEntry(all, files) == Ok((files[path := content], BLOCK + Padded(|content|)))
      else ReadEntry(all, files).Err?
  {
    if IsSafePath(path) {
      ContentIsTaken(all, files, path, content);
    }
  }

  /** Reading a written entry adds its content under its path without a leading mark, or refuses. */
  lemma EntryIsRead(e: Entry, rest: Bytes, files: Files)
    requires IsWritable(e) && |rest| % BLOCK == 0
    ensures |EntryBytes(e) + rest| % BLOCK == 0
    ensures var path := WithoutMark(e.path); var r := ReadEntries(EntryBytes(e) + rest, files);
      if IsSafePath(path) && path !in files && |files| < MAX_FILES then r == ReadEntries(rest, files[path := e.content])
      else r.Err?
  {
    var all := EntryBytes(e) + rest;
    EntryLayout(e, all, rest);
    EntryIsAnnounced(e, all, rest);
    EntryIsTaken(all, files, WithoutMark(e.path), e.content);
  }

  // ---------- whole archives ----------

  function MapOf(entries: seq<Entry>): Files {
    if entries == [] then map[]
      else MapOf(entries[..|entries| - 1])[entries[|entries| - 1].path := entries[|entries| - 1].content]
  }

  predicate AllWritable(entries: seq<Entry>) { forall i | 0 <= i < |entries| :: IsWritable(entries[i]) }

  predicate DistinctPaths(entries: seq<Entry>) {
    forall i, j | 0 <= i < j < |entries| :: entries[i].path != entries[j].path
  }

  predicate Unmarked(e: Entry) { WithoutMark(e.path) == e.path }

  lemma {:induction false} MapOfKeys(entries: seq<Entry>)
    requires DistinctPaths(entries)
    ensures |MapOf(entries)| == |entries|
    ensures forall p :: p in MapOf(entries) <==> exists i | 0 <= i < |entries| :: entries[i].path == p
  {
    if entries != [] {
      var n := |entries| - 1;
      MapOfKeys(entries[..n]);
      assert forall i | 0 <= i < n :: entries[..n][i] == entries[i];
    }
  }

  lemma TerminatorIsRead(files: Files)
    ensures ReadEntries(Zeros(2 * BLOCK), files) == if files == map[] then Err(TERMINATOR_REFUSED) else Ok(files)
  {
    var end := Zeros(2 * BLOCK);
    assert AllZero(end[..BLOCK]);
  }

  lemma ArchiveFrom(entries: seq<Entry>, from: nat)
    requires AllWritable(entries) && from < |entries|
    ensures WriteTar(entries[from..]) == EntryBytes(entries[from]) + WriteTar(entries[from + 1..])
  {
    assert entries[from..][1..] == entries[from + 1..];
  }

  lemma MapOfOneMore(entries: seq<Entry>, from: nat)
    requires from < |entries|
    ensures MapOf(entries[..from + 1]) == MapOf(entries[..from])[entries[from].path := entries[from].content]
  {
    assert entries[..from + 1][..from] == entries[..from];
  }

  lemma OneMoreIsRead(entries: seq<Entry>, from: nat, all: Files)
    requires AllWritable(entries) && DistinctPaths(entries) && from < |entries| <= MAX_FILES && Unmarked(entries[from])
    requires ReadEntries(WriteTar(entries[from + 1..]), MapOf(entries[..from + 1])) == Ok(all)
    ensures ReadEntries(WriteTar(entries[from..]), MapOf(entries[..from])) == Ok(all)
  {
    MapOfKeys(entries[..from]);
    ArchiveFrom(entries, from);
    MapOfOneMore(entries, from);
    EntryIsRead(entries[from], WriteTar(entries[from + 1..]), MapOf(entries[..from]));
  }

  /** Entries `from` on are read after the ones before them. */
  lemma {:induction false} EntriesAreRead(entries: seq<Entry>, from: nat)
    requires AllWritable(entries) && DistinctPaths(entries) && from <= |entries| <= MAX_FILES && entries != []
    requires forall i | 0 <= i < |entries| :: Unmarked(entries[i])
    ensures ReadEntries(WriteTar(entries[from..]), MapOf(entries[..from])) == Ok(MapOf(entries))
    decreases |entries| - from
  {
    if from == |entries| {
      assert entries[..from] == entries && WriteTar(entries[from..]) == Zeros(2 * BLOCK);
      MapOfKeys(entries);
      TerminatorIsRead(MapOf(entries));
    } else {
      EntriesAreRead(entries, from + 1);
      OneMoreIsRead(entries, from, MapOf(entries));
    }
  }

  // ---------- which archives come back ----------

  /** Whatever is read is under a written path without its leading mark. */
  lemma {:induction false} ReadPathsAreStripped(entries: seq<Entry>, from: nat, files: Files, path: Text)
    requires AllWritable(entries) && from <= |entries|
    requires ReadEntries(WriteTar(entries[from..]), files).Ok?
      && path in ReadEntries(WriteTar(entries[from..]), files).value
    ensures path in files || exists i | from <= i < |entries| :: path == WithoutMark(entries[i].path)
    decreases |entries| - from
  {
    if from == |entries| {
      assert WriteTar(entries[from..]) == Zeros(2 * BLOCK);
      TerminatorIsRead(files);
    } else {
      var e := entries[from];
      ArchiveFrom(entries, from);
      EntryIsRead(e, WriteTar(entries[from + 1..]), files);
      ReadPathsAreStripped(entries, from + 1, files[WithoutMark(e.path) := e.content], path);
    }
  }

  /** If an archive comes back as written, no path begins with a byte order mark: the longest that did would have to
      come from a longer one. */
  lemma {:induction false} ReturnedPathIsUnmarked(entries: seq<Entry>, i: nat)
    requires AllWritable(entries) && DistinctPaths(entries) && i < |entries|
    requires ReadEntries(WriteTar(entries), map[]) == Ok(MapOf(entries))
    ensures Unmarked(entries[i])
    decreases 100 - |entries[i].path|
  {
    var path := entries[i].path;
    MapOfKeys(entries);
    assert entries[0..] == entries;
    ReadPathsAreStripped(entries, 0, map[], path);
    var j :| 0 <= j < |entries| && path == WithoutMark(entries[j].path);
    EncodedIsLonger(entries[j].path);
    if !Unmarked(entries[j]) {
      ReturnedPathIsUnmarked(entries, j);
    }
  }

  /**
   The round trip of the reader with the writer: an archive of 1 to 256 distinct safe paths of at
   most 100 bytes, with UTF-8 contents within the limits, is read back as exactly those files if and
   only if no path begins with a byte order mark, which the reader's decoder drops.
   */
  lemma RoundTripExactly(entries: seq<Entry>)
    requires AllWritable(entries) && DistinctPaths(entries) && 1 <= |entries| <= MAX_FILES
    requires |WriteTar(entries)| <= MAX_EXPANDED
    ensures ReadTar(WriteTar(entries)) == Ok(MapOf(entries)) <==> forall i | 0 <= i < |entries| :: Unmarked(entries[i])
  {
    assert ReadTar(WriteTar(entries)) == ReadEntries(WriteTar(entries), map[]);
    if forall i | 0 <= i < |entries| :: Unmarked(entries[i]) {
      EntriesAreRead(entries, 0);
      assert entries[0..] == entries && entries[..0] == [];
    }
    if ReadTar(WriteTar(entries)) == Ok(MapOf(entries)) {
      forall i | 0 <= i < |entries| ensures Unmarked(entries[i]) {
        ReturnedPathIsUnmarked(entries, i);
      }
    }
  }

  /** A path with a leading byte order mark is safe, and is read back as another one. */
  lemma MarkedPathIsLost()
    ensures var e := Entry([BYTE_ORDER_MARK, 97], []);
      IsWritable(e) && ReadTar(WriteTar([e])) == Ok(map[[97 as Scalar] := []])
        && MapOf([e]) != map[[97 as Scalar] := []]
  {
    var e := Entry([BYTE_ORDER_MARK, 97], []);
    var path: Text := [97];
    assert Utf16Length(path) == 1 && Utf16Length(e.path) == 2 by { assert e.path[1..] == path && path[1..] == []; }
    assert Encode(path) == [97] by { assert path[1..] == []; }
    assert Encode(e.path) == [0xEF, 0xBB, 0xBF, 97] by { assert e.path[1..] == path; }
    assert WithoutMark(e.path) == path;
    EntryIsRead(e, Zeros(2 * BLOCK), map[]);
    TerminatorIsRead(map[path := e.content]);
    assert WriteTar([e]) == EntryBytes(e) + Zeros(2 * BLOCK) by { assert EntriesBytes([e][1..]) == []; }
    assert MapOf([e]) == map[e.path := e.content] by { assert [e][..0] == []; }
    assert e.path !in map[path := e.content];
  }

  // ---------- every archive ----------

  /** Files as the reader may return them. */
  predicate AreBounded(files: Files) {
    |files| <= MAX_FILES && forall p | p in files :: IsSafePath(p) && |files[p]| <= MAX_FILE && Decode(files[p]).Some?
  }

  lemma AnnouncedIsBounded(header: Bytes)
    requires |header| == BLOCK && Announced(header).Ok?
    ensures IsSafePath(Announced(header).value.0) && Announced(header).value.1 <= MAX_FILE
  {
  }

  lemma ContentIsBounded(rest: Bytes, path: Text, size: nat, files: Files)
    requires |rest| % BLOCK == 0 && BLOCK <= |rest| && AreBounded(files) && IsSafePath(path) && size <= MAX_FILE
    requires TakeContent(rest, path, size, files).Ok?
    ensures AreBounded(TakeContent(rest, path, size, files).value.0)
  {
  }

  lemma EntryIsBounded(rest: Bytes, files: Files)
    requires |rest| % BLOCK == 0 && BLOCK <= |rest| && AreBounded(files) && ReadEntry(rest, files).Ok?
    ensures AreBounded(ReadEntry(rest, files).value.0)
  {
    AnnouncedIsBounded(rest[..BLOCK]);
    ContentIsBounded(rest, Announced(rest[..BLOCK]).value.0, Announced(rest[..BLOCK]).value.1, files);
  }

  lemma {:induction false} EntriesAreBounded(rest: Bytes, files: Files)
    requires |rest| % BLOCK == 0 && AreBounded(files) && ReadEntries(rest, files).Ok?
    ensures AreBounded(ReadEntries(rest, files).value) && ReadEntries(rest, files).value != map[]
    decreases |rest|
  {
    WholeBlocks(|rest|);
    if !AllZero(rest[..BLOCK]) {
      EntryIsBounded(rest, files);
      var (more, length) := ReadEntry(rest, files).value;
      EntriesAreBounded(rest[length..], more);
    }
  }

  /** Whatever the bytes, what is read is 1 to 256 files under safe paths, each valid UTF-8 of at most 2 MiB. */
  lemma ReadFilesAreBounded(tar: Bytes)
    requires ReadTar(tar).Ok?
    ensures 1 <= |ReadTar(tar).value| <= MAX_FILES && AreBounded(ReadTar(tar).value)
  {
    EntriesAreBounded(tar, map[]);
  }
}
