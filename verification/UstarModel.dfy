/**
 The tar reader and the writer it is paired with, on the bytes inside the gzip envelope, as functions
 of the bytes that are left. The method in UstarReader.dfy reads with an offset instead.
 */
module UstarModel {
  import opened Basics
  import opened UstarText

  const BLOCK := 512
  const MAX_EXPANDED := 20 * 1024 * 1024
  const MAX_FILE := 2 * 1024 * 1024
  const MAX_FILES := 256
  const MAX_PATH := 240
  const SPACE: Byte := 32
  const SLASH: Scalar := 47
  const BACKSLASH: Scalar := 92
  const DOT: Scalar := 46

  datatype Fault =
    | EXPANDED_SIZE_REFUSED
    | TRAILING_CONTENT_REFUSED
    | HEADER_UTF8_REFUSED
    | CHECKSUM_REFUSED
    | FILE_TYPE_REFUSED
    | MODE_REFUSED
    | EXECUTABLE_REFUSED
    | SIZE_REFUSED
    | FILE_SIZE_REFUSED
    | PATH_REFUSED
    | DUPLICATE_PATH
    | TRUNCATED
    | FILE_UTF8_REFUSED
    | FILE_COUNT_REFUSED
    | TERMINATOR_REFUSED

  type Files = map<Text, Bytes>

  predicate AllZero(b: Bytes) { forall i | 0 <= i < |b| :: b[i] == 0 }

  function Zeros(n: nat): (r: Bytes)
    ensures |r| == n && AllZero(r)
  {
    seq(n, i => 0)
  }

  // ---------- the header ----------

  function ByteSum(b: Bytes): nat {
    if b == [] then 0 else b[0] + ByteSum(b[1..])
  }

  /** The block with its checksum field blanked. */
  function Blanked(block: Bytes): (r: Bytes)
    ensures |r| == |block|
  {
    seq(|block|, i requires 0 <= i < |block| => if 148 <= i < 156 then SPACE else block[i])
  }

  function Checksum(block: Bytes): nat { ByteSum(Blanked(block)) }

  function OctalField(bytes: Bytes, code: Fault): Result<nat, Fault> {
    if Field(bytes).None? then Err(HEADER_UTF8_REFUSED)
    else match Octal(bytes) case None => Err(code) case Some(n) => Ok(n)
  }

  /** The length of the text in UTF-16 code units. */
  function Utf16Length(t: Text): nat {
    if t == [] then 0 else (if t[0] < 0x1_0000 then 1 else 2) + Utf16Length(t[1..])
  }

  /** A relative path of plain segments: none empty, none hidden, none going up. */
  predicate IsSafePath(t: Text) {
    && 1 <= Utf16Length(t) <= MAX_PATH
    && BACKSLASH !in t
    && PlainFrom(t, 0)
    && forall i {:trigger IsSlash(t, i)} | 0 <= i < |t| && IsSlash(t, i) :: PlainFrom(t, i + 1)
  }

  predicate IsSlash(t: Text, i: nat) { i < |t| && t[i] == SLASH }

  /** A segment that starts at `i` is not empty and does not begin with a dot. */
  predicate PlainFrom(t: Text, i: nat) { i < |t| && t[i] != SLASH && t[i] != DOT }

  function JoinedPath(prefix: Text, name: Text): Text {
    if prefix == [] then name else if name == [] then prefix else prefix + [SLASH] + name
  }

  /** An executable bit is set for someone. */
  predicate IsExecutable(mode: nat) { mode % 2 == 1 || mode / 8 % 2 == 1 || mode / 64 % 2 == 1 }

  function PathOf(header: Bytes): Result<Text, Fault>
    requires |header| == BLOCK
  {
    if Field(header[345..500]).None? || Field(header[0..100]).None? then Err(HEADER_UTF8_REFUSED)
    else
      var path := JoinedPath(Field(header[345..500]).value, Field(header[0..100]).value);
      if IsSafePath(path) then Ok(path) else Err(PATH_REFUSED)
  }

  /** The path and the size that a header announces. */
  function Announced(header: Bytes): (r: Result<(Text, nat), Fault>)
    requires |header| == BLOCK
    ensures r.Ok? ==> r.value.1 <= MAX_FILE
  {
    match OctalField(header[148..156], CHECKSUM_REFUSED)
    case Err(e) => Err(e)
    case Ok(expected) =>
      if Checksum(header) != expected then Err(CHECKSUM_REFUSED)
      else if header[156] != 0 && header[156] != 48 then Err(FILE_TYPE_REFUSED)
      else
        match OctalField(header[100..108], MODE_REFUSED)
        case Err(e) => Err(e)
        case Ok(mode) =>
          if IsExecutable(mode) then Err(EXECUTABLE_REFUSED)
          else
            match OctalField(header[124..136], SIZE_REFUSED)
            case Err(e) => Err(e)
            case Ok(size) =>
              if size > MAX_FILE then Err(FILE_SIZE_REFUSED)
              else match PathOf(header) case Err(e) => Err(e) case Ok(path) => Ok((path, size))
  }

  // ---------- the reader ----------

  /** The size rounded up to whole blocks. */
  function Padded(size: nat): (r: nat)
    ensures size <= r < size + BLOCK && r % BLOCK == 0
  {
    (size + BLOCK - 1) / BLOCK * BLOCK
  }

  function WithFile(files: Files, path: Text, content: Bytes): Result<Files, Fault> {
    if Decode(content).None? then Err(FILE_UTF8_REFUSED)
    else if |files[path := content]| > MAX_FILES then Err(FILE_COUNT_REFUSED)
    else Ok(files[path := content])
  }

  /** The files with the content that follows the header added under `path`, and the length of the entry. */
  function TakeContent(rest: Bytes, path: Text, size: nat, files: Files): (r: Result<(Files, nat), Fault>)
    requires |rest| % BLOCK == 0 && BLOCK <= |rest|
    ensures r.Ok? ==> 0 < r.value.1 <= |rest| && (|rest| - r.value.1) % BLOCK == 0
  {
    if path in files then Err(DUPLICATE_PATH)
    else if BLOCK + size > |rest| then Err(TRUNCATED)
    else
      match WithFile(files, path, rest[BLOCK..BLOCK + size])
      case Err(e) => Err(e)
      case Ok(more) =>
        PaddingFits(|rest|, size);
        Ok((more, BLOCK + Padded(size)))
  }

  /** The entry at the front of the rest. */
  function ReadEntry(rest: Bytes, files: Files): Result<(Files, nat), Fault>
    requires |rest| % BLOCK == 0 && BLOCK <= |rest|
  {
    match Announced(rest[..BLOCK])
    case Err(e) => Err(e)
    case Ok((path, size)) => TakeContent(rest, path, size, files)
  }

  lemma WholeBlocks(length: nat)
    requires length % BLOCK == 0 && length > 0
    ensures length >= BLOCK
  {
  }

  /** What the rest of an archive holds, after `files`. */
  function ReadEntries(rest: Bytes, files: Files): Result<Files, Fault>
    requires |rest| % BLOCK == 0
    decreases |rest|
  {
    if rest == [] then Err(TERMINATOR_REFUSED)
    else
      WholeBlocks(|rest|);
      if AllZero(rest[..BLOCK]) then LastFiles(rest, files)
      else
        match ReadEntry(rest, files)
        case Err(e) => Err(e)
        case Ok((more, length)) => ReadEntries(rest[length..], more)
  }

  /** What an archive holds that ends with `rest`, which begins with a block of zeros. */
  function LastFiles(rest: Bytes, files: Files): Result<Files, Fault> {
    if |rest| < BLOCK * 2 || !AllZero(rest) then Err(TRAILING_CONTENT_REFUSED)
    else if files == map[] then Err(TERMINATOR_REFUSED)
    else Ok(files)
  }

  /** In an archive of whole blocks, the padding of an entry that fits also fits. */
  lemma PaddingFits(length: nat, size: nat)
    requires length % BLOCK == 0 && BLOCK + size <= length
    ensures BLOCK + Padded(size) <= length && (length - BLOCK - Padded(size)) % BLOCK == 0
  {
    var blocks, used := length / BLOCK, Padded(size) / BLOCK;
    assert length == blocks * BLOCK && Padded(size) == used * BLOCK;
  }

  function ReadTar(tar: Bytes): Result<Files, Fault> {
    if |tar| < BLOCK * 2 || |tar| > MAX_EXPANDED || |tar| % BLOCK != 0 then Err(EXPANDED_SIZE_REFUSED)
    else ReadEntries(tar, map[])
  }

  // ---------- the writer ----------

  /** 644 in octal. */
  const PLAIN_MODE := 420

  function NumberField(n: nat, width: nat): (r: Bytes)
    ensures |r| == width + 1
  {
    DigitBytes(OctalDigits(n, width)) + [0]
  }

  /** Name, mode, owner, group, size and time: what stands before the checksum. */
  function Front(path: Text, size: nat): (r: Bytes)
    requires |Encode(path)| <= 100
    ensures |r| == 148
  {
    (Encode(path) + Zeros(100 - |Encode(path)|))
    + NumberField(PLAIN_MODE, 7) + NumberField(0, 7) + NumberField(0, 7) + NumberField(size, 11) + NumberField(0, 11)
  }

  const MAGIC: Bytes := [117, 115, 116, 97, 114, 0, 48, 48]

  /** Type, link name, magic and version: what stands behind the checksum. */
  function Back(): (r: Bytes)
    ensures |r| == 356
  {
    [48] + Zeros(100) + MAGIC + Zeros(247)
  }

  function Blanks(): (r: Bytes)
    ensures |r| == 8 && forall i | 0 <= i < 8 :: r[i] == SPACE
  {
    seq(8, i => SPACE)
  }

  /** The header with a blank checksum field, and then with the sum of that in it. */
  function Header(path: Text, size: nat): (r: Bytes)
    requires |Encode(path)| <= 100
    ensures |r| == BLOCK
  {
    Front(path, size) + (NumberField(ByteSum(Front(path, size) + Blanks() + Back()), 6) + [SPACE]) + Back()
  }

  datatype Entry = Entry(path: Text, content: Bytes)

  function EntryBytes(e: Entry): (r: Bytes)
    requires |Encode(e.path)| <= 100
    ensures |r| == BLOCK + Padded(|e.content|) && |r| % BLOCK == 0
  {
    BlocksAdd(BLOCK, Padded(|e.content|));
    Header(e.path, |e.content|) + e.content + Zeros(Padded(|e.content|) - |e.content|)
  }

  lemma BlocksAdd(a: nat, b: nat)
    requires a % BLOCK == 0 && b % BLOCK == 0
    ensures (a + b) % BLOCK == 0
  {
  }

  function EntriesBytes(entries: seq<Entry>): (r: Bytes)
    requires forall i | 0 <= i < |entries| :: |Encode(entries[i].path)| <= 100
    ensures |r| % BLOCK == 0
  {
    if entries == [] then []
    else
      BlocksAdd(|EntryBytes(entries[0])|, |EntriesBytes(entries[1..])|);
      EntryBytes(entries[0]) + EntriesBytes(entries[1..])
  }

  function WriteTar(entries: seq<Entry>): (r: Bytes)
    requires forall i | 0 <= i < |entries| :: |Encode(entries[i].path)| <= 100
    ensures |r| % BLOCK == 0
  {
    BlocksAdd(|EntriesBytes(entries)|, 2 * BLOCK);
    EntriesBytes(entries) + Zeros(2 * BLOCK)
  }
}
