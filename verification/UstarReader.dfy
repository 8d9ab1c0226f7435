/** The reader as the program has it: a loop over the archive with an offset that stays on block boundaries. */
module UstarReader {
  import opened Basics
  import opened UstarText
  import opened UstarModel

  lemma NextEntry(rest: Bytes, files: Files, more: Files, length: nat)
    requires |rest| % BLOCK == 0 && rest != [] && |rest| >= BLOCK && !AllZero(rest[..BLOCK])
    requires ReadEntry(rest, files) == Ok((more, length))
    ensures 0 < length <= |rest| && |rest[length..]| % BLOCK == 0
    ensures ReadEntries(rest, files) == ReadEntries(rest[length..], more)
  {
  }

  lemma RefusedEntry(rest: Bytes, files: Files, e: Fault)
    requires |rest| % BLOCK == 0 && rest != [] && |rest| >= BLOCK && !AllZero(rest[..BLOCK])
    requires ReadEntry(rest, files) == Err(e)
    ensures ReadEntries(rest, files) == Err(e)
  {
  }

  lemma ZeroBlock(rest: Bytes, files: Files)
    requires |rest| % BLOCK == 0 && |rest| >= BLOCK && AllZero(rest[..BLOCK])
    ensures ReadEntries(rest, files) == LastFiles(rest, files)
  {
  }

  /** The loop over the archive; the offset stays on block boundaries and within the bytes. */
  method ReadBoundedTar(tar: Bytes) returns (r: Result<Files, Fault>)
    ensures r == ReadTar(tar)
  {
    if |tar| < BLOCK * 2 || |tar| > MAX_EXPANDED || |tar| % BLOCK != 0 {
      return Err(EXPANDED_SIZE_REFUSED);
    }
    var files: Files := map[];
    var offset := 0;
    var ended := false;
    ghost var left := tar;
    while offset < |tar|
      invariant offset <= |tar| && left == tar[offset..] && |left| % BLOCK == 0 && !ended
      invariant ReadTar(tar) == ReadEntries(left, files)
      decreases |tar| - offset
    {
      var rest := tar[offset..];
      WholeBlocks(|rest|);
      if AllZero(rest[..BLOCK]) {
        ZeroBlock(rest, files);
        if offset + BLOCK * 2 > |tar| || !AllZero(rest) {
          return Err(TRAILING_CONTENT_REFUSED);
        }
        ended := true;
        break;
      }
      var next := ReadEntry(rest, files);
      if next.Err? {
        RefusedEntry(rest, files, next.error);
        return Err(next.error);
      }
      var length := next.value.1;
      NextEntry(rest, files, next.value.0, length);
      left := rest[length..];
      files, offset := next.value.0, offset + length;
    }
    if !ended || files == map[] {
      return Err(TERMINATOR_REFUSED);
    }
    return Ok(files);
  }
}
