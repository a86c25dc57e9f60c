/** The replay container: a 68-byte header and compressed blocks
    (crates/spectre-spectator/src/w3g.rs, `emit`,
    `pack_chunk_aligned_declaring`), with a reader to compare it to. */
module W3g {
  import opened Basics
  import opened Wire
  import opened Crc
  import opened Streams

  const HEADER_SIZE := 68
  const BLOCK_SIZE := 8192
  const FLAGS_MULTIPLAYER := 0xC000

  /** "Warcraft III recorded game", 0x1A, 0. */
  const Magic: Bytes := [0x57, 0x61, 0x72, 0x63, 0x72, 0x61, 0x66, 0x74, 0x20, 0x49, 0x49, 0x49, 0x20, 0x72, 0x65,
                         0x63, 0x6F, 0x72, 0x64, 0x65, 0x64, 0x20, 0x67, 0x61, 0x6D, 0x65, 0x1A, 0x00]

  datatype Writer = Writer(version: nat, build: nat, tft: bool, replayLength: nat)
  {
    function Tag(): (tag: Bytes)
      ensures |tag| == 4
    {
      if tft then [0x50, 0x58, 0x33, 0x57] else [0x33, 0x52, 0x41, 0x57]
    }

    /** The header up to its checksum. */
    function Fields(fileSize: nat, declared: nat, count: nat): (h: Bytes)
      ensures |h| == 64
    {
      Magic + Le(HEADER_SIZE, 4) + Le(fileSize, 4) + Le(1, 4) + Le(declared, 4) + Le(count, 4) + Tag()
      + Le(version, 4) + Le(build, 2) + Le(FLAGS_MULTIPLAYER, 2) + Le(replayLength, 4)
    }

    function Header(fileSize: nat, declared: nat, count: nat): (h: Bytes)
      ensures |h| == 68
    {
      var fields := Fields(fileSize, declared, count);
      fields + Le(Number(Crc32(fields + Le(0, 4))), 4)
    }

    function Emit(z: Zlib, padded: Bytes, declared: nat): Bytes {
      var blocks := Blocks(z, padded);
      Header(HEADER_SIZE + |blocks|, declared, |padded| / 8192) + blocks
    }

    /** None when the body is not made of whole blocks or is shorter than what
        it is declared to be. */
    function PackChunkAligned(z: Zlib, body: Bytes, declared: nat): Option<Bytes> {
      if |body| % 8192 != 0 || declared > |body| then None else Some(Emit(z, body, declared))
    }
  }

  /** `c ^ (c >> 16)`, low half. */
  function Folded(c: Word): seq<bool> {
    Xor(c, ShiftRight(c, 16))[..16]
  }

  function BlockBytes(z: Zlib, chunk: Bytes): (b: Bytes)
    ensures |b| == 8 + |z.deflate(chunk)|
  {
    var data := z.deflate(chunk);
    var sizes := Le(|data|, 2) + Le(BLOCK_SIZE, 2);
    var crc := Folded(Crc32(sizes + Le(0, 4))) + Folded(Crc32(data));
    sizes + Le(Number(crc), 4) + data
  }

  function Blocks(z: Zlib, padded: Bytes): Bytes {
    if |padded| < 8192 then [] else BlockBytes(z, padded[..8192]) + Blocks(z, padded[8192..])
  }

  // ---- reading it back ----

  /** Inflates `count` blocks, trusting the sizes in their headers. */
  function ReadBlocks(z: Zlib, bytes: Bytes, count: nat): Option<Bytes> {
    if count == 0 then Some([])
    else if |bytes| < 8 then None
    else
      var size := FromLe(bytes[..2]);
      if |bytes| < 8 + size then None
      else
        match ReadBlocks(z, bytes[8 + size..], count - 1)
        case None => None
        case Some(rest) => Some(z.inflate(bytes[8..8 + size]) + rest)
  }

  function Read(z: Zlib, file: Bytes): Option<Bytes> {
    if |file| < 68 || file[..28] != Magic then None else ReadBlocks(z, file[68..], FromLe(file[44..48]))
  }

  /** Every compressed block fits the 16-bit size field. */
  ghost predicate Fits(z: Zlib, padded: Bytes) {
    |padded| >= 8192 ==> |z.deflate(padded[..8192])| <= U16_MAX && Fits(z, padded[8192..])
  }

  lemma BlockLayout(z: Zlib, chunk: Bytes, rest: Bytes)
    requires |z.deflate(chunk)| <= U16_MAX
    ensures var bytes := BlockBytes(z, chunk) + rest;
            var size := |z.deflate(chunk)|;
            && |bytes| >= 8 + size
            && FromLe(bytes[..2]) == size
            && bytes[8..8 + size] == z.deflate(chunk)
            && bytes[8 + size..] == rest
  {
    var data := z.deflate(chunk);
    var bytes := BlockBytes(z, chunk) + rest;
    assert bytes[..2] == Le(|data|, 2);
    assert Pow256(2) == 65536;
    LeRoundTrip(|data|, 2);
  }

  lemma ReadOneBlock(z: Zlib, chunk: Bytes, rest: Bytes, count: nat, tail: Bytes)
    requires z.RoundTrips() && |z.deflate(chunk)| <= U16_MAX
    requires ReadBlocks(z, rest, count) == Some(tail)
    ensures ReadBlocks(z, BlockBytes(z, chunk) + rest, count + 1) == Some(chunk + tail)
  {
    BlockLayout(z, chunk, rest);
  }

  lemma {:induction false} ReadBlocksRoundTrip(z: Zlib, padded: Bytes, count: nat)
    requires z.RoundTrips() && |padded| == 8192 * count && Fits(z, padded)
    ensures ReadBlocks(z, Blocks(z, padded), count) == Some(padded)
    decreases count
  {
    if count > 0 {
      ReadBlocksRoundTrip(z, padded[8192..], count - 1);
      ReadFirstBlock(z, padded, count - 1);
    }
  }

  lemma ReadFirstBlock(z: Zlib, padded: Bytes, count: nat)
    requires z.RoundTrips() && |padded| >= 8192 && |z.deflate(padded[..8192])| <= U16_MAX
    requires ReadBlocks(z, Blocks(z, padded[8192..]), count) == Some(padded[8192..])
    ensures ReadBlocks(z, Blocks(z, padded), count + 1) == Some(padded)
  {
    FirstBlock(z, padded);
    ReadOneBlock(z, padded[..8192], Blocks(z, padded[8192..]), count, padded[8192..]);
  }

  lemma FirstBlock(z: Zlib, padded: Bytes)
    requires |padded| >= 8192
    ensures Blocks(z, padded) == BlockBytes(z, padded[..8192]) + Blocks(z, padded[8192..])
    ensures padded[..8192] + padded[8192..] == padded
  {
  }

  lemma FieldAt(file: Bytes, before: Bytes, field: Bytes)
    requires before + field <= file
    ensures file[|before|..|before| + |field|] == field
  {
  }

  lemma HeaderFields(w: Writer, fileSize: nat, declared: nat, count: nat, blocks: Bytes)
    ensures var file := w.Header(fileSize, declared, count) + blocks;
            && |file| == 68 + |blocks| && file[68..] == blocks
            && file[..28] == Magic
            && file[32..36] == Le(fileSize, 4)
            && file[40..44] == Le(declared, 4)
            && file[44..48] == Le(count, 4)
            && file[60..64] == Le(w.replayLength, 4)
  {
    var fields := w.Fields(fileSize, declared, count);
    FieldPositions(fields, Magic + Le(HEADER_SIZE, 4), Le(fileSize, 4), Le(1, 4), Le(declared, 4), Le(count, 4),
                   w.Tag(), Le(w.version, 4), Le(w.build, 2), Le(FLAGS_MULTIPLAYER, 2), Le(w.replayLength, 4));
    MagicFirst(w, fileSize, declared, count);
    var file := w.Header(fileSize, declared, count) + blocks;
    assert file[..64] == fields;
    assert file[..28] == fields[..28] && file[32..36] == fields[32..36] && file[40..44] == fields[40..44]
        && file[44..48] == fields[44..48] && file[60..64] == fields[60..64];
  }

  lemma MagicFirst(w: Writer, fileSize: nat, declared: nat, count: nat)
    ensures w.Fields(fileSize, declared, count)[..28] == Magic
  {
  }

  /** Fields behind a head of 32 bytes, each where the ones before it end. */
  lemma FieldPositions(fields: Bytes, head: Bytes, a: Bytes, b: Bytes, c: Bytes, d: Bytes,
                       tag: Bytes, version: Bytes, build: Bytes, flags: Bytes, last: Bytes)
    requires |head| == 32 && |a| == |b| == |c| == |d| == |tag| == |version| == |last| == 4 && |build| == |flags| == 2
    requires fields == head + a + b + c + d + tag + version + build + flags + last
    ensures fields[32..36] == a && fields[40..44] == c && fields[44..48] == d && fields[60..64] == last
  {
    FieldAt(head + a + b, head, a);
    FieldAt(head + a + b + c + d, head + a + b, c);
    FieldAt(head + a + b + c + d, head + a + b + c, d);
    assert fields[..48] == head + a + b + c + d;
    assert fields[60..] == last;
    assert fields[32..36] == fields[..48][32..36] && fields[40..44] == fields[..48][40..44] && fields[44..48] == fields[..48][44..48];
  }

  lemma FourBytes(n: nat)
    requires n < U32_MODULUS
    ensures FromLe(Le(n, 4)) == n
  {
    assert Pow256(4) == U32_MODULUS;
    LeRoundTrip(n, 4);
  }

  lemma EmittedFields(w: Writer, z: Zlib, body: Bytes, declared: nat)
    requires |w.Emit(z, body, declared)| < U32_MODULUS && |body| < U32_MODULUS && w.replayLength < U32_MODULUS
    requires declared <= |body|
    ensures var file := w.Emit(z, body, declared);
            && |file| >= 68 && file[..28] == Magic && file[68..] == Blocks(z, body)
            && FromLe(file[32..36]) == |file|
            && FromLe(file[40..44]) == declared
            && FromLe(file[44..48]) == |body| / 8192
            && FromLe(file[60..64]) == w.replayLength
  {
    var blocks, count := Blocks(z, body), |body| / 8192;
    HeaderFields(w, HEADER_SIZE + |blocks|, declared, count, blocks);
    FourBytes(HEADER_SIZE + |blocks|);
    FourBytes(declared);
    FourBytes(count);
    FourBytes(w.replayLength);
  }

  /** Round trip: a packed body of whole blocks is read back unchanged, and the
      header carries the file's size, the declared length and the replay
      length. */
  lemma PackedBodyIsReadBack(w: Writer, z: Zlib, body: Bytes, declared: nat)
    requires z.RoundTrips() && Fits(z, body)
    requires |body| % 8192 == 0 && declared <= |body|
    requires |w.Emit(z, body, declared)| < U32_MODULUS && |body| < U32_MODULUS && w.replayLength < U32_MODULUS
    ensures var packed := w.PackChunkAligned(z, body, declared);
            && packed.Some? && |packed.value| >= 68
            && Read(z, packed.value) == Some(body)
            && FromLe(packed.value[32..36]) == |packed.value|
            && FromLe(packed.value[40..44]) == declared
            && FromLe(packed.value[60..64]) == w.replayLength
  {
    EmittedFields(w, z, body, declared);
    ReadBlocksRoundTrip(z, body, |body| / 8192);
  }
}
