/** The DotaTV stream: appended bytes cut into compressed frames, with the
    already framed bytes trimmed away (crates/spectre-spectator/src/dotatv.rs,
    `DotaTvStream`). */
module Streams {
  import opened Basics
  import opened Crc

  const CHUNK_SIZE := 8192
  const MAX_FRAME := CHUNK_SIZE
  const RAW_TRIM_KEEP := CHUNK_SIZE

  /** The number of the block that holds absolute offset `n`, and its end. */
  function Block(n: nat): nat {
    n / 8192
  }

  function BlockEnd(n: nat): (end: nat)
    ensures n < end <= n + CHUNK_SIZE
  {
    (Block(n) + 1) * 8192
  }

  /** The compressor, known only by what it is for. */
  datatype Zlib = Zlib(deflate: Bytes -> Bytes, inflate: Bytes -> Bytes)
  {
    ghost predicate RoundTrips() {
      forall x :: inflate(deflate(x)) == x
    }
  }

  datatype Chunk = Chunk(compressed: Bytes, validBytes: nat, crc: Word)

  datatype Outcome = Flushed(cut: nat) | ChunkTooLarge(size: nat)

  datatype Stream = Stream(raw: Bytes, rawBase: nat, frames: seq<Chunk>, framedLen: nat,
                           prologue: Bytes, prologueEnd: nat, crcReg: Word)
  {
    function Push(bytes: Bytes): Stream {
      this.(raw := raw + bytes)
    }

    function MarkPrologueEnd(): Stream {
      this.(prologueEnd := rawBase + |raw|, prologue := raw)
    }

    function PublishedLen(): nat {
      rawBase + framedLen
    }

    function PublishedCrc(): Word {
      Xor(crcReg, AllOnes)
    }

    /** Where the next frame ends inside `raw`. */
    function NextEnd(): (end: nat)
      requires framedLen < |raw|
      ensures framedLen < end <= |raw|
    {
      var start := rawBase + framedLen;
      Min(Min(rawBase + |raw|, BlockEnd(start)), start + MAX_FRAME) - rawBase
    }

    /** Publishes `raw[framedLen..end]` as one frame. */
    function Frame(end: nat, z: Zlib): Stream
      requires framedLen <= end <= |raw|
    {
      var slice := raw[framedLen..end];
      this.(frames := frames + [NewChunk(z, slice)],
            crcReg := Serial(crcReg, slice), framedLen := end)
    }

    /** The cutting loop of `flush`. */
    function CutAll(z: Zlib, cut: nat): (Stream, Outcome)
      decreases |raw| - framedLen
    {
      if framedLen >= |raw| then (this, Flushed(cut))
      else
        var end := NextEnd();
        var size := |z.deflate(raw[framedLen..end])|;
        if size > CHUNK_SIZE then (this, ChunkTooLarge(size)) else Frame(end, z).CutAll(z, cut + 1)
    }

    function Trim(): Stream {
      if RAW_TRIM_KEEP < framedLen <= |raw|
      then this.(raw := raw[framedLen..], rawBase := rawBase + framedLen, framedLen := 0) else this
    }

    function Flush(z: Zlib): (Stream, Outcome) {
      var (t, r) := CutAll(z, 0);
      if r.ChunkTooLarge? then (t, r) else (t.Trim(), r)
    }
  }

  const NewStream := Stream([], 0, [], 0, [], 0, AllOnes)

  // ---- what the frames stand for ----

  function Inflated(z: Zlib, frames: seq<Chunk>): Bytes {
    if frames == [] then [] else Inflated(z, Most(frames)) + z.inflate(Last(frames).compressed)
  }

  /** A frame for the bytes from absolute offset `start`: not empty, inside one
      block, within the size limit, and carrying its own length and CRC. */
  ghost predicate FrameOk(z: Zlib, f: Chunk, start: nat) {
    var bytes := z.inflate(f.compressed);
    && 0 < f.validBytes == |bytes|
    && Block(start) == Block(start + |bytes| - 1)
    && |f.compressed| <= CHUNK_SIZE
    && f.crc == Crc32(bytes)
  }

  ghost predicate FramesOk(z: Zlib, frames: seq<Chunk>) {
    frames == [] || (FramesOk(z, Most(frames)) && FrameOk(z, Last(frames), |Inflated(z, Most(frames))|))
  }

  /** The frames and the running CRC stand for `bytes`. */
  ghost predicate Published(z: Zlib, frames: seq<Chunk>, crcReg: Word, bytes: Bytes) {
    && FramesOk(z, frames)
    && Inflated(z, frames) == bytes
    && crcReg == Serial(AllOnes, bytes)
  }

  /** The trimmed, framed stream stands for the bytes `pushed`. */
  ghost predicate Refines(s: Stream, z: Zlib, pushed: Bytes) {
    && s.framedLen <= |s.raw|
    && s.rawBase <= |pushed| && s.raw == pushed[s.rawBase..]
    && (s.rawBase == 0 || s.rawBase > RAW_TRIM_KEEP)
    && Published(z, s.frames, s.crcReg, pushed[..s.PublishedLen()])
  }

  lemma PushRefines(s: Stream, z: Zlib, pushed: Bytes, bytes: Bytes)
    requires Refines(s, z, pushed)
    ensures Refines(s.Push(bytes), z, pushed + bytes)
  {
    ExtendedSlices(pushed, bytes, s.rawBase, s.PublishedLen());
  }

  lemma ExtendedSlices(a: Bytes, b: Bytes, from: nat, to: nat)
    requires from <= |a| && to <= |a|
    ensures (a + b)[from..] == a[from..] + b && (a + b)[..to] == a[..to]
  {
  }

  lemma FramesSnoc(z: Zlib, frames: seq<Chunk>, f: Chunk)
    ensures FramesOk(z, frames + [f]) <==> FramesOk(z, frames) && FrameOk(z, f, |Inflated(z, frames)|)
    ensures Inflated(z, frames + [f]) == Inflated(z, frames) + z.inflate(f.compressed)
  {
    assert Most(frames + [f]) == frames && Last(frames + [f]) == f;
  }

  lemma SameBlock(start: nat, end: nat)
    requires start < end <= BlockEnd(start)
    ensures Block(start) == Block(end - 1) && end - start <= CHUNK_SIZE
  {
  }

  function NewChunk(z: Zlib, slice: Bytes): Chunk {
    Chunk(z.deflate(slice), |slice| % 0x1_0000, Crc32(slice))
  }

  lemma NewChunkIsOk(z: Zlib, slice: Bytes, start: nat)
    requires z.RoundTrips()
    requires 0 < |slice| && start + |slice| <= BlockEnd(start)
    requires |z.deflate(slice)| <= CHUNK_SIZE
    ensures FrameOk(z, NewChunk(z, slice), start) && z.inflate(NewChunk(z, slice).compressed) == slice
  {
    SameBlock(start, start + |slice|);
    assert z.inflate(z.deflate(slice)) == slice;
  }

  /** One more frame. */
  lemma PublishSlice(z: Zlib, frames: seq<Chunk>, crcReg: Word, bytes: Bytes, slice: Bytes)
    requires z.RoundTrips() && Published(z, frames, crcReg, bytes)
    requires 0 < |slice| && |bytes| + |slice| <= BlockEnd(|bytes|)
    requires |z.deflate(slice)| <= CHUNK_SIZE
    ensures Published(z, frames + [NewChunk(z, slice)], Serial(crcReg, slice), bytes + slice)
  {
    NewChunkIsOk(z, slice, |bytes|);
    SerialConcat(AllOnes, bytes, slice);
    FramesSnoc(z, frames, NewChunk(z, slice));
  }

  /** The next slice, by its absolute offsets. */
  lemma SliceOfPushed(s: Stream, z: Zlib, pushed: Bytes, end: nat)
    requires Refines(s, z, pushed) && s.framedLen <= end <= |s.raw|
    ensures s.rawBase + end <= |pushed|
    ensures s.raw[s.framedLen..end] == pushed[s.PublishedLen()..s.rawBase + end]
  {
    SliceOfSuffix(pushed, s.rawBase, s.framedLen, end);
  }

  lemma SliceOfSuffix(bytes: Bytes, base: nat, from: nat, to: nat)
    requires base + to <= |bytes| && from <= to
    ensures bytes[base..][from..to] == bytes[base + from..base + to]
  {
  }

  lemma NextEndInBlock(s: Stream)
    requires s.framedLen < |s.raw|
    ensures s.rawBase + s.NextEnd() <= BlockEnd(s.PublishedLen())
  {
  }

  lemma PublishNext(z: Zlib, frames: seq<Chunk>, crcReg: Word, pushed: Bytes, a: nat, b: nat)
    requires a < b <= |pushed| && b <= BlockEnd(a)
    requires z.RoundTrips() && Published(z, frames, crcReg, pushed[..a])
    requires |z.deflate(pushed[a..b])| <= CHUNK_SIZE
    ensures Published(z, frames + [NewChunk(z, pushed[a..b])], Serial(crcReg, pushed[a..b]), pushed[..b])
  {
    PublishSlice(z, frames, crcReg, pushed[..a], pushed[a..b]);
    assert pushed[..a] + pushed[a..b] == pushed[..b];
  }

  lemma FrameRefines(s: Stream, z: Zlib, pushed: Bytes)
    requires z.RoundTrips() && Refines(s, z, pushed) && s.framedLen < |s.raw|
    requires |z.deflate(s.raw[s.framedLen..s.NextEnd()])| <= CHUNK_SIZE
    ensures Refines(s.Frame(s.NextEnd(), z), z, pushed)
  {
    var end := s.NextEnd();
    var a, b := s.PublishedLen(), s.rawBase + end;
    SliceOfPushed(s, z, pushed, end);
    var slice := pushed[a..b];
    NextEndInBlock(s);
    PublishNext(z, s.frames, s.crcReg, pushed, a, b);
    MovedRefines(s, z, pushed, s.frames + [NewChunk(z, slice)], Serial(s.crcReg, slice), end);
  }

  lemma MovedRefines(s: Stream, z: Zlib, pushed: Bytes, frames: seq<Chunk>, crcReg: Word, end: nat)
    requires Refines(s, z, pushed) && end <= |s.raw|
    requires Published(z, frames, crcReg, pushed[..s.rawBase + end])
    ensures Refines(s.(frames := frames, crcReg := crcReg, framedLen := end), z, pushed)
  {
  }

  /** Cutting frames only adds frames. */
  ghost predicate Extends(s: Stream, t: Stream) {
    && t == s.(frames := t.frames, framedLen := t.framedLen, crcReg := t.crcReg)
    && s.frames <= t.frames
  }

  /** The loop stops with everything framed, or before a chunk that does not
      fit, never in between. */
  lemma {:induction false} CutAllRefines(s: Stream, z: Zlib, pushed: Bytes, cut: nat)
    requires z.RoundTrips() && Refines(s, z, pushed)
    ensures var (t, r) := s.CutAll(z, cut);
            && Refines(t, z, pushed)
            && Extends(s, t)
            && (r.Flushed? ==> t.framedLen == |t.raw| && r.cut == cut + |t.frames| - |s.frames|)
            && (r.ChunkTooLarge? ==> t.framedLen < |t.raw|
                                     && r.size == |z.deflate(t.raw[t.framedLen..t.NextEnd()])| > CHUNK_SIZE)
    decreases |s.raw| - s.framedLen
  {
    if s.framedLen < |s.raw| && |z.deflate(s.raw[s.framedLen..s.NextEnd()])| <= CHUNK_SIZE {
      FrameRefines(s, z, pushed);
      var u := s.Frame(s.NextEnd(), z);
      CutAllRefines(u, z, pushed, cut + 1);
      assert s.CutAll(z, cut) == u.CutAll(z, cut + 1);
      assert Extends(s, u);
    }
  }

  lemma TrimRefines(s: Stream, z: Zlib, pushed: Bytes)
    requires Refines(s, z, pushed)
    ensures Refines(s.Trim(), z, pushed)
  {
    if RAW_TRIM_KEEP < s.framedLen {
      DropDrop(pushed, s.rawBase, s.framedLen);
    }
  }

  /** A flush publishes without changing what the stream stands for; when it
      succeeds nothing is pending and at most 8192 bytes are retained. */
  lemma FlushRefines(s: Stream, z: Zlib, pushed: Bytes)
    requires z.RoundTrips() && Refines(s, z, pushed)
    ensures var (t, r) := s.Flush(z);
            && Refines(t, z, pushed)
            && s.frames <= t.frames
            && t.prologue == s.prologue && t.prologueEnd == s.prologueEnd
            && (r.Flushed? ==> t.PublishedLen() == |pushed| && t.framedLen == |t.raw| <= RAW_TRIM_KEEP)
            && (r.ChunkTooLarge? ==> t.PublishedLen() < |pushed|)
  {
    CutAllRefines(s, z, pushed, 0);
    TrimRefines(s.CutAll(z, 0).0, z, pushed);
  }

  lemma MarkRefines(s: Stream, z: Zlib, pushed: Bytes)
    requires Refines(s, z, pushed)
    ensures Refines(s.MarkPrologueEnd(), z, pushed)
  {
  }

  // ---- runs ----

  datatype Op = DoPush(bytes: Bytes) | DoFlush | DoMark

  function Apply(s: Stream, op: Op, z: Zlib): Stream {
    match op
    case DoPush(bytes) => s.Push(bytes)
    case DoFlush => s.Flush(z).0
    case DoMark => s.MarkPrologueEnd()
  }

  function ApplyAll(s: Stream, ops: seq<Op>, z: Zlib): Stream {
    if ops == [] then s else Apply(ApplyAll(s, Most(ops), z), Last(ops), z)
  }

  /** Everything pushed by `ops`. */
  function PushedBy(ops: seq<Op>): Bytes {
    if ops == [] then [] else PushedBy(Most(ops)) + (if Last(ops).DoPush? then Last(ops).bytes else [])
  }

  lemma {:induction false} RunKeepsRefining(z: Zlib, ops: seq<Op>)
    requires z.RoundTrips()
    ensures Refines(ApplyAll(NewStream, ops, z), z, PushedBy(ops))
  {
    if ops != [] {
      RunKeepsRefining(z, Most(ops));
      ApplyRefines(ApplyAll(NewStream, Most(ops), z), z, PushedBy(Most(ops)), Last(ops));
    } else {
      NewRefines(z);
    }
  }

  lemma NewRefines(z: Zlib)
    ensures Refines(NewStream, z, [])
  {
  }

  lemma ApplyRefines(s: Stream, z: Zlib, pushed: Bytes, op: Op)
    requires z.RoundTrips() && Refines(s, z, pushed)
    ensures Refines(Apply(s, op, z), z, pushed + if op.DoPush? then op.bytes else [])
  {
    match op {
      case DoPush(bytes) => PushRefines(s, z, pushed, bytes);
      case DoFlush => FlushRefines(s, z, pushed);
      case DoMark => MarkRefines(s, z, pushed);
    }
    assert pushed + [] == pushed;
  }

  /** Stream refinement: after any sequence of operations, failed flushes
      included, the inflated frames followed by the unframed tail are all bytes
      ever pushed, every frame is well formed, and the published CRC is the
      bit-serial CRC-32 of everything published. */
  lemma RunRefines(z: Zlib, ops: seq<Op>)
    requires z.RoundTrips()
    ensures var s := ApplyAll(NewStream, ops, z);
            && s.framedLen <= |s.raw|
            && Inflated(z, s.frames) + s.raw[s.framedLen..] == PushedBy(ops)
            && FramesOk(z, s.frames)
            && s.PublishedLen() == |Inflated(z, s.frames)|
            && s.PublishedCrc() == Crc32(Inflated(z, s.frames))
  {
    RunKeepsRefining(z, ops);
    TailIsPending(ApplyAll(NewStream, ops, z), z, PushedBy(ops));
  }

  lemma TailIsPending(s: Stream, z: Zlib, pushed: Bytes)
    requires Refines(s, z, pushed)
    ensures Inflated(z, s.frames) + s.raw[s.framedLen..] == pushed
    ensures FramesOk(z, s.frames) && s.PublishedLen() == |Inflated(z, s.frames)|
    ensures s.PublishedCrc() == Crc32(Inflated(z, s.frames))
  {
    HeadAndTail(pushed, s.rawBase, s.framedLen);
  }

  lemma HeadAndTail(pushed: Bytes, base: nat, n: nat)
    requires base + n <= |pushed|
    ensures pushed[..base + n] + pushed[base..][n..] == pushed
  {
    DropDrop(pushed, base, n);
  }

  /** After a flush that succeeded, everything pushed is published and at most
      one block is still held in memory. */
  lemma SuccessfulFlushPublishesAll(z: Zlib, ops: seq<Op>)
    requires z.RoundTrips() && ApplyAll(NewStream, ops, z).Flush(z).1.Flushed?
    ensures var t := ApplyAll(NewStream, ops, z).Flush(z).0;
            && Inflated(z, t.frames) == PushedBy(ops)
            && t.framedLen == |t.raw| <= RAW_TRIM_KEEP
            && ApplyAll(NewStream, ops, z).frames <= t.frames
  {
    RunKeepsRefining(z, ops);
    FlushRefines(ApplyAll(NewStream, ops, z), z, PushedBy(ops));
  }

  // ---- the stream, updated in place ----

  /** `pushed` is everything ever pushed; `raw` is the end of it that is still
      held. */
  class DotaTvStream {
    var raw: Bytes
    var rawBase: nat
    var frames: seq<Chunk>
    var framedLen: nat
    var prologue: Bytes
    var prologueEnd: nat
    var crcReg: Word
    const table: seq<Word>
    const zlib: Zlib
    ghost var pushed: Bytes

    function Model(): Stream
      reads this
    {
      Stream(raw, rawBase, frames, framedLen, prologue, prologueEnd, crcReg)
    }

    ghost predicate Valid()
      reads this
    {
      IsTable(table) && framedLen <= |raw| && rawBase <= |pushed| && raw == pushed[rawBase..]
    }

    constructor (zlib: Zlib)
      ensures Valid() && Model() == NewStream && this.zlib == zlib && pushed == []
    {
      pushed := [];
      raw, rawBase, frames, framedLen, prologue, prologueEnd := [], 0, [], 0, [], 0;
      crcReg := AllOnes;
      var t := CrcTable();
      table := t;
      this.zlib := zlib;
    }

    method PushBody(bytes: Bytes)
      requires Valid()
      modifies this
      ensures Valid() && Model() == old(Model()).Push(bytes) && pushed == old(pushed) + bytes
    {
      raw := raw + bytes;
      pushed := pushed + bytes;
    }

    /** The snapshot is what is still held of all that was pushed; it is all of
        it exactly when nothing has been trimmed away yet. */
    method MarkPrologueEnd()
      requires Valid()
      modifies this
      ensures Valid() && Model() == old(Model()).MarkPrologueEnd() && pushed == old(pushed)
      ensures prologueEnd == |pushed| && prologue == pushed[rawBase..]
      ensures prologue == pushed <==> rawBase == 0
    {
      prologueEnd := rawBase + |raw|;
      prologue := raw;
    }

    method GetPublishedLen() returns (n: nat)
      ensures n == Model().PublishedLen() && (Valid() ==> n <= |pushed|)
    {
      n := rawBase + framedLen;
    }

    method GetPublishedCrc() returns (crc: Word)
      ensures crc == Model().PublishedCrc()
    {
      crc := Xor(crcReg, AllOnes);
    }

    method NewFrame(slice: Bytes, compressed: Bytes) returns (f: Chunk)
      requires IsTable(table) && compressed == zlib.deflate(slice)
      ensures f == NewChunk(zlib, slice)
    {
      var reg := CrcPush(AllOnes, slice, table);
      f := Chunk(compressed, |slice| % 0x1_0000, Xor(reg, AllOnes));
    }

    /** One iteration of the cutting loop; the size is that of a chunk that
        does not fit. */
    method CutFrame() returns (tooLarge: Option<nat>)
      requires Valid() && framedLen < |raw|
      modifies this
      ensures var s := old(Model());
              var size := |zlib.deflate(s.raw[s.framedLen..s.NextEnd()])|;
              if size > CHUNK_SIZE then tooLarge == Some(size) && Model() == s
              else tooLarge == None && Model() == s.Frame(s.NextEnd(), zlib)
      ensures Valid() && pushed == old(pushed)
    {
      var start := rawBase + framedLen;
      var blockEnd := (start / 8192 + 1) * 8192;
      var end := Min(Min(rawBase + |raw|, blockEnd), start + MAX_FRAME) - rawBase;
      assert end == Model().NextEnd();
      var slice := raw[framedLen..end];
      var compressed := zlib.deflate(slice);
      if |compressed| > CHUNK_SIZE {
        return Some(|compressed|);
      }
      var f := NewFrame(slice, compressed);
      frames := frames + [f];
      crcReg := CrcPush(crcReg, slice, table);
      framedLen := end;
      return None;
    }

    method Flush() returns (r: Outcome)
      requires Valid()
      modifies this
      ensures Valid() && (Model(), r) == old(Model()).Flush(zlib) && pushed == old(pushed)
    {
      var cut: nat := 0;
      while framedLen < |raw|
        invariant Valid() && pushed == old(pushed)
        invariant old(Model()).CutAll(zlib, 0) == Model().CutAll(zlib, cut)
        decreases |raw| - framedLen
      {
        var tooLarge := CutFrame();
        if tooLarge.Some? {
          return ChunkTooLarge(tooLarge.value);
        }
        cut := cut + 1;
      }
      TrimFramed();
      r := Flushed(cut);
    }

    method TrimFramed()
      requires Valid()
      modifies this
      ensures Valid() && Model() == old(Model()).Trim() && pushed == old(pushed)
    {
      if framedLen > RAW_TRIM_KEEP {
        DropDrop(pushed, rawBase, framedLen);
        raw := raw[framedLen..];
        rawBase := rawBase + framedLen;
        framedLen := 0;
      }
    }
  }
}
