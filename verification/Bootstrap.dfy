/** What a late viewer is given to start from: a block-aligned body made of the
    prologue snapshot, and the index of the frame to continue with
    (crates/spectre-spectator/src/dotatv.rs, `bootstrap`, `bootstrap_full`). */
module Bootstrap {
  import opened Basics
  import opened Wire
  import opened Crc
  import opened Streams
  import opened W3g

  const EmptyTimeslot: Bytes := [0x1F, 0x02, 0x00, 0x00, 0x00]

  /** `n.div_ceil(CHUNK_SIZE) * CHUNK_SIZE`. */
  function Aligned(n: nat): (a: nat)
    ensures n <= a < n + CHUNK_SIZE && a % 8192 == 0
  {
    (n + 8191) / 8192 * 8192
  }

  /** The padding loop. */
  function FillSlots(body: Bytes, aligned: nat): Bytes
    decreases aligned - |body|
  {
    if |body| + |EmptyTimeslot| <= aligned then FillSlots(body + EmptyTimeslot, aligned) else body
  }

  /** `Vec::resize(n, 0)`. */
  function Resize(body: Bytes, n: nat): (r: Bytes)
    ensures |r| == n
  {
    if n <= |body| then body[..n] else body + ZeroBytes(n - |body|)
  }

  function Padded(body: Bytes, aligned: nat): Bytes {
    Resize(FillSlots(body, aligned), aligned)
  }

  function Prefix(s: Stream): nat {
    Min(s.prologueEnd, s.PublishedLen())
  }

  /** The body packed by `bootstrap`. */
  function Body(s: Stream): Bytes {
    Padded(s.prologue[..Min(Prefix(s), |s.prologue|)], Aligned(Prefix(s)))
  }

  /** The search for the first frame past the prefix. */
  function ResumeFrom(frames: seq<Chunk>, prefix: nat, i: nat, covered: nat): nat
    requires i <= |frames|
    decreases |frames| - i
  {
    if i == |frames| || covered >= prefix then i
    else ResumeFrom(frames, prefix, i + 1, covered + frames[i].validBytes)
  }

  function Resume(s: Stream): nat {
    ResumeFrom(s.frames, Prefix(s), 0, 0)
  }

  // ---- the padding ----

  function Slots(n: nat): Bytes {
    if n == 0 then [] else EmptyTimeslot + Slots(n - 1)
  }

  lemma {:induction false} FillSlotsShape(body: Bytes, aligned: nat) returns (n: nat)
    requires |body| <= aligned
    ensures FillSlots(body, aligned) == body + Slots(n)
    ensures aligned - 5 < |FillSlots(body, aligned)| <= aligned
    decreases aligned - |body|
  {
    if |body| + 5 <= aligned {
      n := FillSlotsShape(body + EmptyTimeslot, aligned);
      assert body + EmptyTimeslot + Slots(n) == body + (EmptyTimeslot + Slots(n));
      n := n + 1;
    } else {
      n := 0;
      assert body + [] == body;
    }
  }

  /** The padded body is the body, then empty timeslots, then fewer than five
      zero bytes, up to the requested length. */
  lemma PaddedShape(body: Bytes, aligned: nat) returns (slots: nat, zeros: nat)
    requires |body| <= aligned
    ensures Padded(body, aligned) == body + Slots(slots) + ZeroBytes(zeros)
    ensures zeros < 5 && |Padded(body, aligned)| == aligned
  {
    slots := FillSlotsShape(body, aligned);
    zeros := aligned - |body + Slots(slots)|;
    if zeros == 0 {
      assert Padded(body, aligned) == body + Slots(slots) + [];
    }
  }

  /** The `expect` in `bootstrap` is never reached with None, in any state. */
  lemma BodyIsPackable(s: Stream, w: Writer, z: Zlib)
    ensures w.PackChunkAligned(z, Body(s), Aligned(Prefix(s))).Some?
  {
  }

  // ---- resuming ----

  lemma {:induction false} InflatedConcat(z: Zlib, a: seq<Chunk>, b: seq<Chunk>)
    ensures Inflated(z, a + b) == Inflated(z, a) + Inflated(z, b)
    decreases |b|
  {
    if b == [] {
      assert a + b == a;
    } else {
      InflatedConcat(z, a, Most(b));
      assert Most(a + b) == a + Most(b) && Last(a + b) == Last(b);
    }
  }

  lemma InflatedUpTo(z: Zlib, frames: seq<Chunk>, i: nat)
    requires i < |frames|
    ensures Inflated(z, frames[..i + 1]) == Inflated(z, frames[..i]) + z.inflate(frames[i].compressed)
  {
    assert Most(frames[..i + 1]) == frames[..i] && Last(frames[..i + 1]) == frames[i];
  }

  lemma {:induction false} FramesOkAt(z: Zlib, frames: seq<Chunk>, i: nat)
    requires FramesOk(z, frames) && i < |frames|
    ensures FrameOk(z, frames[i], |Inflated(z, frames[..i])|)
  {
    if i == |frames| - 1 {
      assert frames[..i] == Most(frames);
    } else {
      FramesOkAt(z, Most(frames), i);
      assert Most(frames)[..i] == frames[..i];
    }
  }

  /** How many bytes the first `i` frames cover. */
  ghost function Covered(z: Zlib, frames: seq<Chunk>, i: nat): nat
    requires i <= |frames|
  {
    |Inflated(z, frames[..i])|
  }

  lemma CoveredStep(z: Zlib, frames: seq<Chunk>, i: nat)
    requires FramesOk(z, frames) && i < |frames|
    ensures Covered(z, frames, i + 1) == Covered(z, frames, i) + frames[i].validBytes
    ensures frames[i].validBytes > 0
  {
    FramesOkAt(z, frames, i);
    InflatedUpTo(z, frames, i);
  }

  lemma {:induction false} CoveredGrows(z: Zlib, frames: seq<Chunk>, i: nat, k: nat)
    requires FramesOk(z, frames) && i < k <= |frames|
    ensures Covered(z, frames, i) < Covered(z, frames, k)
    decreases k
  {
    CoveredStep(z, frames, k - 1);
    if i < k - 1 {
      CoveredGrows(z, frames, i, k - 1);
    }
  }

  /** The search finds the frame boundary at the end of the prefix. */
  lemma {:induction false} ResumeFindsBoundary(z: Zlib, frames: seq<Chunk>, k: nat, i: nat, covered: nat)
    requires FramesOk(z, frames) && i <= k <= |frames| && covered == Covered(z, frames, i)
    ensures ResumeFrom(frames, Covered(z, frames, k), i, covered) == k
    decreases k - i
  {
    if i < k {
      CoveredGrows(z, frames, i, k);
      CoveredStep(z, frames, i);
      ResumeFindsBoundary(z, frames, k, i + 1, covered + frames[i].validBytes);
    }
  }

  // ---- the hand-off ----

  /** The prologue `p` was marked when its last byte had just been framed. */
  ghost predicate Marked(s: Stream, z: Zlib, p: Bytes, k: nat) {
    && s.prologueEnd == |p|
    && (s.prologue == p <==> |p| <= CHUNK_SIZE)
    && k <= |s.frames| && Inflated(z, s.frames[..k]) == p
  }

  /** The snapshot taken after a successful flush is the whole of what was
      pushed so far exactly when that is at most one block. */
  lemma SnapshotIsWholeIffOneBlock(s: Stream, z: Zlib, pushed: Bytes)
    requires Refines(s, z, pushed) && s.framedLen == |s.raw| <= RAW_TRIM_KEEP
    ensures Marked(s.MarkPrologueEnd(), z, pushed, |s.frames|)
  {
    assert s.frames[..|s.frames|] == s.frames;
    assert pushed[..|pushed|] == pushed;
    if s.rawBase == 0 {
      assert pushed[0..] == pushed;
    } else {
      assert |s.raw| < |pushed|;
    }
  }

  lemma GrowingKeepsMark(s: Stream, t: Stream, z: Zlib, p: Bytes, k: nat)
    requires Marked(s, z, p, k)
    requires s.frames <= t.frames && t.prologue == s.prologue && t.prologueEnd == s.prologueEnd
    ensures Marked(t, z, p, k)
  {
    assert t.frames[..k] == s.frames[..k];
  }

  lemma ApplyKeepsMark(s: Stream, z: Zlib, pushed: Bytes, p: Bytes, k: nat, op: Op)
    requires z.RoundTrips() && Refines(s, z, pushed) && Marked(s, z, p, k) && !op.DoMark?
    ensures Marked(Apply(s, op, z), z, p, k) && Apply(s, op, z).prologue == s.prologue
  {
    if op.DoFlush? {
      FlushRefines(s, z, pushed);
    }
    GrowingKeepsMark(s, Apply(s, op, z), z, p, k);
  }

  lemma {:induction false} StaysMarked(s: Stream, z: Zlib, pushed: Bytes, p: Bytes, k: nat, later: seq<Op>)
    requires z.RoundTrips() && Refines(s, z, pushed) && Marked(s, z, p, k) && DoMark !in later
    ensures Refines(ApplyAll(s, later, z), z, pushed + PushedBy(later))
    ensures Marked(ApplyAll(s, later, z), z, p, k)
    ensures ApplyAll(s, later, z).prologue == s.prologue
  {
    if later == [] {
      assert pushed + [] == pushed;
    } else {
      StaysMarked(s, z, pushed, p, k, Most(later));
      var t, op, all := ApplyAll(s, Most(later), z), Last(later), pushed + PushedBy(Most(later));
      assert op in later;
      ApplyRefines(t, z, all, op);
      ApplyKeepsMark(t, z, all, p, k, op);
      Associate(pushed, PushedBy(Most(later)), if op.DoPush? then op.bytes else []);
    }
  }

  /** A marked stream hands over the snapshot and the frames after it. */
  lemma MarkedHandsOver(s: Stream, z: Zlib, pushed: Bytes, p: Bytes, k: nat)
    requires Refines(s, z, pushed) && Marked(s, z, p, k) && |p| <= CHUNK_SIZE
    ensures Body(s) == Padded(p, Aligned(|p|))
    ensures Resume(s) == k && p + Inflated(z, s.frames[k..]) == Inflated(z, s.frames)
  {
    assert s.frames[..k] <= s.frames;
    LaterFramesContinue(z, s.frames[..k], s.frames);
    assert p[..|p|] == p;
    assert s.frames[..0] == [];
    ResumeFindsBoundary(z, s.frames, k, 0, 0);
    assert Prefix(s) == |p|;
  }

  /** Bootstrap hand-off: after any operations `before` ended by a successful
      flush and the mark, every later bootstrap gives the same body, however
      much was pushed, flushed and trimmed since, and an index from which the
      frames continue the prologue to exactly the published bytes. */
  lemma BootstrapHandsOver(z: Zlib, before: seq<Op>, later: seq<Op>)
    requires z.RoundTrips() && ApplyAll(NewStream, before, z).Flush(z).1.Flushed?
    requires |PushedBy(before)| <= CHUNK_SIZE && DoMark !in later
    ensures var p := PushedBy(before);
            var s := ApplyAll(ApplyAll(NewStream, before, z).Flush(z).0.MarkPrologueEnd(), later, z);
            && Body(s) == Padded(p, Aligned(|p|))
            && Resume(s) <= |s.frames|
            && p + Inflated(z, s.frames[Resume(s)..]) == Inflated(z, s.frames)
            && Inflated(z, s.frames) <= p + PushedBy(later)
  {
    var s0, p := ApplyAll(NewStream, before, z), PushedBy(before);
    RunKeepsRefining(z, before);
    FlushRefines(s0, z, p);
    var s1 := s0.Flush(z).0;
    SnapshotIsWholeIffOneBlock(s1, z, p);
    MarkRefines(s1, z, p);
    StaysMarked(s1.MarkPrologueEnd(), z, p, p, |s1.frames|, later);
    MarkedHandsOver(ApplyAll(s1.MarkPrologueEnd(), later, z), z, p + PushedBy(later), p, |s1.frames|);
  }

  /** The premise is exact: the snapshot a later bootstrap works from is the
      prologue if and only if the prologue is at most one block. */
  lemma SnapshotKeptIff(z: Zlib, before: seq<Op>, later: seq<Op>)
    requires z.RoundTrips() && ApplyAll(NewStream, before, z).Flush(z).1.Flushed? && DoMark !in later
    ensures var s := ApplyAll(ApplyAll(NewStream, before, z).Flush(z).0.MarkPrologueEnd(), later, z);
            s.prologue == PushedBy(before) <==> |PushedBy(before)| <= CHUNK_SIZE
  {
    var s0, p := ApplyAll(NewStream, before, z), PushedBy(before);
    RunKeepsRefining(z, before);
    FlushRefines(s0, z, p);
    var s1 := s0.Flush(z).0;
    SnapshotIsWholeIffOneBlock(s1, z, p);
    MarkRefines(s1, z, p);
    StaysMarked(s1.MarkPrologueEnd(), z, p, p, |s1.frames|, later);
  }

  // ---- the full bootstrap ----

  function FullBody(s: Stream, z: Zlib): Bytes {
    Padded(Inflated(z, s.frames), Aligned(|Inflated(z, s.frames)|))
  }

  /** The full bootstrap carries everything published at that moment, and the
      frames still to come continue it. */
  lemma FullBootstrapIsComplete(z: Zlib, ops: seq<Op>, later: seq<Op>)
    requires z.RoundTrips()
    ensures var s := ApplyAll(NewStream, ops, z);
            var t := ApplyAll(s, later, z);
            && Inflated(z, s.frames) <= FullBody(s, z) && |FullBody(s, z)| == Aligned(|Inflated(z, s.frames)|)
            && s.frames <= t.frames
            && Inflated(z, s.frames) + Inflated(z, t.frames[|s.frames|..]) == Inflated(z, t.frames)
  {
    RunKeepsRefining(z, ops);
    var s := ApplyAll(NewStream, ops, z);
    var t := ApplyAll(s, later, z);
    FramesOnlyGrow(s, z, PushedBy(ops), later);
    PaddedExtends(Inflated(z, s.frames));
    LaterFramesContinue(z, s.frames, t.frames);
  }

  lemma PaddedExtends(body: Bytes)
    ensures body <= Padded(body, Aligned(|body|)) && |Padded(body, Aligned(|body|))| == Aligned(|body|)
  {
    var slots, zeros := PaddedShape(body, Aligned(|body|));
  }

  lemma LaterFramesContinue(z: Zlib, frames: seq<Chunk>, more: seq<Chunk>)
    requires frames <= more
    ensures Inflated(z, frames) + Inflated(z, more[|frames|..]) == Inflated(z, more)
  {
    InflatedConcat(z, frames, more[|frames|..]);
    assert frames + more[|frames|..] == more;
  }

  lemma {:induction false} FramesOnlyGrow(s: Stream, z: Zlib, pushed: Bytes, later: seq<Op>)
    requires z.RoundTrips() && Refines(s, z, pushed)
    ensures s.frames <= ApplyAll(s, later, z).frames
    ensures Refines(ApplyAll(s, later, z), z, pushed + PushedBy(later))
  {
    if later == [] {
      assert pushed + [] == pushed;
    } else {
      FramesOnlyGrow(s, z, pushed, Most(later));
      var t, op, all := ApplyAll(s, Most(later), z), Last(later), pushed + PushedBy(Most(later));
      ApplyRefines(t, z, all, op);
      Associate(pushed, PushedBy(Most(later)), if op.DoPush? then op.bytes else []);
      if op.DoFlush? {
        FlushRefines(t, z, all);
      }
    }
  }

  // ---- the loops of `bootstrap` ----

  method PadBody(head: Bytes, aligned: nat) returns (padded: Bytes)
    ensures padded == Padded(head, aligned)
  {
    padded := head;
    while |padded| + |EmptyTimeslot| <= aligned
      invariant FillSlots(head, aligned) == FillSlots(padded, aligned)
      decreases aligned - |padded|
    {
      padded := padded + EmptyTimeslot;
    }
    padded := Resize(padded, aligned);
  }

  method FindResume(frames: seq<Chunk>, prefix: nat) returns (resume: nat)
    ensures resume == ResumeFrom(frames, prefix, 0, 0)
  {
    var covered: nat := 0;
    resume := 0;
    while resume < |frames| && covered < prefix
      invariant resume <= |frames|
      invariant ResumeFrom(frames, prefix, 0, 0) == ResumeFrom(frames, prefix, resume, covered)
    {
      covered := covered + frames[resume].validBytes;
      resume := resume + 1;
    }
  }

  method BootstrapBody(s: Stream) returns (body: Bytes, resume: nat)
    ensures body == Body(s) && resume == Resume(s)
  {
    var prefix := Min(s.prologueEnd, s.PublishedLen());
    body := PadBody(s.prologue[..Min(prefix, |s.prologue|)], Aligned(prefix));
    resume := FindResume(s.frames, prefix);
  }

  /** The file and the frame index given to a viewer. */
  method BootstrapViewer(stream: DotaTvStream, w: Writer) returns (file: Bytes, resume: nat)
    ensures var s := stream.Model();
            Some(file) == w.PackChunkAligned(stream.zlib, Body(s), Aligned(Prefix(s))) && resume == Resume(s)
  {
    var s := stream.Model();
    var body;
    body, resume := BootstrapBody(s);
    BodyIsPackable(s, w, stream.zlib);
    file := w.PackChunkAligned(stream.zlib, body, Aligned(Prefix(s))).value;
  }
}
