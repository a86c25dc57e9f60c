/** Length-prefixed frames in a byte stream, with resynchronisation on the
    header byte (crates/spectre-protocol/src/frame.rs). */
module Framing {
  import opened Basics
  import opened Wire

  const HEADER_LEN := 4

  datatype Frame = Frame(id: byte, payload: Bytes)

  /** What one call of `decode` reports: more bytes are needed, a frame, or a
      frame length below the header size. */
  datatype Decoded = NeedMore | Got(frame: Frame) | BadLength

  /** `encode_with`; None is TooLarge. */
  function Encode(h: byte, f: Frame): Option<Bytes> {
    if HEADER_LEN + |f.payload| > U16_MAX then None
    else Some([h, f.id] + Le(HEADER_LEN + |f.payload|, 2) + f.payload)
  }

  /** The bytes from the first header byte on. */
  function Synced(h: byte, src: Bytes): (s: Bytes)
    ensures |s| <= |src| && (s == [] || s[0] == h)
  {
    if src == [] || src[0] == h then src else Synced(h, src[1..])
  }

  function Total(s: Bytes): nat
    requires |s| >= 4
  {
    FromLe(s[2..4])
  }

  /** `decode`: the report and the bytes left in the buffer. */
  function Decode(h: byte, src: Bytes): (r: (Decoded, Bytes))
    ensures !r.0.NeedMore? ==> |r.1| < |src|
  {
    var s := Synced(h, src);
    if |s| < 4 then (NeedMore, s)
    else
      var total := Total(s);
      if total < 4 then (BadLength, s[1..])
      else if |s| < total then (NeedMore, s)
      else (Got(Frame(s[1], s[4..total])), s[total..])
  }

  /** Decoding until more bytes are needed. */
  function DecodeAll(h: byte, src: Bytes): (seq<Decoded>, Bytes)
    decreases |src|
  {
    var (r, rest) := Decode(h, src);
    if r.NeedMore? then ([], rest)
    else
      var (rs, left) := DecodeAll(h, rest);
      ([r] + rs, left)
  }

  /** Decoding a stream that arrives in pieces. */
  function DecodePieces(h: byte, buffer: Bytes, pieces: seq<Bytes>): (seq<Decoded>, Bytes)
    decreases |pieces|
  {
    if pieces == [] then ([], buffer)
    else
      var (rs, rest) := DecodeAll(h, buffer + pieces[0]);
      var (more, left) := DecodePieces(h, rest, pieces[1..]);
      (rs + more, left)
  }

  // ---- fragmentation independence ----

  lemma {:induction false} SyncedAppend(h: byte, a: Bytes, b: Bytes)
    ensures Synced(h, a + b) == if Synced(h, a) == [] then Synced(h, b) else Synced(h, a) + b
  {
    if a == [] {
      assert a + b == b;
    } else if a[0] != h {
      SyncedAppend(h, a[1..], b);
      assert (a + b)[1..] == a[1..] + b;
    }
  }

  lemma {:induction false} SyncedTwice(h: byte, a: Bytes)
    ensures Synced(h, Synced(h, a)) == Synced(h, a)
  {
    if a != [] && a[0] != h {
      SyncedTwice(h, a[1..]);
    }
  }

  /** A report does not change when more bytes follow. */
  lemma DecodeAppend(h: byte, a: Bytes, b: Bytes)
    requires !Decode(h, a).0.NeedMore?
    ensures Decode(h, a + b) == (Decode(h, a).0, Decode(h, a).1 + b)
  {
    SyncedAppend(h, a, b);
    var s := Synced(h, a);
    assert (s + b)[2..4] == s[2..4];
    var total := Total(s);
    if 4 <= total <= |s| {
      assert (s + b)[4..total] == s[4..total] && (s + b)[total..] == s[total..] + b;
    } else {
      assert (s + b)[1..] == s[1..] + b;
    }
  }

  /** What a waiting decoder keeps is all that matters for what follows. */
  lemma WaitingKeepsEnough(h: byte, a: Bytes, b: Bytes)
    requires Decode(h, a).0.NeedMore?
    ensures Decode(h, a + b) == Decode(h, Decode(h, a).1 + b)
    ensures DecodeAll(h, a + b) == DecodeAll(h, Decode(h, a).1 + b)
  {
    var s := Synced(h, a);
    SyncedAppend(h, a, b);
    SyncedAppend(h, s, b);
    SyncedTwice(h, a);
    if s == [] {
      assert s + b == b;
    }
  }

  /** Decoding in two reads is decoding in one. */
  lemma {:induction false} DecodeInTwo(h: byte, a: Bytes, b: Bytes)
    ensures var (rs, rest) := DecodeAll(h, a);
            var (more, left) := DecodeAll(h, rest + b);
            DecodeAll(h, a + b) == (rs + more, left)
    decreases |a|
  {
    var (r, rest) := Decode(h, a);
    if r.NeedMore? {
      WaitingKeepsEnough(h, a, b);
      assert [] + DecodeAll(h, rest + b).0 == DecodeAll(h, rest + b).0;
    } else {
      DecodeAppend(h, a, b);
      DecodeInTwo(h, rest, b);
      var (rs, rest2) := DecodeAll(h, rest);
      var (more, left) := DecodeAll(h, rest2 + b);
      assert [r] + (rs + more) == ([r] + rs) + more;
    }
  }

  /** A buffer the decoder is waiting on yields nothing by itself. */
  ghost predicate Waiting(h: byte, buffer: Bytes) {
    Decode(h, buffer) == (NeedMore, buffer)
  }

  lemma {:induction false} DecodeAllWaits(h: byte, a: Bytes)
    ensures Waiting(h, DecodeAll(h, a).1)
    decreases |a|
  {
    var (r, rest) := Decode(h, a);
    if r.NeedMore? {
      SyncedTwice(h, a);
    } else {
      DecodeAllWaits(h, rest);
    }
  }

  /** Fragmentation independence: however a byte stream is cut into reads,
      decoding yields the same frames and errors, and is left with the same
      bytes, as decoding the whole stream at once. */
  lemma {:induction false} FragmentationIndependent(h: byte, buffer: Bytes, pieces: seq<Bytes>)
    requires Waiting(h, buffer)
    ensures DecodePieces(h, buffer, pieces) == DecodeAll(h, buffer + Flatten(pieces))
    decreases |pieces|
  {
    if pieces == [] {
      assert buffer + [] == buffer;
    } else {
      var (rs, rest) := DecodeAll(h, buffer + pieces[0]);
      DecodeAllWaits(h, buffer + pieces[0]);
      FragmentationIndependent(h, rest, pieces[1..]);
      DecodeInTwo(h, buffer + pieces[0], Flatten(pieces[1..]));
      Associate(buffer, pieces[0], Flatten(pieces[1..]));
    }
  }

  // ---- round trip ----

  function EncodeList(h: byte, fs: seq<Frame>): Option<Bytes> {
    if fs == [] then Some([])
    else if Encode(h, fs[0]).None? || EncodeList(h, fs[1..]).None? then None
    else Some(Encode(h, fs[0]).value + EncodeList(h, fs[1..]).value)
  }

  lemma DecodeEncoded(h: byte, f: Frame, rest: Bytes)
    requires Encode(h, f).Some?
    ensures Decode(h, Encode(h, f).value + rest) == (Got(f), rest)
  {
    var total := HEADER_LEN + |f.payload|;
    var s := Encode(h, f).value + rest;
    assert s[2..4] == Le(total, 2);
    assert Pow256(2) == 65536;
    LeRoundTrip(total, 2);
    assert s[4..total] == f.payload && s[total..] == rest;
  }

  function AllGot(fs: seq<Frame>): seq<Decoded> {
    seq(|fs|, i requires 0 <= i < |fs| => Got(fs[i]))
  }

  /** Any list of encodable frames decodes to itself, with nothing left. */
  lemma {:induction false} FramesRoundTrip(h: byte, fs: seq<Frame>)
    requires EncodeList(h, fs).Some?
    ensures DecodeAll(h, EncodeList(h, fs).value) == (AllGot(fs), [])
  {
    if fs == [] {
      assert AllGot(fs) == [];
    } else {
      FramesRoundTrip(h, fs[1..]);
      DecodeEncoded(h, fs[0], EncodeList(h, fs[1..]).value);
      assert AllGot(fs) == [Got(fs[0])] + AllGot(fs[1..]);
    }
  }

  /** A list can be encoded exactly when every frame fits 65535 bytes. */
  lemma {:induction false} EncodableIff(h: byte, fs: seq<Frame>)
    ensures EncodeList(h, fs).Some? <==> forall i :: 0 <= i < |fs| ==> |fs[i].payload| + 4 <= U16_MAX
  {
    if fs != [] {
      EncodableIff(h, fs[1..]);
      assert forall i :: 0 < i < |fs| ==> fs[i] == fs[1..][i - 1];
      if forall i :: 0 <= i < |fs| ==> |fs[i].payload| + 4 <= U16_MAX {
        assert forall i :: 0 <= i < |fs[1..]| ==> fs[1..][i] == fs[i + 1];
      }
    }
  }

  /** Bytes that cannot start a frame do not disturb what follows. */
  lemma {:induction false} GarbageIsSkipped(h: byte, garbage: Bytes, rest: Bytes)
    requires h !in garbage
    ensures DecodeAll(h, garbage + rest) == DecodeAll(h, rest)
  {
    if garbage == [] {
      assert garbage + rest == rest;
    } else {
      assert garbage[0] in garbage;
      GarbageIsSkipped(h, garbage[1..], rest);
      assert (garbage + rest)[1..] == garbage[1..] + rest;
      assert Decode(h, garbage + rest) == Decode(h, garbage[1..] + rest);
    }
  }

  // ---- the buffer, consumed in place ----

  class Buffer {
    var data: Bytes

    constructor ()
      ensures data == []
    {
      data := [];
    }

    method DecodeNext(h: byte) returns (r: Decoded)
      modifies this
      ensures (r, data) == Decode(h, old(data))
    {
      var pos := 0;
      while pos < |data| && data[pos] != h
        invariant 0 <= pos <= |data|
        invariant Synced(h, data[pos..]) == Synced(h, data)
      {
        assert data[pos..][1..] == data[pos + 1..];
        pos := pos + 1;
      }
      data := data[pos..];
      assert data == Synced(h, old(data));
      if |data| < HEADER_LEN {
        return NeedMore;
      }
      var id := data[1];
      var total := FromLe(data[2..4]);
      if total < HEADER_LEN {
        data := data[1..];
        return BadLength;
      }
      if |data| < total {
        return NeedMore;
      }
      r := Got(Frame(id, data[4..total]));
      data := data[total..];
    }
  }
}
