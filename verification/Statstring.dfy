/** The statstring encoding: seven bytes become eight, none of them zero
    (crates/spectre-protocol/src/bytes_ext.rs). */
module Statstring {
  import opened Basics
  import opened Crc

  // ---- one group ----

  predicate Odd(b: byte) {
    b % 2 == 1
  }

  function OddFlags(chunk: Bytes): (f: seq<bool>)
    ensures |f| == |chunk| && forall i :: 0 <= i < |f| ==> f[i] == Odd(chunk[i])
  {
    seq(|chunk|, i requires 0 <= i < |chunk| => Odd(chunk[i]))
  }

  /** The mask: bit 0 is set, bit `i + 1` says that byte `i` is odd. */
  function Mask(chunk: Bytes): (m: nat)
    requires |chunk| <= 7
    ensures m < 256 && m % 2 == 1
  {
    var bits := [true] + OddFlags(chunk);
    MaskFits(bits);
    Number(bits)
  }

  lemma MaskFits(bits: seq<bool>)
    requires |bits| <= 8
    ensures Number(bits) < 256
  {
    NumberBound(bits);
    Pow2Grows(|bits|, 8);
    assert Pow2(8) == 256;
  }

  lemma {:induction false} Pow2Grows(a: nat, b: nat)
    requires a <= b
    ensures Pow2(a) <= Pow2(b)
    decreases b
  {
    if a < b {
      Pow2Grows(a, b - 1);
    }
  }

  function MakeOdd(b: byte): byte {
    if Odd(b) then b else b + 1
  }

  function MadeOdd(chunk: Bytes): (r: Bytes)
    ensures |r| == |chunk| && forall i :: 0 <= i < |r| ==> r[i] == MakeOdd(chunk[i])
  {
    seq(|chunk|, i requires 0 <= i < |chunk| => MakeOdd(chunk[i]))
  }

  function EncodeChunk(chunk: Bytes): (r: Bytes)
    requires |chunk| <= 7
    ensures |r| == |chunk| + 1
  {
    [Mask(chunk) as byte] + MadeOdd(chunk)
  }

  /** `wrapping_sub(1)`. */
  function WrappingDec(b: byte): byte {
    if b == 0 then 255 else b - 1
  }

  function DecodeByte(mask: byte, i: nat, b: byte): byte
    requires i < 7
  {
    if BitsOf(mask as nat, 8)[i + 1] then b else WrappingDec(b)
  }

  /** A group is a mask and at most seven bytes. */
  function DecodeChunk(chunk: Bytes): (r: Bytes)
    requires 1 <= |chunk| <= 8
    ensures |r| == |chunk| - 1
  {
    seq(|chunk| - 1, i requires 0 <= i < |chunk| - 1 => DecodeByte(chunk[0], i, chunk[i + 1]))
  }

  lemma ChunkRoundTrip(chunk: Bytes)
    requires |chunk| <= 7
    ensures DecodeChunk(EncodeChunk(chunk)) == chunk
  {
    var e := EncodeChunk(chunk);
    var bits := [true] + OddFlags(chunk);
    NumberRoundTrip(bits, 8 - |bits|);
    forall i | 0 <= i < |chunk| ensures DecodeChunk(e)[i] == chunk[i] {
      assert BitsOf(Mask(chunk), 8)[i + 1] == bits[i + 1] == Odd(chunk[i]);
    }
  }

  // ---- whole strings ----

  function Encode(raw: Bytes): Bytes {
    if raw == [] then [] else
      var n := Min(|raw|, 7);
      EncodeChunk(raw[..n]) + Encode(raw[n..])
  }

  function Decode(enc: Bytes): Bytes {
    if enc == [] then [] else
      var n := Min(|enc|, 8);
      DecodeChunk(enc[..n]) + Decode(enc[n..])
  }

  lemma DecodeAfterChunk(head: Bytes, rest: Bytes)
    requires 1 <= |head| <= 8 && (|head| == 8 || rest == [])
    ensures Decode(head + rest) == DecodeChunk(head) + Decode(rest)
  {
    var n := Min(|head + rest|, 8);
    assert (head + rest)[..n] == head && (head + rest)[n..] == rest;
  }

  /** Decoding undoes encoding, for all bytes. */
  lemma {:induction false} RoundTrip(raw: Bytes)
    ensures Decode(Encode(raw)) == raw
  {
    if raw != [] {
      var n := Min(|raw|, 7);
      RoundTrip(raw[n..]);
      ChunkRoundTrip(raw[..n]);
      DecodeAfterChunk(EncodeChunk(raw[..n]), Encode(raw[n..]));
      assert raw[..n] + raw[n..] == raw;
    }
  }

  /** The encoding contains no zero byte and takes one byte more for every
      started group of seven. */
  lemma {:induction false} EncodingHasNoZero(raw: Bytes)
    ensures 0 !in Encode(raw)
    ensures |Encode(raw)| == |raw| + (|raw| + 6) / 7
  {
    if raw != [] {
      var n := Min(|raw|, 7);
      EncodingHasNoZero(raw[n..]);
      ChunkHasNoZero(raw[..n]);
    }
  }

  lemma ChunkHasNoZero(chunk: Bytes)
    requires |chunk| <= 7
    ensures 0 !in EncodeChunk(chunk)
  {
    assert forall i :: 0 <= i < |chunk| ==> MadeOdd(chunk)[i] != 0;
  }

  // ---- the loops ----

  ghost function Flags(chunk: Bytes, i: nat): seq<bool>
    requires i <= |chunk|
  {
    [true] + OddFlags(chunk[..i])
  }

  lemma ChunkGrows(chunk: Bytes, i: nat)
    requires i < |chunk| <= 7
    ensures MadeOdd(chunk[..i + 1]) == MadeOdd(chunk[..i]) + [MakeOdd(chunk[i])]
    ensures Number(Flags(chunk, i + 1)) == Number(Flags(chunk, i)) + if Odd(chunk[i]) then Pow2(i + 1) else 0
  {
    FlagAdded(Flags(chunk, i), Odd(chunk[i]));
    assert Flags(chunk, i + 1) == Flags(chunk, i) + [Odd(chunk[i])];
  }

  /** Setting a bit above all others adds its weight. */
  lemma {:induction false} FlagAdded(bits: seq<bool>, flag: bool)
    ensures Number(bits + [flag]) == Number(bits) + if flag then Pow2(|bits|) else 0
  {
    if bits == [] {
      assert bits + [flag] == [flag];
      assert Number([flag]) == (if flag then 1 else 0) + 2 * Number([]);
    } else {
      FlagAdded(bits[1..], flag);
      assert (bits + [flag])[1..] == bits[1..] + [flag];
    }
  }

  lemma NoFlags(chunk: Bytes)
    ensures Number(Flags(chunk, 0)) == 1 && MadeOdd(chunk[..0]) == []
  {
    assert Flags(chunk, 0)[1..] == [];
  }

  lemma AllFlags(chunk: Bytes)
    requires |chunk| <= 7
    ensures Number(Flags(chunk, |chunk|)) == Mask(chunk) && MadeOdd(chunk[..|chunk|]) == MadeOdd(chunk)
  {
    assert chunk[..|chunk|] == chunk;
  }

  /** The inner loop of `encode_statstring`: the group's bytes follow a place
      kept for the mask, which is written last. */
  method AppendChunk(result: Bytes, chunk: Bytes) returns (r: Bytes)
    requires |chunk| <= 7
    ensures r == result + EncodeChunk(chunk)
  {
    var mask: nat, weight: nat := 1, 2;
    var start := |result|;
    r := result + [0];
    ghost var data: Bytes := [];
    NoFlags(chunk);
    var i := 0;
    while i < |chunk|
      invariant 0 <= i <= |chunk|
      invariant data == MadeOdd(chunk[..i]) && r == result + [0] + data
      invariant weight == Pow2(i + 1)
      invariant mask == Number(Flags(chunk, i))
    {
      ChunkGrows(chunk, i);
      if chunk[i] % 2 == 0 {
        r := r + [chunk[i] + 1];
      } else {
        r := r + [chunk[i]];
        mask := mask + weight;
      }
      data := data + [MakeOdd(chunk[i])];
      weight := 2 * weight;
      i := i + 1;
    }
    AllFlags(chunk);
    r := PatchMask(r, start, mask, result, data);
  }

  method PatchMask(r: Bytes, start: nat, mask: nat, ghost result: Bytes, ghost data: Bytes) returns (patched: Bytes)
    requires mask < 256 && start == |result| && r == result + [0] + data
    ensures patched == result + ([mask as byte] + data)
  {
    patched := r[start := mask as byte];
  }

  lemma EncodeStep(raw: Bytes, at: nat, result: Bytes)
    requires at < |raw|
    ensures var n := Min(|raw| - at, 7);
            result + Encode(raw[at..]) == result + EncodeChunk(raw[at..at + n]) + Encode(raw[at + n..])
  {
    var n := Min(|raw| - at, 7);
    assert raw[at..][..n] == raw[at..at + n];
    DropDrop(raw, at, n);
    Associate(result, EncodeChunk(raw[at..at + n]), Encode(raw[at + n..]));
  }

  method EncodeStatstring(raw: Bytes) returns (result: Bytes)
    ensures result == Encode(raw)
  {
    result := [];
    var at := 0;
    while at < |raw|
      invariant 0 <= at <= |raw|
      invariant Encode(raw) == result + Encode(raw[at..])
    {
      var n := Min(|raw| - at, 7);
      EncodeStep(raw, at, result);
      result := AppendChunk(result, raw[at..at + n]);
      at := at + n;
    }
  }

  lemma DecodeStep(enc: Bytes, at: nat, result: Bytes)
    requires at < |enc|
    ensures var n := Min(|enc| - at, 8);
            result + Decode(enc[at..]) == result + DecodeChunk(enc[at..at + n]) + Decode(enc[at + n..])
  {
    var n := Min(|enc| - at, 8);
    assert enc[at..][..n] == enc[at..at + n];
    DropDrop(enc, at, n);
    Associate(result, DecodeChunk(enc[at..at + n]), Decode(enc[at + n..]));
  }

  method AppendDecoded(result: Bytes, chunk: Bytes) returns (r: Bytes)
    requires 1 <= |chunk| <= 8
    ensures r == result + DecodeChunk(chunk)
  {
    ghost var all := DecodeChunk(chunk);
    r := result;
    var i := 0;
    while i < |chunk| - 1
      invariant 0 <= i <= |chunk| - 1
      invariant r == result + all[..i]
    {
      var b := if BitsOf(chunk[0] as nat, 8)[i + 1] then chunk[i + 1] else WrappingDec(chunk[i + 1]);
      assert all[..i + 1] == all[..i] + [b];
      r := r + [b];
      i := i + 1;
    }
    assert all[..|all|] == all;
  }

  method DecodeStatstring(enc: Bytes) returns (result: Bytes)
    ensures result == Decode(enc)
  {
    result := [];
    var at := 0;
    while at < |enc|
      invariant 0 <= at <= |enc|
      invariant Decode(enc) == result + Decode(enc[at..])
    {
      var n := Min(|enc| - at, 8);
      DecodeStep(enc, at, result);
      result := AppendDecoded(result, enc[at..at + n]);
      at := at + n;
    }
  }
}
