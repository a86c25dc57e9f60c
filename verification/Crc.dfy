/** CRC-32 as the spectator stream computes it, a byte at a time from a table,
    against the bit-at-a-time register of section 8 of RFC 1952
    (crates/spectre-spectator/src/dotatv.rs, `crc_table`, `crc_push`).
    A 32-bit word is its bits, least significant first. */
module Crc {
  import opened Basics

  type Word = w: seq<bool> | |w| == 32 witness Zeros(32)

  function Zeros(n: nat): (s: seq<bool>)
    ensures |s| == n && forall i :: 0 <= i < n ==> !s[i]
  {
    seq(n, _ => false)
  }

  function Ones(n: nat): (s: seq<bool>)
    ensures |s| == n && forall i :: 0 <= i < n ==> s[i]
  {
    seq(n, _ => true)
  }

  /** The low `k` bits of `n`. */
  function BitsOf(n: nat, k: nat): (s: seq<bool>)
    ensures |s| == k
  {
    if k == 0 then [] else [n % 2 == 1] + BitsOf(n / 2, k - 1)
  }

  function WordOf(n: nat): Word {
    BitsOf(n, 32)
  }

  function Number(s: seq<bool>): nat {
    if s == [] then 0 else (if s[0] then 1 else 0) + 2 * Number(s[1..])
  }

  function Xor(a: Word, b: Word): Word {
    seq(32, i requires 0 <= i < 32 => a[i] != b[i])
  }

  function ShiftRight(c: Word, n: nat): Word
    requires n <= 32
  {
    c[n..] + Zeros(n)
  }

  const Polynomial: Word := WordOf(0xEDB8_8320)
  /** 0xFFFF_FFFF. */
  const AllOnes: Word := Ones(32)

  /** One shift of the register with no message bit. */
  function Shift(c: Word): Word {
    if c[0] then Xor(Polynomial, ShiftRight(c, 1)) else ShiftRight(c, 1)
  }

  function Shifts(c: Word, n: nat): Word
    decreases n
  {
    if n == 0 then c else Shifts(Shift(c), n - 1)
  }

  // ---- the reference: one message bit at a time ----

  /** The low bit of `bits` enters the register. */
  function BitIn(reg: Word, bits: Word): Word {
    if reg[0] != bits[0] then Xor(Polynomial, ShiftRight(reg, 1)) else ShiftRight(reg, 1)
  }

  /** The low `n` bits of `bits` enter the register, least significant first. */
  function BitsIn(reg: Word, bits: Word, n: nat): Word
    decreases n
  {
    if n == 0 then reg else BitsIn(BitIn(reg, bits), ShiftRight(bits, 1), n - 1)
  }

  function ByteIn(reg: Word, b: byte): Word {
    BitsIn(reg, WordOf(b as nat), 8)
  }

  function Fold(f: (Word, byte) -> Word, reg: Word, data: Bytes): Word {
    if data == [] then reg else f(Fold(f, reg, Most(data)), Last(data))
  }

  /** The register after all of `data`, bit by bit. */
  function Serial(reg: Word, data: Bytes): Word {
    Fold(ByteIn, reg, data)
  }

  function Crc32(data: Bytes): Word {
    Xor(Serial(AllOnes, data), AllOnes)
  }

  lemma {:induction false} FoldConcat(f: (Word, byte) -> Word, reg: Word, a: Bytes, b: Bytes)
    ensures Fold(f, reg, a + b) == Fold(f, Fold(f, reg, a), b)
    decreases |b|
  {
    if b == [] {
      assert a + b == a;
    } else {
      FoldConcat(f, reg, a, Most(b));
      assert Most(a + b) == a + Most(b) && Last(a + b) == Last(b);
    }
  }

  lemma SerialConcat(reg: Word, a: Bytes, b: Bytes)
    ensures Serial(reg, a + b) == Serial(Serial(reg, a), b)
  {
    FoldConcat(ByteIn, reg, a, b);
  }

  // ---- shifting is linear over exclusive or ----

  lemma ShiftIsLinear(x: Word, y: Word)
    ensures Shift(Xor(x, y)) == Xor(Shift(x), Shift(y))
  {
    var a, b := Shift(Xor(x, y)), Xor(Shift(x), Shift(y));
    forall i | 0 <= i < 32 ensures a[i] == b[i] {
      assert ShiftRight(Xor(x, y), 1)[i] == (ShiftRight(x, 1)[i] != ShiftRight(y, 1)[i]);
    }
  }

  lemma {:induction false} ShiftsAreLinear(x: Word, y: Word, n: nat)
    ensures Shifts(Xor(x, y), n) == Xor(Shifts(x, n), Shifts(y, n))
    decreases n
  {
    if n > 0 {
      ShiftIsLinear(x, y);
      ShiftsAreLinear(Shift(x), Shift(y), n - 1);
    }
  }

  /** A bit enters by being added to the low end of the register. */
  lemma BitInIsShift(reg: Word, bits: Word)
    ensures Shift(Xor(reg, bits)) == Xor(BitIn(reg, bits), ShiftRight(bits, 1))
  {
    var a, b := Shift(Xor(reg, bits)), Xor(BitIn(reg, bits), ShiftRight(bits, 1));
    forall i | 0 <= i < 32 ensures a[i] == b[i] {
      assert ShiftRight(Xor(reg, bits), 1)[i] == (ShiftRight(reg, 1)[i] != ShiftRight(bits, 1)[i]);
    }
  }

  lemma ShiftRightTwice(c: Word, n: nat)
    requires n < 32
    ensures ShiftRight(ShiftRight(c, 1), n) == ShiftRight(c, n + 1)
  {
  }

  /** So all bits may be added ahead of their turns. */
  lemma {:induction false} BitsInIsShifts(reg: Word, bits: Word, n: nat)
    requires n <= 32
    ensures Shifts(Xor(reg, bits), n) == Xor(BitsIn(reg, bits, n), ShiftRight(bits, n))
    decreases n
  {
    if n == 0 {
      assert ShiftRight(bits, 0) == bits;
    } else {
      BitInIsShift(reg, bits);
      BitsInIsShifts(BitIn(reg, bits), ShiftRight(bits, 1), n - 1);
      ShiftRightTwice(bits, n - 1);
    }
  }

  /** Shifting a register whose low `n` bits are clear only moves it down. */
  lemma {:induction false} ClearBitsShiftDown(c: Word, n: nat)
    requires n <= 32 && forall i :: 0 <= i < n ==> !c[i]
    ensures Shifts(c, n) == ShiftRight(c, n)
    decreases n
  {
    if n == 0 {
      assert ShiftRight(c, 0) == c;
    } else {
      ClearBitsShiftDown(ShiftRight(c, 1), n - 1);
      ShiftRightTwice(c, n - 1);
    }
  }

  function LowByte(c: Word): Word {
    c[..8] + Zeros(24)
  }

  /** The table step: eight shifts of the low byte, added to the rest. */
  lemma EightBitsAtOnce(reg: Word, bits: Word)
    ensures BitsIn(reg, bits, 8) == Xor(Shifts(LowByte(Xor(reg, bits)), 8), ShiftRight(reg, 8))
  {
    var x := Xor(reg, bits);
    var low, high := LowByte(x), Zeros(8) + x[8..];
    BitsInIsShifts(reg, bits, 8);
    assert x == Xor(low, high);
    ShiftsAreLinear(low, high, 8);
    ClearBitsShiftDown(high, 8);
    forall i | 0 <= i < 32 ensures ShiftRight(high, 8)[i] == (ShiftRight(reg, 8)[i] != ShiftRight(bits, 8)[i]) {
      assert i < 24 ==> x[i + 8] == (reg[i + 8] != bits[i + 8]);
    }
    XorRegroup(BitsIn(reg, bits, 8), ShiftRight(bits, 8), Shifts(low, 8), ShiftRight(high, 8), ShiftRight(reg, 8));
  }

  lemma XorRegroup(r: Word, b: Word, l: Word, h: Word, g: Word)
    requires Xor(r, b) == Xor(l, h)
    requires forall i :: 0 <= i < 32 ==> h[i] == (g[i] != b[i])
    ensures r == Xor(l, g)
  {
    forall i | 0 <= i < 32 ensures r[i] == Xor(l, g)[i] {
      assert Xor(r, b)[i] == Xor(l, h)[i];
    }
  }

  lemma {:induction false} NumberRoundTrip(s: seq<bool>, zeros: nat)
    ensures BitsOf(Number(s), |s| + zeros) == s + Zeros(zeros)
  {
    if s == [] {
      ZeroBits(zeros);
      assert s + Zeros(zeros) == Zeros(zeros);
    } else {
      NumberRoundTrip(s[1..], zeros);
      assert s + Zeros(zeros) == [s[0]] + (s[1..] + Zeros(zeros));
    }
  }

  lemma {:induction false} ZeroBits(k: nat)
    ensures BitsOf(0, k) == Zeros(k)
  {
    if k > 0 {
      ZeroBits(k - 1);
      assert Zeros(k) == [false] + Zeros(k - 1);
    }
  }

  lemma {:induction false} NumberBound(s: seq<bool>)
    ensures Number(s) < Pow2(|s|)
  {
    if s != [] {
      NumberBound(s[1..]);
    }
  }

  function Pow2(n: nat): nat {
    if n == 0 then 1 else 2 * Pow2(n - 1)
  }

  // ---- the implementation ----

  /** `table[i]` is what eight shifts make of `i`. */
  ghost predicate IsTable(table: seq<Word>) {
    |table| == 256 && forall i :: 0 <= i < 256 ==> table[i] == Shifts(WordOf(i), 8)
  }

  method CrcTable() returns (table: seq<Word>)
    ensures IsTable(table)
  {
    table := [];
    for i := 0 to 256
      invariant |table| == i
      invariant forall k :: 0 <= k < i ==> table[k] == Shifts(WordOf(k), 8)
    {
      var c := ShiftTimes(WordOf(i), 8);
      table := table + [c];
    }
  }

  method ShiftTimes(start: Word, n: nat) returns (c: Word)
    ensures c == Shifts(start, n)
  {
    c := start;
    for j := 0 to n
      invariant Shifts(start, n) == Shifts(c, n - j)
    {
      c := if c[0] then Xor(Polynomial, ShiftRight(c, 1)) else ShiftRight(c, 1);
    }
  }

  method CrcPush(start: Word, data: Bytes, table: seq<Word>) returns (reg: Word)
    requires IsTable(table)
    ensures reg == Serial(start, data)
  {
    reg := start;
    for k := 0 to |data|
      invariant reg == Serial(start, data[..k])
    {
      assert Most(data[..k + 1]) == data[..k] && Last(data[..k + 1]) == data[k];
      reg := PushByte(reg, data[k], table);
    }
    assert data[..|data|] == data;
  }

  method PushByte(reg: Word, b: byte, table: seq<Word>) returns (r: Word)
    requires IsTable(table)
    ensures r == ByteIn(reg, b)
  {
    var x := Xor(reg, WordOf(b as nat));
    NumberBound(x[..8]);
    assert Pow2(8) == 256;
    NumberRoundTrip(x[..8], 24);
    EightBitsAtOnce(reg, WordOf(b as nat));
    r := Xor(table[Number(x[..8])], ShiftRight(reg, 8));
  }
}
