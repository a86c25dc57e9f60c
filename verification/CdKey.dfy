/** The 26-character CD key: where its base-5 digits are written, and the
    permutation network that unscrambles them
    (crates/spectre-bnet/src/bncsutil/cdkey.rs,
    `decode_26_char_key_components`, `decode_key_table`). */
module CdKey {
  import opened Basics
  import opened Crc

  /** The 30 rows of 16 of the translation map. */
  function Row(v: nat): (r: seq<nat>)
    ensures |r| == 16
  {
    if v < 15 then EarlyRow(v) else LateRow(v)
  }

  function EarlyRow(v: nat): (r: seq<nat>)
    ensures |r| == 16
  {
    if v == 0 then [9, 4, 7, 15, 13, 10, 3, 11, 1, 2, 12, 8, 6, 14, 5, 0]
    else if v == 1 then [9, 11, 5, 4, 8, 15, 1, 14, 7, 0, 3, 2, 10, 6, 13, 12]
    else if v == 2 then [12, 14, 1, 4, 9, 15, 10, 11, 13, 6, 0, 8, 7, 2, 5, 3]
    else if v == 3 then [11, 2, 5, 14, 13, 3, 9, 0, 1, 15, 7, 12, 10, 6, 4, 8]
    else if v == 4 then [6, 2, 4, 5, 11, 8, 12, 14, 13, 15, 7, 1, 10, 0, 3, 9]
    else if v == 5 then [5, 4, 14, 12, 7, 6, 13, 10, 15, 2, 9, 1, 0, 11, 8, 3]
    else if v == 6 then [12, 7, 8, 15, 11, 0, 5, 9, 13, 10, 6, 14, 2, 4, 3, 1]
    else if v == 7 then [3, 10, 14, 8, 1, 11, 5, 4, 2, 15, 13, 12, 6, 7, 9, 0]
    else if v == 8 then [12, 13, 1, 15, 8, 14, 5, 11, 3, 10, 9, 0, 7, 2, 4, 6]
    else if v == 9 then [13, 10, 7, 14, 1, 6, 11, 8, 15, 12, 5, 2, 3, 0, 4, 9]
    else if v == 10 then [3, 14, 7, 5, 11, 15, 8, 12, 1, 10, 4, 13, 0, 6, 9, 2]
    else if v == 11 then [11, 6, 9, 4, 1, 8, 10, 13, 7, 14, 0, 12, 15, 2, 3, 5]
    else if v == 12 then [12, 7, 8, 13, 3, 11, 0, 14, 6, 15, 9, 4, 10, 1, 5, 2]
    else if v == 13 then [12, 6, 13, 9, 11, 0, 1, 2, 15, 7, 3, 4, 10, 14, 8, 5]
    else [3, 6, 1, 5, 11, 12, 8, 0, 15, 14, 9, 4, 7, 10, 13, 2]
  }

  function LateRow(v: nat): (r: seq<nat>)
    ensures |r| == 16
  {
    if v == 15 then [10, 7, 11, 15, 2, 8, 0, 13, 14, 12, 1, 6, 9, 3, 5, 4]
    else if v == 16 then [10, 11, 13, 4, 3, 8, 5, 9, 1, 0, 15, 12, 7, 14, 2, 6]
    else if v == 17 then [11, 4, 13, 15, 1, 6, 3, 14, 7, 10, 12, 8, 9, 2, 5, 0]
    else if v == 18 then [9, 6, 7, 0, 1, 10, 13, 2, 3, 14, 15, 12, 5, 11, 4, 8]
    else if v == 19 then [13, 14, 5, 6, 1, 9, 8, 12, 2, 15, 3, 7, 11, 4, 0, 10]
    else if v == 20 then [9, 15, 4, 0, 1, 6, 10, 14, 2, 3, 7, 13, 5, 11, 8, 12]
    else if v == 21 then [3, 14, 1, 10, 2, 12, 8, 4, 11, 7, 13, 0, 15, 6, 9, 5]
    else if v == 22 then [7, 2, 12, 6, 10, 8, 11, 0, 15, 4, 3, 14, 9, 1, 13, 5]
    else if v == 23 then [12, 4, 5, 9, 10, 2, 8, 13, 3, 15, 1, 14, 6, 7, 11, 0]
    else if v == 24 then [10, 8, 14, 13, 9, 15, 3, 0, 4, 6, 1, 12, 7, 11, 2, 5]
    else if v == 25 then [3, 12, 4, 10, 2, 15, 13, 14, 7, 0, 5, 8, 1, 6, 11, 9]
    else if v == 26 then [10, 12, 1, 0, 9, 14, 13, 11, 3, 7, 15, 8, 5, 2, 4, 6]
    else if v == 27 then [14, 10, 1, 8, 7, 6, 5, 12, 2, 15, 0, 13, 3, 11, 4, 9]
    else if v == 28 then [3, 8, 14, 0, 7, 9, 15, 12, 1, 6, 13, 2, 5, 10, 11, 4]
    else [3, 10, 12, 4, 13, 11, 9, 14, 15, 6, 1, 7, 2, 0, 5, 8]
  }

  /** Each row read backwards. */
  function Unrow(v: nat): (r: seq<nat>)
    ensures |r| == 16
  {
    if v < 15 then EarlyUnrow(v) else LateUnrow(v)
  }

  function EarlyUnrow(v: nat): (r: seq<nat>)
    ensures |r| == 16
  {
    if v == 0 then [15, 8, 9, 6, 1, 14, 12, 2, 11, 0, 5, 7, 10, 4, 13, 3]
    else if v == 1 then [9, 6, 11, 10, 3, 2, 13, 8, 4, 0, 12, 1, 15, 14, 7, 5]
    else if v == 2 then [10, 2, 13, 15, 3, 14, 9, 12, 11, 4, 6, 7, 0, 8, 1, 5]
    else if v == 3 then [7, 8, 1, 5, 14, 2, 13, 10, 15, 6, 12, 0, 11, 4, 3, 9]
    else if v == 4 then [13, 11, 1, 14, 2, 3, 0, 10, 5, 15, 12, 4, 6, 8, 7, 9]
    else if v == 5 then [12, 11, 9, 15, 1, 0, 5, 4, 14, 10, 7, 13, 3, 6, 2, 8]
    else if v == 6 then [5, 15, 12, 14, 13, 6, 10, 1, 2, 7, 9, 4, 0, 8, 11, 3]
    else if v == 7 then [15, 4, 8, 0, 7, 6, 12, 13, 3, 14, 1, 5, 11, 10, 2, 9]
    else if v == 8 then [11, 2, 13, 8, 14, 6, 15, 12, 4, 10, 9, 7, 0, 1, 5, 3]
    else if v == 9 then [13, 4, 11, 12, 14, 10, 5, 2, 7, 15, 1, 6, 9, 0, 3, 8]
    else if v == 10 then [12, 8, 15, 0, 10, 3, 13, 2, 6, 14, 9, 4, 7, 11, 1, 5]
    else if v == 11 then [10, 4, 13, 14, 3, 15, 1, 8, 5, 2, 6, 0, 11, 7, 9, 12]
    else if v == 12 then [6, 13, 15, 4, 11, 14, 8, 1, 2, 10, 12, 5, 0, 3, 7, 9]
    else if v == 13 then [5, 6, 7, 10, 11, 15, 1, 9, 14, 3, 12, 4, 0, 2, 13, 8]
    else [7, 2, 15, 0, 11, 3, 1, 12, 6, 10, 13, 4, 5, 14, 9, 8]
  }

  function LateUnrow(v: nat): (r: seq<nat>)
    ensures |r| == 16
  {
    if v == 15 then [6, 10, 4, 13, 15, 14, 11, 1, 5, 12, 0, 2, 9, 7, 8, 3]
    else if v == 16 then [9, 8, 14, 4, 3, 6, 15, 12, 5, 7, 0, 1, 11, 2, 13, 10]
    else if v == 17 then [15, 4, 13, 6, 1, 14, 5, 8, 11, 12, 9, 0, 10, 2, 7, 3]
    else if v == 18 then [3, 4, 7, 8, 14, 12, 1, 2, 15, 0, 5, 13, 11, 6, 9, 10]
    else if v == 19 then [14, 4, 8, 10, 13, 2, 3, 11, 6, 5, 15, 12, 7, 0, 1, 9]
    else if v == 20 then [3, 4, 8, 9, 2, 12, 5, 10, 14, 0, 6, 13, 15, 11, 7, 1]
    else if v == 21 then [11, 2, 4, 0, 7, 15, 13, 9, 6, 14, 3, 8, 5, 10, 1, 12]
    else if v == 22 then [7, 13, 1, 10, 9, 15, 3, 0, 5, 12, 4, 6, 2, 14, 11, 8]
    else if v == 23 then [15, 10, 5, 8, 1, 2, 12, 13, 6, 3, 4, 14, 0, 7, 11, 9]
    else if v == 24 then [7, 10, 14, 6, 8, 15, 9, 12, 1, 4, 0, 13, 11, 3, 2, 5]
    else if v == 25 then [9, 12, 4, 0, 2, 10, 13, 8, 11, 15, 3, 14, 1, 6, 7, 5]
    else if v == 26 then [3, 2, 13, 8, 14, 12, 15, 9, 11, 4, 0, 7, 1, 6, 5, 10]
    else if v == 27 then [10, 2, 8, 12, 14, 6, 5, 4, 3, 15, 1, 13, 7, 11, 0, 9]
    else if v == 28 then [3, 8, 11, 0, 15, 12, 9, 4, 1, 5, 13, 14, 7, 10, 2, 6]
    else [13, 10, 12, 0, 3, 14, 9, 11, 15, 6, 1, 5, 2, 4, 7, 8]
  }

  /** `b` undoes `a` on 0..15. */
  ghost predicate Undoes(a: seq<nat>, b: seq<nat>) {
    && |a| == 16 && |b| == 16
    && forall k :: 0 <= k < 16 ==> a[k] < 16 && b[a[k]] == k
  }

  /** On a finite set, undoing one way is undoing both ways. */
  lemma UndoneBothWays(a: seq<nat>, b: seq<nat>)
    requires Undoes(a, b)
    ensures Undoes(b, a)
  {
    forall k: nat | k < 16 ensures b[k] < 16 && a[b[k]] == k {
      var i := Reached(a, b, k);
    }
  }

  /** A one-to-one table of 16 reaches every value below 16. */
  lemma Reached(a: seq<nat>, b: seq<nat>, k: nat) returns (i: nat)
    requires Undoes(a, b) && k < 16
    ensures i < 16 && a[i] == k
  {
    var image := Image(a, 16);
    ImageSize(a, b, 16);
    SizeBelow(16);
    assert image <= Below(16);
    if k !in image {
      FewerThan(image, Below(16), k);
    }
    i := PickIndex(a, 16, k);
  }

  ghost function Image(a: seq<nat>, n: nat): set<nat>
    requires n <= |a|
  {
    if n == 0 then {} else Image(a, n - 1) + {a[n - 1]}
  }

  lemma {:induction false} ImageSize(a: seq<nat>, b: seq<nat>, n: nat)
    requires Undoes(a, b) && n <= 16
    ensures |Image(a, n)| == n
    ensures forall x :: x in Image(a, n) ==> x < 16 && b[x] < n
  {
    if n > 0 {
      ImageSize(a, b, n - 1);
    }
  }

  ghost function Below(n: nat): set<nat> {
    if n == 0 then {} else Below(n - 1) + {n - 1}
  }

  lemma {:induction false} SizeBelow(n: nat)
    ensures |Below(n)| == n && forall k: nat :: k in Below(n) <==> k < n
  {
    if n > 0 {
      SizeBelow(n - 1);
    }
  }

  lemma FewerThan(a: set<nat>, all: set<nat>, k: nat)
    requires a <= all && k in all && k !in a
    ensures |a| < |all|
  {
    assert a <= all - {k};
    Subset(a, all - {k});
  }

  lemma {:induction false} Subset(a: set<nat>, b: set<nat>)
    requires a <= b
    ensures |a| <= |b|
    decreases |a|
  {
    if a != {} {
      var x :| x in a;
      Subset(a - {x}, b - {x});
    }
  }

  lemma {:induction false} PickIndex(a: seq<nat>, n: nat, k: nat) returns (i: nat)
    requires n <= |a| && k in Image(a, n)
    ensures i < n && a[i] == k
  {
    if a[n - 1] == k {
      i := n - 1;
    } else {
      i := PickIndex(a, n - 1, k);
    }
  }

  lemma Row0() ensures Undoes(Row(0), Unrow(0)) { }
  lemma Row1() ensures Undoes(Row(1), Unrow(1)) { }
  lemma Row2() ensures Undoes(Row(2), Unrow(2)) { }
  lemma Row3() ensures Undoes(Row(3), Unrow(3)) { }
  lemma Row4() ensures Undoes(Row(4), Unrow(4)) { }
  lemma Row5() ensures Undoes(Row(5), Unrow(5)) { }
  lemma Row6() ensures Undoes(Row(6), Unrow(6)) { }
  lemma Row7() ensures Undoes(Row(7), Unrow(7)) { }
  lemma Row8() ensures Undoes(Row(8), Unrow(8)) { }
  lemma Row9() ensures Undoes(Row(9), Unrow(9)) { }
  lemma Row10() ensures Undoes(Row(10), Unrow(10)) { }
  lemma Row11() ensures Undoes(Row(11), Unrow(11)) { }
  lemma Row12() ensures Undoes(Row(12), Unrow(12)) { }
  lemma Row13() ensures Undoes(Row(13), Unrow(13)) { }
  lemma Row14() ensures Undoes(Row(14), Unrow(14)) { }
  lemma Row15() ensures Undoes(Row(15), Unrow(15)) { }
  lemma Row16() ensures Undoes(Row(16), Unrow(16)) { }
  lemma Row17() ensures Undoes(Row(17), Unrow(17)) { }
  lemma Row18() ensures Undoes(Row(18), Unrow(18)) { }
  lemma Row19() ensures Undoes(Row(19), Unrow(19)) { }
  lemma Row20() ensures Undoes(Row(20), Unrow(20)) { }
  lemma Row21() ensures Undoes(Row(21), Unrow(21)) { }
  lemma Row22() ensures Undoes(Row(22), Unrow(22)) { }
  lemma Row23() ensures Undoes(Row(23), Unrow(23)) { }
  lemma Row24() ensures Undoes(Row(24), Unrow(24)) { }
  lemma Row25() ensures Undoes(Row(25), Unrow(25)) { }
  lemma Row26() ensures Undoes(Row(26), Unrow(26)) { }
  lemma Row27() ensures Undoes(Row(27), Unrow(27)) { }
  lemma Row28() ensures Undoes(Row(28), Unrow(28)) { }
  lemma Row29() ensures Undoes(Row(29), Unrow(29)) { }

  lemma RowIsUndone(v: nat)
    requires v < 30
    ensures Undoes(Row(v), Unrow(v))
  {
    match v {
      case 0 => Row0();
      case 1 => Row1();
      case 2 => Row2();
      case 3 => Row3();
      case 4 => Row4();
      case 5 => Row5();
      case 6 => Row6();
      case 7 => Row7();
      case 8 => Row8();
      case 9 => Row9();
      case 10 => Row10();
      case 11 => Row11();
      case 12 => Row12();
      case 13 => Row13();
      case 14 => Row14();
      case 15 => Row15();
      case 16 => Row16();
      case 17 => Row17();
      case 18 => Row18();
      case 19 => Row19();
      case 20 => Row20();
      case 21 => Row21();
      case 22 => Row22();
      case 23 => Row23();
      case 24 => Row24();
      case 25 => Row25();
      case 26 => Row26();
      case 27 => Row27();
      case 28 => Row28();
      case 29 => Row29();
    }
  }

  lemma RowIsPermutation(v: nat)
    requires v < 30
    ensures Undoes(Row(v), Unrow(v)) && Undoes(Unrow(v), Row(v))
  {
    RowIsUndone(v);
    UndoneBothWays(Row(v), Unrow(v));
  }

  // ---- exclusive or of small numbers ----

  function XorNat(a: nat, b: nat): nat {
    if a == 0 && b == 0 then 0 else (a % 2 + b % 2) % 2 + 2 * XorNat(a / 2, b / 2)
  }

  /** The low bit and the rest of an exclusive or. */
  lemma XorParts(a: nat, b: nat)
    ensures XorNat(a, b) % 2 == (a % 2 + b % 2) % 2 && XorNat(a, b) / 2 == XorNat(a / 2, b / 2)
  {
  }

  lemma {:induction false} XorTwice(a: nat, b: nat)
    ensures XorNat(a, XorNat(a, b)) == b
    decreases a + b
  {
    if a != 0 || b != 0 {
      var x := XorNat(a, b);
      XorTwice(a / 2, b / 2);
      XorParts(a, b);
      XorParts(a, x);
      BitTwice(a % 2, b % 2);
      SameParts(XorNat(a, x), b);
    }
  }

  lemma BitTwice(p: nat, q: nat)
    requires p < 2 && q < 2
    ensures (p + (p + q) % 2) % 2 == q
  {
  }

  lemma SameParts(x: nat, y: nat)
    requires x / 2 == y / 2 && x % 2 == y % 2
    ensures x == y
  {
  }

  lemma {:induction false} XorZero(b: nat)
    ensures XorNat(0, b) == b
  {
    if b > 0 {
      XorZero(b / 2);
    }
  }

  lemma {:induction false} XorBelow(a: nat, b: nat, n: nat)
    requires a < Pow2(n) && b < Pow2(n)
    ensures XorNat(a, b) < Pow2(n)
  {
    if n > 0 && (a != 0 || b != 0) {
      XorBelow(a / 2, b / 2, n - 1);
    }
  }

  lemma EvenPlus(b: nat, m: nat)
    ensures (b + 2 * m) % 2 == b % 2 && (b + 2 * m) / 2 == b / 2 + m
  {
  }

  /** `v` moved up by `n` bits. */
  function Up(v: nat, n: nat): nat {
    if n == 0 then v else 2 * Up(v, n - 1)
  }

  /** Adding whole rows passes through an exclusive or with a nibble, so an
      index that starts in a row stays in it. */
  lemma {:induction false} XorKeepsRow(a: nat, b: nat, v: nat, n: nat)
    requires a < Pow2(n) && b < Pow2(n)
    ensures XorNat(a, b + Up(v, n)) == XorNat(a, b) + Up(v, n)
  {
    if n == 0 {
      XorZero(v);
    } else {
      XorKeepsRow(a / 2, b / 2, v, n - 1);
      XorKeepsEven(a, b, Up(v, n - 1));
    }
  }

  lemma XorKeepsEven(a: nat, b: nat, m: nat)
    requires XorNat(a / 2, b / 2 + m) == XorNat(a / 2, b / 2) + m
    ensures XorNat(a, b + 2 * m) == XorNat(a, b) + 2 * m
  {
    EvenPlus(b, m);
    XorParts(a, b + 2 * m);
    XorParts(a, b);
    SameUpTo(XorNat(a, b + 2 * m), XorNat(a, b), m);
  }

  lemma SameUpTo(x: nat, y: nat, m: nat)
    requires x % 2 == y % 2 && x / 2 == y / 2 + m
    ensures x == y + 2 * m
  {
  }

  // ---- the table: 128 bits, or 32 nibbles ----

  type Table = t: seq<bool> | |t| == 128 witness Zeros(128)

  function Nibble(t: Table, p: nat): (n: nat)
    requires p < 32
    ensures n < 16
  {
    NumberBound(t[4 * p..4 * p + 4]);
    assert Pow2(4) == 16;
    Number(t[4 * p..4 * p + 4])
  }

  function WithNibble(t: Table, p: nat, n: nat): Table
    requires p < 32
  {
    t[..4 * p] + BitsOf(n, 4) + t[4 * p + 4..]
  }

  lemma NibbleOfWith(t: Table, p: nat, n: nat, q: nat)
    requires p < 32 && q < 32 && n < 16
    ensures Nibble(WithNibble(t, p, n), q) == if q == p then n else Nibble(t, q)
  {
    var u := WithNibble(t, p, n);
    if q == p {
      assert u[4 * p..4 * p + 4] == BitsOf(n, 4);
      BitsRoundTrip(n, 4);
    } else {
      assert u[4 * q..4 * q + 4] == t[4 * q..4 * q + 4];
    }
  }

  lemma {:induction false} BitsRoundTrip(n: nat, k: nat)
    requires n < Pow2(k)
    ensures Number(BitsOf(n, k)) == n
  {
    if k > 0 {
      BitsRoundTrip(n / 2, k - 1);
      assert BitsOf(n, k)[1..] == BitsOf(n / 2, k - 1);
    }
  }

  lemma WithSameNibble(t: Table, p: nat)
    requires p < 32
    ensures WithNibble(t, p, Nibble(t, p)) == t
  {
    NumberRoundTrip(t[4 * p..4 * p + 4], 0);
    assert BitsOf(Nibble(t, p), 4) == t[4 * p..4 * p + 4];
  }

  lemma WithNibbleTwice(t: Table, p: nat, m: nat, n: nat)
    requires p < 32
    ensures WithNibble(WithNibble(t, p, m), p, n) == WithNibble(t, p, n)
  {
  }

  // ---- the nibble steps ----

  /** Entry `c` of row `v` of a map of 480; a nibble is always in range. */
  function At(m: seq<nat>, v: nat, c: nat): nat {
    if |m| == 480 && v < 30 && c < 16 then m[16 * v + c] else c
  }

  /** `u` undoes `m` row by row, and `m` undoes `u`. */
  ghost predicate Permutes(m: seq<nat>, u: seq<nat>) {
    && |m| == 480 && |u| == 480
    && forall v: nat, c: nat :: v < 30 && c < 16 ==>
         At(m, v, c) < 16 && At(u, v, c) < 16 && At(u, v, At(m, v, c)) == c && At(m, v, At(u, v, c)) == c
  }

  /** One round of the inner loops: `c` through row `v`, combined with the
      other nibble, through row `v` again. */
  function Mix(m: seq<nat>, v: nat, e: nat, c: nat): nat {
    At(m, v, XorNat(e, At(m, v, c)))
  }

  lemma NibbleXor(a: nat, b: nat)
    requires a < 16 && b < 16
    ensures XorNat(a, b) < 16
  {
    assert Pow2(4) == 16;
    XorBelow(a, b, 4);
  }

  type Mixer = (nat, nat) -> nat

  function Mixing(m: seq<nat>, v: nat): Mixer {
    (e: nat, c: nat) => Mix(m, v, e, c)
  }

  /** On nibbles, `g` undoes `f` and `f` undoes `g`. */
  ghost predicate Inverses(f: Mixer, g: Mixer) {
    forall e: nat, c: nat :: e < 16 && c < 16 ==>
      f(e, c) < 16 && g(e, c) < 16 && g(e, f(e, c)) == c && f(e, g(e, c)) == c
  }

  lemma MixingIsInvertible(m: seq<nat>, u: seq<nat>, v: nat)
    requires Permutes(m, u) && v < 30
    ensures Inverses(Mixing(m, v), Mixing(u, v))
  {
    forall e: nat, c: nat | e < 16 && c < 16
      ensures Mix(m, v, e, c) < 16 && Mix(u, v, e, c) < 16
      ensures Mix(u, v, e, Mix(m, v, e, c)) == c && Mix(m, v, e, Mix(u, v, e, c)) == c
    {
      MixIsUndone(m, u, v, e, c);
      MixIsUndone(u, m, v, e, c);
    }
  }

  lemma MixIsUndone(m: seq<nat>, u: seq<nat>, v: nat, e: nat, c: nat)
    requires Permutes(m, u) && v < 30 && e < 16 && c < 16
    ensures Mix(m, v, e, c) < 16 && Mix(u, v, e, Mix(m, v, e, c)) == c
  {
    var x := At(m, v, c);
    NibbleXor(e, x);
    XorTwice(e, x);
    assert At(u, v, At(m, v, XorNat(e, x))) == XorNat(e, x);
  }

  /** The steps touch the low 30 of the 32 nibbles. */
  const NIBBLES: nat := 30

  /** `c` mixed with the nibbles below `n` other than `v`, the highest first. */
  function Chain(f: Mixer, t: Table, v: nat, c: nat, n: nat): nat
    requires n <= 32
    decreases n
  {
    if n == 0 then c
    else if n - 1 == v then Chain(f, t, v, c, n - 1)
    else Chain(f, t, v, f(Nibble(t, n - 1), c), n - 1)
  }

  /** The same, the lowest first. */
  function Unchain(g: Mixer, t: Table, v: nat, c: nat, n: nat): nat
    requires n <= 32
  {
    if n == 0 then c
    else if n - 1 == v then Unchain(g, t, v, c, n - 1)
    else g(Nibble(t, n - 1), Unchain(g, t, v, c, n - 1))
  }

  lemma {:induction false} UnchainChain(f: Mixer, g: Mixer, t: Table, v: nat, c: nat, n: nat)
    requires Inverses(f, g) && c < 16 && n <= 32
    ensures Chain(f, t, v, c, n) < 16 && Unchain(g, t, v, Chain(f, t, v, c, n), n) == c
    decreases n
  {
    if n > 0 {
      UnchainChain(f, g, t, v, if n - 1 == v then c else f(Nibble(t, n - 1), c), n - 1);
    }
  }

  lemma {:induction false} ChainUnchain(f: Mixer, g: Mixer, t: Table, v: nat, c: nat, n: nat)
    requires Inverses(f, g) && c < 16 && n <= 32
    ensures Unchain(g, t, v, c, n) < 16 && Chain(f, t, v, Unchain(g, t, v, c, n), n) == c
    decreases n
  {
    if n > 0 {
      ChainUnchain(f, g, t, v, c, n - 1);
    }
  }

  /** The chains do not read the nibble they replace. */
  lemma {:induction false} ChainIgnoresOwn(f: Mixer, t: Table, v: nat, m: nat, c: nat, n: nat)
    requires v < 32 && n <= 32 && m < 16
    ensures Chain(f, WithNibble(t, v, m), v, c, n) == Chain(f, t, v, c, n)
    ensures Unchain(f, WithNibble(t, v, m), v, c, n) == Unchain(f, t, v, c, n)
    decreases n
  {
    if n > 0 {
      NibbleOfWith(t, v, m, n - 1);
      ChainIgnoresOwn(f, t, v, m, c, n - 1);
      if n - 1 != v {
        ChainIgnoresOwn(f, t, v, m, f(Nibble(t, n - 1), c), n - 1);
      }
    }
  }

  /** Step `v` replaces nibble `v` by its chain, looked up once more. */
  function Step(m: seq<nat>, t: Table, v: nat): Table
    requires v < 30
  {
    WithNibble(t, v, At(m, v, Chain(Mixing(m, v), t, v, Nibble(t, v), NIBBLES)))
  }

  function Unstep(u: seq<nat>, t: Table, v: nat): Table
    requires v < 30
  {
    WithNibble(t, v, Unchain(Mixing(u, v), t, v, At(u, v, Nibble(t, v)), NIBBLES))
  }

  lemma UnstepStep(m: seq<nat>, u: seq<nat>, t: Table, v: nat)
    requires Permutes(m, u) && v < 30
    ensures Unstep(u, Step(m, t, v), v) == t
  {
    var n := Nibble(t, v);
    var c := Chain(Mixing(m, v), t, v, n, NIBBLES);
    MixingIsInvertible(m, u, v);
    UnchainChain(Mixing(m, v), Mixing(u, v), t, v, n, NIBBLES);
    var k := At(m, v, c);
    NibbleOfWith(t, v, k, v);
    ChainIgnoresOwn(Mixing(u, v), t, v, k, c, NIBBLES);
    WithNibbleTwice(t, v, k, n);
    WithSameNibble(t, v);
  }

  lemma StepUnstep(m: seq<nat>, u: seq<nat>, t: Table, v: nat)
    requires Permutes(m, u) && v < 30
    ensures Step(m, Unstep(u, t, v), v) == t
  {
    var n := Nibble(t, v);
    MixingIsInvertible(m, u, v);
    ChainUnchain(Mixing(m, v), Mixing(u, v), t, v, At(u, v, n), NIBBLES);
    var k := Unchain(Mixing(u, v), t, v, At(u, v, n), NIBBLES);
    NibbleOfWith(t, v, k, v);
    ChainIgnoresOwn(Mixing(m, v), t, v, k, k, NIBBLES);
    WithNibbleTwice(t, v, k, n);
    WithSameNibble(t, v);
  }

  /** Steps for nibbles `n - 1` down to 0. */
  function Steps(m: seq<nat>, t: Table, n: nat): Table
    requires n <= NIBBLES
    decreases n
  {
    if n == 0 then t else Steps(m, Step(m, t, n - 1), n - 1)
  }

  function Unsteps(u: seq<nat>, t: Table, n: nat): Table
    requires n <= NIBBLES
  {
    if n == 0 then t else Unstep(u, Unsteps(u, t, n - 1), n - 1)
  }

  lemma {:induction false} UnstepsSteps(m: seq<nat>, u: seq<nat>, t: Table, n: nat)
    requires Permutes(m, u) && n <= NIBBLES
    ensures Unsteps(u, Steps(m, t, n), n) == t && Steps(m, Unsteps(u, t, n), n) == t
    decreases n
  {
    if n > 0 {
      UnstepsSteps(m, u, Step(m, t, n - 1), n - 1);
      UnstepStep(m, u, t, n - 1);
      UnstepsSteps(m, u, t, n - 1);
      StepUnstep(m, u, Unsteps(u, t, n - 1), n - 1);
    }
  }

  // ---- the bit shuffle ----

  /** The stride of the last pass: bit `q` is taken from bit `11 q` modulo 120. */
  function Stride(q: nat): (r: nat)
    requires q < 120
    ensures r < 120
  {
    11 * q % 120
  }

  lemma ModOf120(k: int, r: int)
    requires 0 <= r < 120
    ensures (120 * k + r) % 120 == r
  {
  }

  /** Striding twice is going nowhere, because 11 * 11 is 1 modulo 120. */
  lemma StrideTwice(q: nat)
    requires q < 120
    ensures Stride(Stride(q)) == q
  {
    var k := 11 * q / 120;
    assert 11 * Stride(q) == 120 * (q - 11 * k) + q;
    ModOf120(q - 11 * k, q);
  }

  function Shuffle(t: Table): Table {
    seq(128, q requires 0 <= q < 128 => if q < 120 then t[Stride(q)] else t[q])
  }

  lemma ShuffleTwice(t: Table)
    ensures Shuffle(Shuffle(t)) == t
  {
    forall q | 0 <= q < 120 ensures Shuffle(Shuffle(t))[q] == t[q] {
      StrideTwice(q);
    }
  }

  /** `decode_key_table`, with `m` the translation map. */
  function DecodeTable(m: seq<nat>, t: Table): Table {
    Shuffle(Steps(m, t, NIBBLES))
  }

  function EncodeTable(u: seq<nat>, t: Table): Table {
    Unsteps(u, Shuffle(t), NIBBLES)
  }

  /** Thirty rows one after the other. */
  function Flat(row: nat -> seq<nat>): seq<nat>
    requires forall v :: |row(v)| == 16
  {
    seq(480, i requires 0 <= i < 480 => row(i / 16)[i % 16])
  }

  lemma FlatAt(row: nat -> seq<nat>, v: nat, c: nat)
    requires v < 30 && c < 16 && forall v :: |row(v)| == 16
    ensures At(Flat(row), v, c) == row(v)[c]
  {
    assert (16 * v + c) / 16 == v && (16 * v + c) % 16 == c;
  }

  /** `W3_TRANSLATE_MAP`, and the map that reads it backwards. */
  function TranslateMap(): seq<nat> {
    Flat(Row)
  }

  function UntranslateMap(): seq<nat> {
    Flat(Unrow)
  }

  lemma TranslateMapPermutes()
    ensures Permutes(TranslateMap(), UntranslateMap())
  {
    var m, u := TranslateMap(), UntranslateMap();
    forall v: nat, c: nat | v < 30 && c < 16
      ensures At(m, v, c) < 16 && At(u, v, c) < 16 && At(u, v, At(m, v, c)) == c && At(m, v, At(u, v, c)) == c
    {
      RowIsPermutation(v);
      FlatUndone(Row, Unrow, v, c);
    }
  }

  lemma FlatUndone(row: nat -> seq<nat>, unrow: nat -> seq<nat>, v: nat, c: nat)
    requires v < 30 && c < 16 && (forall v :: |row(v)| == 16) && (forall v :: |unrow(v)| == 16)
    requires Undoes(row(v), unrow(v)) && Undoes(unrow(v), row(v))
    ensures At(Flat(row), v, c) < 16 && At(Flat(unrow), v, At(Flat(row), v, c)) == c
    ensures At(Flat(unrow), v, c) < 16 && At(Flat(row), v, At(Flat(unrow), v, c)) == c
  {
    FlatAt(row, v, c);
    FlatAt(unrow, v, c);
    FlatAt(unrow, v, row(v)[c]);
    FlatAt(row, v, unrow(v)[c]);
  }

  /** The unscrambling is a bijection on 128-bit tables. */
  lemma DecodeTableIsBijective(t: Table)
    ensures EncodeTable(UntranslateMap(), DecodeTable(TranslateMap(), t)) == t
    ensures DecodeTable(TranslateMap(), EncodeTable(UntranslateMap(), t)) == t
  {
    TranslateMapPermutes();
    NetworkIsBijective(TranslateMap(), UntranslateMap(), t);
  }

  lemma NetworkIsBijective(m: seq<nat>, u: seq<nat>, t: Table)
    requires Permutes(m, u)
    ensures EncodeTable(u, DecodeTable(m, t)) == t && DecodeTable(m, EncodeTable(u, t)) == t
  {
    ShuffleTwice(Steps(m, t, NIBBLES));
    UnstepsSteps(m, u, t, NIBBLES);
    ShuffleTwice(t);
    UnstepsSteps(m, u, Shuffle(t), NIBBLES);
  }

  // ---- the loops, on four words in place ----

  /** The words as one table: the last word holds the low bits. */
  function Bits(words: seq<Word>): Table
    requires |words| == 4
  {
    var low: seq<bool> := words[3];
    low + words[2] + words[1] + words[0]
  }

  lemma BitAt(words: seq<Word>, q: nat)
    requires |words| == 4 && q < 128
    ensures Bits(words)[q] == words[3 - q / 32][q % 32]
  {
  }

  lemma NibbleAt(words: seq<Word>, p: nat)
    requires |words| == 4 && p < 32
    ensures Bits(words)[4 * p..4 * p + 4] == words[3 - p / 8][4 * (p % 8)..4 * (p % 8) + 4]
  {
    var t, w, k := Bits(words), words[3 - p / 8], 4 * (p % 8);
    forall q | 4 * p <= q < 4 * p + 4 ensures t[q] == w[q - 4 * p + k] {
      BitAt(words, q);
      assert q / 32 == p / 8 && q % 32 == q - 4 * p + k;
    }
  }

  /** Every entry of the map is a nibble. */
  ghost predicate IsMap(m: seq<nat>) {
    |m| == 480 && forall i :: 0 <= i < 480 ==> m[i] < 16
  }

  lemma UpByNibble(v: nat)
    ensures Up(v, 4) == 16 * v
  {
    assert Up(v, 0) == v;
    assert Up(v, 1) == 2 * v;
    assert Up(v, 2) == 4 * v;
    assert Up(v, 3) == 8 * v;
  }

  /** The two lookups of an inner loop, whose indices stay inside the map. */
  method MixIn(m: seq<nat>, v: nat, e: nat, c: nat) returns (r: nat)
    requires IsMap(m) && v < 30 && e < 16 && c < 16
    ensures r == Mix(m, v, e, c) && r < 16
  {
    var i := 16 * v;
    var b := m[c + i];
    assert Pow2(4) == 16;
    UpByNibble(v);
    XorKeepsRow(e, b, v, 4);
    NibbleXor(e, b);
    r := m[XorNat(e, b + i)];
  }

  method ReadNibble(values: array<Word>, p: nat) returns (n: nat)
    requires values.Length == 4 && p < 32
    ensures n == Nibble(Bits(values[..]), p)
  {
    NibbleAt(values[..], p);
    var k := 4 * (p % 8);
    n := Number(values[3 - p / 8][k..k + 4]);
  }

  method WriteNibble(values: array<Word>, p: nat, n: nat)
    requires values.Length == 4 && p < 32 && n < 16
    modifies values
    ensures Bits(values[..]) == WithNibble(Bits(old(values[..])), p, n)
  {
    var k, x := 4 * (p % 8), 3 - p / 8;
    ghost var before := values[..];
    values[x] := values[x][..k] + BitsOf(n, 4) + values[x][k + 4..];
    WrittenNibble(before, values[..], p, n);
  }

  lemma WrittenNibble(before: seq<Word>, after: seq<Word>, p: nat, n: nat)
    requires |before| == 4 && p < 32
    requires var k, x := 4 * (p % 8), 3 - p / 8;
             after == before[x := before[x][..k] + BitsOf(n, 4) + before[x][k + 4..]]
    ensures Bits(after) == WithNibble(Bits(before), p, n)
  {
    var w := before[3 - p / 8];
    var k := 4 * (p % 8);
    var changed := w[..k] + BitsOf(n, 4) + w[k + 4..];
    forall q | 0 <= q < 128 ensures Bits(after)[q] == WithNibble(Bits(before), p, n)[q] {
      BitAt(before, q);
      BitAt(after, q);
      if q / 32 == p / 8 {
        assert q % 32 - k == q - 4 * p;
        assert after[3 - q / 32] == changed;
      }
    }
  }

  /** One inner loop: nibbles `high - 1` down to `low`. */
  method ChainDown(m: seq<nat>, values: array<Word>, v: nat, start: nat, high: nat, low: nat) returns (c: nat)
    requires IsMap(m) && values.Length == 4 && v < 30 && start < 16 && low <= high <= 30 && (v < low || high <= v)
    ensures c < 16
    ensures Chain(Mixing(m, v), Bits(values[..]), v, start, high) == Chain(Mixing(m, v), Bits(values[..]), v, c, low)
  {
    ghost var t := Bits(values[..]);
    c := start;
    var n := high;
    while n > low
      invariant low <= n <= high && c < 16
      invariant Chain(Mixing(m, v), t, v, start, high) == Chain(Mixing(m, v), t, v, c, n)
    {
      var e := ReadNibble(values, n - 1);
      c := MixIn(m, v, e, c);
      n := n - 1;
    }
  }

  /** One round of the outer loop; the inner loops skip nibble `v` itself. */
  method StepNibble(m: seq<nat>, values: array<Word>, v: nat)
    requires IsMap(m) && values.Length == 4 && v < 30
    modifies values
    ensures Bits(values[..]) == Step(m, Bits(old(values[..])), v)
  {
    var n := ReadNibble(values, v);
    var c := ChainAll(m, values, v, n);
    WriteNibble(values, v, m[c + 16 * v]);
  }

  method ChainAll(m: seq<nat>, values: array<Word>, v: nat, n: nat) returns (c: nat)
    requires IsMap(m) && values.Length == 4 && v < 30 && n < 16
    ensures c < 16 && c == Chain(Mixing(m, v), Bits(values[..]), v, n, NIBBLES)
  {
    ghost var f, t := Mixing(m, v), Bits(values[..]);
    var d := ChainDown(m, values, v, n, NIBBLES, v + 1);
    ChainSkips(f, t, v, d);
    c := ChainDown(m, values, v, d, v, 0);
    ChainSkips(f, t, v, c);
  }

  lemma ChainSkips(f: Mixer, t: Table, v: nat, c: nat)
    requires v < 30
    ensures Chain(f, t, v, c, v + 1) == Chain(f, t, v, c, v) && Chain(f, t, v, c, 0) == c
  {
  }

  method UnscrambleNibbles(m: seq<nat>, values: array<Word>)
    requires IsMap(m) && values.Length == 4
    modifies values
    ensures Bits(values[..]) == Steps(m, Bits(old(values[..])), NIBBLES)
  {
    ghost var t := Bits(values[..]);
    var n: nat := NIBBLES;
    while n > 0
      invariant n <= NIBBLES
      invariant Steps(m, t, NIBBLES) == Steps(m, Bits(values[..]), n)
    {
      StepNibble(m, values, n - 1);
      n := n - 1;
    }
  }

  method ShuffleBits(values: array<Word>)
    requires values.Length == 4
    modifies values
    ensures Bits(values[..]) == Shuffle(Bits(old(values[..])))
  {
    var copy := values[..];
    ghost var t := Bits(copy);
    var from := 0;
    for to := 0 to 120
      invariant from < 120 && (to < 120 ==> from == Stride(to))
      invariant ShuffledUpTo(Bits(values[..]), t, to)
    {
      BitAt(copy, from);
      var bit := copy[3 - from / 32][from % 32];
      SetBit(values, to, bit);
      if to < 119 {
        StrideNext(to);
      }
      from := from + 11;
      if from >= 120 {
        from := from - 120;
      }
    }
    assert Bits(values[..]) == Shuffle(t);
  }

  lemma Mod120(k: nat, r: nat)
    requires r < 240
    ensures (120 * k + r) % 120 == if r >= 120 then r - 120 else r
  {
    if r >= 120 {
      assert 120 * k + r == 120 * (k + 1) + (r - 120);
    }
  }

  lemma StrideNext(q: nat)
    requires q < 119
    ensures Stride(q + 1) == if Stride(q) + 11 >= 120 then Stride(q) - 109 else Stride(q) + 11
  {
    var k := 11 * q / 120;
    Mod120(k, Stride(q) + 11);
    assert 11 * (q + 1) == 120 * k + (Stride(q) + 11);
  }

  method SetBit(values: array<Word>, q: nat, bit: bool)
    requires values.Length == 4 && q < 128
    modifies values
    ensures Bits(values[..]) == Bits(old(values[..]))[q := bit]
  {
    ghost var before := values[..];
    values[3 - q / 32] := values[3 - q / 32][q % 32 := bit];
    OneBitSet(before, values[..], q, bit);
  }

  ghost predicate ShuffledUpTo(u: Table, t: Table, n: nat) {
    forall q :: 0 <= q < 128 ==> u[q] == if q < n && q < 120 then t[Stride(q)] else t[q]
  }

  lemma OneBitSet(before: seq<Word>, after: seq<Word>, q: nat, bit: bool)
    requires |before| == 4 && q < 128
    requires after == before[3 - q / 32 := before[3 - q / 32][q % 32 := bit]]
    ensures Bits(after) == Bits(before)[q := bit]
  {
    forall r | 0 <= r < 128 ensures Bits(after)[r] == Bits(before)[q := bit][r] {
      BitAt(before, r);
      BitAt(after, r);
    }
  }

  method DecodeKeyTable(values: array<Word>)
    requires values.Length == 4
    modifies values
    ensures Bits(values[..]) == DecodeTable(TranslateMap(), Bits(old(values[..])))
  {
    var m := TranslateMap();
    MapIsNibbles();
    UnscrambleNibbles(m, values);
    ShuffleBits(values);
  }

  lemma MapIsNibbles()
    ensures IsMap(TranslateMap())
  {
    TranslateMapPermutes();
    forall i: nat | i < 480 ensures TranslateMap()[i] < 16 {
      assert At(TranslateMap(), i / 16, i % 16) < 16;
    }
  }

  // ---- the walk over the 52 base-5 digits ----

  datatype Digits = Digits(table: seq<int>) | InvalidChar(c: nat)

  /** `W3_KEY_MAP` as signed bytes: 0xFF is -1. */
  function KeyValue(c: nat): int {
    var u := if 97 <= c <= 122 then c - 32 else c;
    if u == 50 then 0 else if u == 52 then 1
    else if 54 <= u <= 57 then u - 52
    else if 66 <= u <= 72 then u - 60
    else if u == 74 then 13 else if u == 75 then 14
    else if u == 77 then 15 else if u == 78 then 16
    else if u == 80 then 17 else if u == 82 then 18 else if u == 84 then 19
    else if 86 <= u <= 90 then u - 66
    else -1
  }

  /** The 25 characters of a key, in the order of their values. */
  const KeyAlphabet: string := "246789BCDEFGHJKMNPRTVWXYZ"

  predicate IsLower(c: nat) {
    97 <= c <= 122
  }

  function ToUpper(c: nat): nat {
    if IsLower(c) then c - 32 else c
  }

  /** The key map numbers the alphabet, whatever the case, and nothing else. */
  lemma KeyMapIsAlphabet(c: nat)
    ensures -1 <= KeyValue(c) < 25 && |KeyAlphabet| == 25
    ensures KeyValue(c) >= 0 ==> KeyAlphabet[KeyValue(c)] as nat == ToUpper(c)
    ensures forall v :: 0 <= v < 25 && KeyAlphabet[v] as nat == ToUpper(c) ==> KeyValue(c) == v
  {
    forall v: nat | v < 25 && KeyAlphabet[v] as nat == ToUpper(c) ensures KeyValue(c) == v {
      KeyOfLetter(v, ToUpper(c));
    }
    LetterOfKey(ToUpper(c));
  }

  lemma KeyOfLetter(v: nat, u: nat)
    requires v < 25 && KeyAlphabet[v] as nat == u
    ensures KeyValue(u) == v
  {
  }

  lemma LetterOfKey(u: nat)
    ensures -1 <= KeyValue(u) < 25
    ensures KeyValue(u) >= 0 && !IsLower(u) ==> KeyAlphabet[KeyValue(u)] as nat == u
  {
  }

  /** Division and remainder of signed bytes, towards zero. */
  function Quotient(n: int): int {
    if n >= 0 then n / 5 else -(-n / 5)
  }

  function Remainder(n: int): int {
    n - 5 * Quotient(n)
  }

  /** The position written at the `k`-th write, counted from one. */
  function Position(k: nat): (p: nat)
    ensures p < 52
  {
    (0x21 + 0x07B5 * k) % 52
  }

  /** The write that reaches position `p`: 17 undoes the stride modulo 52. */
  function WriteAt(p: nat): (k: nat)
    ensures 1 <= k <= 52
  {
    (17 * p + 17 * 19 - 1) % 52 + 1
  }

  lemma ModularForm(q: int, r: int)
    requires 0 <= r < 52
    ensures (52 * q + r) % 52 == r
  {
  }

  /** Over a key's 52 writes every position is written exactly once. */
  lemma WalkIsBijective(p: nat, k: nat)
    requires p < 52 && 1 <= k <= 52
    ensures Position(k) == p <==> k == WriteAt(p)
  {
    var j := (0x21 + 0x07B5 * k) / 52;
    if Position(k) == p {
      assert 17 * p + 17 * 19 - 1 == 52 * (17 + 645 * k - 17 * j) + (k - 1);
      ModularForm(17 + 645 * k - 17 * j, k - 1);
    }
    var m := (17 * p + 17 * 19 - 1) / 52;
    if k == WriteAt(p) {
      assert k == 17 * p + 323 - 52 * m;
      assert 0x21 + 0x07B5 * k == 52 * (645 * p + 12256 - 1973 * m) + p;
      ModularForm(645 * p + 12256 - 1973 * m, p);
    }
  }

  /** What the walk leaves at each position of the table for `key`. */
  ghost predicate IsWalk(key: seq<nat>, table: seq<int>) {
    && |table| == 52
    && forall i :: 0 <= i < |key| ==> Written(key[i], i, table)
  }

  ghost predicate Written(c: nat, i: nat, table: seq<int>)
    requires |table| == 52
  {
    table[Position(2 * i + 1)] == Quotient(KeyValue(c)) && table[Position(2 * i + 2)] == Remainder(KeyValue(c))
  }

  /** The loop over the characters. Characters outside the map are taken as -1;
      only those past 255 are refused. */
  method WalkKey(key: seq<nat>) returns (r: Digits)
    requires |key| <= 26
    ensures r.InvalidChar? <==> exists i :: 0 <= i < |key| && key[i] >= 256
    ensures r.Digits? ==> IsWalk(key, r.table)
  {
    var table := seq(52, _ => 0);
    var b := 0x21;
    var i := 0;
    while i < |key|
      invariant 0 <= i <= |key|
      invariant b == Position(2 * i)
      invariant forall k :: 0 <= k < i ==> key[k] < 256
      invariant IsWalk(key[..i], table)
    {
      if key[i] >= 256 {
        return InvalidChar(key[i]);
      }
      var decode := KeyValue(key[i]);
      NextPosition(2 * i);
      var a := (b + 0x07B5) % 52;
      NextPosition(2 * i + 1);
      b := (a + 0x07B5) % 52;
      ghost var before := table;
      table := table[a := Quotient(decode)][b := Remainder(decode)];
      WalkGrows(key, i, before, table);
      i := i + 1;
    }
    assert key[..|key|] == key;
    return Digits(table);
  }

  lemma NextPosition(k: nat)
    ensures (Position(k) + 0x07B5) % 52 == Position(k + 1)
  {
    var j := (0x21 + 0x07B5 * k) / 52;
    var m, r := (0x21 + 0x07B5 * (k + 1)) / 52, Position(k + 1);
    assert Position(k) + 0x07B5 == 52 * (m - j) + r;
    ModularForm(m - j, r);
  }

  lemma WalkGrows(key: seq<nat>, i: nat, before: seq<int>, table: seq<int>)
    requires i < |key| <= 26 && IsWalk(key[..i], before)
    requires table == before[Position(2 * i + 1) := Quotient(KeyValue(key[i]))][Position(2 * i + 2) := Remainder(KeyValue(key[i]))]
    ensures IsWalk(key[..i + 1], table)
  {
    DistinctPositions(2 * i + 1, 2 * i + 2);
    forall k | 0 <= k < i ensures Written(key[k], k, table) {
      assert key[..i][k] == key[k] && Written(key[k], k, before);
      DistinctPositions(2 * k + 1, 2 * i + 1);
      DistinctPositions(2 * k + 1, 2 * i + 2);
      DistinctPositions(2 * k + 2, 2 * i + 1);
      DistinctPositions(2 * k + 2, 2 * i + 2);
    }
  }

  lemma DistinctPositions(j: nat, k: nat)
    requires 1 <= j < k <= 52
    ensures Position(j) != Position(k)
  {
    WalkIsBijective(Position(j), j);
    WalkIsBijective(Position(j), k);
  }

  /** Every position of a full key's table holds one digit of one character,
      and the two digits of a character give back its value. */
  lemma WalkLosesNothing(key: seq<nat>, table: seq<int>, i: nat)
    requires |key| == 26 && IsWalk(key, table) && i < 26
    ensures KeyValue(key[i]) == 5 * table[Position(2 * i + 1)] + table[Position(2 * i + 2)]
  {
    assert Written(key[i], i, table);
  }
}
