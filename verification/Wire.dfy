/** Little-endian integers on the wire (`to_le_bytes`, `from_le_bytes`, and the
    readers of crates/spectre-protocol/src/bytes_ext.rs). */
module Wire {
  import opened Basics

  function Pow256(k: nat): (p: nat)
    ensures p > 0
  {
    if k == 0 then 1 else 256 * Pow256(k - 1)
  }

  /** The low `k` bytes of `n`, least significant first. */
  function Le(n: nat, k: nat): (s: Bytes)
    ensures |s| == k
  {
    if k == 0 then [] else [(n % 256) as byte] + Le(n / 256, k - 1)
  }

  function FromLe(s: Bytes): nat {
    if s == [] then 0 else s[0] as nat + 256 * FromLe(s[1..])
  }

  /** A value that fits its field survives. */
  lemma {:induction false} LeRoundTrip(n: nat, k: nat)
    requires n < Pow256(k)
    ensures FromLe(Le(n, k)) == n
  {
    if k > 0 {
      LeRoundTrip(n / 256, k - 1);
      assert Le(n, k)[1..] == Le(n / 256, k - 1);
    }
  }

  /** A field is determined by its value, which fits it. */
  lemma {:induction false} FromLeRoundTrip(s: Bytes)
    ensures FromLe(s) < Pow256(|s|)
    ensures Le(FromLe(s), |s|) == s
  {
    if s != [] {
      FromLeRoundTrip(s[1..]);
      LowAndHigh(s[0] as nat, FromLe(s[1..]));
      assert s == [s[0]] + s[1..];
    }
  }

  lemma LowAndHigh(low: nat, high: nat)
    requires low < 256
    ensures (low + 256 * high) % 256 == low && (low + 256 * high) / 256 == high
  {
  }

  /** A value that does not fit keeps its low bytes. */
  lemma {:induction false} LeTruncates(n: nat, k: nat)
    ensures FromLe(Le(n, k)) == n % Pow256(k)
  {
    if k > 0 {
      LeTruncates(n / 256, k - 1);
      assert Le(n, k)[1..] == Le(n / 256, k - 1);
      ModStep(n, Pow256(k - 1));
    }
  }

  lemma ModStep(n: nat, p: nat)
    requires p > 0
    ensures n % (256 * p) == n % 256 + 256 * (n / 256 % p)
  {
    var q, r := n / 256 / p, n / 256 % p;
    assert n == 256 * (p * q + r) + n % 256;
    assert n == (256 * p) * q + (256 * r + n % 256);
    assert 256 * r + n % 256 < 256 * p;
    DivModUnique(n, 256 * p, q, 256 * r + n % 256);
  }

  lemma DivModUnique(n: int, d: int, q: int, r: int)
    requires d > 0 && 0 <= r < d && n == d * q + r
    ensures n / d == q && n % d == r
  {
    var e := n / d - q;
    assert d * e == r - n % d;
    assert e >= 1 ==> d * e >= d;
    assert e <= -1 ==> d * e <= -d;
  }

  /** Taking apart what was put together. */
  lemma Middle(a: Bytes, b: Bytes, c: Bytes)
    ensures (a + (b + c))[|a|..|a| + |b|] == b && (a + (b + c))[|a| + |b|..] == c
  {
  }

  function ZeroBytes(n: nat): (r: Bytes)
    ensures |r| == n && forall i :: 0 <= i < n ==> r[i] == 0
  {
    seq(n, _ => 0)
  }

  /** Bytes up to the first zero (`put_cstr` adds the terminator). */
  function CStr(s: Bytes): Bytes {
    s + [0]
  }
}
