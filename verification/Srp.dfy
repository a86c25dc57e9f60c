/** The client side of the NLS log-on, a variant of SRP
    (crates/spectre-bnet/src/bncsutil/nls.rs). Big integers are naturals, and
    `modpow` is exponentiation followed by reduction. */
module Srp {
  import opened Basics
  import opened Wire

  const NlsPrimeBytes: Bytes := [
    0x87, 0xC7, 0x23, 0x85, 0x65, 0xF6, 0x16, 0x12, 0xD9, 0x12, 0x32, 0xC7, 0x78, 0x6C, 0x97, 0x7E,
    0x55, 0xB5, 0x92, 0xA0, 0x8C, 0xB6, 0x86, 0x21, 0x03, 0x18, 0x99, 0x61, 0x8B, 0x1A, 0xFF, 0xF8]

  const NLS_G := 47

  function Pow(b: nat, e: nat): nat {
    if e == 0 then 1 else b * Pow(b, e - 1)
  }

  function ModPow(b: nat, e: nat, n: nat): nat
    requires n > 0
  {
    Pow(b, e) % n
  }

  // ---- byte arrays ----

  /** `to_bytes_le`: as many bytes as needed, at least one. */
  function ToBytesLe(n: nat): (s: Bytes)
    ensures s != []
  {
    if n < 256 then [n as byte] else [(n % 256) as byte] + ToBytesLe(n / 256)
  }

  /** The copy into a zeroed 32-byte array. */
  function Into32(s: Bytes): (r: Bytes)
    ensures |r| == 32
  {
    var len := Min(|s|, 32);
    s[..len] + ZeroBytes(32 - len)
  }

  lemma {:induction false} ToBytesLeRoundTrip(n: nat, k: nat)
    requires k > 0 && n < Pow256(k)
    ensures |ToBytesLe(n)| <= k && FromLe(ToBytesLe(n)) == n
  {
    if n >= 256 {
      assert k > 1 by {
        assert Pow256(1) == 256;
      }
      ToBytesLeRoundTrip(n / 256, k - 1);
      assert ToBytesLe(n)[1..] == ToBytesLe(n / 256);
    } else {
      assert FromLe([n as byte]) == n + 256 * FromLe([]);
    }
  }

  lemma {:induction false} ZerosAreZero(k: nat)
    ensures FromLe(ZeroBytes(k)) == 0
  {
    if k > 0 {
      ZerosAreZero(k - 1);
      assert ZeroBytes(k)[1..] == ZeroBytes(k - 1);
    }
  }

  lemma {:induction false} TrailingZeros(s: Bytes, k: nat)
    ensures FromLe(s + ZeroBytes(k)) == FromLe(s)
  {
    if s == [] {
      ZerosAreZero(k);
      assert s + ZeroBytes(k) == ZeroBytes(k);
    } else {
      TrailingZeros(s[1..], k);
      assert (s + ZeroBytes(k))[1..] == s[1..] + ZeroBytes(k);
    }
  }

  /** The 32-byte copy of a number below 2^256 never truncates. */
  lemma CopyNeverTruncates(n: nat)
    requires n < Pow256(32)
    ensures FromLe(Into32(ToBytesLe(n))) == n
  {
    ToBytesLeRoundTrip(n, 32);
    var s := ToBytesLe(n);
    assert s[..|s|] == s;
    TrailingZeros(s, 32 - |s|);
  }

  // ---- residues ----

  lemma MulMod(a: nat, b: nat, n: nat)
    requires n > 0
    ensures (a * b) % n == ((a % n) * (b % n)) % n
  {
    var p, q := a / n, b / n;
    var r, s := a % n, b % n;
    assert a == n * p + r && b == n * q + s;
    var k := n * p * q + p * s + q * r;
    assert a * b == n * k + r * s by {
      assert (n * p + r) * (n * q + s) == n * p * (n * q) + n * p * s + r * (n * q) + r * s;
    }
    SameResidue(a * b, r * s, k, n);
  }

  lemma SameResidue(a: int, b: int, k: int, n: int)
    requires n > 0 && a == n * k + b
    ensures a % n == b % n
  {
    var q, r := b / n, b % n;
    assert a == n * (k + q) + r;
    DivModUnique(a, n, k + q, r);
  }

  lemma {:induction false} PowMod(b: nat, e: nat, n: nat)
    requires n > 0
    ensures Pow(b % n, e) % n == Pow(b, e) % n
  {
    if e > 0 {
      PowMod(b, e - 1, n);
      MulMod(b % n, Pow(b % n, e - 1), n);
      MulMod(b, Pow(b, e - 1), n);
      SmallMod(b % n, n);
    }
  }

  lemma SmallMod(a: nat, n: nat)
    requires a < n
    ensures a % n == a
  {
  }

  lemma {:induction false} PowAdd(b: nat, d: nat, e: nat)
    ensures Pow(b, d + e) == Pow(b, d) * Pow(b, e)
  {
    if d > 0 {
      PowAdd(b, d - 1, e);
      MulAssociates(b, Pow(b, d - 1), Pow(b, e));
      assert d + e - 1 == d - 1 + e;
    }
  }

  lemma MulAssociates(x: nat, y: nat, z: nat)
    ensures x * (y * z) == x * y * z
  {
  }

  lemma {:induction false} PowMul(b: nat, d: nat, e: nat)
    ensures Pow(b, d * e) == Pow(Pow(b, d), e)
  {
    if e == 0 {
      assert d * e == 0;
    } else {
      PowMul(b, d, e - 1);
      PowAdd(b, d, d * (e - 1));
      assert d * e == d + d * (e - 1);
    }
  }

  // ---- the protocol ----

  /** The client's base: the server's key without the verifier. */
  function ClientBase(v: nat, key: nat, n: nat): nat
    requires n > 0
  {
    (key + n - v % n) % n
  }

  function ClientS(a: nat, x: nat, u: nat, key: nat, n: nat): nat
    requires n > 0
  {
    ModPow(ClientBase(ModPow(NLS_G, x, n), key, n), a + u * x, n)
  }

  /** The server's value, section 3 of RFC 2945. */
  function ServerS(clientKey: nat, v: nat, u: nat, b: nat, n: nat): nat
    requires n > 0
  {
    ModPow(clientKey * Pow(v, u), b, n)
  }

  function ServerKey(v: nat, b: nat, n: nat): nat
    requires n > 0
  {
    (v + Pow(NLS_G, b)) % n
  }

  lemma BaseIsServerPower(v: nat, b: nat, n: nat)
    requires n > 0
    ensures ClientBase(v, ServerKey(v, b, n), n) == Pow(NLS_G, b) % n
  {
    var g := Pow(NLS_G, b);
    var key := (v + g) % n;
    assert key == v + g - n * ((v + g) / n);
    assert v % n == v - n * (v / n);
    var k := 1 + v / n - (v + g) / n;
    assert key + n - v % n == n * k + g by {
      assert n * k == n + n * (v / n) - n * ((v + g) / n);
    }
    SameResidue(key + n - v % n, g, k, n);
  }

  /** Key agreement: whatever the secrets, both sides compute the same value. */
  lemma KeysAgree(a: nat, b: nat, x: nat, u: nat, n: nat)
    requires n > 0
    ensures var v := ModPow(NLS_G, x, n);
            ClientS(a, x, u, ServerKey(v, b, n), n) == ServerS(ModPow(NLS_G, a, n), v, u, b, n)
  {
    var g, v := NLS_G, ModPow(NLS_G, x, n);
    var e := a + u * x;
    BaseIsServerPower(v, b, n);
    PowMod(Pow(g, b), e, n);
    PowMul(g, b, e);
    ServerPower(a, x, u, n);
    var y := ModPow(g, a, n) * Pow(v, u);
    PowMod(y, b, n);
    PowMod(Pow(g, e), b, n);
    PowMul(g, e, b);
    assert b * e == e * b;
  }

  /** The server's base is `g^(a + ux)`. */
  lemma ServerPower(a: nat, x: nat, u: nat, n: nat)
    requires n > 0
    ensures (ModPow(NLS_G, a, n) * Pow(ModPow(NLS_G, x, n), u)) % n == Pow(NLS_G, a + u * x) % n
  {
    var g := NLS_G;
    MulMod(ModPow(g, a, n), Pow(ModPow(g, x, n), u), n);
    SmallMod(ModPow(g, a, n), n);
    PowMod(Pow(g, x), u, n);
    PowMul(g, x, u);
    MulMod(Pow(g, a), Pow(g, u * x), n);
    PowAdd(g, a, u * x);
    assert x * u == u * x;
  }

  // ---- the session ----

  /** SHA-1, known only as a function. */
  type Sha = Bytes -> Bytes

  /** `name` and `password` are the ASCII-uppercased credentials. */
  datatype Session = Session(name: Bytes, password: Bytes, a: nat, publicKey: Bytes)

  datatype SResult = SOk(s: Bytes) | InvalidServerPublicKey

  /** A modulus whose residues fit 32 bytes. */
  ghost predicate IsModulus(n: nat) {
    0 < n <= Pow256(32)
  }

  lemma NlsPrimeIsModulus()
    ensures IsModulus(FromLe(NlsPrimeBytes))
  {
    assert FromLe(NlsPrimeBytes) == 0x87 + 256 * FromLe(NlsPrimeBytes[1..]);
    FromLeRoundTrip(NlsPrimeBytes);
  }

  /** `new`; `random` is the 32 bytes the private key is drawn from. The
      modulus `n` is `NlsPrimeBytes` read as a little-endian number. */
  function NewSession(name: Bytes, password: Bytes, random: Bytes, n: nat): Session
    requires n > 0
  {
    var a := FromLe(random) % n;
    Session(name, password, a, Into32(ToBytesLe(ModPow(NLS_G, a, n))))
  }

  /** `compute_x`: 0x3A is the colon between name and password. */
  function ComputeX(session: Session, salt: Bytes, sha: Sha): nat {
    FromLe(sha(salt + sha(session.name + [0x3A] + session.password)))
  }

  /** `compute_v`. */
  function ComputeV(session: Session, salt: Bytes, sha: Sha, n: nat): Bytes
    requires n > 0
  {
    Into32(ToBytesLe(ModPow(NLS_G, ComputeX(session, salt, sha), n)))
  }

  function FromBe(s: Bytes): nat {
    if s == [] then 0 else 256 * FromBe(Most(s)) + Last(s) as nat
  }

  /** The scrambler: the first four bytes of the hash of the server's key. */
  function Scrambler(serverKey: Bytes, sha: Sha): nat {
    FromBe(sha(serverKey)[..Min(4, |sha(serverKey)|)])
  }

  /** `compute_s`. */
  function ComputeS(session: Session, serverKey: Bytes, salt: Bytes, sha: Sha, n: nat): SResult
    requires n > 0
  {
    var key := FromLe(serverKey);
    if key == 0 || key >= n then InvalidServerPublicKey
    else
      var x := ComputeX(session, salt, sha);
      SOk(Into32(ToBytesLe(ClientS(session.a, x, Scrambler(serverKey, sha), key, n))))
  }

  lemma ResidueIsExact(m: nat, n: nat)
    requires IsModulus(n)
    ensures FromLe(Into32(ToBytesLe(m % n))) == m % n
  {
    CopyNeverTruncates(m % n);
  }

  /** The public values the client sends stand for `g^a` and `g^x`. */
  lemma PublicValuesAreExact(name: Bytes, password: Bytes, random: Bytes, salt: Bytes, sha: Sha, n: nat)
    requires IsModulus(n)
    ensures var s := NewSession(name, password, random, n);
            && FromLe(s.publicKey) == ModPow(NLS_G, s.a, n)
            && FromLe(ComputeV(s, salt, sha, n)) == ModPow(NLS_G, ComputeX(s, salt, sha), n)
  {
    var s := NewSession(name, password, random, n);
    ResidueIsExact(Pow(NLS_G, s.a), n);
    ResidueIsExact(Pow(NLS_G, ComputeX(s, salt, sha)), n);
  }

  lemma ComputeSIsClientS(s: Session, serverKey: Bytes, salt: Bytes, sha: Sha, n: nat)
    requires IsModulus(n)
    ensures match ComputeS(s, serverKey, salt, sha, n)
            case InvalidServerPublicKey => FromLe(serverKey) == 0 || FromLe(serverKey) >= n
            case SOk(bytes) =>
              FromLe(serverKey) != 0
              && FromLe(bytes) == ClientS(s.a, ComputeX(s, salt, sha), Scrambler(serverKey, sha), FromLe(serverKey), n)
  {
    ClientSIsExact(s.a, ComputeX(s, salt, sha), Scrambler(serverKey, sha), FromLe(serverKey), n);
  }

  lemma ClientSIsExact(a: nat, x: nat, u: nat, key: nat, n: nat)
    requires IsModulus(n)
    ensures FromLe(Into32(ToBytesLe(ClientS(a, x, u, key, n)))) == ClientS(a, x, u, key, n)
  {
    var v := ModPow(NLS_G, x, n);
    ResidueIsExact(Pow((key + n - v % n) % n, a + u * x), n);
  }

  lemma ServerKeyIsExact(v: nat, b: nat, n: nat)
    requires IsModulus(n)
    ensures FromLe(Into32(ToBytesLe(ServerKey(v, b, n)))) == ServerKey(v, b, n) < n
  {
    ResidueIsExact(v + Pow(NLS_G, b), n);
  }

  /** SRP agreement: for every client and every server secret `b`, the client
      refuses the server's public key exactly when it is zero, and otherwise
      both sides hold the same value, each working only from what the other
      sent. */
  lemma ClientAndServerAgree(name: Bytes, password: Bytes, random: Bytes, salt: Bytes, sha: Sha, b: nat, n: nat)
    requires IsModulus(n)
    ensures var s := NewSession(name, password, random, n);
            var v := FromLe(ComputeV(s, salt, sha, n));
            var serverKey := Into32(ToBytesLe(ServerKey(v, b, n)));
            match ComputeS(s, serverKey, salt, sha, n)
            case InvalidServerPublicKey => ServerKey(v, b, n) == 0
            case SOk(bytes) =>
              ServerKey(v, b, n) != 0
              && FromLe(bytes) == ServerS(FromLe(s.publicKey), v, Scrambler(serverKey, sha), b, n)
  {
    var s := NewSession(name, password, random, n);
    PublicValuesAreExact(name, password, random, salt, sha, n);
    var v := FromLe(ComputeV(s, salt, sha, n));
    ServerKeyIsExact(v, b, n);
    var serverKey := Into32(ToBytesLe(ServerKey(v, b, n)));
    ComputeSIsClientS(s, serverKey, salt, sha, n);
    KeysAgree(s.a, b, ComputeX(s, salt, sha), Scrambler(serverKey, sha), n);
  }
}
