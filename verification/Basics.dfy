/** Vocabulary shared by every module: options, machine-integer bounds and
    the little facts about sequences that several proofs need. */
module Basics {
  datatype Option<+T> = None | Some(value: T)

  newtype byte = b: int | 0 <= b < 256

  type Bytes = seq<byte>

  const U16_MAX := 0xFFFF
  const U32_MAX := 0xFFFF_FFFF
  const U32_MODULUS := 0x1_0000_0000

  /** `u32::saturating_add(1)`. */
  function SaturatingInc(n: nat): nat {
    if n < U32_MAX then n + 1 else n
  }

  /** `saturating_sub` on unsigned integers. */
  function SaturatingSub(a: nat, b: nat): nat {
    if a >= b then a - b else 0
  }

  /** `u32::wrapping_add`. */
  function WrappingAdd(a: nat, b: nat): nat {
    (a + b) % U32_MODULUS
  }

  /** A wrapped running total is the total, wrapped. */
  lemma WrappedTotal(total: nat, more: nat)
    ensures WrappingAdd(total % U32_MODULUS, more) == (total + more) % U32_MODULUS
    ensures WrappingAdd(total % U32_MODULUS, 0) == total % U32_MODULUS
  {
    assert (total % 0x1_0000_0000 + more) % 0x1_0000_0000 == (total + more) % 0x1_0000_0000;
  }

  function Min(a: nat, b: nat): nat {
    if a <= b then a else b
  }

  function Last<T>(s: seq<T>): T
    requires s != []
  {
    s[|s| - 1]
  }

  function Most<T>(s: seq<T>): seq<T>
    requires s != []
  {
    s[..|s| - 1]
  }

  lemma Associate<T>(a: seq<T>, b: seq<T>, c: seq<T>)
    ensures (a + b) + c == a + (b + c)
  {
  }

  lemma DropDrop<T>(s: seq<T>, a: nat, b: nat)
    requires a + b <= |s|
    ensures s[a..][b..] == s[a + b..]
  {
  }

  function Flatten<T>(ss: seq<seq<T>>): seq<T> {
    if ss == [] then [] else ss[0] + Flatten(ss[1..])
  }

  lemma {:induction false} FlattenConcat<T>(a: seq<seq<T>>, b: seq<seq<T>>)
    ensures Flatten(a + b) == Flatten(a) + Flatten(b)
  {
    if a == [] {
      assert a + b == b;
    } else {
      FlattenConcat(a[1..], b);
      assert (a + b)[0] == a[0] && (a + b)[1..] == a[1..] + b;
      Associate(a[0], Flatten(a[1..]), Flatten(b));
    }
  }

  lemma PrefixSnoc<T>(s: seq<T>, k: nat)
    requires k < |s|
    ensures s[..k + 1] == s[..k] + [s[k]]
  {
  }

  /** The states visited from `s` on, given what each step does. */
  ghost predicate Path<S(!new), C>(next: (S, C) -> S, s: S, cmds: seq<C>, states: seq<S>) {
    && |states| == |cmds| + 1
    && states[0] == s
    && forall k {:trigger cmds[k]} :: 0 <= k < |cmds| ==> states[k + 1] == next(states[k], cmds[k])
  }

  lemma PathSnoc<S(!new), C>(next: (S, C) -> S, s: S, cmds: seq<C>, states: seq<S>, cmd: C)
    requires Path(next, s, cmds, states)
    ensures Path(next, s, cmds + [cmd], states + [next(states[|cmds|], cmd)])
  {
    var more := cmds + [cmd];
    assert forall k :: 0 <= k < |cmds| ==> more[k] == cmds[k];
  }

  /** What the steps of a path add up to. */
  ghost function Total<S, C>(weight: (S, C) -> nat, cmds: seq<C>, states: seq<S>, k: nat): nat
    requires k <= |cmds| < |states|
  {
    if k == 0 then 0 else Total(weight, cmds, states, k - 1) + weight(states[k - 1], cmds[k - 1])
  }

  /** Every step keeps what holds, with its weight added. */
  ghost predicate Carries<S(!new), C(!new)>(next: (S, C) -> S, weight: (S, C) -> nat, holds: (S, nat) -> bool) {
    forall s: S, c: C, n: nat :: holds(s, n) ==> holds(next(s, c), n + weight(s, c))
  }

  lemma {:induction false} TotalHolds<S(!new), C(!new)>(next: (S, C) -> S, weight: (S, C) -> nat, holds: (S, nat) -> bool,
                                                        s: S, cmds: seq<C>, states: seq<S>, k: nat)
    requires Path(next, s, cmds, states) && k <= |cmds| && holds(s, 0)
    requires Carries(next, weight, holds)
    ensures holds(states[k], Total(weight, cmds, states, k))
  {
    if k > 0 {
      TotalHolds(next, weight, holds, s, cmds, states, k - 1);
    }
  }
}
