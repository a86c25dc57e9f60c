/** The tick scheduler and the game clock it drives
    (crates/spectre-engine/src/tick.rs, and the clock in `send_all_actions`).
    Times are whole milliseconds. */
module Ticks {
  import opened Basics
  import Wire
  import opened Engine

  /** The number of deadlines at or before `now` that are skipped. */
  function Skipped(next: nat, period: nat, now: nat): nat
    requires period > 0
  {
    if now < next + period then 0 else (now - next) / period
  }

  class TickScheduler {
    var period: nat
    var next: nat

    constructor (period: nat, now: nat)
      ensures this.period == period && next == now + period
    {
      this.period, next := period, now + period;
    }

    method SetPeriod(p: nat)
      modifies this
      ensures period == p && next == old(next)
    {
      period := p;
    }

    /** The deadline moves strictly past now, by whole periods, and by no more
        of them than needed. */
    method Advance(now: nat) returns (skipped: nat)
      requires period > 0
      modifies this`next
      ensures next > now
      ensures next == old(next) + period * (skipped + 1)
      ensures skipped == 0 || next - period <= now
      ensures skipped == Skipped(old(next), period, now)
    {
      next := next + period;
      skipped := 0;
      while next <= now
        invariant next == old(next) + period * (skipped + 1)
        invariant skipped == 0 || next - period <= now
        decreases now - next
      {
        next := next + period;
        skipped := skipped + 1;
      }
      SkippedIsUnique(old(next), period, now, skipped);
    }
  }

  /** The number skipped is the one that lands just past now. */
  lemma SkippedIsUnique(next: nat, period: nat, now: nat, k: nat)
    requires period > 0
    requires next + period * (k + 1) > now && (k == 0 || next + period * k <= now)
    ensures k == Skipped(next, period, now)
  {
    if k > 0 {
      assert period * k >= period;
      Wire.DivModUnique(now - next, period, k, now - next - period * k);
    } else {
      assert period * (k + 1) == period;
    }
  }

  // ---- runs of ticks that send a turn, with period changes between them ----

  datatype Event = NewPeriod(period: nat) | Tick(now: nat)

  datatype Clock = Clock(next: nat, period: nat, ticks: nat)

  /** What a tick adds to the deadline. */
  function Displacement(c: Clock, now: nat): nat
    requires c.period > 0
  {
    c.period * (Skipped(c.next, c.period, now) + 1)
  }

  function After(c: Clock, e: Event): Clock {
    match e
    case NewPeriod(p) => c.(period := p)
    case Tick(now) =>
      if c.period == 0 then c
      else c.(next := c.next + Displacement(c, now),
              ticks := WrappingAdd(c.ticks, Elapsed(c.period, Skipped(c.next, c.period, now))))
  }

  function AfterAll(c: Clock, es: seq<Event>): Clock {
    if es == [] then c else After(AfterAll(c, Most(es)), Last(es))
  }

  /** No period is zero and no tick saturates the 32-bit product. */
  ghost predicate Unsaturated(c: Clock, es: seq<Event>) {
    forall k :: 0 <= k < |es| ==>
      (es[k].NewPeriod? ==> es[k].period > 0)
      && (es[k].Tick? ==> AfterAll(c, es[..k]).period > 0 && Displacement(AfterAll(c, es[..k]), es[k].now) <= U32_MAX)
  }

  /** Drift-free: over any such run the game clock advances by exactly as much
      as the deadline, modulo 2^32. */
  lemma {:induction false} ClockFollowsDeadline(c: Clock, es: seq<Event>)
    requires c.ticks < U32_MODULUS && Unsaturated(c, es)
    ensures var d := AfterAll(c, es);
            d.next >= c.next && d.ticks == (c.ticks + (d.next - c.next)) % U32_MODULUS
  {
    if es == [] {
      SmallTicks(c.ticks);
    } else {
      var m := Most(es);
      forall k | 0 <= k < |m| ensures m[k] == es[k] && m[..k] == es[..k] {
      }
      ClockFollowsDeadline(c, m);
      var d := AfterAll(c, m);
      assert es[..|m|] == m;
      if Last(es).Tick? {
        var moved := Displacement(d, Last(es).now);
        assert es[|m|].Tick? && moved <= U32_MAX;
        WrappedTotal(c.ticks + (d.next - c.next), moved);
        assert After(d, Last(es)) == d.(next := d.next + moved, ticks := WrappingAdd(d.ticks, moved));
      }
    }
  }

  lemma SmallTicks(n: nat)
    requires n < U32_MODULUS
    ensures n % U32_MODULUS == n
  {
    assert n < 0x1_0000_0000 ==> n % 0x1_0000_0000 == n;
  }
}
