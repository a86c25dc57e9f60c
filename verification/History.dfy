/** `FullHistory`: a bounded log of in-game broadcasts addressed by absolute
    sequence numbers (crates/spectre-engine/src/full_history.rs). */
module Histories {
  import opened Basics
  import opened Packets

  const FULL_HISTORY_CAP := 216_000

  datatype History = History(inner: seq<Packet>, cap: nat, evicted: nat)
  {
    function Push(pkt: Packet): History {
      if cap == 0 then this
      else if |inner| >= cap then History(inner[1..] + [pkt], cap, evicted + 1)
      else History(inner + [pkt], cap, evicted)
    }

    function FirstSeq(): nat {
      evicted
    }

    function NextSeq(): nat {
      evicted + |inner|
    }

    function SnapshotFromSeq(from: nat): seq<Packet> {
      var rel := SaturatingSub(from, evicted);
      if rel <= |inner| then inner[rel..] else []
    }

    /** The retained packets are the last `cap` of everything ever pushed. */
    ghost predicate Retains(log: seq<Packet>) {
      && cap > 0
      && evicted == Evicted(log, cap)
      && inner == log[evicted..]
    }
  }

  /** How many packets of `log` a history of `cap` packets has let go. */
  function Evicted(log: seq<Packet>, cap: nat): nat {
    SaturatingSub(|log|, cap)
  }

  const EmptyHistory := History([], FULL_HISTORY_CAP, 0)

  /** Sequence numbers stay absolute under eviction. */
  lemma PushRetains(h: History, log: seq<Packet>, pkt: Packet)
    requires h.Retains(log)
    ensures h.Push(pkt).Retains(log + [pkt])
    ensures h.Push(pkt).NextSeq() == |log| + 1
  {
    var rest := (log + [pkt])[h.Push(pkt).evicted..];
    if |h.inner| >= h.cap {
      assert rest == log[h.evicted..][1..] + [pkt];
    } else {
      assert rest == log[h.evicted..] + [pkt];
    }
  }

  /** A snapshot from a retained sequence number is the log from there; one
      from an evicted number starts at the oldest retained packet instead. */
  lemma SnapshotIsLogSuffix(h: History, log: seq<Packet>, from: nat)
    requires h.Retains(log)
    ensures h.NextSeq() == |log|
    ensures h.FirstSeq() <= from <= |log| ==> h.SnapshotFromSeq(from) == log[from..]
    ensures from < h.FirstSeq() ==> h.SnapshotFromSeq(from) == log[h.FirstSeq()..]
  {
    if h.FirstSeq() <= from <= |log| {
      assert log[h.evicted..][from - h.evicted..] == log[from..];
    }
  }

  /** The history updated in place; `log` is everything ever pushed. */
  class FullHistory {
    var inner: seq<Packet>
    const cap: nat
    var evicted: nat
    ghost var log: seq<Packet>

    function Model(): History
      reads this
    {
      History(inner, cap, evicted)
    }

    ghost predicate Valid()
      reads this
    {
      Model().Retains(log)
    }

    constructor WithCap(cap: nat)
      ensures Model() == History([], cap, 0) && log == []
      ensures cap > 0 ==> Valid()
    {
      inner, this.cap, evicted, log := [], cap, 0, [];
    }

    method Push(pkt: Packet)
      modifies this
      ensures Model() == old(Model()).Push(pkt) && log == old(log) + [pkt]
      ensures old(Valid()) ==> Valid()
    {
      if old(Valid()) {
        PushRetains(Model(), log, pkt);
      }
      log := log + [pkt];
      if cap == 0 {
        return;
      }
      if |inner| >= cap {
        inner := inner[1..];
        evicted := evicted + 1;
      }
      inner := inner + [pkt];
    }

    method FirstSeq() returns (n: nat)
      ensures n == Model().FirstSeq()
      ensures Valid() ==> n == Evicted(log, cap)
    {
      n := evicted;
    }

    method NextSeq() returns (n: nat)
      ensures n == Model().NextSeq()
      ensures Valid() ==> n == |log|
    {
      n := evicted + |inner|;
    }

    /** The log from `from` on, as far as it is still held. */
    method SnapshotFromSeq(from: nat) returns (pkts: seq<Packet>)
      ensures pkts == Model().SnapshotFromSeq(from)
      ensures Valid() && from <= |log| ==> pkts == log[if from < Evicted(log, cap) then Evicted(log, cap) else from..]
    {
      if Valid() {
        SnapshotIsLogSuffix(Model(), log, from);
      }
      var rel := SaturatingSub(from, evicted);
      pkts := if rel <= |inner| then inner[rel..] else [];
    }
  }
}
