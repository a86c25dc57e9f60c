/** The per-player resend buffer of GProxy clients
    (crates/spectre-engine/src/gproxy.rs). */
module GProxy {
  import opened Basics
  import opened Packets

  const GPROXY_CAPACITY := 500

  datatype Buffer = Buffer(capacity: nat, first: nat, packets: seq<Packet>)
  {
    function Push(pkt: Packet): Buffer {
      if |packets| == capacity then
        Buffer(capacity, first + 1, (if packets == [] then [] else packets[1..]) + [pkt])
      else
        Buffer(capacity, first, packets + [pkt])
    }

    function TotalSent(): nat {
      first + |packets|
    }

    function ReplayFrom(lastReceived: nat): Option<seq<Packet>> {
      if lastReceived > TotalSent() || lastReceived < first then None
      else Some(packets[lastReceived - first..])
    }

    /** The buffer numbers the packets of `log` from zero and keeps its tail. */
    ghost predicate Keeps(log: seq<Packet>) {
      && |packets| <= capacity
      && first <= |log|
      && packets == log[first..]
    }
  }

  /** A buffer created with `capacity` that was offered all of `log`. */
  function Filled(capacity: nat, log: seq<Packet>): Buffer {
    if log == [] then Buffer(capacity, 0, [])
    else Filled(capacity, log[..|log| - 1]).Push(log[|log| - 1])
  }

  lemma PushKeeps(b: Buffer, log: seq<Packet>, pkt: Packet)
    requires b.capacity > 0 && b.Keeps(log)
    ensures b.Push(pkt).Keeps(log + [pkt])
  {
    var rest := (log + [pkt])[b.Push(pkt).first..];
    if |b.packets| == b.capacity {
      assert rest == log[b.first..][1..] + [pkt];
    } else {
      assert rest == log[b.first..] + [pkt];
    }
  }

  /** Replay is offered exactly for the receive counts the buffer still
      covers, and it is then the whole rest of the log. */
  lemma ReplayFromIsExact(b: Buffer, log: seq<Packet>, k: nat)
    requires b.Keeps(log)
    ensures b.TotalSent() == |log|
    ensures b.ReplayFrom(k).Some? <==> b.first <= k <= |log|
    ensures b.ReplayFrom(k).Some? ==> b.ReplayFrom(k).value == log[k..]
  {
    if b.first <= k <= |log| {
      assert log[b.first..][k - b.first..] == log[k..];
    }
  }

  lemma {:induction false} PositiveCapacityCounts(capacity: nat, log: seq<Packet>)
    requires capacity > 0
    ensures Filled(capacity, log).capacity == capacity
    ensures Filled(capacity, log).Keeps(log)
  {
    if log != [] {
      var n := |log| - 1;
      PositiveCapacityCounts(capacity, log[..n]);
      PushKeeps(Filled(capacity, log[..n]), log[..n], log[n]);
      assert log[..n] + [log[n]] == log;
    }
  }

  lemma {:induction false} ZeroCapacityMiscounts(log: seq<Packet>)
    requires log != []
    ensures var b := Filled(0, log);
            b.capacity == 0 && b.first == 1 && |b.packets| == |log|
  {
    var n := |log| - 1;
    if n == 0 {
      assert log[..n] == [];
      assert Filled(0, log[..n]) == Buffer(0, 0, []);
    } else {
      ZeroCapacityMiscounts(log[..n]);
    }
  }

  /** The numbering agrees with the log exactly when the capacity is positive
      (or nothing was sent yet). */
  lemma NumberingIsExactIffPositiveCapacity(capacity: nat, log: seq<Packet>)
    ensures Filled(capacity, log).TotalSent() == |log| <==> capacity > 0 || log == []
  {
    if capacity > 0 {
      PositiveCapacityCounts(capacity, log);
    } else if log != [] {
      ZeroCapacityMiscounts(log);
    }
  }

  // ---- the client's side ----

  /** A packet the client's link accepted; `numbered` if the buffer holds a
      number for it. The client counts both kinds. */
  datatype Receipt = Receipt(pkt: Packet, numbered: bool)

  function NumberedIn(view: seq<Receipt>): seq<Packet> {
    if view == [] then []
    else NumberedIn(Most(view)) + (if Last(view).numbered then [Last(view).pkt] else [])
  }

  /** How many packets that went past the buffer the client has counted. */
  function Strays(view: seq<Receipt>): nat {
    if view == [] then 0 else Strays(Most(view)) + (if Last(view).numbered then 0 else 1)
  }

  lemma {:induction false} ViewIsCounted(view: seq<Receipt>)
    ensures |view| == |NumberedIn(view)| + Strays(view)
  {
    if view != [] {
      ViewIsCounted(Most(view));
    }
  }

  lemma ViewSnoc(view: seq<Receipt>, x: Receipt)
    ensures NumberedIn(view + [x]) == NumberedIn(view) + (if x.numbered then [x.pkt] else [])
    ensures Strays(view + [x]) == Strays(view) + (if x.numbered then 0 else 1)
  {
    assert Most(view + [x]) == view && Last(view + [x]) == x;
  }

  /** The numbered part of a prefix is a prefix of the numbered part. */
  lemma {:induction false} ViewPrefix(view: seq<Receipt>, k: nat)
    requires k <= |view|
    ensures NumberedIn(view[..k]) <= NumberedIn(view) && Strays(view[..k]) <= Strays(view)
    decreases |view|
  {
    if k == |view| {
      assert view[..k] == view;
    } else {
      ViewPrefix(Most(view), k);
      assert Most(view)[..k] == view[..k];
    }
  }

  /** The resend state of a GProxy seat. `sent` is every packet numbered since
      the buffer was created and `view` everything its links accepted since.
      `tainted` says that the client's count means nothing any more: a numbered
      packet was refused by a live link, the client was restarted by a FULL
      rejoin, claimed more than was accepted, or resumed with strays counted. */
  datatype Resend = Resend(buffer: Buffer, sent: seq<Packet>, view: seq<Receipt>, tainted: bool)
  {
    function Number(pkt: Packet): Resend {
      Resend(buffer.Push(pkt), sent + [pkt], view, tainted)
    }

    function Receive(pkt: Packet): Resend {
      Resend(buffer, sent, view + [Receipt(pkt, true)], tainted)
    }

    /** A packet the link accepted without its having been numbered. */
    function Stray(pkt: Packet): Resend {
      Resend(buffer, sent, view + [Receipt(pkt, false)], tainted)
    }

    function Taint(): Resend {
      Resend(buffer, sent, view, true)
    }

    /** The client reconnects claiming to hold `last` packets. Of what the old
        link accepted, an honest client received the first `last`. */
    function Rewind(last: nat): Resend {
      if last > |view| then Resend(buffer, sent, [], true)
      else Resend(buffer, sent, view[..last], tainted || Strays(view[..last]) > 0)
    }

    /** The buffer covers the tail of what was numbered, and the numbered
        packets the links accepted are a prefix of it without a hole; all of it
        if `live`. */
    ghost predicate Ok(live: bool) {
      && buffer.capacity > 0
      && buffer.Keeps(sent)
      && (!tainted ==> NumberedIn(view) <= sent && (live ==> NumberedIn(view) == sent))
    }
  }

  function NewResend(): Resend {
    Resend(Buffer(GPROXY_CAPACITY, 0, []), [], [], false)
  }

  lemma NumberIsOk(g: Resend, live: bool, pkt: Packet)
    requires g.Ok(live)
    ensures g.Number(pkt).Ok(false)
    ensures live ==> g.Number(pkt).Receive(pkt).Ok(true)
  {
    PushKeeps(g.buffer, g.sent, pkt);
    ViewSnoc(g.view, Receipt(pkt, true));
  }

  lemma StrayIsOk(g: Resend, live: bool, pkt: Packet)
    requires g.Ok(live)
    ensures g.Stray(pkt).Ok(live)
  {
    ViewSnoc(g.view, Receipt(pkt, false));
  }

  /** Only numbered packets are counted, so the count is a packet number. */
  ghost predicate InStepWithNumbers(g: Resend) {
    g.Ok(false) && (!g.tainted ==> Strays(g.view) == 0)
  }

  /** One replayed packet closes the gap by one. */
  lemma ReceiveNextIsOk(g: Resend)
    requires InStepWithNumbers(g) && !g.tainted && |g.view| < |g.sent|
    ensures InStepWithNumbers(g.Receive(g.sent[|g.view|]))
  {
    ViewIsCounted(g.view);
    ViewSnoc(g.view, Receipt(g.sent[|g.view|], true));
  }

  lemma RewindIsOk(g: Resend, live: bool, last: nat)
    requires g.Ok(live)
    ensures InStepWithNumbers(g.Rewind(last))
  {
    if last <= |g.view| {
      ViewPrefix(g.view, last);
    }
  }

  /** `GProxyBuffer`, updated in place; `log` is everything ever pushed. */
  class GProxyBuffer {
    const capacity: nat
    var firstPacketId: nat
    var packets: seq<Packet>
    ghost var log: seq<Packet>

    function Model(): Buffer
      reads this
    {
      Buffer(capacity, firstPacketId, packets)
    }

    ghost predicate Valid()
      reads this
    {
      capacity > 0 && Model().Keeps(log)
    }

    constructor (capacity: nat)
      ensures Model() == Filled(capacity, []) && log == []
      ensures capacity > 0 ==> Valid()
    {
      this.capacity, firstPacketId, packets, log := capacity, 0, [], [];
    }

    method Push(pkt: Packet)
      modifies this
      ensures Model() == old(Model()).Push(pkt) && log == old(log) + [pkt]
      ensures old(Valid()) ==> Valid()
    {
      if old(Valid()) {
        PushKeeps(Model(), log, pkt);
      }
      if |packets| == capacity {
        if packets != [] {
          packets := packets[1..];
        }
        firstPacketId := firstPacketId + 1;
      }
      packets := packets + [pkt];
      log := log + [pkt];
    }

    /** What the client is missing, if the buffer still holds all of it. */
    method ReplayFrom(lastReceived: nat) returns (r: Option<seq<Packet>>)
      ensures r == Model().ReplayFrom(lastReceived)
      ensures Valid() ==> (r.Some? <==> firstPacketId <= lastReceived <= |log|)
      ensures Valid() && r.Some? ==> r.value == log[lastReceived..]
    {
      if Valid() {
        ReplayFromIsExact(Model(), log, lastReceived);
      }
      if lastReceived > firstPacketId + |packets| || lastReceived < firstPacketId {
        return None;
      }
      var skip := lastReceived - firstPacketId;
      return Some(packets[skip..]);
    }
  }
}
