/** How one tick's queue of actions is cut into packets
    (`GameState::send_all_actions`, size cap in `handle_action`). */
module Batching {
  import opened Basics
  import opened Packets

  const MAX_ACTION_PAYLOAD := 1452
  const MAX_ACTION_WIRE := 1027

  /** The size test `handle_action` applies before queueing. */
  predicate Acceptable(a: Action) {
    a.WireLen() <= MAX_ACTION_WIRE
  }

  function Size(batch: seq<Action>): nat {
    if batch == [] then 0 else Size(batch[..|batch| - 1]) + batch[|batch| - 1].WireLen()
  }

  /** The batches cut from `queue` when `batch` is already being filled; the
      last one is the batch left over at the end of the loop. */
  function Cut(queue: seq<Action>, batch: seq<Action>): (bs: seq<seq<Action>>)
    ensures |bs| > 0
    decreases |queue|
  {
    if queue == [] then [batch]
    else if Size(batch) + queue[0].WireLen() > MAX_ACTION_PAYLOAD && batch != [] then
      [batch] + Cut(queue[1..], [queue[0]])
    else Cut(queue[1..], batch + [queue[0]])
  }

  function Overflows(bs: seq<seq<Action>>): seq<Packet> {
    seq(|bs|, i requires 0 <= i < |bs| => IncomingAction2(bs[i]))
  }

  function OverflowSlots(bs: seq<seq<Action>>): seq<Timeslot> {
    seq(|bs|, i requires 0 <= i < |bs| => Timeslot2(bs[i]))
  }

  /** An order-preserving split of the queue that every receiver can take:
      some batch is always sent (the closing INCOMING_ACTION), and none is
      over the payload limit. */
  ghost predicate IsSplit(bs: seq<seq<Action>>, queue: seq<Action>) {
    && |bs| > 0
    && Flatten(bs) == queue
    && forall i :: 0 <= i < |bs| ==> Size(bs[i]) <= MAX_ACTION_PAYLOAD
  }

  lemma {:induction false} SizeConcat(a: seq<Action>, b: seq<Action>)
    ensures Size(a + b) == Size(a) + Size(b)
    decreases |b|
  {
    if b == [] {
      assert a + b == a;
    } else {
      var m := |b| - 1;
      SizeConcat(a, b[..m]);
      assert (a + b)[..|a + b| - 1] == a + b[..m];
    }
  }

  lemma SizeSnoc(batch: seq<Action>, a: Action)
    ensures Size(batch + [a]) == Size(batch) + a.WireLen() && Size([a]) == a.WireLen()
    ensures batch == [] ==> batch + [a] == [a]
  {
    SizeConcat(batch, [a]);
    assert [a][..0] == [];
  }

  lemma RestOfSplit(queue: seq<Action>, bs: seq<seq<Action>>)
    requires bs != [] && Flatten(bs) == queue
    ensures |bs[0]| <= |queue| && Flatten(bs[1..]) == queue[|bs[0]|..]
  {
  }

  lemma SizeDrop(b: seq<Action>, k: nat)
    requires k <= |b|
    ensures Size(b[k..]) <= Size(b)
  {
    SizeConcat(b[..k], b[k..]);
    assert b[..k] + b[k..] == b;
  }

  /** Nothing is lost, duplicated or reordered, and every batch fits. */
  lemma {:induction false} CutIsSplit(queue: seq<Action>, batch: seq<Action>)
    requires forall i :: 0 <= i < |queue| ==> Acceptable(queue[i])
    requires Size(batch) <= MAX_ACTION_PAYLOAD
    ensures IsSplit(Cut(queue, batch), batch + queue)
    ensures forall i :: 0 <= i < |Cut(queue, batch)| - 1 ==> Cut(queue, batch)[i] != []
    decreases |queue|
  {
    if queue == [] {
      assert Flatten([batch]) == batch + Flatten([]);
      assert batch + queue == batch;
    } else {
      var a := queue[0];
      SizeSnoc(batch, a);
      assert queue == [a] + queue[1..];
      Associate(batch, [a], queue[1..]);
      if Size(batch) + a.WireLen() > MAX_ACTION_PAYLOAD && batch != [] {
        CutIsSplit(queue[1..], [a]);
      } else {
        CutIsSplit(queue[1..], batch + [a]);
      }
    }
  }

  /** The same batches without the first `k` actions of their concatenation. */
  ghost function DropFront(bs: seq<seq<Action>>, k: nat): seq<seq<Action>>
    requires k <= |Flatten(bs)|
  {
    if bs == [] then []
    else if k <= |bs[0]| then [bs[0][k..]] + bs[1..]
    else [[]] + DropFront(bs[1..], k - |bs[0]|)
  }

  lemma {:induction false} DropFrontSplits(bs: seq<seq<Action>>, k: nat)
    requires k <= |Flatten(bs)|
    requires forall i :: 0 <= i < |bs| ==> Size(bs[i]) <= MAX_ACTION_PAYLOAD
    ensures |DropFront(bs, k)| == |bs|
    ensures Flatten(DropFront(bs, k)) == Flatten(bs)[k..]
    ensures forall i :: 0 <= i < |bs| ==> Size(DropFront(bs, k)[i]) <= MAX_ACTION_PAYLOAD
  {
    if bs != [] {
      var rest := Flatten(bs[1..]);
      if k <= |bs[0]| {
        SizeDrop(bs[0], k);
        assert (bs[0] + rest)[k..] == bs[0][k..] + rest;
      } else {
        var n := k - |bs[0]|;
        DropFrontSplits(bs[1..], n);
        assert (bs[0] + rest)[k..] == rest[n..];
        assert ([[]] + DropFront(bs[1..], n))[1..] == DropFront(bs[1..], n);
        assert [] + rest[n..] == rest[n..];
      }
    }
  }

  /** The greedy cut never uses more packets than any other split. */
  lemma {:induction false} CutIsMinimal(queue: seq<Action>, batch: seq<Action>, other: seq<seq<Action>>)
    requires forall i :: 0 <= i < |queue| ==> Acceptable(queue[i])
    requires Size(batch) <= MAX_ACTION_PAYLOAD
    requires IsSplit(other, batch + queue)
    ensures |Cut(queue, batch)| <= |other|
    decreases |queue|
  {
    if queue != [] {
      var a := queue[0];
      SizeSnoc(batch, a);
      if Size(batch) + a.WireLen() > MAX_ACTION_PAYLOAD && batch != [] {
        assert (batch + queue)[..|batch| + 1] == batch + [a];
        if |other[0]| > |batch| {
          FirstBatchFits(batch + queue, other, |batch| + 1);
          assert false;
        }
        var rest := LaterSplit(batch + queue, other, |batch|);
        assert (batch + queue)[|batch|..] == [a] + queue[1..];
        CutIsMinimal(queue[1..], [a], rest);
      } else {
        assert batch + queue == (batch + [a]) + queue[1..];
        CutIsMinimal(queue[1..], batch + [a], other);
      }
    }
  }

  /** Beyond its first packet, a split splits what comes after position `n`. */
  lemma LaterSplit(queue: seq<Action>, other: seq<seq<Action>>, n: nat) returns (rest: seq<seq<Action>>)
    requires IsSplit(other, queue) && |other[0]| <= n < |queue|
    ensures |rest| < |other| && IsSplit(rest, queue[n..])
  {
    var k := n - |other[0]|;
    RestOfSplit(queue, other);
    DropFrontSplits(other[1..], k);
    DropDrop(queue, |other[0]|, k);
    rest := DropFront(other[1..], k);
  }

  /** A prefix of the queue that lies inside the first packet fits. */
  lemma FirstBatchFits(queue: seq<Action>, other: seq<seq<Action>>, n: nat)
    requires IsSplit(other, queue)
    requires n <= |other[0]|
    ensures n <= |queue| && Size(queue[..n]) <= MAX_ACTION_PAYLOAD
  {
    assert queue == other[0] + Flatten(other[1..]);
    assert other[0] == other[0][..n] + other[0][n..];
    SizeConcat(other[0][..n], other[0][n..]);
    assert queue[..n] == other[0][..n];
  }
}
