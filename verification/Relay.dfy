/** The delayed spectator relay: blocks wait in a queue, are released to the
    viewers and to the history that new viewers are sent first
    (crates/spectre-spectator/src/relay.rs). */
module Relays {
  import opened Basics
  import opened Seats

  const MAX_RELAY_DROPS := 200

  /** `encode_action` succeeds when the frame fits its 16-bit length. */
  predicate Encodable(block: Bytes) {
    |block| + 4 <= U16_MAX
  }

  datatype Message = ActionFrame(block: Bytes) | RawBlock(block: Bytes) | Other

  /** How a block is broadcast: framed if it can be, raw if it cannot. */
  function OnAir(block: Bytes): Message {
    if Encodable(block) then ActionFrame(block) else RawBlock(block)
  }

  datatype Handed = Handed(msg: Message, accepted: bool)

  /** `feed` is what was handed to the viewer's link. Two fields are history:
      how many released blocks the history no longer held when the viewer
      joined, and how many had been released by then. */
  datatype Viewer = Viewer(conn: nat, open: bool, feed: seq<Handed>, base: nat, joined: nat)
  {
    function Answer(r: Send): Send {
      if open then r else Closed
    }

    function Hand(msg: Message, r: Send): Viewer {
      this.(open := Answer(r) != Closed, feed := feed + [Handed(msg, Answer(r) == Ok)])
    }
  }

  type Answers = (nat, nat, nat) -> Send

  datatype Config = Config(delay: nat, maxViewers: nat, maxHistoryBytes: nat)

  datatype Held = Held(due: nat, block: Bytes)

  /** The relay. `intro` counts the packets sent between the greeting and the
      history; `pushed` and `released` are history, `base` of which the blocks
      dropped from `history` when games ended; `now` is the time. */
  datatype Relay = Relay(
    cfg: Config, viewers: seq<Viewer>, drops: map<nat, nat>, delayed: seq<Held>, history: seq<Bytes>,
    historyBytes: nat, releasedCount: nat, intro: nat,
    pushed: seq<Bytes>, released: seq<Bytes>, base: nat, now: nat, clock: nat)

  // ---- broadcasting ----

  /** What `retain` decides for one viewer. */
  function Retained(v: Viewer, drops: map<nat, nat>, r: Send): (bool, map<nat, nat>) {
    match v.Answer(r)
    case Ok => (true, drops - {v.conn})
    case Backpressure =>
      var n := (if v.conn in drops then drops[v.conn] else 0) + 1;
      if n > MAX_RELAY_DROPS then (false, drops - {v.conn}) else (true, drops[v.conn := n])
    case Closed => (false, drops - {v.conn})
  }

  function BroadcastTo(vs: seq<Viewer>, drops: map<nat, nat>, msg: Message, net: Answers, clock: nat): (seq<Viewer>, map<nat, nat>) {
    if vs == [] then ([], drops)
    else
      var (kept, d) := BroadcastTo(Most(vs), drops, msg, net, clock);
      var v := Last(vs);
      var r := net(clock, v.conn, 0);
      var (keep, e) := Retained(v, d, r);
      (if keep then kept + [v.Hand(msg, r)] else kept, e)
  }

  function Broadcast(r: Relay, msg: Message, net: Answers): Relay {
    var (kept, d) := BroadcastTo(r.viewers, r.drops, msg, net, r.clock);
    r.(viewers := kept, drops := d, clock := r.clock + 1)
  }

  // ---- releasing ----

  /** One released block: history, then viewers. */
  function ReleaseOne(r: Relay, net: Answers): Relay
    requires r.delayed != []
  {
    var block := r.delayed[0].block;
    Broadcast(r.(delayed := r.delayed[1..], history := r.history + [block], historyBytes := r.historyBytes + |block|,
                 released := r.released + [block], releasedCount := r.releasedCount + 1),
              OnAir(block), net)
  }

  /** `release_due_blocks`. */
  function ReleaseDue(r: Relay, net: Answers): Relay
    decreases |r.delayed|
  {
    if r.delayed == [] || r.delayed[0].due > r.now then r else ReleaseDue(ReleaseOne(r, net), net)
  }

  function FlushOne(r: Relay, net: Answers): Relay
    requires r.delayed != []
  {
    var block := r.delayed[0].block;
    Broadcast(r.(delayed := r.delayed[1..], released := r.released + [block], releasedCount := r.releasedCount + 1),
              OnAir(block), net)
  }

  /** The flush at the end of a game: to the viewers, not to the history. */
  function FlushAll(r: Relay, net: Answers): Relay
    decreases |r.delayed|
  {
    if r.delayed == [] then r else FlushAll(FlushOne(r, net), net)
  }

  function GameOver(r: Relay, net: Answers): Relay {
    var t := FlushAll(r, net);
    t.(history := [], historyBytes := 0, base := |t.released|)
  }

  // ---- joining ----

  function Framed(blocks: seq<Bytes>): seq<Message> {
    if blocks == [] then []
    else Framed(Most(blocks)) + (if Encodable(Last(blocks)) then [ActionFrame(Last(blocks))] else [])
  }

  /** Sends whose results are ignored. */
  function HandAll(v: Viewer, msgs: seq<Message>, net: Answers, clock: nat, j: nat): Viewer
    decreases |msgs|
  {
    if msgs == [] then v else HandAll(v.Hand(msgs[0], net(clock, v.conn, j)), msgs[1..], net, clock, j + 1)
  }

  function Others(n: nat): seq<Message> {
    seq(n, _ => Other)
  }

  /** The greeting, the history and its end mark. */
  function Burst(r: Relay): seq<Message> {
    Others(1 + r.intro) + Framed(r.history) + [Other]
  }

  function Join(r: Relay, conn: nat, net: Answers): Relay {
    if |r.viewers| >= r.cfg.maxViewers || r.historyBytes > r.cfg.maxHistoryBytes then r
    else
      var v := Viewer(conn, true, [], r.base, |r.released|);
      r.(viewers := r.viewers + [HandAll(v, Burst(r), net, r.clock, 0)], drops := r.drops - {conn}, clock := r.clock + 1)
  }

  function Remaining(vs: seq<Viewer>, conn: nat): seq<Viewer> {
    if vs == [] then [] else Remaining(Most(vs), conn) + (if Last(vs).conn != conn then [Last(vs)] else [])
  }

  function Leave(r: Relay, conn: nat): Relay {
    r.(viewers := Remaining(r.viewers, conn), drops := r.drops - {conn})
  }

  // ---- the actor; each command comes `after` the one before ----

  datatype Command =
    | GameBlock(after: nat, block: Bytes)
    | Tick(after: nat)
    | EndGame
    | ViewerJoined(conn: nat)
    | ViewerLeft(conn: nat)
    | Chat
    | Info

  function Step(r: Relay, c: Command, net: Answers): Relay {
    match c
    case GameBlock(after, block) =>
      var now := r.now + after;
      ReleaseDue(r.(now := now, delayed := r.delayed + [Held(now + r.cfg.delay, block)], pushed := r.pushed + [block]), net)
    case Tick(after) => ReleaseDue(r.(now := r.now + after), net)
    case EndGame => GameOver(r, net)
    case ViewerJoined(conn) => Join(r, conn, net)
    case ViewerLeft(conn) => Leave(r, conn)
    case Chat => Broadcast(r, Other, net)
    case Info => r.(intro := r.intro + 1)
  }

  function NewRelay(cfg: Config): Relay {
    Relay(cfg, [], map[], [], [], 0, 0, 0, [], [], 0, 0, 0)
  }

  function After(cfg: Config, cmds: seq<Command>, net: Answers): Relay {
    if cmds == [] then NewRelay(cfg) else Step(After(cfg, Most(cmds), net), Last(cmds), net)
  }

  // ---- the invariant ----

  function HeldBlocks(held: seq<Held>): seq<Bytes> {
    seq(|held|, i requires 0 <= i < |held| => held[i].block)
  }

  ghost predicate Ordered(held: seq<Held>, latest: nat) {
    && (forall i :: 0 <= i < |held| ==> held[i].due <= latest)
    && (forall i, j :: 0 <= i < j < |held| ==> held[i].due <= held[j].due)
  }

  /** The blocks handed to a viewer, in order. */
  function BlocksIn(feed: seq<Handed>): seq<Bytes> {
    if feed == [] then []
    else BlocksIn(Most(feed)) + (if Last(feed).msg.Other? then [] else [Last(feed).msg.block])
  }

  function Only(blocks: seq<Bytes>): seq<Bytes> {
    if blocks == [] then [] else Only(Most(blocks)) + (if Encodable(Last(blocks)) then [Last(blocks)] else [])
  }

  /** What a viewer has been handed: the encodable blocks of the history it
      joined on, then every block released since. */
  ghost predicate ViewerOk(v: Viewer, released: seq<Bytes>) {
    && v.base <= v.joined <= |released|
    && BlocksIn(v.feed) == Only(released[v.base..v.joined]) + released[v.joined..]
  }

  ghost predicate ViewersOk(vs: seq<Viewer>, released: seq<Bytes>, base: nat) {
    forall i :: 0 <= i < |vs| ==> ViewerOk(vs[i], released) && vs[i].base <= base
  }

  ghost predicate QueueOk(r: Relay) {
    && r.released + HeldBlocks(r.delayed) == r.pushed
    && Ordered(r.delayed, r.now + r.cfg.delay)
    && r.releasedCount == |r.released|
  }

  ghost predicate HistoryOk(r: Relay) {
    r.base <= |r.released| && r.history == r.released[r.base..]
  }

  ghost predicate RelayOk(r: Relay) {
    QueueOk(r) && HistoryOk(r) && ViewersOk(r.viewers, r.released, r.base)
  }

  lemma BlocksInSnoc(feed: seq<Handed>, x: Handed)
    ensures BlocksIn(feed + [x]) == BlocksIn(feed) + (if x.msg.Other? then [] else [x.msg.block])
  {
    assert Most(feed + [x]) == feed && Last(feed + [x]) == x;
  }

  /** A viewer is handed what is released. */
  lemma HandedReleased(v: Viewer, released: seq<Bytes>, block: Bytes, r: Send)
    requires ViewerOk(v, released)
    ensures ViewerOk(v.Hand(OnAir(block), r), released + [block])
  {
    BlocksInSnoc(v.feed, Handed(OnAir(block), v.Answer(r) == Ok));
    var more := released + [block];
    assert more[v.base..v.joined] == released[v.base..v.joined];
    assert more[v.joined..] == released[v.joined..] + [block];
    assert Only(released[v.base..v.joined]) + (released[v.joined..] + [block])
        == Only(released[v.base..v.joined]) + released[v.joined..] + [block];
  }

  lemma HandedOther(v: Viewer, released: seq<Bytes>, r: Send)
    requires ViewerOk(v, released)
    ensures ViewerOk(v.Hand(Other, r), released)
  {
    BlocksInSnoc(v.feed, Handed(Other, v.Answer(r) == Ok));
  }

  lemma {:induction false} BlockToAll(vs: seq<Viewer>, drops: map<nat, nat>, block: Bytes, net: Answers, clock: nat, released: seq<Bytes>, base: nat)
    requires ViewersOk(vs, released, base)
    ensures ViewersOk(BroadcastTo(vs, drops, OnAir(block), net, clock).0, released + [block], base)
  {
    if vs != [] {
      BlockToAll(Most(vs), drops, block, net, clock, released, base);
      HandedReleased(Last(vs), released, block, net(clock, Last(vs).conn, 0));
    }
  }

  lemma {:induction false} OtherToAll(vs: seq<Viewer>, drops: map<nat, nat>, net: Answers, clock: nat, released: seq<Bytes>, base: nat)
    requires ViewersOk(vs, released, base)
    ensures ViewersOk(BroadcastTo(vs, drops, Other, net, clock).0, released, base)
  {
    if vs != [] {
      OtherToAll(Most(vs), drops, net, clock, released, base);
      HandedOther(Last(vs), released, net(clock, Last(vs).conn, 0));
    }
  }

  lemma PopQueue(released: seq<Bytes>, held: seq<Held>)
    requires held != []
    ensures released + [held[0].block] + HeldBlocks(held[1..]) == released + HeldBlocks(held)
  {
    assert HeldBlocks(held) == [held[0].block] + HeldBlocks(held[1..]);
  }

  lemma ReleaseOneIsOk(r: Relay, net: Answers)
    requires RelayOk(r) && r.delayed != []
    ensures RelayOk(ReleaseOne(r, net))
  {
    var block := r.delayed[0].block;
    PopQueue(r.released, r.delayed);
    BlockToAll(r.viewers, r.drops, block, net, r.clock, r.released, r.base);
    assert (r.released + [block])[r.base..] == r.released[r.base..] + [block];
  }

  /** The blocks at the front of the queue that are due. */
  function Due(held: seq<Held>, now: nat): nat {
    if held == [] || held[0].due > now then 0 else 1 + Due(held[1..], now)
  }

  lemma {:induction false} DueIsExact(held: seq<Held>, now: nat, latest: nat)
    requires Ordered(held, latest)
    ensures Due(held, now) <= |held|
    ensures forall i :: 0 <= i < |held| ==> (i < Due(held, now) <==> held[i].due <= now)
  {
    if held != [] && held[0].due <= now {
      DueIsExact(held[1..], now, latest);
      assert forall i :: 0 < i < |held| ==> held[i] == held[1..][i - 1];
    }
  }

  lemma DueFront(held: seq<Held>, now: nat)
    requires held != [] && held[0].due <= now && Due(held[1..], now) <= |held[1..]|
    ensures var n := Due(held[1..], now);
            && Due(held, now) == n + 1
            && held[1..][n..] == held[n + 1..]
            && HeldBlocks(held[..n + 1]) == [held[0].block] + HeldBlocks(held[1..][..n])
  {
    var n := Due(held[1..], now);
    assert held[..n + 1] == [held[0]] + held[1..][..n];
  }

  lemma {:induction false} DueIsThere(held: seq<Held>, now: nat)
    ensures Due(held, now) <= |held|
  {
    if held != [] {
      DueIsThere(held[1..], now);
    }
  }

  /** A release keeps the invariant. */
  lemma {:induction false} ReleaseDueKeepsOk(r: Relay, net: Answers)
    requires RelayOk(r)
    ensures RelayOk(ReleaseDue(r, net))
    decreases |r.delayed|
  {
    if r.delayed != [] && r.delayed[0].due <= r.now {
      ReleaseOneIsOk(r, net);
      ReleaseDueKeepsOk(ReleaseOne(r, net), net);
    }
  }

  /** It moves exactly the front run of due blocks. */
  lemma {:induction false} ReleaseDueMoves(r: Relay, net: Answers)
    requires RelayOk(r)
    ensures Due(r.delayed, r.now) <= |r.delayed|
    ensures Released(r, ReleaseDue(r, net), Due(r.delayed, r.now))
    decreases |r.delayed|
  {
    DueIsThere(r.delayed, r.now);
    if r.delayed != [] && r.delayed[0].due <= r.now {
      var t := ReleaseOne(r, net);
      ReleaseOneIsOk(r, net);
      ReleaseDueMoves(t, net);
      DueFront(r.delayed, r.now);
      Associate(r.released, [r.delayed[0].block], HeldBlocks(t.delayed[..Due(t.delayed, r.now)]));
    } else {
      assert r.delayed[..0] == [] && r.released + [] == r.released;
    }
  }

  /** From `r` to `t` the first `n` waiting blocks were released. */
  ghost predicate Released(r: Relay, t: Relay, n: nat)
    requires n <= |r.delayed|
  {
    && t.delayed == r.delayed[n..] && t.released == r.released + HeldBlocks(r.delayed[..n])
    && t.now == r.now && t.base == r.base && t.pushed == r.pushed
  }

  /** A release keeps the invariant and moves exactly the front run of due
      blocks; the blocks that stay are all later than now. */
  lemma ReleaseDueIsOk(r: Relay, net: Answers)
    requires RelayOk(r)
    ensures RelayOk(ReleaseDue(r, net))
    ensures Due(r.delayed, r.now) <= |r.delayed|
    ensures Released(r, ReleaseDue(r, net), Due(r.delayed, r.now))
  {
    ReleaseDueKeepsOk(r, net);
    ReleaseDueMoves(r, net);
  }

  lemma {:induction false} FlushAllIsOk(r: Relay, net: Answers)
    requires QueueOk(r) && ViewersOk(r.viewers, r.released, r.base)
    ensures var t := FlushAll(r, net);
            QueueOk(t) && ViewersOk(t.viewers, t.released, t.base) && t.released == r.pushed == t.pushed && t.base == r.base
    decreases |r.delayed|
  {
    if r.delayed != [] {
      PopQueue(r.released, r.delayed);
      BlockToAll(r.viewers, r.drops, r.delayed[0].block, net, r.clock, r.released, r.base);
      FlushAllIsOk(FlushOne(r, net), net);
    }
  }

  // ---- joining ----

  lemma {:induction false} BurstBlocks(v: Viewer, msgs: seq<Message>, net: Answers, clock: nat, j: nat)
    ensures var w := HandAll(v, msgs, net, clock, j);
            && BlocksIn(w.feed) == BlocksIn(v.feed) + Contents(msgs)
            && w.base == v.base && w.joined == v.joined
    decreases |msgs|
  {
    if msgs != [] {
      var r := net(clock, v.conn, j);
      BlocksInSnoc(v.feed, Handed(msgs[0], v.Answer(r) == Ok));
      BurstBlocks(v.Hand(msgs[0], r), msgs[1..], net, clock, j + 1);
      ContentsConcat([msgs[0]], msgs[1..]);
      assert msgs == [msgs[0]] + msgs[1..];
    }
  }

  /** The blocks in a list of messages. */
  function Contents(msgs: seq<Message>): seq<Bytes> {
    if msgs == [] then [] else Contents(Most(msgs)) + (if Last(msgs).Other? then [] else [Last(msgs).block])
  }

  lemma {:induction false} ContentsConcat(a: seq<Message>, b: seq<Message>)
    ensures Contents(a + b) == Contents(a) + Contents(b)
    decreases |b|
  {
    if b == [] {
      assert a + b == a;
    } else {
      ContentsConcat(a, Most(b));
      assert Most(a + b) == a + Most(b) && Last(a + b) == Last(b);
    }
  }

  lemma {:induction false} FramedContents(blocks: seq<Bytes>)
    ensures Contents(Framed(blocks)) == Only(blocks)
  {
    if blocks != [] {
      FramedContents(Most(blocks));
      if Encodable(Last(blocks)) {
        var x := ActionFrame(Last(blocks));
        ContentsConcat(Framed(Most(blocks)), [x]);
        assert Most([x]) == [] && Contents([x]) == [x.block];
      } else {
        assert Framed(blocks) == Framed(Most(blocks)) && Only(blocks) == Only(Most(blocks));
      }
    }
  }

  lemma {:induction false} OthersContents(n: nat)
    ensures Contents(Others(n)) == []
  {
    if n > 0 {
      OthersContents(n - 1);
      assert Most(Others(n)) == Others(n - 1);
    }
  }

  lemma JoinIsOk(r: Relay, conn: nat, net: Answers)
    requires RelayOk(r)
    ensures RelayOk(Join(r, conn, net))
  {
    var v := Viewer(conn, true, [], r.base, |r.released|);
    BurstBlocks(v, Burst(r), net, r.clock, 0);
    ContentsConcat(Others(1 + r.intro) + Framed(r.history), [Other]);
    ContentsConcat(Others(1 + r.intro), Framed(r.history));
    OthersContents(1 + r.intro);
    FramedContents(r.history);
    var w := HandAll(v, Burst(r), net, r.clock, 0);
    assert r.released[r.base..|r.released|] == r.history && r.released[|r.released|..] == [];
    assert ViewerOk(w, r.released);
  }

  lemma {:induction false} RemainingAreOk(vs: seq<Viewer>, conn: nat, released: seq<Bytes>, base: nat)
    requires ViewersOk(vs, released, base)
    ensures ViewersOk(Remaining(vs, conn), released, base)
  {
    if vs != [] {
      RemainingAreOk(Most(vs), conn, released, base);
    }
  }

  // ---- every run ----

  lemma PushIsOk(r: Relay, after: nat, block: Bytes)
    requires RelayOk(r)
    ensures RelayOk(r.(now := r.now + after, delayed := r.delayed + [Held(r.now + after + r.cfg.delay, block)],
                       pushed := r.pushed + [block]))
  {
    var held := Held(r.now + after + r.cfg.delay, block);
    assert HeldBlocks(r.delayed + [held]) == HeldBlocks(r.delayed) + [block];
  }

  lemma GameBlockIsOk(r: Relay, after: nat, block: Bytes, net: Answers)
    requires RelayOk(r)
    ensures RelayOk(Step(r, GameBlock(after, block), net))
  {
    PushIsOk(r, after, block);
    var now := r.now + after;
    ReleaseDueKeepsOk(r.(now := now, delayed := r.delayed + [Held(now + r.cfg.delay, block)], pushed := r.pushed + [block]), net);
  }

  lemma GameOverIsOk(r: Relay, net: Answers)
    requires RelayOk(r)
    ensures RelayOk(GameOver(r, net))
  {
    FlushAllIsOk(r, net);
  }

  lemma StepIsOk(r: Relay, c: Command, net: Answers)
    requires RelayOk(r)
    ensures RelayOk(Step(r, c, net))
  {
    match c {
      case GameBlock(after, block) => GameBlockIsOk(r, after, block, net);
      case Tick(after) => ReleaseDueIsOk(r.(now := r.now + after), net);
      case EndGame => GameOverIsOk(r, net);
      case ViewerJoined(conn) => JoinIsOk(r, conn, net);
      case ViewerLeft(conn) => RemainingAreOk(r.viewers, conn, r.released, r.base);
      case Chat => OtherToAll(r.viewers, r.drops, net, r.clock, r.released, r.base);
      case Info =>
    }
  }

  lemma {:induction false} RunIsOk(cfg: Config, cmds: seq<Command>, net: Answers)
    ensures RelayOk(After(cfg, cmds, net))
  {
    if cmds != [] {
      RunIsOk(cfg, Most(cmds), net);
      StepIsOk(After(cfg, Most(cmds), net), Last(cmds), net);
    }
  }

  lemma {:induction false} ReleaseDueKeepsBase(r: Relay, net: Answers)
    ensures ReleaseDue(r, net).base == r.base
    decreases |r.delayed|
  {
    if r.delayed != [] && r.delayed[0].due <= r.now {
      ReleaseDueKeepsBase(ReleaseOne(r, net), net);
    }
  }

  lemma StepKeepsBase(r: Relay, c: Command, net: Answers)
    requires !c.EndGame?
    ensures Step(r, c, net).base == r.base
  {
    match c {
      case GameBlock(after, block) =>
        var now := r.now + after;
        ReleaseDueKeepsBase(r.(now := now, delayed := r.delayed + [Held(now + r.cfg.delay, block)], pushed := r.pushed + [block]), net);
      case Tick(after) => ReleaseDueKeepsBase(r.(now := r.now + after), net);
      case _ =>
    }
  }

  lemma {:induction false} NothingIsDroppedBeforeTheEnd(cfg: Config, cmds: seq<Command>, net: Answers)
    requires EndGame !in cmds
    ensures After(cfg, cmds, net).base == 0
  {
    if cmds != [] {
      assert Last(cmds) in cmds;
      NothingIsDroppedBeforeTheEnd(cfg, Most(cmds), net);
      StepKeepsBase(After(cfg, Most(cmds), net), Last(cmds), net);
    }
  }

  /** Up to the end of the game, the history followed by the waiting blocks is
      everything pushed, in order. */
  lemma HistoryAndQueueAreAllBlocks(cfg: Config, cmds: seq<Command>, net: Answers)
    requires EndGame !in cmds
    ensures var r := After(cfg, cmds, net);
            r.history + HeldBlocks(r.delayed) == r.pushed && r.history == r.released
  {
    RunIsOk(cfg, cmds, net);
    NothingIsDroppedBeforeTheEnd(cfg, cmds, net);
    var r := After(cfg, cmds, net);
    assert r.released[0..] == r.released;
  }

  /** On every run, a tick releases a waiting block exactly when its time has
      come: none early, none left behind, in the order they were pushed. */
  lemma TickReleasesExactlyTheDue(cfg: Config, cmds: seq<Command>, net: Answers, after: nat)
    returns (n: nat)
    ensures var r := After(cfg, cmds, net);
            var t := Step(r, Tick(after), net);
            && n <= |r.delayed|
            && t.released == r.released + HeldBlocks(r.delayed[..n]) && t.delayed == r.delayed[n..]
            && forall i :: 0 <= i < |r.delayed| ==> (i < n <==> r.delayed[i].due <= r.now + after)
  {
    RunIsOk(cfg, cmds, net);
    n := DueAfter(After(cfg, cmds, net), net, after);
  }

  lemma DueAfter(r: Relay, net: Answers, after: nat) returns (n: nat)
    requires RelayOk(r)
    ensures n <= |r.delayed|
    ensures var t := ReleaseDue(r.(now := r.now + after), net);
            t.released == r.released + HeldBlocks(r.delayed[..n]) && t.delayed == r.delayed[n..]
    ensures forall i :: 0 <= i < |r.delayed| ==> (i < n <==> r.delayed[i].due <= r.now + after)
  {
    var later := r.(now := r.now + after);
    ReleaseDueIsOk(later, net);
    DueIsExact(r.delayed, later.now, later.now + r.cfg.delay);
    n := Due(r.delayed, later.now);
  }

  // ---- what a viewer receives ----

  function Received(feed: seq<Handed>): seq<Bytes> {
    if feed == [] then []
    else Received(Most(feed)) + (if Last(feed).accepted && !Last(feed).msg.Other? then [Last(feed).msg.block] else [])
  }

  ghost predicate AllAccepted(feed: seq<Handed>) {
    forall i :: 0 <= i < |feed| ==> feed[i].accepted
  }

  lemma {:induction false} AcceptedIsReceived(feed: seq<Handed>)
    requires AllAccepted(feed)
    ensures Received(feed) == BlocksIn(feed)
  {
    if feed != [] {
      AcceptedIsReceived(Most(feed));
    }
  }

  ghost predicate AllEncodable(blocks: seq<Bytes>) {
    forall i :: 0 <= i < |blocks| ==> Encodable(blocks[i])
  }

  lemma {:induction false} OnlyIsAllIff(blocks: seq<Bytes>)
    ensures |Only(blocks)| <= |blocks|
    ensures |Only(blocks)| == |blocks| <==> AllEncodable(blocks)
    ensures AllEncodable(blocks) ==> Only(blocks) == blocks
  {
    if blocks != [] {
      OnlyIsAllIff(Most(blocks));
      assert forall i :: 0 <= i < |blocks| - 1 ==> Most(blocks)[i] == blocks[i];
      if AllEncodable(blocks) {
        assert AllEncodable(Most(blocks));
        assert blocks == Most(blocks) + [Last(blocks)];
      }
    }
  }

  /** Exactly once, in order: on every run, a viewer all of whose sends were
      accepted has received every block released since the last end of game
      before it joined, across the history burst and the live feed, if and only
      if every block of the history it joined on can be framed. */
  lemma ViewerReceivesEachBlockOnceIff(cfg: Config, cmds: seq<Command>, net: Answers, i: nat)
    requires i < |After(cfg, cmds, net).viewers|
    requires AllAccepted(After(cfg, cmds, net).viewers[i].feed)
    ensures var r := After(cfg, cmds, net);
            var v := r.viewers[i];
            && v.base <= v.joined <= |r.released|
            && (Received(v.feed) == r.released[v.base..] <==> AllEncodable(r.released[v.base..v.joined]))
            && (EndGame !in cmds ==> v.base == 0)
  {
    RunIsOk(cfg, cmds, net);
    var r := After(cfg, cmds, net);
    var v := r.viewers[i];
    assert ViewerOk(v, r.released) && v.base <= r.base;
    AcceptedIsReceived(v.feed);
    var burst := r.released[v.base..v.joined];
    OnlyIsAllIff(burst);
    assert r.released[v.base..] == burst + r.released[v.joined..];
    if EndGame !in cmds {
      NothingIsDroppedBeforeTheEnd(cfg, cmds, net);
    }
  }

  /** Whether a viewer is still there after `n` refusals in a row, and the
      count kept for it. */
  ghost function AfterRefusals(v: Viewer, drops: map<nat, nat>, n: nat): (bool, map<nat, nat>) {
    if n == 0 then (true, drops - {v.conn})
    else
      var (kept, d) := AfterRefusals(v, drops, n - 1);
      if kept then Retained(v, d, Backpressure) else (false, d)
  }

  /** A viewer survives 200 refusals in a row and is removed at the next. */
  lemma {:induction false} ViewerIsRemovedAfter200Refusals(v: Viewer, drops: map<nat, nat>, n: nat)
    requires v.open
    ensures AfterRefusals(v, drops, n).0 <==> n <= MAX_RELAY_DROPS
    ensures 0 < n <= MAX_RELAY_DROPS ==> v.conn in AfterRefusals(v, drops, n).1 && AfterRefusals(v, drops, n).1[v.conn] == n
    ensures n == 0 || n > MAX_RELAY_DROPS ==> v.conn !in AfterRefusals(v, drops, n).1
  {
    if n > 0 {
      ViewerIsRemovedAfter200Refusals(v, drops, n - 1);
    }
  }

  // ---- the relay, updated in place ----

  lemma ReleaseOneShrinks(r: Relay, net: Answers)
    requires r.delayed != []
    ensures ReleaseOne(r, net).delayed == FlushOne(r, net).delayed == r.delayed[1..]
  {
  }

  class RelayServer {
    const cfg: Config
    const net: Answers
    var viewers: seq<Viewer>
    var drops: map<nat, nat>
    var delayed: seq<Held>
    var history: seq<Bytes>
    var historyBytes: nat
    var releasedCount: nat
    var intro: nat
    var pushed: seq<Bytes>
    var released: seq<Bytes>
    var base: nat
    var now: nat
    var clock: nat

    function Model(): Relay
      reads this
    {
      Relay(cfg, viewers, drops, delayed, history, historyBytes, releasedCount, intro, pushed, released, base, now, clock)
    }

    constructor (cfg: Config, net: Answers)
      ensures Model() == NewRelay(cfg) && this.net == net
    {
      this.cfg, this.net := cfg, net;
      viewers, drops, delayed, history, historyBytes, releasedCount, intro := [], map[], [], [], 0, 0, 0;
      pushed, released, base, now, clock := [], [], 0, 0, 0;
    }

    /** `viewers.retain(..)`, counting the consecutive refusals. */
    method BroadcastMessage(msg: Message)
      modifies this
      ensures Model() == Broadcast(old(Model()), msg, net)
    {
      var kept: seq<Viewer> := [];
      var counts := drops;
      var k := 0;
      while k < |viewers|
        invariant 0 <= k <= |viewers|
        invariant (kept, counts) == BroadcastTo(viewers[..k], drops, msg, net, clock)
      {
        var v := viewers[k];
        assert Most(viewers[..k + 1]) == viewers[..k] && Last(viewers[..k + 1]) == v;
        var answer := if v.open then net(clock, v.conn, 0) else Closed;
        match answer {
          case Ok =>
            counts := counts - {v.conn};
            kept := kept + [v.(feed := v.feed + [Handed(msg, true)])];
          case Backpressure =>
            var n := (if v.conn in counts then counts[v.conn] else 0) + 1;
            if n > MAX_RELAY_DROPS {
              counts := counts - {v.conn};
            } else {
              counts := counts[v.conn := n];
              kept := kept + [v.(feed := v.feed + [Handed(msg, false)])];
            }
          case Closed =>
            counts := counts - {v.conn};
        }
        k := k + 1;
      }
      assert viewers[..|viewers|] == viewers;
      viewers, drops := kept, counts;
      clock := clock + 1;
    }

    method SendBlock(block: Bytes)
      modifies this
      ensures Model() == Broadcast(old(Model()), OnAir(block), net)
    {
      if Encodable(block) {
        BroadcastMessage(ActionFrame(block));
      } else {
        BroadcastMessage(RawBlock(block));
      }
    }

    method ReleaseFirst()
      requires delayed != []
      modifies this
      ensures Model() == ReleaseOne(old(Model()), net)
    {
      var block := delayed[0].block;
      delayed := delayed[1..];
      historyBytes := historyBytes + |block|;
      history := history + [block];
      releasedCount := releasedCount + 1;
      released := released + [block];
      SendBlock(block);
    }

    method ReleaseDueBlocks()
      modifies this
      ensures Model() == ReleaseDue(old(Model()), net)
    {
      while delayed != [] && delayed[0].due <= now
        invariant ReleaseDue(old(Model()), net) == ReleaseDue(Model(), net)
        decreases |delayed|
      {
        ghost var before := Model();
        ReleaseFirst();
        ReleaseOneShrinks(before, net);
      }
    }

    method FlushFirst()
      requires delayed != []
      modifies this
      ensures Model() == FlushOne(old(Model()), net)
    {
      var block := delayed[0].block;
      delayed := delayed[1..];
      releasedCount := releasedCount + 1;
      released := released + [block];
      SendBlock(block);
    }

    method HandleGameOver()
      modifies this
      ensures Model() == GameOver(old(Model()), net)
    {
      while delayed != []
        invariant FlushAll(old(Model()), net) == FlushAll(Model(), net)
        decreases |delayed|
      {
        ghost var before := Model();
        FlushFirst();
        ReleaseOneShrinks(before, net);
      }
      history, historyBytes := [], 0;
      base := |released|;
    }

    /** The burst to a new viewer; refusals are ignored. */
    method SendBurst(viewer: Viewer) returns (v: Viewer)
      ensures v == HandAll(viewer, Burst(Model()), net, clock, 0)
    {
      v := viewer;
      var msgs := CollectBurst();
      ghost var all := msgs;
      var j: nat := 0;
      while j < |msgs|
        invariant 0 <= j <= |msgs|
        invariant HandAll(viewer, all, net, clock, 0) == HandAll(v, all[j..], net, clock, j)
      {
        var answer := if v.open then net(clock, v.conn, j) else Closed;
        assert all[j..][1..] == all[j + 1..];
        v := v.(open := answer != Closed, feed := v.feed + [Handed(msgs[j], answer == Ok)]);
        j := j + 1;
      }
    }

    method CollectBurst() returns (msgs: seq<Message>)
      ensures msgs == Burst(Model())
    {
      msgs := Others(1 + intro);
      var k := 0;
      while k < |history|
        invariant 0 <= k <= |history|
        invariant msgs == Others(1 + intro) + Framed(history[..k])
      {
        assert Most(history[..k + 1]) == history[..k] && Last(history[..k + 1]) == history[k];
        if Encodable(history[k]) {
          msgs := msgs + [ActionFrame(history[k])];
        }
        k := k + 1;
      }
      assert history[..|history|] == history;
      msgs := msgs + [Other];
    }

    method HandleViewerJoined(conn: nat)
      modifies this
      ensures Model() == Join(old(Model()), conn, net)
    {
      if |viewers| >= cfg.maxViewers || historyBytes > cfg.maxHistoryBytes {
        return;
      }
      drops := drops - {conn};
      var v := SendBurst(Viewer(conn, true, [], base, |released|));
      viewers := viewers + [v];
      clock := clock + 1;
    }

    method HandleGameBlock(after: nat, block: Bytes)
      modifies this
      ensures Model() == Step(old(Model()), GameBlock(after, block), net)
    {
      now := now + after;
      delayed := delayed + [Held(now + cfg.delay, block)];
      pushed := pushed + [block];
      ReleaseDueBlocks();
    }
  }
}
