/** The body of the saved replay: a prologue built from the game's settings and
    a growing sequence of blocks (crates/spectre-spectator/src/body.rs). */
module Replay {
  import opened Basics
  import opened Wire

  const REPLAY_LEAVEGAME: byte := 0x17
  const REPLAY_FIRSTSTARTBLOCK: byte := 0x1A
  const REPLAY_SECONDSTARTBLOCK: byte := 0x1B
  const REPLAY_THIRDSTARTBLOCK: byte := 0x1C
  const REPLAY_TIMESLOT2: byte := 0x1E
  const REPLAY_TIMESLOT: byte := 0x1F
  const REPLAY_CHATMESSAGE: byte := 0x20
  const LANGUAGE_ID := 0x0012_F8B0
  const REPLAY_GAME_TYPE := 0x0000_0001

  datatype Start = Start(slots: Bytes, seed: nat, selectMode: byte, startSpots: byte)

  /** What the prologue is built from. */
  datatype Settings = Settings(hostPid: byte, hostName: Bytes, players: seq<(byte, Bytes)>, start: Option<Start>,
                               gameName: Bytes, statString: Bytes, loading: seq<Bytes>)
  {
    function PlayerRecords(n: nat): Bytes
      requires n <= |players|
    {
      if n == 0 then []
      else PlayerRecords(n - 1) + [22, players[n - 1].0] + CStr(players[n - 1].1) + [1, 0] + Le(0, 4)
    }

    /** `prologue`; None is `StartNeverSet`. */
    function Prologue(): Option<Bytes> {
      match start
      case None => None
      case Some(st) =>
        var n := |st.slots| / 9;
        Some(Le(0x0000_0110, 4) + [0, hostPid] + CStr(hostName) + [1, 0] + CStr(gameName) + [0] + statString + [0]
             + Le(n, 4) + Le(REPLAY_GAME_TYPE, 4) + Le(LANGUAGE_ID, 4)
             + PlayerRecords(|players|)
             + [25] + Le(7 + n * 9, 2) + [(n % 256) as byte] + st.slots + Le(st.seed, 4) + [st.selectMode, st.startSpots]
             + [REPLAY_FIRSTSTARTBLOCK] + Le(1, 4) + [REPLAY_SECONDSTARTBLOCK] + Le(1, 4)
             + Flatten(loading)
             + [REPLAY_THIRDSTARTBLOCK] + Le(1, 4))
    }
  }

  /** `published` counts the block bytes already drained. */
  datatype Body = Body(settings: Settings, blocks: Bytes, length: nat, published: nat)
  {
    /** `finish`: the bytes and the length of the saved replay. */
    function Finish(): Option<(Bytes, nat)> {
      match settings.Prologue()
      case None => None
      case Some(p) => Some((p + blocks, length))
    }

    function Append(block: Bytes): Body {
      this.(blocks := blocks + block)
    }

    function Pending(): Bytes {
      if published <= |blocks| then blocks[published..] else []
    }

    function Drained(): Body {
      this.(published := |blocks|)
    }
  }

  function NewBody(hostPid: byte, hostName: Bytes): Body {
    Body(Settings(hostPid, hostName, [], None, [], [], []), [], 0, 0)
  }

  function TimeslotBlock(increment: nat, actions: Bytes): Bytes {
    [REPLAY_TIMESLOT] + Le(2 + |actions|, 2) + Le(increment, 2) + actions
  }

  function Timeslot2Block(actions: Bytes): Bytes {
    [REPLAY_TIMESLOT2] + Le(2 + |actions|, 2) + Le(0, 2) + actions
  }

  function ChatBlock(pid: byte, flag: byte, extra: nat, message: Bytes): Bytes {
    [REPLAY_CHATMESSAGE, pid] + Le(1 + 4 + |message| + 1, 2) + [flag] + Le(extra, 4) + CStr(message)
  }

  function LeaverBlock(pid: byte, reason: nat, code: nat): Bytes {
    [REPLAY_LEAVEGAME] + Le(reason, 4) + [pid] + Le(code, 4) + Le(1, 4)
  }

  /** The mutators of `ReplayBody`. */
  datatype Edit =
    | SetHost(hostPid: byte, hostName: Bytes)
    | SetGame(gameName: Bytes, statString: Bytes)
    | AddPlayer(playerPid: byte, playerName: Bytes)
    | SetStart(start: Start)
    | AddTimeslot(increment: nat, actions: Bytes)
    | AddTimeslot2(actions: Bytes)
    | AddChat(pid: byte, flag: byte, extra: nat, message: Bytes)
    | AddLeaver(pid: byte, reason: nat, code: nat)
    | AddLeaverLoading(pid: byte, reason: nat, code: nat)

  function Edited(b: Body, e: Edit): Body {
    var s := b.settings;
    match e
    case SetHost(pid, name) => b.(settings := s.(hostPid := pid, hostName := name))
    case SetGame(name, stats) => b.(settings := s.(gameName := name, statString := stats))
    case AddPlayer(pid, name) => if pid == s.hostPid then b else b.(settings := s.(players := s.players + [(pid, name)]))
    case SetStart(st) => if |st.slots| % 9 != 0 then b else b.(settings := s.(start := Some(st)))
    case AddTimeslot(inc, actions) =>
      b.Append(TimeslotBlock(inc, actions)).(length := WrappingAdd(b.length, inc))
    case AddTimeslot2(actions) => b.Append(Timeslot2Block(actions))
    case AddChat(pid, flag, extra, message) => b.Append(ChatBlock(pid, flag, extra, message))
    case AddLeaver(pid, reason, code) => b.Append(LeaverBlock(pid, reason, code))
    case AddLeaverLoading(pid, reason, code) =>
      b.(settings := s.(loading := s.loading + [LeaverBlock(pid, reason, code)]))
  }

  /** Edits only append to the blocks. */
  lemma EditAppends(b: Body, e: Edit)
    ensures b.blocks <= Edited(b, e).blocks && Edited(b, e).published == b.published
    ensures b.settings.start.Some? ==> Edited(b, e).settings.start.Some?
  {
  }

  lemma EditLength(b: Body, e: Edit)
    ensures Edited(b, e).length == if e.AddTimeslot? then WrappingAdd(b.length, e.increment) else b.length
  {
  }

  // ---- reading the blocks back ----

  /** Edits that append a block, with fields that fit their widths. */
  predicate Recordable(e: Edit) {
    match e
    case AddTimeslot(inc, actions) => inc <= U16_MAX && |actions| + 2 <= U16_MAX
    case AddTimeslot2(actions) => |actions| + 2 <= U16_MAX
    case AddChat(pid, flag, extra, message) => extra <= U32_MAX && |message| + 6 <= U16_MAX
    case AddLeaver(pid, reason, code) => reason <= U32_MAX && code <= U32_MAX
    case _ => false
  }

  function BlockOf(e: Edit): Bytes {
    match e
    case AddTimeslot(inc, actions) => TimeslotBlock(inc, actions)
    case AddTimeslot2(actions) => Timeslot2Block(actions)
    case AddChat(pid, flag, extra, message) => ChatBlock(pid, flag, extra, message)
    case AddLeaver(pid, reason, code) => LeaverBlock(pid, reason, code)
    case _ => []
  }

  /** The first block of `b`, trusting tags and length fields, and the rest. */
  function ReadBlock(b: Bytes): Option<(Edit, Bytes)> {
    if |b| < 5 then None
    else if b[0] == REPLAY_TIMESLOT || b[0] == REPLAY_TIMESLOT2 then
      var end := 3 + FromLe(b[1..3]);
      if end < 5 || |b| < end then None
      else Some((if b[0] == REPLAY_TIMESLOT then AddTimeslot(FromLe(b[3..5]), b[5..end]) else AddTimeslot2(b[5..end]), b[end..]))
    else if b[0] == REPLAY_CHATMESSAGE then
      var end := 4 + FromLe(b[2..4]);
      if end < 10 || |b| < end then None
      else Some((AddChat(b[1], b[4], FromLe(b[5..9]), b[9..end - 1]), b[end..]))
    else if b[0] == REPLAY_LEAVEGAME && |b| >= 14 then
      Some((AddLeaver(b[5], FromLe(b[1..5]), FromLe(b[6..10])), b[14..]))
    else None
  }

  function ReadBlocks(b: Bytes): Option<seq<Edit>> {
    if b == [] then Some([])
    else
      match ReadBlock(b)
      case None => None
      case Some((e, rest)) =>
        if |rest| >= |b| || ReadBlocks(rest).None? then None else Some([e] + ReadBlocks(rest).value)
  }

  lemma Field(n: nat, k: nat)
    requires (k == 2 && n <= U16_MAX) || (k == 4 && n <= U32_MAX)
    ensures FromLe(Le(n, k)) == n
  {
    assert Pow256(2) == 0x1_0000 && Pow256(4) == 0x1_0000_0000;
    LeRoundTrip(n, k);
  }

  lemma SlotIsReadBack(tag: byte, inc: nat, actions: Bytes, rest: Bytes)
    requires inc <= U16_MAX && |actions| + 2 <= U16_MAX
    ensures var b := [tag] + Le(2 + |actions|, 2) + Le(inc, 2) + actions + rest;
            && FromLe(b[1..3]) == 2 + |actions| && FromLe(b[3..5]) == inc
            && b[5..5 + |actions|] == actions && b[5 + |actions|..] == rest
  {
    var b := [tag] + Le(2 + |actions|, 2) + Le(inc, 2) + actions + rest;
    var c := Le(inc, 2) + (actions + rest);
    assert b == [tag] + (Le(2 + |actions|, 2) + c);
    Middle([tag], Le(2 + |actions|, 2), c);
    var head := [tag] + Le(2 + |actions|, 2);
    assert b == head + c;
    Middle(head, Le(inc, 2), actions + rest);
    assert b == (head + Le(inc, 2)) + (actions + rest);
    Middle(head + Le(inc, 2), actions, rest);
    Field(2 + |actions|, 2);
    Field(inc, 2);
  }

  lemma ChatIsReadBack(pid: byte, flag: byte, extra: nat, message: Bytes, rest: Bytes)
    requires extra <= U32_MAX && |message| + 6 <= U16_MAX
    ensures ReadBlock(ChatBlock(pid, flag, extra, message) + rest) == Some((AddChat(pid, flag, extra, message), rest))
  {
    var b := ChatBlock(pid, flag, extra, message) + rest;
    assert b[2..4] == Le(1 + 4 + |message| + 1, 2) && b[5..9] == Le(extra, 4);
    Field(1 + 4 + |message| + 1, 2);
    Field(extra, 4);
    assert b[9..9 + |message|] == message && b[10 + |message|..] == rest;
  }

  lemma LeaverIsReadBack(pid: byte, reason: nat, code: nat, rest: Bytes)
    requires reason <= U32_MAX && code <= U32_MAX
    ensures ReadBlock(LeaverBlock(pid, reason, code) + rest) == Some((AddLeaver(pid, reason, code), rest))
  {
    var b := LeaverBlock(pid, reason, code) + rest;
    assert b[1..5] == Le(reason, 4) && b[6..10] == Le(code, 4) && b[14..] == rest;
    Field(reason, 4);
    Field(code, 4);
  }

  lemma BlockIsReadBack(e: Edit, rest: Bytes)
    requires Recordable(e)
    ensures ReadBlock(BlockOf(e) + rest) == Some((e, rest)) && BlockOf(e) != []
  {
    match e {
      case AddTimeslot(inc, actions) => SlotIsReadBack(REPLAY_TIMESLOT, inc, actions, rest);
      case AddTimeslot2(actions) => SlotIsReadBack(REPLAY_TIMESLOT2, 0, actions, rest);
      case AddChat(pid, flag, extra, message) => ChatIsReadBack(pid, flag, extra, message, rest);
      case AddLeaver(pid, reason, code) => LeaverIsReadBack(pid, reason, code, rest);
    }
  }

  function AfterEdits(b: Body, es: seq<Edit>): Body
    decreases |es|
  {
    if es == [] then b else AfterEdits(Edited(b, es[0]), es[1..])
  }

  /** The blocks of a replay are self-delimiting: whatever is recorded, reading
      the appended bytes gives back the recorded edits in order. */
  lemma {:induction false} RecordedEditsAreReadBack(b: Body, es: seq<Edit>)
    requires forall i :: 0 <= i < |es| ==> Recordable(es[i])
    ensures b.blocks <= AfterEdits(b, es).blocks
    ensures ReadBlocks(AfterEdits(b, es).blocks[|b.blocks|..]) == Some(es)
    decreases |es|
  {
    if es == [] {
      assert b.blocks[|b.blocks|..] == [];
    } else {
      var c := Edited(b, es[0]);
      RecordedEditsAreReadBack(c, es[1..]);
      var all := AfterEdits(b, es).blocks;
      EditAppendsBlock(b, es[0]);
      TailSplit(all, b.blocks, BlockOf(es[0]));
      BlockIsReadBack(es[0], all[|c.blocks|..]);
      assert [es[0]] + es[1..] == es;
    }
  }

  lemma TailSplit(all: Bytes, head: Bytes, block: Bytes)
    requires head + block <= all
    ensures head <= all && all[|head|..] == block + all[|head + block|..]
  {
    assert all[..|head + block|] == head + block;
  }

  lemma EditAppendsBlock(b: Body, e: Edit)
    requires Recordable(e)
    ensures Edited(b, e).blocks == b.blocks + BlockOf(e)
  {
  }

  /** The class: fields updated in place, output built by appending. */
  /** `drained` is all that was ever drained. */
  class ReplayBody {
    var settings: Settings
    var blocks: Bytes
    var length: nat
    var published: nat
    ghost var drained: Bytes

    function Model(): Body
      reads this
    {
      Body(settings, blocks, length, published)
    }

    ghost predicate Valid()
      reads this
    {
      published <= |blocks| && drained == blocks[..published]
    }

    constructor (hostPid: byte, hostName: Bytes)
      ensures Valid() && Model() == NewBody(hostPid, hostName) && drained == []
    {
      drained := [];
      settings, blocks, length, published := Settings(hostPid, hostName, [], None, [], [], []), [], 0, 0;
    }

    method AddTimeslot(increment: nat, actions: Bytes)
      requires Valid()
      modifies this
      ensures Valid() && Model() == Edited(old(Model()), Edit.AddTimeslot(increment, actions)) && drained == old(drained)
    {
      length := WrappingAdd(length, increment);
      blocks := blocks + [REPLAY_TIMESLOT] + Le(2 + |actions|, 2) + Le(increment, 2) + actions;
      assert blocks == old(blocks) + TimeslotBlock(increment, actions);
    }

    method AddChat(pid: byte, flag: byte, extra: nat, message: Bytes)
      requires Valid()
      modifies this
      ensures Valid() && Model() == Edited(old(Model()), Edit.AddChat(pid, flag, extra, message)) && drained == old(drained)
    {
      blocks := blocks + [REPLAY_CHATMESSAGE] + [pid] + Le(1 + 4 + |message| + 1, 2) + [flag] + Le(extra, 4) + message + [0];
      assert blocks == old(blocks) + ChatBlock(pid, flag, extra, message);
    }

    /** Every block byte is drained once: what was drained before and what is
        drained now are all the blocks. */
    method DrainNewBlocks() returns (bytes: Bytes)
      requires Valid()
      modifies this
      ensures Valid() && drained == old(drained) + bytes == blocks
      ensures bytes == old(Model()).Pending() && Model() == old(Model()).Drained()
    {
      bytes := blocks[published..];
      drained := drained + bytes;
      published := |blocks|;
    }
  }
}
