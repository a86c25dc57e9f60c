/** A run that ends with a FULL rejoin about to be accepted while the cursor of
    the seat's last rejoin is still armed: the client joins, announces GProxy,
    loads, is cut off, rejoins in full, finishes that handshake, and is cut off
    again before the first packet of its catch-up. */
module RejoinRun {
  import opened Basics
  import opened Packets
  import opened Histories
  import opened GProxy
  import opened Seats
  import opened Engine
  import opened EngineSafety
  import opened Rejoins
  import opened Acceptance
  import opened LoadingRejoins

  // ---- runs in which every send is accepted ----

  function AfterAll(limit: nat, cmds: seq<Command>): State {
    if cmds == [] then Initial(limit, 0) else Next(AfterAll(limit, Most(cmds)), Last(cmds), AllOk())
  }

  lemma AfterAllIsReachable(limit: nat, cmds: seq<Command>)
    ensures Reachable(limit, AfterAll(limit, cmds))
  {
    var states := seq(|cmds| + 1, k requires 0 <= k <= |cmds| => AfterAll(limit, cmds[..k]));
    forall k {:trigger cmds[k]} | 0 <= k < |cmds| ensures states[k + 1] == Next(states[k], cmds[k], AllOk()) {
      assert Most(cmds[..k + 1]) == cmds[..k] && Last(cmds[..k + 1]) == cmds[k];
    }
    assert cmds[..|cmds|] == cmds && cmds[..0] == [];
    assert IsRun(limit, 0, AllOk(), cmds, states);
  }

  lemma AfterOneMore(limit: nat, cmds: seq<Command>, cmd: Command)
    ensures AfterAll(limit, cmds + [cmd]) == Next(AfterAll(limit, cmds), cmd, AllOk())
  {
    assert Most(cmds + [cmd]) == cmds && Last(cmds + [cmd]) == cmd;
  }

  // ---- a game with one player ----

  /** The only player: pid 1, named "a", with reconnect key 7. */
  ghost predicate IsSolo(p: Player, conn: nat, loaded: bool, away: bool, rejoin: Stage, cursor: Option<nat>) {
    && p.pid == 1 && p.conn == conn && p.name == "a" && p.key == 7 && !p.virtualHost && p.left.None?
    && p.loaded == loaded && p.disconnected == away && p.rejoin == rejoin && p.cursor == cursor && p.link.open
  }

  /** A game with that player and at most `n` packets in its history. */
  ghost predicate Game(s: State, phase: Phase, n: nat) {
    && s.phase == phase && |s.players| == 1 && s.hostPid.None? && s.fakePid.None?
    && s.history.evicted == 0 && s.history.cap == FULL_HISTORY_CAP && |s.history.inner| <= n
  }

  ghost predicate Solo(s: State, phase: Phase, n: nat, conn: nat, loaded: bool, away: bool, rejoin: Stage, cursor: Option<nat>) {
    Game(s, phase, n) && IsSolo(s.players[0], conn, loaded, away, rejoin, cursor) && s.players[0].gp.Some?
  }

  /** Nobody is reaped. */
  lemma NothingToReap(s: State)
    requires forall i :: 0 <= i < |s.players| ==> s.players[i].left.None?
    ensures Reap(s, AllOk()) == s
  {
    if Gone(s.players) != [] {
      var i := GoneHaveLeft(s.players, 0);
      assert false;
    }
  }

  /** So a step of this game is what its handler does. */
  lemma StepIs(s: State, cmd: Command, t: State)
    requires Handle(s, cmd, AllOk()) == t && forall i :: 0 <= i < |t.players| ==> t.players[i].left.None?
    ensures Next(s, cmd, AllOk()) == t
  {
    NothingToReap(t);
  }

  lemma SoloBroadcast(s: State, phase: Phase, n: nat, conn: nat, loaded: bool, away: bool, rejoin: Stage, cursor: Option<nat>, pkt: Packet)
    requires Solo(s, phase, n, conn, loaded, away, rejoin, cursor) && n < 100
    ensures var t := Broadcast(s, pkt, AllOk());
            Solo(t, phase, n + 1, conn, loaded, away, rejoin, cursor)
            && t.startedLoading == s.startedLoading && t.pendingFull == s.pendingFull
  {
    SoloOnBroadcast(s.players[0], conn, loaded, away, rejoin, cursor, pkt, s.phase.Playing?);
  }

  lemma SoloOnBroadcast(p: Player, conn: nat, loaded: bool, away: bool, rejoin: Stage, cursor: Option<nat>, pkt: Packet, turn: bool)
    requires IsSolo(p, conn, loaded, away, rejoin, cursor) && p.gp.Some?
    ensures IsSolo(p.OnBroadcast(pkt, turn, Ok), conn, loaded, away, rejoin, cursor)
    ensures p.OnBroadcast(pkt, turn, Ok).gp.Some?
  {
  }

  lemma SoloOnDirect(p: Player, conn: nat, loaded: bool, away: bool, rejoin: Stage, cursor: Option<nat>, pkt: Packet)
    requires IsSolo(p, conn, loaded, away, rejoin, cursor) && p.gp.Some?
    ensures IsSolo(p.OnDirect(pkt, Ok), conn, loaded, away, rejoin, cursor) && p.OnDirect(pkt, Ok).gp.Some?
  {
  }

  lemma SoloSendTo(s: State, phase: Phase, n: nat, conn: nat, loaded: bool, away: bool, rejoin: Stage, cursor: Option<nat>, pkt: Packet)
    requires Solo(s, phase, n, conn, loaded, away, rejoin, cursor)
    ensures var t := SendTo(s, 1, pkt, AllOk());
            Solo(t, phase, n, conn, loaded, away, rejoin, cursor) && t.pendingFull == s.pendingFull
            && t.startedLoading == s.startedLoading
  {
    SoloOnDirect(s.players[0], conn, loaded, away, rejoin, cursor, pkt);
    assert ByPid(s.players, 1) == 0;
  }

  // ---- the steps ----

  lemma FirstPid(s: State)
    requires s.players == []
    ensures JoinAllowed(s, "a", true) == s.phase.Lobby? && NextFreePid(s.players, 1) == Some(1)
  {
  }

  lemma FirstSeat(s: State, p: Player)
    requires s.players == [p] && s.phase.Lobby? && s.hostPid.None? && s.fakePid.None? && s.history == EmptyHistory
    requires p == NewPlayer(1, 1, "a", 7, Link(Joined(0), true, []))
    ensures var u := Broadcast(s, Opaque(2), AllOk());
            Game(u, Lobby, 0) && IsSolo(u.players[0], 1, false, false, NoRejoin, None) && u.players[0].gp.None?
            && HumanCount(u.players) <= 1
  {
    var u := Broadcast(s, Opaque(2), AllOk());
    assert u.players[0] == p.OnBroadcast(Opaque(2), false, Ok);
    HumansArePlayers(u.players);
  }

  lemma JoinResult(limit: nat)
    ensures var t := Join(Initial(limit, 0), 1, "a", 7, true, AllOk());
            Game(t, Lobby, 0) && IsSolo(t.players[0], 1, false, false, NoRejoin, None) && t.players[0].gp.None?
  {
    var s := Initial(limit, 0);
    FirstPid(s);
    var p := NewPlayer(1, 1, "a", 7, Link(Joined(0), true, []));
    var t := TellAll(s, PlayerInfo(1), AllOk());
    assert t.players + [p] == [p];
    FirstSeat(t.(players := t.players + [p]), p);
  }

  lemma {:induction false} HumansArePlayers(ps: seq<Player>)
    ensures HumanCount(ps) <= |ps|
  {
    if ps != [] {
      HumansArePlayers(Most(ps));
    }
  }

  lemma JoinStep(limit: nat)
    ensures var t := Next(Initial(limit, 0), DoJoin(1, "a", 7, true), AllOk());
            Game(t, Lobby, 0) && IsSolo(t.players[0], 1, false, false, NoRejoin, None) && t.players[0].gp.None?
  {
    JoinResult(limit);
    var s := Initial(limit, 0);
    StepIs(s, DoJoin(1, "a", 7, true), Join(s, 1, "a", 7, true, AllOk()));
  }

  lemma InitStep(s: State)
    requires Game(s, Lobby, 0) && IsSolo(s.players[0], 1, false, false, NoRejoin, None)
    ensures Solo(Next(s, DoGpsInit(1), AllOk()), Lobby, 0, 1, false, false, NoRejoin, None)
  {
    assert ByConn(s.players, 1) == 0;
    StepIs(s, DoGpsInit(1), GpsInit(s, 1, AllOk()));
  }

  lemma StartStep(s: State)
    requires Solo(s, Lobby, 0, 1, false, false, NoRejoin, None)
    ensures Solo(Next(s, DoStart, AllOk()), Countdown, 0, 1, false, false, NoRejoin, None)
  {
    StepIs(s, DoStart, s.(phase := Countdown));
  }

  /** The tick at which the countdown has run out. */
  function StartTick(): TickInput {
    TickInput(0, {}, [], false, true, false, false, {}, None, false, false)
  }

  lemma LoadingStep(s: State)
    requires Solo(s, Countdown, 0, 1, false, false, NoRejoin, None)
    ensures var t := Next(s, DoTick(StartTick()), AllOk());
            Solo(t, Loading, 2, 1, false, false, NoRejoin, None) && t.startedLoading
  {
    var r := s.(phase := Loading, startedLoading := true);
    SoloBroadcast(r, Loading, 0, 1, false, false, NoRejoin, None, CountdownStart);
    var a := Broadcast(r, CountdownStart, AllOk());
    SoloBroadcast(a, Loading, 1, 1, false, false, NoRejoin, None, CountdownEnd);
    var b := Broadcast(a, CountdownEnd, AllOk());
    assert BeginLoading(s, AllOk()) == b;
    assert ExpireAll(s.players, {}) == s.players && Chats([]) == [];
    assert ReapTimeouts(s, {}, [], AllOk()) == s;
    assert OnTick(s, StartTick(), AllOk()) == b;
    StepIs(s, DoTick(StartTick()), b);
  }

  lemma LoadedStep(s: State)
    requires Solo(s, Loading, 2, 1, false, false, NoRejoin, None) && s.startedLoading
    ensures Solo(Next(s, DoLoaded(1), AllOk()), Playing, 5, 1, true, false, NoRejoin, None)
  {
    assert ByConn(s.players, 1) == 0;
    var r := s.(players := s.players[0 := s.players[0].(loaded := true)]);
    SoloBroadcast(r, Loading, 2, 1, true, false, NoRejoin, None, GameLoadedOthers(1));
    var a := Broadcast(r, GameLoadedOthers(1), AllOk());
    PlayingStarts(a);
    LoadedStarts(s, a);
    StepIs(s, DoLoaded(1), BeginPlaying(a, AllOk()));
  }

  lemma LoadedStarts(s: State, a: State)
    requires ByConn(s.players, 1) == 0 && |s.players| > 0 && s.players[0].rejoin == NoRejoin
    requires a == Broadcast(s.(players := s.players[0 := s.players[0].(loaded := true)]), GameLoadedOthers(s.players[0].pid), AllOk())
    requires AllLoaded(a.players)
    ensures Handle(s, DoLoaded(1), AllOk()) == BeginPlaying(a, AllOk())
  {
  }

  lemma PlayingStarts(s: State)
    requires Solo(s, Loading, 3, 1, true, false, NoRejoin, None)
    ensures Solo(BeginPlaying(s, AllOk()), Playing, 5, 1, true, false, NoRejoin, None)
  {
    var r := s.(phase := Playing, players := MapPlayers(s.players, ResetForPlay), startedLoading := false,
                game := s.game.(sync := 0, ticks := 0, turns := 0));
    var x, y := Chat("shortest load"), Chat("longest load");
    SoloBroadcast(r, Playing, 3, 1, true, false, NoRejoin, None, x);
    var a := Broadcast(r, x, AllOk());
    SoloBroadcast(a, Playing, 4, 1, true, false, NoRejoin, None, y);
    var b := Broadcast(a, y, AllOk());
    assert [x, y][1..] == [y] && [y][1..] == [];
    assert HasAudience(r) && HasAudience(a);
    assert ChatEach(a, [y], AllOk()) == ChatEach(b, [], AllOk()) == b;
    assert ChatEach(r, [x, y], AllOk()) == b;
    SoloSendTo(b, Playing, 5, 1, true, false, NoRejoin, None, Chat("load time"));
    OneLoadTime(r, b);
  }

  lemma OneLoadTime(r: State, b: State)
    requires |r.players| == 1 && r.players[0].pid == 1 && !r.players[0].virtualHost
    ensures LoadTimes(b, HumanPids(r.players), AllOk()) == SendTo(b, 1, Chat("load time"), AllOk())
  {
    var c := SendTo(b, 1, Chat("load time"), AllOk());
    assert Most(r.players) == [] && HumanPids([]) == [];
    assert HumanPids(r.players) == [1] && [1][1..] == [];
    assert LoadTimes(c, [], AllOk()) == c;
  }

  lemma ClosedStep(s: State, n: nat, conn: ConnId, cursor: Option<nat>)
    requires Solo(s, Playing, n, conn, true, false, NoRejoin, cursor)
    ensures Solo(Next(s, DoClosed(conn), AllOk()), Playing, n, conn, true, true, NoRejoin, cursor)
  {
    assert ByConn(s.players, conn) == 0;
    StepIs(s, DoClosed(conn), ConnClosed(s, conn));
  }

  lemma FullStep(s: State, n: nat, conn: ConnId, next: ConnId, cursor: Option<nat>)
    requires Solo(s, Playing, n, conn, true, true, NoRejoin, cursor)
    ensures var t := Next(s, DoGpsFull(next, 1, 7), AllOk());
            Solo(t, Playing, n, conn, true, true, NoRejoin, cursor) && RejoinAccepted(t, next, "a") && TokenSeat(t, next) == 0
  {
    var t := s.(pendingFull := s.pendingFull[next := (1, 7)]);
    assert ByPid(t.players, 1) == 0;
    StepIs(s, DoGpsFull(next, 1, 7), t);
  }

  lemma RejoinStep(s: State, n: nat)
    requires Solo(s, Playing, n, 1, true, true, NoRejoin, None) && RejoinAccepted(s, 2, "a") && TokenSeat(s, 2) == 0
    ensures Solo(Next(s, DoRejoin(2, "a"), AllOk()), Playing, n, 2, false, false, AwaitingMapSize, None)
  {
    var r := Seated(s, 2);
    assert Solo(r, Playing, n, 2, false, false, AwaitingMapSize, None);
    assert s.pendingFull[2].0 == s.players[0].pid;
    assert Most(r.players) == [] && Others(r.players, 1) == [];
    assert InfoPackets([]) == [];
    var pkts := [SlotInfoJoin(1)] + InfoPackets(Others(r.players, 1)) + [MapCheck];
    assert pkts == [SlotInfoJoin(1), MapCheck];
    TwoSends(r, n, AwaitingMapSize, SlotInfoJoin(1), MapCheck);
    StepIs(s, DoRejoin(2, "a"), SendAllTo(r, 1, pkts, AllOk()));
  }

  lemma TwoSends(s: State, n: nat, stage: Stage, x: Packet, y: Packet)
    requires Solo(s, Playing, n, 2, false, false, stage, None)
    ensures Solo(SendAllTo(s, 1, [x, y], AllOk()), Playing, n, 2, false, false, stage, None)
  {
    SoloSendTo(s, Playing, n, 2, false, false, stage, None, x);
    var a := SendTo(s, 1, x, AllOk());
    SoloSendTo(a, Playing, n, 2, false, false, stage, None, y);
    var b := SendTo(a, 1, y, AllOk());
    assert [x, y][1..] == [y] && [y][1..] == [];
    assert SendAllTo(a, 1, [y], AllOk()) == SendAllTo(b, 1, [], AllOk()) == b;
    assert SendAllTo(s, 1, [x, y], AllOk()) == SendAllTo(a, 1, [y], AllOk());
  }

  lemma MapSizeStep(s: State, n: nat)
    requires Solo(s, Playing, n, 2, false, false, AwaitingMapSize, None)
    ensures Solo(Next(s, DoMapSize(2), AllOk()), Playing, n, 2, false, false, AwaitingLoaded, None)
  {
    assert ByConn(s.players, 2) == 0;
    TwoSends(s, n, AwaitingMapSize, CountdownStart, CountdownEnd);
    var t := SendAllTo(s, 1, [CountdownStart, CountdownEnd], AllOk());
    assert ByPid(t.players, 1) == 0;
    StepIs(s, DoMapSize(2), HandleMapSize(s, 2, AllOk()));
  }

  lemma RearmedStep(s: State, n: nat)
    requires Solo(s, Playing, n, 2, false, false, AwaitingLoaded, None) && n < 100
    ensures Solo(Next(s, DoLoaded(2), AllOk()), Playing, n + 1, 2, true, false, NoRejoin, Some(0))
  {
    assert ByConn(s.players, 2) == 0;
    assert Most(s.players) == [] && Others(s.players, 1) == [];
    assert LoadedPackets([]) == [];
    assert ByPid(s.players, 1) == 0;
    var u := ArmCursor(s, 1);
    assert Solo(u, Playing, n, 2, true, false, NoRejoin, Some(0));
    SoloBroadcast(u, Playing, n, 2, true, false, NoRejoin, Some(0), GameLoadedOthers(1));
    StepIs(s, DoLoaded(2), Broadcast(u, GameLoadedOthers(1), AllOk()));
  }

  /** There is a run after which a FULL rejoin is accepted with a cursor armed
      that the history still covers: by `RejoinIsQuietIff` it leaks. */
  lemma ArmedRejoinIsReachable(limit: nat) returns (s: State)
    ensures Reachable(limit, s) && s.phase.Playing? && RejoinAccepted(s, 3, "a")
    ensures !s.players[TokenSeat(s, 3)].virtualHost
    ensures !Calm(s.players[TokenSeat(s, 3)].cursor, FirstHeld(s))
    ensures !(forall net :: AlwaysQuiet(Next(s, DoRejoin(3, "a"), net), Rejoined(s.clock)))
  {
    var cmds := [];
    s := Initial(limit, 0);
    cmds, s := Go(limit, cmds, s, DoJoin(1, "a", 7, true));
    JoinStep(limit);
    InitStep(s);
    cmds, s := Go(limit, cmds, s, DoGpsInit(1));
    StartStep(s);
    cmds, s := Go(limit, cmds, s, DoStart);
    LoadingStep(s);
    cmds, s := Go(limit, cmds, s, DoTick(StartTick()));
    LoadedStep(s);
    cmds, s := Go(limit, cmds, s, DoLoaded(1));
    ClosedStep(s, 5, 1, None);
    cmds, s := Go(limit, cmds, s, DoClosed(1));
    FullStep(s, 5, 1, 2, None);
    cmds, s := Go(limit, cmds, s, DoGpsFull(2, 1, 7));
    RejoinStep(s, 5);
    cmds, s := Go(limit, cmds, s, DoRejoin(2, "a"));
    MapSizeStep(s, 5);
    cmds, s := Go(limit, cmds, s, DoMapSize(2));
    RearmedStep(s, 5);
    cmds, s := Go(limit, cmds, s, DoLoaded(2));
    ClosedStep(s, 6, 2, Some(0));
    cmds, s := Go(limit, cmds, s, DoClosed(2));
    FullStep(s, 6, 2, 3, Some(0));
    cmds, s := Go(limit, cmds, s, DoGpsFull(3, 1, 7));
    AfterAllIsReachable(limit, cmds);
    NothingEvicted(limit, s);
    RejoinIsQuietIff(limit, s, 3, "a");
  }

  lemma Go(limit: nat, cmds: seq<Command>, s: State, cmd: Command) returns (more: seq<Command>, t: State)
    requires s == AfterAll(limit, cmds)
    ensures t == AfterAll(limit, more) && t == Next(s, cmd, AllOk())
  {
    more, t := cmds + [cmd], Next(s, cmd, AllOk());
    AfterOneMore(limit, cmds, cmd);
  }

  lemma NothingEvicted(limit: nat, s: State)
    requires Reachable(limit, s) && |s.players| == 1 && s.players[0].left.None?
    requires s.history.evicted == 0 && |s.history.inner| < 100
    ensures FirstHeld(s) == 0
  {
    ReachableIsSound(limit, s);
    assert Most(s.players) == [] && Gone(Most(s.players)) == [];
  }
}
