/** Nobody falls far behind: a turn is sent only while every player subject to
    lag checks is within the sync limit, so at every step boundary of every run
    a paced player is at most one turn beyond it
    (crates/spectre-engine/src/lagcheck.rs, actions.rs). */
module BoundedLag {
  import opened Basics
  import opened Packets
  import opened Histories
  import opened GProxy
  import opened Seats
  import opened Engine
  import opened EngineSafety

  /** At most `limit + 1` turns behind, for one seat. */
  ghost predicate Near(p: Player, g: Turns) {
    !p.virtualHost && p.pace.paced ==> Behind(g, p) <= g.limit + 1
  }

  ghost predicate AllNear(ps: seq<Player>, g: Turns) {
    forall i :: 0 <= i < |ps| ==> Near(ps[i], g)
  }

  /** The same for the players that have not left. */
  ghost predicate PresentNear(ps: seq<Player>, g: Turns) {
    forall i :: 0 <= i < |ps| && ps[i].left.None? ==> Near(ps[i], g)
  }

  /** A seat that did not lose ground or newly become paced. */
  ghost predicate Steady(p: Player, q: Player) {
    && q.pid == p.pid && q.virtualHost == p.virtualHost
    && (q.pace.paced ==> p.pace.paced && q.pace.sync >= p.pace.sync)
  }

  ghost predicate AllSteady(ps: seq<Player>, qs: seq<Player>) {
    |qs| == |ps| && forall i :: 0 <= i < |ps| ==> Steady(ps[i], qs[i])
  }

  ghost predicate SameTurn(g: Turns, h: Turns) {
    h.sync == g.sync && h.limit == g.limit
  }

  lemma SteadyStaysNear(s: State, t: State)
    requires AllNear(s.players, s.game)
    requires AllSteady(s.players, t.players) && SameTurn(s.game, t.game)
    ensures AllNear(t.players, t.game)
  {
    forall i | 0 <= i < |t.players| ensures Near(t.players[i], t.game) {
      assert Steady(s.players[i], t.players[i]) && Near(s.players[i], s.game);
    }
  }

  lemma ShadowsAreSteady(ps: seq<Player>, qs: seq<Player>)
    requires Shadows(ps, qs)
    ensures AllSteady(ps, qs)
  {
    forall i | 0 <= i < |ps| ensures Steady(ps[i], qs[i]) {
      assert Undisturbed(ps[i], qs[i]);
    }
  }

  lemma ResetIsNear(ps: seq<Player>, g: Turns)
    requires g.sync == 0
    ensures AllNear(ps, g)
  {
  }

  lemma SteadyTransitive(ps: seq<Player>, qs: seq<Player>, rs: seq<Player>)
    requires AllSteady(ps, qs) && AllSteady(qs, rs)
    ensures AllSteady(ps, rs)
  {
    forall i | 0 <= i < |ps| ensures Steady(ps[i], rs[i]) {
      assert Steady(ps[i], qs[i]) && Steady(qs[i], rs[i]);
    }
  }

  lemma PopIsSteady(ps: seq<Player>, turn: nat)
    ensures AllSteady(ps, PopTurn(ps, turn))
    ensures AllSteady(ps, MapPlayers(ps, ClearActive))
  {
  }

  lemma SentenceIsSteady(before: seq<Player>, turn: nat, now: seq<Player>)
    requires |before| == |now|
    ensures AllSteady(now, Sentence(before, turn, now))
  {
  }

  lemma JudgeIsSteady(s: State, turn: nat, net: Net)
    requires Sound(s)
    ensures AllSteady(s.players, Judge(s, turn, net).players)
  {
    var t := ChatAll(s, Chat("Desync detected!"), net);
    ChatAllIsSound(s, Chat("Desync detected!"), net);
    ShadowsAreSteady(s.players, t.players);
    SentenceIsSteady(s.players, turn, t.players);
    SteadyTransitive(s.players, t.players, Judge(s, turn, net).players);
  }

  lemma {:induction false} CheckDesyncIsSteady(s: State, net: Net)
    requires Sound(s)
    ensures AllSteady(s.players, CheckDesync(s, net).players)
    decreases Queued(s.players)
  {
    var min := MinTurn(s.players);
    PopIsSteady(s.players, if min.Some? then min.value else 0);
    if ActiveCount(s.players) >= 2 && min.Some? && !InFlight(s.players, min.value) {
      var turn := min.value;
      if !Disagree(s.players, turn) {
        var t := s.(players := PopTurn(s.players, turn));
        PoppedIsSound(s, turn);
        MinTurnIsLowest(s.players);
        PopTurnShrinks(s.players, turn);
        CheckDesyncIsSteady(t, net);
        SteadyTransitive(s.players, t.players, CheckDesync(t, net).players);
      } else {
        JudgeIsSteady(s, turn, net);
      }
    }
  }

  lemma CheckDesyncIsNear(s: State, net: Net)
    requires Sound(s) && AllNear(s.players, s.game)
    ensures AllNear(CheckDesync(s, net).players, CheckDesync(s, net).game)
  {
    CheckDesyncIsSound(s, net);
    CheckDesyncIsSteady(s, net);
    SteadyStaysNear(s, CheckDesync(s, net));
  }

  lemma PumpIsSteady(s: State, net: Net)
    ensures AllSteady(s.players, Pump(s, net).players)
  {
    forall i | 0 <= i < |s.players| ensures Steady(s.players[i], Pump(s, net).players[i]) {
      CatchUpSameSeat(s.players[i], s.history, Answers(net, s.clock, s.players[i].pid));
    }
  }

  lemma NotedIsNear(s: State, i: nat, sum: nat)
    requires i < |s.players| && AllNear(s.players, s.game)
    ensures AllNear(Noted(s, i, sum).players, Noted(s, i, sum).game)
  {
    var t := Noted(s, i, sum);
    forall k | 0 <= k < |t.players| ensures Near(t.players[k], t.game) {
      assert Near(s.players[k], s.game);
    }
  }

  lemma KeepaliveIsNear(s: State, conn: nat, sum: nat, net: Net)
    requires Sound(s) && AllNear(s.players, s.game)
    ensures AllNear(HandleKeepalive(s, conn, sum, net).players, HandleKeepalive(s, conn, sum, net).game)
  {
    var i := ByConn(s.players, conn);
    if i == |s.players| {
      CheckDesyncIsNear(s, net);
    } else {
      NotedIsSound(s, i, sum);
      NotedIsNear(s, i, sum);
      CheckDesyncIsNear(Noted(s, i, sum), net);
    }
  }

  // ---- the tick ----

  /** A player subject to lag checks that is not flagged is within the limit. */
  lemma UnflaggedIsWithinLimit(g: Turns, p: Player)
    requires Checked(p) && !LagUpdate(g, p).pace.lagging
    ensures Behind(g, p) <= g.limit
  {
  }

  /** The turn goes out only when every checked player is within the limit. */
  lemma TurnIsSentOnlyWhenLevel(s: State, input: TickInput, net: Net, i: nat)
    requires Sound(s) && s.phase.Playing?
    requires !BeforeTurn(s, input, net).game.lagging
    requires i < |BeforeTurn(s, input, net).players| && Checked(BeforeTurn(s, input, net).players[i])
    ensures Behind(BeforeTurn(s, input, net).game, BeforeTurn(s, input, net).players[i]) <= s.game.limit
  {
    BeforeTurnShape(s, input, net);
    var v := CheckDesync(FakeSync(Pump(s, net)), net);
    var t := BeforeTurn(s, input, net);
    var w := LagUpdateAll(v.game, v.players);
    assert w[i] == LagUpdate(v.game, v.players[i]);
    assert Undisturbed(w[i], t.players[i]);
    assert !t.players[i].pace.lagging;
    UnflaggedIsWithinLimit(v.game, v.players[i]);
  }

  lemma BeforeTurnShape(s: State, input: TickInput, net: Net)
    requires Sound(s)
    ensures var v, t := CheckDesync(FakeSync(Pump(s, net)), net), BeforeTurn(s, input, net);
            && Sound(v) && Sound(t)
            && v.game == s.game && SameTurn(s.game, t.game)
            && Shadows(LagUpdateAll(v.game, v.players), t.players)
            && (t.game.lagging <==> AnyLagging(t.players))
  {
    PumpIsSound(s, net);
    FakeSyncIsSound(Pump(s, net));
    CheckDesyncIsSound(FakeSync(Pump(s, net)), net);
    CheckLagIsSound(CheckDesync(FakeSync(Pump(s, net)), net), input.resetScreen, net);
  }

  lemma FakeSyncIsNear(s: State)
    requires AllNear(s.players, s.game)
    ensures AllNear(FakeSync(s).players, FakeSync(s).game)
  {
    var t := FakeSync(s);
    forall k | 0 <= k < |t.players| ensures Near(t.players[k], t.game) {
      assert Near(s.players[k], s.game);
    }
  }

  lemma LagUpdateIsSteady(g: Turns, ps: seq<Player>)
    ensures AllSteady(ps, LagUpdateAll(g, ps))
  {
  }

  lemma CheckLagIsNear(s: State, reset: bool, net: Net)
    requires Sound(s) && AllNear(s.players, s.game)
    ensures AllNear(CheckLag(s, reset, net).players, CheckLag(s, reset, net).game)
  {
    CheckLagIsSound(s, reset, net);
    var w := LagUpdateAll(s.game, s.players);
    LagUpdateIsSteady(s.game, s.players);
    ShadowsAreSteady(w, CheckLag(s, reset, net).players);
    SteadyTransitive(s.players, w, CheckLag(s, reset, net).players);
    SteadyStaysNear(s, CheckLag(s, reset, net));
  }

  lemma BeforeTurnIsNear(s: State, input: TickInput, net: Net)
    requires Sound(s) && AllNear(s.players, s.game)
    ensures AllNear(BeforeTurn(s, input, net).players, BeforeTurn(s, input, net).game)
  {
    var a := Pump(s, net);
    PumpIsSound(s, net);
    PumpIsSteady(s, net);
    SteadyStaysNear(s, a);
    FakeSyncIsSound(a);
    FakeSyncIsNear(a);
    CheckDesyncIsSound(FakeSync(a), net);
    CheckDesyncIsNear(FakeSync(a), net);
    CheckLagIsNear(CheckDesync(FakeSync(a), net), input.resetScreen, net);
  }

  lemma DropLaggingIsNear(s: State, timedOut: set<nat>)
    requires AllNear(s.players, s.game)
    ensures AllNear(DropLagging(s, timedOut).players, DropLagging(s, timedOut).game)
  {
    assert AllSteady(s.players, DropLagging(s, timedOut).players);
    SteadyStaysNear(s, DropLagging(s, timedOut));
  }

  lemma PlayTickIsNear(s: State, input: TickInput, net: Net)
    requires Sound(s) && s.phase.Playing? && AllNear(s.players, s.game)
    ensures PresentNear(PlayTick(s, input, net).players, PlayTick(s, input, net).game)
    ensures PlayTick(s, input, net).game.limit == s.game.limit
  {
    var t := BeforeTurn(s, input, net);
    BeforeTurnShape(s, input, net);
    if t.game.lagging {
      BeforeTurnIsNear(s, input, net);
      DropLaggingIsNear(t, input.lagTimedOut);
    } else {
      SentTurnIsNear(s, input, net);
      var u := SendAllActions(t, input.skipped, WinnerNotice(input.winner), net);
      LeaveAllIsNear(u);
    }
  }

  lemma LeaveAllIsNear(s: State)
    requires PresentNear(s.players, s.game)
    ensures PresentNear(LeaveAll(s.players, GameOverTimer), s.game)
    ensures PresentNear(LeaveUnloaded(s.players), s.game)
  {
    var qs, rs := LeaveAll(s.players, GameOverTimer), LeaveUnloaded(s.players);
    forall i | 0 <= i < |qs| && qs[i].left.None? ensures Near(qs[i], s.game) {
      assert qs[i] == s.players[i];
    }
    forall i | 0 <= i < |rs| && rs[i].left.None? ensures Near(rs[i], s.game) {
      assert rs[i] == s.players[i];
    }
  }

  lemma SentTurnIsNear(s: State, input: TickInput, net: Net)
    requires Sound(s) && s.phase.Playing? && !BeforeTurn(s, input, net).game.lagging
    ensures var u := SendAllActions(BeforeTurn(s, input, net), input.skipped, WinnerNotice(input.winner), net);
            PresentNear(u.players, u.game) && u.game.limit == s.game.limit
  {
    var t := BeforeTurn(s, input, net);
    var u := SendAllActions(t, input.skipped, WinnerNotice(input.winner), net);
    BeforeTurnShape(s, input, net);
    SendAllActionsIsSound(t, input.skipped, WinnerNotice(input.winner), net);
    forall i | 0 <= i < |u.players| && u.players[i].left.None? ensures Near(u.players[i], u.game) {
      assert Undisturbed(t.players[i], u.players[i]);
      assert SeatOk(t.players[i], t.trace.log);
      if Checked(t.players[i]) {
        TurnIsSentOnlyWhenLevel(s, input, net, i);
      }
      OneTurnMore(t.players[i], u.players[i], t.game, u.game);
    }
  }

  lemma OneTurnMore(p: Player, q: Player, g: Turns, h: Turns)
    requires Undisturbed(p, q) && q.left.None?
    requires p.pace.paced ==> p.rejoin == NoRejoin && p.cursor.None? && !p.pace.catchingUp
    requires Checked(p) ==> Behind(g, p) <= g.limit
    requires h.sync == WrappingAdd(g.sync, 1) && h.limit == g.limit
    ensures Near(q, h)
  {
  }

  // ---- the reaper ----

  /** Who is still seated after the reaper: seats it was not asked to remove. */
  lemma SurvivesOne(s: State, pid: nat, code: nat, net: Net, k: nat) returns (i: nat)
    requires Sound(s) && k < |ReapOne(s, pid, code, net).players|
    ensures i < |s.players| && s.players[i].pid != pid
    ensures Steady(s.players[i], ReapOne(s, pid, code, net).players[k])
  {
    ReapOneIsSound(s, pid, code, net);
    ShadowsAreSteady(Without(s.players, pid), ReapOne(s, pid, code, net).players);
    i := IndexWithout(s.players, pid, k);
    assert Steady(Without(s.players, pid)[k], ReapOne(s, pid, code, net).players[k]);
  }

  lemma {:induction false} Survivors(s: State, gone: seq<(nat, nat)>, net: Net, j: nat) returns (i: nat)
    requires Sound(s) && j < |ReapEach(s, gone, net).players|
    ensures i < |s.players| && Steady(s.players[i], ReapEach(s, gone, net).players[j])
    ensures forall k :: 0 <= k < |gone| ==> s.players[i].pid != gone[k].0
    decreases |gone|
  {
    if gone == [] {
      i := j;
    } else {
      ReapOneIsSound(s, gone[0].0, gone[0].1, net);
      var k := Survivors(ReapOne(s, gone[0].0, gone[0].1, net), gone[1..], net, j);
      i := SurvivesOne(s, gone[0].0, gone[0].1, net, k);
      assert forall m :: 0 < m < |gone| ==> gone[m] == gone[1..][m - 1];
    }
  }

  lemma {:induction false} GoneListsLeavers(ps: seq<Player>, i: nat)
    requires i < |ps| && !ps[i].virtualHost && ps[i].left.Some?
    ensures exists k :: 0 <= k < |Gone(ps)| && Gone(ps)[k].0 == ps[i].pid
  {
    if i == |ps| - 1 {
      assert Gone(ps)[|Gone(Most(ps))|].0 == ps[i].pid;
    } else {
      GoneListsLeavers(Most(ps), i);
      var k :| 0 <= k < |Gone(Most(ps))| && Gone(Most(ps))[k].0 == ps[i].pid;
      assert Gone(ps)[k].0 == ps[i].pid;
    }
  }

  lemma ReapIsNear(s: State, net: Net)
    requires Sound(s) && PresentNear(s.players, s.game)
    ensures AllNear(Reap(s, net).players, Reap(s, net).game)
    ensures Reap(s, net).game.limit == s.game.limit
  {
    var gone := Gone(s.players);
    if gone == [] {
      forall i | 0 <= i < |s.players| ensures Near(s.players[i], s.game) {
        if !s.players[i].virtualHost && s.players[i].left.Some? {
          GoneListsLeavers(s.players, i);
          assert false;
        }
      }
    } else {
      var t := AbortCountdown(s, net);
      AbortCountdownIsSound(s, net);
      var u := ReapEach(t, gone, net);
      ReapEachIsSound(t, gone, net);
      BeginPlayingIsSound(u, net);
      forall j | 0 <= j < |u.players| ensures Near(u.players[j], u.game) {
        var i := Survivors(t, gone, net, j);
        assert Undisturbed(s.players[i], t.players[i]);
        if !s.players[i].virtualHost && s.players[i].left.Some? {
          GoneListsLeavers(s.players, i);
        }
        assert Near(s.players[i], s.game);
      }
      if u.phase.Loading? && u.players != [] && HumansLoaded(u.players) {
        ResetIsNear(BeginPlaying(u, net).players, BeginPlaying(u, net).game);
      }
    }
  }

  // ---- every command ----

  lemma ShadowsStayNear(s: State, t: State)
    requires AllNear(s.players, s.game)
    requires Shadows(s.players, t.players) && SameTurn(s.game, t.game)
    ensures AllNear(t.players, t.game)
  {
    ShadowsAreSteady(s.players, t.players);
    SteadyStaysNear(s, t);
  }

  lemma BroadcastIsNear(s: State, pkt: Packet, net: Net)
    requires Sound(s) && AllNear(s.players, s.game)
    ensures AllNear(Broadcast(s, pkt, net).players, Broadcast(s, pkt, net).game)
  {
    BroadcastIsSound(s, pkt, net);
    ShadowsStayNear(s, Broadcast(s, pkt, net));
  }

  lemma OneSteadyIsNear(s: State, i: nat, q: Player)
    requires AllNear(s.players, s.game)
    requires i < |s.players| && Steady(s.players[i], q)
    ensures AllNear(s.players[i := q], s.game)
  {
    SteadyStaysNear(s, s.(players := s.players[i := q]));
  }

  lemma WithoutIsNear(ps: seq<Player>, g: Turns, pid: nat)
    requires AllNear(ps, g)
    ensures AllNear(Without(ps, pid), g)
  {
  }

  lemma SeatAddedIsNear(s: State, p: Player)
    requires AllNear(s.players, s.game) && !p.pace.paced
    ensures AllNear(s.players + [p], s.game)
  {
  }

  lemma TellAllIsNear(s: State, pkt: Packet, net: Net)
    requires AllNear(s.players, s.game)
    ensures AllNear(TellAll(s, pkt, net).players, s.game)
  {
    var t := TellAll(s, pkt, net);
    forall i | 0 <= i < |s.players| ensures Steady(s.players[i], t.players[i]) {
      assert t.players[i] == s.players[i].Told(pkt, net(s.clock, s.players[i].pid, 0));
    }
    SteadyStaysNear(s, t);
  }

  lemma JoinIsNear(s: State, conn: nat, name: string, key: nat, slot: bool, net: Net)
    requires Sound(s) && AllNear(s.players, s.game)
    ensures AllNear(Join(s, conn, name, key, slot, net).players, Join(s, conn, name, key, slot, net).game)
    ensures SameTurn(s.game, Join(s, conn, name, key, slot, net).game)
  {
    if JoinAllowed(s, name, slot) {
      var pid := NextFreePid(s.players, 1).value;
      if net(s.clock, pid, 0) == Ok {
        TellAllIsSound(s, PlayerInfo(pid), net, pid);
        var t := TellAll(s, PlayerInfo(pid), net);
        TellAllIsNear(s, PlayerInfo(pid), net);
        var open := net(s.clock, pid, 1) != Closed;
        var p := NewPlayer(pid, conn, name, key, Link(Joined(s.clock), open, []));
        NewPlayerIsOk(pid, conn, name, key, s.clock, open);
        SeatAdded(t, p);
        SeatAddedIsNear(t, p);
        var u := t.(players := t.players + [p]);
        BroadcastIsNear(u, Opaque(2), net);
        BroadcastIsSound(u, Opaque(2), net);
        DropVirtualHostIsNear(Broadcast(u, Opaque(2), net), net);
      }
    }
  }

  lemma DropVirtualHostIsNear(s: State, net: Net)
    requires Sound(s) && AllNear(s.players, s.game)
    ensures AllNear(DropVirtualHost(s, net).players, DropVirtualHost(s, net).game)
    ensures DropVirtualHost(s, net).game == s.game
  {
    if s.hostPid.Some? {
      DropVirtualHostIsSound(s, net);
      WithoutIsNear(s.players, s.game, s.hostPid.value);
      ShadowsStayNear(s.(players := Without(s.players, s.hostPid.value)), DropVirtualHost(s, net));
    }
  }

  lemma VirtualHostIsNear(s: State, name: string, net: Net)
    requires Sound(s) && AllNear(s.players, s.game)
    ensures AllNear(AddVirtualHost(s, name, net).players, AddVirtualHost(s, name, net).game)
    ensures SameTurn(s.game, AddVirtualHost(s, name, net).game)
  {
    var free := NextFreePid(s.players, 1);
    if s.hostPid.None? && free.Some? {
      BroadcastIsNear(s, PlayerInfo(free.value), net);
    }
  }

  lemma ToggleFakeIsNear(s: State, slot: bool, net: Net)
    requires Sound(s) && AllNear(s.players, s.game)
    ensures AllNear(ToggleFake(s, slot, net).players, ToggleFake(s, slot, net).game)
    ensures SameTurn(s.game, ToggleFake(s, slot, net).game)
  {
    if s.phase.Lobby? {
      if s.fakePid.Some? {
        var t := s.(fakePid := None, players := Without(s.players, s.fakePid.value));
        WithoutIsSound(s, s.fakePid.value);
        WithoutIsNear(s.players, s.game, s.fakePid.value);
        var pkts := [PlayerLeaveOthers(s.fakePid.value, PLAYERLEAVE_LOBBY), Opaque(2)];
        BroadcastAllIsSound(t, pkts, net);
        ShadowsStayNear(t, BroadcastAll(t, pkts, net));
      } else {
        FakeAddedIsNear(s, slot, net);
      }
    }
  }

  lemma FakeAddedIsNear(s: State, slot: bool, net: Net)
    requires Sound(s) && AllNear(s.players, s.game) && s.phase.Lobby? && s.fakePid.None?
    ensures AllNear(ToggleFake(s, slot, net).players, ToggleFake(s, slot, net).game)
    ensures SameTurn(s.game, ToggleFake(s, slot, net).game)
  {
    var free := NextFreePid(s.players, 1);
    if free.Some? && slot {
      var t := FakeSeated(s, free.value);
      FakeSeatIsSound(s, free.value);
      FakeIsSeated(s, net);
      assert AllNear(t.players, t.game);
      BroadcastAllIsSound(t, [PlayerInfo(free.value), Opaque(2)], net);
      ShadowsStayNear(t, BroadcastAll(t, [PlayerInfo(free.value), Opaque(2)], net));
    }
  }

  lemma BeginPlayingIsNear(s: State, net: Net)
    requires Sound(s)
    ensures AllNear(BeginPlaying(s, net).players, BeginPlaying(s, net).game)
    ensures BeginPlaying(s, net).game.limit == s.game.limit
  {
    BeginPlayingIsSound(s, net);
    ResetIsNear(BeginPlaying(s, net).players, BeginPlaying(s, net).game);
  }

  lemma HandleLoadedIsNear(s: State, conn: nat, net: Net)
    requires Sound(s) && AllNear(s.players, s.game)
    ensures AllNear(HandleLoaded(s, conn, net).players, HandleLoaded(s, conn, net).game)
    ensures HandleLoaded(s, conn, net).game.limit == s.game.limit
  {
    var i := ByConn(s.players, conn);
    if i < |s.players| {
      var p := s.players[i];
      if p.rejoin == AwaitingLoaded {
        if s.history.FirstSeq() > 0 {
          OneSteadyIsNear(s, i, p.(rejoin := NoRejoin, left := Some(HistoryTooLong), leftCode := PLAYERLEAVE_DISCONNECT));
        } else {
          LoadedRejoinerIsNear(s, i, net);
        }
      } else {
        LoadedSeatIsNear(s, i, net);
      }
    }
  }

  lemma LoadedSeatIsNear(s: State, i: nat, net: Net)
    requires Sound(s) && AllNear(s.players, s.game) && i < |s.players|
    ensures var u := Broadcast(s.(players := s.players[i := s.players[i].(loaded := true)]), GameLoadedOthers(s.players[i].pid), net);
            && AllNear(u.players, u.game) && u.game.limit == s.game.limit
            && AllNear(BeginPlaying(u, net).players, BeginPlaying(u, net).game) && BeginPlaying(u, net).game.limit == s.game.limit
  {
    var p := s.players[i];
    OneReseated(s, i, p.(loaded := true));
    OneSteadyIsNear(s, i, p.(loaded := true));
    var t := s.(players := s.players[i := p.(loaded := true)]);
    BroadcastIsSound(t, GameLoadedOthers(p.pid), net);
    BroadcastIsNear(t, GameLoadedOthers(p.pid), net);
    BeginPlayingIsNear(Broadcast(t, GameLoadedOthers(p.pid), net), net);
  }

  lemma LoadedRejoinerIsNear(s: State, i: nat, net: Net)
    requires Sound(s) && AllNear(s.players, s.game)
    requires i < |s.players| && s.players[i].rejoin == AwaitingLoaded && s.history.FirstSeq() == 0
    ensures var p := s.players[i];
            var u := Broadcast(ArmCursor(SendAllTo(s, p.pid, LoadedPackets(Others(s.players, p.pid)), net), p.pid),
                               GameLoadedOthers(p.pid), net);
            AllNear(u.players, u.game) && SameTurn(s.game, u.game)
  {
    var p := s.players[i];
    var pkts := LoadedPackets(Others(s.players, p.pid));
    var t := SendAllTo(s, p.pid, pkts, net);
    SendAllToIsSound(s, p.pid, pkts, net);
    ShadowsStayNear(s, t);
    ShadowsByPid(s.players, t.players, p.pid);
    assert ByPid(s.players, p.pid) == i;
    assert Undisturbed(p, t.players[i]);
    ArmedIsNear(t, i, p.pid, net);
  }

  lemma ArmedIsNear(s: State, i: nat, pid: nat, net: Net)
    requires Sound(s) && AllNear(s.players, s.game) && s.history.FirstSeq() == 0
    requires i < |s.players| && s.players[i].rejoin == AwaitingLoaded && ByPid(s.players, pid) == i
    ensures var u := Broadcast(ArmCursor(s, pid), GameLoadedOthers(pid), net);
            AllNear(u.players, u.game) && SameTurn(s.game, u.game)
  {
    ArmCursorIsSound(s, pid);
    OneSteadyIsNear(s, i, ArmCursor(s, pid).players[i]);
    BroadcastIsNear(ArmCursor(s, pid), GameLoadedOthers(pid), net);
  }

  lemma HandleMapSizeIsNear(s: State, conn: nat, net: Net)
    requires Sound(s) && AllNear(s.players, s.game)
    ensures AllNear(HandleMapSize(s, conn, net).players, HandleMapSize(s, conn, net).game)
    ensures SameTurn(s.game, HandleMapSize(s, conn, net).game)
  {
    var i := ByConn(s.players, conn);
    if i < |s.players| && s.players[i].rejoin == AwaitingMapSize {
      var pid := s.players[i].pid;
      var t := SendAllTo(s, pid, [CountdownStart, CountdownEnd], net);
      SendAllToIsSound(s, pid, [CountdownStart, CountdownEnd], net);
      ShadowsStayNear(s, t);
      var j := ByPid(t.players, pid);
      if j < |t.players| {
        OneSteadyIsNear(t, j, t.players[j].(rejoin := AwaitingLoaded));
      }
    }
  }

  lemma RejoinIsNear(s: State, conn: nat, name: string, net: Net)
    requires Sound(s) && AllNear(s.players, s.game)
    ensures AllNear(TryFullRejoin(s, conn, name, net).players, TryFullRejoin(s, conn, name, net).game)
    ensures SameTurn(s.game, TryFullRejoin(s, conn, name, net).game)
  {
    if RejoinAccepted(s, conn, name) {
      var pid := s.pendingFull[conn].0;
      var i := ByPid(s.players, pid);
      var q := s.players[i].Rejoin(conn, s.clock);
      var t := s.(players := s.players[i := q], pendingFull := s.pendingFull - {conn}, clock := s.clock + 1);
      OneReseated(s, i, q);
      OneSteadyIsNear(s, i, q);
      WelcomedIsNear(t, pid, [SlotInfoJoin(pid)] + InfoPackets(Others(t.players, pid)) + [MapCheck], net);
    }
  }

  lemma WelcomedIsNear(s: State, pid: nat, pkts: seq<Packet>, net: Net)
    requires Sound(s) && AllNear(s.players, s.game)
    ensures AllNear(SendAllTo(s, pid, pkts, net).players, SendAllTo(s, pid, pkts, net).game)
    ensures SameTurn(s.game, SendAllTo(s, pid, pkts, net).game)
  {
    SendAllToIsSound(s, pid, pkts, net);
    ShadowsStayNear(s, SendAllTo(s, pid, pkts, net));
  }

  lemma ReconnectIsNear(s: State, conn: nat, pid: nat, key: nat, last: nat, net: Net)
    requires AllNear(s.players, s.game)
    ensures AllNear(GpsReconnect(s, conn, pid, key, last, net).players, s.game)
  {
    if ReconnectAccepted(s, pid, key, last) {
      var i := ByPid(s.players, pid);
      var p := s.players[i];
      var r := Answers(net, s.clock, pid);
      var replay := p.gp.value.buffer.ReplayFrom(last).value;
      ReconnectSameSeat(p, conn, s.clock, last, replay, r);
      OneSteadyIsNear(s, i, p.Reconnect(conn, s.clock, last, replay, r));
    }
  }

  lemma GpsInitIsNear(s: State, conn: nat, net: Net)
    requires AllNear(s.players, s.game)
    ensures AllNear(GpsInit(s, conn, net).players, s.game)
  {
    var i := ByConn(s.players, conn);
    if i < |s.players| {
      OneSteadyIsNear(s, i, GpsInit(s, conn, net).players[i]);
    }
  }

  lemma ConnClosedIsNear(s: State, conn: nat)
    requires AllNear(s.players, s.game)
    ensures AllNear(ConnClosed(s, conn).players, s.game)
  {
    var i := ByConn(s.players, conn);
    if i < |s.players| {
      OneSteadyIsNear(s, i, ConnClosed(s, conn).players[i]);
    }
  }

  lemma LeaveIsNear(s: State, conn: nat)
    requires AllNear(s.players, s.game)
    ensures AllNear(HandleLeave(s, conn).players, s.game)
  {
    var i := ByConn(s.players, conn);
    if i < |s.players| {
      OneSteadyIsNear(s, i, HandleLeave(s, conn).players[i]);
    }
  }

  lemma KickIsNear(s: State, pid: nat, reason: Reason, code: nat)
    requires AllNear(s.players, s.game)
    ensures AllNear(Kick(s, pid, reason, code).players, s.game)
  {
    var i := ByPid(s.players, pid);
    if i < |s.players| {
      OneSteadyIsNear(s, i, Kick(s, pid, reason, code).players[i]);
    }
  }

  lemma ActionIsNear(s: State, conn: nat, data: Bytes)
    requires AllNear(s.players, s.game)
    ensures AllNear(HandleAction(s, conn, data).players, s.game)
  {
    var i := ByConn(s.players, conn);
    if i < |s.players| {
      KickIsNear(s, s.players[i].pid, InvalidAction, PLAYERLEAVE_LOST);
    }
  }

  lemma DropRequestIsNear(s: State)
    requires AllNear(s.players, s.game)
    ensures AllNear(DropRequest(s).players, s.game)
  {
    assert AllSteady(s.players, DropRequest(s).players);
    SteadyStaysNear(s, DropRequest(s));
  }

  lemma BeginLoadingIsNear(s: State, net: Net)
    requires Sound(s) && s.phase.Countdown? && AllNear(s.players, s.game)
    ensures AllNear(BeginLoading(s, net).players, BeginLoading(s, net).game)
    ensures BeginLoading(s, net).game.limit == s.game.limit
  {
    var r := s.(phase := Loading, startedLoading := true);
    var t := Broadcast(r, CountdownStart, net);
    BroadcastIsSound(r, CountdownStart, net);
    BroadcastIsNear(r, CountdownStart, net);
    var u := DropVirtualHost(t, net);
    if t.hostPid.Some? {
      WithoutIsSound(t, t.hostPid.value);
      WithoutIsNear(t.players, t.game, t.hostPid.value);
      var w := t.(hostPid := None, players := Without(t.players, t.hostPid.value));
      BroadcastIsSound(w, PlayerLeaveOthers(t.hostPid.value, PLAYERLEAVE_LOBBY), net);
      BroadcastIsNear(w, PlayerLeaveOthers(t.hostPid.value, PLAYERLEAVE_LOBBY), net);
    }
    var v := Broadcast(u, CountdownEnd, net);
    BroadcastIsSound(u, CountdownEnd, net);
    BroadcastIsNear(u, CountdownEnd, net);
    FakeLoadedIsSound(v, net);
    FakeLoadedIsNear(v, net);
    BeginPlayingIsNear(FakeLoaded(v, net), net);
  }

  lemma FakeLoadedIsNear(s: State, net: Net)
    requires Sound(s) && AllNear(s.players, s.game)
    ensures AllNear(FakeLoaded(s, net).players, FakeLoaded(s, net).game)
    ensures FakeLoaded(s, net).game == s.game
  {
    if s.fakePid.Some? {
      var i := ByPid(s.players, s.fakePid.value);
      if i < |s.players| {
        OneReseated(s, i, s.players[i].(loaded := true));
        OneSteadyIsNear(s, i, s.players[i].(loaded := true));
        BroadcastIsNear(s.(players := s.players[i := s.players[i].(loaded := true)]), GameLoadedOthers(s.fakePid.value), net);
      } else {
        BroadcastIsNear(s, GameLoadedOthers(s.fakePid.value), net);
      }
    }
  }

  lemma PhaseTickIsNear(s: State, input: TickInput, net: Net)
    requires Sound(s) && AllNear(s.players, s.game)
    ensures PresentNear(PhaseTick(s, input, net).players, PhaseTick(s, input, net).game)
    ensures PhaseTick(s, input, net).game.limit == s.game.limit
  {
    match s.phase {
      case Lobby =>
      case Countdown => BeginLoadingIsNear(s, net);
      case Loading => LoadTimeoutIsNear(s, net);
      case Playing => PlayTickIsNear(s, input, net);
      case Over =>
    }
  }

  lemma LoadTimeoutIsNear(s: State, net: Net)
    requires Sound(s) && AllNear(s.players, s.game)
    ensures var t := Reap(s.(players := LeaveUnloaded(s.players)), net);
            AllNear(t.players, t.game) && t.game.limit == s.game.limit
  {
    LeaveAllIsSound(s, LoadingTimeout);
    LeaveAllIsNear(s);
    ReapIsNear(s.(players := LeaveUnloaded(s.players)), net);
  }

  lemma OnTickIsNear(s: State, input: TickInput, net: Net)
    requires Sound(s) && AllNear(s.players, s.game)
    ensures PresentNear(OnTick(s, input, net).players, OnTick(s, input, net).game)
    ensures OnTick(s, input, net).game.limit == s.game.limit
  {
    var e := s.(players := ExpireAll(s.players, input.expired));
    assert AllSteady(s.players, e.players);
    SteadyStaysNear(s, e);
    var t := ReapTimeouts(s, input.expired, input.notices, net);
    ReapTimeoutsIsSound(s, input.expired, input.notices, net);
    ShadowsStayNear(e, t);
    BroadcastIsSound(t, Opaque(1), net);
    BroadcastIsNear(t, Opaque(1), net);
    PhaseTickIsNear(Pinged(t, input, net), input, net);
  }

  lemma WhisperIsNear(s: State, pid: nat, pkt: Packet, net: Net)
    requires Sound(s) && AllNear(s.players, s.game)
    ensures AllNear(SendTo(s, pid, pkt, net).players, SendTo(s, pid, pkt, net).game)
    ensures SendTo(s, pid, pkt, net).game == s.game
  {
    SendToIsSound(s, pid, pkt, net);
    ShadowsStayNear(s, SendTo(s, pid, pkt, net));
  }

  /** What a command must leave behind it for the reaper. */
  ghost predicate StaysNear(s: State, t: State) {
    PresentNear(t.players, t.game) && t.game.limit == s.game.limit
  }

  lemma HandleIsNear(s: State, cmd: Command, net: Net)
    requires Sound(s) && AllNear(s.players, s.game)
    ensures StaysNear(s, Handle(s, cmd, net))
  {
    if LobbyCommand(cmd) {
      LobbyCommandIsNear(s, cmd, net);
    } else if ClientCommand(cmd) {
      ClientCommandIsNear(s, cmd, net);
    } else if LinkCommand(cmd) {
      LinkCommandIsNear(s, cmd, net);
    } else {
      HostCommandIsNear(s, cmd, net);
    }
  }

  lemma LobbyCommandIsNear(s: State, cmd: Command, net: Net)
    requires Sound(s) && AllNear(s.players, s.game) && LobbyCommand(cmd)
    ensures StaysNear(s, HandleLobby(s, cmd, net))
  {
    match cmd {
      case DoJoin(conn, name, key, slot) => JoinIsNear(s, conn, name, key, slot, net);
      case DoVirtualHost(name) => VirtualHostIsNear(s, name, net);
      case DoToggleFake(slot) => ToggleFakeIsNear(s, slot, net);
      case DoStart =>
    }
  }

  lemma ClientCommandIsNear(s: State, cmd: Command, net: Net)
    requires Sound(s) && AllNear(s.players, s.game) && ClientCommand(cmd)
    ensures StaysNear(s, HandleClient(s, cmd, net))
  {
    match cmd {
      case DoLoaded(conn) => HandleLoadedIsNear(s, conn, net);
      case DoMapSize(conn) => HandleMapSizeIsNear(s, conn, net);
      case DoKeepalive(conn, sum) => KeepaliveIsNear(s, conn, sum, net); HandleKeepaliveIsSound(s, conn, sum, net);
      case DoAction(conn, data) => ActionIsNear(s, conn, data);
      case DoLeave(conn) => LeaveIsNear(s, conn);
      case DoDropRequest => DropRequestIsNear(s);
    }
  }

  lemma LinkCommandIsNear(s: State, cmd: Command, net: Net)
    requires Sound(s) && AllNear(s.players, s.game) && LinkCommand(cmd)
    ensures StaysNear(s, HandleLink(s, cmd, net))
  {
    match cmd {
      case DoClosed(conn) => ConnClosedIsNear(s, conn);
      case DoGpsInit(conn) => GpsInitIsNear(s, conn, net);
      case DoGpsFull(conn, pid, key) =>
      case DoRejoin(conn, name) => RejoinIsNear(s, conn, name, net);
      case DoReconnect(conn, pid, key, last) => ReconnectIsNear(s, conn, pid, key, last, net);
    }
  }

  lemma HostCommandIsNear(s: State, cmd: Command, net: Net)
    requires Sound(s) && AllNear(s.players, s.game) && HostCommand(cmd)
    ensures StaysNear(s, HandleHost(s, cmd, net))
  {
    match cmd {
      case DoAnnounce(pkt) => BroadcastIsNear(s, pkt, net);
      case DoWhisper(pid, pkt) => WhisperIsNear(s, pid, pkt, net);
      case DoKick(pid) => KickIsNear(s, pid, Removed, PLAYERLEAVE_LOST);
      case DoLatency(period) =>
      case DoTick(input) => OnTickIsNear(s, input, net);
    }
  }

  lemma {:induction false} RunIsNear(limit: nat, period: nat, net: Net, cmds: seq<Command>, states: seq<State>, k: nat)
    requires IsRun(limit, period, net, cmds, states) && k <= |cmds|
    ensures AllNear(states[k].players, states[k].game) && states[k].game.limit == limit
  {
    if k > 0 {
      RunIsNear(limit, period, net, cmds, states, k - 1);
      RunIsSound(limit, period, net, cmds, states, k - 1);
      StepIsNear(limit, period, net, cmds, states, k - 1);
    }
  }

  lemma StepIsNear(limit: nat, period: nat, net: Net, cmds: seq<Command>, states: seq<State>, k: nat)
    requires IsRun(limit, period, net, cmds, states) && k < |cmds|
    requires Sound(states[k]) && AllNear(states[k].players, states[k].game)
    ensures AllNear(states[k + 1].players, states[k + 1].game) && states[k + 1].game.limit == states[k].game.limit
  {
    NextIsNear(states[k], cmds[k], net);
  }

  lemma NextIsNear(s: State, cmd: Command, net: Net)
    requires Sound(s) && AllNear(s.players, s.game)
    ensures AllNear(Next(s, cmd, net).players, Next(s, cmd, net).game)
    ensures Next(s, cmd, net).game.limit == s.game.limit
  {
    HandleIsSound(s, cmd, net);
    HandleIsNear(s, cmd, net);
    ReapIsNear(Handle(s, cmd, net), net);
  }

  /** In every reachable state, every paced player's turn counter is at most
      `limit + 1` behind the game's. */
  lemma LagIsBounded(limit: nat, s: State, i: nat)
    requires Reachable(limit, s)
    requires i < |s.players| && !s.players[i].virtualHost && s.players[i].pace.paced
    ensures SaturatingSub(s.game.sync, s.players[i].pace.sync) <= limit + 1
  {
    var period, net, cmds, states :| IsRun(limit, period, net, cmds, states) && s == states[|cmds|];
    RunIsNear(limit, period, net, cmds, states, |cmds|);
    assert Near(s.players[i], s.game);
  }

  /** In the game that is everybody who joined in the lobby and never rejoined. */
  lemma NobodyFallsBehind(limit: nat, s: State, i: nat)
    requires Reachable(limit, s) && s.phase.Playing?
    requires i < |s.players| && !s.players[i].virtualHost && s.players[i].link.origin.Joined?
    ensures SaturatingSub(s.game.sync, s.players[i].pace.sync) <= limit + 1
  {
    ReachableIsSound(limit, s);
    assert InPace(s.players[i]);
    LagIsBounded(limit, s, i);
  }

  /** The game's counter is the number of turns sent since the game began, as
      long as fewer than 2^32 were. */
  lemma TurnCounterIsExact(limit: nat, s: State)
    requires Reachable(limit, s) && s.game.turns < U32_MODULUS
    ensures s.game.sync == s.game.turns
  {
    ReachableIsSound(limit, s);
    assert CoreOk(s);
  }
}
