/** A FULL rejoin that is accepted before the game has started: how play can
    start around a client that is still in its handshake
    (crates/spectre-engine/src/full_rejoin.rs, actions.rs, state.rs). */
module LoadingRejoins {
  import opened Basics
  import opened Packets
  import opened Histories
  import opened GProxy
  import opened Seats
  import opened Engine
  import opened EngineSafety
  import opened BoundedLag
  import opened Feeds
  import opened Rejoins
  import opened Acceptance

  // ---- a seat in its handshake, with a cursor armed at the start of the log ----

  ghost predicate Waits(p: Player, o: Origin) {
    p.Present() && p.rejoin != NoRejoin && p.link.open && p.cursor == Some(0) && p.link.origin == o
  }

  lemma BroadcastKeepsWait(p: Player, pkt: Packet, turn: bool, o: Origin)
    requires Waits(p, o)
    ensures Waits(p.OnBroadcast(pkt, turn, Ok), o)
    ensures p.OnBroadcast(pkt, turn, Ok) == p.(gp := p.OnBroadcast(pkt, turn, Ok).gp)
  {
  }

  lemma DirectKeepsWait(p: Player, pkt: Packet, o: Origin)
    requires Waits(p, o)
    ensures Waits(p.OnDirect(pkt, Ok), o)
  {
    if !p.disconnected {
      var q := p.Numbered(pkt);
      assert q.Live(pkt, false, Ok) == q.Sent(pkt, false);
    }
  }

  lemma ChatKeepsWait(s: State, pkt: Packet, i: nat, o: Origin)
    requires i < |s.players| && Waits(s.players[i], o)
    ensures var t := ChatAll(s, pkt, AllOk());
            && i < |t.players| && Waits(t.players[i], o) && t.phase == s.phase
            && |t.trace.log| <= |s.trace.log| + 1
  {
    BroadcastKeepsWait(s.players[i], pkt, s.phase.Playing?, o);
  }

  lemma WhisperKeepsWait(s: State, pid: nat, pkt: Packet, i: nat, o: Origin)
    requires i < |s.players| && Waits(s.players[i], o)
    ensures var t := SendTo(s, pid, pkt, AllOk());
            i < |t.players| && Waits(t.players[i], o) && t.phase == s.phase && t.trace == s.trace
  {
    DirectKeepsWait(s.players[i], pkt, o);
  }

  lemma {:induction false} LoadTimesKeepWait(s: State, pids: seq<nat>, i: nat, o: Origin)
    requires i < |s.players| && Waits(s.players[i], o)
    ensures var t := LoadTimes(s, pids, AllOk());
            i < |t.players| && Waits(t.players[i], o) && t.phase == s.phase && t.trace == s.trace
    decreases |pids|
  {
    if pids != [] {
      WhisperKeepsWait(s, pids[0], Chat("load time"), i, o);
      LoadTimesKeepWait(SendTo(s, pids[0], Chat("load time"), AllOk()), pids[1..], i, o);
    }
  }

  /** Play starts around the seat. */
  lemma PlayStarts(s: State, i: nat, o: Origin)
    requires Sound(s) && s.phase.Loading? && i < |s.players| && Waits(s.players[i], o)
    ensures var t := BeginPlaying(s, AllOk());
            && Sound(t) && t.phase.Playing? && |t.trace.log| <= 2
            && i < |t.players| && Waits(t.players[i], o)
  {
    BeginPlayingIsSound(s, AllOk());
    var t := s.(phase := Playing, players := MapPlayers(s.players, ResetForPlay), startedLoading := false,
                game := s.game.(sync := 0, ticks := 0, turns := 0));
    if s.startedLoading {
      var x, y := Chat("shortest load"), Chat("longest load");
      ChatKeepsWait(t, x, i, o);
      var a := ChatAll(t, x, AllOk());
      ChatKeepsWait(a, y, i, o);
      ChatTwice(t, x, y, AllOk());
      LoadTimesKeepWait(ChatAll(a, y, AllOk()), HumanPids(t.players), i, o);
    }
  }

  lemma ChatTwice(s: State, x: Packet, y: Packet, net: Net)
    ensures ChatEach(s, [x, y], net) == ChatAll(ChatAll(s, x, net), y, net)
  {
    var t := ChatAll(s, x, net);
    assert [x, y][1..] == [y] && [y][1..] == [];
    assert ChatEach(t, [y], net) == ChatEach(ChatAll(t, y, net), [], net);
  }

  // ---- there are few players ----

  lemma {:induction false} GoneAreSeated(ps: seq<Player>)
    ensures |Gone(ps)| <= |ps|
  {
    if ps != [] {
      GoneAreSeated(Most(ps));
    }
  }

  /** Distinct pids below `n` belong to at most `n` players. */
  lemma {:induction false} PidsAreFew(ps: seq<Player>, n: nat)
    requires UniquePids(ps) && forall i :: 0 <= i < |ps| ==> ps[i].pid < n
    ensures |ps| <= n
  {
    if n > 0 {
      var qs := Without(ps, n - 1);
      var cut := ByPid(ps, n - 1);
      assert forall i :: 0 <= i < |qs| ==> qs[i] == ps[if i < cut then i else i + 1];
      forall i | 0 <= i < |qs| ensures qs[i].pid < n - 1 {
      }
      PidsAreFew(qs, n - 1);
    }
  }

  lemma FewPlayers(s: State)
    requires Sound(s)
    ensures |Gone(s.players)| <= |s.players| <= 255
  {
    forall i | 0 <= i < |s.players| ensures s.players[i].pid < 255 {
      assert SeatOk(s.players[i], s.trace.log);
    }
    PidsAreFew(s.players, 255);
    GoneAreSeated(s.players);
  }

  // ---- the seat leaks once play has started ----

  lemma LeakLater(s: State, cmd: Command, net: Net, o: Origin)
    requires LeaksUnder(Next(s, cmd, net), o, net)
    ensures LeaksUnder(s, o, net)
  {
    SomewhereLater(s, cmd, Following(net), Leaking(o, net));
  }

  lemma SomewhereLater<S(!new), C(!new)>(s: S, cmd: C, next: (S, C) -> S, q: (S, Option<C>) -> bool)
    requires Somewhere(next(s, cmd), next, q)
    ensures Somewhere(s, next, q)
  {
    var t := next(s, cmd);
    var cmds: seq<C>, states: seq<S>, k: nat :| Path(next, t, cmds, states) && k <= |cmds|
      && q(states[k], if k < |cmds| then Some(cmds[k]) else None);
    var cs, ss := [cmd] + cmds, [s] + states;
    forall m | 0 <= m < |cs| ensures ss[m + 1] == next(ss[m], cs[m]) {
      if m > 0 {
        assert cs[m] == cmds[m - 1];
      }
    }
    assert Path(next, s, cs, ss);
    assert q(ss[k + 1], if k + 1 < |cs| then Some(cs[k + 1]) else None);
  }

  lemma WaitLeaks(s: State, i: nat, o: Origin)
    requires Sound(s) && s.phase.Playing? && i < |s.players| && Waits(s.players[i], o) && |s.trace.log| <= 300
    ensures LeaksUnder(s, o, AllOk())
  {
    assert s.history.FirstSeq() == 0;
    ExposedSeatLeaks(s, i);
  }

  lemma ReapedWaitLeaks(s: State, i: nat, o: Origin)
    requires Sound(s) && s.phase.Playing? && i < |s.players| && Waits(s.players[i], o) && |s.trace.log| <= 2
    ensures LeaksUnder(Reap(s, AllOk()), o, AllOk())
  {
    FewPlayers(s);
    PlayingReap(s, AllOk());
    var j := ReapPassesBy(s, AllOk(), i);
    ExposedSeatLeaks(Reap(s, AllOk()), j);
  }

  // ---- the reaper while the game is loading ----

  lemma LoadingReap(s: State, i: nat, o: Origin) returns (u: State, j: nat)
    requires Sound(s) && s.phase.Loading? && i < |s.players| && Waits(s.players[i], o)
    ensures u == ReapEach(s, Gone(s.players), AllOk()) && Sound(u) && u.phase.Loading?
    ensures Reap(s, AllOk()) == if Gone(s.players) != [] && HumansLoaded(u.players) then BeginPlaying(u, AllOk()) else u
    ensures j < |u.players| && u.players[j] == s.players[i].(gp := u.players[j].gp)
  {
    var gone := Gone(s.players);
    u := ReapEach(s, gone, AllOk());
    ReapEachIsSound(s, gone, AllOk());
    StayerIsNotGone(s.players, i);
    j := ReapEachPassesBy(s, gone, AllOk(), i);
    ReapWhileLoading(s, AllOk());
  }

  lemma ReapWhileLoading(s: State, net: Net)
    requires Sound(s) && s.phase.Loading?
    ensures var u := ReapEach(s, Gone(s.players), net);
            u.players != [] ==>
              Reap(s, net) == if Gone(s.players) != [] && HumansLoaded(u.players) then BeginPlaying(u, net) else u
  {
    ReapEachIsSound(s, Gone(s.players), net);
  }

  lemma ReapOneRests(s: State, pid: nat, code: nat, net: Net, k: nat) returns (m: nat)
    requires Sound(s) && k < |ReapOne(s, pid, code, net).players|
    ensures m < |s.players| && s.players[m].pid != pid && Undisturbed(s.players[m], ReapOne(s, pid, code, net).players[k])
  {
    ReapOneIsSound(s, pid, code, net);
    m := IndexWithout(s.players, pid, k);
    assert Undisturbed(Without(s.players, pid)[k], ReapOne(s, pid, code, net).players[k]);
  }

  /** Whoever is seated after the reaper is a player it did not announce. */
  lemma {:induction false} ReapEachRests(s: State, gone: seq<(nat, nat)>, net: Net, k: nat) returns (m: nat)
    requires Sound(s) && k < |ReapEach(s, gone, net).players|
    ensures m < |s.players| && Undisturbed(s.players[m], ReapEach(s, gone, net).players[k])
    ensures forall g :: 0 <= g < |gone| ==> gone[g].0 != s.players[m].pid
    decreases |gone|
  {
    if gone == [] {
      m := k;
    } else {
      var t := ReapOne(s, gone[0].0, gone[0].1, net);
      ReapOneIsSound(s, gone[0].0, gone[0].1, net);
      var n := ReapEachRests(t, gone[1..], net, k);
      m := ReapOneRests(s, gone[0].0, gone[0].1, net, n);
      UndisturbedTransitive(s.players[m], t.players[n], ReapEach(s, gone, net).players[k]);
      assert forall g :: 0 < g < |gone| ==> gone[g] == gone[1..][g - 1];
    }
  }

  lemma UndisturbedTransitive(p: Player, q: Player, r: Player)
    requires Undisturbed(p, q) && Undisturbed(q, r)
    ensures Undisturbed(p, r)
  {
  }

  /** The reaper removes somebody if it announces a seated player. */
  lemma {:induction false} ReapEachShrinks(s: State, gone: seq<(nat, nat)>, net: Net, pid: nat)
    ensures |ReapEach(s, gone, net).players| <= |s.players|
    ensures Taken(s.players, pid) && (exists g :: 0 <= g < |gone| && gone[g].0 == pid) ==>
              |ReapEach(s, gone, net).players| < |s.players|
    decreases |gone|
  {
    if gone != [] {
      var t := ReapOne(s, gone[0].0, gone[0].1, net);
      ReapOneShrinks(s, gone[0].0, gone[0].1, net, pid);
      ReapEachShrinks(t, gone[1..], net, pid);
      if g :| 0 < g < |gone| && gone[g].0 == pid {
        assert gone[1..][g - 1].0 == pid;
      }
    }
  }

  lemma ReapOneShrinks(s: State, pid: nat, code: nat, net: Net, other: nat)
    ensures var t := ReapOne(s, pid, code, net);
            && |t.players| <= |s.players|
            && (Taken(s.players, pid) ==> |t.players| < |s.players|)
            && (!Taken(s.players, pid) && Taken(s.players, other) ==> Taken(t.players, other))
  {
    var t := ReapOne(s, pid, code, net);
    if !Taken(s.players, pid) && Taken(s.players, other) {
      var i := ByPid(s.players, other);
      var a := Broadcast(s, PlayerLeaveOthers(pid, code), net);
      assert Without(s.players, pid) == s.players;
      BroadcastKeepsPid(s.players[i], PlayerLeaveOthers(pid, code), s.phase.Playing?, net(s.clock, s.players[i].pid, 0));
      BroadcastKeepsPid(a.players[i], Opaque(2), a.phase.Playing?, net(a.clock, a.players[i].pid, 0));
      assert t.players[i].pid == other;
    }
  }

  // ---- how play starts ----

  function TimeoutTick(): TickInput {
    TickInput(0, {}, [], false, false, true, false, {}, None, false, false)
  }

  lemma TimeoutIsReap(s: State)
    requires s.phase.Loading?
    ensures OnTick(s, TimeoutTick(), AllOk()) == Reap(s.(players := LeaveUnloaded(s.players)), AllOk())
  {
    assert ExpireAll(s.players, {}) == s.players;
    assert Chats([]) == [];
    assert s.(players := ExpireAll(s.players, {})) == s;
  }

  /** Somebody keeps the game from starting: the loading timeout drops them, and
      play starts around the waiting seat. */
  lemma TimeoutLeaks(s: State, i: nat, o: Origin)
    requires Sound(s) && s.phase.Loading? && i < |s.players| && Waits(s.players[i], o) && s.players[i].loaded
    requires !HumansLoaded(s.players)
    ensures LeaksUnder(s, o, AllOk())
  {
    var w := s.(players := LeaveUnloaded(s.players));
    LeaveAllIsSound(s, LoadingTimeout);
    var u, j := LoadingReap(w, i, o);
    TimeoutStartsPlay(s);
    PlayStarts(u, j, o);
    var v := BeginPlaying(u, AllOk());
    ReapedWaitLeaks(v, j, o);
    TimeoutIsReap(s);
    NextOfTick(s, TimeoutTick(), AllOk());
    LeakLater(s, DoTick(TimeoutTick()), AllOk(), o);
  }

  lemma TimeoutStartsPlay(s: State)
    requires Sound(s) && s.phase.Loading? && !HumansLoaded(s.players)
    ensures var w := s.(players := LeaveUnloaded(s.players));
            Gone(w.players) != [] && (Sound(w) ==> HumansLoaded(ReapEach(w, Gone(w.players), AllOk()).players))
  {
    var w := s.(players := LeaveUnloaded(s.players));
    var late :| 0 <= late < |s.players| && !s.players[late].virtualHost && !s.players[late].loaded;
    GoneListsLeavers(w.players, late);
    if Sound(w) {
      assert forall m :: 0 <= m < |w.players| && !w.players[m].virtualHost && w.players[m].left.None? ==> w.players[m].loaded;
      LoadedRemain(w, AllOk());
    }
  }

  /** Those who neither left nor lag behind in loading remain. */
  lemma LoadedRemain(s: State, net: Net)
    requires Sound(s)
    requires forall m :: 0 <= m < |s.players| && !s.players[m].virtualHost && s.players[m].left.None? ==> s.players[m].loaded
    ensures HumansLoaded(ReapEach(s, Gone(s.players), net).players)
  {
    var u := ReapEach(s, Gone(s.players), net);
    forall k | 0 <= k < |u.players| && !u.players[k].virtualHost ensures u.players[k].loaded {
      var m := ReapEachRests(s, Gone(s.players), net, k);
      if s.players[m].left.Some? {
        GoneListsLeavers(s.players, m);
      }
    }
  }

  /** The client in its handshake has reported that it is loaded, and play has
      not started yet. */
  lemma LoadedWaitLeaks(s: State, i: nat, o: Origin)
    requires Sound(s) && s.phase.Loading? && i < |s.players| && Waits(s.players[i], o) && s.players[i].loaded
    requires !AllLoaded(s.players)
    ensures LeaksUnder(Reap(s, AllOk()), o, AllOk())
  {
    var u, j := LoadingReap(s, i, o);
    if Gone(s.players) != [] && HumansLoaded(u.players) {
      PlayStarts(u, j, o);
      WaitLeaks(BeginPlaying(u, AllOk()), j, o);
    } else {
      if Gone(s.players) == [] {
        HostsAreLoaded(s);
      }
      TimeoutLeaks(u, j, o);
    }
  }

  lemma HostsAreLoaded(s: State)
    requires Sound(s)
    ensures HumansLoaded(s.players) ==> AllLoaded(s.players)
  {
    forall i | 0 <= i < |s.players| && s.players[i].virtualHost ensures s.players[i].loaded {
      assert SeatOk(s.players[i], s.trace.log);
    }
  }

  /** It reports so before it has reported the map. */
  lemma EarlyLoadedLeaks(s: State, i: nat, conn: ConnId, o: Origin)
    requires Sound(s) && s.phase.Loading? && i < |s.players| && Waits(s.players[i], o)
    requires s.players[i].rejoin == AwaitingMapSize && ByConn(s.players, conn) == i
    ensures LeaksUnder(s, o, AllOk())
  {
    var p := s.players[i];
    var b := s.(players := s.players[i := p.(loaded := true)]);
    OneReseated(s, i, p.(loaded := true));
    BroadcastIsSound(b, GameLoadedOthers(p.pid), AllOk());
    BroadcastKeepsWait(p.(loaded := true), GameLoadedOthers(p.pid), false, o);
    var a := Broadcast(b, GameLoadedOthers(p.pid), AllOk());
    assert a.players[i] == b.players[i].OnBroadcast(GameLoadedOthers(p.pid), false, Ok);
    NextOfLoaded(s, conn, AllOk());
    if AllLoaded(a.players) {
      PlayStarts(a, i, o);
      ReapedWaitLeaks(BeginPlaying(a, AllOk()), i, o);
    } else {
      LoadedWaitLeaks(a, i, o);
    }
    LeakLater(s, DoLoaded(conn), AllOk(), o);
  }

  lemma NextOfLoaded(s: State, conn: ConnId, net: Net)
    requires var i := ByConn(s.players, conn); i < |s.players| && s.players[i].rejoin != AwaitingLoaded
    ensures var i := ByConn(s.players, conn);
            var a := Broadcast(s.(players := s.players[i := s.players[i].(loaded := true)]), GameLoadedOthers(s.players[i].pid), net);
            Next(s, DoLoaded(conn), net) == Reap(if AllLoaded(a.players) then BeginPlaying(a, net) else a, net)
  {
  }

  /** Other seats on the same connection can be kicked first. */
  lemma {:induction false} UnloadedWaitLeaks(s: State, i: nat, conn: ConnId, o: Origin)
    requires Sound(s) && s.phase.Loading? && i < |s.players| && Waits(s.players[i], o)
    requires s.players[i].rejoin == AwaitingMapSize && s.players[i].conn == conn && !s.players[i].loaded
    ensures LeaksUnder(s, o, AllOk())
    decreases |s.players|
  {
    var k := ByConn(s.players, conn);
    if k == i {
      EarlyLoadedLeaks(s, i, conn, o);
    } else {
      assert SeatOk(s.players[k], s.trace.log);
      var pid := s.players[k].pid;
      var t := Kick(s, pid, Removed, PLAYERLEAVE_LOST);
      KickIsSound(s, pid, Removed, PLAYERLEAVE_LOST);
      assert ByPid(s.players, pid) == k;
      var u, j := LoadingReap(t, i, o);
      assert Reap(t, AllOk()) == u;
      GoneListsLeavers(t.players, k);
      ReapEachShrinks(t, Gone(t.players), AllOk(), pid);
      UnloadedWaitLeaks(u, j, conn, o);
      NextOfKick(s, pid, AllOk());
      LeakLater(s, DoKick(pid), AllOk(), o);
    }
  }

  lemma NextOfKick(s: State, pid: nat, net: Net)
    ensures Next(s, DoKick(pid), net) == Reap(Kick(s, pid, Removed, PLAYERLEAVE_LOST), net)
  {
  }

  // ---- the exact condition, in every phase ----

  lemma LeaksIfArmed(s: State, conn: ConnId, name: string)
    requires Sound(s) && MadeBefore(s) && RejoinAccepted(s, conn, name) && s.phase.Loading?
    requires s.players[TokenSeat(s, conn)].cursor.Some?
    ensures !AlwaysQuiet(Next(s, DoRejoin(conn, name), AllOk()), Rejoined(s.clock))
  {
    var i, t, o := TokenSeat(s, conn), TryFullRejoin(s, conn, name, AllOk()), Rejoined(s.clock);
    assert SeatOk(s.players[i], s.trace.log);
    AcceptedSeat(s, conn, name, AllOk());
    AcceptedSeatIsOpen(s, conn, name);
    TryFullRejoinIsSound(s, conn, name, AllOk());
    assert Waits(t.players[i], o);
    var u, j := LoadingReap(t, i, o);
    assert Reap(t, AllOk()) == u;
    UnloadedWaitLeaks(u, j, conn, o);
    NextOfRejoin(s, conn, name, AllOk());
  }

  /** FULL rejoin: on every run, after an acceptance nothing is handed over on
      the new link during its handshake, whatever the links answer and whatever
      commands follow, if and only if no catch-up cursor was armed at the
      acceptance or the history no longer holds what it points at. */
  lemma RejoinIsQuietIff(limit: nat, s: State, conn: ConnId, name: string)
    requires Reachable(limit, s) && RejoinAccepted(s, conn, name)
    ensures (forall net :: AlwaysQuiet(Next(s, DoRejoin(conn, name), net), Rejoined(s.clock)))
       <==> Calm(s.players[TokenSeat(s, conn)].cursor, FirstHeld(s))
  {
    ReachableIsSound(limit, s);
    ReachableMadeBefore(limit, s);
    if Calm(s.players[TokenSeat(s, conn)].cursor, FirstHeld(s)) {
      forall net ensures AlwaysQuiet(Next(s, DoRejoin(conn, name), net), Rejoined(s.clock)) {
        AcceptedIsHushed(limit, s, conn, name, net);
        HushedIsAlwaysQuiet(Next(s, DoRejoin(conn, name), net), Rejoined(s.clock));
      }
    } else if s.phase.Playing? {
      LeaksIfNotCalm(s, conn, name);
    } else {
      LeaksIfArmed(s, conn, name);
    }
  }
}
