/** The handshake of a FULL rejoin: exactly when nothing is handed over during
    it (crates/spectre-engine/src/full_rejoin.rs, state.rs). */
module Rejoins {
  import opened Basics
  import opened Packets
  import opened Histories
  import opened GProxy
  import opened Seats
  import opened Engine
  import opened EngineSafety
  import opened BoundedLag
  import opened Feeds

  // ---- seats and where they come from ----

  /** `q` is a later state of the seat `p` on the same link: still in its
      handshake only if `p` was; and if no packet could be fed from the cursor,
      none was, and the cursor is at most gone. Something is handed over early
      only from the cursor of a seat in its handshake. */
  ghost predicate Quieter(p: Player, q: Player, first: nat) {
    && q.link.origin == p.link.origin
    && (q.rejoin != NoRejoin ==>
          && p.rejoin != NoRejoin
          && (Calm(p.cursor, first) ==> (q.cursor == p.cursor || q.cursor.None?) && q.link.feed == p.link.feed))
    && (Leaked(q.link.feed) ==> Leaked(p.link.feed) || (p.rejoin != NoRejoin && !Calm(p.cursor, first)))
  }

  /** The client at `q` counts at most `told` strays more than it did in `s`. */
  ghost predicate Inherits(s: State, q: Player, told: nat) {
    CountedStrays(q) <= told
    || exists i :: 0 <= i < |s.players| && s.players[i].pid == q.pid && CountedStrays(q) <= CountedStrays(s.players[i]) + told
  }

  /** `q` is on a link made since `s` and before round `now`, or is a later
      state of a seat of `s`. */
  ghost predicate Descends(s: State, q: Player, now: nat) {
    s.clock <= q.link.origin.at < now
    || exists i :: 0 <= i < |s.players| && Quieter(s.players[i], q, s.history.FirstSeq())
  }

  /** From `s` to `t` players were told `told` times past their buffers. */
  ghost predicate FollowsBy(s: State, t: State, told: nat) {
    Later(s, t) && forall j :: 0 <= j < |t.players| ==> Descends(s, t.players[j], t.clock) && Inherits(s, t.players[j], told)
  }

  ghost predicate Follows(s: State, t: State) {
    FollowsBy(s, t, 0)
  }

  lemma DescendsTransitive(s: State, t: State, q: Player, now: nat)
    requires Later(s, t) && Descends(t, q, now) && t.clock <= now
    requires forall k :: 0 <= k < |t.players| ==> Descends(s, t.players[k], t.clock)
    ensures Descends(s, q, now)
  {
    if !(t.clock <= q.link.origin.at < now) {
      var k :| 0 <= k < |t.players| && Quieter(t.players[k], q, t.history.FirstSeq());
      assert Descends(s, t.players[k], t.clock);
      if !(s.clock <= t.players[k].link.origin.at < t.clock) {
        var i :| 0 <= i < |s.players| && Quieter(s.players[i], t.players[k], s.history.FirstSeq());
        QuieterTransitive(s.players[i], t.players[k], q, s.history.FirstSeq(), t.history.FirstSeq());
      }
    }
  }

  lemma QuieterTransitive(p: Player, q: Player, r: Player, first: nat, later: nat)
    requires Quieter(p, q, first) && Quieter(q, r, later) && first <= later
    ensures Quieter(p, r, first)
  {
  }

  lemma InheritsTransitive(s: State, t: State, q: Player, told: nat, more: nat)
    requires Inherits(t, q, more)
    requires forall k :: 0 <= k < |t.players| ==> Inherits(s, t.players[k], told)
    ensures Inherits(s, q, told + more)
  {
    if CountedStrays(q) > more {
      var k :| 0 <= k < |t.players| && t.players[k].pid == q.pid && CountedStrays(q) <= CountedStrays(t.players[k]) + more;
      assert Inherits(s, t.players[k], told);
      if CountedStrays(t.players[k]) > told {
        var i :| 0 <= i < |s.players| && s.players[i].pid == t.players[k].pid
          && CountedStrays(t.players[k]) <= CountedStrays(s.players[i]) + told;
        assert s.players[i].pid == q.pid && CountedStrays(q) <= CountedStrays(s.players[i]) + (told + more);
      }
    }
  }

  lemma FollowsByTransitive(s: State, t: State, u: State, told: nat, more: nat)
    requires FollowsBy(s, t, told) && FollowsBy(t, u, more)
    ensures FollowsBy(s, u, told + more)
  {
    forall j | 0 <= j < |u.players| ensures Descends(s, u.players[j], u.clock) && Inherits(s, u.players[j], told + more) {
      DescendsTransitive(s, t, u.players[j], u.clock);
      InheritsTransitive(s, t, u.players[j], told, more);
    }
  }

  lemma FollowsTransitive(s: State, t: State, u: State)
    requires Follows(s, t) && Follows(t, u)
    ensures Follows(s, u)
  {
    FollowsByTransitive(s, t, u, 0, 0);
  }

  /** The seat stays, quieter, and counts no more strays. */
  lemma SeatFollows(s: State, i: nat, q: Player, now: nat)
    requires i < |s.players| && q.pid == s.players[i].pid
    requires Quieter(s.players[i], q, s.history.FirstSeq()) && CountedStrays(q) <= CountedStrays(s.players[i])
    ensures Descends(s, q, now) && Inherits(s, q, 0)
  {
  }

  lemma KeptFollows(s: State, t: State)
    requires Later(s, t) && AllKept(s.players, t.players)
    ensures Follows(s, t)
  {
    forall j | 0 <= j < |t.players| ensures Descends(s, t.players[j], t.clock) && Inherits(s, t.players[j], 0) {
      assert Kept(s.players[j], t.players[j]);
      SeatFollows(s, j, t.players[j], t.clock);
    }
  }

  lemma ShadowsFollow(s: State, t: State)
    requires Later(s, t) && Shadows(s.players, t.players)
    ensures Follows(s, t)
  {
    ShadowsAreKept(s.players, t.players);
    KeptFollows(s, t);
  }

  lemma OneFollows(s: State, t: State, i: nat)
    requires Later(s, t) && i < |s.players| == |t.players| && t.players == s.players[i := t.players[i]]
    requires Descends(s, t.players[i], t.clock) && Inherits(s, t.players[i], 0)
    ensures Follows(s, t)
  {
    forall j | 0 <= j < |t.players| ensures Descends(s, t.players[j], t.clock) && Inherits(s, t.players[j], 0) {
      if j != i {
        SeatFollows(s, j, t.players[j], t.clock);
      }
    }
  }

  lemma WithoutFollows(s: State, t: State, pid: nat)
    requires Later(s, t) && t.players == Without(s.players, pid)
    ensures Follows(s, t)
  {
    var i := ByPid(s.players, pid);
    forall j | 0 <= j < |t.players| ensures Descends(s, t.players[j], t.clock) && Inherits(s, t.players[j], 0) {
      var k := if j < i then j else if i < |s.players| then j + 1 else j;
      assert t.players[j] == s.players[k];
      SeatFollows(s, k, t.players[j], t.clock);
    }
  }

  lemma AddedFollows(s: State, t: State, p: Player)
    requires Later(s, t) && t.players == s.players + [p] && s.clock <= p.link.origin.at < t.clock && p.gp.None?
    ensures Follows(s, t)
  {
    forall j | 0 <= j < |t.players| ensures Descends(s, t.players[j], t.clock) && Inherits(s, t.players[j], 0) {
      if j < |s.players| {
        SeatFollows(s, j, t.players[j], t.clock);
      }
    }
  }

  // ---- every handler ----

  lemma BroadcastFollows(s: State, pkt: Packet, net: Net)
    requires Sound(s)
    ensures Follows(s, Broadcast(s, pkt, net))
  {
    BroadcastIsSound(s, pkt, net);
    ShadowsFollow(s, Broadcast(s, pkt, net));
  }

  lemma BeginPlayingFollows(s: State, net: Net)
    requires Sound(s)
    ensures Follows(s, BeginPlaying(s, net))
  {
    BeginPlayingIsSound(s, net);
    var qs := MapPlayers(s.players, ResetForPlay);
    assert AllKept(s.players, qs);
    ShadowsAreKept(qs, BeginPlaying(s, net).players);
    KeptTransitive(s.players, qs, BeginPlaying(s, net).players);
    KeptFollows(s, BeginPlaying(s, net));
  }

  lemma DropVirtualHostFollows(s: State, net: Net)
    requires Sound(s)
    ensures Follows(s, DropVirtualHost(s, net))
  {
    if s.hostPid.Some? {
      var t := s.(hostPid := None, players := Without(s.players, s.hostPid.value));
      WithoutFollows(s, t, s.hostPid.value);
      WithoutIsSound(s, s.hostPid.value);
      BroadcastFollows(t, PlayerLeaveOthers(s.hostPid.value, PLAYERLEAVE_LOBBY), net);
      FollowsTransitive(s, t, DropVirtualHost(s, net));
    } else {
      SameSeatsFollow(s, s);
    }
  }

  /** Everybody counts at most one stray. */
  lemma TellAllFollows(s: State, pkt: Packet, net: Net)
    ensures FollowsBy(s, TellAll(s, pkt, net), 1)
  {
    var t := TellAll(s, pkt, net);
    forall j | 0 <= j < |t.players| ensures Descends(s, t.players[j], t.clock) && Inherits(s, t.players[j], 1) {
      var r := net(s.clock, s.players[j].pid, 0);
      assert t.players[j] == s.players[j].Told(pkt, r);
      ToldIsQuieter(s.players[j], pkt, r, s.history.FirstSeq());
    }
  }

  lemma ToldIsQuieter(p: Player, pkt: Packet, r: Send, first: nat)
    ensures Quieter(p, p.Told(pkt, r), first) && p.Told(pkt, r).pid == p.pid
    ensures CountedStrays(p.Told(pkt, r)) <= CountedStrays(p) + 1
  {
    if p.gp.Some? {
      ViewSnoc(p.gp.value.view, Receipt(pkt, false));
    }
  }

  /** The announcement of a join is made: it is allowed, and the first packet
      to the new player was accepted. */
  predicate Admits(s: State, name: string, slot: bool, net: Net) {
    JoinAllowed(s, name, slot) && net(s.clock, NextFreePid(s.players, 1).value, 0) == Ok
  }

  lemma JoinFollows(s: State, conn: nat, name: string, key: nat, slot: bool, net: Net)
    requires Sound(s)
    ensures FollowsBy(s, Join(s, conn, name, key, slot, net), if Admits(s, name, slot, net) then 1 else 0)
  {
    if Admits(s, name, slot, net) {
      var a := JoinSeated(s, conn, name, key, net);
      JoinSeatedFollows(s, conn, name, key, net);
      AdmissionFollows(a, net);
      FollowsByTransitive(s, a, Admitted(a, net), 1, 0);
      JoinIsAdmission(s, conn, name, key, slot, net);
    } else {
      KeptFollows(s, Join(s, conn, name, key, slot, net));
    }
  }

  /** Everybody told and the player seated. */
  ghost function JoinSeated(s: State, conn: nat, name: string, key: nat, net: Net): State {
    var free := NextFreePid(s.players, 1);
    var pid := if free.Some? then free.value else 0;
    var t := TellAll(s, PlayerInfo(pid), net);
    t.(players := t.players + [NewPlayer(pid, conn, name, key, Link(Joined(s.clock), net(s.clock, pid, 1) != Closed, []))])
  }

  lemma JoinIsAdmission(s: State, conn: nat, name: string, key: nat, slot: bool, net: Net)
    requires Admits(s, name, slot, net)
    ensures Join(s, conn, name, key, slot, net) == Admitted(JoinSeated(s, conn, name, key, net), net)
  {
  }

  lemma JoinSeatedFollows(s: State, conn: nat, name: string, key: nat, net: Net)
    requires Sound(s) && s.phase.Lobby? && NextFreePid(s.players, 1).Some?
    ensures FollowsBy(s, JoinSeated(s, conn, name, key, net), 1) && Sound(JoinSeated(s, conn, name, key, net))
  {
    var pid := NextFreePid(s.players, 1).value;
    var t, a := TellAll(s, PlayerInfo(pid), net), JoinSeated(s, conn, name, key, net);
    TellAllIsSound(s, PlayerInfo(pid), net, pid);
    TellAllFollows(s, PlayerInfo(pid), net);
    NewPlayerIsOk(pid, conn, name, key, s.clock, net(s.clock, pid, 1) != Closed);
    SeatAdded(t, Last(a.players));
    NewSeatFollows(s, t, a, Last(a.players), 1);
  }

  lemma AdmissionFollows(s: State, net: Net)
    requires Sound(s)
    ensures Follows(s, Admitted(s, net))
  {
    var t := Broadcast(s, Opaque(2), net);
    BroadcastIsSound(s, Opaque(2), net);
    BroadcastFollows(s, Opaque(2), net);
    DropVirtualHostFollows(t, net);
    FollowsTransitive(s, t, DropVirtualHost(t, net));
  }

  /** A seat added after other changes, on a link made in the round of `s`. */
  lemma NewSeatFollows(s: State, t: State, a: State, p: Player, told: nat)
    requires FollowsBy(s, t, told) && a == t.(players := t.players + [p])
    requires s.clock <= p.link.origin.at < t.clock && p.gp.None?
    ensures FollowsBy(s, a, told)
  {
    forall j | 0 <= j < |a.players| ensures Descends(s, a.players[j], a.clock) && Inherits(s, a.players[j], told) {
      if j < |t.players| {
        assert Descends(s, t.players[j], t.clock) && Inherits(s, t.players[j], told);
      }
    }
  }

  lemma AddVirtualHostFollows(s: State, name: string, net: Net)
    requires Sound(s)
    ensures Follows(s, AddVirtualHost(s, name, net))
  {
    var free := NextFreePid(s.players, 1);
    if s.hostPid.None? && free.Some? {
      HostIsSeated(s, name, net);
      HostFollows(s, free.value, name, net);
    } else {
      SameSeatsFollow(s, s);
    }
  }

  ghost function HostSeated(s: State, pid: nat, name: string, net: Net): State {
    var t := Broadcast(s, PlayerInfo(pid), net);
    var host := NewPlayer(pid, HOST_CONN, name, 0, Link(Joined(s.clock), true, [])).(virtualHost := true, loaded := true);
    t.(players := t.players + [host], hostPid := Some(pid))
  }

  lemma HostIsSeated(s: State, name: string, net: Net)
    requires s.hostPid.None? && NextFreePid(s.players, 1).Some?
    ensures AddVirtualHost(s, name, net) == HostSeated(s, NextFreePid(s.players, 1).value, name, net)
  {
  }

  lemma HostFollows(s: State, pid: nat, name: string, net: Net)
    requires Sound(s)
    ensures Follows(s, HostSeated(s, pid, name, net))
  {
    var t, u := Broadcast(s, PlayerInfo(pid), net), HostSeated(s, pid, name, net);
    BroadcastFollows(s, PlayerInfo(pid), net);
    NewSeatFollows(s, t, t.(players := u.players), Last(u.players), 0);
  }

  lemma ToggleFakeFollows(s: State, slot: bool, net: Net)
    requires Sound(s)
    ensures Follows(s, ToggleFake(s, slot, net))
  {
    if s.phase.Lobby? && s.fakePid.Some? {
      FakeRemovedFollows(s, net);
    } else if s.phase.Lobby? && NextFreePid(s.players, 1).Some? && slot {
      FakeAddedFollows(s, NextFreePid(s.players, 1).value, net);
      FakeIsSeated(s, net);
    } else {
      SameSeatsFollow(s, s);
    }
  }

  lemma FakeRemovedFollows(s: State, net: Net)
    requires Sound(s) && s.fakePid.Some?
    ensures var t := s.(fakePid := None, players := Without(s.players, s.fakePid.value));
            Follows(s, BroadcastAll(t, [PlayerLeaveOthers(s.fakePid.value, PLAYERLEAVE_LOBBY), Opaque(2)], net))
  {
    var t := s.(fakePid := None, players := Without(s.players, s.fakePid.value));
    WithoutFollows(s, t, s.fakePid.value);
    WithoutIsSound(s, s.fakePid.value);
    BroadcastsFollowOn(s, t, [PlayerLeaveOthers(s.fakePid.value, PLAYERLEAVE_LOBBY), Opaque(2)], net);
  }

  lemma FakeAddedFollows(s: State, pid: nat, net: Net)
    requires Sound(s) && s.phase.Lobby? && pid < 255 && !Taken(s.players, pid)
    ensures Follows(s, BroadcastAll(FakeSeated(s, pid), [PlayerInfo(pid), Opaque(2)], net))
  {
    var t := FakeSeated(s, pid);
    FakeSeatIsSound(s, pid);
    AddedFollows(s, t, Last(t.players));
    BroadcastsFollowOn(s, t, [PlayerInfo(pid), Opaque(2)], net);
  }

  lemma BroadcastsFollowOn(s: State, t: State, pkts: seq<Packet>, net: Net)
    requires Follows(s, t) && Sound(t)
    ensures Follows(s, BroadcastAll(t, pkts, net))
  {
    BroadcastAllIsSound(t, pkts, net);
    ShadowsFollow(t, BroadcastAll(t, pkts, net));
    FollowsTransitive(s, t, BroadcastAll(t, pkts, net));
  }

  lemma HandleLoadedFollows(s: State, conn: nat, net: Net)
    requires Sound(s)
    ensures Follows(s, HandleLoaded(s, conn, net))
  {
    var i := ByConn(s.players, conn);
    if i == |s.players| {
      SameSeatsFollow(s, s);
    } else {
      var p := s.players[i];
      if p.rejoin == AwaitingLoaded {
        if s.history.FirstSeq() > 0 {
          SeatFollows(s, i, HandleLoaded(s, conn, net).players[i], s.clock);
          OneFollows(s, HandleLoaded(s, conn, net), i);
        } else {
          LoadedRejoinerFollows(s, i, net);
        }
      } else {
        LoadedSeatFollows(s, i, net);
      }
    }
  }

  lemma LoadedSeatFollows(s: State, i: nat, net: Net)
    requires Sound(s) && i < |s.players|
    ensures var u := Broadcast(s.(players := s.players[i := s.players[i].(loaded := true)]), GameLoadedOthers(s.players[i].pid), net);
            Follows(s, u) && Follows(s, BeginPlaying(u, net))
  {
    var p := s.players[i];
    var t := s.(players := s.players[i := p.(loaded := true)]);
    OneReseated(s, i, p.(loaded := true));
    SeatFollows(s, i, t.players[i], t.clock);
    OneFollows(s, t, i);
    BroadcastFollows(t, GameLoadedOthers(p.pid), net);
    BroadcastIsSound(t, GameLoadedOthers(p.pid), net);
    var u := Broadcast(t, GameLoadedOthers(p.pid), net);
    FollowsTransitive(s, t, u);
    BeginPlayingFollows(u, net);
    FollowsTransitive(s, u, BeginPlaying(u, net));
  }

  lemma SendAllToFollows(s: State, pid: nat, pkts: seq<Packet>, net: Net)
    requires Sound(s)
    ensures Follows(s, SendAllTo(s, pid, pkts, net))
  {
    SendAllToIsSound(s, pid, pkts, net);
    ShadowsFollow(s, SendAllTo(s, pid, pkts, net));
  }

  lemma LoadedRejoinerFollows(s: State, i: nat, net: Net)
    requires Sound(s)
    requires i < |s.players| && s.players[i].rejoin == AwaitingLoaded && s.history.FirstSeq() == 0
    ensures var p := s.players[i];
            Follows(s, Broadcast(ArmCursor(SendAllTo(s, p.pid, LoadedPackets(Others(s.players, p.pid)), net), p.pid),
                                 GameLoadedOthers(p.pid), net))
  {
    var p := s.players[i];
    var pkts := LoadedPackets(Others(s.players, p.pid));
    var t := SendAllTo(s, p.pid, pkts, net);
    SendAllToIsSound(s, p.pid, pkts, net);
    SendAllToFollows(s, p.pid, pkts, net);
    ShadowsByPid(s.players, t.players, p.pid);
    assert ByPid(s.players, p.pid) == i;
    assert Undisturbed(p, t.players[i]);
    var u := ArmCursor(t, p.pid);
    ArmCursorIsSound(t, p.pid);
    SeatFollows(t, i, u.players[i], u.clock);
    OneFollows(t, u, i);
    FollowsTransitive(s, t, u);
    BroadcastFollows(u, GameLoadedOthers(p.pid), net);
    FollowsTransitive(s, u, Broadcast(u, GameLoadedOthers(p.pid), net));
  }

  lemma HandleMapSizeFollows(s: State, conn: nat, net: Net)
    requires Sound(s)
    ensures Follows(s, HandleMapSize(s, conn, net))
  {
    var i := ByConn(s.players, conn);
    if i < |s.players| && s.players[i].rejoin == AwaitingMapSize {
      var pid := s.players[i].pid;
      var pkts := [CountdownStart, CountdownEnd];
      var t := SendAllTo(s, pid, pkts, net);
      SendAllToIsSound(s, pid, pkts, net);
      SendAllToFollows(s, pid, pkts, net);
      ShadowsByPid(s.players, t.players, pid);
      assert ByPid(s.players, pid) == i;
      assert Undisturbed(s.players[i], t.players[i]);
      var u := HandleMapSize(s, conn, net);
      SeatFollows(t, i, u.players[i], u.clock);
      OneFollows(t, u, i);
      FollowsTransitive(s, t, u);
    } else {
      SameSeatsFollow(s, s);
    }
  }

  lemma RejoinFollows(s: State, conn: nat, name: string, net: Net)
    requires Sound(s)
    ensures Follows(s, TryFullRejoin(s, conn, name, net))
  {
    if RejoinAccepted(s, conn, name) {
      var pid := s.pendingFull[conn].0;
      var i := ByPid(s.players, pid);
      var q := s.players[i].Rejoin(conn, s.clock);
      OneReseated(s, i, q);
      var t := s.(players := s.players[i := q], pendingFull := s.pendingFull - {conn}, clock := s.clock + 1);
      OneFollows(s, t, i);
      var pkts := [SlotInfoJoin(pid)] + InfoPackets(Others(t.players, pid)) + [MapCheck];
      SendAllToFollows(t, pid, pkts, net);
      FollowsTransitive(s, t, SendAllTo(t, pid, pkts, net));
    } else {
      SameSeatsFollow(s, s);
    }
  }

  lemma ReconnectFollows(s: State, conn: nat, pid: nat, key: nat, last: nat, net: Net)
    ensures Follows(s, GpsReconnect(s, conn, pid, key, last, net))
  {
    var t := GpsReconnect(s, conn, pid, key, last, net);
    if ReconnectAccepted(s, pid, key, last) {
      var i := ByPid(s.players, pid);
      var p := s.players[i];
      ReconnectCountsNoStray(p, conn, s.clock, last, Answers(net, s.clock, pid));
      OneFollows(s, t, i);
    } else {
      SameSeatsFollow(s, s);
    }
  }

  /** A reconnect can only make a client forget strays. */
  lemma ReconnectCountsNoStray(p: Player, conn: nat, at: nat, last: nat, r: nat -> Send)
    requires p.gp.Some? && p.gp.value.buffer.ReplayFrom(last).Some?
    ensures var q := p.Reconnect(conn, at, last, p.gp.value.buffer.ReplayFrom(last).value, r);
            q.pid == p.pid && q.link.origin == Reconnected(at) && CountedStrays(q) <= CountedStrays(p)
  {
    var replay := p.gp.value.buffer.ReplayFrom(last).value;
    ResendMovesLink(p.Reattach(conn, at, last, r(0)), replay, r, 1);
    ResendCountsNoStray(p.Reattach(conn, at, last, r(0)), replay, r, 1);
    if last <= |p.gp.value.view| {
      ViewPrefix(p.gp.value.view, last);
    }
  }

  lemma {:induction false} ResendCountsNoStray(p: Player, replay: seq<Packet>, r: nat -> Send, j: nat)
    requires p.gp.Some?
    ensures CountedStrays(p.Resend(replay, r, j)) == CountedStrays(p)
    decreases |replay|
  {
    if replay != [] && p.link.Answer(r(j)) == Ok {
      ViewSnoc(p.gp.value.view, Receipt(replay[0], true));
      ResendCountsNoStray(p.(gp := Some(p.gp.value.Receive(replay[0]))), replay[1..], r, j + 1);
    }
  }

  lemma GpsInitFollows(s: State, conn: nat, net: Net)
    ensures Follows(s, GpsInit(s, conn, net))
  {
    var i := ByConn(s.players, conn);
    if i < |s.players| {
      OneIsKept(s.players, i, GpsInit(s, conn, net).players[i]);
    }
    KeptFollows(s, GpsInit(s, conn, net));
  }

  lemma ConnClosedFollows(s: State, conn: nat)
    ensures Follows(s, ConnClosed(s, conn))
  {
    var i := ByConn(s.players, conn);
    if i < |s.players| {
      var p := s.players[i];
      var code := if s.phase.Lobby? || s.phase.Countdown? then PLAYERLEAVE_LOBBY else PLAYERLEAVE_DISCONNECT;
      MarkedIsKept(p, ConnectionClosed, code);
      assert Kept(p, p.(disconnected := true));
      OneIsKept(s.players, i, ConnClosed(s, conn).players[i]);
    }
    KeptFollows(s, ConnClosed(s, conn));
  }

  lemma LeaveFollows(s: State, conn: nat)
    ensures Follows(s, HandleLeave(s, conn))
  {
    var i := ByConn(s.players, conn);
    if i < |s.players| {
      OneIsKept(s.players, i, HandleLeave(s, conn).players[i]);
    }
    KeptFollows(s, HandleLeave(s, conn));
  }

  lemma ActionFollows(s: State, conn: nat, data: Bytes)
    ensures Follows(s, HandleAction(s, conn, data))
  {
    var i := ByConn(s.players, conn);
    if i < |s.players| {
      KickIsKept(s, s.players[i].pid, InvalidAction, PLAYERLEAVE_LOST);
    }
    KeptFollows(s, HandleAction(s, conn, data));
  }

  lemma KickIsKept(s: State, pid: nat, reason: Reason, code: nat)
    ensures AllKept(s.players, Kick(s, pid, reason, code).players)
  {
    var i := ByPid(s.players, pid);
    if i < |s.players| {
      OneIsKept(s.players, i, s.players[i].(left := Some(reason), leftCode := code));
    }
  }

  lemma DropRequestFollows(s: State)
    ensures Follows(s, DropRequest(s))
  {
    assert AllKept(s.players, DropRequest(s).players);
    KeptFollows(s, DropRequest(s));
  }

  lemma KeepaliveFollows(s: State, conn: nat, sum: nat, net: Net)
    requires Sound(s)
    ensures Follows(s, HandleKeepalive(s, conn, sum, net))
  {
    var i := ByConn(s.players, conn);
    if !s.phase.Playing? {
      SameSeatsFollow(s, s);
    } else if i == |s.players| {
      CheckDesyncFollows(s, net);
    } else {
      var t := Noted(s, i, sum);
      NotedIsSound(s, i, sum);
      NotedFollows(s, i, sum);
      CheckDesyncFollows(t, net);
      FollowsTransitive(s, t, CheckDesync(t, net));
    }
  }

  lemma NotedFollows(s: State, i: nat, sum: nat)
    requires i < |s.players|
    ensures Follows(s, Noted(s, i, sum))
  {
    OneIsKept(s.players, i, Noted(s, i, sum).players[i]);
    KeptFollows(s, Noted(s, i, sum));
  }

  lemma CheckDesyncFollows(s: State, net: Net)
    requires Sound(s)
    ensures Follows(s, CheckDesync(s, net))
  {
    CheckDesyncIsSound(s, net);
    CheckDesyncIsKept(s, net);
    KeptFollows(s, CheckDesync(s, net));
  }

  // ---- the tick ----

  lemma PumpFollows(s: State, net: Net)
    ensures Follows(s, Pump(s, net))
  {
    var t := Pump(s, net);
    forall j | 0 <= j < |t.players| ensures Descends(s, t.players[j], t.clock) && Inherits(s, t.players[j], 0) {
      CatchUpIsQuieter(s.players[j], s.history, Answers(net, s.clock, s.players[j].pid));
      SeatFollows(s, j, t.players[j], t.clock);
    }
  }

  lemma CatchUpIsQuieter(p: Player, h: History, r: nat -> Send)
    ensures Quieter(p, p.CatchUp(h, r), h.FirstSeq())
    ensures p.CatchUp(h, r).pid == p.pid && CountedStrays(p.CatchUp(h, r)) == CountedStrays(p)
  {
    if p.cursor.Some? && p.left.None? && p.cursor.value >= h.FirstSeq() {
      FeedMovesLink(p, h.SnapshotFromSeq(p.cursor.value), p.cursor.value, r, 0);
      FeedAddsOffers(p, h.SnapshotFromSeq(p.cursor.value), p.cursor.value, r, 0);
    }
  }

  lemma PlayingTickFollows(s: State, input: TickInput, net: Net)
    requires Sound(s) && s.phase.Playing?
    ensures Follows(s, OnTick(s, input, net))
  {
    PlayingTickIsPlayTick(s, input, net);
    var m := BeforePump(s, input, net);
    KeptFollows(s, m);
    PumpFollows(m, net);
    FollowsTransitive(s, m, Pump(m, net));
    PlayTickIsKept(m, input, net);
    KeptFollows(Pump(m, net), PlayTick(m, input, net));
    FollowsTransitive(s, Pump(m, net), PlayTick(m, input, net));
  }

  lemma BeginLoadingFollows(s: State, net: Net)
    requires Sound(s) && s.phase.Countdown?
    ensures Follows(s, BeginLoading(s, net))
  {
    var r := s.(phase := Loading, startedLoading := true);
    ShadowsFollow(s, r);
    var t := Broadcast(r, CountdownStart, net);
    BroadcastIsSound(r, CountdownStart, net);
    BroadcastFollows(r, CountdownStart, net);
    FollowsTransitive(s, r, t);
    var u := DropVirtualHost(t, net);
    DropVirtualHostIsSound(t, net);
    DropVirtualHostFollows(t, net);
    FollowsTransitive(s, t, u);
    var v := Broadcast(u, CountdownEnd, net);
    BroadcastIsSound(u, CountdownEnd, net);
    BroadcastFollows(u, CountdownEnd, net);
    FollowsTransitive(s, u, v);
    FakeLoadedIsSound(v, net);
    FakeLoadedFollows(v, net);
    FollowsTransitive(s, v, FakeLoaded(v, net));
    BeginPlayingFollows(FakeLoaded(v, net), net);
    FollowsTransitive(s, FakeLoaded(v, net), BeginPlaying(FakeLoaded(v, net), net));
  }

  lemma FakeLoadedFollows(s: State, net: Net)
    requires Sound(s)
    ensures Follows(s, FakeLoaded(s, net))
  {
    if s.fakePid.Some? {
      var i := ByPid(s.players, s.fakePid.value);
      var pkt := GameLoadedOthers(s.fakePid.value);
      if i < |s.players| {
        var t := s.(players := s.players[i := s.players[i].(loaded := true)]);
        OneReseated(s, i, s.players[i].(loaded := true));
        OneIsKept(s.players, i, t.players[i]);
        KeptFollows(s, t);
        BroadcastFollows(t, pkt, net);
        FollowsTransitive(s, t, Broadcast(t, pkt, net));
      } else {
        BroadcastFollows(s, pkt, net);
      }
    } else {
      SameSeatsFollow(s, s);
    }
  }

  lemma IdleTickFollows(s: State, input: TickInput, net: Net)
    requires Sound(s) && !s.phase.Playing?
    ensures Follows(s, OnTick(s, input, net))
  {
    var t := ReapTimeouts(s, input.expired, input.notices, net);
    ReapTimeoutsIsSound(s, input.expired, input.notices, net);
    ReapTimeoutsIsKept(s, input, net);
    KeptFollows(s, t);
    BroadcastIsSound(t, Opaque(1), net);
    BroadcastFollows(t, Opaque(1), net);
    FollowsTransitive(s, t, Broadcast(t, Opaque(1), net));
    var u := Pinged(t, input, net);
    PhaseTickFollows(u, input, net);
    FollowsTransitive(s, u, PhaseTick(u, input, net));
  }

  lemma PhaseTickFollows(s: State, input: TickInput, net: Net)
    requires Sound(s) && !s.phase.Playing?
    ensures Follows(s, PhaseTick(s, input, net))
  {
    SameSeatsFollow(s, s);
    match s.phase {
      case Countdown => BeginLoadingFollows(s, net);
      case Loading => LoadTimeoutFollows(s, net);
      case _ =>
    }
  }

  lemma LoadTimeoutFollows(s: State, net: Net)
    requires Sound(s)
    ensures Follows(s, Reap(s.(players := LeaveUnloaded(s.players)), net))
  {
    var t := s.(players := LeaveUnloaded(s.players));
    LeaveAllIsSound(s, LoadingTimeout);
    LeaveAllIsKept(s.players, LoadingTimeout, {});
    KeptFollows(s, t);
    ReapFollows(t, net);
    FollowsTransitive(s, t, Reap(t, net));
  }

  // ---- the reaper and the actor ----

  lemma {:induction false} ReapEachFollows(s: State, gone: seq<(nat, nat)>, net: Net)
    requires Sound(s)
    ensures Follows(s, ReapEach(s, gone, net))
    decreases |gone|
  {
    if gone == [] {
      SameSeatsFollow(s, s);
    } else {
      var t := ReapOne(s, gone[0].0, gone[0].1, net);
      ReapOneIsSound(s, gone[0].0, gone[0].1, net);
      var r := s.(players := Without(s.players, gone[0].0));
      WithoutFollows(s, r, gone[0].0);
      ShadowsFollow(r, t);
      FollowsTransitive(s, r, t);
      ReapEachFollows(t, gone[1..], net);
      FollowsTransitive(s, t, ReapEach(t, gone[1..], net));
    }
  }

  lemma ReapFollows(s: State, net: Net)
    requires Sound(s)
    ensures Follows(s, Reap(s, net))
  {
    var gone := Gone(s.players);
    if gone == [] {
      SameSeatsFollow(s, s);
    } else {
      var t := AbortCountdown(s, net);
      AbortCountdownIsSound(s, net);
      ShadowsFollow(s, t);
      var u := ReapEach(t, gone, net);
      ReapEachIsSound(t, gone, net);
      ReapEachFollows(t, gone, net);
      FollowsTransitive(s, t, u);
      BeginPlayingFollows(u, net);
      FollowsTransitive(s, u, BeginPlaying(u, net));
    }
  }

  lemma WhisperFollows(s: State, pid: nat, pkt: Packet, net: Net)
    requires Sound(s)
    ensures Follows(s, SendTo(s, pid, pkt, net))
  {
    SendToIsSound(s, pid, pkt, net);
    ShadowsFollow(s, SendTo(s, pid, pkt, net));
  }

  lemma KickFollows(s: State, pid: nat)
    requires Sound(s)
    ensures Follows(s, Kick(s, pid, Removed, PLAYERLEAVE_LOST))
  {
    KickIsKept(s, pid, Removed, PLAYERLEAVE_LOST);
    KeptFollows(s, Kick(s, pid, Removed, PLAYERLEAVE_LOST));
  }

  /** How often the step tells players past their buffers. */
  function Tells(s: State, cmd: Command, net: Net): nat {
    if cmd.DoJoin? && Admits(s, cmd.name, cmd.slot, net) then 1 else 0
  }

  lemma HandleFollows(s: State, cmd: Command, net: Net)
    requires Sound(s)
    ensures FollowsBy(s, Handle(s, cmd, net), Tells(s, cmd, net))
  {
    if LobbyCommand(cmd) {
      LobbyCommandFollows(s, cmd, net);
    } else if ClientCommand(cmd) {
      ClientCommandFollows(s, cmd, net);
    } else if LinkCommand(cmd) {
      LinkCommandFollows(s, cmd, net);
    } else {
      HostCommandFollows(s, cmd, net);
    }
  }

  lemma LobbyCommandFollows(s: State, cmd: Command, net: Net)
    requires Sound(s) && LobbyCommand(cmd)
    ensures FollowsBy(s, HandleLobby(s, cmd, net), Tells(s, cmd, net))
  {
    match cmd {
      case DoJoin(conn, name, key, slot) => JoinFollows(s, conn, name, key, slot, net);
      case DoVirtualHost(name) => AddVirtualHostFollows(s, name, net);
      case DoToggleFake(slot) => ToggleFakeFollows(s, slot, net);
      case DoStart => SameSeatsFollow(s, HandleLobby(s, cmd, net));
    }
  }

  lemma ClientCommandFollows(s: State, cmd: Command, net: Net)
    requires Sound(s) && ClientCommand(cmd)
    ensures Follows(s, HandleClient(s, cmd, net))
  {
    match cmd {
      case DoLoaded(conn) => HandleLoadedFollows(s, conn, net);
      case DoMapSize(conn) => HandleMapSizeFollows(s, conn, net);
      case DoKeepalive(conn, sum) => KeepaliveFollows(s, conn, sum, net);
      case DoAction(conn, data) => ActionFollows(s, conn, data);
      case DoLeave(conn) => LeaveFollows(s, conn);
      case DoDropRequest => DropRequestFollows(s);
    }
  }

  lemma LinkCommandFollows(s: State, cmd: Command, net: Net)
    requires Sound(s) && LinkCommand(cmd)
    ensures Follows(s, HandleLink(s, cmd, net))
  {
    match cmd {
      case DoClosed(conn) => ConnClosedFollows(s, conn);
      case DoGpsInit(conn) => GpsInitFollows(s, conn, net);
      case DoGpsFull(conn, pid, key) => SameSeatsFollow(s, HandleLink(s, cmd, net));
      case DoRejoin(conn, name) => RejoinFollows(s, conn, name, net);
      case DoReconnect(conn, pid, key, last) => ReconnectFollows(s, conn, pid, key, last, net);
    }
  }

  lemma HostCommandFollows(s: State, cmd: Command, net: Net)
    requires Sound(s) && HostCommand(cmd)
    ensures Follows(s, HandleHost(s, cmd, net))
  {
    match cmd {
      case DoAnnounce(pkt) => BroadcastFollows(s, pkt, net);
      case DoWhisper(pid, pkt) => WhisperFollows(s, pid, pkt, net);
      case DoKick(pid) => KickFollows(s, pid);
      case DoLatency(period) => SameSeatsFollow(s, HandleHost(s, cmd, net));
      case DoTick(input) => TickFollows(s, input, net);
    }
  }

  lemma TickFollows(s: State, input: TickInput, net: Net)
    requires Sound(s)
    ensures Follows(s, OnTick(s, input, net))
  {
    if s.phase.Playing? {
      PlayingTickFollows(s, input, net);
    } else {
      IdleTickFollows(s, input, net);
    }
  }

  lemma SameSeatsFollow(s: State, t: State)
    requires Later(s, t) && t.players == s.players
    ensures Follows(s, t)
  {
    KeptFollows(s, t);
  }

  // ---- quiet handshakes ----

  /** Nothing was handed over on link `o` while its client is in the handshake. */
  ghost predicate QuietIn(s: State, o: Origin) {
    forall i :: 0 <= i < |s.players| && s.players[i].link.origin == o && s.players[i].rejoin != NoRejoin ==>
      s.players[i].link.feed == []
  }

  /** Some path visits a state, and then handles a command, as `q` describes. */
  ghost predicate Somewhere<S(!new), C(!new)>(s: S, next: (S, C) -> S, q: (S, Option<C>) -> bool) {
    exists cmds: seq<C>, states: seq<S>, k: nat :: Path(next, s, cmds, states) && k <= |cmds|
      && q(states[k], if k < |cmds| then Some(cmds[k]) else None)
  }

  ghost function Leaking(o: Origin, net: Net): (State, Option<Command>) -> bool {
    (s, cmd) => !QuietAlong(s, cmd, net, o)
  }

  /** With these answers something can be handed over on link `o` during the
      handshake, at a step boundary or within a command whose reaper then
      unseats the client. */
  ghost predicate LeaksUnder(s: State, o: Origin, net: Net) {
    Somewhere(s, Following(net), Leaking(o, net))
  }

  /** Whatever follows `s` and whatever the links answer, nothing is ever handed
      over on link `o` during the handshake. */
  ghost predicate AlwaysQuiet(s: State, o: Origin) {
    forall net :: !LeaksUnder(s, o, net)
  }

  ghost predicate QuietAlong(s: State, cmd: Option<Command>, net: Net, o: Origin) {
    QuietIn(s, o) && (cmd.Some? ==> QuietIn(Handle(s, cmd.value, net), o))
  }

  /** Quiet so far on link `o`, and nothing can be fed to it early. */
  ghost predicate Hushed(s: State, o: Origin) {
    o.at < s.clock
    && forall i :: 0 <= i < |s.players| && s.players[i].link.origin == o ==> HushedSeat(s.players[i], s.history.FirstSeq())
  }

  ghost predicate HushedSeat(p: Player, first: nat) {
    !Leaked(p.link.feed) && (p.rejoin != NoRejoin ==> p.link.feed == [] && Calm(p.cursor, first))
  }

  lemma HushedStays(s: State, t: State, o: Origin, told: nat)
    requires Hushed(s, o) && FollowsBy(s, t, told)
    ensures Hushed(t, o) && QuietIn(t, o)
  {
    forall j | 0 <= j < |t.players| && t.players[j].link.origin == o ensures HushedSeat(t.players[j], t.history.FirstSeq()) {
      assert Descends(s, t.players[j], t.clock);
      var i :| 0 <= i < |s.players| && Quieter(s.players[i], t.players[j], s.history.FirstSeq());
      assert HushedSeat(s.players[i], s.history.FirstSeq());
    }
  }

  lemma NextIsHushed(s: State, cmd: Command, net: Net, o: Origin)
    requires Sound(s) && Hushed(s, o)
    ensures Hushed(Next(s, cmd, net), o) && Sound(Next(s, cmd, net))
    ensures QuietIn(Handle(s, cmd, net), o) && Hushed(Handle(s, cmd, net), o) && Sound(Handle(s, cmd, net))
  {
    var t := Handle(s, cmd, net);
    HandleFollows(s, cmd, net);
    HushedStays(s, t, o, Tells(s, cmd, net));
    HandleIsSound(s, cmd, net);
    ReapFollows(t, net);
    HushedStays(t, Reap(t, net), o, 0);
    ReapIsSound(t, net);
  }

  lemma {:induction false} HushedRun(s: State, net: Net, cmds: seq<Command>, states: seq<State>, k: nat, o: Origin)
    requires Sound(s) && Hushed(s, o) && Path(Following(net), s, cmds, states) && k <= |cmds|
    ensures Sound(states[k]) && Hushed(states[k], o)
  {
    if k > 0 {
      HushedRun(s, net, cmds, states, k - 1, o);
      HushedStep(s, net, cmds, states, k - 1, o);
    }
  }

  lemma HushedStep(s: State, net: Net, cmds: seq<Command>, states: seq<State>, k: nat, o: Origin)
    requires Path(Following(net), s, cmds, states) && k < |cmds| && Sound(states[k]) && Hushed(states[k], o)
    ensures Sound(states[k + 1]) && Hushed(states[k + 1], o)
  {
    NextIsHushed(states[k], cmds[k], net, o);
  }

  lemma HushedIsQuietAlong(s: State, cmd: Option<Command>, net: Net, o: Origin)
    requires Sound(s) && Hushed(s, o)
    ensures !Leaking(o, net)(s, cmd)
  {
    if cmd.Some? {
      NextIsHushed(s, cmd.value, net, o);
    }
  }

  lemma HushedIsAlwaysQuiet(s: State, o: Origin)
    requires Sound(s) && Hushed(s, o)
    ensures AlwaysQuiet(s, o)
  {
    forall net ensures !LeaksUnder(s, o, net) {
      forall cmds: seq<Command>, states: seq<State>, k: nat | Path(Following(net), s, cmds, states) && k <= |cmds|
        ensures !Leaking(o, net)(states[k], if k < |cmds| then Some(cmds[k]) else None)
      {
        HushedRun(s, net, cmds, states, k, o);
        HushedIsQuietAlong(states[k], if k < |cmds| then Some(cmds[k]) else None, net, o);
      }
    }
  }

  // ---- the leak ----

  /** A tick at which no timer fires; `notices` are chat lines sent first. */
  function PlainTick(notices: seq<string>): TickInput {
    TickInput(0, {}, notices, false, false, false, false, {}, None, false, false)
  }

  function AllOk(): Net {
    (_, _, _) => Ok
  }

  /** In the handshake on an open link, with a cursor the pump can feed from. */
  ghost predicate Exposed(s: State, i: nat) {
    i < |s.players|
    && var p := s.players[i];
       p.rejoin != NoRejoin && p.Present() && p.link.open && !Calm(p.cursor, s.history.FirstSeq())
  }

  lemma {:induction false} FeedHandsOver(p: Player, pending: seq<Packet>, cur: nat, r: nat -> Send, j: nat)
    requires p.link.open && pending != [] && forall k :: r(k) == Ok
    ensures p.Feed(pending, cur, r, j).0.link.feed != []
    decreases |pending|
  {
    if |pending| > 1 {
      FeedHandsOver(p.Take(pending[0]), pending[1..], cur + 1, r, j + 1);
    }
  }

  /** The next pump hands something to an exposed seat that is not at the end
      of the log. */
  lemma PumpLeaks(s: State, i: nat)
    requires Sound(s) && Exposed(s, i) && s.players[i].cursor.value < |s.trace.log|
    ensures var q := Pump(s, AllOk()).players[i];
            q.link.origin == s.players[i].link.origin && q.rejoin != NoRejoin && q.link.feed != []
  {
    var p := s.players[i];
    var r := Answers(AllOk(), s.clock, p.pid);
    SnapshotIsLogSuffix(s.history, s.trace.log, p.cursor.value);
    var pending := s.trace.log[p.cursor.value..];
    FeedHandsOver(p, pending, p.cursor.value, r, 0);
    FeedMovesLink(p, pending, p.cursor.value, r, 0);
  }

  /** One line of chat keeps the seat exposed, and there is then something to
      feed: unless there was before, and no line is sent. */
  lemma NoticeExposes(s: State, i: nat) returns (notices: seq<string>)
    requires Sound(s) && s.phase.Playing? && Exposed(s, i)
    ensures var m := BeforePump(s, PlainTick(notices), AllOk());
            Exposed(m, i) && m.players[i].link.origin == s.players[i].link.origin
            && m.players[i].cursor.value < |m.trace.log|
  {
    var p := s.players[i];
    assert SeatOk(p, s.trace.log);
    var e := s.(players := ExpireAll(s.players, {}));
    assert ExpireAll(s.players, {}) == s.players;
    assert e == s;
    if p.cursor.value < |s.trace.log| {
      notices := [];
      assert Chats([]) == [];
    } else {
      notices := ["hello"];
      assert Chats(notices) == [Chat("hello")] && Chats(notices)[1..] == [];
      assert HasAudience(s);
      var m := Broadcast(s, Chat("hello"), AllOk());
      assert ChatEach(s, Chats(notices), AllOk()) == m;
      assert m.players[i] == p.OnBroadcast(Chat("hello"), true, Ok);
      PushRetains(s.history, s.trace.log, Chat("hello"));
    }
  }

  lemma ExposedSeatLeaks(s: State, i: nat)
    requires Sound(s) && s.phase.Playing? && Exposed(s, i)
    ensures LeaksUnder(s, s.players[i].link.origin, AllOk())
  {
    var o := s.players[i].link.origin;
    var notices := NoticeExposes(s, i);
    var input, net := PlainTick(notices), AllOk();
    PlayingTickIsPlayTick(s, input, net);
    var m := BeforePump(s, input, net);
    PumpLeaks(m, i);
    PlayTickIsKept(m, input, net);
    var t := OnTick(s, input, net);
    assert Kept(Pump(m, net).players[i], t.players[i]);
    assert !QuietIn(t, o);
    TickBreaksQuiet(s, input, net, o);
  }

  lemma TickBreaksQuiet(s: State, input: TickInput, net: Net, o: Origin)
    requires !QuietIn(OnTick(s, input, net), o)
    ensures LeaksUnder(s, o, net)
  {
    var cmds := [DoTick(input)];
    var states := [s, Next(s, DoTick(input), net)];
    assert Path(Following(net), s, cmds, states);
    HandleOfTick(s, input, net);
    assert Leaking(o, net)(states[0], Some(cmds[0]));
  }

  /** For a client in the handshake on a fresh open link during the game:
      nothing is handed over before the handshake ends, whatever happens, if
      and only if no packet can be fed from its cursor now. */
  lemma HandshakeIsQuietIff(s: State, i: nat)
    requires Sound(s) && s.phase.Playing? && i < |s.players| && s.players[i].Present()
    requires s.players[i].rejoin != NoRejoin && s.players[i].link.open && s.players[i].link.feed == []
    requires OnlyLink(s, i)
    ensures AlwaysQuiet(s, s.players[i].link.origin) <==> Calm(s.players[i].cursor, s.history.FirstSeq())
  {
    if Calm(s.players[i].cursor, s.history.FirstSeq()) {
      assert Hushed(s, s.players[i].link.origin);
      HushedIsAlwaysQuiet(s, s.players[i].link.origin);
    } else {
      ExposedSeatLeaks(s, i);
    }
  }

  /** The link of seat `i` was made in an earlier round and is no other seat's. */
  ghost predicate OnlyLink(s: State, i: nat)
    requires i < |s.players|
  {
    s.players[i].link.origin.at < s.clock
    && forall j :: 0 <= j < |s.players| && s.players[j].link.origin == s.players[i].link.origin ==> j == i
  }
}
