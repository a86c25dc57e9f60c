/** When a FULL rejoin is accepted: what the seat looks like then, and exactly
    when its handshake stays quiet in a running game
    (crates/spectre-engine/src/full_rejoin.rs, state.rs). */
module Acceptance {
  import opened Basics
  import opened Packets
  import opened Histories
  import opened GProxy
  import opened Seats
  import opened Engine
  import opened EngineSafety
  import opened BoundedLag
  import opened Feeds
  import opened Rejoins

  // ---- links are told apart by the round they were made in ----

  ghost predicate MadeBefore(s: State) {
    forall i :: 0 <= i < |s.players| ==> s.players[i].link.origin.at < s.clock
  }

  lemma FollowsMadeBefore(s: State, t: State, told: nat)
    requires MadeBefore(s) && FollowsBy(s, t, told)
    ensures MadeBefore(t)
  {
    forall j | 0 <= j < |t.players| ensures t.players[j].link.origin.at < t.clock {
      assert Descends(s, t.players[j], t.clock);
    }
  }

  lemma NextFollows(s: State, cmd: Command, net: Net)
    requires Sound(s)
    ensures FollowsBy(s, Next(s, cmd, net), Tells(s, cmd, net))
  {
    HandleFollows(s, cmd, net);
    HandleIsSound(s, cmd, net);
    ReapFollows(Handle(s, cmd, net), net);
    FollowsByTransitive(s, Handle(s, cmd, net), Next(s, cmd, net), Tells(s, cmd, net), 0);
  }

  lemma {:induction false} RunMadeBefore(limit: nat, period: nat, net: Net, cmds: seq<Command>, states: seq<State>, k: nat)
    requires IsRun(limit, period, net, cmds, states) && k <= |cmds|
    ensures MadeBefore(states[k])
  {
    if k > 0 {
      RunMadeBefore(limit, period, net, cmds, states, k - 1);
      RunIsSound(limit, period, net, cmds, states, k - 1);
      StepMadeBefore(limit, period, net, cmds, states, k - 1);
    }
  }

  lemma StepMadeBefore(limit: nat, period: nat, net: Net, cmds: seq<Command>, states: seq<State>, k: nat)
    requires IsRun(limit, period, net, cmds, states) && k < |cmds| && Sound(states[k]) && MadeBefore(states[k])
    ensures MadeBefore(states[k + 1])
  {
    NextFollows(states[k], cmds[k], net);
    FollowsMadeBefore(states[k], states[k + 1], Tells(states[k], cmds[k], net));
  }

  lemma ReachableMadeBefore(limit: nat, s: State)
    requires Reachable(limit, s)
    ensures MadeBefore(s)
  {
    var period, net, cmds, states :| IsRun(limit, period, net, cmds, states) && s == states[|cmds|];
    RunMadeBefore(limit, period, net, cmds, states, |cmds|);
  }

  // ---- the accepted seat ----

  function TokenSeat(s: State, conn: nat): nat
    requires conn in s.pendingFull
  {
    ByPid(s.players, s.pendingFull[conn].0)
  }

  /** The seat right after acceptance, before the handshake packets. */
  function Seated(s: State, conn: nat): State
    requires conn in s.pendingFull && TokenSeat(s, conn) < |s.players|
  {
    var i := TokenSeat(s, conn);
    s.(players := s.players[i := s.players[i].Rejoin(conn, s.clock)], pendingFull := s.pendingFull - {conn},
       clock := s.clock + 1)
  }

  /** An accepted rejoin puts its seat on a link of its own, in the handshake,
      with nothing handed over and the sync state reset; the cursor is kept. */
  lemma AcceptedSeat(s: State, conn: ConnId, name: string, net: Net)
    requires Sound(s) && MadeBefore(s) && RejoinAccepted(s, conn, name)
    ensures var i, t := TokenSeat(s, conn), TryFullRejoin(s, conn, name, net);
            && i < |t.players| == |s.players|
            && t.players[i].link.origin == Rejoined(s.clock) && t.players[i].link.feed == []
            && t.players[i].conn == conn && !t.players[i].loaded
            && t.players[i].rejoin == AwaitingMapSize && t.players[i].cursor == s.players[i].cursor
            && t.players[i].pace == Pace(0, [], false, s.players[i].pace.catchingUp, false)
            && (forall j :: 0 <= j < |t.players| && t.players[j].link.origin == Rejoined(s.clock) ==> j == i)
            && (forall j :: 0 <= j < |t.players| && j != i ==> Undisturbed(s.players[j], t.players[j]))
            && t.phase == s.phase && t.trace == s.trace && t.history == s.history && t.clock > s.clock
  {
    var i, r, t := TokenSeat(s, conn), Seated(s, conn), TryFullRejoin(s, conn, name, net);
    var pid := s.pendingFull[conn].0;
    RejoinKeepsSeat(s.players[i], s.trace.log, conn, s.clock);
    OneReseated(s, i, r.players[i]);
    var pkts := [SlotInfoJoin(pid)] + InfoPackets(Others(r.players, pid)) + [MapCheck];
    SendAllToIsSound(r, pid, pkts, net);
    assert t == SendAllTo(r, pid, pkts, net);
    forall j | 0 <= j < |t.players| ensures Undisturbed(r.players[j], t.players[j]) {
    }
  }

  /** The first packet the history will still hold once the players that have
      already left are announced, which is recorded during the game. */
  function FirstHeld(s: State): nat {
    SaturatingSub(|s.trace.log| + (if s.phase.Playing? then |Gone(s.players)| else 0), FULL_HISTORY_CAP)
  }

  // ---- the reaper in the game ----

  lemma ReapOneKeeps(s: State, pid: nat, code: nat, net: Net, j: nat) returns (i: nat)
    requires Sound(s) && j < |ReapOne(s, pid, code, net).players|
    ensures i < |s.players| && Kept(s.players[i], ReapOne(s, pid, code, net).players[j])
  {
    ReapOneIsSound(s, pid, code, net);
    i := IndexWithout(s.players, pid, j);
    assert Undisturbed(Without(s.players, pid)[j], ReapOne(s, pid, code, net).players[j]);
  }

  /** Whoever is seated after the reaper was seated before, on the same link. */
  lemma {:induction false} ReapEachKeeps(s: State, gone: seq<(nat, nat)>, net: Net, j: nat) returns (i: nat)
    requires Sound(s) && j < |ReapEach(s, gone, net).players|
    ensures i < |s.players| && Kept(s.players[i], ReapEach(s, gone, net).players[j])
    decreases |gone|
  {
    if gone == [] {
      i := j;
    } else {
      var t := ReapOne(s, gone[0].0, gone[0].1, net);
      ReapOneIsSound(s, gone[0].0, gone[0].1, net);
      var k := ReapEachKeeps(t, gone[1..], net, j);
      i := ReapOneKeeps(s, gone[0].0, gone[0].1, net, k);
      var q := ReapEach(s, gone, net).players[j];
      assert Kept(s.players[i], t.players[k]) && Kept(t.players[k], q);
    }
  }

  /** In the game every player that left is announced to the others, once. */
  lemma {:induction false} ReapEachLogs(s: State, gone: seq<(nat, nat)>, net: Net)
    requires s.phase.Playing?
    ensures ReapEach(s, gone, net).phase.Playing? && |ReapEach(s, gone, net).trace.log| == |s.trace.log| + |gone|
    decreases |gone|
  {
    if gone != [] {
      ReapEachLogs(ReapOne(s, gone[0].0, gone[0].1, net), gone[1..], net);
    }
  }

  lemma PlayingReap(s: State, net: Net)
    requires Sound(s) && s.phase.Playing?
    ensures Reap(s, net) == ReapEach(s, Gone(s.players), net)
    ensures Reap(s, net).phase.Playing? && Sound(Reap(s, net))
    ensures Reap(s, net).history.FirstSeq() == FirstHeld(s)
  {
    ReapEachLogs(s, Gone(s.players), net);
    ReapEachIsSound(s, Gone(s.players), net);
  }

  lemma {:induction false} GoneCount(ps: seq<Player>, qs: seq<Player>)
    requires |ps| == |qs| && forall i :: 0 <= i < |ps| ==> qs[i].virtualHost == ps[i].virtualHost
    requires forall i :: 0 <= i < |ps| ==> (ps[i].left.Some? ==> qs[i].left.Some?)
    ensures |Gone(ps)| <= |Gone(qs)|
    ensures (forall i :: 0 <= i < |ps| ==> (qs[i].left.Some? ==> ps[i].left.Some?)) ==> |Gone(ps)| == |Gone(qs)|
  {
    if ps != [] {
      GoneCount(Most(ps), Most(qs));
    }
  }

  lemma {:induction false} GoneHaveLeft(ps: seq<Player>, k: nat) returns (i: nat)
    requires k < |Gone(ps)|
    ensures i < |ps| && ps[i].left.Some? && ps[i].pid == Gone(ps)[k].0
  {
    if k < |Gone(Most(ps))| {
      i := GoneHaveLeft(Most(ps), k);
    } else {
      i := |ps| - 1;
    }
  }

  /** A client in the handshake is passed by when others are reaped. */
  lemma ReapOnePassesBy(s: State, pid: nat, code: nat, net: Net, i: nat) returns (j: nat)
    requires !s.phase.Lobby? && i < |s.players| && s.players[i].pid != pid && s.players[i].rejoin != NoRejoin
    ensures var t := ReapOne(s, pid, code, net);
            j < |t.players| && t.players[j] == s.players[i].(gp := t.players[j].gp)
  {
    j := StaysWithout(s.players, pid, i);
    var r := s.(players := Without(s.players, pid));
    assert ReapOne(s, pid, code, net) == Broadcast(r, PlayerLeaveOthers(pid, code), net);
    BroadcastPassesBy(r, PlayerLeaveOthers(pid, code), net, j);
  }

  lemma StaysWithout(ps: seq<Player>, pid: nat, i: nat) returns (j: nat)
    requires i < |ps| && ps[i].pid != pid
    ensures j < |Without(ps, pid)| && Without(ps, pid)[j] == ps[i]
  {
    var cut := ByPid(ps, pid);
    j := if i < cut then i else i - 1;
  }

  lemma BroadcastPassesBy(s: State, pkt: Packet, net: Net, i: nat)
    requires i < |s.players| && s.players[i].rejoin != NoRejoin
    ensures var t := Broadcast(s, pkt, net);
            |t.players| == |s.players| && t.players[i] == s.players[i].(gp := t.players[i].gp)
  {
    var p := s.players[i];
    assert Broadcast(s, pkt, net).players[i] == p.OnBroadcast(pkt, s.phase.Playing?, net(s.clock, p.pid, 0));
  }

  lemma {:induction false} ReapEachPassesBy(s: State, gone: seq<(nat, nat)>, net: Net, i: nat) returns (j: nat)
    requires !s.phase.Lobby? && i < |s.players| && s.players[i].rejoin != NoRejoin
    requires forall k :: 0 <= k < |gone| ==> gone[k].0 != s.players[i].pid
    ensures var t := ReapEach(s, gone, net);
            j < |t.players| && t.players[j] == s.players[i].(gp := t.players[j].gp)
    decreases |gone|
  {
    if gone == [] {
      j := i;
    } else {
      var t := ReapOne(s, gone[0].0, gone[0].1, net);
      var k := ReapOnePassesBy(s, gone[0].0, gone[0].1, net, i);
      j := ReapEachPassesBy(t, gone[1..], net, k);
    }
  }

  lemma ReapPassesBy(s: State, net: Net, i: nat) returns (j: nat)
    requires Sound(s) && s.phase.Playing? && i < |s.players| && s.players[i].rejoin != NoRejoin && s.players[i].left.None?
    ensures var t := Reap(s, net);
            j < |t.players| && t.players[j] == s.players[i].(gp := t.players[j].gp)
  {
    PlayingReap(s, net);
    StayerIsNotGone(s.players, i);
    j := ReapEachPassesBy(s, Gone(s.players), net, i);
  }

  lemma StayerIsNotGone(ps: seq<Player>, i: nat)
    requires UniquePids(ps) && i < |ps| && ps[i].left.None?
    ensures forall k :: 0 <= k < |Gone(ps)| ==> Gone(ps)[k].0 != ps[i].pid
  {
    forall k | 0 <= k < |Gone(ps)| ensures Gone(ps)[k].0 != ps[i].pid {
      var m := GoneHaveLeft(ps, k);
    }
  }

  // ---- an accepted rejoin stays quiet if and only if it is calm ----

  lemma {:induction false} AcceptedSendsKeepSeat(s: State, pid: nat, pkts: seq<Packet>, i: nat)
    requires i < |s.players| && s.players[i].left.None? && s.players[i].link.open && !s.players[i].disconnected
    ensures var t := SendAllTo(s, pid, pkts, AllOk());
            |t.players| == |s.players| && t.players[i].left.None? && t.players[i].link.open && !t.players[i].disconnected
            && t.players[i].virtualHost == s.players[i].virtualHost
    decreases |pkts|
  {
    if pkts != [] {
      var t := SendTo(s, pid, pkts[0], AllOk());
      if ByPid(s.players, pid) == i {
        SentKeepsOpen(s.players[i].Numbered(pkts[0]), pkts[0]);
      }
      AcceptedSendsKeepSeat(t, pid, pkts[1..], i);
    }
  }

  /** When every link answers Ok, the accepted seat is in the game. */
  lemma AcceptedSeatIsOpen(s: State, conn: ConnId, name: string)
    requires Sound(s) && RejoinAccepted(s, conn, name)
    ensures var i, t := TokenSeat(s, conn), TryFullRejoin(s, conn, name, AllOk());
            i < |t.players| && t.players[i].Present() && t.players[i].link.open
  {
    var i, pid, r := TokenSeat(s, conn), s.pendingFull[conn].0, Seated(s, conn);
    assert SeatOk(s.players[i], s.trace.log);
    AcceptedSendsKeepSeat(r, pid, [SlotInfoJoin(pid)] + InfoPackets(Others(r.players, pid)) + [MapCheck], i);
  }

  lemma SentKeepsOpen(p: Player, pkt: Packet)
    requires p.left.None? && p.link.open && !p.disconnected
    ensures var q := p.Live(pkt, false, Ok);
            q.left.None? && q.link.open && !q.disconnected && q.virtualHost == p.virtualHost
  {
  }

  lemma GoneAfterAcceptance(s: State, conn: ConnId, name: string, net: Net)
    requires Sound(s) && MadeBefore(s) && RejoinAccepted(s, conn, name)
    ensures |Gone(s.players)| <= |Gone(TryFullRejoin(s, conn, name, net).players)|
  {
    var t := TryFullRejoin(s, conn, name, net);
    AcceptedSeat(s, conn, name, net);
    forall j | 0 <= j < |s.players| ensures t.players[j].virtualHost == s.players[j].virtualHost
                                         && (s.players[j].left.Some? ==> t.players[j].left.Some?) {
      AcceptedOthers(s, conn, name, net, j);
    }
    GoneCount(s.players, t.players);
  }

  lemma HushedAfterAcceptance(s: State, conn: ConnId, name: string, net: Net)
    requires Sound(s) && MadeBefore(s) && RejoinAccepted(s, conn, name) && s.phase.Playing?
    requires Calm(s.players[TokenSeat(s, conn)].cursor, FirstHeld(s))
    ensures var u := Reap(TryFullRejoin(s, conn, name, net), net); Sound(u) && Hushed(u, Rejoined(s.clock))
  {
    AcceptedSeat(s, conn, name, net);
    TryFullRejoinIsSound(s, conn, name, net);
    GoneAfterAcceptance(s, conn, name, net);
    ReapHushes(TryFullRejoin(s, conn, name, net), Rejoined(s.clock), net);
  }

  /** Nothing was handed over on link `o`, and once the leavers are announced
      nothing can be fed to it. */
  lemma ReapHushes(s: State, o: Origin, net: Net)
    requires Sound(s) && s.phase.Playing? && o.at < s.clock
    requires forall i :: 0 <= i < |s.players| && s.players[i].link.origin == o ==> NothingYet(s.players[i], FirstHeld(s))
    ensures Sound(Reap(s, net)) && Hushed(Reap(s, net), o)
  {
    var u := Reap(s, net);
    PlayingReap(s, net);
    ReapEachIsSound(s, Gone(s.players), net);
    forall j | 0 <= j < |u.players| && u.players[j].link.origin == o ensures HushedSeat(u.players[j], FirstHeld(s)) {
      var k := ReapEachKeeps(s, Gone(s.players), net, j);
      assert NothingYet(s.players[k], FirstHeld(s));
    }
  }

  ghost predicate NothingYet(p: Player, first: nat) {
    p.rejoin != NoRejoin && p.link.feed == [] && Calm(p.cursor, first)
  }

  lemma HushedIfCursorFree(s: State, conn: ConnId, name: string, net: Net)
    requires Sound(s) && MadeBefore(s) && RejoinAccepted(s, conn, name)
    requires s.players[TokenSeat(s, conn)].cursor.None?
    ensures var u := Reap(TryFullRejoin(s, conn, name, net), net); Sound(u) && Hushed(u, Rejoined(s.clock))
  {
    var t := TryFullRejoin(s, conn, name, net);
    AcceptedSeat(s, conn, name, net);
    TryFullRejoinIsSound(s, conn, name, net);
    ReapFollows(t, net);
    ReapIsSound(t, net);
    HushedStays(t, Reap(t, net), Rejoined(s.clock), 0);
  }

  /** On every run, nothing was handed over on the link of a calm acceptance,
      and nothing can be fed to it before its handshake is over. */
  lemma AcceptedIsHushed(limit: nat, s: State, conn: ConnId, name: string, net: Net)
    requires Reachable(limit, s) && RejoinAccepted(s, conn, name)
    requires Calm(s.players[TokenSeat(s, conn)].cursor, FirstHeld(s))
    ensures var u := Next(s, DoRejoin(conn, name), net); Sound(u) && Hushed(u, Rejoined(s.clock))
  {
    ReachableIsSound(limit, s);
    ReachableMadeBefore(limit, s);
    NextOfRejoin(s, conn, name, net);
    if s.phase.Playing? {
      HushedAfterAcceptance(s, conn, name, net);
    } else {
      HushedIfCursorFree(s, conn, name, net);
    }
  }

  lemma NextOfRejoin(s: State, conn: ConnId, name: string, net: Net)
    ensures Next(s, DoRejoin(conn, name), net) == Reap(TryFullRejoin(s, conn, name, net), net)
  {
    HandleOfRejoin(s, conn, name, net);
  }

  lemma HandleOfRejoin(s: State, conn: ConnId, name: string, net: Net)
    ensures Handle(s, DoRejoin(conn, name), net) == TryFullRejoin(s, conn, name, net)
  {
  }

  lemma AcceptedOthers(s: State, conn: ConnId, name: string, net: Net, j: nat)
    requires Sound(s) && MadeBefore(s) && RejoinAccepted(s, conn, name) && j < |s.players|
    ensures var t := TryFullRejoin(s, conn, name, net);
            && |t.players| == |s.players| && t.players[j].virtualHost == s.players[j].virtualHost
            && (s.players[j].left.Some? ==> t.players[j].left.Some?)
            && (j != TokenSeat(s, conn) ==> t.players[j] == s.players[j])
  {
    var i, r := TokenSeat(s, conn), Seated(s, conn);
    var pid := s.pendingFull[conn].0;
    RejoinKeepsSeat(s.players[i], s.trace.log, conn, s.clock);
    OneReseated(s, i, r.players[i]);
    OthersUntouched(r, pid, [SlotInfoJoin(pid)] + InfoPackets(Others(r.players, pid)) + [MapCheck], net, j);
  }

  lemma OthersUntouched(s: State, pid: nat, pkts: seq<Packet>, net: Net, j: nat)
    requires Sound(s) && j < |s.players|
    ensures var t := SendAllTo(s, pid, pkts, net);
            && |t.players| == |s.players| && t.players[j].virtualHost == s.players[j].virtualHost
            && (s.players[j].left.Some? ==> t.players[j].left.Some?)
            && (s.players[j].pid != pid ==> t.players[j] == s.players[j])
  {
    SendAllToIsSound(s, pid, pkts, net);
    SendAllToOnlyOne(s, pid, pkts, net, j);
    assert Undisturbed(s.players[j], SendAllTo(s, pid, pkts, net).players[j]);
  }

  lemma {:induction false} SendAllToOnlyOne(s: State, pid: nat, pkts: seq<Packet>, net: Net, j: nat)
    requires j < |s.players|
    ensures |SendAllTo(s, pid, pkts, net).players| == |s.players|
    ensures s.players[j].pid != pid ==> SendAllTo(s, pid, pkts, net).players[j] == s.players[j]
    decreases |pkts|
  {
    if pkts != [] {
      SendAllToOnlyOne(SendTo(s, pid, pkts[0], net), pid, pkts[1..], net, j);
    }
  }

  lemma LeaksIfNotCalm(s: State, conn: ConnId, name: string)
    requires Sound(s) && MadeBefore(s) && RejoinAccepted(s, conn, name) && s.phase.Playing?
    requires !Calm(s.players[TokenSeat(s, conn)].cursor, FirstHeld(s))
    ensures !AlwaysQuiet(Next(s, DoRejoin(conn, name), AllOk()), Rejoined(s.clock))
  {
    var i, t := TokenSeat(s, conn), TryFullRejoin(s, conn, name, AllOk());
    AcceptedSeat(s, conn, name, AllOk());
    TryFullRejoinIsSound(s, conn, name, AllOk());
    AcceptedSeatIsOpen(s, conn, name);
    forall j | 0 <= j < |s.players| ensures t.players[j].virtualHost == s.players[j].virtualHost
                                         && (s.players[j].left.Some? <==> t.players[j].left.Some?) {
      AcceptedOthers(s, conn, name, AllOk(), j);
    }
    GoneCount(s.players, t.players);
    PlayingReap(t, AllOk());
    var j := ReapPassesBy(t, AllOk(), i);
    NextOfRejoin(s, conn, name, AllOk());
    ExposedSeatLeaks(Reap(t, AllOk()), j);
  }
}
