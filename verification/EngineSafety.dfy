/** What every step of the game actor keeps, and what follows for whole runs:
    lock-step delivery and desync verdicts. */
module EngineSafety {
  import opened Basics
  import opened Packets
  import opened Histories
  import opened GProxy
  import opened Seats
  import opened Batching
  import opened Engine

  // ---- the invariant ----

  ghost predicate UniquePids(ps: seq<Player>) {
    forall i, j :: 0 <= i < j < |ps| ==> ps[i].pid != ps[j].pid
  }

  ghost predicate SeatsOk(ps: seq<Player>, log: seq<Packet>) {
    && UniquePids(ps)
    && forall i :: 0 <= i < |ps| ==> SeatOk(ps[i], log)
  }

  /** Every queued checksum was reported by that player for that turn. */
  ghost predicate ReportsOk(ps: seq<Player>, reports: seq<Report>) {
    forall i :: 0 <= i < |ps| ==> Reported(ps[i], reports)
  }

  ghost predicate Reported(p: Player, reports: seq<Report>) {
    forall c :: c in p.pace.checksums ==> Report(p.pid, c.turn, c.sum) in reports
  }

  /** Two different players reported different checksums for the turn. */
  ghost predicate Contested(turn: nat, reports: seq<Report>) {
    exists a, b :: a in reports && b in reports && a.turn == b.turn == turn && a.pid != b.pid && a.sum != b.sum
  }

  ghost predicate VerdictsOk(verdicts: seq<Verdict>, reports: seq<Report>) {
    forall v :: v in verdicts ==> Contested(v.turn, reports)
  }

  ghost predicate CoreOk(s: State) {
    && s.history.Retains(s.trace.log) && s.history.cap == FULL_HISTORY_CAP
    && (!s.phase.Playing? && !s.phase.Over? ==> s.trace.log == [])
    && s.game.sync == s.game.turns % U32_MODULUS
    && forall i :: 0 <= i < |s.actions| ==> Acceptable(s.actions[i])
  }

  /** Whoever joined in the lobby keeps pace with the game. */
  predicate InPace(p: Player) {
    p.link.origin.Joined? && !p.virtualHost ==> p.pace.paced
  }

  ghost predicate AllInPace(ps: seq<Player>) {
    forall i :: 0 <= i < |ps| ==> InPace(ps[i])
  }

  ghost predicate Sound(s: State) {
    && CoreOk(s)
    && (s.phase.Playing? ==> AllInPace(s.players))
    && SeatsOk(s.players, s.trace.log)
    && ReportsOk(s.players, s.trace.reports)
    && VerdictsOk(s.trace.verdicts, s.trace.reports)
  }

  // ---- replacing seats ----

  /** `q` is the same seat and queues no new checksum. */
  ghost predicate SameSeat(p: Player, q: Player) {
    && q.pid == p.pid && (forall c :: c in q.pace.checksums ==> c in p.pace.checksums)
    && (InPace(p) ==> InPace(q))
  }

  lemma Reseated(s: State, qs: seq<Player>)
    requires Sound(s)
    requires |qs| == |s.players|
    requires forall i :: 0 <= i < |qs| ==> SameSeat(s.players[i], qs[i]) && SeatOk(qs[i], s.trace.log)
    ensures Sound(s.(players := qs))
  {
    forall i, j | 0 <= i < j < |qs| ensures qs[i].pid != qs[j].pid {
      assert SameSeat(s.players[i], qs[i]) && SameSeat(s.players[j], qs[j]);
    }
    forall i | 0 <= i < |qs| ensures Reported(qs[i], s.trace.reports) {
      assert Reported(s.players[i], s.trace.reports);
    }
  }

  lemma OneReseated(s: State, i: nat, q: Player)
    requires Sound(s)
    requires i < |s.players| && SameSeat(s.players[i], q) && SeatOk(q, s.trace.log)
    ensures Sound(s.(players := s.players[i := q]))
  {
    Reseated(s, s.players[i := q]);
  }

  lemma MarkedLeft(p: Player, log: seq<Packet>, reason: Reason, code: nat)
    requires SeatOk(p, log)
    ensures SeatOk(p.(left := Some(reason), leftCode := code), log)
    ensures SameSeat(p, p.(left := Some(reason), leftCode := code))
  {
  }

  // ---- sending ----

  /** Rounds and evictions only go forward. */
  predicate Later(s: State, t: State) {
    t.clock >= s.clock && t.history.FirstSeq() >= s.history.FirstSeq()
  }

  lemma BroadcastIsSound(s: State, pkt: Packet, net: Net)
    requires Sound(s)
    ensures Later(s, Broadcast(s, pkt, net))
    ensures Sound(Broadcast(s, pkt, net))
    ensures Broadcast(s, pkt, net).phase == s.phase && Broadcast(s, pkt, net).game == s.game
    ensures Shadows(s.players, Broadcast(s, pkt, net).players)
  {
    var t := Broadcast(s, pkt, net);
    var turn := s.phase.Playing?;
    if turn {
      PushRetains(s.history, s.trace.log, pkt);
    }
    forall i | 0 <= i < |s.players|
      ensures SeatOk(t.players[i], t.trace.log) && Undisturbed(s.players[i], t.players[i])
    {
      BroadcastKeepsSeat(s.players[i], s.trace.log, pkt, turn, net(s.clock, s.players[i].pid, 0));
    }
    forall i | 0 <= i < |t.players| ensures Reported(t.players[i], t.trace.reports) {
      assert Undisturbed(s.players[i], t.players[i]) && Reported(s.players[i], s.trace.reports);
    }
  }

  /** The same seats in the same places, disturbed only by sends. */
  ghost predicate Shadows(ps: seq<Player>, qs: seq<Player>) {
    |qs| == |ps| && forall i :: 0 <= i < |ps| ==> Undisturbed(ps[i], qs[i])
  }

  lemma ShadowsTransitive(ps: seq<Player>, qs: seq<Player>, rs: seq<Player>)
    requires Shadows(ps, qs) && Shadows(qs, rs)
    ensures Shadows(ps, rs)
  {
    forall i | 0 <= i < |ps| ensures Undisturbed(ps[i], rs[i]) {
      assert Undisturbed(ps[i], qs[i]) && Undisturbed(qs[i], rs[i]);
    }
  }

  lemma {:induction false} BroadcastAllIsSound(s: State, pkts: seq<Packet>, net: Net)
    requires Sound(s)
    ensures Later(s, BroadcastAll(s, pkts, net))
    ensures Sound(BroadcastAll(s, pkts, net))
    ensures BroadcastAll(s, pkts, net).phase == s.phase && BroadcastAll(s, pkts, net).game == s.game
    ensures Shadows(s.players, BroadcastAll(s, pkts, net).players)
    decreases |pkts|
  {
    if pkts != [] {
      BroadcastIsSound(s, pkts[0], net);
      var t := Broadcast(s, pkts[0], net);
      BroadcastAllIsSound(t, pkts[1..], net);
      ShadowsTransitive(s.players, t.players, BroadcastAll(s, pkts, net).players);
    }
  }

  lemma ChatAllIsSound(s: State, pkt: Packet, net: Net)
    requires Sound(s)
    ensures Later(s, ChatAll(s, pkt, net))
    ensures Sound(ChatAll(s, pkt, net))
    ensures ChatAll(s, pkt, net).phase == s.phase && ChatAll(s, pkt, net).game == s.game
    ensures Shadows(s.players, ChatAll(s, pkt, net).players)
  {
    BroadcastIsSound(s, pkt, net);
  }

  lemma {:induction false} ChatEachIsSound(s: State, pkts: seq<Packet>, net: Net)
    requires Sound(s)
    ensures Later(s, ChatEach(s, pkts, net))
    ensures Sound(ChatEach(s, pkts, net))
    ensures ChatEach(s, pkts, net).phase == s.phase && ChatEach(s, pkts, net).game == s.game
    ensures Shadows(s.players, ChatEach(s, pkts, net).players)
    decreases |pkts|
  {
    if pkts != [] {
      ChatAllIsSound(s, pkts[0], net);
      var t := ChatAll(s, pkts[0], net);
      ChatEachIsSound(t, pkts[1..], net);
      ShadowsTransitive(s.players, t.players, ChatEach(s, pkts, net).players);
    }
  }

  lemma SendToIsSound(s: State, pid: nat, pkt: Packet, net: Net)
    requires Sound(s)
    ensures Later(s, SendTo(s, pid, pkt, net))
    ensures Sound(SendTo(s, pid, pkt, net))
    ensures SendTo(s, pid, pkt, net) == s.(players := SendTo(s, pid, pkt, net).players, clock := SendTo(s, pid, pkt, net).clock)
    ensures Shadows(s.players, SendTo(s, pid, pkt, net).players)
  {
    var i := ByPid(s.players, pid);
    if i < |s.players| {
      DirectKeepsSeat(s.players[i], s.trace.log, pkt, net(s.clock, pid, 0));
      OneReseated(s, i, s.players[i].OnDirect(pkt, net(s.clock, pid, 0)));
    }
  }

  lemma {:induction false} SendAllToIsSound(s: State, pid: nat, pkts: seq<Packet>, net: Net)
    requires Sound(s)
    ensures Later(s, SendAllTo(s, pid, pkts, net))
    ensures Sound(SendAllTo(s, pid, pkts, net))
    ensures SendAllTo(s, pid, pkts, net) == s.(players := SendAllTo(s, pid, pkts, net).players, clock := SendAllTo(s, pid, pkts, net).clock)
    ensures Shadows(s.players, SendAllTo(s, pid, pkts, net).players)
    decreases |pkts|
  {
    if pkts != [] {
      SendToIsSound(s, pid, pkts[0], net);
      var t := SendTo(s, pid, pkts[0], net);
      SendAllToIsSound(t, pid, pkts[1..], net);
      ShadowsTransitive(s.players, t.players, SendAllTo(s, pid, pkts, net).players);
    }
  }

  lemma ShadowsByPid(ps: seq<Player>, qs: seq<Player>, pid: nat)
    requires Shadows(ps, qs)
    ensures ByPid(ps, pid) == ByPid(qs, pid)
  {
    var i, j := ByPid(ps, pid), ByPid(qs, pid);
    if i < |ps| { assert Undisturbed(ps[i], qs[i]); }
    if j < |ps| { assert Undisturbed(ps[j], qs[j]); }
  }

  // ---- starting the game ----

  lemma {:induction false} LoadTimesIsSound(s: State, pids: seq<nat>, net: Net)
    requires Sound(s)
    ensures Later(s, LoadTimes(s, pids, net))
    ensures Sound(LoadTimes(s, pids, net))
    ensures LoadTimes(s, pids, net).phase == s.phase && LoadTimes(s, pids, net).game == s.game
    ensures Shadows(s.players, LoadTimes(s, pids, net).players)
    decreases |pids|
  {
    if pids != [] {
      var t := SendTo(s, pids[0], Chat("load time"), net);
      SendToIsSound(s, pids[0], Chat("load time"), net);
      LoadTimesIsSound(t, pids[1..], net);
      ShadowsTransitive(s.players, t.players, LoadTimes(s, pids, net).players);
    }
  }

  lemma BeginPlayingIsSound(s: State, net: Net)
    requires Sound(s)
    ensures Later(s, BeginPlaying(s, net))
    ensures Sound(BeginPlaying(s, net))
    ensures BeginPlaying(s, net).game == s.game.(sync := 0, ticks := 0, turns := 0)
    ensures Shadows(MapPlayers(s.players, ResetForPlay), BeginPlaying(s, net).players)
  {
    var ps := MapPlayers(s.players, ResetForPlay);
    ResetIsSound(s);
    var t := s.(phase := Playing, players := ps, startedLoading := false,
                game := s.game.(sync := 0, ticks := 0, turns := 0));
    var chats := [Chat("shortest load"), Chat("longest load")];
    ChatEachIsSound(t, chats, net);
    var u := ChatEach(t, chats, net);
    LoadTimesIsSound(u, HumanPids(t.players), net);
    if s.startedLoading {
      ShadowsTransitive(ps, u.players, BeginPlaying(s, net).players);
    }
  }

  lemma ResetIsSound(s: State)
    requires Sound(s)
    ensures var ps := MapPlayers(s.players, ResetForPlay);
            Sound(s.(players := ps)) && AllInPace(ps)
  {
    var ps := MapPlayers(s.players, ResetForPlay);
    forall i | 0 <= i < |ps| ensures SameSeat(s.players[i], ps[i]) && SeatOk(ps[i], s.trace.log) && InPace(ps[i]) {
      assert SeatOk(s.players[i], s.trace.log);
    }
    Reseated(s, ps);
  }

  lemma ArmCursorIsSound(s: State, pid: nat)
    requires Sound(s)
    requires s.history.FirstSeq() == 0
    requires var i := ByPid(s.players, pid); i < |s.players| ==> s.players[i].rejoin == AwaitingLoaded
    ensures Sound(ArmCursor(s, pid))
  {
    var i := ByPid(s.players, pid);
    if i < |s.players| {
      OneReseated(s, i, ArmCursor(s, pid).players[i]);
    }
  }

  lemma HandleLoadedIsSound(s: State, conn: nat, net: Net)
    requires Sound(s)
    ensures Sound(HandleLoaded(s, conn, net))
  {
    var i := ByConn(s.players, conn);
    if i < |s.players| {
      var p := s.players[i];
      if p.rejoin == AwaitingLoaded {
        if s.history.FirstSeq() > 0 {
          OneReseated(s, i, p.(rejoin := NoRejoin, left := Some(HistoryTooLong), leftCode := PLAYERLEAVE_DISCONNECT));
        } else {
          LoadedRejoinerIsSound(s, i, net);
        }
      } else {
        OneReseated(s, i, p.(loaded := true));
        var t := s.(players := s.players[i := p.(loaded := true)]);
        BroadcastIsSound(t, GameLoadedOthers(p.pid), net);
        BeginPlayingIsSound(Broadcast(t, GameLoadedOthers(p.pid), net), net);
      }
    }
  }

  lemma LoadedRejoinerIsSound(s: State, i: nat, net: Net)
    requires Sound(s)
    requires i < |s.players| && s.players[i].rejoin == AwaitingLoaded && s.history.FirstSeq() == 0
    ensures var p := s.players[i];
            Sound(Broadcast(ArmCursor(SendAllTo(s, p.pid, LoadedPackets(Others(s.players, p.pid)), net), p.pid),
                            GameLoadedOthers(p.pid), net))
  {
    var p := s.players[i];
    var pkts := LoadedPackets(Others(s.players, p.pid));
    var t := SendAllTo(s, p.pid, pkts, net);
    SendAllToIsSound(s, p.pid, pkts, net);
    ShadowsByPid(s.players, t.players, p.pid);
    assert ByPid(s.players, p.pid) == i;
    assert Undisturbed(p, t.players[i]);
    ArmCursorIsSound(t, p.pid);
    BroadcastIsSound(ArmCursor(t, p.pid), GameLoadedOthers(p.pid), net);
  }

  lemma HandleMapSizeIsSound(s: State, conn: nat, net: Net)
    requires Sound(s)
    ensures Sound(HandleMapSize(s, conn, net))
  {
    var i := ByConn(s.players, conn);
    if i < |s.players| && s.players[i].rejoin == AwaitingMapSize {
      var pid := s.players[i].pid;
      var t := SendAllTo(s, pid, [CountdownStart, CountdownEnd], net);
      SendAllToIsSound(s, pid, [CountdownStart, CountdownEnd], net);
      ShadowsByPid(s.players, t.players, pid);
      assert ByPid(s.players, pid) == i;
      assert Undisturbed(s.players[i], t.players[i]);
      OneReseated(t, i, t.players[i].(rejoin := AwaitingLoaded));
    }
  }

  // ---- rejoining and reconnecting ----

  lemma TryFullRejoinIsSound(s: State, conn: nat, name: string, net: Net)
    requires Sound(s)
    ensures Sound(TryFullRejoin(s, conn, name, net))
  {
    if RejoinAccepted(s, conn, name) {
      var pid := s.pendingFull[conn].0;
      var i := ByPid(s.players, pid);
      var q := s.players[i].Rejoin(conn, s.clock);
      RejoinKeepsSeat(s.players[i], s.trace.log, conn, s.clock);
      OneReseated(s, i, q);
      var t := s.(players := s.players[i := q], pendingFull := s.pendingFull - {conn}, clock := s.clock + 1);
      SendAllToIsSound(t, pid, [SlotInfoJoin(pid)] + InfoPackets(Others(t.players, pid)) + [MapCheck], net);
    }
  }

  /** A re-attached seat starts over: nothing was handed over on its link. */
  lemma RejoinKeepsSeat(p: Player, log: seq<Packet>, conn: nat, at: nat)
    requires SeatOk(p, log) && p.disconnected
    ensures SeatOk(p.Rejoin(conn, at), log) && SameSeat(p, p.Rejoin(conn, at))
  {
    assert p.Rejoin(conn, at).link.feed == [];
  }

  lemma GpsReconnectIsSound(s: State, conn: nat, pid: nat, key: nat, last: nat, net: Net)
    requires Sound(s)
    ensures Sound(GpsReconnect(s, conn, pid, key, last, net))
  {
    if ReconnectAccepted(s, pid, key, last) {
      var i := ByPid(s.players, pid);
      var p := s.players[i];
      var r := Answers(net, s.clock, pid);
      ReconnectKeepsSeat(p, s.trace.log, conn, s.clock, last, r);
      ReconnectSameSeat(p, conn, s.clock, last, p.gp.value.buffer.ReplayFrom(last).value, r);
      OneReseated(s, i, p.Reconnect(conn, s.clock, last, p.gp.value.buffer.ReplayFrom(last).value, r));
    }
  }

  lemma ReconnectSameSeat(p: Player, conn: nat, at: nat, last: nat, replay: seq<Packet>, r: nat -> Send)
    requires p.gp.Some?
    ensures SameSeat(p, p.Reconnect(conn, at, last, replay, r))
    ensures p.Reconnect(conn, at, last, replay, r).pace == p.pace
    ensures p.Reconnect(conn, at, last, replay, r).virtualHost == p.virtualHost
  {
    ResendMovesLink(p.Reattach(conn, at, last, r(0)), replay, r, 1);
  }

  lemma GpsInitIsSound(s: State, conn: ConnId, net: Net)
    requires Sound(s)
    ensures Sound(GpsInit(s, conn, net))
  {
    var i := ByConn(s.players, conn);
    if i < |s.players| {
      OneReseated(s, i, GpsInit(s, conn, net).players[i]);
    }
  }

  lemma CutOffKeepsSeat(p: Player, log: seq<Packet>)
    requires SeatOk(p, log) && p.gp.Some?
    ensures SeatOk(p.(disconnected := true), log) && SameSeat(p, p.(disconnected := true))
  {
  }

  lemma ConnClosedIsSound(s: State, conn: nat)
    requires Sound(s)
    ensures Sound(ConnClosed(s, conn))
  {
    var i := ByConn(s.players, conn);
    var t := s.(pendingFull := s.pendingFull - {conn});
    SettingIsSound(s, t);
    if i < |s.players| {
      var p := s.players[i];
      var code := if s.phase.Lobby? || s.phase.Countdown? then PLAYERLEAVE_LOBBY else PLAYERLEAVE_DISCONNECT;
      if p.gp.Some? {
        CutOffKeepsSeat(p, s.trace.log);
        OneReseated(t, i, p.(disconnected := true));
      } else {
        MarkedLeft(p, s.trace.log, ConnectionClosed, code);
        OneReseated(t, i, p.(left := Some(ConnectionClosed), leftCode := code));
      }
    }
  }

  // ---- desync detection ----

  lemma ClearedIsSound(s: State)
    requires Sound(s)
    ensures Sound(s.(players := MapPlayers(s.players, ClearActive)))
  {
    Reseated(s, MapPlayers(s.players, ClearActive));
  }

  lemma PoppedIsSound(s: State, turn: nat)
    requires Sound(s)
    ensures Sound(s.(players := PopTurn(s.players, turn)))
  {
    Reseated(s, PopTurn(s.players, turn));
  }

  /** Disagreement about a turn is disagreement between two reports. */
  lemma DisagreeIsContested(s: State, turn: nat)
    requires Sound(s) && Disagree(s.players, turn)
    ensures Contested(turn, s.trace.reports)
  {
    var i, j :| 0 <= i < |s.players| && 0 <= j < |s.players|
      && Participant(s.players[i], turn) && Participant(s.players[j], turn)
      && s.players[i].pace.checksums[0].sum != s.players[j].pace.checksums[0].sum;
    var p, q := s.players[i], s.players[j];
    assert Reported(p, s.trace.reports) && Reported(q, s.trace.reports);
    assert p.pace.checksums[0] in p.pace.checksums && q.pace.checksums[0] in q.pace.checksums;
    var a := Report(p.pid, turn, p.pace.checksums[0].sum);
    var b := Report(q.pid, turn, q.pace.checksums[0].sum);
    assert a in s.trace.reports && b in s.trace.reports && a.sum != b.sum;
  }

  lemma SentencedIsSound(s: State, turn: nat, t: State)
    requires Sound(t) && Shadows(s.players, t.players)
    ensures Sound(t.(players := Sentence(s.players, turn, t.players)))
  {
    var qs := Sentence(s.players, turn, t.players);
    forall i | 0 <= i < |qs| ensures SameSeat(t.players[i], qs[i]) && SeatOk(qs[i], t.trace.log) {
      SentencedKeepsSeat(t.players[i], t.trace.log, Condemned(s.players, turn, s.players[i]), Participant(s.players[i], turn));
    }
    Reseated(t, qs);
  }

  lemma SentencedKeepsSeat(p: Player, log: seq<Packet>, condemned: bool, judged: bool)
    requires SeatOk(p, log)
    ensures SeatOk(Sentenced(p, condemned, judged), log) && SameSeat(p, Sentenced(p, condemned, judged))
  {
    MarkedLeft(p, log, Desynced, PLAYERLEAVE_LOST);
    var q := if condemned then p.(left := Some(Desynced), leftCode := PLAYERLEAVE_LOST) else p;
    PoppedKeepsSeat(q, log);
  }

  lemma PoppedKeepsSeat(p: Player, log: seq<Packet>)
    requires SeatOk(p, log)
    ensures SeatOk(PopFront(p), log) && SameSeat(p, PopFront(p))
  {
    Repaced(p, PopFront(p).pace, log);
  }

  lemma JudgeIsSound(s: State, turn: nat, net: Net)
    requires Sound(s) && Disagree(s.players, turn)
    ensures Later(s, Judge(s, turn, net))
    ensures Sound(Judge(s, turn, net))
    ensures Judge(s, turn, net).phase == s.phase && Judge(s, turn, net).game == s.game
  {
    var t := ChatAll(s, Chat("Desync detected!"), net);
    ChatAllIsSound(s, Chat("Desync detected!"), net);
    SentencedIsSound(s, turn, t);
    DisagreeIsContested(s, turn);
    assert t.trace.reports == s.trace.reports;
    VerdictAdded(t.(players := Sentence(s.players, turn, t.players)), Verdict(turn, CondemnedPids(s.players, turn, s.players)));
  }

  lemma VerdictAdded(s: State, v: Verdict)
    requires Sound(s) && Contested(v.turn, s.trace.reports)
    ensures Sound(s.(trace := s.trace.(verdicts := s.trace.verdicts + [v])))
  {
    assert forall w :: w in s.trace.verdicts + [v] ==> w in s.trace.verdicts || w == v;
  }

  lemma {:induction false} CheckDesyncIsSound(s: State, net: Net)
    requires Sound(s)
    ensures Later(s, CheckDesync(s, net))
    ensures Sound(CheckDesync(s, net))
    ensures CheckDesync(s, net).phase == s.phase && CheckDesync(s, net).game == s.game
    decreases Queued(s.players)
  {
    ClearedIsSound(s);
    var min := MinTurn(s.players);
    if ActiveCount(s.players) >= 2 && min.Some? && !InFlight(s.players, min.value) {
      var turn := min.value;
      if !Disagree(s.players, turn) {
        PoppedIsSound(s, turn);
        MinTurnIsLowest(s.players);
        PopTurnShrinks(s.players, turn);
        CheckDesyncIsSound(s.(players := PopTurn(s.players, turn)), net);
      } else {
        JudgeIsSound(s, turn, net);
      }
    }
  }

  lemma NotedIsSound(s: State, i: nat, sum: nat)
    requires Sound(s) && i < |s.players|
    ensures Sound(Noted(s, i, sum))
  {
    var p := s.players[i];
    KeepaliveKeepsSeat(p, s.trace.log, sum, s.game.sync);
    if p.pace.catchingUp {
      OneReseated(s, i, p.OnKeepalive(sum, s.game.sync));
    } else {
      ReportAdded(s, i, p.OnKeepalive(sum, s.game.sync), Noted(s, i, sum));
    }
  }

  /** A keepalive is counted, and its checksum queued last if at all. */
  lemma KeepaliveKeepsSeat(p: Player, log: seq<Packet>, sum: nat, game: nat)
    requires SeatOk(p, log)
    ensures SeatOk(p.OnKeepalive(sum, game), log)
    ensures InPace(p) ==> InPace(p.OnKeepalive(sum, game))
    ensures p.pace.catchingUp ==> SameSeat(p, p.OnKeepalive(sum, game))
    ensures !p.pace.catchingUp ==>
              var q := p.OnKeepalive(sum, game);
              && q.pid == p.pid && |q.pace.checksums| > 0 && Last(q.pace.checksums) == Checksum(q.pace.sync, sum)
              && forall c :: c in q.pace.checksums ==> c in p.pace.checksums || c == Last(q.pace.checksums)
  {
    var q := p.OnKeepalive(sum, game);
    KeepaliveKeepsPace(p, log, sum, game);
    if !p.pace.catchingUp {
      ChecksumIsQueued(p, sum, game);
    }
    Repaced(p, q.pace, log);
  }

  lemma KeepaliveKeepsPace(p: Player, log: seq<Packet>, sum: nat, game: nat)
    requires PacedIsLive(p, log)
    ensures var q := p.OnKeepalive(sum, game);
            && q == p.(pace := q.pace) && PacedIsLive(q, log) && (p.pace.paced ==> q.pace.paced)
            && (!p.pace.catchingUp ==> !q.pace.catchingUp)
            && (p.pace.catchingUp ==> q.pace.checksums == p.pace.checksums)
  {
  }

  lemma ChecksumIsQueued(p: Player, sum: nat, game: nat)
    requires !p.pace.catchingUp
    ensures var q := p.OnKeepalive(sum, game);
            && |q.pace.checksums| > 0 && Last(q.pace.checksums) == Checksum(q.pace.sync, sum)
            && forall c :: c in q.pace.checksums ==> c in p.pace.checksums || c == Last(q.pace.checksums)
  {
  }

  lemma Repaced(p: Player, pace: Pace, log: seq<Packet>)
    requires SeatOk(p, log) && PacedIsLive(p.(pace := pace), log) && (!p.pace.catchingUp ==> !pace.catchingUp)
    ensures SeatOk(p.(pace := pace), log)
  {
    var q := p.(pace := pace);
    assert InStep(q, log) by {
      assert LiveCursor(q) == LiveCursor(p) && Attached(q) == Attached(p);
    }
    assert Resumable(q);
  }

  lemma HandleKeepaliveIsSound(s: State, conn: nat, sum: nat, net: Net)
    requires Sound(s)
    ensures Sound(HandleKeepalive(s, conn, sum, net))
    ensures HandleKeepalive(s, conn, sum, net).phase == s.phase && HandleKeepalive(s, conn, sum, net).game == s.game
  {
    var i := ByConn(s.players, conn);
    if i == |s.players| {
      CheckDesyncIsSound(s, net);
    } else {
      NotedIsSound(s, i, sum);
      CheckDesyncIsSound(Noted(s, i, sum), net);
    }
  }

  /** Queueing a checksum together with its report. */
  lemma ReportAdded(s: State, i: nat, q: Player, u: State)
    requires Sound(s) && i < |s.players|
    requires q.pid == s.players[i].pid && SeatOk(q, s.trace.log) && |q.pace.checksums| > 0
    requires InPace(s.players[i]) ==> InPace(q)
    requires var last := q.pace.checksums[|q.pace.checksums| - 1];
             && (forall c :: c in q.pace.checksums ==> c in s.players[i].pace.checksums || c == last)
             && u == s.(players := s.players[i := q],
                        trace := s.trace.(reports := s.trace.reports + [Report(q.pid, last.turn, last.sum)]))
    ensures Sound(u)
  {
    var last := q.pace.checksums[|q.pace.checksums| - 1];
    assert forall r :: r in s.trace.reports ==> r in u.trace.reports;
    assert u.trace.reports[|s.trace.reports|] == Report(q.pid, last.turn, last.sum);
    forall k | 0 <= k < |u.players| ensures Reported(u.players[k], u.trace.reports) {
      assert Reported(s.players[k], s.trace.reports);
    }
    forall v | v in u.trace.verdicts ensures Contested(v.turn, u.trace.reports) {
      assert Contested(v.turn, s.trace.reports);
    }
  }

  // ---- lag ----

  lemma LagUpdatedIsSound(s: State)
    requires Sound(s)
    ensures Sound(s.(players := LagUpdateAll(s.game, s.players)))
  {
    Reseated(s, LagUpdateAll(s.game, s.players));
  }

  lemma CheckLagIsSound(s: State, reset: bool, net: Net)
    requires Sound(s)
    ensures Later(s, CheckLag(s, reset, net))
    ensures Sound(CheckLag(s, reset, net))
    ensures CheckLag(s, reset, net).phase == s.phase
    ensures CheckLag(s, reset, net).game == s.game.(lagging := CheckLag(s, reset, net).game.lagging)
    ensures Shadows(LagUpdateAll(s.game, s.players), CheckLag(s, reset, net).players)
    ensures CheckLag(s, reset, net).game.lagging <==> AnyLagging(CheckLag(s, reset, net).players)
  {
    var newly := NewLaggers(s.game, s.players);
    var announce := StopLags(s.game, s.players) + (if newly == [] then [] else [StartLag(newly)]);
    var r := s.(players := LagUpdateAll(s.game, s.players));
    LagUpdatedIsSound(s);
    BroadcastAllIsSound(r, announce, net);
    var t := BroadcastAll(r, announce, net);
    var u := t.(game := t.game.(lagging := AnyLagging(t.players)));
    var late := Laggers(u.players);
    var pkts := StopLagPackets(late) + [IncomingAction([], 0), StartLag(late)];
    BroadcastAllIsSound(u, pkts, net);
    var v := BroadcastAll(u, pkts, net);
    ShadowsTransitive(r.players, t.players, v.players);
    ShadowsLagging(u.players, v.players);
  }

  lemma ShadowsLagging(ps: seq<Player>, qs: seq<Player>)
    requires Shadows(ps, qs)
    ensures AnyLagging(ps) <==> AnyLagging(qs)
  {
    if i :| 0 <= i < |ps| && !ps[i].virtualHost && ps[i].pace.lagging {
      assert Undisturbed(ps[i], qs[i]);
    }
    if i :| 0 <= i < |qs| && !qs[i].virtualHost && qs[i].pace.lagging {
      assert Undisturbed(ps[i], qs[i]);
    }
  }

  lemma DropLaggingIsSound(s: State, timedOut: set<nat>)
    requires Sound(s)
    ensures Sound(DropLagging(s, timedOut))
  {
    Reseated(s, DropLagging(s, timedOut).players);
  }

  // ---- one turn ----

  lemma SendAllActionsIsSound(s: State, skipped: nat, winner: Option<Packet>, net: Net)
    requires Sound(s)
    ensures Later(s, SendAllActions(s, skipped, winner, net))
    ensures Sound(SendAllActions(s, skipped, winner, net))
    ensures SendAllActions(s, skipped, winner, net).phase == s.phase
    ensures SendAllActions(s, skipped, winner, net).game
         == s.game.(sync := WrappingAdd(s.game.sync, 1), turns := s.game.turns + 1,
                    ticks := WrappingAdd(s.game.ticks, Elapsed(s.game.period, skipped)))
    ensures Shadows(s.players, SendAllActions(s, skipped, winner, net).players)
  {
    var elapsed := Elapsed(s.game.period, skipped);
    var interval := Min(elapsed, U16_MAX);
    var bs := Cut(s.actions, []);
    var overflow, last := bs[..|bs| - 1], bs[|bs| - 1];
    var t := s.(actions := [],
                game := s.game.(sync := WrappingAdd(s.game.sync, 1), ticks := WrappingAdd(s.game.ticks, elapsed),
                                turns := s.game.turns + 1),
                trace := s.trace.(relayed := s.trace.relayed + Overflows(overflow) + [IncomingAction(last, interval)],
                                  recorded := s.trace.recorded + OverflowSlots(overflow) + [Timeslot(last, interval)]));
    CountedTurnIsSound(s, t);
    TurnPacketsAreSound(t, Overflows(overflow), winner, IncomingAction(last, interval), net);
  }

  lemma CountedTurnIsSound(s: State, t: State)
    requires Sound(s)
    requires t == s.(actions := [], game := s.game.(sync := t.game.sync, ticks := t.game.ticks, turns := s.game.turns + 1),
                     trace := s.trace.(relayed := t.trace.relayed, recorded := t.trace.recorded))
    requires t.game.sync == WrappingAdd(s.game.sync, 1)
    ensures Sound(t)
  {
  }

  /** The packets of a turn: overflows, perhaps a notice, the closing one. */
  lemma TurnPacketsAreSound(s: State, overflows: seq<Packet>, winner: Option<Packet>, last: Packet, net: Net)
    requires Sound(s)
    ensures var u := BroadcastAll(s, overflows, net);
            var v := Broadcast(if winner.Some? then ChatAll(u, winner.value, net) else u, last, net);
            Later(s, v) && Sound(v) && v.phase == s.phase && v.game == s.game && Shadows(s.players, v.players)
  {
    BroadcastAllIsSound(s, overflows, net);
    var u := BroadcastAll(s, overflows, net);
    var v := if winner.Some? then ChatAll(u, winner.value, net) else u;
    if winner.Some? {
      ChatAllIsSound(u, winner.value, net);
      ShadowsTransitive(s.players, u.players, v.players);
    }
    BroadcastIsSound(v, last, net);
    ShadowsTransitive(s.players, v.players, Broadcast(v, last, net).players);
  }

  lemma PumpIsSound(s: State, net: Net)
    requires Sound(s)
    ensures Sound(Pump(s, net))
  {
    var t := Pump(s, net);
    forall i | 0 <= i < |s.players| ensures SameSeat(s.players[i], t.players[i]) && SeatOk(t.players[i], s.trace.log) {
      var r := Answers(net, s.clock, s.players[i].pid);
      CatchUpKeepsSeat(s.players[i], s.trace.log, s.history, r);
      CatchUpSameSeat(s.players[i], s.history, r);
    }
    Reseated(s, t.players);
  }

  lemma CatchUpSameSeat(p: Player, h: History, r: nat -> Send)
    ensures SameSeat(p, p.CatchUp(h, r))
    ensures p.CatchUp(h, r).virtualHost == p.virtualHost
    ensures p.CatchUp(h, r).pace.sync == p.pace.sync && p.CatchUp(h, r).pace.paced == p.pace.paced
    ensures p.left.Some? ==> p.CatchUp(h, r).left.Some?
  {
    if p.cursor.Some? {
      FeedOnlyMovesLink(p, h.SnapshotFromSeq(p.cursor.value), p.cursor.value, r, 0);
    }
  }

  lemma {:induction false} FeedOnlyMovesLink(p: Player, pending: seq<Packet>, cur: nat, r: nat -> Send, j: nat)
    ensures var q := p.Feed(pending, cur, r, j).0;
            && q.pid == p.pid && q.pace == p.pace && q.virtualHost == p.virtualHost && (p.left.Some? ==> q.left.Some?)
            && q.link.origin == p.link.origin
    decreases |pending|
  {
    if pending != [] && p.link.Answer(r(j)) == Ok {
      FeedOnlyMovesLink(p.Take(pending[0]), pending[1..], cur + 1, r, j + 1);
    }
  }

  lemma FakeSyncIsSound(s: State)
    requires Sound(s)
    ensures Sound(FakeSync(s))
  {
    if s.fakePid.Some? && ByPid(s.players, s.fakePid.value) < |s.players| {
      var i := ByPid(s.players, s.fakePid.value);
      OneReseated(s, i, FakeSync(s).players[i]);
    }
  }

  lemma BeforeTurnIsSound(s: State, input: TickInput, net: Net)
    requires Sound(s)
    ensures Sound(BeforeTurn(s, input, net))
    ensures BeforeTurn(s, input, net).phase == s.phase
  {
    PumpIsSound(s, net);
    FakeSyncIsSound(Pump(s, net));
    CheckDesyncIsSound(FakeSync(Pump(s, net)), net);
    CheckLagIsSound(CheckDesync(FakeSync(Pump(s, net)), net), input.resetScreen, net);
  }

  lemma LeaveAllIsSound(s: State, reason: Reason)
    requires Sound(s)
    ensures Sound(s.(players := LeaveAll(s.players, reason)))
    ensures Sound(s.(players := LeaveUnloaded(s.players)))
  {
    LeaversAreSound(s, LeaveAll(s.players, reason), reason);
    LeaversAreSound(s, LeaveUnloaded(s.players), LoadingTimeout);
  }

  /** Some players are marked as gone. */
  lemma LeaversAreSound(s: State, qs: seq<Player>, reason: Reason)
    requires Sound(s) && |qs| == |s.players|
    requires forall i :: 0 <= i < |qs| ==>
               qs[i] == s.players[i] || qs[i] == s.players[i].(left := Some(reason), leftCode := PLAYERLEAVE_DISCONNECT)
    ensures Sound(s.(players := qs))
  {
    forall i | 0 <= i < |qs| ensures SameSeat(s.players[i], qs[i]) && SeatOk(qs[i], s.trace.log) {
      MarkedLeft(s.players[i], s.trace.log, reason, PLAYERLEAVE_DISCONNECT);
    }
    Reseated(s, qs);
  }

  lemma PlayTickIsSound(s: State, input: TickInput, net: Net)
    requires Sound(s) && s.phase.Playing?
    ensures Sound(PlayTick(s, input, net))
  {
    var t := BeforeTurn(s, input, net);
    BeforeTurnIsSound(s, input, net);
    if t.game.lagging {
      DropLaggingIsSound(t, input.lagTimedOut);
    } else {
      var w := WinnerNotice(input.winner);
      SendAllActionsIsSound(t, input.skipped, w, net);
      LeaveAllIsSound(SendAllActions(t, input.skipped, w, net), GameOverTimer);
    }
  }

  // ---- leaving ----

  lemma IndexWithout(ps: seq<Player>, pid: nat, k: nat) returns (m: nat)
    requires UniquePids(ps) && k < |Without(ps, pid)|
    ensures m < |ps| && ps[m].pid != pid && Without(ps, pid)[k] == ps[m]
  {
    var cut := ByPid(ps, pid);
    m := if k < cut then k else k + 1;
    if k >= cut {
      assert Without(ps, pid)[k] == ps[k + 1];
    }
  }

  lemma WithoutIsSound(s: State, pid: nat)
    requires Sound(s)
    ensures Sound(s.(players := Without(s.players, pid)))
  {
    var i := ByPid(s.players, pid);
    if i < |s.players| {
      var qs := Without(s.players, pid);
      forall k | 0 <= k < |qs|
        ensures qs[k] == s.players[if k < i then k else k + 1]
        ensures SeatOk(qs[k], s.trace.log) && Reported(qs[k], s.trace.reports)
      {
        assert Reported(s.players[if k < i then k else k + 1], s.trace.reports);
      }
    }
  }

  lemma ReapOneIsSound(s: State, pid: nat, code: nat, net: Net)
    requires Sound(s)
    ensures Later(s, ReapOne(s, pid, code, net))
    ensures Sound(ReapOne(s, pid, code, net))
    ensures ReapOne(s, pid, code, net).phase == s.phase && ReapOne(s, pid, code, net).game == s.game
    ensures Shadows(Without(s.players, pid), ReapOne(s, pid, code, net).players)
  {
    var r := s.(players := Without(s.players, pid));
    WithoutIsSound(s, pid);
    BroadcastIsSound(r, PlayerLeaveOthers(pid, code), net);
    var t := Broadcast(r, PlayerLeaveOthers(pid, code), net);
    BroadcastIsSound(t, Opaque(2), net);
    ShadowsTransitive(r.players, t.players, Broadcast(t, Opaque(2), net).players);
  }

  lemma {:induction false} ReapEachIsSound(s: State, gone: seq<(nat, nat)>, net: Net)
    requires Sound(s)
    ensures Later(s, ReapEach(s, gone, net))
    ensures Sound(ReapEach(s, gone, net))
    ensures ReapEach(s, gone, net).phase == s.phase && ReapEach(s, gone, net).game == s.game
    decreases |gone|
  {
    if gone != [] {
      ReapOneIsSound(s, gone[0].0, gone[0].1, net);
      ReapEachIsSound(ReapOne(s, gone[0].0, gone[0].1, net), gone[1..], net);
    }
  }

  lemma ReapIsSound(s: State, net: Net)
    requires Sound(s)
    ensures Sound(Reap(s, net))
  {
    var gone := Gone(s.players);
    if gone != [] {
      var t := AbortCountdown(s, net);
      AbortCountdownIsSound(s, net);
      ReapEachIsSound(t, gone, net);
      BeginPlayingIsSound(ReapEach(t, gone, net), net);
    }
  }

  lemma AbortCountdownIsSound(s: State, net: Net)
    requires Sound(s)
    ensures Later(s, AbortCountdown(s, net))
    ensures Sound(AbortCountdown(s, net))
    ensures AbortCountdown(s, net).game == s.game
    ensures Shadows(s.players, AbortCountdown(s, net).players)
  {
    if s.phase.Countdown? {
      ChatAllIsSound(s.(phase := Lobby), Chat("Countdown aborted."), net);
    }
  }

  // ---- the actor ----

  lemma SeatAdded(s: State, p: Player)
    requires Sound(s)
    requires !Taken(s.players, p.pid) && SeatOk(p, s.trace.log) && p.pace.checksums == []
    requires s.phase.Playing? ==> InPace(p)
    ensures Sound(s.(players := s.players + [p]))
  {
    var qs := s.players + [p];
    forall i | 0 <= i < |qs| ensures Reported(qs[i], s.trace.reports) {
      if i < |s.players| {
        assert Reported(s.players[i], s.trace.reports);
      }
    }
  }

  lemma TellAllIsSound(s: State, pkt: Packet, net: Net, pid: nat)
    requires Sound(s)
    ensures Sound(TellAll(s, pkt, net))
    ensures Taken(TellAll(s, pkt, net).players, pid) <==> Taken(s.players, pid)
  {
    var told := TellAll(s, pkt, net).players;
    forall i | 0 <= i < |told| ensures SameSeat(s.players[i], told[i]) && SeatOk(told[i], s.trace.log) {
      ToldKeepsSeat(s.players[i], s.trace.log, pkt, net(s.clock, s.players[i].pid, 0));
    }
    Reseated(s, told);
    var i, k := ByPid(s.players, pid), ByPid(told, pid);
    if k < |told| { assert s.players[k].pid == pid; }
    if i < |told| { assert told[i].pid == pid; }
  }

  lemma NewPlayerIsOk(pid: nat, conn: nat, name: string, key: nat, at: nat, open: bool)
    requires pid < 255
    ensures var p := NewPlayer(pid, conn, name, key, Link(Joined(at), open, []));
            && SeatOk(p, []) && SeatOk(p.(loaded := true), [])
            && (conn == HOST_CONN ==> forall log :: SeatOk(p.(virtualHost := true, loaded := true), log))
  {
  }

  lemma JoinIsSound(s: State, conn: nat, name: string, key: nat, slot: bool, net: Net)
    requires Sound(s)
    ensures Sound(Join(s, conn, name, key, slot, net))
  {
    if JoinAllowed(s, name, slot) {
      var pid := NextFreePid(s.players, 1).value;
      if net(s.clock, pid, 0) == Ok {
        TellAllIsSound(s, PlayerInfo(pid), net, pid);
        var t := TellAll(s, PlayerInfo(pid), net);
        var open := net(s.clock, pid, 1) != Closed;
        var p := NewPlayer(pid, conn, name, key, Link(Joined(s.clock), open, []));
        NewPlayerIsOk(pid, conn, name, key, s.clock, open);
        SeatAdded(t, p);
        BroadcastIsSound(t.(players := t.players + [p]), Opaque(2), net);
        DropVirtualHostIsSound(Broadcast(t.(players := t.players + [p]), Opaque(2), net), net);
      }
    }
  }

  lemma AddVirtualHostIsSound(s: State, name: string, net: Net)
    requires Sound(s)
    ensures Sound(AddVirtualHost(s, name, net))
  {
    var free := NextFreePid(s.players, 1);
    if s.hostPid.None? && free.Some? {
      var t := Broadcast(s, PlayerInfo(free.value), net);
      BroadcastIsSound(s, PlayerInfo(free.value), net);
      ShadowsByPid(s.players, t.players, free.value);
      NewPlayerIsOk(free.value, HOST_CONN, name, 0, s.clock, true);
      var host := NewPlayer(free.value, HOST_CONN, name, 0, Link(Joined(s.clock), true, [])).(virtualHost := true, loaded := true);
      SeatAdded(t, host);
    }
  }

  lemma ToggleFakeIsSound(s: State, slot: bool, net: Net)
    requires Sound(s)
    ensures Sound(ToggleFake(s, slot, net))
  {
    if s.phase.Lobby? {
      if s.fakePid.Some? {
        WithoutIsSound(s, s.fakePid.value);
        BroadcastAllIsSound(s.(fakePid := None, players := Without(s.players, s.fakePid.value)),
                            [PlayerLeaveOthers(s.fakePid.value, PLAYERLEAVE_LOBBY), Opaque(2)], net);
      } else {
        var free := NextFreePid(s.players, 1);
        if free.Some? && slot {
          FakeSeatIsSound(s, free.value);
          FakeIsSeated(s, net);
          BroadcastAllIsSound(FakeSeated(s, free.value), [PlayerInfo(free.value), Opaque(2)], net);
        }
      }
    }
  }

  /** The fake player at its seat, before anybody is told. */
  ghost function FakeSeated(s: State, pid: nat): State {
    var fake := NewPlayer(pid, 0, "FakePlayer", 0, Link(Joined(s.clock), true, [])).(loaded := true);
    s.(players := s.players + [fake], fakePid := Some(pid), clock := s.clock + 1)
  }

  lemma FakeIsSeated(s: State, net: Net)
    requires s.phase.Lobby? && s.fakePid.None? && NextFreePid(s.players, 1).Some?
    ensures var pid := NextFreePid(s.players, 1).value;
            ToggleFake(s, true, net) == BroadcastAll(FakeSeated(s, pid), [PlayerInfo(pid), Opaque(2)], net)
  {
  }

  lemma FakeSeatIsSound(s: State, pid: nat)
    requires Sound(s) && s.phase.Lobby? && pid < 255 && !Taken(s.players, pid)
    ensures Sound(FakeSeated(s, pid)) && Later(s, FakeSeated(s, pid))
  {
    NewPlayerIsOk(pid, 0, "FakePlayer", 0, s.clock, true);
    SeatAdded(s, NewPlayer(pid, 0, "FakePlayer", 0, Link(Joined(s.clock), true, [])).(loaded := true));
  }

  lemma DropVirtualHostIsSound(s: State, net: Net)
    requires Sound(s)
    ensures Later(s, DropVirtualHost(s, net))
    ensures Sound(DropVirtualHost(s, net))
    ensures DropVirtualHost(s, net).phase == s.phase && DropVirtualHost(s, net).game == s.game
    ensures s.hostPid.Some? ==> Shadows(Without(s.players, s.hostPid.value), DropVirtualHost(s, net).players)
  {
    if s.hostPid.Some? {
      var t := s.(hostPid := None, players := Without(s.players, s.hostPid.value));
      WithoutIsSound(s, s.hostPid.value);
      BroadcastIsSound(t, PlayerLeaveOthers(s.hostPid.value, PLAYERLEAVE_LOBBY), net);
    }
  }

  lemma BeginLoadingIsSound(s: State, net: Net)
    requires Sound(s) && s.phase.Countdown?
    ensures Sound(BeginLoading(s, net))
  {
    var t := Broadcast(s.(phase := Loading, startedLoading := true), CountdownStart, net);
    BroadcastIsSound(s.(phase := Loading, startedLoading := true), CountdownStart, net);
    var u := DropVirtualHost(t, net);
    DropVirtualHostIsSound(t, net);
    var v := Broadcast(u, CountdownEnd, net);
    BroadcastIsSound(u, CountdownEnd, net);
    FakeLoadedIsSound(v, net);
    BeginPlayingIsSound(FakeLoaded(v, net), net);
  }

  lemma FakeLoadedIsSound(s: State, net: Net)
    requires Sound(s)
    ensures Later(s, FakeLoaded(s, net))
    ensures Sound(FakeLoaded(s, net))
    ensures FakeLoaded(s, net).game == s.game
  {
    if s.fakePid.Some? {
      var i := ByPid(s.players, s.fakePid.value);
      if i < |s.players| {
        OneReseated(s, i, s.players[i].(loaded := true));
        BroadcastIsSound(s.(players := s.players[i := s.players[i].(loaded := true)]), GameLoadedOthers(s.fakePid.value), net);
      } else {
        BroadcastIsSound(s, GameLoadedOthers(s.fakePid.value), net);
      }
    }
  }

  lemma ReapTimeoutsIsSound(s: State, expired: set<nat>, notices: seq<string>, net: Net)
    requires Sound(s)
    ensures Later(s, ReapTimeouts(s, expired, notices, net))
    ensures Sound(ReapTimeouts(s, expired, notices, net))
    ensures ReapTimeouts(s, expired, notices, net).phase == s.phase
    ensures ReapTimeouts(s, expired, notices, net).game == s.game
    ensures Shadows(ExpireAll(s.players, expired), ReapTimeouts(s, expired, notices, net).players)
  {
    Reseated(s, ExpireAll(s.players, expired));
    ChatEachIsSound(s.(players := ExpireAll(s.players, expired)), Chats(notices), net);
  }

  lemma PhaseTickIsSound(s: State, input: TickInput, net: Net)
    requires Sound(s)
    ensures Sound(PhaseTick(s, input, net))
  {
    match s.phase {
      case Lobby =>
      case Countdown => BeginLoadingIsSound(s, net);
      case Loading =>
        LeaveAllIsSound(s, LoadingTimeout);
        ReapIsSound(s.(players := LeaveUnloaded(s.players)), net);
      case Playing => PlayTickIsSound(s, input, net);
      case Over =>
    }
  }

  lemma OnTickIsSound(s: State, input: TickInput, net: Net)
    requires Sound(s)
    ensures Sound(OnTick(s, input, net))
  {
    var t := ReapTimeouts(s, input.expired, input.notices, net);
    ReapTimeoutsIsSound(s, input.expired, input.notices, net);
    BroadcastIsSound(t, Opaque(1), net);
    PhaseTickIsSound(Pinged(t, input, net), input, net);
  }

  lemma KickIsSound(s: State, pid: nat, reason: Reason, code: nat)
    requires Sound(s)
    ensures Sound(Kick(s, pid, reason, code))
  {
    var i := ByPid(s.players, pid);
    if i < |s.players| {
      OneReseated(s, i, s.players[i].(left := Some(reason), leftCode := code));
    }
  }

  lemma HandleActionIsSound(s: State, conn: nat, data: Bytes)
    requires Sound(s)
    ensures Sound(HandleAction(s, conn, data))
  {
    var i := ByConn(s.players, conn);
    if i < |s.players| {
      KickIsSound(s, s.players[i].pid, InvalidAction, PLAYERLEAVE_LOST);
      var a := Action(s.players[i].pid, data);
      if Acceptable(a) {
        QueuedIsSound(s, a);
      }
    }
  }

  lemma QueuedIsSound(s: State, a: Action)
    requires Sound(s) && Acceptable(a)
    ensures Sound(s.(actions := s.actions + [a]))
  {
  }

  lemma HandleLeaveIsSound(s: State, conn: nat)
    requires Sound(s)
    ensures Sound(HandleLeave(s, conn))
  {
    var i := ByConn(s.players, conn);
    if i < |s.players| {
      var code := if s.phase.Lobby? || s.phase.Countdown? then PLAYERLEAVE_LOBBY else PLAYERLEAVE_LOST;
      MarkedLeft(s.players[i], s.trace.log, LeftVoluntarily, code);
      OneReseated(s, i, s.players[i].(left := Some(LeftVoluntarily), leftCode := code));
    }
  }

  lemma DropRequestIsSound(s: State)
    requires Sound(s)
    ensures Sound(DropRequest(s))
  {
    if s.game.lagging {
      LeaversAreSound(s, DropRequest(s).players, LaggedOut);
    }
  }

  lemma NextIsSound(s: State, cmd: Command, net: Net)
    requires Sound(s)
    ensures Sound(Next(s, cmd, net))
  {
    HandleIsSound(s, cmd, net);
    ReapIsSound(Handle(s, cmd, net), net);
  }

  lemma HandleIsSound(s: State, cmd: Command, net: Net)
    requires Sound(s)
    ensures Sound(Handle(s, cmd, net))
  {
    if LobbyCommand(cmd) {
      LobbyCommandIsSound(s, cmd, net);
    } else if ClientCommand(cmd) {
      ClientCommandIsSound(s, cmd, net);
    } else if LinkCommand(cmd) {
      LinkCommandIsSound(s, cmd, net);
    } else {
      HostCommandIsSound(s, cmd, net);
    }
  }

  lemma LobbyCommandIsSound(s: State, cmd: Command, net: Net)
    requires Sound(s) && LobbyCommand(cmd)
    ensures Sound(HandleLobby(s, cmd, net))
  {
    match cmd {
      case DoJoin(conn, name, key, slot) => JoinIsSound(s, conn, name, key, slot, net);
      case DoVirtualHost(name) => AddVirtualHostIsSound(s, name, net);
      case DoToggleFake(slot) => ToggleFakeIsSound(s, slot, net);
      case DoStart => SettingIsSound(s, HandleLobby(s, cmd, net));
    }
  }

  lemma ClientCommandIsSound(s: State, cmd: Command, net: Net)
    requires Sound(s) && ClientCommand(cmd)
    ensures Sound(HandleClient(s, cmd, net))
  {
    match cmd {
      case DoLoaded(conn) => HandleLoadedIsSound(s, conn, net);
      case DoMapSize(conn) => HandleMapSizeIsSound(s, conn, net);
      case DoKeepalive(conn, sum) => HandleKeepaliveIsSound(s, conn, sum, net);
      case DoAction(conn, data) => HandleActionIsSound(s, conn, data);
      case DoLeave(conn) => HandleLeaveIsSound(s, conn);
      case DoDropRequest => DropRequestIsSound(s);
    }
  }

  lemma LinkCommandIsSound(s: State, cmd: Command, net: Net)
    requires Sound(s) && LinkCommand(cmd)
    ensures Sound(HandleLink(s, cmd, net))
  {
    match cmd {
      case DoClosed(conn) => ConnClosedIsSound(s, conn);
      case DoGpsInit(conn) => GpsInitIsSound(s, conn, net);
      case DoGpsFull(conn, pid, key) => SettingIsSound(s, HandleLink(s, cmd, net));
      case DoRejoin(conn, name) => TryFullRejoinIsSound(s, conn, name, net);
      case DoReconnect(conn, pid, key, last) => GpsReconnectIsSound(s, conn, pid, key, last, net);
    }
  }

  lemma HostCommandIsSound(s: State, cmd: Command, net: Net)
    requires Sound(s) && HostCommand(cmd)
    ensures Sound(HandleHost(s, cmd, net))
  {
    match cmd {
      case DoAnnounce(pkt) => BroadcastIsSound(s, pkt, net);
      case DoWhisper(pid, pkt) => SendToIsSound(s, pid, pkt, net);
      case DoKick(pid) => KickIsSound(s, pid, Removed, PLAYERLEAVE_LOST);
      case DoLatency(period) => SettingIsSound(s, HandleHost(s, cmd, net));
      case DoTick(input) => OnTickIsSound(s, input, net);
    }
  }

  /** Fields the invariant does not depend on. */
  lemma SettingIsSound(s: State, t: State)
    requires Sound(s)
    requires t == s.(phase := t.phase, game := s.game.(period := t.game.period), pendingFull := t.pendingFull)
    requires t.phase == s.phase || (s.phase.Lobby? && t.phase.Countdown?)
    ensures Sound(t)
  {
  }

  lemma {:induction false} RunIsSound(limit: nat, period: nat, net: Net, cmds: seq<Command>, states: seq<State>, k: nat)
    requires IsRun(limit, period, net, cmds, states) && k <= |cmds|
    ensures Sound(states[k])
  {
    if k == 0 {
      InitialIsSound(limit, period);
    } else {
      RunIsSound(limit, period, net, cmds, states, k - 1);
      StepIsSound(limit, period, net, cmds, states, k - 1);
    }
  }

  lemma StepIsSound(limit: nat, period: nat, net: Net, cmds: seq<Command>, states: seq<State>, k: nat)
    requires IsRun(limit, period, net, cmds, states) && k < |cmds| && Sound(states[k])
    ensures Sound(states[k + 1])
  {
    NextIsSound(states[k], cmds[k], net);
  }

  lemma InitialIsSound(limit: nat, period: nat)
    ensures Sound(Initial(limit, period))
  {
  }

  lemma ReachableIsSound(limit: nat, s: State)
    requires Reachable(limit, s)
    ensures Sound(s)
  {
    var period, net, cmds, states :| IsRun(limit, period, net, cmds, states) && s == states[|cmds|];
    RunIsSound(limit, period, net, cmds, states, |cmds|);
  }

  // ---- what every run guarantees ----

  /** Lock-step: on every run, whatever the links answer, whoever joined in the
      lobby and is still on that link is handed each in-game broadcast exactly
      once and in order. (For rejoined links see `LoadingRejoins`.) */
  lemma TurnsAreHandedOverExactlyOnce(limit: nat, s: State, i: nat)
    requires Reachable(limit, s)
    requires i < |s.players| && s.players[i].link.origin.Joined?
    ensures ExactlyOnce(s.players[i], s.trace.log)
  {
    ReachableIsSound(limit, s);
    assert SeatOk(s.players[i], s.trace.log);
    TrackedIsExact(s.players[i], s.trace.log);
  }

  /** Any two live clients that lost nothing saw the same packets. */
  lemma LiveClientsSawTheSame(limit: nat, s: State, i: nat, j: nat)
    requires Reachable(limit, s)
    requires i < |s.players| && Tracked(s.players[i].link) && Attached(s.players[i]) && Lossless(s.players[i].link.feed)
    requires j < |s.players| && Tracked(s.players[j].link) && Attached(s.players[j]) && Lossless(s.players[j].link.feed)
    ensures Delivered(s.players[i].link.feed) == Delivered(s.players[j].link.feed)
  {
    ReachableIsSound(limit, s);
    assert SeatOk(s.players[i], s.trace.log) && SeatOk(s.players[j], s.trace.log);
    TrackedIsExact(s.players[i], s.trace.log);
    TrackedIsExact(s.players[j], s.trace.log);
  }

  /** Every desync verdict of every run is about a turn for which two different
      players reported different checksums. */
  lemma VerdictsAreWitnessed(limit: nat, s: State, v: Verdict)
    requires Reachable(limit, s) && v in s.trace.verdicts
    ensures Contested(v.turn, s.trace.reports)
  {
    ReachableIsSound(limit, s);
  }

  /** No false desync: if the reported checksums are a function of the turn, no
      run ever reaches a verdict. */
  lemma HonestReportsNeverDesync(limit: nat, s: State, f: nat -> nat)
    requires Reachable(limit, s)
    requires forall r :: r in s.trace.reports ==> r.sum == f(r.turn)
    ensures s.trace.verdicts == []
  {
    if s.trace.verdicts != [] {
      VerdictsAreWitnessed(limit, s, s.trace.verdicts[0]);
      assert false;
    }
  }
}
