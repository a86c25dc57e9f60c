/** The game actor's state as the engine keeps it: an object whose handlers
    update its fields in place. Each handler is proved to compute the
    corresponding function of module Engine; `Run` shows that what is proved of
    reachable states holds of this object. */
module GameServer {
  import opened Basics
  import opened Packets
  import opened Histories
  import opened GProxy
  import opened Seats
  import opened Batching
  import opened Engine
  import opened EngineSafety
  import opened Verdicts

  class GameState {
    var phase: Phase
    var players: seq<Player>
    var game: Turns
    var actions: seq<Action>
    const fullHistory: FullHistory
    var fakePid: Option<nat>
    var hostPid: Option<nat>
    var startedLoading: bool
    var pendingFull: map<nat, (nat, nat)>
    ghost var trace: Trace
    var clock: nat
    const net: Net

    ghost function Model(): State
      reads this, fullHistory
    {
      State(phase, players, game, actions, fullHistory.Model(), fakePid, hostPid, startedLoading, pendingFull, trace, clock)
    }

    constructor (limit: nat, period: nat, net: Net)
      ensures Model() == Initial(limit, period) && this.net == net && fresh(fullHistory)
    {
      phase, players, game, actions := Lobby, [], Turns(0, 0, period, limit, false, 0), [];
      var h := new FullHistory.WithCap(FULL_HISTORY_CAP);
      fullHistory := h;
      fakePid, hostPid, startedLoading, pendingFull := None, None, false, map[];
      trace, clock := Trace([], [], [], [], []), 0;
      this.net := net;
    }

    /** `try_send` on a link, with the bookkeeping of a live send. */
    method TrySendLive(p: Player, pkt: Packet, turn: bool, r: Send) returns (q: Player)
      ensures q == p.Live(pkt, turn, r)
    {
      var answer := if p.link.open then r else Closed;
      match answer {
        case Ok => q := NoteSent(p, pkt, turn);
        case Backpressure => q := NoteRefused(p, pkt, turn);
        case Closed => q := NoteHungUp(p);
      }
    }

    method NoteSent(p: Player, pkt: Packet, turn: bool) returns (q: Player)
      ensures q == p.Sent(pkt, turn)
    {
      var gp := p.gp;
      if gp.Some? {
        gp := Some(gp.value.Receive(pkt));
      }
      q := p.(failures := 0, link := p.link.Fed(pkt, true, turn), gp := gp);
    }

    method NoteRefused(p: Player, pkt: Packet, turn: bool) returns (q: Player)
      ensures q == p.Refused(pkt, turn)
    {
      var gp := p.gp;
      if gp.Some? {
        gp := Some(gp.value.Taint());
      }
      q := p.(failures := SaturatingInc(p.failures), link := p.link.Fed(pkt, false, turn), gp := gp);
      if q.failures >= MAX_CONSECUTIVE_DROPS {
        q := q.(left := Some(QueueFull));
      }
    }

    method NoteHungUp(p: Player) returns (q: Player)
      ensures q == p.HungUp()
    {
      q := p.(link := p.link.(open := false));
      if p.gp.Some? {
        q := q.(disconnected := true);
      } else {
        q := q.(left := Some(ConnectionClosed));
      }
    }

    /** The body of the loop in `broadcast`. */
    method BroadcastTo(p: Player, pkt: Packet, turn: bool, r: Send) returns (q: Player)
      ensures q == p.OnBroadcast(pkt, turn, r)
    {
      q := p;
      if p.left.Some? || p.virtualHost {
        return;
      }
      if p.gp.Some? {
        q := q.(gp := Some(p.gp.value.Number(pkt)));
      }
      if p.rejoin == NoRejoin && p.cursor.None? && !p.disconnected {
        q := TrySendLive(q, pkt, turn, r);
      }
    }

    method Broadcast(pkt: Packet)
      modifies this, fullHistory
      ensures Model() == Engine.Broadcast(old(Model()), pkt, net)
    {
      var turn := phase.Playing?;
      if turn {
        fullHistory.Push(pkt);
        trace := trace.(log := trace.log + [pkt]);
      }
      ghost var before := players;
      var i := 0;
      while i < |players|
        invariant 0 <= i <= |players| == |before|
        invariant forall k :: 0 <= k < i ==> players[k] == before[k].OnBroadcast(pkt, turn, net(clock, before[k].pid, 0))
        invariant forall k :: i <= k < |players| ==> players[k] == before[k]
        modifies this`players
      {
        var q := BroadcastTo(players[i], pkt, turn, net(clock, players[i].pid, 0));
        players := players[i := q];
        i := i + 1;
      }
      assert players == Engine.Broadcast(old(Model()), pkt, net).players;
      clock := clock + 1;
    }

    method SendDirect(p: Player, pkt: Packet, r: Send) returns (q: Player)
      ensures q == p.OnDirect(pkt, r)
    {
      q := p;
      if p.left.Some? {
        return;
      }
      if p.gp.Some? {
        q := q.(gp := Some(p.gp.value.Number(pkt)));
      }
      if !p.disconnected {
        q := TrySendLive(q, pkt, false, r);
      }
    }

    method SendTo(pid: nat, pkt: Packet)
      modifies this
      ensures Model() == Engine.SendTo(old(Model()), pid, pkt, net)
    {
      var i := FindPid(pid);
      if i == |players| {
        return;
      }
      var q := SendDirect(players[i], pkt, net(clock, pid, 0));
      players := players[i := q];
      clock := clock + 1;
    }

    method FindPid(pid: nat) returns (i: nat)
      ensures i == ByPid(players, pid)
    {
      i := 0;
      while i < |players| && players[i].pid != pid
        invariant i <= |players|
        invariant forall k :: 0 <= k < i ==> players[k].pid != pid
      {
        i := i + 1;
      }
    }

    method FindConn(conn: nat) returns (i: nat)
      ensures i == ByConn(players, conn)
    {
      i := 0;
      while i < |players| && players[i].conn != conn
        invariant i <= |players|
        invariant forall k :: 0 <= k < i ==> players[k].conn != conn
      {
        i := i + 1;
      }
    }

    method SendAllTo(pid: nat, pkts: seq<Packet>)
      modifies this
      ensures Model() == Engine.SendAllTo(old(Model()), pid, pkts, net)
    {
      var k := 0;
      while k < |pkts|
        invariant 0 <= k <= |pkts|
        invariant Engine.SendAllTo(old(Model()), pid, pkts, net) == Engine.SendAllTo(Model(), pid, pkts[k..], net)
      {
        SendTo(pid, pkts[k]);
        assert pkts[k..][1..] == pkts[k + 1..];
        k := k + 1;
      }
    }

    method BroadcastAll(pkts: seq<Packet>)
      modifies this, fullHistory
      ensures Model() == Engine.BroadcastAll(old(Model()), pkts, net)
    {
      var k := 0;
      while k < |pkts|
        invariant 0 <= k <= |pkts|
        invariant Engine.BroadcastAll(old(Model()), pkts, net) == Engine.BroadcastAll(Model(), pkts[k..], net)
      {
        Broadcast(pkts[k]);
        assert pkts[k..][1..] == pkts[k + 1..];
        k := k + 1;
      }
    }

    method KickPlayer(pid: nat, reason: Reason, code: nat)
      modifies this`players
      ensures Model() == Kick(old(Model()), pid, reason, code)
    {
      var i := FindPid(pid);
      if i < |players| {
        players := players[i := players[i].(left := Some(reason), leftCode := code)];
      }
    }

    method SendChatAll(pkt: Packet)
      modifies this, fullHistory
      ensures Model() == ChatAll(old(Model()), pkt, net)
    {
      var i := 0;
      while i < |players| && !players[i].Present()
        invariant i <= |players|
        invariant forall k :: 0 <= k < i ==> !players[k].Present()
      {
        i := i + 1;
      }
      if i < |players| {
        Broadcast(pkt);
      }
    }

    /** Feeds each catching-up player from the history, respecting
        backpressure, and switches it to live when the cursor reaches the end. */
    method PumpRejoinCatchup()
      modifies this
      ensures Model() == Pump(old(Model()), net)
    {
      var next := fullHistory.NextSeq();
      var first := fullHistory.FirstSeq();
      ghost var before := players;
      ghost var h := fullHistory.Model();
      var i := 0;
      while i < |players|
        invariant 0 <= i <= |players| == |before|
        invariant forall k :: 0 <= k < i ==> players[k] == before[k].CatchUp(h, Answers(net, clock, before[k].pid))
        invariant forall k :: i <= k < |players| ==> players[k] == before[k]
        modifies this`players
      {
        var p := players[i];
        if p.cursor.Some? {
          if p.left.Some? {
            p := p.(cursor := None);
          } else if p.cursor.value < first {
            p := p.(left := Some(CatchUpEvicted), cursor := None);
          } else {
            p := FeedPlayer(p, next);
          }
          players := players[i := p];
        }
        i := i + 1;
      }
      assert players == Pump(old(Model()), net).players;
      clock := clock + 1;
    }

    method FeedPlayer(player: Player, next: nat) returns (p: Player)
      requires player.cursor.Some? && player.left.None?
      requires fullHistory.Model().FirstSeq() <= player.cursor.value && next == fullHistory.Model().NextSeq()
      ensures p == player.CatchUp(fullHistory.Model(), Answers(net, clock, player.pid))
    {
      p := player;
      var cur := player.cursor.value;
      var pending := fullHistory.SnapshotFromSeq(cur);
      ghost var r := Answers(net, clock, player.pid);
      var k := 0;
      var stopped := false;
      while k < |pending| && !stopped
        invariant 0 <= k <= |pending|
        invariant stopped ==> (p, cur) == player.Feed(pending, player.cursor.value, r, 0)
        invariant !stopped ==> player.Feed(pending, player.cursor.value, r, 0) == p.Feed(pending[k..], cur, r, k)
        decreases |pending| - k, !stopped
      {
        var answer := if p.link.open then net(clock, player.pid, k) else Closed;
        match answer {
          case Ok =>
            assert pending[k..][1..] == pending[k + 1..];
            p := p.Take(pending[k]);
            cur := cur + 1;
            k := k + 1;
          case Backpressure =>
            stopped := true;
          case Closed =>
            var alreadyGone := p.gp.None? || p.disconnected;
            p := p.(link := p.link.(open := false), cursor := None);
            if alreadyGone {
              p := p.(left := Some(ClosedDuringCatchUp));
            } else {
              p := p.(disconnected := true);
            }
            stopped := true;
        }
      }
      if p.cursor.Some? {
        if cur >= next {
          p := p.(cursor := None, pace := p.pace.(catchingUp := true));
        } else {
          p := p.(cursor := Some(cur));
        }
      }
    }

    // ---- desync detection ----

    method PopFronts(parts: seq<nat>, ghost idx: seq<nat>)
      requires UniquePids(players) && Ascending(idx, |players|) && parts == PidsAt(players, idx)
      modifies this`players
      ensures |players| == |old(players)|
      ensures forall i :: 0 <= i < |players| ==>
                players[i] == if i in idx then PopFront(old(players)[i]) else old(players)[i]
    {
      ghost var before := players;
      var k := 0;
      while k < |parts|
        invariant 0 <= k <= |parts| && |players| == |before|
        invariant forall i :: 0 <= i < |players| ==>
                    players[i] == if i in idx[..k] then PopFront(before[i]) else before[i]
      {
        UniqueByPid(players, idx[k]);
        var i := FindPid(parts[k]);
        assert i !in idx[..k];
        if players[i].pace.checksums != [] {
          players := players[i := players[i].(pace := players[i].pace.(checksums := players[i].pace.checksums[1..]))];
        }
        assert idx[..k + 1] == idx[..k] + [i];
        k := k + 1;
      }
      assert idx[..|idx|] == idx;
    }

    method KickEach(pids: seq<nat>)
      requires UniquePids(players)
      modifies this`players
      ensures Dropped(old(players), players, PidSet(pids))
    {
      ghost var before := players;
      var k := 0;
      while k < |pids|
        invariant 0 <= k <= |pids|
        invariant Dropped(before, players, PidSet(pids[..k]))
      {
        ghost var was := players;
        assert UniquePids(was);
        KickOne(pids[k]);
        DroppedTwice(before, was, players, PidSet(pids[..k]), {pids[k]});
        assert pids[..k + 1] == pids[..k] + [pids[k]];
        assert PidSet(pids[..k + 1]) == PidSet(pids[..k]) + {pids[k]};
        k := k + 1;
      }
      assert pids[..|pids|] == pids;
    }

    method KickOne(pid: nat)
      requires UniquePids(players)
      modifies this`players
      ensures Dropped(old(players), players, {pid})
    {
      ghost var was := players;
      KickPlayer(pid, Desynced, PLAYERLEAVE_LOST);
      forall i | 0 <= i < |was| ensures players[i] == DropIf(was[i], was[i].pid in {pid}) {
        UniqueByPid(was, i);
      }
    }

    /** Drops every group but `largest`, visiting the groups in any order. */
    method KickOthers(bins: map<nat, seq<nat>>, largest: nat)
      requires UniquePids(players)
      modifies this`players
      ensures Dropped(old(players), players, set sum, pid | sum in bins && sum != largest && pid in bins[sum] :: pid)
    {
      ghost var before := players;
      var rest := bins.Keys;
      ghost var out: set<nat> := {};
      while rest != {}
        invariant rest <= bins.Keys
        invariant out == set sum, pid | sum in bins && sum !in rest && sum != largest && pid in bins[sum] :: pid
        invariant Dropped(before, players, out)
      {
        var sum :| sum in rest;
        rest := rest - {sum};
        if sum != largest {
          ghost var was := players;
          assert UniquePids(was);
          KickEach(bins[sum]);
          DroppedTwice(before, was, players, out, PidSet(bins[sum]));
          out := out + PidSet(bins[sum]);
        }
      }
    }

    /** Kicks the tied, or everyone outside the largest group. */
    method Condemn(parts: seq<nat>, bins: map<nat, seq<nat>>, largest: nat, tied: bool, ghost ps: seq<Player>, turn: nat)
      requires UniquePids(ps) && parts == PidsAt(ps, ParticipantsAt(ps, turn))
      requires IsTally(ps, ParticipantsAt(ps, turn), bins)
      requires forall sum :: !tied && sum in bins ==> (Largest(bins, sum) <==> sum == largest)
      requires forall sum :: tied ==> !Largest(bins, sum)
      requires SamePids(ps, players)
      modifies this`players
      ensures SamePids(ps, players)
      ensures forall i :: 0 <= i < |players| ==>
                players[i] == DropIf(old(players)[i], Condemned(ps, turn, ps[i]))
    {
      ghost var out: set<nat>;
      if tied {
        KickEach(parts);
        out := PidSet(parts);
      } else {
        KickOthers(bins, largest);
        out := set sum, pid | sum in bins && sum != largest && pid in bins[sum] :: pid;
      }
      forall i | 0 <= i < |ps| ensures ps[i].pid in out <==> Condemned(ps, turn, ps[i]) {
        OutIsCondemned(ps, turn, bins, largest, tied, i);
      }
    }

    method Judge(parts: seq<nat>, turn: nat)
      requires UniquePids(players) && parts == PidsAt(players, ParticipantsAt(players, turn))
      modifies this, fullHistory
      ensures Model() == Engine.Judge(old(Model()), turn, net)
    {
      ghost var before := players;
      var bins, largest, tied := Vote(players, parts, turn);
      SendChatAll(Chat("Desync detected!"));
      ChatKeepsPids(old(Model()), Chat("Desync detected!"), net);
      CarryOut(parts, bins, largest, tied, before, turn);
      trace := trace.(verdicts := trace.verdicts + [Verdict(turn, CondemnedPids(before, turn, before))]);
    }

    /** Drops the condemned and pops the turn from the participants' queues. */
    method CarryOut(parts: seq<nat>, bins: map<nat, seq<nat>>, largest: nat, tied: bool, ghost ps: seq<Player>, turn: nat)
      requires UniquePids(ps) && parts == PidsAt(ps, ParticipantsAt(ps, turn))
      requires IsTally(ps, ParticipantsAt(ps, turn), bins)
      requires forall sum :: !tied && sum in bins ==> (Largest(bins, sum) <==> sum == largest)
      requires forall sum :: tied ==> !Largest(bins, sum)
      requires SamePids(ps, players)
      modifies this`players
      ensures players == Sentence(ps, turn, old(players))
    {
      ghost var idx := ParticipantsAt(ps, turn);
      ParticipantsAtLists(ps, turn);
      ghost var now := players;
      Condemn(parts, bins, largest, tied, ps, turn);
      assert PidsAt(players, idx) == parts;
      PopFronts(parts, idx);
      assert players == Sentence(ps, turn, now);
    }

    /** One round of the loop in `check_desync`; says whether to go on. */
    method DesyncRound() returns (again: bool)
      requires UniquePids(players)
      modifies this, fullHistory
      ensures again ==> UniquePids(players) && Queued(players) < old(Queued(players))
      ensures again ==> Engine.CheckDesync(old(Model()), net) == Engine.CheckDesync(Model(), net)
      ensures !again ==> Model() == Engine.CheckDesync(old(Model()), net)
    {
      var active, min := CollectActive(players);
      ActiveAtLists(players);
      if |active| < 2 {
        ClearActiveQueues();
        return false;
      }
      if min.None? {
        return false;
      }
      var late := AwaitingSomeone(players, active, min.value);
      if late {
        return false;
      }
      var parts, desync := CollectParticipants(players, active, min.value);
      if desync {
        Judge(parts, min.value);
        return false;
      }
      PopAgreed(parts, min.value);
      return true;
    }

    /** The agreed turn leaves the participants' queues. */
    method PopAgreed(parts: seq<nat>, turn: nat)
      requires UniquePids(players) && parts == PidsAt(players, ParticipantsAt(players, turn)) && MinTurn(players) == Some(turn)
      modifies this`players
      ensures players == PopTurn(old(players), turn)
      ensures UniquePids(players) && Queued(players) < Queued(old(players))
    {
      ParticipantsAtLists(players, turn);
      MinTurnIsLowest(players);
      PopTurnShrinks(players, turn);
      ghost var before := players;
      PopFronts(parts, ParticipantsAt(players, turn));
      assert players == PopTurn(before, turn);
    }

    method CheckDesync()
      requires UniquePids(players)
      modifies this, fullHistory
      ensures Model() == Engine.CheckDesync(old(Model()), net)
    {
      var again := true;
      while again
        invariant again ==> UniquePids(players) && Engine.CheckDesync(old(Model()), net) == Engine.CheckDesync(Model(), net)
        invariant !again ==> Model() == Engine.CheckDesync(old(Model()), net)
        decreases again, Queued(players)
      {
        again := DesyncRound();
      }
    }

    method ClearActiveQueues()
      modifies this`players
      ensures players == MapPlayers(old(players), ClearActive)
    {
      ghost var before := players;
      var i := 0;
      while i < |players|
        invariant 0 <= i <= |players| == |before|
        invariant forall k :: 0 <= k < i ==> players[k] == ClearActive(before[k])
        invariant forall k :: i <= k < |players| ==> players[k] == before[k]
      {
        if Active(players[i]) {
          players := players[i := players[i].(pace := players[i].pace.(checksums := []))];
        }
        i := i + 1;
      }
    }

    method CountKeepalive(p: Player, sum: nat) returns (q: Player)
      ensures q == p.OnKeepalive(sum, game.sync)
    {
      var pace := p.pace.(sync := SaturatingInc(p.pace.sync));
      if pace.catchingUp {
        if pace.sync >= game.sync {
          pace := pace.(catchingUp := false, paced := pace.paced || (p.rejoin == NoRejoin && p.cursor.None?));
        }
      } else {
        if |pace.checksums| >= MAX_QUEUED_CHECKSUMS {
          pace := pace.(checksums := pace.checksums[1..]);
        }
        pace := pace.(checksums := pace.checksums + [Checksum(pace.sync, sum)]);
      }
      q := p.(pace := pace);
    }

    method HandleKeepalive(conn: nat, sum: nat)
      requires UniquePids(players)
      modifies this, fullHistory
      ensures Model() == Engine.HandleKeepalive(old(Model()), conn, sum, net)
    {
      if !phase.Playing? {
        return;
      }
      var i := FindConn(conn);
      if i < |players| {
        var q := CountKeepalive(players[i], sum);
        if !players[i].pace.catchingUp {
          trace := trace.(reports := trace.reports + [Report(players[i].pid, q.pace.sync, sum)]);
        }
        players := players[i := q];
      }
      CheckDesync();
    }

    // ---- lag ----

    /** The hysteresis loop of `check_lag`. */
    method UpdateLag() returns (recovered: seq<Packet>, newly: seq<nat>)
      modifies this`players
      ensures players == LagUpdateAll(game, old(players))
      ensures recovered == StopLags(game, old(players)) && newly == NewLaggers(game, old(players))
    {
      recovered, newly := [], [];
      ghost var before := players;
      var i := 0;
      while i < |players|
        invariant 0 <= i <= |players| == |before|
        invariant forall k :: 0 <= k < i ==> players[k] == LagUpdate(game, before[k])
        invariant forall k :: i <= k < |players| ==> players[k] == before[k]
        invariant recovered == StopLags(game, before[..i]) && newly == NewLaggers(game, before[..i])
      {
        assert Most(before[..i + 1]) == before[..i] && Last(before[..i + 1]) == players[i];
        var q, stop, begin := UpdateLagOf(players[i]);
        recovered, newly := recovered + stop, newly + begin;
        players := players[i := q];
        i := i + 1;
      }
      assert before[..|before|] == before;
    }

    /** The body of that loop. */
    method UpdateLagOf(p: Player) returns (q: Player, recovered: seq<Packet>, newly: seq<nat>)
      ensures q == LagUpdate(game, p)
      ensures recovered == if Recovers(game, p) then [StopLag(p.pid)] else []
      ensures newly == if StartsLagging(game, p) then [p.pid] else []
    {
      q, recovered, newly := p, [], [];
      if Checked(p) {
        var behind := SaturatingSub(game.sync, p.pace.sync);
        if p.pace.lagging {
          if behind < game.limit / 2 {
            q := p.(pace := p.pace.(lagging := false));
            recovered := [StopLag(p.pid)];
          }
        } else if behind > game.limit {
          q := p.(pace := p.pace.(lagging := true));
          newly := [p.pid];
        }
      }
    }

    /** Who is on the lag screen, and whether anyone is at all. */
    method ListLaggers() returns (any: bool, late: seq<nat>)
      ensures any <==> AnyLagging(players)
      ensures late == Laggers(players)
    {
      any, late := false, [];
      var i := 0;
      while i < |players|
        invariant 0 <= i <= |players|
        invariant any <==> AnyLagging(players[..i])
        invariant late == Laggers(players[..i])
      {
        var p := players[i];
        assert Most(players[..i + 1]) == players[..i] && Last(players[..i + 1]) == p;
        AnyLaggingSnoc(players, i);
        if p.pace.lagging && !p.virtualHost {
          any := true;
        }
        if p.pace.lagging && p.left.None? && !p.virtualHost {
          late := late + [p.pid];
        }
        i := i + 1;
      }
      assert players[..|players|] == players;
    }

    method CheckLag(reset: bool) returns (any: bool)
      modifies this, fullHistory
      ensures Model() == Engine.CheckLag(old(Model()), reset, net)
      ensures any == game.lagging
    {
      var recovered, newly := UpdateLag();
      BroadcastAll(recovered + (if newly == [] then [] else [StartLag(newly)]));
      var late;
      any, late := ListLaggers();
      game := game.(lagging := any);
      if any && reset && late != [] {
        var stops := seq(|late|, i requires 0 <= i < |late| => StopLag(late[i]));
        ghost var u := Model();
        BroadcastAll(stops + [IncomingAction([], 0), StartLag(late)]);
        BroadcastAllKeepsTurns(u, stops + [IncomingAction([], 0), StartLag(late)], net);
      }
    }

    method DropLaggingPlayers(timedOut: set<nat>)
      modifies this`players
      ensures Model() == Engine.DropLagging(old(Model()), timedOut)
    {
      ghost var before := players;
      var i := 0;
      while i < |players|
        invariant 0 <= i <= |players| == |before|
        invariant forall k :: 0 <= k < i ==> players[k] == DropLagging(old(Model()), timedOut).players[k]
        invariant forall k :: i <= k < |players| ==> players[k] == before[k]
      {
        var p := players[i];
        if Checked(p) && p.pace.lagging && !p.disconnected && p.pid in timedOut {
          players := players[i := p.(left := Some(LaggedOut), leftCode := PLAYERLEAVE_DISCONNECT)];
        }
        i := i + 1;
      }
      assert players == DropLagging(old(Model()), timedOut).players;
    }

    // ---- one turn ----

    /** Sends and records one full batch. */
    method SendOverflow(batch: seq<Action>)
      modifies this, fullHistory
      ensures Model() == Recorded(Engine.Broadcast(old(Model()), IncomingAction2(batch), net),
                                  [IncomingAction2(batch)], [Timeslot2(batch)])
    {
      Broadcast(IncomingAction2(batch));
      trace := trace.(relayed := trace.relayed + [IncomingAction2(batch)], recorded := trace.recorded + [Timeslot2(batch)]);
    }

    /** The loop of `send_all_actions`: sends every full batch and returns the
        one left over. */
    method SendFullBatches(queued: seq<Action>) returns (batch: seq<Action>, ghost sent: seq<seq<Action>>)
      modifies this, fullHistory
      ensures Model() == AfterOverflows(old(Model()), sent, net)
      ensures sent + [batch] == Cut(queued, [])
    {
      ghost var start, all := Model(), Cut(queued, []);
      var batchLen := 0;
      batch, sent := [], [];
      var k := 0;
      NothingBatched(queued);
      while k < |queued|
        invariant 0 <= k <= |queued|
        invariant batchLen == Size(batch) && CutSoFar(queued, k, batch, sent, all)
        invariant Model() == AfterOverflows(start, sent, net)
      {
        ghost var was, before := batch, sent;
        batch, batchLen, sent := AddToBatch(queued[k], batch, batchLen, start, sent);
        OneMoreBatched(queued, k, was, before, batch, sent, all);
        k := k + 1;
      }
      AllBatched(queued, batch, sent, all);
    }

    /** Sends the batch first if the action no longer fits. */
    method AddToBatch(action: Action, full: seq<Action>, fullLen: nat, ghost start: State, ghost before: seq<seq<Action>>)
      returns (batch: seq<Action>, batchLen: nat, ghost sent: seq<seq<Action>>)
      requires fullLen == Size(full) && Model() == AfterOverflows(start, before, net)
      modifies this, fullHistory
      ensures batchLen == Size(batch) && Model() == AfterOverflows(start, sent, net)
      ensures if fullLen + action.WireLen() > MAX_ACTION_PAYLOAD && full != []
              then sent == before + [full] && batch == [action]
              else sent == before && batch == full + [action]
    {
      batch, batchLen, sent := full, fullLen, before;
      SizeConcat(full, [action]);
      SizeConcat([], [action]);
      if batchLen + action.WireLen() > MAX_ACTION_PAYLOAD && batch != [] {
        SendOverflow(batch);
        OverflowsSnoc(start, sent, batch, net);
        sent := sent + [batch];
        batch, batchLen := [], 0;
      }
      batchLen := batchLen + action.WireLen();
      batch := batch + [action];
    }

    method SendAllActions(skipped: nat, winner: Option<Packet>)
      modifies this, fullHistory
      ensures Model() == Engine.SendAllActions(old(Model()), skipped, winner, net)
    {
      var elapsed := Min(game.period * (skipped + 1), U32_MAX);
      var interval := Min(elapsed, U16_MAX);
      game := game.(ticks := WrappingAdd(game.ticks, elapsed), sync := WrappingAdd(game.sync, 1), turns := game.turns + 1);
      var queued := actions;
      actions := [];
      ghost var start := Model();
      var batch, sent := SendFullBatches(queued);
      FinishTurn(batch, interval, winner, start, sent);
      TurnIsSendAllActions(old(Model()), skipped, winner, start, sent, batch, net);
    }

    /** The tail of `send_all_actions`: the winner notice, then the closing
        packet of the turn. */
    method FinishTurn(batch: seq<Action>, interval: nat, winner: Option<Packet>, ghost start: State, ghost sent: seq<seq<Action>>)
      requires Model() == AfterOverflows(start, sent, net)
      modifies this, fullHistory
      ensures Model() == Turn(start, sent, batch, interval, winner, net)
    {
      var last := IncomingAction(batch, interval);
      ghost var slot := Timeslot(batch, interval);
      if winner.Some? {
        SendChatAll(winner.value);
      }
      Broadcast(last);
      trace := trace.(relayed := trace.relayed + [last], recorded := trace.recorded + [slot]);
      TurnRecorded(start, sent, batch, interval, winner, net);
    }

    method FakeSync()
      modifies this`players
      ensures Model() == Engine.FakeSync(old(Model()))
    {
      if fakePid.Some? {
        var i := FindPid(fakePid.value);
        if i < |players| {
          players := players[i := players[i].(pace := players[i].pace.(sync := game.sync))];
        }
      }
    }

    method CountPresent() returns (n: nat)
      ensures n == 0 <==> !HasAudience(Model())
    {
      n := 0;
      var i := 0;
      while i < |players|
        invariant 0 <= i <= |players|
        invariant n == 0 <==> forall k :: 0 <= k < i ==> !players[k].Present()
      {
        if players[i].left.None? && !players[i].virtualHost {
          n := n + 1;
        }
        i := i + 1;
      }
    }

    method LeaveAll(reason: Reason)
      modifies this`players
      ensures players == Engine.LeaveAll(old(players), reason)
    {
      ghost var before := players;
      var i := 0;
      while i < |players|
        invariant 0 <= i <= |players| == |before|
        invariant forall k :: 0 <= k < i ==> players[k] == Engine.LeaveAll(before, reason)[k]
        invariant forall k :: i <= k < |players| ==> players[k] == before[k]
      {
        if players[i].left.None? && !players[i].virtualHost {
          players := players[i := players[i].(left := Some(reason), leftCode := PLAYERLEAVE_DISCONNECT)];
        }
        i := i + 1;
      }
    }

    /** The Playing arm of `on_tick` up to the lag check. */
    method PrepareTurn(input: TickInput) returns (lagging: bool)
      requires Sound(Model())
      modifies this, fullHistory
      ensures Model() == BeforeTurn(old(Model()), input, net) && lagging == game.lagging
    {
      PumpIsSound(Model(), net);
      PumpRejoinCatchup();
      FakeSyncIsSound(Model());
      FakeSync();
      CheckDesync();
      lagging := CheckLag(input.resetScreen);
    }

    method EndWhenEmpty(input: TickInput)
      modifies this`phase
      ensures Model() == EndIfEmpty(old(Model()), input)
    {
      var n := CountPresent();
      if n == 0 && input.noneReconnectable && (phase.Playing? || phase.Loading?) {
        phase := Over;
      }
    }

    /** The Playing arm of `on_tick`. */
    method PlayTick(input: TickInput)
      requires Sound(Model()) && phase.Playing?
      modifies this, fullHistory
      ensures Model() == Engine.PlayTick(old(Model()), input, net) && Sound(Model())
    {
      PlayTickIsSound(Model(), input, net);
      var lagging := PrepareTurn(input);
      if lagging {
        DropLaggingPlayers(input.lagTimedOut);
        return;
      }
      var notice := if input.winner.Some? then Some(Chat(input.winner.value)) else None;
      SendAllActions(input.skipped, notice);
      if input.gameOver {
        LeaveAll(GameOverTimer);
      }
      EndWhenEmpty(input);
    }

    // ---- rejoining, loading and leaving ----

    method CollectOthers(pid: nat) returns (pids: seq<nat>)
      ensures pids == Others(players, pid)
    {
      pids := [];
      var i := 0;
      while i < |players|
        invariant 0 <= i <= |players|
        invariant pids == Others(players[..i], pid)
      {
        assert Most(players[..i + 1]) == players[..i] && Last(players[..i + 1]) == players[i];
        if players[i].pid != pid && !players[i].virtualHost && players[i].left.None? {
          pids := pids + [players[i].pid];
        }
        i := i + 1;
      }
      assert players[..|players|] == players;
    }

    method TryFullRejoin(conn: nat, name: string) returns (accepted: bool)
      modifies this
      ensures accepted == RejoinAccepted(old(Model()), conn, name)
      ensures Model() == Engine.TryFullRejoin(old(Model()), conn, name, net)
    {
      accepted := MayRejoin(conn, name);
      if !accepted {
        return;
      }
      var pid := pendingFull[conn].0;
      var i := FindPid(pid);
      var p := Readmit(players[i], conn);
      players := players[i := p];
      pendingFull := pendingFull - {conn};
      clock := clock + 1;
      var others := CollectOthers(pid);
      SendAllTo(pid, [SlotInfoJoin(pid)] + InfoPackets(others) + [MapCheck]);
    }

    /** The guards of a FULL rejoin. */
    method MayRejoin(conn: nat, name: string) returns (accepted: bool)
      ensures accepted == RejoinAccepted(Model(), conn, name)
    {
      if !(phase.Playing? || phase.Loading?) || conn !in pendingFull {
        return false;
      }
      var (pid, key) := pendingFull[conn];
      var i := FindPid(pid);
      if i == |players| {
        return false;
      }
      var p := players[i];
      return p.disconnected && p.left.None? && SameName(p.name, name) && p.key == key;
    }

    /** The seat handed to the new connection. */
    method Readmit(player: Player, conn: nat) returns (p: Player)
      ensures p == player.Rejoin(conn, clock)
    {
      p := player.(conn := conn, link := Link(Rejoined(clock), true, []), disconnected := false, left := None,
                   failures := 0, loaded := false, rejoin := AwaitingMapSize);
      p := p.(pace := p.pace.(sync := 0, checksums := [], lagging := false, paced := false));
      if p.gp.Some? {
        p := p.(gp := Some(p.gp.value.Taint()));
      }
    }

    method GpsReconnect(conn: nat, pid: nat, key: nat, last: nat) returns (accepted: bool)
      modifies this
      ensures accepted == ReconnectAccepted(old(Model()), pid, key, last)
      ensures Model() == Engine.GpsReconnect(old(Model()), conn, pid, key, last, net)
    {
      var i := FindPid(pid);
      if i == |players| || players[i].gp.None? || players[i].key != key {
        return false;
      }
      var p := players[i];
      var found := p.gp.value.buffer.ReplayFrom(last);
      if found.None? {
        return false;
      }
      ghost var r := Answers(net, clock, pid);
      p := p.(conn := conn, link := Link(Reconnected(clock), true, []), disconnected := false, left := None,
              gp := Some(p.gp.value.Rewind(last)));
      if net(clock, pid, 0) == Closed {
        p := p.(link := p.link.(open := false));
      }
      ghost var q := p.Resend(found.value, r, 1);
      assert q == old(players[i]).Reconnect(conn, clock, last, found.value, r);
      p := ResendTo(p, found.value, clock, pid);
      players := players[i := p];
      clock := clock + 1;
      return true;
    }

    method ResendTo(player: Player, replay: seq<Packet>, round: nat, pid: nat) returns (p: Player)
      requires player.gp.Some?
      ensures p == player.Resend(replay, Answers(net, round, pid), 1)
    {
      p := player;
      ghost var r := Answers(net, round, pid);
      var k := 0;
      while k < |replay|
        invariant 0 <= k <= |replay| && p.gp.Some?
        invariant player.Resend(replay, r, 1) == p.Resend(replay[k..], r, k + 1)
      {
        var answer := if p.link.open then net(round, pid, k + 1) else Closed;
        assert replay[k..][1..] == replay[k + 1..];
        match answer {
          case Ok =>
            p := p.(gp := Some(p.gp.value.Receive(replay[k])));
          case Backpressure =>
            return p.(gp := Some(p.gp.value.Taint()));
          case Closed =>
            return p.(link := p.link.(open := false));
        }
        k := k + 1;
      }
    }

    method ChatEach(pkts: seq<Packet>)
      modifies this, fullHistory
      ensures Model() == Engine.ChatEach(old(Model()), pkts, net)
    {
      var k := 0;
      while k < |pkts|
        invariant 0 <= k <= |pkts|
        invariant Engine.ChatEach(old(Model()), pkts, net) == Engine.ChatEach(Model(), pkts[k..], net)
      {
        SendChatAll(pkts[k]);
        assert pkts[k..][1..] == pkts[k + 1..];
        k := k + 1;
      }
    }

    /** Resets every seat for the first turn; returns the humans' pids. */
    method ResetSeats() returns (humans: seq<nat>)
      modifies this`players
      ensures players == MapPlayers(old(players), ResetForPlay)
      ensures humans == HumanPids(players)
    {
      humans := [];
      ghost var before := players;
      var i := 0;
      while i < |players|
        invariant 0 <= i <= |players| == |before|
        invariant forall k :: 0 <= k < i ==> players[k] == ResetForPlay(before[k])
        invariant forall k :: i <= k < |players| ==> players[k] == before[k]
        invariant humans == HumanPids(players[..i])
      {
        ghost var done := players[..i];
        players := players[i := ResetForPlay(players[i])];
        assert Most(players[..i + 1]) == done && Last(players[..i + 1]) == players[i];
        if !players[i].virtualHost {
          humans := humans + [players[i].pid];
        }
        i := i + 1;
      }
      assert players[..|players|] == players;
    }

    method BeginPlaying()
      modifies this, fullHistory
      ensures Model() == Engine.BeginPlaying(old(Model()), net)
    {
      var announce := startedLoading;
      phase, startedLoading := Playing, false;
      var humans := ResetSeats();
      game := game.(sync := 0, ticks := 0, turns := 0);
      if announce {
        ChatEach([Chat("shortest load"), Chat("longest load")]);
        ghost var t := Model();
        var k := 0;
        while k < |humans|
          invariant 0 <= k <= |humans|
          invariant Engine.LoadTimes(t, humans, net) == Engine.LoadTimes(Model(), humans[k..], net)
        {
          SendTo(humans[k], Chat("load time"));
          assert humans[k..][1..] == humans[k + 1..];
          k := k + 1;
        }
      }
    }

    method AllAreLoaded(humansOnly: bool) returns (all: bool)
      ensures all <==> if humansOnly then HumansLoaded(players) else AllLoaded(players)
    {
      var i := 0;
      while i < |players|
        invariant 0 <= i <= |players|
        invariant forall k :: 0 <= k < i && !(humansOnly && players[k].virtualHost) ==> players[k].loaded
      {
        if !players[i].loaded && !(humansOnly && players[i].virtualHost) {
          return false;
        }
        i := i + 1;
      }
      return true;
    }

    method ArmCursor(pid: nat)
      modifies this`players
      ensures Model() == Engine.ArmCursor(old(Model()), pid)
    {
      var start := fullHistory.FirstSeq();
      var i := FindPid(pid);
      if i < |players| {
        var p := players[i];
        players := players[i := p.(loaded := true, rejoin := NoRejoin, cursor := Some(start),
                                   pace := p.pace.(catchingUp := true, paced := false))];
      }
    }

    method HandleLoaded(conn: nat)
      modifies this, fullHistory
      ensures Model() == Engine.HandleLoaded(old(Model()), conn, net)
    {
      var i := FindConn(conn);
      if i == |players| {
        return;
      }
      var pid := players[i].pid;
      if players[i].rejoin == AwaitingLoaded {
        var start := fullHistory.FirstSeq();
        if start > 0 {
          players := players[i := players[i].(rejoin := NoRejoin, left := Some(HistoryTooLong),
                                              leftCode := PLAYERLEAVE_DISCONNECT)];
        } else {
          var others := CollectOthers(pid);
          SendAllTo(pid, LoadedPackets(others));
          ArmCursor(pid);
          Broadcast(GameLoadedOthers(pid));
        }
        return;
      }
      players := players[i := players[i].(loaded := true)];
      Broadcast(GameLoadedOthers(pid));
      var all := AllAreLoaded(false);
      if all {
        BeginPlaying();
      }
    }

    method CollectGone() returns (gone: seq<(nat, nat)>)
      ensures gone == Gone(players)
    {
      gone := [];
      var i := 0;
      while i < |players|
        invariant 0 <= i <= |players|
        invariant gone == Gone(players[..i])
      {
        assert Most(players[..i + 1]) == players[..i] && Last(players[..i + 1]) == players[i];
        if !players[i].virtualHost && players[i].left.Some? {
          gone := gone + [(players[i].pid, players[i].leftCode)];
        }
        i := i + 1;
      }
      assert players[..|players|] == players;
    }

    method RemovePlayer(pid: nat, code: nat)
      modifies this, fullHistory
      ensures Model() == ReapOne(old(Model()), pid, code, net)
    {
      var i := FindPid(pid);
      if i < |players| {
        players := players[..i] + players[i + 1..];
      }
      Broadcast(PlayerLeaveOthers(pid, code));
      if phase.Lobby? {
        Broadcast(Opaque(2));
      }
    }

    method ReapLeftPlayers()
      modifies this, fullHistory
      ensures Model() == Reap(old(Model()), net)
    {
      var gone := CollectGone();
      if gone == [] {
        return;
      }
      if phase.Countdown? {
        phase := Lobby;
        SendChatAll(Chat("Countdown aborted."));
      }
      ghost var t := Model();
      assert t == AbortCountdown(old(Model()), net);
      var k := 0;
      while k < |gone|
        invariant 0 <= k <= |gone|
        invariant ReapEach(t, gone, net) == ReapEach(Model(), gone[k..], net)
      {
        RemovePlayer(gone[k].0, gone[k].1);
        assert gone[k..][1..] == gone[k + 1..];
        k := k + 1;
      }
      if phase.Loading? && players != [] {
        var all := AllAreLoaded(true);
        if all {
          BeginPlaying();
        }
      }
    }

    // ---- the lobby ----

    method LowestFreePid() returns (free: Option<nat>)
      ensures free == NextFreePid(players, 1)
    {
      var pid := 1;
      while pid <= 254
        invariant 1 <= pid <= 255
        invariant NextFreePid(players, 1) == NextFreePid(players, pid)
      {
        var i := FindPid(pid);
        if i == |players| {
          return Some(pid);
        }
        pid := pid + 1;
      }
      return None;
    }

    method HasName(name: string) returns (taken: bool)
      ensures taken <==> NameTaken(players, name)
    {
      var i := 0;
      while i < |players|
        invariant 0 <= i <= |players|
        invariant forall k :: 0 <= k < i ==> !SameName(players[k].name, name)
      {
        if SameName(players[i].name, name) {
          return true;
        }
        i := i + 1;
      }
      return false;
    }

    method CountHumans() returns (n: nat)
      ensures n == HumanCount(players)
    {
      n := 0;
      var i := 0;
      while i < |players|
        invariant 0 <= i <= |players|
        invariant n == HumanCount(players[..i])
      {
        assert Most(players[..i + 1]) == players[..i] && Last(players[..i + 1]) == players[i];
        if !players[i].virtualHost {
          n := n + 1;
        }
        i := i + 1;
      }
      assert players[..|players|] == players;
    }

    /** Tells every seated player, past the resend buffers. */
    method TellAll(pkt: Packet)
      modifies this
      ensures Model() == Engine.TellAll(old(Model()), pkt, net)
    {
      ghost var before := players;
      var i := 0;
      while i < |players|
        invariant 0 <= i <= |players| == |before|
        invariant forall k :: 0 <= k < i ==> players[k] == before[k].Told(pkt, net(clock, before[k].pid, 0))
        invariant forall k :: i <= k < |players| ==> players[k] == before[k]
        modifies this`players
      {
        var q := TellPlayer(players[i], pkt, net(clock, players[i].pid, 0));
        players := players[i := q];
        i := i + 1;
      }
      assert players == Engine.TellAll(old(Model()), pkt, net).players;
      clock := clock + 1;
    }

    method TellPlayer(p: Player, pkt: Packet, r: Send) returns (q: Player)
      ensures q == p.Told(pkt, r)
    {
      q := p;
      if p.link.open && r == Ok && p.gp.Some? {
        q := q.(gp := Some(p.gp.value.Stray(pkt)));
      }
      if r == Closed {
        q := q.(link := p.link.(open := false));
      }
    }

    method Join(conn: nat, name: string, key: nat, slot: bool)
      modifies this, fullHistory
      ensures Model() == Engine.Join(old(Model()), conn, name, key, slot, net)
    {
      var taken := HasName(name);
      var free := LowestFreePid();
      if !phase.Lobby? || taken || !slot || free.None? {
        return;
      }
      var pid := free.value;
      var round := clock;
      if net(round, pid, 0) != Ok {
        clock := clock + 1;
        return;
      }
      TellAll(PlayerInfo(pid));
      Admit(NewPlayer(pid, conn, name, key, Link(Joined(round), net(round, pid, 1) != Closed, [])));
    }

    /** Seats a player; a full game needs no virtual host. */
    method Admit(p: Player)
      modifies this, fullHistory
      ensures Model() == Admitted(old(Model().(players := players + [p])), net)
    {
      Seat(p);
      Broadcast(Opaque(2));
      var humans := CountHumans();
      if humans >= MAX_SLOTS - 1 {
        DropVirtualHost();
      }
    }

    method Seat(p: Player)
      modifies this`players
      ensures players == old(players) + [p]
    {
      players := players + [p];
    }

    method DropVirtualHost()
      modifies this, fullHistory
      ensures Model() == Engine.DropVirtualHost(old(Model()), net)
    {
      if hostPid.None? {
        return;
      }
      var pid := hostPid.value;
      hostPid := None;
      Unseat(pid);
      Broadcast(PlayerLeaveOthers(pid, PLAYERLEAVE_LOBBY));
    }

    method Unseat(pid: nat)
      modifies this`players
      ensures players == Without(old(players), pid)
    {
      var i := FindPid(pid);
      if i < |players| {
        players := players[..i] + players[i + 1..];
      }
    }

    method AddVirtualHost(name: string)
      modifies this, fullHistory
      ensures Model() == Engine.AddVirtualHost(old(Model()), name, net)
    {
      var free := LowestFreePid();
      if hostPid.Some? || free.None? {
        return;
      }
      var round := clock;
      Broadcast(PlayerInfo(free.value));
      Seat(NewPlayer(free.value, HOST_CONN, name, 0, Link(Joined(round), true, [])).(virtualHost := true, loaded := true));
      hostPid := free;
    }

    method ToggleFakePlayer(slot: bool)
      modifies this, fullHistory
      ensures Model() == ToggleFake(old(Model()), slot, net)
    {
      if !phase.Lobby? {
        return;
      }
      if fakePid.Some? {
        RemoveFakePlayer();
      } else if slot {
        AddFakePlayer();
      }
    }

    method RemoveFakePlayer()
      requires phase.Lobby? && fakePid.Some?
      modifies this, fullHistory
      ensures forall slot :: Model() == ToggleFake(old(Model()), slot, net)
    {
      var pid := fakePid.value;
      fakePid := None;
      Unseat(pid);
      BroadcastAll([PlayerLeaveOthers(pid, PLAYERLEAVE_LOBBY), Opaque(2)]);
    }

    method AddFakePlayer()
      requires phase.Lobby? && fakePid.None?
      modifies this, fullHistory
      ensures Model() == ToggleFake(old(Model()), true, net)
    {
      var free := LowestFreePid();
      if free.None? {
        return;
      }
      fakePid := free;
      Seat(NewPlayer(free.value, 0, "FakePlayer", 0, Link(Joined(clock), true, [])).(loaded := true));
      clock := clock + 1;
      BroadcastAll([PlayerInfo(free.value), Opaque(2)]);
    }

    // ---- small handlers ----

    method HandleMapSize(conn: nat)
      modifies this
      ensures Model() == Engine.HandleMapSize(old(Model()), conn, net)
    {
      var i := FindConn(conn);
      if i == |players| || players[i].rejoin != AwaitingMapSize {
        return;
      }
      var pid := players[i].pid;
      SendAllTo(pid, [CountdownStart, CountdownEnd]);
      var j := FindPid(pid);
      if j < |players| {
        players := players[j := players[j].(rejoin := AwaitingLoaded)];
      }
    }

    method GpsInit(conn: nat)
      modifies this
      ensures Model() == Engine.GpsInit(old(Model()), conn, net)
    {
      var i := FindConn(conn);
      if i == |players| {
        return;
      }
      var p := players[i];
      if p.gp.None? {
        p := p.(gp := Some(NewResend()));
      }
      if net(clock, p.pid, 0) == Closed {
        p := p.(link := p.link.(open := false));
      }
      players := players[i := p];
      clock := clock + 1;
    }

    method CloseConnection(conn: nat)
      modifies this
      ensures Model() == ConnClosed(old(Model()), conn)
    {
      pendingFull := pendingFull - {conn};
      var i := FindConn(conn);
      if i == |players| {
        return;
      }
      var p := players[i];
      if p.gp.Some? {
        players := players[i := p.(disconnected := true)];
      } else if p.left.None? {
        var code := if phase.Lobby? || phase.Countdown? then PLAYERLEAVE_LOBBY else PLAYERLEAVE_DISCONNECT;
        players := players[i := p.(left := Some(ConnectionClosed), leftCode := code)];
      }
    }

    method HandleAction(conn: nat, data: Bytes)
      modifies this
      ensures Model() == Engine.HandleAction(old(Model()), conn, data)
    {
      var i := FindConn(conn);
      if i == |players| {
        return;
      }
      var action := Action(players[i].pid, data);
      if !(phase.Loading? || phase.Playing?) || !Acceptable(action) {
        KickPlayer(action.pid, InvalidAction, PLAYERLEAVE_LOST);
        return;
      }
      actions := actions + [action];
    }

    method HandleLeave(conn: nat)
      modifies this
      ensures Model() == Engine.HandleLeave(old(Model()), conn)
    {
      var i := FindConn(conn);
      if i < |players| {
        var code := if phase.Lobby? || phase.Countdown? then PLAYERLEAVE_LOBBY else PLAYERLEAVE_LOST;
        players := players[i := players[i].(left := Some(LeftVoluntarily), leftCode := code)];
      }
    }

    method DropRequest()
      modifies this`players
      ensures Model() == Engine.DropRequest(old(Model()))
    {
      if !game.lagging {
        return;
      }
      ghost var before := players;
      ghost var after := Engine.DropRequest(Model()).players;
      var i := 0;
      while i < |players|
        invariant 0 <= i <= |players| == |before|
        invariant forall k :: 0 <= k < i ==> players[k] == after[k]
        invariant forall k :: i <= k < |players| ==> players[k] == before[k]
      {
        var p := players[i];
        if p.pace.lagging && p.left.None? {
          players := players[i := p.(left := Some(LaggedOut), leftCode := PLAYERLEAVE_DISCONNECT)];
        }
        i := i + 1;
      }
      assert players == after;
    }

    // ---- the tick ----

    method ExpireDisconnected(expired: set<nat>)
      modifies this`players
      ensures players == ExpireAll(old(players), expired)
    {
      ghost var before := players;
      var i := 0;
      while i < |players|
        invariant 0 <= i <= |players| == |before|
        invariant forall k :: 0 <= k < i ==> players[k] == ExpireAll(before, expired)[k]
        invariant forall k :: i <= k < |players| ==> players[k] == before[k]
      {
        var p := players[i];
        if p.disconnected && p.pid in expired {
          players := players[i := p.(left := Some(ReconnectTimeout), leftCode := PLAYERLEAVE_GPROXY, disconnected := false)];
        }
        i := i + 1;
      }
    }

    method ReapTimeouts(expired: set<nat>, notices: seq<string>)
      modifies this, fullHistory
      ensures Model() == Engine.ReapTimeouts(old(Model()), expired, notices, net)
    {
      ExpireDisconnected(expired);
      ChatEach(Chats(notices));
    }

    method LeaveUnloaded()
      modifies this`players
      ensures players == Engine.LeaveUnloaded(old(players))
    {
      ghost var before := players;
      var i := 0;
      while i < |players|
        invariant 0 <= i <= |players| == |before|
        invariant forall k :: 0 <= k < i ==> players[k] == Engine.LeaveUnloaded(before)[k]
        invariant forall k :: i <= k < |players| ==> players[k] == before[k]
      {
        var p := players[i];
        if !p.loaded && p.left.None? && !p.virtualHost {
          players := players[i := p.(left := Some(LoadingTimeout), leftCode := PLAYERLEAVE_DISCONNECT)];
        }
        i := i + 1;
      }
    }

    method LoadFakePlayer()
      modifies this, fullHistory
      ensures Model() == FakeLoaded(old(Model()), net)
    {
      if fakePid.None? {
        return;
      }
      var i := FindPid(fakePid.value);
      if i < |players| {
        players := players[i := players[i].(loaded := true)];
      }
      Broadcast(GameLoadedOthers(fakePid.value));
    }

    method BeginLoading()
      modifies this, fullHistory
      ensures Model() == Engine.BeginLoading(old(Model()), net)
    {
      phase, startedLoading := Loading, true;
      Broadcast(CountdownStart);
      DropVirtualHost();
      Broadcast(CountdownEnd);
      LoadFakePlayer();
      var all := AllAreLoaded(false);
      if all {
        BeginPlaying();
      }
    }

    method PhaseTick(input: TickInput)
      requires Sound(Model())
      modifies this, fullHistory
      ensures Model() == Engine.PhaseTick(old(Model()), input, net)
    {
      match phase {
        case Lobby =>
        case Countdown =>
          if input.start {
            BeginLoading();
            EndWhenEmpty(input);
          }
        case Loading =>
          if input.loadTimeout {
            LeaveUnloaded();
            ReapLeftPlayers();
          }
          EndWhenEmpty(input);
        case Playing =>
          PlayTick(input);
        case Over =>
      }
    }

    method OnTick(input: TickInput)
      requires Sound(Model())
      modifies this, fullHistory
      ensures Model() == Engine.OnTick(old(Model()), input, net)
    {
      ReapTimeoutsIsSound(Model(), input.expired, input.notices, net);
      ReapTimeouts(input.expired, input.notices);
      if input.ping && (phase.Lobby? || phase.Countdown? || phase.Loading?) {
        BroadcastIsSound(Model(), Opaque(1), net);
        Broadcast(Opaque(1));
      }
      PhaseTick(input);
    }

    // ---- the actor ----

    method HandleLobby(cmd: Command)
      requires LobbyCommand(cmd)
      modifies this, fullHistory
      ensures Model() == Engine.HandleLobby(old(Model()), cmd, net)
    {
      match cmd {
        case DoJoin(conn, name, key, slot) => Join(conn, name, key, slot);
        case DoVirtualHost(name) => AddVirtualHost(name);
        case DoToggleFake(slot) => ToggleFakePlayer(slot);
        case DoStart =>
          if phase.Lobby? {
            phase := Countdown;
          }
      }
    }

    method HandleClient(cmd: Command)
      requires ClientCommand(cmd) && Sound(Model())
      modifies this, fullHistory
      ensures Model() == Engine.HandleClient(old(Model()), cmd, net)
    {
      match cmd {
        case DoLoaded(conn) => HandleLoaded(conn);
        case DoMapSize(conn) => HandleMapSize(conn);
        case DoKeepalive(conn, sum) => HandleKeepalive(conn, sum);
        case DoAction(conn, data) => HandleAction(conn, data);
        case DoLeave(conn) => HandleLeave(conn);
        case DoDropRequest => DropRequest();
      }
    }

    method HandleLink(cmd: Command)
      requires LinkCommand(cmd)
      modifies this
      ensures Model() == Engine.HandleLink(old(Model()), cmd, net)
    {
      match cmd {
        case DoClosed(conn) => CloseConnection(conn);
        case DoGpsInit(conn) => GpsInit(conn);
        case DoGpsFull(conn, pid, key) => pendingFull := pendingFull[conn := (pid, key)];
        case DoRejoin(conn, name) => var _ := TryFullRejoin(conn, name);
        case DoReconnect(conn, pid, key, last) => var _ := GpsReconnect(conn, pid, key, last);
      }
    }

    method HandleHost(cmd: Command)
      requires HostCommand(cmd) && Sound(Model())
      modifies this, fullHistory
      ensures Model() == Engine.HandleHost(old(Model()), cmd, net)
    {
      match cmd {
        case DoAnnounce(pkt) => Broadcast(pkt);
        case DoWhisper(pid, pkt) => SendTo(pid, pkt);
        case DoKick(pid) => KickPlayer(pid, Removed, PLAYERLEAVE_LOST);
        case DoLatency(period) => game := game.(period := period);
        case DoTick(input) => OnTick(input);
      }
    }

    /** One turn of the actor's loop. */
    method Step(cmd: Command)
      requires Sound(Model())
      modifies this, fullHistory
      ensures Model() == Next(old(Model()), cmd, net) && Sound(Model())
    {
      NextIsSound(Model(), cmd, net);
      if LobbyCommand(cmd) {
        HandleLobby(cmd);
      } else if ClientCommand(cmd) {
        HandleClient(cmd);
      } else if LinkCommand(cmd) {
        HandleLink(cmd);
      } else {
        HandleHost(cmd);
      }
      ReapLeftPlayers();
    }

    /** A whole run of the actor: the object goes through the states of a run,
        so what is proved of reachable states holds of it after every step. */
    method Run(limit: nat, period: nat, cmds: seq<Command>) returns (ghost states: seq<State>)
      requires Model() == Initial(limit, period)
      modifies this, fullHistory
      ensures IsRun(limit, period, net, cmds, states) && Model() == states[|cmds|]
      ensures Reachable(limit, Model())
    {
      InitialIsSound(limit, period);
      states := [Model()];
      var k := 0;
      while k < |cmds|
        invariant 0 <= k <= |cmds|
        invariant IsRun(limit, period, net, cmds[..k], states) && Model() == states[k] && Sound(Model())
      {
        states := StepOn(limit, period, cmds[..k], states, cmds[k]);
        PrefixSnoc(cmds, k);
        k := k + 1;
      }
      RunReaches(limit, period, net, cmds, states);
    }

    /** One more step of a run. */
    method StepOn(limit: nat, period: nat, ghost cmds: seq<Command>, ghost states: seq<State>, cmd: Command)
      returns (ghost more: seq<State>)
      requires IsRun(limit, period, net, cmds, states) && Model() == states[|cmds|] && Sound(Model())
      modifies this, fullHistory
      ensures IsRun(limit, period, net, cmds + [cmd], more) && Model() == more[|cmds| + 1] && Sound(Model())
    {
      Step(cmd);
      RunSnoc(limit, period, net, cmds, states, cmd, Model());
      more := states + [Model()];
    }
  }

  lemma RunReaches(limit: nat, period: nat, net: Net, cmds: seq<Command>, states: seq<State>)
    requires IsRun(limit, period, net, cmds[..|cmds|], states)
    ensures IsRun(limit, period, net, cmds, states) && Reachable(limit, states[|cmds|])
  {
    assert cmds[..|cmds|] == cmds;
  }

  lemma RunSnoc(limit: nat, period: nat, net: Net, cmds: seq<Command>, states: seq<State>, cmd: Command, t: State)
    requires IsRun(limit, period, net, cmds, states) && t == Next(states[|cmds|], cmd, net)
    ensures IsRun(limit, period, net, cmds + [cmd], states + [t])
  {
    PathSnoc(Following(net), Initial(limit, period), cmds, states, cmd);
  }

  // ---- turns: recording and sending commute ----

  /** `s` after packets were pushed to the relay and slots to the replay. */
  ghost function Recorded(s: State, pkts: seq<Packet>, slots: seq<Timeslot>): State {
    s.(trace := s.trace.(relayed := s.trace.relayed + pkts, recorded := s.trace.recorded + slots))
  }

  ghost function AfterOverflows(s: State, sent: seq<seq<Action>>, net: Net): State {
    Recorded(Engine.BroadcastAll(s, Overflows(sent), net), Overflows(sent), OverflowSlots(sent))
  }

  ghost function Noticed(s: State, winner: Option<Packet>, net: Net): State {
    if winner.Some? then ChatAll(s, winner.value, net) else s
  }

  /** With the batches sent and the one being filled, cutting the rest gives
      the whole cut. */
  ghost predicate CutSoFar(queue: seq<Action>, k: nat, batch: seq<Action>, sent: seq<seq<Action>>, all: seq<seq<Action>>) {
    k <= |queue| && sent + Cut(queue[k..], batch) == all
  }

  lemma NothingBatched(queue: seq<Action>)
    ensures CutSoFar(queue, 0, [], [], Cut(queue, []))
  {
    assert queue[0..] == queue && [] + Cut(queue, []) == Cut(queue, []);
  }

  lemma OneMoreBatched(queue: seq<Action>, k: nat, batch: seq<Action>, sent: seq<seq<Action>>,
                       more: seq<Action>, after: seq<seq<Action>>, all: seq<seq<Action>>)
    requires k < |queue| && CutSoFar(queue, k, batch, sent, all)
    requires if Size(batch) + queue[k].WireLen() > MAX_ACTION_PAYLOAD && batch != []
             then after == sent + [batch] && more == [queue[k]]
             else after == sent && more == batch + [queue[k]]
    ensures CutSoFar(queue, k + 1, more, after, all)
  {
    CutStep(queue, k, batch);
    Associate(sent, [batch], Cut(queue[k + 1..], more));
  }

  lemma AllBatched(queue: seq<Action>, batch: seq<Action>, sent: seq<seq<Action>>, all: seq<seq<Action>>)
    requires CutSoFar(queue, |queue|, batch, sent, all)
    ensures sent + [batch] == all
  {
    assert queue[|queue|..] == [];
  }

  /** One step of the batching loop. */
  lemma CutStep(queue: seq<Action>, k: nat, batch: seq<Action>)
    requires k < |queue|
    ensures Size([queue[k]]) == queue[k].WireLen() && Size(batch + [queue[k]]) == Size(batch) + queue[k].WireLen()
    ensures Cut(queue[k..], batch) ==
            if Size(batch) + queue[k].WireLen() > MAX_ACTION_PAYLOAD && batch != []
            then [batch] + Cut(queue[k + 1..], [queue[k]])
            else Cut(queue[k + 1..], batch + [queue[k]])
  {
    assert queue[k..][1..] == queue[k + 1..];
    SizeConcat(batch, [queue[k]]);
    SizeConcat([], [queue[k]]);
    assert [] + [queue[k]] == [queue[k]];
  }

  lemma TurnIsSendAllActions(s: State, skipped: nat, winner: Option<Packet>, start: State, sent: seq<seq<Action>>,
                             last: seq<Action>, net: Net)
    requires sent + [last] == Cut(s.actions, [])
    requires var elapsed := Elapsed(s.game.period, skipped);
             start == s.(actions := [],
                         game := s.game.(sync := WrappingAdd(s.game.sync, 1), ticks := WrappingAdd(s.game.ticks, elapsed),
                                         turns := s.game.turns + 1))
    ensures Turn(start, sent, last, Min(Elapsed(s.game.period, skipped), U16_MAX), winner, net)
         == Engine.SendAllActions(s, skipped, winner, net)
  {
    var bs := Cut(s.actions, []);
    assert bs[..|bs| - 1] == sent && bs[|bs| - 1] == last;
  }

  /** The packets of one turn, given its full batches and its last batch. */
  ghost function Turn(s: State, sent: seq<seq<Action>>, last: seq<Action>, interval: nat, winner: Option<Packet>, net: Net): State {
    var t := Recorded(Recorded(s, Overflows(sent), OverflowSlots(sent)), [IncomingAction(last, interval)], [Timeslot(last, interval)]);
    var u := Engine.BroadcastAll(t, Overflows(sent), net);
    Engine.Broadcast(Noticed(u, winner, net), IncomingAction(last, interval), net)
  }

  lemma RecordedBroadcast(s: State, pkt: Packet, net: Net, pkts: seq<Packet>, slots: seq<Timeslot>)
    ensures Engine.Broadcast(Recorded(s, pkts, slots), pkt, net) == Recorded(Engine.Broadcast(s, pkt, net), pkts, slots)
  {
  }

  lemma {:induction false} RecordedBroadcastAll(s: State, sent: seq<Packet>, net: Net, pkts: seq<Packet>, slots: seq<Timeslot>)
    ensures Engine.BroadcastAll(Recorded(s, pkts, slots), sent, net) == Recorded(Engine.BroadcastAll(s, sent, net), pkts, slots)
    decreases |sent|
  {
    if sent != [] {
      RecordedBroadcast(s, sent[0], net, pkts, slots);
      RecordedBroadcastAll(Engine.Broadcast(s, sent[0], net), sent[1..], net, pkts, slots);
    }
  }

  lemma {:induction false} BroadcastAllSnoc(s: State, pkts: seq<Packet>, pkt: Packet, net: Net)
    ensures Engine.BroadcastAll(s, pkts + [pkt], net) == Engine.Broadcast(Engine.BroadcastAll(s, pkts, net), pkt, net)
    decreases |pkts|
  {
    if pkts == [] {
      assert (pkts + [pkt])[1..] == [];
    } else {
      BroadcastAllSnoc(Engine.Broadcast(s, pkts[0], net), pkts[1..], pkt, net);
      assert (pkts + [pkt])[1..] == pkts[1..] + [pkt];
    }
  }

  lemma OverflowsSnoc(s: State, sent: seq<seq<Action>>, batch: seq<Action>, net: Net)
    ensures Recorded(Engine.Broadcast(AfterOverflows(s, sent, net), IncomingAction2(batch), net),
                     [IncomingAction2(batch)], [Timeslot2(batch)])
         == AfterOverflows(s, sent + [batch], net)
  {
    var more := sent + [batch];
    assert Overflows(more) == Overflows(sent) + [IncomingAction2(batch)];
    assert OverflowSlots(more) == OverflowSlots(sent) + [Timeslot2(batch)];
    BroadcastAllSnoc(s, Overflows(sent), IncomingAction2(batch), net);
    var u := Engine.BroadcastAll(s, Overflows(sent), net);
    RecordedBroadcast(u, IncomingAction2(batch), net, Overflows(sent), OverflowSlots(sent));
    RecordedTwice(Engine.Broadcast(u, IncomingAction2(batch), net), Overflows(sent), OverflowSlots(sent),
                  [IncomingAction2(batch)], [Timeslot2(batch)]);
  }

  lemma RecordedTwice(s: State, a: seq<Packet>, x: seq<Timeslot>, b: seq<Packet>, y: seq<Timeslot>)
    ensures Recorded(Recorded(s, a, x), b, y) == Recorded(s, a + b, x + y)
  {
    assert s.trace.relayed + a + b == s.trace.relayed + (a + b);
    assert s.trace.recorded + x + y == s.trace.recorded + (x + y);
  }

  /** Recording the closing packet after sending it or before it is the same. */
  lemma TurnRecorded(s: State, sent: seq<seq<Action>>, last: seq<Action>, interval: nat, winner: Option<Packet>, net: Net)
    ensures Recorded(Engine.Broadcast(Noticed(AfterOverflows(s, sent, net), winner, net), IncomingAction(last, interval), net),
                     [IncomingAction(last, interval)], [Timeslot(last, interval)])
         == Turn(s, sent, last, interval, winner, net)
  {
    var pkts, slots := [IncomingAction(last, interval)], [Timeslot(last, interval)];
    var a, x := Overflows(sent), OverflowSlots(sent);
    RecordedBroadcastAll(s, a, net, a, x);
    RecordedBroadcastAll(Recorded(s, a, x), a, net, pkts, slots);
    var u := AfterOverflows(s, sent, net);
    if winner.Some? {
      RecordedBroadcast(u, winner.value, net, pkts, slots);
    }
    var v := Noticed(u, winner, net);
    RecordedBroadcast(v, IncomingAction(last, interval), net, pkts, slots);
  }

  lemma {:induction false} BroadcastAllKeepsTurns(s: State, pkts: seq<Packet>, net: Net)
    ensures Engine.BroadcastAll(s, pkts, net).game == s.game
    decreases |pkts|
  {
    if pkts != [] {
      BroadcastAllKeepsTurns(Engine.Broadcast(s, pkts[0], net), pkts[1..], net);
    }
  }

  lemma AnyLaggingSnoc(ps: seq<Player>, i: nat)
    requires i < |ps|
    ensures AnyLagging(ps[..i + 1]) <==> AnyLagging(ps[..i]) || (!ps[i].virtualHost && ps[i].pace.lagging)
  {
    var a, b := ps[..i + 1], ps[..i];
    assert a[i] == ps[i];
    if k :| 0 <= k < |b| && !b[k].virtualHost && b[k].pace.lagging {
      assert a[k] == b[k];
    }
    if k :| 0 <= k < |a| && !a[k].virtualHost && a[k].pace.lagging {
      assert k == i || b[k] == a[k];
    }
  }

  // ---- the condemned ----

  function DropIf(p: Player, drop: bool): Player {
    if drop then p.(left := Some(Desynced), leftCode := PLAYERLEAVE_LOST) else p
  }

  ghost function PidSet(pids: seq<nat>): set<nat> {
    set pid | pid in pids
  }

  /** `qs` is `ps` after the players with a pid in `out` were kicked. */
  ghost predicate Dropped(ps: seq<Player>, qs: seq<Player>, out: set<nat>) {
    |ps| == |qs| && forall i :: 0 <= i < |ps| ==> qs[i] == DropIf(ps[i], ps[i].pid in out)
  }

  lemma DroppedTwice(ps: seq<Player>, qs: seq<Player>, rs: seq<Player>, a: set<nat>, b: set<nat>)
    requires Dropped(ps, qs, a) && Dropped(qs, rs, b)
    ensures Dropped(ps, rs, a + b)
  {
    forall i | 0 <= i < |ps| ensures rs[i] == DropIf(ps[i], ps[i].pid in a + b) {
      assert qs[i].pid == ps[i].pid;
    }
  }

  ghost predicate SamePids(ps: seq<Player>, qs: seq<Player>) {
    |ps| == |qs| && forall i :: 0 <= i < |ps| ==> ps[i].pid == qs[i].pid
  }

  lemma ChatKeepsPids(s: State, pkt: Packet, net: Net)
    ensures SamePids(s.players, ChatAll(s, pkt, net).players)
  {
    forall p: Player, turn, r ensures p.OnBroadcast(pkt, turn, r).pid == p.pid {
      BroadcastKeepsPid(p, pkt, turn, r);
    }
  }

  /** The pids the kicking loops visit are those of the condemned. */
  lemma OutIsCondemned(ps: seq<Player>, turn: nat, bins: map<nat, seq<nat>>, largest: nat, tied: bool, i: nat)
    requires UniquePids(ps) && i < |ps| && IsTally(ps, ParticipantsAt(ps, turn), bins)
    requires forall sum :: !tied && sum in bins ==> (Largest(bins, sum) <==> sum == largest)
    requires forall sum :: tied ==> !Largest(bins, sum)
    ensures tied ==> (ps[i].pid in PidsAt(ps, ParticipantsAt(ps, turn)) <==> Condemned(ps, turn, ps[i]))
    ensures !tied ==> ((exists sum :: sum in bins && sum != largest && ps[i].pid in bins[sum])
                       <==> Condemned(ps, turn, ps[i]))
  {
    var idx := ParticipantsAt(ps, turn);
    ParticipantsAtLists(ps, turn);
    if Participant(ps[i], turn) {
      LargestIsWinner(ps, turn, bins, i);
      var k :| 0 <= k < |idx| && idx[k] == i;
      assert PidsAt(ps, idx)[k] == ps[i].pid;
      BinLists(ps, idx, HeadSum(ps, i), i);
      assert HeadSum(ps, i) in bins;
    }
    if ps[i].pid in PidsAt(ps, idx) {
      var k :| 0 <= k < |idx| && PidsAt(ps, idx)[k] == ps[i].pid;
      UniqueByPid(ps, i);
      UniqueByPid(ps, idx[k]);
      assert idx[k] in idx;
    }
    forall sum | sum in bins && ps[i].pid in bins[sum] ensures Participant(ps[i], turn) && HeadSum(ps, i) == sum {
      BinLists(ps, idx, sum, i);
    }
  }

  // ---- desync detection: what one round reads off the players ----

  method FindPidIn(ps: seq<Player>, pid: nat) returns (i: nat)
    ensures i == ByPid(ps, pid)
  {
    i := 0;
    while i < |ps| && ps[i].pid != pid
      invariant i <= |ps|
      invariant forall k :: 0 <= k < i ==> ps[k].pid != pid
    {
      i := i + 1;
    }
  }

  method CollectActive(ps: seq<Player>) returns (pids: seq<nat>, min: Option<nat>)
    ensures pids == PidsAt(ps, ActiveAt(ps))
    ensures min == MinTurn(ps)
  {
    pids, min := [], None;
    ghost var idx := [];
    var i := 0;
    while i < |ps|
      invariant 0 <= i <= |ps|
      invariant idx == ActiveAt(ps[..i]) && pids == PidsAt(ps, idx)
      invariant min == MinTurn(ps[..i])
    {
      var p := ps[i];
      ActiveAtSnoc(ps, i);
      if Active(p) {
        PidsAtSnoc(ps, idx, i);
        idx := idx + [i];
        pids := pids + [p.pid];
        if p.pace.checksums != [] {
          var t := p.pace.checksums[0].turn;
          min := if min.Some? && min.value <= t then min else Some(t);
        }
      }
      i := i + 1;
    }
    assert ps[..|ps|] == ps;
  }

  method AwaitingSomeone(ps: seq<Player>, active: seq<nat>, turn: nat) returns (late: bool)
    requires UniquePids(ps) && active == PidsAt(ps, ActiveAt(ps))
    ensures late <==> InFlight(ps, turn)
  {
    ghost var idx := ActiveAt(ps);
    ActiveAtLists(ps);
    var k := 0;
    while k < |active|
      invariant 0 <= k <= |active|
      invariant forall m :: 0 <= m < k ==> ps[idx[m]].pace.sync >= turn
    {
      assert idx[k] in idx;
      UniqueByPid(ps, idx[k]);
      var i := FindPidIn(ps, active[k]);
      if ps[i].pace.sync < turn {
        return true;
      }
      k := k + 1;
    }
    return false;
  }

  method CollectParticipants(ps: seq<Player>, active: seq<nat>, turn: nat) returns (parts: seq<nat>, desync: bool)
    requires UniquePids(ps) && active == PidsAt(ps, ActiveAt(ps))
    ensures parts == PidsAt(ps, ParticipantsAt(ps, turn))
    ensures desync <==> Disagree(ps, turn)
  {
    parts, desync := [], false;
    ghost var idx := ActiveAt(ps);
    ActiveAtLists(ps);
    var first := 0;
    var k := 0;
    while k < |active|
      invariant 0 <= k <= |active|
      invariant Collected(ps, idx[..k], turn, parts, first, desync)
    {
      parts, first, desync := CollectNext(ps, idx, k, active[k], turn, parts, first, desync);
      k := k + 1;
    }
    AllCollected(ps, idx, turn, parts, first, desync);
  }

  lemma AllCollected(ps: seq<Player>, idx: seq<nat>, turn: nat, parts: seq<nat>, first: nat, desync: bool)
    requires idx == ActiveAt(ps) && Collected(ps, idx[..|idx|], turn, parts, first, desync)
    ensures parts == PidsAt(ps, ParticipantsAt(ps, turn)) && (desync <==> Disagree(ps, turn))
  {
    assert idx[..|idx|] == idx;
    OddOneOut(ps, turn, first);
  }

  /** The body of that loop, for the player with pid `pid`. */
  method CollectNext(ps: seq<Player>, ghost idx: seq<nat>, ghost k: nat, pid: nat, turn: nat, had: seq<nat>, head: nat, odd: bool)
    returns (parts: seq<nat>, first: nat, desync: bool)
    requires UniquePids(ps) && k < |idx| && idx[k] < |ps| && pid == ps[idx[k]].pid
    requires Collected(ps, idx[..k], turn, had, head, odd)
    ensures Collected(ps, idx[..k + 1], turn, parts, first, desync)
  {
    UniqueByPid(ps, idx[k]);
    var i := FindPidIn(ps, pid);
    parts, first, desync := CollectOne(ps, idx[..k], turn, had, head, odd, i);
    PrefixSnoc(idx, k);
  }

  method CollectOne(ps: seq<Player>, ghost idx: seq<nat>, turn: nat, had: seq<nat>, head: nat, odd: bool, i: nat)
    returns (parts: seq<nat>, first: nat, desync: bool)
    requires Collected(ps, idx, turn, had, head, odd) && i < |ps|
    ensures Collected(ps, idx + [i], turn, parts, first, desync)
  {
    CollectedOneMore(ps, idx, turn, had, head, odd, i);
    parts, first, desync := had, head, odd;
    if HeadsTurn(ps[i], turn) {
      var sum := ps[i].pace.checksums[0].sum;
      if parts == [] {
        first := sum;
      } else if sum != first {
        desync := true;
      }
      parts := parts + [ps[i].pid];
    }
  }

  /** What the loop knows after visiting the positions `idx`. */
  ghost predicate Collected(ps: seq<Player>, idx: seq<nat>, turn: nat, parts: seq<nat>, first: nat, desync: bool) {
    var had := HavingTurn(ps, idx, turn);
    && parts == PidsAt(ps, had)
    && (had != [] ==> HeadSum(ps, had[0]) == first)
    && (desync <==> !SameSums(ps, had, first))
  }

  lemma CollectedOneMore(ps: seq<Player>, idx: seq<nat>, turn: nat, parts: seq<nat>, first: nat, desync: bool, i: nat)
    requires Collected(ps, idx, turn, parts, first, desync) && i < |ps|
    ensures !HeadsTurn(ps[i], turn) ==> Collected(ps, idx + [i], turn, parts, first, desync)
    ensures HeadsTurn(ps[i], turn) ==>
              var sum := ps[i].pace.checksums[0].sum;
              if parts == [] then Collected(ps, idx + [i], turn, [ps[i].pid], sum, desync)
              else Collected(ps, idx + [i], turn, parts + [ps[i].pid], first, desync || sum != first)
  {
    var had, more := HavingTurn(ps, idx, turn), idx + [i];
    assert more[..|idx|] == idx && more[..|idx| + 1] == more;
    HavingTurnSnoc(ps, more, |idx|, turn);
    if HeadsTurn(ps[i], turn) {
      PidsAtSnoc(ps, had, i);
      SameSumsSnoc(ps, had, i, if parts == [] then HeadSum(ps, i) else first);
    } else {
      assert HavingTurn(ps, more, turn) == had;
    }
  }

  method Tally(ps: seq<Player>, parts: seq<nat>, ghost idx: seq<nat>) returns (bins: map<nat, seq<nat>>)
    requires UniquePids(ps) && Ascending(idx, |ps|) && parts == PidsAt(ps, idx)
    requires forall k :: 0 <= k < |idx| ==> ps[idx[k]].pace.checksums != []
    ensures IsTally(ps, idx, bins)
  {
    bins := map[];
    var k := 0;
    while k < |parts|
      invariant 0 <= k <= |parts|
      invariant IsTally(ps, idx[..k], bins)
    {
      UniqueByPid(ps, idx[k]);
      var i := FindPidIn(ps, parts[k]);
      var sum := ps[i].pace.checksums[0].sum;
      assert idx[..k + 1] == idx[..k] + [i];
      TallyGrows(ps, idx[..k], bins, i);
      bins := bins[sum := (if sum in bins then bins[sum] else []) + [parts[k]]];
      k := k + 1;
    }
    assert idx[..|idx|] == idx;
  }

  lemma TallyGrows(ps: seq<Player>, idx: seq<nat>, bins: map<nat, seq<nat>>, i: nat)
    requires i < |ps| && ps[i].pace.checksums != [] && IsTally(ps, idx, bins)
    ensures var sum := ps[i].pace.checksums[0].sum;
            IsTally(ps, idx + [i], bins[sum := (if sum in bins then bins[sum] else []) + [ps[i].pid]])
  {
    var sum := ps[i].pace.checksums[0].sum;
    var more := bins[sum := (if sum in bins then bins[sum] else []) + [ps[i].pid]];
    forall other
      ensures if other in more then more[other] == Bin(ps, idx + [i], other) != [] else Bin(ps, idx + [i], other) == []
    {
      BinSnoc(ps, idx, i, other);
      assert if other in bins then bins[other] == Bin(ps, idx, other) != [] else Bin(ps, idx, other) == [];
    }
  }

  /** The groups, the largest of them, and whether two tie for largest. */
  method Vote(ps: seq<Player>, parts: seq<nat>, turn: nat) returns (bins: map<nat, seq<nat>>, largest: nat, tied: bool)
    requires UniquePids(ps) && parts == PidsAt(ps, ParticipantsAt(ps, turn))
    ensures IsTally(ps, ParticipantsAt(ps, turn), bins)
    ensures forall sum :: !tied && sum in bins ==> (Largest(bins, sum) <==> sum == largest)
    ensures forall sum :: tied ==> !Largest(bins, sum)
  {
    ghost var idx := ParticipantsAt(ps, turn);
    ParticipantsAtLists(ps, turn);
    assert forall k :: 0 <= k < |idx| ==> idx[k] in idx;
    bins := Tally(ps, parts, idx);
    largest, tied := FindLargest(bins);
  }

  /** The largest group, visiting the groups in any order. */
  method FindLargest(bins: map<nat, seq<nat>>) returns (largest: nat, tied: bool)
    requires forall sum :: sum in bins ==> bins[sum] != []
    ensures forall sum :: !tied && sum in bins ==> (Largest(bins, sum) <==> sum == largest)
    ensures forall sum :: tied ==> !Largest(bins, sum)
    ensures !tied && bins != map[] ==> largest in bins
  {
    largest, tied := 0, false;
    var most := 0;
    ghost var rival := 0;
    var rest := bins.Keys;
    while rest != {}
      invariant rest <= bins.Keys
      invariant forall sum :: sum in bins && sum !in rest ==> |bins[sum]| <= most
      invariant most > 0 ==> largest in bins && largest !in rest && |bins[largest]| == most
      invariant most == 0 ==> rest == bins.Keys && !tied
      invariant tied ==> rival in bins && rival !in rest && rival != largest && |bins[rival]| == most
      invariant !tied ==> forall sum :: sum in bins && sum !in rest && sum != largest ==> |bins[sum]| < most
      decreases rest
    {
      var sum :| sum in rest;
      if |bins[sum]| > most {
        most := |bins[sum]|;
        largest := sum;
        tied := false;
      } else if |bins[sum]| == most {
        tied := true;
        rival := sum;
      }
      rest := rest - {sum};
    }
    if tied {
      forall sum ensures !Largest(bins, sum) {
        var other := if sum == largest then rival else largest;
        assert other in bins && |bins[other]| == most;
      }
    }
  }
}
