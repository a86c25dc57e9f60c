/** What a tick does to the feeds of the links: a seat that broadcasts pass by
    is handed something only by the catch-up pump
    (crates/spectre-engine/src/state.rs, actions.rs). */
module Feeds {
  import opened Basics
  import opened Packets
  import opened Histories
  import opened Seats
  import opened Engine
  import opened EngineSafety
  import opened BoundedLag

  /** The same seat on the same link, no further in its rejoin; handed nothing
      if broadcasts pass it by. */
  ghost predicate Kept(p: Player, q: Player) {
    && q.pid == p.pid && q.virtualHost == p.virtualHost && q.rejoin == p.rejoin && q.cursor == p.cursor
    && (p.left.Some? ==> q.left.Some?)
    && q.link.origin == p.link.origin
    && (Aside(p) ==> q.link.feed == p.link.feed)
    && (Leaked(q.link.feed) ==> Leaked(p.link.feed))
    && CountedStrays(q) <= CountedStrays(p)
  }

  ghost predicate AllKept(ps: seq<Player>, qs: seq<Player>) {
    |qs| == |ps| && forall i :: 0 <= i < |ps| ==> Kept(ps[i], qs[i])
  }

  lemma KeptTransitive(ps: seq<Player>, qs: seq<Player>, rs: seq<Player>)
    requires AllKept(ps, qs) && AllKept(qs, rs)
    ensures AllKept(ps, rs)
  {
    forall i | 0 <= i < |ps| ensures Kept(ps[i], rs[i]) {
      assert Kept(ps[i], qs[i]) && Kept(qs[i], rs[i]);
    }
  }

  lemma ShadowsAreKept(ps: seq<Player>, qs: seq<Player>)
    requires Shadows(ps, qs)
    ensures AllKept(ps, qs)
  {
    forall i | 0 <= i < |ps| ensures Kept(ps[i], qs[i]) {
      assert Undisturbed(ps[i], qs[i]);
    }
  }

  lemma OneIsKept(ps: seq<Player>, i: nat, q: Player)
    requires i < |ps| && Kept(ps[i], q)
    ensures AllKept(ps, ps[i := q])
  {
  }

  lemma PopIsKept(ps: seq<Player>, turn: nat)
    ensures AllKept(ps, PopTurn(ps, turn)) && AllKept(ps, MapPlayers(ps, ClearActive))
  {
  }

  lemma SentenceIsKept(before: seq<Player>, turn: nat, now: seq<Player>)
    requires |before| == |now|
    ensures AllKept(now, Sentence(before, turn, now))
  {
    forall i | 0 <= i < |now| ensures Kept(now[i], Sentence(before, turn, now)[i]) {
      SentencedIsKept(now[i], Condemned(before, turn, before[i]), Participant(before[i], turn));
    }
  }

  lemma SentencedIsKept(p: Player, condemned: bool, judged: bool)
    ensures Kept(p, Sentenced(p, condemned, judged))
  {
  }

  lemma MarkedIsKept(p: Player, reason: Reason, code: nat)
    ensures Kept(p, p) && Kept(p, p.(left := Some(reason), leftCode := code))
    ensures Kept(p, p.(left := Some(reason), leftCode := code, disconnected := false))
  {
  }

  lemma JudgeIsKept(s: State, turn: nat, net: Net)
    requires Sound(s)
    ensures AllKept(s.players, Judge(s, turn, net).players)
  {
    var t := ChatAll(s, Chat("Desync detected!"), net);
    ChatAllIsSound(s, Chat("Desync detected!"), net);
    ShadowsAreKept(s.players, t.players);
    SentenceIsKept(s.players, turn, t.players);
    KeptTransitive(s.players, t.players, Judge(s, turn, net).players);
  }

  lemma {:induction false} CheckDesyncIsKept(s: State, net: Net)
    requires Sound(s)
    ensures AllKept(s.players, CheckDesync(s, net).players)
    decreases Queued(s.players)
  {
    var min := MinTurn(s.players);
    PopIsKept(s.players, if min.Some? then min.value else 0);
    if ActiveCount(s.players) >= 2 && min.Some? && !InFlight(s.players, min.value) {
      var turn := min.value;
      if Disagree(s.players, turn) {
        JudgeIsKept(s, turn, net);
      } else {
        var t := s.(players := PopTurn(s.players, turn));
        PoppedIsSound(s, turn);
        MinTurnIsLowest(s.players);
        PopTurnShrinks(s.players, turn);
        CheckDesyncIsKept(t, net);
        KeptTransitive(s.players, t.players, CheckDesync(t, net).players);
      }
    }
  }

  lemma LagIsKept(g: Turns, ps: seq<Player>)
    ensures AllKept(ps, LagUpdateAll(g, ps))
  {
  }

  lemma CheckLagIsKept(s: State, reset: bool, net: Net)
    requires Sound(s)
    ensures AllKept(s.players, CheckLag(s, reset, net).players)
  {
    CheckLagIsSound(s, reset, net);
    var w := LagUpdateAll(s.game, s.players);
    LagIsKept(s.game, s.players);
    ShadowsAreKept(w, CheckLag(s, reset, net).players);
    KeptTransitive(s.players, w, CheckLag(s, reset, net).players);
  }

  lemma FakeSyncIsKept(s: State)
    ensures AllKept(s.players, FakeSync(s).players)
  {
  }

  lemma LeaveAllIsKept(ps: seq<Player>, reason: Reason, expired: set<nat>)
    ensures AllKept(ps, LeaveAll(ps, reason)) && AllKept(ps, LeaveUnloaded(ps)) && AllKept(ps, ExpireAll(ps, expired))
  {
    forall p: Player, r, code
      ensures Kept(p, p) && Kept(p, p.(left := Some(r), leftCode := code))
      ensures Kept(p, p.(left := Some(r), leftCode := code, disconnected := false))
    {
      MarkedIsKept(p, r, code);
    }
  }

  lemma DropLaggingIsKept(s: State, timedOut: set<nat>)
    ensures AllKept(s.players, DropLagging(s, timedOut).players)
  {
  }

  /** After the pump, the checks of a tick keep every seat. */
  lemma BeforeTurnIsKept(s: State, input: TickInput, net: Net)
    requires Sound(s)
    ensures AllKept(Pump(s, net).players, BeforeTurn(s, input, net).players)
    ensures Later(Pump(s, net), BeforeTurn(s, input, net))
  {
    var a := Pump(s, net);
    PumpIsSound(s, net);
    FakeSyncIsSound(a);
    FakeSyncIsKept(a);
    var b := FakeSync(a);
    CheckDesyncIsSound(b, net);
    CheckDesyncIsKept(b, net);
    var c := CheckDesync(b, net);
    CheckLagIsSound(c, input.resetScreen, net);
    CheckLagIsKept(c, input.resetScreen, net);
    KeptTransitive(a.players, b.players, c.players);
    KeptTransitive(a.players, c.players, BeforeTurn(s, input, net).players);
  }

  /** And so does the rest of it. */
  lemma PlayTickIsKept(s: State, input: TickInput, net: Net)
    requires Sound(s) && s.phase.Playing?
    ensures AllKept(Pump(s, net).players, PlayTick(s, input, net).players)
    ensures Later(Pump(s, net), PlayTick(s, input, net))
  {
    var a, t := Pump(s, net), BeforeTurn(s, input, net);
    BeforeTurnIsSound(s, input, net);
    BeforeTurnIsKept(s, input, net);
    if t.game.lagging {
      DropLaggingIsKept(t, input.lagTimedOut);
      KeptTransitive(a.players, t.players, DropLagging(t, input.lagTimedOut).players);
    } else {
      var w := WinnerNotice(input.winner);
      SendAllActionsIsSound(t, input.skipped, w, net);
      var u := SendAllActions(t, input.skipped, w, net);
      ShadowsAreKept(t.players, u.players);
      LeaveAllIsKept(u.players, GameOverTimer, {});
      KeptTransitive(a.players, t.players, u.players);
      KeptTransitive(a.players, u.players, LeaveAll(u.players, GameOverTimer));
    }
  }

  lemma ReapTimeoutsIsKept(s: State, input: TickInput, net: Net)
    requires Sound(s)
    ensures AllKept(s.players, ReapTimeouts(s, input.expired, input.notices, net).players)
  {
    ReapTimeoutsIsSound(s, input.expired, input.notices, net);
    LeaveAllIsKept(s.players, LaggedOut, input.expired);
    var e := ExpireAll(s.players, input.expired);
    ShadowsAreKept(e, ReapTimeouts(s, input.expired, input.notices, net).players);
    KeptTransitive(s.players, e, ReapTimeouts(s, input.expired, input.notices, net).players);
  }

  /** The state the pump of a playing tick works on. */
  function BeforePump(s: State, input: TickInput, net: Net): State {
    ReapTimeouts(s, input.expired, input.notices, net)
  }

  lemma PlayingTickIsPlayTick(s: State, input: TickInput, net: Net)
    requires Sound(s) && s.phase.Playing?
    ensures OnTick(s, input, net) == PlayTick(BeforePump(s, input, net), input, net)
    ensures Sound(BeforePump(s, input, net)) && BeforePump(s, input, net).phase.Playing?
    ensures Later(s, BeforePump(s, input, net)) && AllKept(s.players, BeforePump(s, input, net).players)
  {
    ReapTimeoutsIsSound(s, input.expired, input.notices, net);
    ReapTimeoutsIsKept(s, input, net);
  }

  // ---- the overtaken cursor ----

  /** The pump drops a seat whose cursor was overtaken, or that is gone
      already, and hands it nothing. */
  lemma PumpPassesByOvertaken(p: Player, h: History, r: nat -> Send)
    requires p.cursor.Some? && (p.left.Some? || p.cursor.value < h.FirstSeq())
    ensures p.CatchUp(h, r).left.Some? && p.CatchUp(h, r).link == p.link
    ensures p.CatchUp(h, r).virtualHost == p.virtualHost && p.CatchUp(h, r).pid == p.pid
  {
  }

  lemma TickPassesByOvertaken(s: State, i: nat, input: TickInput, net: Net)
    requires Sound(s) && s.phase.Playing? && i < |s.players|
    requires s.players[i].cursor.Some? && s.players[i].cursor.value < s.history.FirstSeq()
    ensures var t := OnTick(s, input, net);
            |t.players| == |s.players| && t.players[i].pid == s.players[i].pid && t.players[i].left.Some?
            && t.players[i].virtualHost == s.players[i].virtualHost
            && t.players[i].link.feed == s.players[i].link.feed
  {
    PlayingTickIsPlayTick(s, input, net);
    var m := BeforePump(s, input, net);
    assert Kept(s.players[i], m.players[i]);
    PumpPassesByOvertaken(m.players[i], m.history, Answers(net, m.clock, m.players[i].pid));
    var a := Pump(m, net);
    assert a.players[i].left.Some? && a.players[i].link == m.players[i].link;
    PlayTickIsKept(m, input, net);
    assert Kept(a.players[i], PlayTick(m, input, net).players[i]);
  }

  /** No gap is ever fed: on every run, a player whose cursor was overtaken by
      eviction is handed nothing by the next tick of the game and is no longer
      seated after it. */
  lemma OvertakenRejoinerIsDropped(limit: nat, s: State, i: nat, input: TickInput, net: Net)
    requires Reachable(limit, s) && s.phase.Playing?
    requires i < |s.players| && !s.players[i].virtualHost
    requires s.players[i].cursor.Some? && s.players[i].cursor.value < s.history.FirstSeq()
    ensures |OnTick(s, input, net).players| == |s.players|
    ensures OnTick(s, input, net).players[i].link.feed == s.players[i].link.feed
    ensures !Taken(Next(s, DoTick(input), net).players, s.players[i].pid)
  {
    ReachableIsSound(limit, s);
    NextOfTick(s, input, net);
    TickPassesByOvertaken(s, i, input, net);
    OnTickIsSound(s, input, net);
    LeaverIsReaped(OnTick(s, input, net), net, i);
  }

  lemma NextOfTick(s: State, input: TickInput, net: Net)
    ensures Next(s, DoTick(input), net) == Reap(OnTick(s, input, net), net)
  {
    HandleOfTick(s, input, net);
  }

  lemma HandleOfTick(s: State, input: TickInput, net: Net)
    ensures Handle(s, DoTick(input), net) == OnTick(s, input, net)
  {
  }

  /** The reaper unseats every player marked as gone. */
  lemma LeaverIsReaped(s: State, net: Net, i: nat)
    requires Sound(s) && i < |s.players| && !s.players[i].virtualHost && s.players[i].left.Some?
    ensures !Taken(Reap(s, net).players, s.players[i].pid)
  {
    var pid, gone := s.players[i].pid, Gone(s.players);
    GoneListsLeavers(s.players, i);
    var t := AbortCountdown(s, net);
    AbortCountdownIsSound(s, net);
    var u := ReapEach(t, gone, net);
    ReapEachIsSound(t, gone, net);
    BeginPlayingIsSound(u, net);
    forall j | 0 <= j < |u.players| ensures u.players[j].pid != pid {
      var k := Survivors(t, gone, net, j);
      assert Undisturbed(s.players[k], t.players[k]);
    }
    var v := Reap(s, net);
    assert |v.players| == |u.players|;
    forall j | 0 <= j < |v.players| ensures v.players[j].pid != pid {
      assert v == u || Undisturbed(MapPlayers(u.players, ResetForPlay)[j], v.players[j]);
    }
  }
}
