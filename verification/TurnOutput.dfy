/** What one turn puts on the wire, on the relay and in the replay
    (crates/spectre-engine/src/actions.rs, `send_all_actions`). */
module TurnOutput {
  import opened Basics
  import opened Packets
  import opened Seats
  import opened Batching
  import opened Engine
  import opened EngineSafety
  import opened Feeds

  /** The action packets of a turn cut into `batches`: overflow packets, then
      exactly one closing packet. */
  ghost predicate ActionPackets(pkts: seq<Packet>, batches: seq<seq<Action>>, interval: nat) {
    && |pkts| == |batches| > 0
    && Last(pkts) == IncomingAction(Last(batches), interval)
    && forall i :: 0 <= i < |pkts| - 1 ==> pkts[i] == IncomingAction2(batches[i])
  }

  ghost predicate ReplaySlots(slots: seq<Timeslot>, batches: seq<seq<Action>>, interval: nat) {
    && |slots| == |batches| > 0
    && Last(slots) == Timeslot(Last(batches), interval)
    && forall i :: 0 <= i < |slots| - 1 ==> slots[i] == Timeslot2(batches[i])
  }

  lemma {:induction false} BroadcastAllLogs(s: State, pkts: seq<Packet>, net: Net)
    requires s.phase.Playing?
    ensures var t := BroadcastAll(s, pkts, net);
            && t.phase.Playing?
            && t.trace == s.trace.(log := s.trace.log + pkts)
    decreases |pkts|
  {
    if pkts == [] {
      assert s.trace.log + pkts == s.trace.log;
    } else {
      BroadcastAllLogs(Broadcast(s, pkts[0], net), pkts[1..], net);
      assert s.trace.log + [pkts[0]] + pkts[1..] == s.trace.log + pkts;
    }
  }

  // ---- the rest of the tick ----

  predicate IsAction(pkt: Packet) {
    pkt.IncomingAction? || pkt.IncomingAction2?
  }

  ghost predicate NoActions(pkts: seq<Packet>) {
    forall i :: 0 <= i < |pkts| ==> !IsAction(pkts[i])
  }

  /** From `s` to `t` only `added` was broadcast, and nothing recorded. */
  ghost predicate Grown(s: State, t: State, added: seq<Packet>) {
    && t.phase.Playing? && t.actions == s.actions && t.game.period == s.game.period
    && t.trace.relayed == s.trace.relayed && t.trace.recorded == s.trace.recorded
    && t.trace.log == s.trace.log + added && NoActions(added)
  }

  lemma GrownTransitive(s: State, t: State, u: State, a: seq<Packet>, b: seq<Packet>)
    requires Grown(s, t, a) && Grown(t, u, b)
    ensures Grown(s, u, a + b)
  {
    Associate(s.trace.log, a, b);
  }

  lemma GrownBroadcast(s: State, pkt: Packet, net: Net)
    requires s.phase.Playing? && !IsAction(pkt)
    ensures Grown(s, Broadcast(s, pkt, net), [pkt])
  {
  }

  lemma GrownSame(s: State, t: State)
    requires s.phase.Playing? && t == s.(players := t.players, clock := t.clock, game := t.game) && t.game.period == s.game.period
    ensures Grown(s, t, [])
  {
    assert s.trace.log + [] == s.trace.log;
  }

  lemma {:induction false} ChatEachGrows(s: State, pkts: seq<Packet>, net: Net) returns (added: seq<Packet>)
    requires s.phase.Playing? && NoActions(pkts)
    ensures Grown(s, ChatEach(s, pkts, net), added)
    decreases |pkts|
  {
    if pkts == [] {
      GrownSame(s, s);
      added := [];
    } else {
      var t := ChatAll(s, pkts[0], net);
      var first := if HasAudience(s) then [pkts[0]] else [];
      GrownSame(s, s);
      GrownBroadcast(s, pkts[0], net);
      added := ChatEachGrows(t, pkts[1..], net);
      GrownTransitive(s, t, ChatEach(t, pkts[1..], net), first, added);
      added := first + added;
    }
  }

  lemma {:induction false} BroadcastAllGrows(s: State, pkts: seq<Packet>, net: Net)
    requires s.phase.Playing? && NoActions(pkts)
    ensures Grown(s, BroadcastAll(s, pkts, net), pkts)
    decreases |pkts|
  {
    if pkts == [] {
      GrownSame(s, s);
    } else {
      var t := Broadcast(s, pkts[0], net);
      GrownBroadcast(s, pkts[0], net);
      BroadcastAllGrows(t, pkts[1..], net);
      GrownTransitive(s, t, BroadcastAll(t, pkts[1..], net), [pkts[0]], pkts[1..]);
      assert [pkts[0]] + pkts[1..] == pkts;
    }
  }

  lemma JudgeGrows(s: State, turn: nat, net: Net) returns (added: seq<Packet>)
    requires s.phase.Playing?
    ensures Grown(s, Judge(s, turn, net), added)
  {
    var pkt := Chat("Desync detected!");
    GrownSame(s, s);
    GrownBroadcast(s, pkt, net);
    added := if HasAudience(s) then [pkt] else [];
  }

  lemma {:induction false} CheckDesyncGrows(s: State, net: Net) returns (added: seq<Packet>)
    requires s.phase.Playing?
    ensures Grown(s, CheckDesync(s, net), added)
    decreases Queued(s.players)
  {
    var min := MinTurn(s.players);
    added := [];
    if ActiveCount(s.players) >= 2 && min.Some? && !InFlight(s.players, min.value) {
      if Disagree(s.players, min.value) {
        added := JudgeGrows(s, min.value, net);
      } else {
        MinTurnIsLowest(s.players);
        PopTurnShrinks(s.players, min.value);
        var t := s.(players := PopTurn(s.players, min.value));
        GrownSame(s, t);
        added := CheckDesyncGrows(t, net);
        GrownTransitive(s, t, CheckDesync(t, net), [], added);
        assert [] + added == added;
      }
    } else {
      GrownSame(s, CheckDesync(s, net));
    }
  }

  lemma {:induction false} StopLagsAreNoActions(g: Turns, ps: seq<Player>)
    ensures NoActions(StopLags(g, ps))
  {
    if ps != [] {
      StopLagsAreNoActions(g, Most(ps));
    }
  }

  lemma CheckLagGrows(s: State, reset: bool, net: Net) returns (added: seq<Packet>)
    requires s.phase.Playing? && !CheckLag(s, reset, net).game.lagging
    ensures Grown(s, CheckLag(s, reset, net), added)
  {
    var newly := NewLaggers(s.game, s.players);
    StopLagsAreNoActions(s.game, s.players);
    added := StopLags(s.game, s.players) + (if newly == [] then [] else [StartLag(newly)]);
    var r := s.(players := LagUpdateAll(s.game, s.players));
    GrownSame(s, r);
    BroadcastAllGrows(r, added, net);
    var t := BroadcastAll(r, added, net);
    GrownTransitive(s, r, t, [], added);
    assert [] + added == added;
    NotLaggingMeansNoReset(s, reset, net, t);
  }

  lemma NotLaggingMeansNoReset(s: State, reset: bool, net: Net, t: State)
    requires !CheckLag(s, reset, net).game.lagging
    requires var newly := NewLaggers(s.game, s.players);
             t == BroadcastAll(s.(players := LagUpdateAll(s.game, s.players)),
                               StopLags(s.game, s.players) + (if newly == [] then [] else [StartLag(newly)]), net)
    ensures CheckLag(s, reset, net) == t.(game := t.game.(lagging := false))
  {
    var u := t.(game := t.game.(lagging := AnyLagging(t.players)));
    var late := Laggers(u.players);
    BroadcastAllKeepsGame(u, StopLagPackets(late) + [IncomingAction([], 0), StartLag(late)], net);
  }

  lemma {:induction false} BroadcastAllKeepsGame(s: State, pkts: seq<Packet>, net: Net)
    ensures BroadcastAll(s, pkts, net).game == s.game
    decreases |pkts|
  {
    if pkts != [] {
      BroadcastAllKeepsGame(Broadcast(s, pkts[0], net), pkts[1..], net);
    }
  }

  /** What a tick broadcasts before its turn: never an action packet. */
  lemma BeforeTurnGrows(s: State, input: TickInput, net: Net) returns (added: seq<Packet>)
    requires Sound(s) && s.phase.Playing? && !BeforeTurn(BeforePump(s, input, net), input, net).game.lagging
    ensures Grown(s, BeforeTurn(BeforePump(s, input, net), input, net), added)
  {
    var e := s.(players := ExpireAll(s.players, input.expired));
    GrownSame(s, e);
    var a := ChatEachGrows(e, Chats(input.notices), net);
    var m := BeforePump(s, input, net);
    GrownTransitive(s, e, m, [], a);
    var f := FakeSync(Pump(m, net));
    GrownSame(m, f);
    var b := CheckDesyncGrows(f, net);
    var d := CheckDesync(f, net);
    GrownTransitive(m, f, d, [], b);
    var c := CheckLagGrows(d, input.resetScreen, net);
    GrownTransitive(s, m, d, [] + a, [] + b);
    GrownTransitive(s, d, CheckLag(d, input.resetScreen, net), [] + a + ([] + b), c);
    added := [] + a + ([] + b) + c;
  }

  /** A turn on every run. In a tick at which nobody is lagging the whole queue
      is sent, in order, in packets of at most 1452 bytes, as few as any
      order-preserving split allows; the clients, the relay and the replay get
      the same batches. Of everything the tick broadcasts, these packets alone
      carry actions, one of them is an INCOMING_ACTION, and it comes last. */
  lemma TickSendsTheQueue(limit: nat, s: State, input: TickInput, net: Net)
    returns (batches: seq<seq<Action>>, sent: seq<Packet>, slots: seq<Timeslot>, before: seq<Packet>, notice: seq<Packet>)
    requires Reachable(limit, s) && s.phase.Playing?
    requires !BeforeTurn(BeforePump(s, input, net), input, net).game.lagging
    ensures IsSplit(batches, s.actions)
    ensures forall other :: IsSplit(other, s.actions) ==> |batches| <= |other|
    ensures var interval := Min(Elapsed(s.game.period, input.skipped), U16_MAX);
            ActionPackets(sent, batches, interval) && ReplaySlots(slots, batches, interval)
    ensures NoActions(before) && NoActions(notice) && |notice| <= 1
    ensures TurnSent(s, OnTick(s, input, net), before, sent, notice, slots)
  {
    ReachableIsSound(limit, s);
    batches := Cut(s.actions, []);
    CutIsBest(s.actions);
    sent, slots, before, notice := TickTrace(s, input, net);
  }

  lemma TickTrace(s: State, input: TickInput, net: Net)
    returns (sent: seq<Packet>, slots: seq<Timeslot>, before: seq<Packet>, notice: seq<Packet>)
    requires Sound(s) && s.phase.Playing?
    requires !BeforeTurn(BeforePump(s, input, net), input, net).game.lagging
    ensures var interval := Min(Elapsed(s.game.period, input.skipped), U16_MAX);
            ActionPackets(sent, Cut(s.actions, []), interval) && ReplaySlots(slots, Cut(s.actions, []), interval)
    ensures NoActions(before) && NoActions(notice) && |notice| <= 1
    ensures TurnSent(s, OnTick(s, input, net), before, sent, notice, slots)
  {
    before := BeforeTurnGrows(s, input, net);
    TickIsTheTurn(s, input, net);
    var b := BeforeTurn(BeforePump(s, input, net), input, net);
    sent, slots, notice := TurnTrace(b, input.skipped, WinnerNotice(input.winner), net);
    var t := SendAllActions(b, input.skipped, WinnerNotice(input.winner), net);
    GrownThenSent(s, b, t, before, sent, notice, slots);
  }

  /** From `s` to `t`: the queue is emptied; `before`, then the turn's packets
      with `notice` ahead of the closing one, are broadcast. */
  ghost predicate TurnSent(s: State, t: State, before: seq<Packet>, sent: seq<Packet>, notice: seq<Packet>, slots: seq<Timeslot>) {
    && t.actions == [] && sent != []
    && t.trace.log == s.trace.log + before + Most(sent) + notice + [Last(sent)]
    && t.trace.relayed == s.trace.relayed + sent
    && t.trace.recorded == s.trace.recorded + slots
  }

  lemma CutIsBest(actions: seq<Action>)
    requires forall i :: 0 <= i < |actions| ==> Acceptable(actions[i])
    ensures IsSplit(Cut(actions, []), actions)
    ensures forall other :: IsSplit(other, actions) ==> |Cut(actions, [])| <= |other|
  {
    CutIsSplit(actions, []);
    assert [] + actions == actions;
    forall other | IsSplit(other, actions) ensures |Cut(actions, [])| <= |other| {
      CutIsMinimal(actions, [], other);
    }
  }

  lemma GrownThenSent(s: State, b: State, t: State, before: seq<Packet>, sent: seq<Packet>, notice: seq<Packet>, slots: seq<Timeslot>)
    requires Grown(s, b, before) && TurnSent(b, t, [], sent, notice, slots)
    ensures TurnSent(s, t, before, sent, notice, slots)
  {
    assert b.trace.log + [] == b.trace.log;
  }

  lemma TickIsTheTurn(s: State, input: TickInput, net: Net)
    requires s.phase.Playing? && Sound(s)
    requires !BeforeTurn(BeforePump(s, input, net), input, net).game.lagging
    ensures var u := SendAllActions(BeforeTurn(BeforePump(s, input, net), input, net), input.skipped, WinnerNotice(input.winner), net);
            OnTick(s, input, net).trace == u.trace && OnTick(s, input, net).actions == u.actions
  {
    PlayingTickIsPlayTick(s, input, net);
    TurnIsTheRest(BeforePump(s, input, net), input, net);
  }

  lemma TurnIsTheRest(s: State, input: TickInput, net: Net)
    requires !BeforeTurn(s, input, net).game.lagging
    ensures var u := SendAllActions(BeforeTurn(s, input, net), input.skipped, WinnerNotice(input.winner), net);
            PlayTick(s, input, net).trace == u.trace && PlayTick(s, input, net).actions == u.actions
  {
  }

  lemma TurnTrace(s: State, skipped: nat, winner: Option<Packet>, net: Net)
    returns (sent: seq<Packet>, slots: seq<Timeslot>, notice: seq<Packet>)
    requires s.phase.Playing?
    ensures notice == [] || (winner.Some? && notice == [winner.value])
    ensures var batches := Cut(s.actions, []);
            var interval := Min(Elapsed(s.game.period, skipped), U16_MAX);
            ActionPackets(sent, batches, interval) && ReplaySlots(slots, batches, interval)
    ensures TurnSent(s, SendAllActions(s, skipped, winner, net), [], sent, notice, slots)
  {
    sent, slots, notice := FinishedTrace(s, skipped, winner, Cut(s.actions, []), net);
    TurnIsNoted(s, skipped, winner, net);
  }

  lemma FinishedTrace(s: State, skipped: nat, winner: Option<Packet>, batches: seq<seq<Action>>, net: Net)
    returns (sent: seq<Packet>, slots: seq<Timeslot>, notice: seq<Packet>)
    requires s.phase.Playing? && batches != []
    ensures notice == [] || (winner.Some? && notice == [winner.value])
    ensures var interval := Min(Elapsed(s.game.period, skipped), U16_MAX);
            ActionPackets(sent, batches, interval) && ReplaySlots(slots, batches, interval)
    ensures TurnSent(s, Finished(s, skipped, winner, batches, net), [], sent, notice, slots)
  {
    var interval := Min(Elapsed(s.game.period, skipped), U16_MAX);
    var overflow, last := Most(batches), Last(batches);
    sent := Overflows(overflow) + [IncomingAction(last, interval)];
    slots := OverflowSlots(overflow) + [Timeslot(last, interval)];
    SentShape(batches, interval);
    var t := Noted(s, skipped, overflow, last);
    NotedTrace(s, skipped, overflow, last);
    BroadcastAllLogs(t, Overflows(overflow), net);
    BroadcastAllKeepsQueue(t, Overflows(overflow), net);
    var u := BroadcastAll(t, Overflows(overflow), net);
    notice := if winner.Some? && HasAudience(u) then [winner.value] else [];
    ClosingPacket(u, winner, IncomingAction(last, interval), notice, net);
    var v := Broadcast(if winner.Some? then ChatAll(u, winner.value, net) else u, IncomingAction(last, interval), net);
    SentAfter(s, t, v, Overflows(overflow), notice, IncomingAction(last, interval), slots);
  }

  /** Noted, sent and closed, in terms of the traces alone. */
  lemma SentAfter(s: State, t: State, v: State, overflows: seq<Packet>, notice: seq<Packet>, last: Packet, slots: seq<Timeslot>)
    requires t.trace.log == s.trace.log && v.actions == []
    requires t.trace.relayed == s.trace.relayed + (overflows + [last]) && t.trace.recorded == s.trace.recorded + slots
    requires v.trace == t.trace.(log := t.trace.log + overflows + notice + [last])
    ensures TurnSent(s, v, [], overflows + [last], notice, slots)
  {
    assert s.trace.log + [] == s.trace.log;
    assert Most(overflows + [last]) == overflows && Last(overflows + [last]) == last;
  }

  lemma NotedTrace(s: State, skipped: nat, overflow: seq<seq<Action>>, last: seq<Action>)
    ensures var interval := Min(Elapsed(s.game.period, skipped), U16_MAX);
            var t := Noted(s, skipped, overflow, last);
            && t.actions == [] && t.phase == s.phase && t.trace.log == s.trace.log
            && t.trace.relayed == s.trace.relayed + (Overflows(overflow) + [IncomingAction(last, interval)])
            && t.trace.recorded == s.trace.recorded + (OverflowSlots(overflow) + [Timeslot(last, interval)])
  {
    var interval := Min(Elapsed(s.game.period, skipped), U16_MAX);
    Associate(s.trace.relayed, Overflows(overflow), [IncomingAction(last, interval)]);
    Associate(s.trace.recorded, OverflowSlots(overflow), [Timeslot(last, interval)]);
  }

  /** The end of a turn: perhaps a notice, then the closing packet. */
  lemma ClosingPacket(u: State, winner: Option<Packet>, pkt: Packet, notice: seq<Packet>, net: Net)
    requires u.phase.Playing? && notice == if winner.Some? && HasAudience(u) then [winner.value] else []
    ensures var t := Broadcast(if winner.Some? then ChatAll(u, winner.value, net) else u, pkt, net);
            t.trace == u.trace.(log := u.trace.log + notice + [pkt]) && t.actions == u.actions
  {
  }

  lemma TurnIsNoted(s: State, skipped: nat, winner: Option<Packet>, net: Net)
    ensures SendAllActions(s, skipped, winner, net) == Finished(s, skipped, winner, Cut(s.actions, []), net)
  {
  }

  ghost function Finished(s: State, skipped: nat, winner: Option<Packet>, batches: seq<seq<Action>>, net: Net): State
    requires batches != []
  {
    var u := BroadcastAll(Noted(s, skipped, Most(batches), Last(batches)), Overflows(Most(batches)), net);
    Broadcast(if winner.Some? then ChatAll(u, winner.value, net) else u,
              IncomingAction(Last(batches), Min(Elapsed(s.game.period, skipped), U16_MAX)), net)
  }

  /** The turn counted, recorded and relayed, before anything is sent. */
  ghost function Noted(s: State, skipped: nat, overflow: seq<seq<Action>>, last: seq<Action>): State {
    var elapsed := Elapsed(s.game.period, skipped);
    var interval := Min(elapsed, U16_MAX);
    s.(actions := [],
       game := s.game.(sync := WrappingAdd(s.game.sync, 1), ticks := WrappingAdd(s.game.ticks, elapsed),
                       turns := s.game.turns + 1),
       trace := s.trace.(relayed := s.trace.relayed + Overflows(overflow) + [IncomingAction(last, interval)],
                         recorded := s.trace.recorded + OverflowSlots(overflow) + [Timeslot(last, interval)]))
  }

  lemma SentShape(batches: seq<seq<Action>>, interval: nat)
    requires batches != []
    ensures var sent := Overflows(Most(batches)) + [IncomingAction(Last(batches), interval)];
            ActionPackets(sent, batches, interval) && Most(sent) == Overflows(Most(batches))
    ensures ReplaySlots(OverflowSlots(Most(batches)) + [Timeslot(Last(batches), interval)], batches, interval)
  {
  }

  lemma {:induction false} BroadcastAllKeepsQueue(s: State, pkts: seq<Packet>, net: Net)
    ensures BroadcastAll(s, pkts, net).actions == s.actions
    decreases |pkts|
  {
    if pkts != [] {
      BroadcastAllKeepsQueue(Broadcast(s, pkts[0], net), pkts[1..], net);
    }
  }
}
