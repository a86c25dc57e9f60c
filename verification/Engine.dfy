/** The game actor as a step machine: each handler of the engine as a function
    on the game's state (crates/spectre-engine/src/state.rs, actions.rs,
    full_rejoin.rs, lagcheck.rs, gproxy.rs, actor.rs, lobby.rs, mapxfer.rs).

    Every answer of a link is supplied by `net`: `net(k, pid, j)` is the answer
    to the `j`-th send to `pid` in round `k`; `clock` counts rounds, so no
    answer is used twice. Timers are inputs of the tick. */
module Engine {
  import opened Basics
  import opened Packets
  import opened Histories
  import opened GProxy
  import opened Seats
  import opened Batching

  type Net = (nat, nat, nat) -> Send

  /** The answers to successive sends to one player in one round. */
  function Answers(net: Net, round: nat, pid: nat): nat -> Send {
    (j: nat) => net(round, pid, j)
  }

  datatype Phase = Lobby | Countdown | Loading | Playing | Over

  /** The game's own turn bookkeeping; `turns` is the unwrapped turn count. */
  datatype Turns = Turns(sync: nat, ticks: nat, period: nat, limit: nat, lagging: bool, turns: nat)

  /** A checksum queued for comparison, and a desync verdict. */
  datatype Report = Report(pid: nat, turn: nat, sum: nat)
  datatype Verdict = Verdict(turn: nat, kicked: seq<nat>)

  /** History: all Playing-phase broadcasts, all queued checksums, all desync
      verdicts, everything pushed to the relay and to the replay. */
  datatype Trace = Trace(log: seq<Packet>, reports: seq<Report>, verdicts: seq<Verdict>,
                         relayed: seq<Packet>, recorded: seq<Timeslot>)

  datatype State = State(
    phase: Phase, players: seq<Player>, game: Turns, actions: seq<Action>, history: History,
    fakePid: Option<nat>, hostPid: Option<nat>, startedLoading: bool,
    pendingFull: map<nat, (nat, nat)>, trace: Trace, clock: nat)

  function MapPlayers(ps: seq<Player>, f: Player -> Player): (qs: seq<Player>)
    ensures |qs| == |ps|
    ensures forall i :: 0 <= i < |ps| ==> qs[i] == f(ps[i])
  {
    seq(|ps|, i requires 0 <= i < |ps| => f(ps[i]))
  }

  /** Position of the first player with that pid (`by_pid`), or the length. */
  function ByPid(ps: seq<Player>, pid: nat): (i: nat)
    ensures i <= |ps|
    ensures i < |ps| ==> ps[i].pid == pid
    ensures forall j :: 0 <= j < i ==> ps[j].pid != pid
  {
    if ps == [] || ps[0].pid == pid then 0 else 1 + ByPid(ps[1..], pid)
  }

  function ByConn(ps: seq<Player>, conn: nat): (i: nat)
    ensures i <= |ps|
    ensures i < |ps| ==> ps[i].conn == conn
    ensures forall j :: 0 <= j < i ==> ps[j].conn != conn
  {
    if ps == [] || ps[0].conn == conn then 0 else 1 + ByConn(ps[1..], conn)
  }

  predicate Taken(ps: seq<Player>, pid: nat) {
    ByPid(ps, pid) < |ps|
  }

  /** `next_free_pid`: the lowest unused pid in 1..=254. */
  function NextFreePid(ps: seq<Player>, from: nat): (r: Option<nat>)
    ensures r.Some? ==> from <= r.value <= 254 && !Taken(ps, r.value)
    ensures forall c :: from <= c <= 254 && !Taken(ps, c) ==> r.Some? && r.value <= c
    decreases 255 - from
  {
    if from > 254 then None
    else if !Taken(ps, from) then Some(from)
    else NextFreePid(ps, from + 1)
  }

  function Without(ps: seq<Player>, pid: nat): seq<Player> {
    var i := ByPid(ps, pid);
    if i < |ps| then ps[..i] + ps[i + 1..] else ps
  }

  // ---- sending ----

  function Broadcast(s: State, pkt: Packet, net: Net): State {
    var turn := s.phase.Playing?;
    var players := MapPlayers(s.players, (p: Player) => p.OnBroadcast(pkt, turn, net(s.clock, p.pid, 0)));
    if turn then
      s.(players := players, clock := s.clock + 1, history := s.history.Push(pkt),
         trace := s.trace.(log := s.trace.log + [pkt]))
    else s.(players := players, clock := s.clock + 1)
  }

  function BroadcastAll(s: State, pkts: seq<Packet>, net: Net): State
    decreases |pkts|
  {
    if pkts == [] then s else BroadcastAll(Broadcast(s, pkts[0], net), pkts[1..], net)
  }

  function SendTo(s: State, pid: nat, pkt: Packet, net: Net): State {
    var i := ByPid(s.players, pid);
    if i == |s.players| then s
    else s.(players := s.players[i := s.players[i].OnDirect(pkt, net(s.clock, pid, 0))], clock := s.clock + 1)
  }

  function SendAllTo(s: State, pid: nat, pkts: seq<Packet>, net: Net): State
    decreases |pkts|
  {
    if pkts == [] then s else SendAllTo(SendTo(s, pid, pkts[0], net), pid, pkts[1..], net)
  }

  /** `send_chat_all` sends nothing when there is no host pid or nobody to
      tell; a seated player is always a host when no virtual host is. */
  predicate HasAudience(s: State) {
    exists i :: 0 <= i < |s.players| && s.players[i].Present()
  }

  function ChatAll(s: State, pkt: Packet, net: Net): State {
    if HasAudience(s) then Broadcast(s, pkt, net) else s
  }

  function ChatEach(s: State, pkts: seq<Packet>, net: Net): State
    decreases |pkts|
  {
    if pkts == [] then s else ChatEach(ChatAll(s, pkts[0], net), pkts[1..], net)
  }

  function Kick(s: State, pid: nat, reason: Reason, code: nat): State {
    var i := ByPid(s.players, pid);
    if i == |s.players| then s
    else s.(players := s.players[i := s.players[i].(left := Some(reason), leftCode := code)])
  }

  /** Pids of the players other than `pid` that are still in the game. */
  function Others(ps: seq<Player>, pid: nat): seq<nat> {
    if ps == [] then []
    else Others(Most(ps), pid) + (if Last(ps).pid != pid && Last(ps).Present() then [Last(ps).pid] else [])
  }

  // ---- starting the game ----

  function ResetForPlay(p: Player): Player {
    p.(loaded := true,
       pace := p.pace.(sync := 0, checksums := [],
                       paced := p.rejoin == NoRejoin && p.cursor.None? && !p.pace.catchingUp))
  }

  function BeginPlaying(s: State, net: Net): State {
    var t := s.(phase := Playing, players := MapPlayers(s.players, ResetForPlay), startedLoading := false,
                game := s.game.(sync := 0, ticks := 0, turns := 0));
    if s.startedLoading then
      LoadTimes(ChatEach(t, [Chat("shortest load"), Chat("longest load")], net), HumanPids(t.players), net)
    else t
  }

  function HumanPids(ps: seq<Player>): seq<nat> {
    if ps == [] then [] else HumanPids(Most(ps)) + (if Last(ps).virtualHost then [] else [Last(ps).pid])
  }

  /** The personal load-time messages. */
  function LoadTimes(s: State, pids: seq<nat>, net: Net): State
    decreases |pids|
  {
    if pids == [] then s else LoadTimes(SendTo(s, pids[0], Chat("load time"), net), pids[1..], net)
  }

  predicate AllLoaded(ps: seq<Player>) {
    forall i :: 0 <= i < |ps| ==> ps[i].loaded
  }

  predicate HumansLoaded(ps: seq<Player>) {
    forall i :: 0 <= i < |ps| && !ps[i].virtualHost ==> ps[i].loaded
  }

  /** `handle_loaded`: GAME_LOADED_SELF, first for a rejoiner, else for anyone
      in any phase. */
  function HandleLoaded(s: State, conn: nat, net: Net): State {
    var i := ByConn(s.players, conn);
    if i == |s.players| then s
    else
      var p := s.players[i];
      if p.rejoin == AwaitingLoaded then
        if s.history.FirstSeq() > 0 then
          s.(players := s.players[i := p.(rejoin := NoRejoin, left := Some(HistoryTooLong),
                                          leftCode := PLAYERLEAVE_DISCONNECT)])
        else
          var pkts := LoadedPackets(Others(s.players, p.pid));
          Broadcast(ArmCursor(SendAllTo(s, p.pid, pkts, net), p.pid), GameLoadedOthers(p.pid), net)
      else
        var t := Broadcast(s.(players := s.players[i := p.(loaded := true)]), GameLoadedOthers(p.pid), net);
        if AllLoaded(t.players) then BeginPlaying(t, net) else t
  }

  function LoadedPackets(pids: seq<nat>): seq<Packet> {
    seq(|pids|, i requires 0 <= i < |pids| => GameLoadedOthers(pids[i]))
  }

  function ArmCursor(s: State, pid: nat): State {
    var i := ByPid(s.players, pid);
    if i == |s.players| then s
    else
      var p := s.players[i];
      s.(players := s.players[i := p.(loaded := true, rejoin := NoRejoin, cursor := Some(s.history.FirstSeq()),
                                      pace := p.pace.(catchingUp := true,
                                                      paced := false))])
  }

  /** `handle_map_size` while a rejoiner's map report is awaited. */
  function HandleMapSize(s: State, conn: nat, net: Net): State {
    var i := ByConn(s.players, conn);
    if i == |s.players| || s.players[i].rejoin != AwaitingMapSize then s
    else
      var t := SendAllTo(s, s.players[i].pid, [CountdownStart, CountdownEnd], net);
      var j := ByPid(t.players, s.players[i].pid);
      if j == |t.players| then t
      else t.(players := t.players[j := t.players[j].(rejoin := AwaitingLoaded)])
  }

  // ---- rejoining and reconnecting ----

  function LowerAscii(c: char): char {
    if 'A' <= c <= 'Z' then (c as int + 32) as char else c
  }

  predicate SameName(a: string, b: string) {
    |a| == |b| && forall i :: 0 <= i < |a| ==> LowerAscii(a[i]) == LowerAscii(b[i])
  }

  /** The guards of `try_full_rejoin`, in its order. */
  predicate RejoinAccepted(s: State, conn: nat, name: string) {
    && (s.phase.Playing? || s.phase.Loading?)
    && conn in s.pendingFull
    && var (pid, key) := s.pendingFull[conn];
    var i := ByPid(s.players, pid);
    && i < |s.players|
    && s.players[i].disconnected && s.players[i].left.None?
    && SameName(s.players[i].name, name)
    && s.players[i].key == key
  }

  function TryFullRejoin(s: State, conn: nat, name: string, net: Net): State {
    if !RejoinAccepted(s, conn, name) then s
    else
      var pid := s.pendingFull[conn].0;
      var i := ByPid(s.players, pid);
      var t := s.(players := s.players[i := s.players[i].Rejoin(conn, s.clock)], pendingFull := s.pendingFull - {conn},
                  clock := s.clock + 1);
      SendAllTo(t, pid, [SlotInfoJoin(pid)] + InfoPackets(Others(t.players, pid)) + [MapCheck], net)
  }

  function InfoPackets(pids: seq<nat>): seq<Packet> {
    seq(|pids|, i requires 0 <= i < |pids| => PlayerInfo(pids[i]))
  }

  predicate ReconnectAccepted(s: State, pid: nat, key: nat, last: nat) {
    var i := ByPid(s.players, pid);
    && i < |s.players|
    && s.players[i].gp.Some? && s.players[i].key == key
    && s.players[i].gp.value.buffer.ReplayFrom(last).Some?
  }

  function GpsReconnect(s: State, conn: nat, pid: nat, key: nat, last: nat, net: Net): State {
    if !ReconnectAccepted(s, pid, key, last) then s
    else
      var i := ByPid(s.players, pid);
      var p := s.players[i];
      var replay := p.gp.value.buffer.ReplayFrom(last).value;
      s.(players := s.players[i := p.Reconnect(conn, s.clock, last, replay, Answers(net, s.clock, pid))],
         clock := s.clock + 1)
  }

  /** GPS INIT: the client announces itself; its reply is not numbered. */
  function GpsInit(s: State, conn: nat, net: Net): State {
    var i := ByConn(s.players, conn);
    if i == |s.players| then s
    else
      var p := s.players[i];
      s.(players := s.players[i := p.(gp := if p.gp.Some? then p.gp else Some(NewResend()),
                                      link := p.link.Touch(net(s.clock, p.pid, 0)))],
         clock := s.clock + 1)
  }

  function ConnClosed(s: State, conn: nat): State {
    var t := s.(pendingFull := s.pendingFull - {conn});
    var i := ByConn(t.players, conn);
    if i == |t.players| then t
    else
      var p := t.players[i];
      if p.gp.Some? then t.(players := t.players[i := p.(disconnected := true)])
      else if p.left.None? then
        t.(players := t.players[i := p.(left := Some(ConnectionClosed),
                                        leftCode := if s.phase.Lobby? || s.phase.Countdown?
                                                    then PLAYERLEAVE_LOBBY else PLAYERLEAVE_DISCONNECT)])
      else t
  }

  // ---- desync detection ----

  predicate Active(p: Player) {
    p.Present() && p.loaded && !p.pace.catchingUp
  }

  predicate Participant(p: Player, turn: nat) {
    Active(p) && p.pace.checksums != [] && p.pace.checksums[0].turn == turn
  }

  function ActiveCount(ps: seq<Player>): nat {
    if ps == [] then 0 else ActiveCount(Most(ps)) + (if Active(Last(ps)) then 1 else 0)
  }

  /** Lowest turn at the head of an active player's queue. */
  function MinTurn(ps: seq<Player>): Option<nat> {
    if ps == [] then None
    else
      var m, p := MinTurn(Most(ps)), Last(ps);
      if Active(p) && p.pace.checksums != [] && (m.None? || p.pace.checksums[0].turn < m.value)
      then Some(p.pace.checksums[0].turn) else m
  }

  lemma {:induction false} MinTurnIsLowest(ps: seq<Player>)
    ensures MinTurn(ps).Some? ==> exists i :: 0 <= i < |ps| && Participant(ps[i], MinTurn(ps).value)
    ensures forall i :: 0 <= i < |ps| && Active(ps[i]) && ps[i].pace.checksums != [] ==>
              MinTurn(ps).Some? && MinTurn(ps).value <= ps[i].pace.checksums[0].turn
  {
    if ps != [] {
      MinTurnIsLowest(Most(ps));
      var m := MinTurn(ps);
      if m.Some? {
        if m == MinTurn(Most(ps)) {
          var i :| 0 <= i < |Most(ps)| && Participant(Most(ps)[i], m.value);
          assert Participant(ps[i], m.value);
        } else {
          assert Participant(ps[|ps| - 1], m.value);
        }
      }
    }
  }

  predicate InFlight(ps: seq<Player>, turn: nat) {
    exists i :: 0 <= i < |ps| && Active(ps[i]) && ps[i].pace.sync < turn
  }

  predicate Disagree(ps: seq<Player>, turn: nat) {
    exists i, j :: 0 <= i < |ps| && 0 <= j < |ps| && Participant(ps[i], turn) && Participant(ps[j], turn)
      && ps[i].pace.checksums[0].sum != ps[j].pace.checksums[0].sum
  }

  /** How many participants of the turn reported `sum`. */
  function Votes(ps: seq<Player>, turn: nat, sum: nat): nat {
    if ps == [] then 0
    else Votes(Most(ps), turn, sum) + (if Participant(Last(ps), turn) && Last(ps).pace.checksums[0].sum == sum then 1 else 0)
  }

  /** `sum` is the unique most frequent checksum of the turn. */
  predicate Wins(ps: seq<Player>, turn: nat, sum: nat) {
    forall i :: 0 <= i < |ps| && Participant(ps[i], turn) && ps[i].pace.checksums[0].sum != sum ==>
      Votes(ps, turn, ps[i].pace.checksums[0].sum) < Votes(ps, turn, sum)
  }

  /** Who is dropped: every participant outside the unique largest group; with
      no unique largest group, every participant. */
  predicate Condemned(ps: seq<Player>, turn: nat, p: Player) {
    Participant(p, turn) && !Wins(ps, turn, p.pace.checksums[0].sum)
  }

  function CondemnedPids(all: seq<Player>, turn: nat, ps: seq<Player>): seq<nat> {
    if ps == [] then []
    else CondemnedPids(all, turn, Most(ps)) + (if Condemned(all, turn, Last(ps)) then [Last(ps).pid] else [])
  }

  function PopFront(p: Player): Player {
    if p.pace.checksums == [] then p else p.(pace := p.pace.(checksums := p.pace.checksums[1..]))
  }

  function PopTurn(ps: seq<Player>, turn: nat): seq<Player> {
    MapPlayers(ps, (p: Player) => if Participant(p, turn) then PopFront(p) else p)
  }

  function ClearActive(p: Player): Player {
    if Active(p) then p.(pace := p.pace.(checksums := [])) else p
  }

  function Queued(ps: seq<Player>): nat {
    if ps == [] then 0 else |ps[0].pace.checksums| + Queued(ps[1..])
  }

  lemma {:induction false} QueuedPointwise(ps: seq<Player>, qs: seq<Player>)
    requires |ps| == |qs|
    requires forall i :: 0 <= i < |ps| ==> |qs[i].pace.checksums| <= |ps[i].pace.checksums|
    ensures Queued(qs) <= Queued(ps)
    ensures (exists i :: 0 <= i < |ps| && |qs[i].pace.checksums| < |ps[i].pace.checksums|) ==> Queued(qs) < Queued(ps)
  {
    if ps != [] {
      QueuedPointwise(ps[1..], qs[1..]);
      if i :| 0 < i < |ps| && |qs[i].pace.checksums| < |ps[i].pace.checksums| {
        assert |qs[1..][i - 1].pace.checksums| < |ps[1..][i - 1].pace.checksums|;
      }
    }
  }

  lemma {:induction false} PopTurnShrinks(ps: seq<Player>, turn: nat)
    requires exists i :: 0 <= i < |ps| && Participant(ps[i], turn)
    ensures Queued(PopTurn(ps, turn)) < Queued(ps)
  {
    var i :| 0 <= i < |ps| && Participant(ps[i], turn);
    assert |PopTurn(ps, turn)[i].pace.checksums| < |ps[i].pace.checksums|;
    QueuedPointwise(ps, PopTurn(ps, turn));
  }

  /** The players after the verdict on `turn`, given those before (`before`)
      and after (`now`) the chat announcement. */
  function Sentence(before: seq<Player>, turn: nat, now: seq<Player>): seq<Player>
    requires |before| == |now|
  {
    seq(|now|, i requires 0 <= i < |now| =>
      Sentenced(now[i], Condemned(before, turn, before[i]), Participant(before[i], turn)))
  }

  function Sentenced(p: Player, condemned: bool, judged: bool): Player {
    var q := if condemned then p.(left := Some(Desynced), leftCode := PLAYERLEAVE_LOST) else p;
    if judged then PopFront(q) else q
  }

  /** The desync branch: announce, drop the condemned, pop the turn. */
  function Judge(s: State, turn: nat, net: Net): State {
    var t := ChatAll(s, Chat("Desync detected!"), net);
    t.(players := Sentence(s.players, turn, t.players),
       trace := t.trace.(verdicts := t.trace.verdicts + [Verdict(turn, CondemnedPids(s.players, turn, s.players))]))
  }

  /** `check_desync`. */
  function CheckDesync(s: State, net: Net): State
    decreases Queued(s.players)
  {
    var min := MinTurn(s.players);
    if ActiveCount(s.players) < 2 then s.(players := MapPlayers(s.players, ClearActive))
    else if min.None? then s
    else
      var turn := min.value;
      if InFlight(s.players, turn) then s
      else if !Disagree(s.players, turn) then
        MinTurnIsLowest(s.players);
        PopTurnShrinks(s.players, turn);
        CheckDesync(s.(players := PopTurn(s.players, turn)), net)
      else Judge(s, turn, net)
  }

  function HandleKeepalive(s: State, conn: nat, sum: nat, net: Net): State {
    if !s.phase.Playing? then s
    else
      var i := ByConn(s.players, conn);
      if i == |s.players| then CheckDesync(s, net)
      else CheckDesync(Noted(s, i, sum), net)
  }

  /** The keepalive of player `i` is counted, and queued unless catching up. */
  function Noted(s: State, i: nat, sum: nat): State
    requires i < |s.players|
  {
    var p := s.players[i];
    var q := p.OnKeepalive(sum, s.game.sync);
    var t := s.(players := s.players[i := q]);
    if p.pace.catchingUp then t
    else t.(trace := t.trace.(reports := t.trace.reports + [Report(p.pid, q.pace.sync, sum)]))
  }

  // ---- lag ----

  /** The filter of `check_lag`. */
  predicate Checked(p: Player) {
    p.Present() && p.rejoin == NoRejoin && p.cursor.None? && !p.pace.catchingUp
  }

  function Behind(g: Turns, p: Player): nat {
    SaturatingSub(g.sync, p.pace.sync)
  }

  predicate Recovers(g: Turns, p: Player) {
    Checked(p) && p.pace.lagging && Behind(g, p) < g.limit / 2
  }

  predicate StartsLagging(g: Turns, p: Player) {
    Checked(p) && !p.pace.lagging && Behind(g, p) > g.limit
  }

  function LagUpdate(g: Turns, p: Player): Player {
    if Recovers(g, p) then p.(pace := p.pace.(lagging := false))
    else if StartsLagging(g, p) then p.(pace := p.pace.(lagging := true))
    else p
  }

  function LagUpdateAll(g: Turns, ps: seq<Player>): seq<Player> {
    MapPlayers(ps, (p: Player) => LagUpdate(g, p))
  }

  function StopLags(g: Turns, ps: seq<Player>): seq<Packet> {
    if ps == [] then [] else StopLags(g, Most(ps)) + (if Recovers(g, Last(ps)) then [StopLag(Last(ps).pid)] else [])
  }

  function NewLaggers(g: Turns, ps: seq<Player>): seq<nat> {
    if ps == [] then [] else NewLaggers(g, Most(ps)) + (if StartsLagging(g, Last(ps)) then [Last(ps).pid] else [])
  }

  function Laggers(ps: seq<Player>): seq<nat> {
    if ps == [] then []
    else Laggers(Most(ps)) + (if Last(ps).pace.lagging && Last(ps).Present() then [Last(ps).pid] else [])
  }

  predicate AnyLagging(ps: seq<Player>) {
    exists i :: 0 <= i < |ps| && !ps[i].virtualHost && ps[i].pace.lagging
  }

  /** `check_lag`; `reset` says that the lag screen is a minute old. */
  function CheckLag(s: State, reset: bool, net: Net): State {
    var newly := NewLaggers(s.game, s.players);
    var announce := StopLags(s.game, s.players) + (if newly == [] then [] else [StartLag(newly)]);
    var t := BroadcastAll(s.(players := LagUpdateAll(s.game, s.players)), announce, net);
    var lagging := AnyLagging(t.players);
    var u := t.(game := t.game.(lagging := lagging));
    var late := Laggers(u.players);
    if lagging && reset && late != [] then
      BroadcastAll(u, StopLagPackets(late) + [IncomingAction([], 0), StartLag(late)], net)
    else u
  }

  function StopLagPackets(pids: seq<nat>): seq<Packet> {
    seq(|pids|, i requires 0 <= i < |pids| => StopLag(pids[i]))
  }

  function DropLagging(s: State, timedOut: set<nat>): State {
    s.(players := MapPlayers(s.players, (p: Player) =>
      if Checked(p) && p.pace.lagging && !p.disconnected && p.pid in timedOut
      then p.(left := Some(LaggedOut), leftCode := PLAYERLEAVE_DISCONNECT) else p))
  }

  // ---- one turn ----

  /** `latency_ms.saturating_mul(skipped + 1)`. */
  function Elapsed(period: nat, skipped: nat): nat {
    Min(period * (skipped + 1), U32_MAX)
  }

  function SendAllActions(s: State, skipped: nat, winner: Option<Packet>, net: Net): State {
    var elapsed := Elapsed(s.game.period, skipped);
    var interval := Min(elapsed, U16_MAX);
    var bs := Cut(s.actions, []);
    var overflow, last := bs[..|bs| - 1], bs[|bs| - 1];
    var t := s.(actions := [],
                game := s.game.(sync := WrappingAdd(s.game.sync, 1), ticks := WrappingAdd(s.game.ticks, elapsed),
                                turns := s.game.turns + 1),
                trace := s.trace.(relayed := s.trace.relayed + Overflows(overflow) + [IncomingAction(last, interval)],
                                  recorded := s.trace.recorded + OverflowSlots(overflow) + [Timeslot(last, interval)]));
    var u := BroadcastAll(t, Overflows(overflow), net);
    Broadcast(if winner.Some? then ChatAll(u, winner.value, net) else u, IncomingAction(last, interval), net)
  }

  /** `pump_rejoin_catchup`. */
  function Pump(s: State, net: Net): State {
    s.(players := MapPlayers(s.players, (p: Player) => p.CatchUp(s.history, Answers(net, s.clock, p.pid))),
       clock := s.clock + 1)
  }

  function FakeSync(s: State): State {
    if s.fakePid.None? then s
    else
      var i := ByPid(s.players, s.fakePid.value);
      if i == |s.players| then s
      else s.(players := s.players[i := s.players[i].(pace := s.players[i].pace.(sync := s.game.sync))])
  }

  /** What the clocks say at one tick. `expired` and `lagTimedOut` are the pids
      past their grace period; the flags say which other timers fired. */
  datatype TickInput = TickInput(
    skipped: nat, expired: set<nat>, notices: seq<string>, ping: bool, start: bool, loadTimeout: bool,
    resetScreen: bool, lagTimedOut: set<nat>, winner: Option<string>, gameOver: bool, noneReconnectable: bool)

  function ReapTimeouts(s: State, expired: set<nat>, notices: seq<string>, net: Net): State {
    ChatEach(s.(players := ExpireAll(s.players, expired)), Chats(notices), net)
  }

  function Chats(texts: seq<string>): seq<Packet> {
    seq(|texts|, i requires 0 <= i < |texts| => Chat(texts[i]))
  }

  function WinnerNotice(winner: Option<string>): Option<Packet> {
    if winner.Some? then Some(Chat(winner.value)) else None
  }

  function ExpireAll(ps: seq<Player>, expired: set<nat>): seq<Player> {
    MapPlayers(ps, (p: Player) =>
      if p.disconnected && p.pid in expired
      then p.(left := Some(ReconnectTimeout), leftCode := PLAYERLEAVE_GPROXY, disconnected := false) else p)
  }

  function Pinged(s: State, input: TickInput, net: Net): State {
    if input.ping && (s.phase.Lobby? || s.phase.Countdown? || s.phase.Loading?) then Broadcast(s, Opaque(1), net) else s
  }

  function LeaveAll(ps: seq<Player>, reason: Reason): seq<Player> {
    MapPlayers(ps, (p: Player) =>
      if p.Present() then p.(left := Some(reason), leftCode := PLAYERLEAVE_DISCONNECT) else p)
  }

  function LeaveUnloaded(ps: seq<Player>): seq<Player> {
    MapPlayers(ps, (p: Player) =>
      if !p.loaded && p.Present() then p.(left := Some(LoadingTimeout), leftCode := PLAYERLEAVE_DISCONNECT) else p)
  }

  /** The Playing arm of `on_tick` up to the point where the turn is sent. */
  function BeforeTurn(s: State, input: TickInput, net: Net): State {
    CheckLag(CheckDesync(FakeSync(Pump(s, net)), net), input.resetScreen, net)
  }

  function PlayTick(s: State, input: TickInput, net: Net): State {
    var t := BeforeTurn(s, input, net);
    if t.game.lagging then DropLagging(t, input.lagTimedOut)
    else
      var u := SendAllActions(t, input.skipped, WinnerNotice(input.winner), net);
      EndIfEmpty(if input.gameOver then u.(players := LeaveAll(u.players, GameOverTimer)) else u, input)
  }

  function EndIfEmpty(s: State, input: TickInput): State {
    if !HasAudience(s) && input.noneReconnectable && (s.phase.Playing? || s.phase.Loading?) then s.(phase := Over) else s
  }

  function BeginLoading(s: State, net: Net): State {
    var t := Broadcast(s.(phase := Loading, startedLoading := true), CountdownStart, net);
    var u := FakeLoaded(Broadcast(DropVirtualHost(t, net), CountdownEnd, net), net);
    if AllLoaded(u.players) then BeginPlaying(u, net) else u
  }

  function DropVirtualHost(s: State, net: Net): State {
    if s.hostPid.None? then s
    else Broadcast(s.(hostPid := None, players := Without(s.players, s.hostPid.value)),
                   PlayerLeaveOthers(s.hostPid.value, PLAYERLEAVE_LOBBY), net)
  }

  function FakeLoaded(s: State, net: Net): State {
    if s.fakePid.None? then s
    else
      var i := ByPid(s.players, s.fakePid.value);
      Broadcast(if i == |s.players| then s else s.(players := s.players[i := s.players[i].(loaded := true)]),
                GameLoadedOthers(s.fakePid.value), net)
  }

  /** `on_tick`. */
  function OnTick(s: State, input: TickInput, net: Net): State {
    var t := ReapTimeouts(s, input.expired, input.notices, net);
    PhaseTick(Pinged(t, input, net), input, net)
  }

  function PhaseTick(s: State, input: TickInput, net: Net): State {
    match s.phase
    case Lobby => s
    case Countdown => if input.start then EndIfEmpty(BeginLoading(s, net), input) else s
    case Loading =>
      EndIfEmpty(if input.loadTimeout then Reap(s.(players := LeaveUnloaded(s.players)), net) else s, input)
    case Playing => PlayTick(s, input, net)
    case Over => s
  }

  // ---- leaving ----

  function Gone(ps: seq<Player>): seq<(nat, nat)> {
    if ps == [] then []
    else Gone(Most(ps)) + (if !Last(ps).virtualHost && Last(ps).left.Some? then [(Last(ps).pid, Last(ps).leftCode)] else [])
  }

  function ReapEach(s: State, gone: seq<(nat, nat)>, net: Net): State
    decreases |gone|
  {
    if gone == [] then s
    else
      ReapEach(ReapOne(s, gone[0].0, gone[0].1, net), gone[1..], net)
  }

  function ReapOne(s: State, pid: nat, code: nat, net: Net): State {
    var t := Broadcast(s.(players := Without(s.players, pid)), PlayerLeaveOthers(pid, code), net);
    if t.phase.Lobby? then Broadcast(t, Opaque(2), net) else t
  }

  function AbortCountdown(s: State, net: Net): State {
    if s.phase.Countdown? then ChatAll(s.(phase := Lobby), Chat("Countdown aborted."), net) else s
  }

  /** `reap_left_players`. */
  function Reap(s: State, net: Net): State {
    var gone := Gone(s.players);
    if gone == [] then s
    else
      var u := ReapEach(AbortCountdown(s, net), gone, net);
      if u.phase.Loading? && u.players != [] && HumansLoaded(u.players) then BeginPlaying(u, net) else u
  }

  // ---- the actor ----

  function NewPlayer(pid: nat, conn: nat, name: string, key: nat, link: Link): Player {
    Player(pid, conn, name, key, false, None, PLAYERLEAVE_LOBBY, false, None, false, 0, NoRejoin, None,
           Pace(0, [], false, false, false), link)
  }

  const MAX_SLOTS := 24

  predicate NameTaken(ps: seq<Player>, name: string) {
    exists i :: 0 <= i < |ps| && SameName(ps[i].name, name)
  }

  function HumanCount(ps: seq<Player>): nat {
    if ps == [] then 0 else HumanCount(Most(ps)) + (if Last(ps).virtualHost then 0 else 1)
  }

  /** Whether a join in the lobby passes its checks; `slot` says that a slot is
      open for it. */
  predicate JoinAllowed(s: State, name: string, slot: bool) {
    s.phase.Lobby? && !NameTaken(s.players, name) && slot && NextFreePid(s.players, 1).Some?
  }

  /** A join in the lobby. A refused first packet undoes it; the results of the
      rest of the burst are ignored. Seated players are told past their resend
      buffers. */
  function Join(s: State, conn: nat, name: string, key: nat, slot: bool, net: Net): State {
    if !JoinAllowed(s, name, slot) then s
    else
      var pid := NextFreePid(s.players, 1).value;
      if net(s.clock, pid, 0) != Ok then s.(clock := s.clock + 1)
      else
        var t := TellAll(s, PlayerInfo(pid), net);
        var link := Link(Joined(s.clock), net(s.clock, pid, 1) != Closed, []);
        Admitted(t.(players := t.players + [NewPlayer(pid, conn, name, key, link)]), net)
  }

  /** The rest of a join, once the player is seated. */
  function Admitted(s: State, net: Net): State {
    var t := Broadcast(s, Opaque(2), net);
    if HumanCount(t.players) >= MAX_SLOTS - 1 then DropVirtualHost(t, net) else t
  }

  function TellAll(s: State, pkt: Packet, net: Net): State {
    s.(players := MapPlayers(s.players, (p: Player) => p.Told(pkt, net(s.clock, p.pid, 0))), clock := s.clock + 1)
  }

  function AddVirtualHost(s: State, name: string, net: Net): State {
    var free := NextFreePid(s.players, 1);
    if s.hostPid.Some? || free.None? then s
    else
      var t := Broadcast(s, PlayerInfo(free.value), net);
      var host := NewPlayer(free.value, HOST_CONN, name, 0, Link(Joined(s.clock), true, [])).(virtualHost := true, loaded := true);
      t.(players := t.players + [host], hostPid := free)
  }

  /** `slot` says that a slot is open for a fake player. */
  function ToggleFake(s: State, slot: bool, net: Net): State {
    if !s.phase.Lobby? then s
    else if s.fakePid.Some? then
      BroadcastAll(s.(fakePid := None, players := Without(s.players, s.fakePid.value)),
                   [PlayerLeaveOthers(s.fakePid.value, PLAYERLEAVE_LOBBY), Opaque(2)], net)
    else
      var free := NextFreePid(s.players, 1);
      if free.None? || !slot then s
      else
        var fake := NewPlayer(free.value, 0, "FakePlayer", 0, Link(Joined(s.clock), true, [])).(loaded := true);
        BroadcastAll(s.(players := s.players + [fake], fakePid := free, clock := s.clock + 1),
                     [PlayerInfo(free.value), Opaque(2)], net)
  }

  /** The ids connections are given. */
  type ConnId = c: nat | 0 < c < HOST_CONN witness 1

  datatype Command =
    | DoJoin(conn: ConnId, name: string, key: nat, slot: bool)
    | DoVirtualHost(name: string)
    | DoToggleFake(slot: bool)
    | DoStart
    | DoLoaded(conn: ConnId)
    | DoMapSize(conn: ConnId)
    | DoKeepalive(conn: ConnId, sum: nat)
    | DoAction(conn: ConnId, data: Bytes)
    | DoLeave(conn: ConnId)
    | DoClosed(conn: ConnId)
    | DoGpsInit(conn: ConnId)
    | DoGpsFull(conn: ConnId, pid: nat, key: nat)
    | DoRejoin(conn: ConnId, name: string)
    | DoReconnect(conn: ConnId, pid: nat, key: nat, last: nat)
    | DoDropRequest
    | DoAnnounce(pkt: Packet)
    | DoWhisper(pid: nat, pkt: Packet)
    | DoKick(pid: nat)
    | DoLatency(period: nat)
    | DoTick(input: TickInput)

  function HandleAction(s: State, conn: nat, data: Bytes): State {
    var i := ByConn(s.players, conn);
    if i == |s.players| then s
    else
      var a := Action(s.players[i].pid, data);
      if !(s.phase.Loading? || s.phase.Playing?) || !Acceptable(a) then
        Kick(s, a.pid, InvalidAction, PLAYERLEAVE_LOST)
      else s.(actions := s.actions + [a])
  }

  function HandleLeave(s: State, conn: nat): State {
    var i := ByConn(s.players, conn);
    if i == |s.players| then s
    else
      s.(players := s.players[i := s.players[i].(left := Some(LeftVoluntarily),
                                                leftCode := if s.phase.Lobby? || s.phase.Countdown?
                                                            then PLAYERLEAVE_LOBBY else PLAYERLEAVE_LOST)])
  }

  function DropRequest(s: State): State {
    if !s.game.lagging then s
    else s.(players := MapPlayers(s.players, (p: Player) =>
           if p.pace.lagging && p.left.None? then p.(left := Some(LaggedOut), leftCode := PLAYERLEAVE_DISCONNECT) else p))
  }

  /** Commands that fill the lobby or start the game. */
  predicate LobbyCommand(cmd: Command) {
    cmd.DoJoin? || cmd.DoVirtualHost? || cmd.DoToggleFake? || cmd.DoStart?
  }

  /** Game messages of one client. */
  predicate ClientCommand(cmd: Command) {
    cmd.DoLoaded? || cmd.DoMapSize? || cmd.DoKeepalive? || cmd.DoAction? || cmd.DoLeave? || cmd.DoDropRequest?
  }

  /** What happens to one connection. */
  predicate LinkCommand(cmd: Command) {
    cmd.DoClosed? || cmd.DoGpsInit? || cmd.DoGpsFull? || cmd.DoRejoin? || cmd.DoReconnect?
  }

  /** The host's own doing, and the tick. */
  predicate HostCommand(cmd: Command) {
    cmd.DoAnnounce? || cmd.DoWhisper? || cmd.DoKick? || cmd.DoLatency? || cmd.DoTick?
  }

  function HandleLobby(s: State, cmd: Command, net: Net): State
    requires LobbyCommand(cmd)
  {
    match cmd
    case DoJoin(conn, name, key, slot) => Join(s, conn, name, key, slot, net)
    case DoVirtualHost(name) => AddVirtualHost(s, name, net)
    case DoToggleFake(slot) => ToggleFake(s, slot, net)
    case DoStart => if s.phase.Lobby? then s.(phase := Countdown) else s
  }

  function HandleClient(s: State, cmd: Command, net: Net): State
    requires ClientCommand(cmd)
  {
    match cmd
    case DoLoaded(conn) => HandleLoaded(s, conn, net)
    case DoMapSize(conn) => HandleMapSize(s, conn, net)
    case DoKeepalive(conn, sum) => HandleKeepalive(s, conn, sum, net)
    case DoAction(conn, data) => HandleAction(s, conn, data)
    case DoLeave(conn) => HandleLeave(s, conn)
    case DoDropRequest => DropRequest(s)
  }

  function HandleLink(s: State, cmd: Command, net: Net): State
    requires LinkCommand(cmd)
  {
    match cmd
    case DoClosed(conn) => ConnClosed(s, conn)
    case DoGpsInit(conn) => GpsInit(s, conn, net)
    case DoGpsFull(conn, pid, key) => s.(pendingFull := s.pendingFull[conn := (pid, key)])
    case DoRejoin(conn, name) => TryFullRejoin(s, conn, name, net)
    case DoReconnect(conn, pid, key, last) => GpsReconnect(s, conn, pid, key, last, net)
  }

  function HandleHost(s: State, cmd: Command, net: Net): State
    requires HostCommand(cmd)
  {
    match cmd
    case DoAnnounce(pkt) => Broadcast(s, pkt, net)
    case DoWhisper(pid, pkt) => SendTo(s, pid, pkt, net)
    case DoKick(pid) => Kick(s, pid, Removed, PLAYERLEAVE_LOST)
    case DoLatency(period) => s.(game := s.game.(period := period))
    case DoTick(input) => OnTick(s, input, net)
  }

  function Handle(s: State, cmd: Command, net: Net): State {
    if LobbyCommand(cmd) then HandleLobby(s, cmd, net)
    else if ClientCommand(cmd) then HandleClient(s, cmd, net)
    else if LinkCommand(cmd) then HandleLink(s, cmd, net)
    else HandleHost(s, cmd, net)
  }

  /** One turn of the actor's loop: a command or tick, then the reaper. */
  function Next(s: State, cmd: Command, net: Net): State {
    Reap(Handle(s, cmd, net), net)
  }

  function Initial(limit: nat, period: nat): State {
    State(Lobby, [], Turns(0, 0, period, limit, false, 0), [], EmptyHistory, None, None, false, map[],
          Trace([], [], [], [], []), 0)
  }

  /** The states a run visits: each follows from the one before by a command,
      starting from the empty lobby. */
  ghost predicate IsRun(limit: nat, period: nat, net: Net, cmds: seq<Command>, states: seq<State>) {
    Path(Following(net), Initial(limit, period), cmds, states)
  }

  ghost function Following(net: Net): (State, Command) -> State {
    (s, cmd) => Next(s, cmd, net)
  }

  /** `s` is the last state of some run with sync limit `limit`. */
  ghost predicate Reachable(limit: nat, s: State) {
    exists period, net, cmds, states :: IsRun(limit, period, net, cmds, states) && s == states[|cmds|]
  }
}
