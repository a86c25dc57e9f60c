/** The desync check: what its verdict is and when it stays silent
    (crates/spectre-engine/src/actions.rs, `check_desync`). */
module Verdicts {
  import opened Basics
  import opened Packets
  import opened Seats
  import opened Engine
  import opened EngineSafety
  import Feeds

  /** A disagreement always costs somebody the game. */
  lemma DisagreementCondemnsSomeone(ps: seq<Player>, turn: nat)
    requires Disagree(ps, turn)
    ensures exists i :: 0 <= i < |ps| && Condemned(ps, turn, ps[i])
  {
    var i, j :| 0 <= i < |ps| && 0 <= j < |ps| && Participant(ps[i], turn) && Participant(ps[j], turn)
      && ps[i].pace.checksums[0].sum != ps[j].pace.checksums[0].sum;
    assert Condemned(ps, turn, ps[i]) || Condemned(ps, turn, ps[j]);
  }

  /** The verdict drops exactly the participants outside the unique largest
      group, or all participants when two groups tie for largest. */
  lemma TieCondemnsEveryParticipant(ps: seq<Player>, turn: nat, i: nat, j: nat)
    requires i < |ps| && Participant(ps[i], turn) && j < |ps| && Participant(ps[j], turn)
    requires ps[i].pace.checksums[0].sum != ps[j].pace.checksums[0].sum
    requires Votes(ps, turn, ps[i].pace.checksums[0].sum) == Votes(ps, turn, ps[j].pace.checksums[0].sum)
    requires forall k :: 0 <= k < |ps| && Participant(ps[k], turn) ==>
               Votes(ps, turn, ps[k].pace.checksums[0].sum) <= Votes(ps, turn, ps[i].pace.checksums[0].sum)
    ensures forall k :: 0 <= k < |ps| && Participant(ps[k], turn) ==> Condemned(ps, turn, ps[k])
  {
    forall k | 0 <= k < |ps| && Participant(ps[k], turn) ensures !Wins(ps, turn, ps[k].pace.checksums[0].sum) {
      var rival := if ps[k].pace.checksums[0].sum == ps[i].pace.checksums[0].sum then j else i;
      assert Participant(ps[rival], turn);
    }
  }

  /** A group larger than every other survives, and only that group. */
  lemma MajoritySurvives(ps: seq<Player>, turn: nat, i: nat)
    requires i < |ps| && Participant(ps[i], turn)
    requires forall k :: 0 <= k < |ps| && Participant(ps[k], turn) && HeadSum(ps, k) != HeadSum(ps, i) ==>
               Votes(ps, turn, HeadSum(ps, k)) < Votes(ps, turn, HeadSum(ps, i))
    ensures forall k :: 0 <= k < |ps| ==>
              (Condemned(ps, turn, ps[k]) <==> Participant(ps[k], turn) && HeadSum(ps, k) != HeadSum(ps, i))
  {
    assert forall k :: 0 <= k < |ps| && Participant(ps[k], turn) ==> HeadSum(ps, k) == ps[k].pace.checksums[0].sum;
    forall k | 0 <= k < |ps| && Participant(ps[k], turn)
      ensures Wins(ps, turn, ps[k].pace.checksums[0].sum) <==> HeadSum(ps, k) == HeadSum(ps, i)
    {
      if HeadSum(ps, k) != HeadSum(ps, i) {
        assert Participant(ps[i], turn) && Votes(ps, turn, HeadSum(ps, k)) < Votes(ps, turn, HeadSum(ps, i));
      }
    }
  }

  /** Why the check may stop without a verdict. */
  ghost predicate Settled(ps: seq<Player>) {
    || ActiveCount(ps) < 2
    || MinTurn(ps).None?
    || InFlight(ps, MinTurn(ps).value)
  }

  ghost predicate IsSuffix<T>(a: seq<T>, b: seq<T>) {
    |b| <= |a| && a[|a| - |b|..] == b
  }

  /** `qs` is `ps` with some checksums taken from the front of the queues. */
  ghost predicate Consumed(ps: seq<Player>, qs: seq<Player>) {
    |ps| == |qs| && forall i :: 0 <= i < |ps| ==>
      qs[i] == ps[i].(pace := ps[i].pace.(checksums := qs[i].pace.checksums))
      && IsSuffix(ps[i].pace.checksums, qs[i].pace.checksums)
  }

  lemma ConsumedTransitive(ps: seq<Player>, qs: seq<Player>, rs: seq<Player>)
    requires Consumed(ps, qs) && Consumed(qs, rs)
    ensures Consumed(ps, rs)
  {
    forall i | 0 <= i < |ps| ensures IsSuffix(ps[i].pace.checksums, rs[i].pace.checksums) {
      var a, b, c := ps[i].pace.checksums, qs[i].pace.checksums, rs[i].pace.checksums;
      assert a[|a| - |c|..] == a[|a| - |b|..][|b| - |c|..];
    }
  }

  /** The disputed turn `turn` is the lowest one queued after the agreed turns
      before it were consumed; nobody's report of it is outstanding. */
  ghost predicate Disputed(before: seq<Player>, ps: seq<Player>, turn: nat) {
    Consumed(before, ps) && MinTurn(ps) == Some(turn) && !InFlight(ps, turn) && Disagree(ps, turn)
  }

  ghost predicate EndsSilently(s: State, t: State) {
    t == s.(players := t.players) && Consumed(s.players, t.players) && Settled(t.players)
  }

  ghost predicate EndsWithVerdict(s: State, t: State, net: Net) {
    exists ps, turn :: Disputed(s.players, ps, turn) && t == Judge(s.(players := ps), turn, net)
      && Last(t.trace.verdicts).turn == turn && Last(t.trace.verdicts).kicked != []
  }

  lemma SilenceExtends(s: State, u: State, t: State)
    requires u == s.(players := u.players) && Consumed(s.players, u.players) && EndsSilently(u, t)
    ensures EndsSilently(s, t)
  {
    ConsumedTransitive(s.players, u.players, t.players);
  }

  lemma VerdictExtends(s: State, u: State, t: State, net: Net)
    requires u == s.(players := u.players) && Consumed(s.players, u.players) && EndsWithVerdict(u, t, net)
    ensures EndsWithVerdict(s, t, net)
  {
    var ps, turn :| Disputed(u.players, ps, turn) && t == Judge(u.(players := ps), turn, net)
      && Last(t.trace.verdicts).turn == turn && Last(t.trace.verdicts).kicked != [];
    ConsumedTransitive(s.players, u.players, ps);
    assert Disputed(s.players, ps, turn);
    assert u.(players := ps) == s.(players := ps);
  }

  lemma JudgingIsAVerdict(s: State, turn: nat, net: Net)
    requires Disputed(s.players, s.players, turn)
    ensures EndsWithVerdict(s, Judge(s, turn, net), net)
  {
    DisagreementCondemnsSomeone(s.players, turn);
    var i :| 0 <= i < |s.players| && Condemned(s.players, turn, s.players[i]);
    CondemnedAreListed(s.players, turn, s.players, i);
    assert Last(Judge(s, turn, net).trace.verdicts) == Verdict(turn, CondemnedPids(s.players, turn, s.players));
    assert s.(players := s.players) == s;
  }

  lemma StoppedIsSilent(s: State)
    requires Settled(s.players)
    ensures EndsSilently(s, s)
  {
  }

  lemma ClearedIsSilent(s: State)
    requires ActiveCount(s.players) < 2
    ensures EndsSilently(s, s.(players := MapPlayers(s.players, ClearActive)))
  {
    ClearingKeepsActive(s.players);
  }

  lemma PopConsumes(ps: seq<Player>, turn: nat)
    ensures Consumed(ps, PopTurn(ps, turn))
  {
  }

  /** The check drops nobody and only consumes queued checksums when it stops
      with fewer than two active players, no queued checksum of an active
      player, or the lowest queued turn still on its way from one of them. In
      every other case it judges the first disputed turn. */
  lemma {:induction false} CheckEndsSettledOrWithVerdict(s: State, net: Net)
    ensures EndsSilently(s, CheckDesync(s, net)) || EndsWithVerdict(s, CheckDesync(s, net), net)
    decreases Queued(s.players)
  {
    var min := MinTurn(s.players);
    if ActiveCount(s.players) < 2 {
      ClearedIsSilent(s);
    } else if min.None? || InFlight(s.players, min.value) {
      StoppedIsSilent(s);
    } else {
      var turn := min.value;
      if Disagree(s.players, turn) {
        assert Disputed(s.players, s.players, turn);
        JudgingIsAVerdict(s, turn, net);
      } else {
        PopConsumes(s.players, turn);
        MinTurnIsLowest(s.players);
        PopTurnShrinks(s.players, turn);
        var u := s.(players := PopTurn(s.players, turn));
        CheckEndsSettledOrWithVerdict(u, net);
        if EndsSilently(u, CheckDesync(u, net)) {
          SilenceExtends(s, u, CheckDesync(u, net));
        } else {
          VerdictExtends(s, u, CheckDesync(u, net), net);
        }
      }
    }
  }

  lemma {:induction false} CondemnedAreListed(all: seq<Player>, turn: nat, ps: seq<Player>, i: nat)
    requires i < |ps| && Condemned(all, turn, ps[i])
    ensures ps[i].pid in CondemnedPids(all, turn, ps)
  {
    if i < |ps| - 1 {
      CondemnedAreListed(all, turn, Most(ps), i);
    }
  }

  lemma {:induction false} ClearingKeepsActive(ps: seq<Player>)
    ensures ActiveCount(MapPlayers(ps, ClearActive)) == ActiveCount(ps)
  {
    if ps != [] {
      ClearingKeepsActive(Most(ps));
      assert Most(MapPlayers(ps, ClearActive)) == MapPlayers(Most(ps), ClearActive);
    }
  }

  // ---- who is kicked ----

  /** From `s` to `t` one verdict was added, and it lists `pid`. */
  ghost predicate Convicted(s: State, t: State, pid: nat) {
    exists v :: t.trace.verdicts == s.trace.verdicts + [v] && pid in v.kicked
  }

  lemma {:induction false} ListedAreCondemned(all: seq<Player>, turn: nat, ps: seq<Player>, pid: nat)
    requires pid in CondemnedPids(all, turn, ps)
    ensures exists k :: 0 <= k < |ps| && ps[k].pid == pid && Condemned(all, turn, ps[k])
  {
    if pid in CondemnedPids(all, turn, Most(ps)) {
      ListedAreCondemned(all, turn, Most(ps), pid);
      var k :| 0 <= k < |Most(ps)| && Most(ps)[k].pid == pid && Condemned(all, turn, Most(ps)[k]);
      assert ps[k] == Most(ps)[k];
    } else {
      assert ps[|ps| - 1].pid == pid && Condemned(all, turn, ps[|ps| - 1]);
    }
  }

  lemma ListedIffCondemned(ps: seq<Player>, turn: nat, i: nat)
    requires UniquePids(ps) && i < |ps|
    ensures ps[i].pid in CondemnedPids(ps, turn, ps) <==> Condemned(ps, turn, ps[i])
  {
    if Condemned(ps, turn, ps[i]) {
      CondemnedAreListed(ps, turn, ps, i);
    }
    if ps[i].pid in CondemnedPids(ps, turn, ps) {
      ListedAreCondemned(ps, turn, ps, ps[i].pid);
    }
  }

  /** A send has other reasons to drop a player. */
  lemma SendNeverConvicts(p: Player, pkt: Packet, turn: bool, r: Send)
    ensures p.OnBroadcast(pkt, turn, r).pid == p.pid
    ensures p.left != Some(Desynced) ==> p.OnBroadcast(pkt, turn, r).left != Some(Desynced)
  {
    if Attached(p) {
      LiveNeverConvicts(p.Numbered(pkt), pkt, turn, r);
    }
  }

  lemma LiveNeverConvicts(p: Player, pkt: Packet, turn: bool, r: Send)
    requires p.left.None?
    ensures p.Live(pkt, turn, r).pid == p.pid && p.Live(pkt, turn, r).left != Some(Desynced)
  {
    match p.link.Answer(r) {
      case Ok => assert p.Sent(pkt, turn).left == p.left;
      case Backpressure => assert p.Refused(pkt, turn).left != Some(Desynced);
      case Closed => assert p.HungUp().left != Some(Desynced);
    }
  }

  lemma ChatNeverConvicts(s: State, pkt: Packet, net: Net, i: nat)
    requires i < |s.players|
    ensures var t := ChatAll(s, pkt, net);
            && |t.players| == |s.players| && t.players[i].pid == s.players[i].pid
            && (s.players[i].left != Some(Desynced) ==> t.players[i].left != Some(Desynced))
            && t.trace.verdicts == s.trace.verdicts
  {
    SendNeverConvicts(s.players[i], pkt, s.phase.Playing?, net(s.clock, s.players[i].pid, 0));
  }

  lemma JudgeKicksTheListed(s: State, turn: nat, net: Net, i: nat)
    requires UniquePids(s.players) && i < |s.players| && s.players[i].left != Some(Desynced)
    ensures var t := Judge(s, turn, net);
            && |t.players| == |s.players| && t.players[i].pid == s.players[i].pid
            && (t.players[i].left == Some(Desynced) <==> Convicted(s, t, s.players[i].pid))
  {
    ChatNeverConvicts(s, Chat("Desync detected!"), net, i);
    ListedIffCondemned(s.players, turn, i);
    var v := Verdict(turn, CondemnedPids(s.players, turn, s.players));
    var t := Judge(s, turn, net);
    assert t.trace.verdicts == s.trace.verdicts + [v];
    forall w | t.trace.verdicts == s.trace.verdicts + [w] ensures w == v {
      assert Last(s.trace.verdicts + [w]) == w && Last(s.trace.verdicts + [v]) == v;
    }
  }

  /** Kicks and verdicts are the same thing: the check marks a seat as desynced
      exactly when it adds a verdict that lists the seat's pid. */
  lemma KicksAreVerdicts(s: State, net: Net, i: nat)
    requires UniquePids(s.players) && i < |s.players| && s.players[i].left != Some(Desynced)
    ensures var t := CheckDesync(s, net);
            && |t.players| == |s.players| && t.players[i].pid == s.players[i].pid
            && (t.players[i].left == Some(Desynced) <==> Convicted(s, t, s.players[i].pid))
  {
    CheckEndsSettledOrWithVerdict(s, net);
    if EndsSilently(s, CheckDesync(s, net)) {
      SilenceConvictsNobody(s, CheckDesync(s, net), s.players[i].pid);
    } else {
      VerdictKicksTheListed(s, CheckDesync(s, net), net, i);
    }
  }

  lemma VerdictKicksTheListed(s: State, t: State, net: Net, i: nat)
    requires UniquePids(s.players) && i < |s.players| && s.players[i].left != Some(Desynced) && EndsWithVerdict(s, t, net)
    ensures |t.players| == |s.players| && t.players[i].pid == s.players[i].pid
    ensures t.players[i].left == Some(Desynced) <==> Convicted(s, t, s.players[i].pid)
  {
    var ps, turn :| Disputed(s.players, ps, turn) && t == Judge(s.(players := ps), turn, net)
      && Last(t.trace.verdicts).turn == turn && Last(t.trace.verdicts).kicked != [];
    JudgeKicksTheListed(s.(players := ps), turn, net, i);
  }

  lemma SilenceConvictsNobody(s: State, t: State, pid: nat)
    requires t.trace == s.trace
    ensures !Convicted(s, t, pid)
  {
    forall v ensures t.trace.verdicts != s.trace.verdicts + [v] {
      assert |s.trace.verdicts + [v]| == |s.trace.verdicts| + 1;
    }
  }

  /** Every report is the checksum of its turn in the one true simulation. */
  ghost predicate Honest(reports: seq<Report>, f: nat -> nat) {
    forall r :: r in reports ==> r.sum == f(r.turn)
  }

  /** Honest reports never cost anybody the game: the check only takes agreed
      checksums off the queues. */
  lemma HonestCheckKicksNobody(s: State, net: Net, f: nat -> nat)
    requires Sound(s) && Honest(s.trace.reports, f)
    ensures EndsSilently(s, CheckDesync(s, net))
  {
    var t := CheckDesync(s, net);
    CheckEndsSettledOrWithVerdict(s, net);
    if EndsWithVerdict(s, t, net) {
      HonestMeansNoDispute(s, t, net, f);
      assert false;
    }
  }

  lemma HonestMeansNoDispute(s: State, t: State, net: Net, f: nat -> nat)
    requires Sound(s) && Honest(s.trace.reports, f)
    ensures !EndsWithVerdict(s, t, net)
  {
    forall ps, turn | Disputed(s.players, ps, turn) ensures false {
      DisputeIsContested(s.players, ps, turn, s.trace.reports);
    }
  }

  lemma DisputeIsContested(before: seq<Player>, ps: seq<Player>, turn: nat, reports: seq<Report>)
    requires Disputed(before, ps, turn) && UniquePids(before) && ReportsOk(before, reports)
    ensures Contested(turn, reports)
  {
    var i, j :| 0 <= i < |ps| && 0 <= j < |ps| && Participant(ps[i], turn) && Participant(ps[j], turn)
      && ps[i].pace.checksums[0].sum != ps[j].pace.checksums[0].sum;
    HeadWasReported(before[i], ps[i], reports);
    HeadWasReported(before[j], ps[j], reports);
    var a := Report(ps[i].pid, turn, ps[i].pace.checksums[0].sum);
    var b := Report(ps[j].pid, turn, ps[j].pace.checksums[0].sum);
    assert before[i].pid == a.pid && before[j].pid == b.pid && a.sum != b.sum;
  }

  lemma HeadWasReported(p: Player, q: Player, reports: seq<Report>)
    requires q.pid == p.pid && q.pace.checksums != [] && IsSuffix(p.pace.checksums, q.pace.checksums) && Reported(p, reports)
    ensures Report(q.pid, q.pace.checksums[0].turn, q.pace.checksums[0].sum) in reports
  {
    assert q.pace.checksums[0] == p.pace.checksums[|p.pace.checksums| - |q.pace.checksums|];
  }

  /** On every run with honest reports, neither a keepalive nor a tick marks
      anybody as gone in its desync check. */
  lemma HonestRunsKickNobody(limit: nat, s: State, f: nat -> nat, input: TickInput, conn: nat, sum: nat, net: Net)
    requires Reachable(limit, s) && Honest(s.trace.reports, f)
    ensures var m := FakeSync(Pump(Feeds.BeforePump(s, input, net), net));
            EndsSilently(m, CheckDesync(m, net))
    ensures var i := ByConn(s.players, conn);
            i < |s.players| && s.phase.Playing? && Honest(Noted(s, i, sum).trace.reports, f) ==>
              EndsSilently(Noted(s, i, sum), HandleKeepalive(s, conn, sum, net))
  {
    ReachableIsSound(limit, s);
    var b := Feeds.BeforePump(s, input, net);
    ReapTimeoutsIsSound(s, input.expired, input.notices, net);
    ReapTimeoutsKeepsReports(s, input.expired, input.notices, net);
    PumpIsSound(b, net);
    FakeSyncIsSound(Pump(b, net));
    HonestCheckKicksNobody(FakeSync(Pump(b, net)), net, f);
    var i := ByConn(s.players, conn);
    if i < |s.players| && s.phase.Playing? && Honest(Noted(s, i, sum).trace.reports, f) {
      NotedIsSound(s, i, sum);
      HonestCheckKicksNobody(Noted(s, i, sum), net, f);
    }
  }

  lemma ReapTimeoutsKeepsReports(s: State, expired: set<nat>, notices: seq<string>, net: Net)
    ensures ReapTimeouts(s, expired, notices, net).trace.reports == s.trace.reports
  {
    ChatEachKeepsReports(s.(players := ExpireAll(s.players, expired)), Chats(notices), net);
  }

  lemma {:induction false} ChatEachKeepsReports(s: State, pkts: seq<Packet>, net: Net)
    ensures ChatEach(s, pkts, net).trace.reports == s.trace.reports
    decreases |pkts|
  {
    if pkts != [] {
      ChatEachKeepsReports(ChatAll(s, pkts[0], net), pkts[1..], net);
    }
  }

  // ---- the lists the check builds: positions of players, by their pids ----

  ghost predicate Ascending(idx: seq<nat>, bound: nat) {
    && (forall k :: 0 <= k < |idx| ==> idx[k] < bound)
    && (forall m, n :: 0 <= m < n < |idx| ==> idx[m] < idx[n])
  }

  /** Positions of the active players. */
  ghost function ActiveAt(ps: seq<Player>): seq<nat> {
    if ps == [] then []
    else ActiveAt(Most(ps)) + (if Active(Last(ps)) then [|ps| - 1] else [])
  }

  lemma {:induction false} ActiveAtLists(ps: seq<Player>)
    ensures Ascending(ActiveAt(ps), |ps|) && |ActiveAt(ps)| == ActiveCount(ps)
    ensures forall i :: 0 <= i < |ps| ==> (i in ActiveAt(ps) <==> Active(ps[i]))
  {
    if ps != [] {
      ActiveAtLists(Most(ps));
    }
  }

  predicate HeadsTurn(p: Player, turn: nat) {
    p.pace.checksums != [] && p.pace.checksums[0].turn == turn
  }

  /** Those of `idx` whose queue starts with `turn`. */
  ghost function HavingTurn(ps: seq<Player>, idx: seq<nat>, turn: nat): seq<nat> {
    if idx == [] then []
    else HavingTurn(ps, Most(idx), turn)
         + (if Last(idx) < |ps| && HeadsTurn(ps[Last(idx)], turn) then [Last(idx)] else [])
  }

  lemma {:induction false} HavingTurnLists(ps: seq<Player>, idx: seq<nat>, turn: nat)
    requires Ascending(idx, |ps|)
    ensures Ascending(HavingTurn(ps, idx, turn), |ps|)
    ensures forall i :: 0 <= i < |ps| ==> (i in HavingTurn(ps, idx, turn) <==> i in idx && HeadsTurn(ps[i], turn))
  {
    if idx != [] {
      HavingTurnLists(ps, Most(idx), turn);
      var r := HavingTurn(ps, Most(idx), turn);
      forall k | 0 <= k < |r| ensures r[k] < Last(idx) {
        assert r[k] in r;
        assert r[k] in Most(idx);
      }
      assert idx == Most(idx) + [Last(idx)];
    }
  }

  /** Positions of the participants of the turn. */
  ghost function ParticipantsAt(ps: seq<Player>, turn: nat): seq<nat> {
    HavingTurn(ps, ActiveAt(ps), turn)
  }

  lemma ParticipantsAtLists(ps: seq<Player>, turn: nat)
    ensures Ascending(ParticipantsAt(ps, turn), |ps|)
    ensures forall i :: 0 <= i < |ps| ==> (i in ParticipantsAt(ps, turn) <==> Participant(ps[i], turn))
  {
    ActiveAtLists(ps);
    HavingTurnLists(ps, ActiveAt(ps), turn);
  }

  ghost function PidsAt(ps: seq<Player>, idx: seq<nat>): seq<nat> {
    seq(|idx|, k requires 0 <= k < |idx| => if idx[k] < |ps| then ps[idx[k]].pid else 0)
  }

  lemma UniqueByPid(ps: seq<Player>, i: nat)
    requires UniquePids(ps) && i < |ps|
    ensures ByPid(ps, ps[i].pid) == i
  {
  }

  lemma PidsAtSnoc(ps: seq<Player>, idx: seq<nat>, i: nat)
    requires i < |ps|
    ensures PidsAt(ps, idx + [i]) == PidsAt(ps, idx) + [ps[i].pid]
  {
  }

  lemma HavingTurnSnoc(ps: seq<Player>, idx: seq<nat>, k: nat, turn: nat)
    requires k < |idx| && idx[k] < |ps|
    ensures HavingTurn(ps, idx[..k + 1], turn)
         == HavingTurn(ps, idx[..k], turn) + (if HeadsTurn(ps[idx[k]], turn) then [idx[k]] else [])
  {
    assert Most(idx[..k + 1]) == idx[..k] && Last(idx[..k + 1]) == idx[k];
  }

  lemma ActiveAtSnoc(ps: seq<Player>, i: nat)
    requires i < |ps|
    ensures ActiveAt(ps[..i + 1]) == ActiveAt(ps[..i]) + (if Active(ps[i]) then [i] else [])
    ensures MinTurn(ps[..i + 1]) ==
            if Active(ps[i]) && ps[i].pace.checksums != []
               && (MinTurn(ps[..i]).None? || ps[i].pace.checksums[0].turn < MinTurn(ps[..i]).value)
            then Some(ps[i].pace.checksums[0].turn) else MinTurn(ps[..i])
  {
    assert Most(ps[..i + 1]) == ps[..i] && Last(ps[..i + 1]) == ps[i];
  }

  ghost function HeadSum(ps: seq<Player>, i: nat): nat {
    if i < |ps| && ps[i].pace.checksums != [] then ps[i].pace.checksums[0].sum else 0
  }

  ghost predicate SameSums(ps: seq<Player>, idx: seq<nat>, sum: nat) {
    forall m :: 0 <= m < |idx| ==> HeadSum(ps, idx[m]) == sum
  }

  lemma SameSumsSnoc(ps: seq<Player>, idx: seq<nat>, i: nat, sum: nat)
    ensures SameSums(ps, idx + [i], sum) <==> SameSums(ps, idx, sum) && HeadSum(ps, i) == sum
  {
    assert forall m :: 0 <= m < |idx| ==> (idx + [i])[m] == idx[m];
    assert (idx + [i])[|idx|] == i;
  }

  /** Comparing everyone with the first participant finds any disagreement. */
  lemma OddOneOut(ps: seq<Player>, turn: nat, first: nat)
    requires var had := ParticipantsAt(ps, turn); had != [] ==> HeadSum(ps, had[0]) == first
    ensures Disagree(ps, turn) <==> !SameSums(ps, ParticipantsAt(ps, turn), first)
  {
    var had := ParticipantsAt(ps, turn);
    ParticipantsAtLists(ps, turn);
    assert forall m :: 0 <= m < |had| ==> had[m] in had;
    if m :| 0 <= m < |had| && HeadSum(ps, had[m]) != first {
      assert Participant(ps[had[0]], turn) && Participant(ps[had[m]], turn);
    }
    if SameSums(ps, had, first) {
      forall i | 0 <= i < |ps| && Participant(ps[i], turn) ensures ps[i].pace.checksums[0].sum == first {
        assert i in had;
        var m :| 0 <= m < |had| && had[m] == i;
      }
    }
  }

  // ---- the groups of equal checksums ----

  /** Pids of those of `idx` whose queue starts with `sum`, in order. */
  ghost function Bin(ps: seq<Player>, idx: seq<nat>, sum: nat): seq<nat> {
    if idx == [] then []
    else Bin(ps, Most(idx), sum)
         + (if Last(idx) < |ps| && HeadSum(ps, Last(idx)) == sum then [ps[Last(idx)].pid] else [])
  }

  lemma BinSnoc(ps: seq<Player>, idx: seq<nat>, i: nat, sum: nat)
    requires i < |ps|
    ensures Bin(ps, idx + [i], sum) == Bin(ps, idx, sum) + (if HeadSum(ps, i) == sum then [ps[i].pid] else [])
  {
    assert Most(idx + [i]) == idx && Last(idx + [i]) == i;
  }

  lemma {:induction false} BinLists(ps: seq<Player>, idx: seq<nat>, sum: nat, i: nat)
    requires UniquePids(ps) && i < |ps|
    ensures ps[i].pid in Bin(ps, idx, sum) <==> i in idx && HeadSum(ps, i) == sum
  {
    if idx != [] {
      BinLists(ps, Most(idx), sum, i);
      assert idx == Most(idx) + [Last(idx)];
      if Last(idx) < |ps| && ps[Last(idx)].pid == ps[i].pid {
        UniqueByPid(ps, i);
        UniqueByPid(ps, Last(idx));
      }
    }
  }

  /** The size of a group is the number of votes for its checksum. */
  lemma {:induction false} BinSizeIsVotes(ps: seq<Player>, n: nat, turn: nat, sum: nat)
    requires n <= |ps|
    ensures |Bin(ps, HavingTurn(ps, ActiveAt(ps[..n]), turn), sum)| == Votes(ps[..n], turn, sum)
  {
    if n > 0 {
      BinSizeIsVotes(ps, n - 1, turn, sum);
      ActiveAtSnoc(ps, n - 1);
      var p, idx := ps[n - 1], ActiveAt(ps[..n - 1]);
      var had := HavingTurn(ps, idx, turn);
      VotesSnoc(ps, n - 1, turn, sum);
      if Active(p) {
        assert Most(idx + [n - 1]) == idx && Last(idx + [n - 1]) == n - 1;
        if HeadsTurn(p, turn) {
          BinSnoc(ps, had, n - 1, sum);
        } else {
          assert HavingTurn(ps, idx + [n - 1], turn) == had;
        }
      } else {
        assert ActiveAt(ps[..n]) == idx;
      }
    }
  }

  lemma VotesSnoc(ps: seq<Player>, i: nat, turn: nat, sum: nat)
    requires i < |ps|
    ensures Votes(ps[..i + 1], turn, sum)
         == Votes(ps[..i], turn, sum) + (if Participant(ps[i], turn) && HeadSum(ps, i) == sum then 1 else 0)
  {
    assert Most(ps[..i + 1]) == ps[..i] && Last(ps[..i + 1]) == ps[i];
  }

  lemma VotesAreBinSizes(ps: seq<Player>, turn: nat, sum: nat)
    ensures Votes(ps, turn, sum) == |Bin(ps, ParticipantsAt(ps, turn), sum)|
  {
    assert ps[..|ps|] == ps;
    BinSizeIsVotes(ps, |ps|, turn, sum);
  }

  /** `bins` holds the groups of the positions `idx`. */
  ghost predicate IsTally(ps: seq<Player>, idx: seq<nat>, bins: map<nat, seq<nat>>) {
    forall sum :: if sum in bins then bins[sum] == Bin(ps, idx, sum) != [] else Bin(ps, idx, sum) == []
  }

  /** `sum` is a group larger than every other. */
  ghost predicate Largest(bins: map<nat, seq<nat>>, sum: nat) {
    sum in bins && forall other :: other in bins && other != sum ==> |bins[other]| < |bins[sum]|
  }

  /** Being the largest group of the tally is winning the vote. */
  lemma LargestIsWinner(ps: seq<Player>, turn: nat, bins: map<nat, seq<nat>>, i: nat)
    requires UniquePids(ps) && IsTally(ps, ParticipantsAt(ps, turn), bins)
    requires i < |ps| && Participant(ps[i], turn)
    ensures Wins(ps, turn, HeadSum(ps, i)) <==> Largest(bins, HeadSum(ps, i))
  {
    var sum := HeadSum(ps, i);
    var had := ParticipantsAt(ps, turn);
    ParticipantsAtLists(ps, turn);
    BinLists(ps, had, sum, i);
    VotesAreBinSizes(ps, turn, sum);
    if Largest(bins, sum) {
      forall k | 0 <= k < |ps| && Participant(ps[k], turn) && ps[k].pace.checksums[0].sum != sum
        ensures Votes(ps, turn, ps[k].pace.checksums[0].sum) < Votes(ps, turn, sum)
      {
        BinLists(ps, had, HeadSum(ps, k), k);
        VotesAreBinSizes(ps, turn, HeadSum(ps, k));
      }
    }
    if Wins(ps, turn, sum) {
      forall other | other in bins && other != sum ensures |bins[other]| < |bins[sum]| {
        var k := BinMember(ps, had, other);
        VotesAreBinSizes(ps, turn, other);
        assert Participant(ps[k], turn);
      }
    }
  }

  lemma {:induction false} BinMember(ps: seq<Player>, idx: seq<nat>, sum: nat) returns (k: nat)
    requires Bin(ps, idx, sum) != []
    ensures k in idx && k < |ps| && HeadSum(ps, k) == sum
  {
    if Last(idx) < |ps| && HeadSum(ps, Last(idx)) == sum {
      k := Last(idx);
    } else {
      k := BinMember(ps, Most(idx), sum);
    }
  }
}
