/** GProxy reconnects: exactly when an honest client resumes without a hole
    (crates/spectre-engine/src/gproxy.rs, lobby.rs). */
module Resumption {
  import opened Basics
  import opened Packets
  import opened Histories
  import opened GProxy
  import opened Seats
  import opened Engine
  import opened EngineSafety
  import opened Rejoins
  import opened Acceptance
  import opened RejoinRun

  /** On every run: the numbered packets accepted by the links of a client whose
      count still means something are a prefix of the numbered packets, all of
      them while it is attached. */
  lemma NumberedPacketsHaveNoHole(limit: nat, s: State, i: nat)
    requires Reachable(limit, s)
    requires i < |s.players| && s.players[i].gp.Some? && !s.players[i].gp.value.tainted
    ensures var p := s.players[i];
            && NumberedIn(p.gp.value.view) <= p.gp.value.sent
            && (p.left.None? && !p.disconnected && p.link.open ==> NumberedIn(p.gp.value.view) == p.gp.value.sent)
  {
    ReachableIsSound(limit, s);
    assert SeatOk(s.players[i], s.trace.log);
  }

  // ---- an accepted reconnect ----

  function Receipts(pkts: seq<Packet>): seq<Receipt> {
    seq(|pkts|, i requires 0 <= i < |pkts| => Receipt(pkts[i], true))
  }

  lemma {:induction false} NumberedAppend(view: seq<Receipt>, pkts: seq<Packet>)
    ensures NumberedIn(view + Receipts(pkts)) == NumberedIn(view) + pkts
    decreases |pkts|
  {
    if pkts == [] {
      assert view + Receipts(pkts) == view;
    } else {
      NumberedAppend(view, Most(pkts));
      var x := Receipt(Last(pkts), true);
      assert view + Receipts(pkts) == (view + Receipts(Most(pkts))) + [x];
      ViewSnoc(view + Receipts(Most(pkts)), x);
    }
  }

  /** With every send accepted the whole replay arrives. */
  lemma {:induction false} ResendHandsOverAll(p: Player, replay: seq<Packet>, r: nat -> Send, j: nat)
    requires p.gp.Some? && p.link.open && forall k :: r(k) == Ok
    ensures var q := p.Resend(replay, r, j);
            q.gp.Some? && q.gp.value.view == p.gp.value.view + Receipts(replay) && q.gp.value.sent == p.gp.value.sent
    decreases |replay|
  {
    if replay != [] {
      var n := p.(gp := Some(p.gp.value.Receive(replay[0])));
      ResendHandsOverAll(n, replay[1..], r, j + 1);
      assert Receipts(replay) == [Receipt(replay[0], true)] + Receipts(replay[1..]);
    } else {
      assert p.gp.value.view + Receipts(replay) == p.gp.value.view;
    }
  }

  /** The client has every numbered packet, once and in order. */
  ghost predicate Whole(p: Player) {
    p.gp.Some? && NumberedIn(p.gp.value.view) == p.gp.value.sent
  }

  /** What a client that had received the first `k` packets holds after an
      accepted reconnect: the strays it counted are as many numbered packets
      that it never gets. */
  lemma ReconnectedView(g: Resend, k: nat)
    requires g.Ok(false) && !g.tainted && k <= |g.view| && g.buffer.ReplayFrom(k).Some?
    ensures var strays := Strays(g.view[..k]);
            && strays <= k <= |g.sent|
            && NumberedIn(g.view[..k] + Receipts(g.buffer.ReplayFrom(k).value)) == g.sent[..k - strays] + g.sent[k..]
  {
    var seen := g.view[..k];
    ViewIsCounted(seen);
    ViewPrefix(g.view, k);
    ReplayFromIsExact(g.buffer, g.sent, k);
    NumberedAppend(seen, g.sent[k..]);
    assert NumberedIn(seen) == g.sent[..k - Strays(seen)];
  }

  lemma HoleIff(sent: seq<Packet>, n: nat, k: nat)
    requires n <= k <= |sent|
    ensures sent[..n] + sent[k..] == sent <==> n == k
  {
    if n < k {
      assert |sent[..n] + sent[k..]| < |sent|;
    }
  }

  lemma ReconnectOutcome(s: State, i: nat, k: nat, conn: nat, net: Net)
    requires Sound(s) && i < |s.players| && s.players[i].gp.Some? && k <= |s.players[i].gp.value.view|
    requires ReconnectAccepted(s, s.players[i].pid, s.players[i].key, k)
    requires forall j :: net(s.clock, s.players[i].pid, j) == Ok
    ensures var p := s.players[i];
            var q := GpsReconnect(s, conn, p.pid, p.key, k, net).players[i];
            q.gp.Some? && q.gp.value.sent == p.gp.value.sent
            && q.gp.value.view == p.gp.value.view[..k] + Receipts(p.gp.value.buffer.ReplayFrom(k).value)
  {
    var p := s.players[i];
    assert ByPid(s.players, p.pid) == i;
    var r := Answers(net, s.clock, p.pid);
    ResendHandsOverAll(p.Reattach(conn, s.clock, k, r(0)), p.gp.value.buffer.ReplayFrom(k).value, r, 1);
  }

  /** What comes of a reconnect by client `i` that reports `k` packets. It is
      accepted within the range the buffer holds, and has every numbered packet
      if and only if it counted no stray; else it misses one for each. */
  ghost predicate ResumesUnlessStrayed(s: State, i: nat, k: nat, conn: nat, net: Net)
    requires i < |s.players| && s.players[i].gp.Some? && k <= |s.players[i].gp.value.view|
  {
    var p, g := s.players[i], s.players[i].gp.value;
    var t := GpsReconnect(s, conn, p.pid, p.key, k, net);
    var strays := Strays(g.view[..k]);
    var accepted := ReconnectAccepted(s, p.pid, p.key, k);
    && |t.players| == |s.players|
    && (accepted <==> g.buffer.first <= k <= |g.sent|)
    && (accepted && Whole(t.players[i]) <==> strays == 0 && g.buffer.first <= k)
    && (accepted ==> strays <= k && t.players[i].gp.Some?
                     && NumberedIn(t.players[i].gp.value.view) == g.sent[..k - strays] + g.sent[k..])
  }

  /** Resumption, on every run. Take a client that suffered no Backpressure and
      no FULL rejoin, and of whose packets the first `k` arrived; it reports
      that count, and the new link accepts everything. It ends up with every
      numbered packet, once and in order, if and only if none of the packets it
      counted had gone past the buffer and the buffer still holds the rest.
      Otherwise it is refused, or misses as many packets as it counted strays. */
  lemma HonestReconnectResumesIff(limit: nat, s: State, i: nat, k: nat, conn: nat, net: Net)
    requires Reachable(limit, s)
    requires i < |s.players| && s.players[i].gp.Some? && !s.players[i].gp.value.tainted
    requires k <= |s.players[i].gp.value.view|
    requires forall j :: net(s.clock, s.players[i].pid, j) == Ok
    ensures ResumesUnlessStrayed(s, i, k, conn, net)
  {
    ReachableIsSound(limit, s);
    ReconnectResumesIff(s, i, k, conn, net);
  }

  lemma ReconnectResumesIff(s: State, i: nat, k: nat, conn: nat, net: Net)
    requires Sound(s)
    requires i < |s.players| && s.players[i].gp.Some? && !s.players[i].gp.value.tainted
    requires k <= |s.players[i].gp.value.view|
    requires forall j :: net(s.clock, s.players[i].pid, j) == Ok
    ensures ResumesUnlessStrayed(s, i, k, conn, net)
  {
    var p, g := s.players[i], s.players[i].gp.value;
    assert SeatOk(p, s.trace.log);
    assert ByPid(s.players, p.pid) == i;
    ReplayFromIsExact(g.buffer, g.sent, k);
    ViewIsCounted(g.view[..k]);
    ViewPrefix(g.view, k);
    if ReconnectAccepted(s, p.pid, p.key, k) {
      ReconnectOutcome(s, i, k, conn, net);
      ReconnectedView(g, k);
      HoleIff(g.sent, k - Strays(g.view[..k]), k);
    }
  }

  // ---- where strays come from ----

  ghost predicate CountsStray(p: Player) {
    p.gp.Some? && Strays(p.gp.value.view) > 0
  }

  /** Every seat with that pid has counted a stray. */
  ghost predicate StrayedPid(ps: seq<Player>, pid: nat) {
    forall j :: 0 <= j < |ps| && ps[j].pid == pid ==> CountsStray(ps[j])
  }

  lemma LiveKeepsStray(p: Player, pkt: Packet, turn: bool, r: Send)
    requires CountsStray(p)
    ensures CountsStray(p.Live(pkt, turn, r)) && p.Live(pkt, turn, r).pid == p.pid
  {
    ViewSnoc(p.gp.value.view, Receipt(pkt, true));
    match p.link.Answer(r) {
      case Ok => assert CountsStray(p.Sent(pkt, turn));
      case Backpressure => assert CountsStray(p.Refused(pkt, turn));
      case Closed => assert CountsStray(p.HungUp());
    }
  }

  lemma BroadcastKeepsStray(s: State, pkt: Packet, net: Net, pid: nat)
    requires Sound(s) && StrayedPid(s.players, pid)
    ensures StrayedPid(Broadcast(s, pkt, net).players, pid)
  {
    BroadcastIsSound(s, pkt, net);
    var t := Broadcast(s, pkt, net);
    forall j | 0 <= j < |t.players| && t.players[j].pid == pid ensures CountsStray(t.players[j]) {
      var p := s.players[j];
      assert Undisturbed(p, t.players[j]);
      assert t.players[j] == p.OnBroadcast(pkt, s.phase.Playing?, net(s.clock, p.pid, 0));
      LiveKeepsStray(p.Numbered(pkt), pkt, s.phase.Playing?, net(s.clock, p.pid, 0));
    }
  }

  lemma DropVirtualHostKeepsStray(s: State, net: Net, pid: nat)
    requires Sound(s) && StrayedPid(s.players, pid)
    ensures StrayedPid(DropVirtualHost(s, net).players, pid)
  {
    if s.hostPid.Some? {
      var t := s.(hostPid := None, players := Without(s.players, s.hostPid.value));
      WithoutIsSound(s, s.hostPid.value);
      BroadcastKeepsStray(t, PlayerLeaveOthers(s.hostPid.value, PLAYERLEAVE_LOBBY), net, pid);
    }
  }

  /** A join breaks the resumption of every GProxy client already seated whose
      link takes the announcement: from then on it has counted a stray. */
  lemma JoinMakesStray(limit: nat, s: State, conn: nat, name: string, key: nat, slot: bool, net: Net, i: nat)
    requires Reachable(limit, s) && JoinAllowed(s, name, slot) && net(s.clock, NextFreePid(s.players, 1).value, 0) == Ok
    requires i < |s.players| && s.players[i].gp.Some? && s.players[i].link.open && net(s.clock, s.players[i].pid, 0) == Ok
    ensures StrayedPid(Join(s, conn, name, key, slot, net).players, s.players[i].pid)
  {
    ReachableIsSound(limit, s);
    var pid := NextFreePid(s.players, 1).value;
    var t := TellAll(s, PlayerInfo(pid), net);
    TellAllIsSound(s, PlayerInfo(pid), net, pid);
    ToldCountsStray(s, PlayerInfo(pid), net, i);
    var p := NewPlayer(pid, conn, name, key, Link(Joined(s.clock), net(s.clock, pid, 1) != Closed, []));
    NewPlayerIsOk(pid, conn, name, key, s.clock, net(s.clock, pid, 1) != Closed);
    SeatAdded(t, p);
    SeatedKeepsStray(t.(players := t.players + [p]), net, s.players[i].pid);
  }

  lemma ToldCountsStray(s: State, pkt: Packet, net: Net, i: nat)
    requires Sound(s) && i < |s.players| && s.players[i].gp.Some? && s.players[i].link.open && net(s.clock, s.players[i].pid, 0) == Ok
    ensures StrayedPid(TellAll(s, pkt, net).players, s.players[i].pid)
  {
    var t := TellAll(s, pkt, net);
    assert t.players[i] == s.players[i].Told(pkt, Ok);
    ViewSnoc(s.players[i].gp.value.view, Receipt(pkt, false));
    forall j | 0 <= j < |t.players| && t.players[j].pid == s.players[i].pid ensures j == i {
      assert t.players[j] == s.players[j].Told(pkt, net(s.clock, s.players[j].pid, 0));
    }
  }

  /** The rest of a join. */
  lemma SeatedKeepsStray(s: State, net: Net, pid: nat)
    requires Sound(s) && StrayedPid(s.players, pid)
    ensures StrayedPid(Broadcast(s, Opaque(2), net).players, pid)
    ensures StrayedPid(DropVirtualHost(Broadcast(s, Opaque(2), net), net).players, pid)
  {
    BroadcastKeepsStray(s, Opaque(2), net, pid);
    BroadcastIsSound(s, Opaque(2), net);
    DropVirtualHostKeepsStray(Broadcast(s, Opaque(2), net), net, pid);
  }

  // ---- and from nowhere else ----

  ghost function Telling(net: Net): (State, Command) -> nat {
    (s, cmd) => Tells(s, cmd, net)
  }

  /** How often players were told past their buffers in the first `k` steps. */
  ghost function ToldIn(net: Net, cmds: seq<Command>, states: seq<State>, k: nat): nat
    requires k <= |cmds| < |states|
  {
    Total(Telling(net), cmds, states, k)
  }

  /** On every run, a client counts at most one more stray for each join that
      was announced. */
  lemma StraysAreAnnouncements(limit: nat, s: State, net: Net, cmds: seq<Command>, states: seq<State>, k: nat, j: nat)
    requires Reachable(limit, s) && Path(Following(net), s, cmds, states) && k <= |cmds| && j < |states[k].players|
    ensures Sound(states[k]) && Inherits(s, states[k].players[j], ToldIn(net, cmds, states, k))
  {
    ReachableIsSound(limit, s);
    PathIsFollowed(s, net, cmds, states, k);
    assert SoundlyFrom(s)(states[k], ToldIn(net, cmds, states, k));
  }

  lemma PathIsFollowed(s: State, net: Net, cmds: seq<Command>, states: seq<State>, k: nat)
    requires Sound(s) && Path(Following(net), s, cmds, states) && k <= |cmds|
    ensures SoundlyFrom(s)(states[k], Total(Telling(net), cmds, states, k))
  {
    FromItself(s);
    StepsCarry(s, net);
    TotalHolds(Following(net), Telling(net), SoundlyFrom(s), s, cmds, states, k);
  }

  lemma StepsCarry(s: State, net: Net)
    ensures Carries(Following(net), Telling(net), SoundlyFrom(s))
  {
    forall t: State, cmd: Command, told: nat | SoundlyFrom(s)(t, told)
      ensures SoundlyFrom(s)(Following(net)(t, cmd), told + Telling(net)(t, cmd))
    {
      StepFollows(s, t, cmd, net, told);
    }
  }

  ghost function SoundlyFrom(s: State): (State, nat) -> bool {
    (t: State, told: nat) => Sound(t) && FollowsBy(s, t, told)
  }

  lemma FromItself(s: State)
    requires Sound(s)
    ensures SoundlyFrom(s)(s, 0)
  {
    SameSeatsFollow(s, s);
  }

  lemma StepFollows(s: State, t: State, cmd: Command, net: Net, told: nat)
    requires SoundlyFrom(s)(t, told)
    ensures SoundlyFrom(s)(Following(net)(t, cmd), told + Telling(net)(t, cmd))
  {
    NextFollows(t, cmd, net);
    NextIsSound(t, cmd, net);
    FollowsByTransitive(s, t, Next(t, cmd, net), told, Tells(t, cmd, net));
  }

  /** Before `s` the client had not announced itself, or had counted no stray. */
  ghost predicate StrayFree(s: State, pid: nat) {
    forall i :: 0 <= i < |s.players| && s.players[i].pid == pid ==> CountedStrays(s.players[i]) == 0
  }

  /** Resumption in terms of joins, on every run: since a state in which the
      client had not yet announced itself as a GProxy client no join was
      announced. Then a client that suffered no Backpressure and no FULL rejoin
      and reports its count honestly, over a link that accepts everything, ends
      up with every numbered packet if and only if its buffer still holds what
      it is missing. */
  lemma ResumesIfNobodyJoined(limit: nat, s: State, net: Net, cmds: seq<Command>, states: seq<State>,
                              i: nat, k: nat, conn: nat, answers: Net)
    requires Reachable(limit, s) && Path(Following(net), s, cmds, states) && ToldIn(net, cmds, states, |cmds|) == 0
    requires var t := states[|cmds|];
             && i < |t.players| && StrayFree(s, t.players[i].pid)
             && t.players[i].gp.Some? && !t.players[i].gp.value.tainted && k <= |t.players[i].gp.value.view|
             && forall j :: answers(t.clock, t.players[i].pid, j) == Ok
    ensures var t := states[|cmds|];
            var p := t.players[i];
            p.gp.value.buffer.first <= k <==>
              ReconnectAccepted(t, p.pid, p.key, k) && Whole(GpsReconnect(t, conn, p.pid, p.key, k, answers).players[i])
  {
    var t := states[|cmds|];
    StraysAreAnnouncements(limit, s, net, cmds, states, |cmds|, i);
    ViewPrefix(t.players[i].gp.value.view, k);
    assert CountedStrays(t.players[i]) == 0;
    ReconnectResumesIff(t, i, k, conn, answers);
  }

  // ---- a run on which an honest client is left with a hole ----

  /** The client's side after somebody else joined and one more line was sent
      while it was away. */
  const OneStray: Resend :=
    Resend(Buffer(GPROXY_CAPACITY, 0, [Opaque(2), Chat("x")]), [Opaque(2), Chat("x")],
           [Receipt(PlayerInfo(2), false), Receipt(Opaque(2), true)], false)

  /** A client joins and announces GProxy; a second one joins; the first is cut
      off and one line of chat is sent. It has received two packets and says so,
      is accepted, and never gets that line. */
  lemma HonestClientLosesAPacket(limit: nat) returns (s: State)
    ensures Reachable(limit, s) && |s.players| == 2 && s.players[0].gp.Some? && !s.players[0].gp.value.tainted
    ensures |s.players[0].gp.value.view| == 2
    ensures ReconnectAccepted(s, s.players[0].pid, s.players[0].key, 2)
    ensures !Whole(GpsReconnect(s, 3, s.players[0].pid, s.players[0].key, 2, AllOk()).players[0])
  {
    var cmds := [];
    s := Initial(limit, 0);
    JoinStep(limit);
    cmds, s := Go(limit, cmds, s, DoJoin(1, "a", 7, true));
    FreshInit(s);
    cmds, s := Go(limit, cmds, s, DoGpsInit(1));
    SecondJoin(s);
    cmds, s := Go(limit, cmds, s, DoJoin(2, "b", 8, true));
    var g := NewResend().Stray(PlayerInfo(2)).Number(Opaque(2)).Receive(Opaque(2));
    CutOff(s, g);
    cmds, s := Go(limit, cmds, s, DoClosed(1));
    LineSent(s, g);
    cmds, s := Go(limit, cmds, s, DoAnnounce(Chat("x")));
    AfterAllIsReachable(limit, cmds);
    OneStrayCounted();
    StrayedResend();
    assert ByPid(s.players, 1) == 0;
    HonestReconnectResumesIff(limit, s, 0, 2, 3, AllOk());
  }

  lemma OneStrayCounted()
    ensures Strays(OneStray.view[..2]) == 1
  {
    var a, b := Receipt(PlayerInfo(2), false), Receipt(Opaque(2), true);
    assert OneStray.view[..2] == [] + [a] + [b];
    ViewSnoc([], a);
    ViewSnoc([] + [a], b);
  }

  /** The first client, with its resend state. */
  ghost predicate Alone(s: State, g: Resend) {
    Game(s, Lobby, 0) && IsSolo(s.players[0], 1, false, false, NoRejoin, None) && s.players[0].gp == Some(g)
  }

  /** The second one, which does not use GProxy. */
  ghost predicate IsSecond(p: Player) {
    p.pid == 2 && !p.virtualHost && p.left.None? && p.link.open && p.gp.None? && p.rejoin == NoRejoin && p.cursor.None?
    && !p.disconnected && p.conn == 2
  }

  ghost predicate Pair(s: State, away: bool, g: Resend) {
    && s.phase.Lobby? && |s.players| == 2
    && IsSolo(s.players[0], 1, false, away, NoRejoin, None) && s.players[0].gp == Some(g)
    && IsSecond(s.players[1])
  }

  lemma FreshInit(s: State)
    requires Game(s, Lobby, 0) && IsSolo(s.players[0], 1, false, false, NoRejoin, None) && s.players[0].gp.None?
    ensures Alone(Next(s, DoGpsInit(1), AllOk()), NewResend())
  {
    assert ByConn(s.players, 1) == 0;
    StepIs(s, DoGpsInit(1), GpsInit(s, 1, AllOk()));
  }

  lemma SecondPid(s: State)
    requires Alone(s, NewResend())
    ensures JoinAllowed(s, "b", true) && NextFreePid(s.players, 1) == Some(2)
  {
    assert LowerAscii("a"[0]) != LowerAscii("b"[0]);
    assert Taken(s.players, 1) && !Taken(s.players, 2);
  }

  lemma SecondSeat(s: State, q: Player, p: Player)
    requires s.players == [q, p] && s.phase.Lobby? && IsSolo(q, 1, false, false, NoRejoin, None)
    requires q.gp == Some(NewResend().Stray(PlayerInfo(2))) && IsSecond(p)
    ensures var u := Broadcast(s, Opaque(2), AllOk());
            Pair(u, false, NewResend().Stray(PlayerInfo(2)).Number(Opaque(2)).Receive(Opaque(2)))
            && HumanCount(u.players) <= 2
  {
    var u := Broadcast(s, Opaque(2), AllOk());
    assert u.players[0] == q.OnBroadcast(Opaque(2), false, Ok);
    assert u.players[1] == p.OnBroadcast(Opaque(2), false, Ok);
    HumansArePlayers(u.players);
  }

  lemma SecondJoin(s: State)
    requires Alone(s, NewResend())
    ensures Pair(Next(s, DoJoin(2, "b", 8, true), AllOk()), false,
                 NewResend().Stray(PlayerInfo(2)).Number(Opaque(2)).Receive(Opaque(2)))
  {
    SecondPid(s);
    var p := NewPlayer(2, 2, "b", 8, Link(Joined(s.clock), true, []));
    var t := TellAll(s, PlayerInfo(2), AllOk());
    var q := s.players[0].Told(PlayerInfo(2), Ok);
    assert t.players == [q];
    var a := t.(players := t.players + [p]);
    assert a.players == [q, p];
    SecondSeat(a, q, p);
    var u := Broadcast(a, Opaque(2), AllOk());
    assert Join(s, 2, "b", 8, true, AllOk()) == u;
    StepIs(s, DoJoin(2, "b", 8, true), u);
  }

  lemma CutOff(s: State, g: Resend)
    requires Pair(s, false, g)
    ensures Pair(Next(s, DoClosed(1), AllOk()), true, g)
  {
    assert ByConn(s.players, 1) == 0;
    StepIs(s, DoClosed(1), ConnClosed(s, 1));
  }

  lemma LineSent(s: State, g: Resend)
    requires Pair(s, true, g)
    ensures Pair(Next(s, DoAnnounce(Chat("x")), AllOk()), true, g.Number(Chat("x")))
  {
    var t := Broadcast(s, Chat("x"), AllOk());
    assert t.players[0] == s.players[0].OnBroadcast(Chat("x"), false, Ok);
    assert t.players[1] == s.players[1].OnBroadcast(Chat("x"), false, Ok);
    StepIs(s, DoAnnounce(Chat("x")), t);
  }

  lemma StrayedResend()
    ensures NewResend().Stray(PlayerInfo(2)).Number(Opaque(2)).Receive(Opaque(2)).Number(Chat("x")) == OneStray
  {
  }
}
