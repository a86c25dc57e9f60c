/** FULL rejoin: exactly when the client behind the new link is handed every
    in-game broadcast exactly once
    (crates/spectre-engine/src/full_rejoin.rs, state.rs). */
module ExactRejoins {
  import opened Basics
  import opened Seats
  import opened Engine
  import opened EngineSafety
  import opened Rejoins
  import opened Acceptance
  import opened LoadingRejoins

  ghost predicate ExactIn(s: State, o: Origin) {
    forall i :: 0 <= i < |s.players| && s.players[i].link.origin == o ==> ExactlyOnce(s.players[i], s.trace.log)
  }

  /** At a step boundary, and within the command before its reaper. */
  ghost predicate ExactAlong(s: State, cmd: Option<Command>, net: Net, o: Origin) {
    ExactIn(s, o) && (cmd.Some? ==> ExactIn(Handle(s, cmd.value, net), o))
  }

  ghost function Inexact(o: Origin, net: Net): (State, Option<Command>) -> bool {
    (s, cmd) => !ExactAlong(s, cmd, net, o)
  }

  /** Whatever follows `s` and whatever the links answer, who is on link `o` is
      handed every in-game broadcast exactly once. */
  ghost predicate AlwaysExact(s: State, o: Origin) {
    forall net :: !Somewhere(s, Following(net), Inexact(o, net))
  }

  lemma HushedIsExact(s: State, o: Origin)
    requires Sound(s) && Hushed(s, o) && !o.Reconnected?
    ensures ExactIn(s, o)
  {
    forall i | 0 <= i < |s.players| && s.players[i].link.origin == o ensures ExactlyOnce(s.players[i], s.trace.log) {
      assert SeatOk(s.players[i], s.trace.log) && HushedSeat(s.players[i], s.history.FirstSeq());
      TrackedIsExact(s.players[i], s.trace.log);
    }
  }

  lemma HushedIsExactAlong(s: State, cmd: Option<Command>, net: Net, o: Origin)
    requires Sound(s) && Hushed(s, o) && !o.Reconnected?
    ensures !Inexact(o, net)(s, cmd)
  {
    HushedIsExact(s, o);
    if cmd.Some? {
      NextIsHushed(s, cmd.value, net, o);
      HushedIsExact(Handle(s, cmd.value, net), o);
    }
  }

  lemma HushedIsAlwaysExact(s: State, o: Origin)
    requires Sound(s) && Hushed(s, o) && !o.Reconnected?
    ensures AlwaysExact(s, o)
  {
    forall net ensures !Somewhere(s, Following(net), Inexact(o, net)) {
      forall cmds: seq<Command>, states: seq<State>, k: nat | Path(Following(net), s, cmds, states) && k <= |cmds|
        ensures !Inexact(o, net)(states[k], if k < |cmds| then Some(cmds[k]) else None)
      {
        HushedRun(s, net, cmds, states, k, o);
        HushedIsExactAlong(states[k], if k < |cmds| then Some(cmds[k]) else None, net, o);
      }
    }
  }

  /** Something handed over during the handshake is once too often. */
  lemma LeakIsInexact(s: State, cmd: Option<Command>, net: Net, o: Origin)
    requires Leaking(o, net)(s, cmd)
    ensures Inexact(o, net)(s, cmd)
  {
    if !QuietIn(s, o) {
      EarlyIsInexact(s, o);
    } else {
      EarlyIsInexact(Handle(s, cmd.value, net), o);
    }
  }

  lemma EarlyIsInexact(s: State, o: Origin)
    requires !QuietIn(s, o)
    ensures !ExactIn(s, o)
  {
  }

  lemma LeaksAreInexact(s: State, o: Origin, net: Net)
    requires LeaksUnder(s, o, net)
    ensures !AlwaysExact(s, o)
  {
    forall t: State, cmd: Option<Command> | Leaking(o, net)(t, cmd) ensures Inexact(o, net)(t, cmd) {
      LeakIsInexact(t, cmd, net, o);
    }
    SomewhereWeaker(s, Following(net), Leaking(o, net), Inexact(o, net));
  }

  lemma SomewhereWeaker<S(!new), C(!new)>(s: S, next: (S, C) -> S, q: (S, Option<C>) -> bool, r: (S, Option<C>) -> bool)
    requires Somewhere(s, next, q) && forall t: S, c: Option<C> :: q(t, c) ==> r(t, c)
    ensures Somewhere(s, next, r)
  {
    var cmds: seq<C>, states: seq<S>, k: nat :| Path(next, s, cmds, states) && k <= |cmds|
      && q(states[k], if k < |cmds| then Some(cmds[k]) else None);
    assert r(states[k], if k < |cmds| then Some(cmds[k]) else None);
  }

  /** On every run, whatever the links answer and whatever commands follow: in
      every state after a calm acceptance, who is on the new link has been
      handed nothing during its handshake, exactly the log up to the cursor
      while catching up, and all of it once live. */
  lemma CalmRejoinIsExactlyOnce(limit: nat, s: State, conn: ConnId, name: string, first: Net,
                                net: Net, cmds: seq<Command>, states: seq<State>, k: nat, i: nat)
    requires Reachable(limit, s) && RejoinAccepted(s, conn, name)
    requires Calm(s.players[TokenSeat(s, conn)].cursor, FirstHeld(s))
    requires Path(Following(net), Next(s, DoRejoin(conn, name), first), cmds, states) && k <= |cmds|
    requires i < |states[k].players| && states[k].players[i].link.origin == Rejoined(s.clock)
    ensures ExactlyOnce(states[k].players[i], states[k].trace.log)
  {
    var u := Next(s, DoRejoin(conn, name), first);
    AcceptedIsHushed(limit, s, conn, name, first);
    HushedRun(u, net, cmds, states, k, Rejoined(s.clock));
    HushedIsExact(states[k], Rejoined(s.clock));
  }

  /** FULL rejoin hands every turn over exactly once if and only if no catch-up
      cursor was armed at the acceptance or the history no longer holds what it
      points at. */
  lemma RejoinIsExactIff(limit: nat, s: State, conn: ConnId, name: string)
    requires Reachable(limit, s) && RejoinAccepted(s, conn, name)
    ensures (forall net :: AlwaysExact(Next(s, DoRejoin(conn, name), net), Rejoined(s.clock)))
       <==> Calm(s.players[TokenSeat(s, conn)].cursor, FirstHeld(s))
  {
    if Calm(s.players[TokenSeat(s, conn)].cursor, FirstHeld(s)) {
      forall net ensures AlwaysExact(Next(s, DoRejoin(conn, name), net), Rejoined(s.clock)) {
        AcceptedIsHushed(limit, s, conn, name, net);
        HushedIsAlwaysExact(Next(s, DoRejoin(conn, name), net), Rejoined(s.clock));
      }
    } else {
      RejoinIsQuietIff(limit, s, conn, name);
      var net :| !AlwaysQuiet(Next(s, DoRejoin(conn, name), net), Rejoined(s.clock));
      UnquietIsInexact(Next(s, DoRejoin(conn, name), net), Rejoined(s.clock));
    }
  }

  lemma UnquietIsInexact(s: State, o: Origin)
    requires !AlwaysQuiet(s, o)
    ensures !AlwaysExact(s, o)
  {
    var net :| LeaksUnder(s, o, net);
    LeaksAreInexact(s, o, net);
  }
}
