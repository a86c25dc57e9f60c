/** One player's seat: the `Player` record and what each engine operation does
    to it (crates/spectre-engine/src/players.rs, state.rs, gproxy.rs,
    full_rejoin.rs). A link is represented by what it accepted, so the
    guarantees about clients are predicates on a seat. */
module Seats {
  import opened Basics
  import opened Packets
  import opened Histories
  import opened GProxy

  /** The three answers of `PlayerLink::try_send`. */
  datatype Send = Ok | Backpressure | Closed

  /** How a link came about, and in which round: that tells links apart. */
  datatype Origin = Joined(at: nat) | Reconnected(at: nat) | Rejoined(at: nat)

  /** An in-game broadcast handed to the link, whether it was queued, and
      whether it came early: while the client was still in its handshake. */
  datatype Offer = Offer(pkt: Packet, accepted: bool, early: bool)

  /** `feed`: the in-game broadcasts handed to this link, in order. `open`
      turns false at the first Closed and stays false. */
  datatype Link = Link(origin: Origin, open: bool, feed: seq<Offer>)
  {
    function Answer(r: Send): Send {
      if open then r else Closed
    }

    /** A send whose result the caller ignores. */
    function Touch(r: Send): Link {
      if r == Closed then this.(open := false) else this
    }

    function Handed(o: Offer): Link {
      this.(feed := feed + [o])
    }

    function Fed(pkt: Packet, accepted: bool, turn: bool): Link {
      if turn then Handed(Offer(pkt, accepted, false)) else this
    }
  }

  /** Something was handed over during the handshake. */
  ghost predicate Leaked(feed: seq<Offer>) {
    exists i :: 0 <= i < |feed| && feed[i].early
  }

  function Offered(feed: seq<Offer>): seq<Packet> {
    if feed == [] then []
    else Offered(feed[..|feed| - 1]) + [feed[|feed| - 1].pkt]
  }

  function Delivered(feed: seq<Offer>): seq<Packet> {
    if feed == [] then []
    else Delivered(feed[..|feed| - 1]) + (if feed[|feed| - 1].accepted then [feed[|feed| - 1].pkt] else [])
  }

  ghost predicate Lossless(feed: seq<Offer>) {
    forall i :: 0 <= i < |feed| ==> feed[i].accepted
  }

  lemma FeedSnoc(feed: seq<Offer>, x: Offer)
    ensures Offered(feed + [x]) == Offered(feed) + [x.pkt]
    ensures Delivered(feed + [x]) == Delivered(feed) + (if x.accepted then [x.pkt] else [])
  {
    assert (feed + [x])[..|feed|] == feed;
  }

  lemma {:induction false} LosslessDeliversAll(feed: seq<Offer>)
    requires Lossless(feed)
    ensures Delivered(feed) == Offered(feed)
  {
    if feed != [] {
      LosslessDeliversAll(feed[..|feed| - 1]);
    }
  }

  datatype Stage = NoRejoin | AwaitingMapSize | AwaitingLoaded

  datatype Checksum = Checksum(turn: nat, sum: nat)

  datatype Reason =
    | QueueFull | ConnectionClosed | ClosedDuringCatchUp | CatchUpEvicted | HistoryTooLong
    | Desynced | LaggedOut | ReconnectTimeout | LoadingTimeout | GameOverTimer | LeftVoluntarily
    | InvalidAction | Removed

  const MAX_CONSECUTIVE_DROPS := 100
  const MAX_QUEUED_CHECKSUMS := 512

  /** A seat's turn bookkeeping. `paced` is history: the turn counter is
      comparable to the game's, because it was reset together with it or caught
      up to it. */
  datatype Pace = Pace(sync: nat, checksums: seq<Checksum>, lagging: bool, catchingUp: bool, paced: bool)

  /** The fields of `Player` the engine's promises depend on. `gp` is present
      once the client announced itself as a GProxy client. */
  datatype Player = Player(
    pid: nat, conn: nat, name: string, key: nat, virtualHost: bool,
    left: Option<Reason>, leftCode: nat, loaded: bool,
    gp: Option<Resend>, disconnected: bool, failures: nat,
    rejoin: Stage, cursor: Option<nat>, pace: Pace, link: Link)
  {
    predicate Present() {
      left.None? && !virtualHost
    }

    function Numbered(pkt: Packet): Player {
      if gp.Some? then this.(gp := Some(gp.value.Number(pkt))) else this
    }

    /** The three arms of a live send in `broadcast` and `send_to`. */
    function Live(pkt: Packet, turn: bool, r: Send): Player {
      match link.Answer(r)
      case Ok => Sent(pkt, turn)
      case Backpressure => Refused(pkt, turn)
      case Closed => HungUp()
    }

    function Sent(pkt: Packet, turn: bool): Player {
      this.(failures := 0, link := link.Fed(pkt, true, turn),
            gp := if gp.Some? then Some(gp.value.Receive(pkt)) else None)
    }

    function Refused(pkt: Packet, turn: bool): Player {
      var p := this.(failures := SaturatingInc(failures), link := link.Fed(pkt, false, turn),
                     gp := if gp.Some? then Some(gp.value.Taint()) else None);
      if p.failures >= MAX_CONSECUTIVE_DROPS then p.(left := Some(QueueFull)) else p
    }

    function HungUp(): Player {
      var p := this.(link := link.(open := false));
      if gp.Some? then p.(disconnected := true) else p.(left := Some(ConnectionClosed))
    }

    /** One iteration of the loop in `GameState::broadcast`. */
    function OnBroadcast(pkt: Packet, turn: bool, r: Send): Player {
      if left.Some? || virtualHost then this
      else
        var p := Numbered(pkt);
        if rejoin != NoRejoin || cursor.Some? || disconnected then p else p.Live(pkt, turn, r)
    }

    /** `GameState::send_to`. */
    function OnDirect(pkt: Packet, r: Send): Player {
      if left.Some? then this
      else
        var p := Numbered(pkt);
        if disconnected then p else p.Live(pkt, false, r)
    }

    /** One packet of the history accepted by the link. */
    function Take(pkt: Packet): Player {
      this.(failures := 0, link := link.Handed(Offer(pkt, true, rejoin != NoRejoin)))
    }

    /** The inner loop of `pump_rejoin_catchup`: hands over `pending` until the
        link refuses; returns the seat and the advanced cursor. */
    function Feed(pending: seq<Packet>, cur: nat, r: nat -> Send, j: nat): (Player, nat)
      decreases |pending|
    {
      if pending == [] then (this, cur)
      else
        match link.Answer(r(j))
        case Ok =>
          Take(pending[0]).Feed(pending[1..], cur + 1, r, j + 1)
        case Backpressure => (this, cur)
        case Closed =>
          var p := this.(link := link.(open := false), cursor := None);
          (if gp.Some? && !disconnected then p.(disconnected := true) else p.(left := Some(ClosedDuringCatchUp)), cur)
    }

    /** One iteration of `pump_rejoin_catchup`. */
    function CatchUp(h: History, r: nat -> Send): Player {
      if cursor.None? then this
      else if left.Some? then this.(cursor := None)
      else if cursor.value < h.FirstSeq() then this.(left := Some(CatchUpEvicted), cursor := None)
      else
        var (p, cur) := Feed(h.SnapshotFromSeq(cursor.value), cursor.value, r, 0);
        if p.cursor.None? then p
        else if cur >= h.NextSeq() then p.(cursor := None, pace := p.pace.(catchingUp := true))
        else p.(cursor := Some(cur))
    }

    /** `handle_keepalive` for the seat that reported `sum`; `game` is the
        game's own turn counter. */
    function OnKeepalive(sum: nat, game: nat): Player {
      var sync := SaturatingInc(pace.sync);
      if pace.catchingUp then
        if sync >= game then
          this.(pace := pace.(sync := sync, catchingUp := false,
                              paced := pace.paced || (rejoin == NoRejoin && cursor.None?)))
        else this.(pace := pace.(sync := sync))
      else
        var kept := if |pace.checksums| >= MAX_QUEUED_CHECKSUMS then pace.checksums[1..] else pace.checksums;
        this.(pace := pace.(sync := sync, checksums := kept + [Checksum(sync, sum)]))
    }

    /** The re-attachment of a seat in `try_full_rejoin`. */
    function Rejoin(connId: nat, at: nat): Player {
      this.(conn := connId, link := Link(Rejoined(at), true, []), disconnected := false,
            left := None, failures := 0, loaded := false, rejoin := AwaitingMapSize,
            pace := pace.(sync := 0, checksums := [], lagging := false, paced := false),
            gp := if gp.Some? then Some(gp.value.Taint()) else None)
    }

    /** A packet sent past the resend buffer, its result ignored: what a seated
        player gets when somebody joins the lobby. */
    function Told(pkt: Packet, r: Send): Player {
      this.(link := link.Touch(r),
            gp := if gp.Some? && link.Answer(r) == Ok then Some(gp.value.Stray(pkt)) else gp)
    }

    /** The resend loop of `handle_gps_reconnect`: stops at the first refusal. */
    function Resend(replay: seq<Packet>, r: nat -> Send, j: nat): Player
      requires gp.Some?
      decreases |replay|
    {
      if replay == [] then this
      else
        match link.Answer(r(j))
        case Ok => this.(gp := Some(gp.value.Receive(replay[0]))).Resend(replay[1..], r, j + 1)
        case Backpressure => this.(gp := Some(gp.value.Taint()))
        case Closed => this.(link := link.(open := false))
    }

    /** The accepting path of `handle_gps_reconnect` for a client that claims
        to have received `last` numbered packets. */
    function Reconnect(connId: nat, at: nat, last: nat, replay: seq<Packet>, r: nat -> Send): Player
      requires gp.Some?
    {
      Reattach(connId, at, last, r(0)).Resend(replay, r, 1)
    }

    function Reattach(connId: nat, at: nat, last: nat, r: Send): (p: Player)
      requires gp.Some?
      ensures p.gp.Some?
    {
      this.(conn := connId, link := Link(Reconnected(at), true, []).Touch(r), disconnected := false, left := None,
            gp := Some(gp.value.Rewind(last)))
    }
  }

  /** Live for in-game broadcasts: they are sent to the link as they happen. */
  predicate Attached(p: Player) {
    p.Present() && !p.disconnected && p.rejoin == NoRejoin && p.cursor.None?
  }

  /** No packet can be fed from this cursor: there is none, or the history has
      evicted what it points at. */
  predicate Calm(cursor: Option<nat>, first: nat) {
    cursor.None? || cursor.value < first
  }

  /** Links whose whole history of in-game broadcasts is accounted for: those
      of players seated in the lobby or by a FULL rejoin, unless something was
      handed over during the handshake. */
  ghost predicate Tracked(l: Link) {
    !l.origin.Reconnected? && !Leaked(l.feed)
  }

  /** In-game broadcasts pass this seat by. */
  predicate Aside(p: Player) {
    p.left.Some? || p.virtualHost || p.rejoin != NoRejoin || p.cursor.Some?
  }

  /** Exactly-once, in-order hand-over of the log of in-game broadcasts:
      nothing during the handshake, a lossless prefix up to the cursor during
      catch-up, all of it once live, and never anything but a prefix. */
  ghost predicate FeedOk(feed: seq<Offer>, log: seq<Packet>, stage: Stage, cursor: Option<nat>, live: bool) {
    var sent := Offered(feed);
    && |sent| <= |log| && sent == log[..|sent|]
    && (stage != NoRejoin ==> feed == [])
    && (stage == NoRejoin && cursor.Some? ==> cursor.value == |sent| && Delivered(feed) == sent)
    && (live ==> |sent| == |log|)
  }

  ghost predicate InStep(p: Player, log: seq<Packet>) {
    Tracked(p.link) ==>
      FeedOk(p.link.feed, log, p.rejoin, LiveCursor(p), Attached(p))
  }

  /** The cursor of a player that has not left. */
  function LiveCursor(p: Player): Option<nat> {
    if p.left.Some? then None else p.cursor
  }

  /** What the resend buffer owes a GProxy client that reports honestly. */
  ghost predicate Resumable(p: Player) {
    && (p.disconnected ==> p.gp.Some?)
    && (p.rejoin != NoRejoin || p.cursor.Some? ==> p.gp.Some? && p.gp.value.tainted)
    && (p.gp.Some? ==> p.gp.value.Ok(p.left.None? && !p.disconnected && p.link.open))
  }

  ghost predicate PacedIsLive(p: Player, log: seq<Packet>) {
    && (p.pace.paced ==> p.rejoin == NoRejoin && p.cursor.None? && !p.pace.catchingUp)
    && (p.cursor.Some? ==> p.cursor.value <= |log|)
  }

  /** The connection id of a virtual host, which no connection has. */
  const HOST_CONN := 0xFFFF_FFFF_FFFF_FFFF

  /** A virtual host has no client behind it; pids are below 255. */
  predicate SeatedRight(p: Player) {
    p.pid < 255 && (p.virtualHost ==> p.conn == HOST_CONN && p.loaded && p.gp.None? && !p.disconnected)
  }

  /** Who joined in the lobby and is still on that link has never been through
      a rejoin. */
  ghost predicate Ordinary(p: Player) {
    p.link.origin.Joined? ==>
      p.rejoin == NoRejoin && p.cursor.None? && !p.pace.catchingUp && !Leaked(p.link.feed)
  }

  ghost predicate SeatOk(p: Player, log: seq<Packet>) {
    InStep(p, log) && Resumable(p) && PacedIsLive(p, log) && SeatedRight(p) && Ordinary(p)
  }

  /** What the client behind a seat has been handed of the log of in-game
      broadcasts: nothing during its handshake, exactly the log up to the
      cursor while catching up, all of it once live, and never anything but a
      prefix. */
  ghost predicate ExactlyOnce(p: Player, log: seq<Packet>) {
    && Offered(p.link.feed) <= log
    && (p.rejoin != NoRejoin ==> p.link.feed == [])
    && (p.rejoin == NoRejoin && p.cursor.Some? && p.left.None? ==>
          p.cursor.value <= |log| && Delivered(p.link.feed) == Offered(p.link.feed) == log[..p.cursor.value])
    && (Attached(p) ==> Offered(p.link.feed) == log)
    && (Attached(p) && Lossless(p.link.feed) ==> Delivered(p.link.feed) == log)
  }

  lemma TrackedIsExact(p: Player, log: seq<Packet>)
    requires SeatOk(p, log) && Tracked(p.link)
    ensures ExactlyOnce(p, log)
  {
    if Lossless(p.link.feed) {
      LosslessDeliversAll(p.link.feed);
    }
  }

  /** How many packets past its resend buffer the client counts. */
  function CountedStrays(p: Player): nat {
    if p.gp.Some? then Strays(p.gp.value.view) else 0
  }

  /** What a send may change about a seat: bookkeeping of the link, and that
      the player is gone or disconnected. The feed only grows, with nothing
      early, and not at all for a seat that broadcasts pass by; no stray is
      counted. */
  ghost predicate Undisturbed(p: Player, q: Player) {
    && q == p.(link := q.link, gp := q.gp, left := q.left, disconnected := q.disconnected, failures := q.failures)
    && (p.left.Some? ==> q.left == p.left)
    && q.link.origin == p.link.origin
    && (Aside(p) ==> q.link.feed == p.link.feed)
    && (Leaked(q.link.feed) ==> Leaked(p.link.feed))
    && CountedStrays(q) == CountedStrays(p)
  }

  lemma SentResumes(p: Player, pkt: Packet, turn: bool)
    requires Resumable(p) && p.left.None? && !p.disconnected
    ensures Resumable(p.Numbered(pkt).Sent(pkt, turn)) || !p.link.open
  {
    if p.gp.Some? {
      NumberIsOk(p.gp.value, p.link.open, pkt);
    }
  }

  lemma RefusedResumes(p: Player, pkt: Packet, turn: bool)
    requires Resumable(p) && p.left.None? && !p.disconnected
    ensures Resumable(p.Numbered(pkt).Refused(pkt, turn))
  {
    if p.gp.Some? {
      NumberIsOk(p.gp.value, p.link.open, pkt);
    }
  }

  lemma HungUpResumes(p: Player, pkt: Packet)
    requires Resumable(p) && p.left.None? && !p.disconnected
    ensures Resumable(p.Numbered(pkt).HungUp())
  {
    if p.gp.Some? {
      NumberIsOk(p.gp.value, p.link.open, pkt);
    }
  }

  lemma LiveResumes(p: Player, pkt: Packet, turn: bool, r: Send)
    requires Resumable(p) && p.left.None? && !p.disconnected
    ensures Resumable(p.Numbered(pkt).Live(pkt, turn, r))
  {
    match p.link.Answer(r) {
      case Ok => SentResumes(p, pkt, turn);
      case Backpressure => RefusedResumes(p, pkt, turn);
      case Closed => HungUpResumes(p, pkt);
    }
  }

  lemma SentIsUndisturbed(p: Player, pkt: Packet, turn: bool)
    requires turn ==> !Aside(p)
    ensures Undisturbed(p, p.Sent(pkt, turn))
  {
    LeakedSnoc(p.link.feed, Offer(pkt, true, false));
    if p.gp.Some? {
      ViewSnoc(p.gp.value.view, Receipt(pkt, true));
    }
  }

  lemma RefusedIsUndisturbed(p: Player, pkt: Packet, turn: bool)
    requires p.left.None? && (turn ==> !Aside(p))
    ensures Undisturbed(p, p.Refused(pkt, turn))
  {
    LeakedSnoc(p.link.feed, Offer(pkt, false, false));
  }

  lemma HungUpIsUndisturbed(p: Player)
    requires p.left.None?
    ensures Undisturbed(p, p.HungUp())
  {
  }

  lemma LiveIsUndisturbed(p: Player, pkt: Packet, turn: bool, r: Send)
    requires p.left.None? && (turn ==> !Aside(p))
    ensures Undisturbed(p, p.Live(pkt, turn, r))
  {
    match p.link.Answer(r) {
      case Ok => SentIsUndisturbed(p, pkt, turn);
      case Backpressure => RefusedIsUndisturbed(p, pkt, turn);
      case Closed => HungUpIsUndisturbed(p);
    }
  }

  lemma BroadcastKeepsPid(p: Player, pkt: Packet, turn: bool, r: Send)
    ensures p.OnBroadcast(pkt, turn, r).pid == p.pid
  {
    if Attached(p) {
      LiveIsUndisturbed(p.Numbered(pkt), pkt, turn, r);
    }
  }

  /** A live seat whose link refuses every one of `pkts`. */
  ghost function AllRefused(p: Player, pkts: seq<Packet>, turn: bool): Player {
    if pkts == [] then p else AllRefused(p, Most(pkts), turn).OnBroadcast(Last(pkts), turn, Backpressure)
  }

  /** A full write queue costs the player its seat at exactly the hundredth
      refusal in a row, and a send that is accepted starts the count again. */
  lemma {:induction false} SeatIsLostAtTheHundredthRefusal(p: Player, pkts: seq<Packet>, turn: bool)
    requires Attached(p) && p.link.open && p.failures < MAX_CONSECUTIVE_DROPS
    ensures var q := AllRefused(p, pkts, turn);
            && q.rejoin == p.rejoin && q.cursor == p.cursor && !q.disconnected && q.link.open && !q.virtualHost
            && (q.left.Some? <==> p.failures + |pkts| >= MAX_CONSECUTIVE_DROPS)
            && (q.left.Some? ==> q.left.value == QueueFull)
            && (q.left.None? ==> q.failures == p.failures + |pkts|)
    ensures forall pkt :: p.OnBroadcast(pkt, turn, Ok).failures == 0
  {
    if pkts != [] {
      SeatIsLostAtTheHundredthRefusal(p, Most(pkts), turn);
      RefusedCounts(AllRefused(p, Most(pkts), turn), Last(pkts), turn);
    }
    forall pkt ensures p.OnBroadcast(pkt, turn, Ok).failures == 0 {
      AcceptedResets(p, pkt, turn);
    }
  }

  lemma AcceptedResets(p: Player, pkt: Packet, turn: bool)
    requires Attached(p) && p.link.open
    ensures p.OnBroadcast(pkt, turn, Ok).failures == 0
  {
  }

  lemma RefusedCounts(p: Player, pkt: Packet, turn: bool)
    requires !p.disconnected && p.link.open && !p.virtualHost && p.rejoin == NoRejoin && p.cursor.None?
    requires p.left.None? ==> p.failures < MAX_CONSECUTIVE_DROPS
    ensures var q := p.OnBroadcast(pkt, turn, Backpressure);
            && q.rejoin == p.rejoin && q.cursor == p.cursor && !q.disconnected && q.link.open && !q.virtualHost
            && (p.left.Some? ==> q == p)
            && (p.left.None? ==> q.failures == p.failures + 1
                                 && q.left == if q.failures >= MAX_CONSECUTIVE_DROPS then Some(QueueFull) else None)
  {
    if p.left.None? {
      var q := p.Numbered(pkt);
      assert p.OnBroadcast(pkt, turn, Backpressure) == q.Live(pkt, turn, Backpressure) == q.Refused(pkt, turn);
      RefusalCounts(q, pkt, turn);
    }
  }

  lemma RefusalCounts(p: Player, pkt: Packet, turn: bool)
    requires p.left.None? && p.failures < MAX_CONSECUTIVE_DROPS
    ensures var q := p.Refused(pkt, turn);
            && q == p.(left := q.left, failures := p.failures + 1, link := q.link, gp := q.gp) && q.link.open == p.link.open
            && q.left == if q.failures >= MAX_CONSECUTIVE_DROPS then Some(QueueFull) else None
  {
  }

  lemma LeakedSnoc(feed: seq<Offer>, x: Offer)
    ensures Leaked(feed + [x]) <==> Leaked(feed) || x.early
  {
    assert (feed + [x])[|feed|] == x;
    if i :| 0 <= i < |feed| && feed[i].early {
      assert (feed + [x])[i].early;
    }
    if i :| 0 <= i < |feed + [x]| && (feed + [x])[i].early {
      assert i < |feed| ==> feed[i].early;
    }
  }

  lemma FeedOkSnoc(feed: seq<Offer>, log: seq<Packet>, x: Offer)
    requires FeedOk(feed, log, NoRejoin, None, true)
    ensures FeedOk(feed + [x], log + [x.pkt], NoRejoin, None, true)
  {
    FeedSnoc(feed, x);
    assert (log + [x.pkt])[..|log| + 1] == log[..|log|] + [x.pkt];
  }

  lemma FeedOkLonger(feed: seq<Offer>, log: seq<Packet>, stage: Stage, cursor: Option<nat>, live: bool, pkt: Packet)
    requires FeedOk(feed, log, stage, cursor, live)
    ensures FeedOk(feed, log + [pkt], stage, cursor, false)
    ensures FeedOk(feed, log, stage, cursor, false)
    ensures FeedOk(feed, log, stage, None, false) && FeedOk(feed, log + [pkt], stage, None, false)
  {
    assert (log + [pkt])[..|Offered(feed)|] == log[..|Offered(feed)|];
  }

  lemma SentStaysInStep(p: Player, log: seq<Packet>, pkt: Packet, turn: bool)
    requires InStep(p, log) && (turn ==> Attached(p))
    ensures InStep(p.Sent(pkt, turn), if turn then log + [pkt] else log)
  {
    LeakedSnoc(p.link.feed, Offer(pkt, true, false));
    if Tracked(p.link) && turn {
      FeedOkSnoc(p.link.feed, log, Offer(pkt, true, false));
    }
  }

  lemma RefusedStaysInStep(p: Player, log: seq<Packet>, pkt: Packet, turn: bool)
    requires InStep(p, log) && (turn ==> Attached(p))
    ensures InStep(p.Refused(pkt, turn), if turn then log + [pkt] else log)
  {
    LeakedSnoc(p.link.feed, Offer(pkt, false, false));
    if Tracked(p.link) {
      FeedOkLonger(p.link.feed, log, p.rejoin, LiveCursor(p), Attached(p), pkt);
      if turn {
        FeedOkSnoc(p.link.feed, log, Offer(pkt, false, false));
      }
    }
  }

  lemma HungUpStaysInStep(p: Player, log: seq<Packet>, pkt: Packet, turn: bool)
    requires InStep(p, log)
    ensures InStep(p.HungUp(), if turn then log + [pkt] else log)
  {
    if Tracked(p.link) {
      FeedOkLonger(p.link.feed, log, p.rejoin, LiveCursor(p), Attached(p), pkt);
    }
  }

  lemma LiveStaysInStep(p: Player, log: seq<Packet>, pkt: Packet, turn: bool, r: Send)
    requires InStep(p, log)
    requires turn ==> Attached(p)
    ensures InStep(p.Live(pkt, turn, r), if turn then log + [pkt] else log)
  {
    match p.link.Answer(r) {
      case Ok => SentStaysInStep(p, log, pkt, turn);
      case Backpressure => RefusedStaysInStep(p, log, pkt, turn);
      case Closed => HungUpStaysInStep(p, log, pkt, turn);
    }
  }

  lemma BroadcastKeepsSeat(p: Player, log: seq<Packet>, pkt: Packet, turn: bool, r: Send)
    requires SeatOk(p, log)
    ensures SeatOk(p.OnBroadcast(pkt, turn, r), if turn then log + [pkt] else log)
    ensures Undisturbed(p, p.OnBroadcast(pkt, turn, r))
  {
    if Attached(p) {
      LiveResumes(p, pkt, turn, r);
      LiveStaysInStep(p.Numbered(pkt), log, pkt, turn, r);
      LiveIsUndisturbed(p.Numbered(pkt), pkt, turn, r);
    } else {
      SkippedKeepsSeat(p, log, pkt, turn);
    }
  }

  lemma SkippedKeepsSeat(p: Player, log: seq<Packet>, pkt: Packet, turn: bool)
    requires SeatOk(p, log) && !Attached(p)
    ensures SeatOk(p, if turn then log + [pkt] else log)
    ensures p.Present() ==> SeatOk(p.Numbered(pkt), if turn then log + [pkt] else log)
  {
    if Tracked(p.link) {
      FeedOkLonger(p.link.feed, log, p.rejoin, LiveCursor(p), false, pkt);
    }
    if p.gp.Some? {
      NumberIsOk(p.gp.value, p.left.None? && !p.disconnected && p.link.open, pkt);
    }
  }

  lemma DirectKeepsSeat(p: Player, log: seq<Packet>, pkt: Packet, r: Send)
    requires SeatOk(p, log)
    ensures SeatOk(p.OnDirect(pkt, r), log)
    ensures Undisturbed(p, p.OnDirect(pkt, r))
  {
    if p.left.None? {
      if !p.disconnected {
        LiveResumes(p, pkt, false, r);
        LiveStaysInStep(p.Numbered(pkt), log, pkt, false, r);
        LiveIsUndisturbed(p.Numbered(pkt), pkt, false, r);
      } else if p.gp.Some? {
        NumberIsOk(p.gp.value, false, pkt);
      }
    }
  }

  /** What the feed loop may do to a seat: move its link and count, or hang it
      up and stop. */
  ghost predicate FedOn(p: Player, q: Player) {
    && q == p.(link := q.link, failures := q.failures, cursor := q.cursor, left := q.left, disconnected := q.disconnected)
    && q.link.origin == p.link.origin
    && (q.link.open ==> p.link.open)
    && ((q.cursor == p.cursor && q.left == p.left && q.disconnected == p.disconnected)
        || (q.cursor.None? && !q.link.open && (q.left.Some? || (q.disconnected && q.gp.Some?))))
  }

  lemma {:induction false} FeedMovesLink(p: Player, pending: seq<Packet>, cur: nat, r: nat -> Send, j: nat)
    requires p.cursor.Some? && p.left.None?
    ensures FedOn(p, p.Feed(pending, cur, r, j).0)
    decreases |pending|
  {
    if pending != [] && p.link.Answer(r(j)) == Ok {
      FeedMovesLink(p.Take(pending[0]), pending[1..], cur + 1, r, j + 1);
    }
  }

  /** The feed loop only adds offers, early ones during the handshake. */
  lemma {:induction false} FeedAddsOffers(p: Player, pending: seq<Packet>, cur: nat, r: nat -> Send, j: nat)
    ensures var f := p.Feed(pending, cur, r, j).0.link.feed;
            && (Leaked(p.link.feed) ==> Leaked(f))
            && (p.rejoin == NoRejoin && Leaked(f) ==> Leaked(p.link.feed))
            && (p.rejoin != NoRejoin ==> f == p.link.feed || Leaked(f))
    decreases |pending|
  {
    if pending != [] && p.link.Answer(r(j)) == Ok {
      LeakedSnoc(p.link.feed, Offer(pending[0], true, p.rejoin != NoRejoin));
      FeedAddsOffers(p.Take(pending[0]), pending[1..], cur + 1, r, j + 1);
    }
  }

  /** The feed loop extends a lossless prefix of the log, packet by packet. */
  lemma {:induction false} FeedExtends(p: Player, log: seq<Packet>, cur: nat, r: nat -> Send, j: nat)
    requires cur <= |log|
    ensures var (q, c) := p.Feed(log[cur..], cur, r, j);
            && cur <= c <= |log|
            && (Offered(p.link.feed) == Delivered(p.link.feed) == log[..cur] ==>
                Offered(q.link.feed) == Delivered(q.link.feed) == log[..c])
    decreases |log| - cur
  {
    var pending := log[cur..];
    if pending != [] && p.link.Answer(r(j)) == Ok {
      var n := p.Take(pending[0]);
      if Offered(p.link.feed) == Delivered(p.link.feed) == log[..cur] {
        TakeExtends(p, log, cur);
      }
      FeedExtends(n, log, cur + 1, r, j + 1);
      assert p.Feed(pending, cur, r, j) == n.Feed(log[cur + 1..], cur + 1, r, j + 1) by {
        assert pending[1..] == log[cur + 1..];
      }
    }
  }

  lemma TakeExtends(p: Player, log: seq<Packet>, cur: nat)
    requires cur < |log| && Offered(p.link.feed) == Delivered(p.link.feed) == log[..cur]
    ensures Offered(p.Take(log[cur]).link.feed) == Delivered(p.Take(log[cur]).link.feed) == log[..cur + 1]
  {
    FeedSnoc(p.link.feed, Offer(log[cur], true, p.rejoin != NoRejoin));
    assert log[..cur + 1] == log[..cur] + [log[cur]];
  }

  /** The feed of a seat in step, after the pump handed over `log[cur..c]`. */
  lemma FedStaysInStep(p: Player, q: Player, log: seq<Packet>, c: nat)
    requires InStep(p, log) && p.cursor.Some? && p.left.None? && p.cursor.value <= c <= |log|
    requires q.link.origin == p.link.origin && q.rejoin == p.rejoin
    requires q.cursor == None || q.cursor == Some(c)
    requires Attached(q) ==> c == |log|
    requires Leaked(p.link.feed) ==> Leaked(q.link.feed)
    requires p.rejoin != NoRejoin ==> q.link.feed == p.link.feed || Leaked(q.link.feed)
    requires Offered(p.link.feed) == Delivered(p.link.feed) == log[..p.cursor.value] ==>
               Offered(q.link.feed) == Delivered(q.link.feed) == log[..c]
    ensures InStep(q, log)
  {
  }

  lemma CatchUpStaysInStep(p: Player, log: seq<Packet>, h: History, r: nat -> Send)
    requires InStep(p, log) && p.cursor.Some? && p.left.None? && h.FirstSeq() <= p.cursor.value <= |log|
    requires h.Retains(log)
    ensures InStep(p.CatchUp(h, r), log)
  {
    var cur := p.cursor.value;
    SnapshotIsLogSuffix(h, log, cur);
    FeedExtends(p, log, cur, r, 0);
    FeedMovesLink(p, log[cur..], cur, r, 0);
    FeedAddsOffers(p, log[cur..], cur, r, 0);
    FedStaysInStep(p, p.CatchUp(h, r), log, p.Feed(log[cur..], cur, r, 0).1);
  }

  lemma CatchUpKeepsSeat(p: Player, log: seq<Packet>, h: History, r: nat -> Send)
    requires SeatOk(p, log)
    requires h.Retains(log)
    ensures SeatOk(p.CatchUp(h, r), log)
    ensures p.cursor.None? ==> p.CatchUp(h, r) == p
  {
    if p.cursor.Some? && p.left.None? && p.cursor.value >= h.FirstSeq() {
      CatchUpStaysInStep(p, log, h, r);
      SnapshotIsLogSuffix(h, log, p.cursor.value);
      FeedMovesLink(p, log[p.cursor.value..], p.cursor.value, r, 0);
      FeedExtends(p, log, p.cursor.value, r, 0);
    }
  }

  lemma {:induction false} ResendMovesLink(p: Player, replay: seq<Packet>, r: nat -> Send, j: nat)
    requires p.gp.Some?
    ensures var q := p.Resend(replay, r, j);
            && q.gp.Some? && q == p.(gp := q.gp, link := q.link)
            && q.link == p.link.(open := q.link.open)
            && (p.gp.value.tainted ==> q.gp.value.tainted)
    decreases |replay|
  {
    if replay != [] && p.link.Answer(r(j)) == Ok {
      ResendMovesLink(p.(gp := Some(p.gp.value.Receive(replay[0]))), replay[1..], r, j + 1);
    }
  }

  /** The resend loop hands an honest client the packets it is missing, in
      order, and brings it level unless the new link fails. */
  lemma {:induction false} ResendIsOk(p: Player, replay: seq<Packet>, r: nat -> Send, j: nat)
    requires p.gp.Some? && InStepWithNumbers(p.gp.value)
    requires !p.gp.value.tainted ==> |p.gp.value.view| <= |p.gp.value.sent| && replay == p.gp.value.sent[|p.gp.value.view|..]
    ensures var q := p.Resend(replay, r, j); q.gp.Some? && q.gp.value.Ok(q.link.open)
    decreases |replay|
  {
    var g := p.gp.value;
    if replay == [] {
      LevelIsOk(g);
    } else if p.link.Answer(r(j)) == Ok {
      if !g.tainted {
        ReceiveNextIsOk(g);
        assert replay[1..] == g.sent[|g.view| + 1..];
      }
      ResendIsOk(p.(gp := Some(g.Receive(replay[0]))), replay[1..], r, j + 1);
    }
  }

  lemma LevelIsOk(g: Resend)
    requires InStepWithNumbers(g) && (!g.tainted ==> |g.view| == |g.sent|)
    ensures g.Ok(true)
  {
    ViewIsCounted(g.view);
  }

  /** An accepted reconnect by a seat that is not rejoining keeps the seat's
      promises; if it was honest and the new link holds, the client is level. */
  lemma ReconnectKeepsSeat(p: Player, log: seq<Packet>, conn: nat, at: nat, last: nat, r: nat -> Send)
    requires SeatOk(p, log)
    requires p.gp.Some? && p.gp.value.buffer.ReplayFrom(last).Some?
    ensures SeatOk(p.Reconnect(conn, at, last, p.gp.value.buffer.ReplayFrom(last).value, r), log)
  {
    var g := p.gp.value;
    RewindIsOk(g, p.left.None? && !p.disconnected && p.link.open, last);
    ReplayFromIsExact(g.buffer, g.sent, last);
    var replay := g.buffer.ReplayFrom(last).value;
    ResendIsOk(p.Reattach(conn, at, last, r(0)), replay, r, 1);
    ResendMovesLink(p.Reattach(conn, at, last, r(0)), replay, r, 1);
  }

  lemma ToldKeepsSeat(p: Player, log: seq<Packet>, pkt: Packet, r: Send)
    requires SeatOk(p, log)
    ensures SeatOk(p.Told(pkt, r), log)
  {
    if p.gp.Some? {
      StrayIsOk(p.gp.value, p.left.None? && !p.disconnected && p.link.open, pkt);
    }
  }
}
