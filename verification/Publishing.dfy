/** Publishing the growing replay to the live stream
    (crates/spectre-spectator/src/dotatv_server.rs, `publish_pending`, with the
    locks left out). */
module Publishing {
  import opened Basics
  import opened Crc
  import opened Streams
  import opened Replay
  import Wire

  const HEARTBEAT_EVERY_MS := 5_000

  /** The text of a heartbeat, from the replay time, the published length and
      the published CRC. */
  type Format = (nat, nat, Word) -> Bytes

  /** The shared stream, the body and the publisher's own variables.
      `heartbeat` is the pid heartbeats are sent as, when they are enabled.
      Two fields are history: `prologue` is the prologue as it was sent and
      `lost` is what earlier attempts to send it pushed before they failed. */
  datatype Live = Live(stream: Stream, body: Body, sent: bool, marker: nat, length: nat, heartbeat: Option<byte>,
                       prologue: Bytes, lost: Bytes)

  function Heartbeat(l: Live, format: Format): Live {
    var now := l.body.length;
    if l.heartbeat.Some? && SaturatingSub(now, l.marker) >= HEARTBEAT_EVERY_MS then
      var message := format(now, l.stream.PublishedLen(), l.stream.PublishedCrc());
      l.(body := Edited(l.body, AddChat(l.heartbeat.value, 0x20, 0, message)), marker := now)
    else l
  }

  /** The part of `publish_pending` that runs once the prologue is out. */
  function PublishBlocks(l: Live, z: Zlib, format: Format): (Live, bool) {
    var m := Heartbeat(l, format);
    var bytes := m.body.Pending();
    var d := m.(body := m.body.Drained());
    if bytes == [] then (d.(length := d.body.length), true)
    else
      var (s, r) := d.stream.Push(bytes).Flush(z);
      if r.ChunkTooLarge? then (d.(stream := s), false) else (d.(stream := s, length := d.body.length), true)
  }

  /** `publish_pending`; the flag says whether it returned Ok. */
  function Publish(l: Live, z: Zlib, format: Format): (Live, bool) {
    if l.sent then PublishBlocks(l, z, format)
    else
      match l.body.settings.Prologue()
      case None => (l, true)
      case Some(p) =>
        var (s, r) := l.stream.Push(p).Flush(z);
        if r.ChunkTooLarge? then (l.(stream := s, lost := l.lost + p), false)
        else PublishBlocks(l.(stream := s.MarkPrologueEnd(), sent := true, prologue := p), z, format)
  }

  datatype Event = DoEdit(edit: Edit) | DoPublish

  function Step(l: Live, e: Event, z: Zlib, format: Format): Live {
    match e
    case DoEdit(edit) => l.(body := Edited(l.body, edit))
    case DoPublish => Publish(l, z, format).0
  }

  function NewLive(hostPid: byte, hostName: Bytes, heartbeat: Option<byte>): Live {
    Live(NewStream, NewBody(hostPid, hostName), false, 0, 0, heartbeat, [], [])
  }

  function After(l: Live, events: seq<Event>, z: Zlib, format: Format): Live {
    if events == [] then l else Step(After(l, Most(events), z, format), Last(events), z, format)
  }

  // ---- the invariant ----

  /** Everything pushed to the stream so far. */
  ghost function Pushed(l: Live): Bytes {
    l.lost + (if l.sent then l.prologue else []) + (if l.body.published <= |l.body.blocks| then l.body.blocks[..l.body.published] else [])
  }

  ghost predicate Good(l: Live, z: Zlib) {
    && Refines(l.stream, z, Pushed(l))
    && l.body.published <= |l.body.blocks|
    && (if l.sent then l.body.settings.start.Some? else l.body.published == 0)
  }

  predicate AllPublished(s: Stream) {
    s.framedLen >= |s.raw|
  }

  lemma EditIsGood(l: Live, z: Zlib, edit: Edit)
    requires Good(l, z)
    ensures Good(l.(body := Edited(l.body, edit)), z)
    ensures Pushed(l.(body := Edited(l.body, edit))) == Pushed(l)
  {
    var b, c := l.body, Edited(l.body, edit);
    EditAppends(b, edit);
    assert c.blocks[..b.published] == b.blocks[..b.published];
  }

  lemma MarkerIsGood(l: Live, z: Zlib, marker: nat)
    requires Good(l, z)
    ensures Good(l.(marker := marker), z)
  {
    assert Pushed(l.(marker := marker)) == Pushed(l);
  }

  lemma HeartbeatIsGood(l: Live, z: Zlib, format: Format)
    requires Good(l, z)
    ensures Good(Heartbeat(l, format), z)
    ensures Heartbeat(l, format) == l.(body := Heartbeat(l, format).body, marker := Heartbeat(l, format).marker)
    ensures Heartbeat(l, format).body.length == l.body.length && Heartbeat(l, format).body.settings == l.body.settings
  {
    if l.heartbeat.Some? && SaturatingSub(l.body.length, l.marker) >= HEARTBEAT_EVERY_MS {
      var message := format(l.body.length, l.stream.PublishedLen(), l.stream.PublishedCrc());
      ChatIsGood(l, z, AddChat(l.heartbeat.value, 0x20, 0, message), l.body.length);
    }
  }

  lemma ChatIsGood(l: Live, z: Zlib, chat: Edit, marker: nat)
    requires Good(l, z) && chat.AddChat?
    ensures Good(l.(body := Edited(l.body, chat), marker := marker), z)
    ensures Edited(l.body, chat).length == l.body.length && Edited(l.body, chat).settings == l.body.settings
  {
    EditIsGood(l, z, chat);
    MarkerIsGood(l.(body := Edited(l.body, chat)), z, marker);
  }

  /** Draining and pushing the new blocks. */
  lemma DrainPushes(l: Live, z: Zlib)
    requires Good(l, z) && l.sent
    ensures Pushed(l.(body := l.body.Drained())) == l.lost + l.prologue + l.body.blocks == Pushed(l) + l.body.Pending()
    ensures Refines(l.stream.Push(l.body.Pending()), z, l.lost + l.prologue + l.body.blocks)
  {
    var b := l.body;
    PushRefines(l.stream, z, Pushed(l), b.Pending());
    SplitBlocks(l.lost + l.prologue, b.blocks, b.published);
  }

  lemma SplitBlocks(head: Bytes, blocks: Bytes, k: nat)
    requires k <= |blocks|
    ensures head + blocks[..k] + blocks[k..] == head + blocks == head + blocks[..|blocks|]
  {
    assert blocks[..k] + blocks[k..] == blocks;
  }

  /** What is on the stream after the blocks were published: all of it when new
      bytes were flushed; with no new bytes, whatever was there before. */
  lemma PublishBlocksIsGood(l: Live, z: Zlib, format: Format)
    requires z.RoundTrips() && Good(l, z) && l.sent
    ensures var (m, ok) := PublishBlocks(l, z, format);
            && Good(m, z) && m.sent && m.prologue == l.prologue && m.lost == l.lost
            && m.body.settings == l.body.settings && m.body.length == l.body.length
            && Pushed(m) == m.lost + m.prologue + m.body.blocks
            && (ok ==> m.length == m.body.length)
            && (ok ==> (AllPublished(m.stream) <==> Heartbeat(l, format).body.Pending() != [] || AllPublished(l.stream)))
  {
    HeartbeatIsGood(l, z, format);
    var m := Heartbeat(l, format);
    DrainPushes(m, z);
    var d := m.(body := m.body.Drained());
    if m.body.Pending() == [] {
      assert Pushed(m) + [] == Pushed(m);
    } else {
      FlushRefines(d.stream.Push(m.body.Pending()), z, Pushed(d));
    }
  }

  /** The attempt to send the prologue, as far as the stream is concerned. */
  lemma PrologueFlush(s: Stream, z: Zlib, lost: Bytes, p: Bytes)
    requires z.RoundTrips() && Refines(s, z, lost)
    ensures var (t, r) := s.Push(p).Flush(z);
            && Refines(t, z, lost + p)
            && Refines(t.MarkPrologueEnd(), z, lost + p)
            && (r.Flushed? ==> AllPublished(t.MarkPrologueEnd()))
  {
    PushRefines(s, z, lost, p);
    FlushRefines(s.Push(p), z, lost + p);
    MarkRefines(s.Push(p).Flush(z).0, z, lost + p);
  }

  lemma PushedBeforePrologue(l: Live)
    requires !l.sent && l.body.published == 0
    ensures Pushed(l) == l.lost
  {
  }

  lemma PushedAtPrologue(l: Live)
    requires l.sent && l.body.published == 0
    ensures Pushed(l) == l.lost + l.prologue
  {
  }

  lemma PrologueIsGood(l: Live, z: Zlib, p: Bytes)
    requires z.RoundTrips() && Good(l, z) && !l.sent && l.body.settings.Prologue() == Some(p)
    ensures var (s, r) := l.stream.Push(p).Flush(z);
            if r.ChunkTooLarge? then Good(l.(stream := s, lost := l.lost + p), z)
            else var m := l.(stream := s.MarkPrologueEnd(), sent := true, prologue := p);
                 Good(m, z) && AllPublished(m.stream)
  {
    PushedBeforePrologue(l);
    PrologueFlush(l.stream, z, l.lost, p);
    var (s, r) := l.stream.Push(p).Flush(z);
    if r.ChunkTooLarge? {
      PushedBeforePrologue(l.(stream := s, lost := l.lost + p));
    } else {
      PushedAtPrologue(l.(stream := s.MarkPrologueEnd(), sent := true, prologue := p));
    }
  }

  /** One call of `publish_pending`. A successful call either had no prologue to
      send or leaves everything pushed: what earlier failed attempts left
      behind, the prologue as sent, and all blocks. */
  lemma PublishIsGood(l: Live, z: Zlib, format: Format)
    requires z.RoundTrips() && Good(l, z)
    ensures var (m, ok) := Publish(l, z, format);
            && Good(m, z)
            && m.body.length == l.body.length && m.body.settings == l.body.settings
            && (l.sent ==> m.sent && m.prologue == l.prologue && m.lost == l.lost)
            && (!l.sent && m.sent ==> m.lost == l.lost && Some(m.prologue) == m.body.settings.Prologue())
            && (!m.sent && ok ==> m == l)
            && (ok && m.sent ==> m.length == m.body.length && Pushed(m) == m.lost + m.prologue + m.body.blocks
                                 && (AllPublished(m.stream) <==> !Stalled(l, format)))
  {
    if l.sent {
      PublishBlocksIsGood(l, z, format);
    } else if l.body.settings.Prologue().Some? {
      var p := l.body.settings.Prologue().value;
      PrologueIsGood(l, z, p);
      var (s, r) := l.stream.Push(p).Flush(z);
      if r.Flushed? {
        PublishBlocksIsGood(l.(stream := s.MarkPrologueEnd(), sent := true, prologue := p), z, format);
      }
    }
  }

  /** The caller's view of the one case in which a successful call leaves bytes
      unpublished: an earlier flush failed and there is nothing new to push. */
  predicate Stalled(l: Live, format: Format) {
    l.sent && !AllPublished(l.stream) && Heartbeat(l, format).body.Pending() == []
  }

  // ---- runs ----

  lemma {:induction false} RunIsGood(l: Live, events: seq<Event>, z: Zlib, format: Format)
    requires z.RoundTrips() && Good(l, z)
    ensures Good(After(l, events, z, format), z)
  {
    if events != [] {
      RunIsGood(l, Most(events), z, format);
      var m := After(l, Most(events), z, format);
      match Last(events) {
        case DoEdit(edit) => EditIsGood(m, z, edit);
        case DoPublish => PublishIsGood(m, z, format);
      }
    }
  }

  lemma NewIsGood(hostPid: byte, hostName: Bytes, heartbeat: Option<byte>, z: Zlib)
    ensures Good(NewLive(hostPid, hostName, heartbeat), z) && Clean(NewLive(hostPid, hostName, heartbeat))
  {
    var l := NewLive(hostPid, hostName, heartbeat);
    PushedBeforePrologue(l);
    NewRefines(z);
  }

  /** The bytes on the live stream. */
  ghost function OnAir(l: Live, z: Zlib): Bytes {
    Inflated(z, l.stream.frames)
  }

  lemma OnAirIsPushedIff(l: Live, z: Zlib)
    requires Good(l, z)
    ensures OnAir(l, z) == Pushed(l) <==> AllPublished(l.stream)
    ensures OnAir(l, z) <= Pushed(l)
  {
    TailIsPending(l.stream, z, Pushed(l));
  }

  /** Live stream against saved replay, for every run. After a successful call
      the replay length is the saved one. The stream is the replay `finish`
      would return at that moment, with nothing pending, if and only if the call
      was not stalled and what went out ahead of the blocks is the prologue of
      that replay. When either condition holds, the bytes alone decide it. */
  lemma LiveEqualsSavedIff(l0: Live, events: seq<Event>, z: Zlib, format: Format)
    requires z.RoundTrips() && Good(l0, z)
    ensures var l := After(l0, events, z, format);
            var (m, ok) := Publish(l, z, format);
            ok && m.sent ==>
              && m.body.Finish().Some? && m.length == m.body.Finish().value.1
              && (CaughtUp(m, z) <==> !Stalled(l, format) && HeadMatches(l))
              && (!Stalled(l, format) || HeadMatches(l) ==>
                    (OnAir(m, z) == m.body.Finish().value.0 <==> !Stalled(l, format) && HeadMatches(l)))
  {
    RunIsGood(l0, events, z, format);
    var l := After(l0, events, z, format);
    PublishIsGood(l, z, format);
    var m := Publish(l, z, format).0;
    if Publish(l, z, format).1 && m.sent {
      OnAirIsPushedIff(m, z);
      LostOnlyByFailedPrologue(l, z, format);
      ComparePrefix(OnAir(m, z), m.lost + m.prologue, m.body.settings.Prologue().value, m.body.blocks);
    }
  }

  /** The stream is the saved replay and nothing is pending. */
  ghost predicate CaughtUp(m: Live, z: Zlib)
    requires m.body.Finish().Some?
  {
    AllPublished(m.stream) && OnAir(m, z) == m.body.Finish().value.0
  }

  /** What a call finds or puts ahead of the blocks is the prologue `finish`
      would build. */
  predicate HeadMatches(l: Live) {
    match l.body.settings.Prologue()
    case None => false
    case Some(p) => l.lost + (if l.sent then l.prologue else p) == p
  }

  /** The prologue as sent, if it was, is the prologue as `finish` would build
      it. */
  predicate Unchanged(l: Live) {
    l.body.settings.start.Some? && (l.sent ==> l.body.settings.Prologue() == Some(l.prologue))
  }

  /** With its fields unchanged, only bytes of failed attempts can be in the
      prologue's way. */
  lemma HeadMatchesIff(l: Live)
    requires Unchanged(l)
    ensures HeadMatches(l) <==> l.lost == []
  {
    var p := l.body.settings.Prologue().value;
    assert |l.lost + p| == |l.lost| + |p|;
  }

  /** `air` is a prefix of `head + blocks`, compared with `saved + blocks`. */
  lemma ComparePrefix(air: Bytes, head: Bytes, saved: Bytes, blocks: Bytes)
    requires air <= head + blocks
    ensures air == head + blocks ==> (air == saved + blocks <==> head == saved)
  {
    if head + blocks == saved + blocks {
      assert |head| == |saved|;
      assert head == (head + blocks)[..|head|] == (saved + blocks)[..|saved|] == saved;
    }
  }

  // ---- what a failure leaves behind ----

  lemma PrologueIsNotEmpty(settings: Settings)
    ensures settings.Prologue().Some? ==> settings.Prologue().value != []
  {
    assert |Wire.Le(0x0000_0110, 4)| == 4;
  }

  /** A call leaves bytes of a prologue behind exactly when it fails before the
      prologue is out. */
  lemma LostOnlyByFailedPrologue(l: Live, z: Zlib, format: Format)
    requires z.RoundTrips() && Good(l, z)
    ensures Publish(l, z, format).0.lost != l.lost <==> !Publish(l, z, format).1 && !Publish(l, z, format).0.sent
  {
    PublishIsGood(l, z, format);
    PrologueIsNotEmpty(l.body.settings);
    if !l.sent && l.body.settings.Prologue().Some? {
      var p := l.body.settings.Prologue().value;
      PrologueIsGood(l, z, p);
      var (s, r) := l.stream.Push(p).Flush(z);
      if r.ChunkTooLarge? {
        assert |l.lost + p| > |l.lost|;
      } else {
        PublishBlocksIsGood(l.(stream := s.MarkPrologueEnd(), sent := true, prologue := p), z, format);
      }
    }
  }

  /** A failure can go unnoticed: with heartbeats off, a call that failed to
      flush, followed by a call with nothing new, returns Ok with bytes of the
      replay missing from the stream. */
  lemma QuietCallHidesFailure(l: Live, z: Zlib, format: Format)
    requires z.RoundTrips() && Good(l, z) && l.sent && l.heartbeat.None?
    requires !Publish(l, z, format).1
    ensures var (m, ok) := Publish(Publish(l, z, format).0, z, format);
            ok && m.sent && OnAir(m, z) != m.lost + m.prologue + m.body.blocks
  {
    HeartbeatIsGood(l, z, format);
    DrainPushes(l, z);
    FlushRefines(l.stream.Push(l.body.Pending()), z, l.lost + l.prologue + l.body.blocks);
    var m := Publish(l, z, format).0;
    PublishIsGood(l, z, format);
    assert m.body.Pending() == [] && !AllPublished(m.stream);
    PublishIsGood(m, z, format);
    OnAirIsPushedIff(Publish(m, z, format).0, z);
  }

  // ---- runs on which that happens ----

  /** A compressor that swells `bad` and nothing else. */
  function Choking(bad: Bytes): Zlib {
    Zlib((x: Bytes) => if x == bad then [1] + Zeros() + x else [0] + x,
         (y: Bytes) => if |y| > 9_000 && y[0] == 1 then y[9_001..] else if y != [] then y[1..] else [])
  }

  function Zeros(): Bytes {
    seq(9_000, _ => 0)
  }

  lemma ChokingRoundTrips(bad: Bytes)
    ensures Choking(bad).RoundTrips()
  {
    var z := Choking(bad);
    forall x: Bytes ensures z.inflate(z.deflate(x)) == x {
      var plain: Bytes := [0];
      assert (plain + x)[1..] == x;
      assert ([1] + Zeros() + x)[9_001..] == x;
    }
  }

  /** What is pending fits into one frame: it is cut off whole or not at all. */
  lemma FlushesOnce(s: Stream, bad: Bytes)
    requires s.rawBase == 0 && s.framedLen < |s.raw| < 8_000
    ensures var (t, r) := s.Flush(Choking(bad));
            if s.raw[s.framedLen..] == bad then r.ChunkTooLarge? && t == s
            else r.Flushed? && t == s.Frame(|s.raw|, Choking(bad))
  {
    var z := Choking(bad);
    assert s.NextEnd() == |s.raw| && s.raw[s.framedLen..|s.raw|] == s.raw[s.framedLen..];
    if s.raw[s.framedLen..] != bad {
      var t := s.Frame(|s.raw|, z);
      assert t.CutAll(z, 1) == (t, Flushed(1));
    }
  }

  /** The settings of a game that was just started. */
  function Started(): Settings {
    Settings(0, [], [], Some(Start([], 0, 0, 0)), [], [], [])
  }

  lemma ShortPrologue()
    ensures Started().Prologue().Some? && 5 < |Started().Prologue().value| < 100
  {
    assert Started().PlayerRecords(0) == [] && Flatten<byte>([]) == [];
  }

  /** A short prologue `p` is to be sent, and nothing was sent before it. */
  ghost predicate Fresh(l: Live, p: Bytes) {
    && !l.sent && l.heartbeat.None? && l.lost == [] && l.stream == NewStream
    && l.body.settings.Prologue() == Some(p) && 5 < |p| < 100
    && l.body.published == |l.body.blocks| == 0
  }

  lemma StartIsFresh(z: Zlib, format: Format) returns (p: Bytes)
    ensures Started().Prologue() == Some(p) && Fresh(Step(NewLive(0, [], None), STARTING, z, format), p)
  {
    ShortPrologue();
    p := Started().Prologue().value;
    assert Step(NewLive(0, [], None), STARTING, z, format).body.settings == Started();
  }

  /** A call that gets the prologue out and has no block to publish. */
  lemma PublishesPrologue(l: Live, p: Bytes, z: Zlib, format: Format)
    requires !l.sent && l.heartbeat.None? && l.body.settings.Prologue() == Some(p) && l.body.Pending() == []
    requires l.stream.Push(p).Flush(z).1.Flushed?
    ensures Publish(l, z, format).1
    ensures Publish(l, z, format).0
         == l.(stream := l.stream.Push(p).Flush(z).0.MarkPrologueEnd(), sent := true, prologue := p,
               body := l.body.Drained(), length := l.body.length)
  {
  }

  /** The prologue is out and nothing else. */
  ghost predicate OnlyPrologue(l: Live) {
    && l.sent && l.heartbeat.None? && l.lost == [] && Unchanged(l)
    && l.stream.rawBase == 0 && l.stream.framedLen == |l.stream.raw| < 100
    && l.body.published == |l.body.blocks| == 0
  }

  lemma PrologueGoesOut(l: Live, p: Bytes, bad: Bytes, format: Format)
    requires Fresh(l, p) && p != bad
    ensures OnlyPrologue(Publish(l, Choking(bad), format).0)
  {
    FirstPush(p, bad);
    PublishesPrologue(l, p, Choking(bad), format);
  }

  lemma FirstPush(p: Bytes, bad: Bytes)
    requires 5 < |p| < 100
    ensures var (s, r) := NewStream.Push(p).Flush(Choking(bad));
            if p == bad then r.ChunkTooLarge? && s == NewStream.Push(p)
            else r.Flushed? && s.rawBase == 0 && s.framedLen == |s.raw| == |p|
  {
    var t := NewStream.Push(p);
    assert t.raw == p && t.raw[0..] == p;
    FlushesOnce(t, bad);
  }

  /** The next flush fails although the prologue went out as it will be saved. */
  ghost predicate AboutToFail(l: Live, z: Zlib, format: Format) {
    l.sent && l.heartbeat.None? && l.lost == [] && Unchanged(l) && !Publish(l, z, format).1
  }

  lemma TimeslotFails(l: Live, format: Format)
    requires OnlyPrologue(l)
    ensures AboutToFail(l.(body := Edited(l.body, AddTimeslot(0, []))), Choking(TimeslotBlock(0, [])), format)
  {
    var m, block := l.(body := Edited(l.body, AddTimeslot(0, []))), TimeslotBlock(0, []);
    assert m.body.Pending() == block;
    var t := m.stream.Push(block);
    assert |block| == 5 && t.raw[t.framedLen..] == block;
    FlushesOnce(t, block);
  }

  const STARTING := DoEdit(SetStart(Start([], 0, 0, 0)))
  const FIRST_TIMESLOT := DoEdit(AddTimeslot(0, []))

  lemma AfterThree(l: Live, a: Event, b: Event, c: Event, z: Zlib, format: Format)
    ensures After(l, [a, b], z, format) == Step(Step(l, a, z, format), b, z, format)
    ensures After(l, [a, b, c], z, format) == Step(Step(Step(l, a, z, format), b, z, format), c, z, format)
  {
    assert Most([a, b, c]) == [a, b] && Most([a, b]) == [a] && Most([a]) == [];
    var la := After(l, [a], z, format);
    assert la == Step(After(l, [], z, format), a, z, format);
    assert After(l, [a, b], z, format) == Step(la, b, z, format);
  }

  lemma RunsIntoFailure(z: Zlib, format: Format)
    requires z == Choking(TimeslotBlock(0, []))
    ensures AboutToFail(After(NewLive(0, [], None), [STARTING, DoPublish, FIRST_TIMESLOT], z, format), z, format)
  {
    var l := NewLive(0, [], None);
    var l1 := Step(l, STARTING, z, format);
    var p := StartIsFresh(z, format);
    PrologueGoesOut(l1, p, TimeslotBlock(0, []), format);
    var l2 := Step(l1, DoPublish, z, format);
    TimeslotFails(l2, format);
    AfterThree(l, STARTING, DoPublish, FIRST_TIMESLOT, z, format);
  }

  /** The failure happens, and stays hidden: on this run of a fresh publisher,
      with a compressor that round-trips, one call fails and the next returns
      Ok with a stream that is not the saved replay. */
  lemma FailureIsHidden(format: Format)
    ensures var z := Choking(TimeslotBlock(0, []));
            var l := After(NewLive(0, [], None), [STARTING, DoPublish, FIRST_TIMESLOT], z, format);
            && z.RoundTrips() && !Publish(l, z, format).1
            && SilentlyWrong(Publish(l, z, format).0, z, format)
  {
    var z := Choking(TimeslotBlock(0, []));
    ChokingRoundTrips(TimeslotBlock(0, []));
    RunsIntoFailure(z, format);
    NewIsGood(0, [], None, z);
    RunIsGood(NewLive(0, [], None), [STARTING, DoPublish, FIRST_TIMESLOT], z, format);
    HiddenFromCaller(After(NewLive(0, [], None), [STARTING, DoPublish, FIRST_TIMESLOT], z, format), z, format);
  }

  /** The next call returns Ok and the stream is not the saved replay. */
  ghost predicate SilentlyWrong(l: Live, z: Zlib, format: Format) {
    var (n, ok) := Publish(l, z, format);
    ok && n.sent && n.body.Finish().Some? && OnAir(n, z) != n.body.Finish().value.0
  }

  /** Where the prologue went out as it would be saved, what is hidden is that
      the stream is not the saved replay. */
  lemma HiddenFromCaller(l: Live, z: Zlib, format: Format)
    requires z.RoundTrips() && Good(l, z) && AboutToFail(l, z, format)
    ensures SilentlyWrong(Publish(l, z, format).0, z, format)
  {
    QuietCallHidesFailure(l, z, format);
    PublishKeepsHead(l, z, format);
    PublishKeepsHead(Publish(l, z, format).0, z, format);
    HeadAsSaved(Publish(Publish(l, z, format).0, z, format).0);
  }

  lemma PublishKeepsHead(l: Live, z: Zlib, format: Format)
    requires z.RoundTrips() && Good(l, z) && l.sent && l.lost == [] && Unchanged(l)
    ensures var m := Publish(l, z, format).0;
            Good(m, z) && m.sent && m.lost == [] && Unchanged(m)
  {
    PublishIsGood(l, z, format);
  }

  lemma HeadAsSaved(l: Live)
    requires l.sent && l.lost == [] && Unchanged(l)
    ensures l.body.Finish() == Some((l.lost + l.prologue + l.body.blocks, l.body.length))
  {
    assert l.lost + l.prologue == l.prologue;
  }

  /** A failed prologue is sent twice: on this run of a fresh publisher one
      call fails before the prologue is out, and the next returns Ok with a
      stream that is not the saved replay. */
  lemma PrologueIsSentTwice(format: Format)
    ensures Started().Prologue().Some?
    ensures var z := Choking(Started().Prologue().value);
            && z.RoundTrips()
            && SilentlyWrong(After(NewLive(0, [], None), [STARTING, DoPublish], z, format), z, format)
  {
    ShortPrologue();
    var z, l := Choking(Started().Prologue().value), NewLive(0, [], None);
    var p := StartIsFresh(z, format);
    ChokingRoundTrips(p);
    AfterThree(l, STARTING, DoPublish, DoPublish, z, format);
    PrologueFails(Step(l, STARTING, z, format), p, format);
    NewIsGood(0, [], None, z);
    SecondPrologue(After(l, [STARTING, DoPublish], z, format), p, format);
    WrongUnlessHeadMatches(l, [STARTING, DoPublish], z, format);
  }

  /** The prologue was pushed once and is not on the stream. */
  ghost predicate PrologueIsPending(l: Live, p: Bytes) {
    && !l.sent && l.heartbeat.None? && l.lost == p && l.stream == NewStream.Push(p)
    && l.body.settings.Prologue() == Some(p) && 5 < |p| < 100 && l.body.Pending() == []
  }

  lemma PrologueFails(l: Live, p: Bytes, format: Format)
    requires Fresh(l, p)
    ensures PrologueIsPending(Publish(l, Choking(p), format).0, p)
  {
    FirstPush(p, p);
  }

  lemma SecondPrologue(l: Live, p: Bytes, format: Format)
    requires PrologueIsPending(l, p)
    ensures Publish(l, Choking(p), format).1 && Publish(l, Choking(p), format).0.sent
    ensures !Stalled(l, format) && !HeadMatches(l)
  {
    SecondPush(p);
    PublishesPrologue(l, p, Choking(p), format);
    assert |p + p| > |p|;
  }

  lemma SecondPush(p: Bytes)
    requires 5 < |p| < 100
    ensures NewStream.Push(p).Push(p).Flush(Choking(p)).1.Flushed?
  {
    var t := NewStream.Push(p).Push(p);
    assert t.raw == p + p && |t.raw[0..]| > |p|;
    FlushesOnce(t, p);
  }

  lemma WrongUnlessHeadMatches(l0: Live, events: seq<Event>, z: Zlib, format: Format)
    requires z.RoundTrips() && Good(l0, z)
    requires var l := After(l0, events, z, format);
             !Stalled(l, format) && !HeadMatches(l) && Publish(l, z, format).1 && Publish(l, z, format).0.sent
    ensures SilentlyWrong(After(l0, events, z, format), z, format)
  {
    LiveEqualsSavedIff(l0, events, z, format);
  }

  /** Every call so far returned Ok. */
  ghost predicate NoneFailed(l0: Live, events: seq<Event>, z: Zlib, format: Format) {
    forall k :: 0 <= k < |events| && events[k].DoPublish? ==> Publish(After(l0, events[..k], z, format), z, format).1
  }

  ghost predicate Clean(l: Live) {
    l.lost == [] && (l.sent ==> AllPublished(l.stream))
  }

  lemma CleanStep(l: Live, e: Event, z: Zlib, format: Format)
    requires z.RoundTrips() && Good(l, z) && Clean(l)
    requires e.DoPublish? ==> Publish(l, z, format).1
    ensures Clean(Step(l, e, z, format))
  {
    if e.DoPublish? {
      PublishIsGood(l, z, format);
    }
  }

  lemma {:induction false} NoFailureIsClean(l0: Live, events: seq<Event>, z: Zlib, format: Format)
    requires z.RoundTrips() && Good(l0, z) && Clean(l0) && NoneFailed(l0, events, z, format)
    ensures Clean(After(l0, events, z, format))
  {
    if events != [] {
      var most := Most(events);
      forall k | 0 <= k < |most| && most[k].DoPublish? ensures Publish(After(l0, most[..k], z, format), z, format).1 {
        assert most[..k] == events[..k] && events[k].DoPublish?;
      }
      NoFailureIsClean(l0, most, z, format);
      RunIsGood(l0, most, z, format);
      assert events[|most|] == Last(events) && events[..|most|] == most;
      CleanStep(After(l0, most, z, format), Last(events), z, format);
    }
  }

  /** Live stream equals saved replay: from a fresh publisher (`NewIsGood`), in
      a run in which no call failed, with the prologue's fields unchanged since
      it was sent, every call that has a prologue to send leaves exactly the
      saved replay on the stream. */
  lemma LiveStreamEqualsSavedReplay(l0: Live, events: seq<Event>, z: Zlib, format: Format)
    requires z.RoundTrips() && Good(l0, z) && Clean(l0)
    requires NoneFailed(l0, events, z, format)
    requires Publish(After(l0, events, z, format), z, format).1
    requires Unchanged(After(l0, events, z, format))
    ensures var m := Publish(After(l0, events, z, format), z, format).0;
            m.sent ==> m.body.Finish() == Some((OnAir(m, z), m.length))
  {
    NoFailureIsClean(l0, events, z, format);
    RunIsGood(l0, events, z, format);
    LiveEqualsSavedIff(l0, events, z, format);
    HeadMatchesIff(After(l0, events, z, format));
  }

  // ---- the replay length ----

  function Increments(events: seq<Event>): nat {
    if events == [] then 0
    else Increments(Most(events)) + Increment(Last(events))
  }

  function Increment(e: Event): nat {
    if e.DoEdit? && e.edit.AddTimeslot? then e.edit.increment else 0
  }

  lemma PublishBlocksKeepsLength(l: Live, z: Zlib, format: Format)
    ensures PublishBlocks(l, z, format).0.body.length == l.body.length
  {
    var m := Heartbeat(l, format);
    if m != l {
      EditLength(l.body, AddChat(l.heartbeat.value, 0x20, 0, format(l.body.length, l.stream.PublishedLen(), l.stream.PublishedCrc())));
    }
    assert m.body.length == l.body.length;
  }

  lemma PublishKeepsLength(l: Live, z: Zlib, format: Format)
    ensures Publish(l, z, format).0.body.length == l.body.length
  {
    if l.sent {
      PublishBlocksKeepsLength(l, z, format);
    } else if l.body.settings.Prologue().Some? {
      var p := l.body.settings.Prologue().value;
      var (s, r) := l.stream.Push(p).Flush(z);
      PublishBlocksKeepsLength(l.(stream := s.MarkPrologueEnd(), sent := true, prologue := p), z, format);
    }
  }

  lemma StepLength(l: Live, e: Event, z: Zlib, format: Format)
    ensures Step(l, e, z, format).body.length
         == if e.DoEdit? && e.edit.AddTimeslot? then WrappingAdd(l.body.length, e.edit.increment) else l.body.length
  {
    if e.DoPublish? {
      PublishKeepsLength(l, z, format);
    } else {
      EditLength(l.body, e.edit);
    }
  }

  /** The length of the replay is the sum of all timeslot increments, modulo
      2^32; heartbeats do not count. */
  lemma {:induction false} LengthIsSumOfIncrements(l0: Live, events: seq<Event>, z: Zlib, format: Format)
    requires l0.body.length == 0
    ensures After(l0, events, z, format).body.length == Increments(events) % U32_MODULUS
  {
    if events != [] {
      LengthIsSumOfIncrements(l0, Most(events), z, format);
      StepAddsIncrement(After(l0, Most(events), z, format), Last(events), z, format, Increments(Most(events)));
    }
  }

  lemma StepAddsIncrement(l: Live, e: Event, z: Zlib, format: Format, total: nat)
    requires l.body.length == total % U32_MODULUS
    ensures Step(l, e, z, format).body.length == (total + Increment(e)) % U32_MODULUS
  {
    StepLength(l, e, z, format);
    WrappedTotal(total, Increment(e));
  }

  // ---- the publisher's variables, updated in place ----

  class Publisher {
    const stream: DotaTvStream
    const body: ReplayBody
    var sent: bool
    var marker: nat
    var length: nat
    const heartbeat: Option<byte>
    const format: Format
    ghost var prologue: Bytes
    ghost var lost: Bytes

    ghost predicate Valid()
      reads this, stream, body
    {
      stream.Valid() && body.Valid()
    }

    ghost function Model(): Live
      reads this, stream, body
    {
      Live(stream.Model(), body.Model(), sent, marker, length, heartbeat, prologue, lost)
    }

    constructor (stream: DotaTvStream, body: ReplayBody, heartbeat: Option<byte>, format: Format)
      requires stream.Valid() && body.Valid()
      ensures Valid() && this.stream == stream && this.body == body && this.format == format
      ensures Model() == Live(stream.Model(), body.Model(), false, 0, 0, heartbeat, [], [])
    {
      this.stream, this.body, this.heartbeat, this.format := stream, body, heartbeat, format;
      sent, marker, length, prologue, lost := false, 0, 0, [], [];
    }

    method SendHeartbeat()
      requires Valid()
      modifies this, body
      ensures Valid() && Model() == Heartbeat(old(Model()), format)
    {
      var now := body.length;
      if heartbeat.Some? && SaturatingSub(now, marker) >= HEARTBEAT_EVERY_MS {
        var n := stream.GetPublishedLen();
        var crc := stream.GetPublishedCrc();
        body.AddChat(heartbeat.value, 0x20, 0, format(now, n, crc));
        marker := now;
      }
    }

    method PublishNewBlocks() returns (ok: bool)
      requires Valid()
      modifies this, stream, body
      ensures Valid() && (Model(), ok) == PublishBlocks(old(Model()), stream.zlib, format)
    {
      SendHeartbeat();
      var bytes := body.DrainNewBlocks();
      if bytes != [] {
        stream.PushBody(bytes);
        var r := stream.Flush();
        if r.ChunkTooLarge? {
          return false;
        }
      }
      length := body.length;
      return true;
    }

    method PublishPending() returns (ok: bool)
      requires Valid()
      modifies this, stream, body
      ensures Valid() && (Model(), ok) == Publish(old(Model()), stream.zlib, format)
    {
      if !sent {
        var p := body.settings.Prologue();
        if p.None? {
          return true;
        }
        stream.PushBody(p.value);
        var r := stream.Flush();
        if r.ChunkTooLarge? {
          lost := lost + p.value;
          return false;
        }
        stream.MarkPrologueEnd();
        sent, prologue := true, p.value;
      }
      ok := PublishNewBlocks();
    }
  }
}
