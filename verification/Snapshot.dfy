/** The game-start snapshot sent to spectators
    (crates/spectre-protocol/src/dotatv.rs, and the readers of bytes_ext.rs).
    Strings are their UTF-8 bytes. */
module Snapshots {
  import opened Basics
  import opened Wire
  import Framing
  import Statstring

  const DOTATV_HEADER: byte := 0xFD
  const GAME_START_SNAPSHOT: byte := 0x02

  datatype ProtoError = Truncated(need: nat, have: nat) | UnterminatedString | TooManySlots | TooLarge

  /** A value read and the bytes after it, or an error. */
  datatype Read<T> = Read(value: T, rest: Bytes) | Failed(error: ProtoError)
  {
    predicate IsFailure() {
      Failed?
    }

    function PropagateFailure<U>(): Read<U>
      requires Failed?
    {
      Read<U>.Failed(error)
    }

    function Extract(): (T, Bytes)
      requires Read?
    {
      (value, rest)
    }
  }

  // ---- readers ----

  function GetBytes(b: Bytes, n: nat): Read<Bytes> {
    if |b| < n then Failed(Truncated(n, |b|)) else Read(b[..n], b[n..])
  }

  function GetUint(b: Bytes, k: nat): Read<nat> {
    if |b| < k then Failed(Truncated(k, |b|)) else Read(FromLe(b[..k]), b[k..])
  }

  function GetU8(b: Bytes): Read<byte> {
    if |b| < 1 then Failed(Truncated(1, |b|)) else Read(b[0], b[1..])
  }

  /** Bytes up to a zero byte, which is consumed. */
  function GetCString(b: Bytes): Read<Bytes> {
    if b == [] then Failed(UnterminatedString)
    else if b[0] == 0 then Read([], b[1..])
    else
      match GetCString(b[1..])
      case Failed(e) => Failed(e)
      case Read(s, rest) => Read([b[0]] + s, rest)
  }

  /** A slot is nine bytes on the wire. */
  datatype Slot = Slot(pid: byte, download: byte, status: byte, computer: byte, team: byte, colour: byte, race: byte,
                       computerType: byte, handicap: byte)
  {
    function Wire(): (w: Bytes)
      ensures |w| == 9
    {
      [pid, download, status, computer, team, colour, race, computerType, handicap]
    }
  }

  /** Nine single-byte reads; the one that fails finds nothing left. */
  function GetSlot(b: Bytes): Read<Slot> {
    if |b| < 9 then Failed(Truncated(1, 0))
    else Read(Slot(b[0], b[1], b[2], b[3], b[4], b[5], b[6], b[7], b[8]), b[9..])
  }

  function GetSlots(b: Bytes, n: nat): Read<seq<Slot>> {
    if n == 0 then Read([], b)
    else
      var slot :- GetSlot(b);
      var more :- GetSlots(slot.1, n - 1);
      Read([slot.0] + more.0, more.1)
  }

  // ---- the snapshot ----

  datatype MapInfo = MapInfo(size: nat, info: nat, crc: nat, sha1: Bytes)

  datatype Rules = Rules(seed: nat, layout: byte, playerSlots: byte, version: byte, tft: bool)

  datatype Snapshot = Snapshot(gameName: Bytes, mapPath: Bytes, mapInfo: MapInfo, stat: Bytes, rules: Rules, slots: seq<Slot>)

  function SlotBytes(slots: seq<Slot>): Bytes {
    if slots == [] then [] else slots[0].Wire() + SlotBytes(slots[1..])
  }

  function MapBytes(m: MapInfo): Bytes {
    Le(m.size, 4) + (Le(m.info, 4) + (Le(m.crc, 4) + m.sha1))
  }

  function RulesBytes(r: Rules): Bytes {
    Le(r.seed, 4) + [r.layout, r.playerSlots, r.version, if r.tft then 1 else 0]
  }

  /** The payload of the snapshot frame. */
  function Payload(s: Snapshot): Bytes
    requires |s.slots| <= 255
  {
    CStr(s.gameName) + (CStr(s.mapPath) + (MapBytes(s.mapInfo) + (CStr(s.stat)
      + (RulesBytes(s.rules) + ([|s.slots| as byte] + SlotBytes(s.slots))))))
  }

  datatype Encoded = Wired(bytes: Bytes) | Refused(error: ProtoError)

  /** `encode_snapshot`. */
  function EncodeSnapshot(s: Snapshot): Encoded {
    if |s.slots| > 255 then Refused(TooManySlots)
    else
      match Framing.Encode(DOTATV_HEADER, Framing.Frame(GAME_START_SNAPSHOT, Payload(s)))
      case None => Refused(TooLarge)
      case Some(bytes) => Wired(bytes)
  }

  function GetMap(b: Bytes): Read<MapInfo> {
    var size :- GetUint(b, 4);
    var info :- GetUint(size.1, 4);
    var crc :- GetUint(info.1, 4);
    var sha1 :- GetBytes(crc.1, 20);
    Read(MapInfo(size.0, info.0, crc.0, sha1.0), sha1.1)
  }

  function GetRules(b: Bytes): Read<Rules> {
    var seed :- GetUint(b, 4);
    var layout :- GetU8(seed.1);
    var players :- GetU8(layout.1);
    var version :- GetU8(players.1);
    var tft :- GetU8(version.1);
    Read(Rules(seed.0, layout.0, players.0, version.0, tft.0 != 0), tft.1)
  }

  /** `decode_snapshot`, with what is left of the payload. */
  function DecodeSnapshot(payload: Bytes): Read<Snapshot> {
    var gameName :- GetCString(payload);
    var mapPath :- GetCString(gameName.1);
    var info :- GetMap(mapPath.1);
    var stat :- GetCString(info.1);
    var rules :- GetRules(stat.1);
    var count :- GetU8(rules.1);
    var slots :- GetSlots(count.1, count.0 as nat);
    Read(Snapshot(gameName.0, mapPath.0, info.0, stat.0, rules.0, slots.0), slots.1)
  }

  // ---- each reader undoes its writer ----

  lemma {:induction false} CStringRoundTrip(s: Bytes, rest: Bytes)
    requires 0 !in s
    ensures GetCString(CStr(s) + rest) == Read(s, rest)
  {
    if s == [] {
      assert (CStr(s) + rest)[1..] == rest;
    } else {
      assert s[0] in s;
      CStringRoundTrip(s[1..], rest);
      assert (CStr(s) + rest)[1..] == CStr(s[1..]) + rest;
      assert [s[0]] + s[1..] == s;
    }
  }

  lemma UintRoundTrip(n: nat, rest: Bytes)
    requires n < U32_MODULUS
    ensures GetUint(Le(n, 4) + rest, 4) == Read(n, rest)
  {
    assert Pow256(4) == U32_MODULUS;
    LeRoundTrip(n, 4);
    assert (Le(n, 4) + rest)[..4] == Le(n, 4) && (Le(n, 4) + rest)[4..] == rest;
  }

  lemma BytesRoundTrip(s: Bytes, rest: Bytes)
    ensures GetBytes(s + rest, |s|) == Read(s, rest)
  {
    assert (s + rest)[..|s|] == s && (s + rest)[|s|..] == rest;
  }

  lemma U8RoundTrip(x: byte, rest: Bytes)
    ensures GetU8([x] + rest) == Read(x, rest)
  {
    assert ([x] + rest)[1..] == rest;
  }

  ghost predicate MapFits(m: MapInfo) {
    m.size < U32_MODULUS && m.info < U32_MODULUS && m.crc < U32_MODULUS && |m.sha1| == 20
  }

  lemma MapRoundTrip(m: MapInfo, rest: Bytes)
    requires MapFits(m)
    ensures GetMap(MapBytes(m) + rest) == Read(m, rest)
  {
    var a := m.sha1 + rest;
    var b := Le(m.crc, 4) + a;
    var c := Le(m.info, 4) + b;
    UintRoundTrip(m.size, c);
    UintRoundTrip(m.info, b);
    UintRoundTrip(m.crc, a);
    BytesRoundTrip(m.sha1, rest);
    assert MapBytes(m) + rest == Le(m.size, 4) + c;
  }

  lemma RulesRoundTrip(r: Rules, rest: Bytes)
    requires r.seed < U32_MODULUS
    ensures GetRules(RulesBytes(r) + rest) == Read(r, rest)
  {
    var tft: byte := if r.tft then 1 else 0;
    var a := [tft] + rest;
    var b := [r.version] + a;
    var c := [r.playerSlots] + b;
    var d := [r.layout] + c;
    assert RulesBytes(r) + rest == Le(r.seed, 4) + d;
    UintRoundTrip(r.seed, d);
    U8RoundTrip(r.layout, c);
    U8RoundTrip(r.playerSlots, b);
    U8RoundTrip(r.version, a);
    U8RoundTrip(tft, rest);
  }

  lemma SlotRoundTrip(s: Slot, rest: Bytes)
    ensures GetSlot(s.Wire() + rest) == Read(s, rest)
  {
    assert (s.Wire() + rest)[9..] == rest;
  }

  lemma {:induction false} SlotsRoundTrip(slots: seq<Slot>, rest: Bytes)
    ensures GetSlots(SlotBytes(slots) + rest, |slots|) == Read(slots, rest)
  {
    if slots == [] {
      assert SlotBytes(slots) + rest == rest;
    } else {
      SlotsRoundTrip(slots[1..], rest);
      SlotRoundTrip(slots[0], SlotBytes(slots[1..]) + rest);
      Associate(slots[0].Wire(), SlotBytes(slots[1..]), rest);
      assert [slots[0]] + slots[1..] == slots;
    }
  }

  /** What the wire format can carry: names and statstring without zero bytes,
      32-bit numbers, a 20-byte hash. */
  ghost predicate Representable(s: Snapshot) {
    && 0 !in s.gameName && 0 !in s.mapPath && 0 !in s.stat
    && MapFits(s.mapInfo) && s.rules.seed < U32_MODULUS
  }

  lemma PayloadRoundTrip(s: Snapshot)
    requires Representable(s) && |s.slots| <= 255
    ensures DecodeSnapshot(Payload(s)) == Read(s, [])
  {
    var n := |s.slots| as byte;
    var a := SlotBytes(s.slots);
    var b := [n] + a;
    var c := RulesBytes(s.rules) + b;
    var d := CStr(s.stat) + c;
    var e := MapBytes(s.mapInfo) + d;
    var f := CStr(s.mapPath) + e;
    CStringRoundTrip(s.gameName, f);
    CStringRoundTrip(s.mapPath, e);
    MapRoundTrip(s.mapInfo, d);
    CStringRoundTrip(s.stat, c);
    RulesRoundTrip(s.rules, b);
    U8RoundTrip(n, a);
    SlotsRoundTrip(s.slots, []);
    assert a + [] == a;
  }

  /** Snapshot round trip: a representable snapshot is refused exactly when it
      has more than 255 slots or its frame exceeds 65535 bytes; otherwise the
      frame it becomes is read back from any stream it starts, and decodes to
      the snapshot. */
  lemma SnapshotRoundTrip(s: Snapshot, rest: Bytes)
    requires Representable(s)
    ensures match EncodeSnapshot(s)
            case Refused(TooManySlots) => |s.slots| > 255
            case Refused(_) => |s.slots| <= 255 && |Payload(s)| + 4 > U16_MAX
            case Wired(bytes) =>
              |s.slots| <= 255
              && Framing.Decode(DOTATV_HEADER, bytes + rest) == (Framing.Got(Framing.Frame(GAME_START_SNAPSHOT, Payload(s))), rest)
              && DecodeSnapshot(Payload(s)) == Read(s, [])
  {
    if |s.slots| <= 255 {
      PayloadRoundTrip(s);
      var f := Framing.Frame(GAME_START_SNAPSHOT, Payload(s));
      if Framing.Encode(DOTATV_HEADER, f).Some? {
        Framing.DecodeEncoded(DOTATV_HEADER, f, rest);
      }
    }
  }

  /** The engine's snapshot carries an encoded statstring: whatever the raw
      bytes, the spectator recovers them. */
  lemma StatstringSurvives(s: Snapshot, raw: Bytes)
    requires Representable(s.(stat := [])) && s.stat == Statstring.Encode(raw) && |s.slots| <= 255
    ensures DecodeSnapshot(Payload(s)) == Read(s, [])
    ensures Statstring.Decode(DecodeSnapshot(Payload(s)).value.stat) == raw
  {
    Statstring.EncodingHasNoZero(raw);
    PayloadRoundTrip(s);
    Statstring.RoundTrip(raw);
  }

  // ---- the loops over the buffer ----

  /** A cursor over the payload; reading advances it. */
  class Cursor {
    var left: Bytes

    constructor (payload: Bytes)
      ensures left == payload
    {
      left := payload;
    }

    method U8() returns (r: Read<byte>)
      modifies this
      ensures r == GetU8(old(left)) && (r.Read? ==> left == r.rest)
    {
      if |left| < 1 {
        return Failed(Truncated(1, |left|));
      }
      r := Read(left[0], left[1..]);
      left := left[1..];
    }

    method CString() returns (r: Read<Bytes>)
      modifies this
      ensures r == GetCString(old(left)) && (r.Read? ==> left == r.rest)
    {
      var out: Bytes := [];
      PrefixedNone(GetCString(left));
      while left != []
        invariant Prefixed(out, GetCString(left)) == GetCString(old(left))
        decreases |left|
      {
        var b := left[0];
        ghost var before := left;
        left := left[1..];
        if b == 0 {
          assert out + [] == out;
          return Read(out, left);
        }
        PrefixedStep(out, b, GetCString(left));
        out := out + [b];
      }
      return Failed(UnterminatedString);
    }

    method Slots(n: nat) returns (r: Read<seq<Slot>>)
      modifies this
      ensures r == GetSlots(old(left), n) && (r.Read? ==> left == r.rest)
    {
      var slots: seq<Slot> := [];
      PrefixedNoSlots(GetSlots(left, n));
      var k := 0;
      while k < n
        invariant 0 <= k <= n
        invariant PrefixedSlots(slots, GetSlots(left, n - k)) == GetSlots(old(left), n)
      {
        SlotsUnfold(left, n - k);
        var slot := GetSlot(left);
        if slot.Failed? {
          return Failed(slot.error);
        }
        PrefixedSlotsStep(slots, slot.value, GetSlots(slot.rest, n - k - 1));
        slots := slots + [slot.value];
        left := slot.rest;
        k := k + 1;
      }
      assert slots + [] == slots;
      return Read(slots, left);
    }
  }

  ghost function Prefixed(out: Bytes, r: Read<Bytes>): Read<Bytes> {
    match r
    case Failed(e) => Failed(e)
    case Read(s, rest) => Read(out + s, rest)
  }

  lemma PrefixedNone(r: Read<Bytes>)
    ensures Prefixed([], r) == r
  {
    if r.Read? {
      assert [] + r.value == r.value;
    }
  }

  lemma PrefixedNoSlots(r: Read<seq<Slot>>)
    ensures PrefixedSlots([], r) == r
  {
    if r.Read? {
      assert [] + r.value == r.value;
    }
  }

  lemma SlotsUnfold(b: Bytes, n: nat)
    requires n > 0
    ensures GetSlots(b, n) == if GetSlot(b).Failed? then Failed(GetSlot(b).error)
                              else PrefixedSlots([GetSlot(b).value], GetSlots(GetSlot(b).rest, n - 1))
  {
  }

  lemma PrefixedStep(out: Bytes, b: byte, r: Read<Bytes>)
    ensures Prefixed(out, Prefixed([b], r)) == Prefixed(out + [b], r)
  {
    if r.Read? {
      Associate(out, [b], r.value);
    }
  }

  ghost function PrefixedSlots(slots: seq<Slot>, r: Read<seq<Slot>>): Read<seq<Slot>> {
    match r
    case Failed(e) => Failed(e)
    case Read(s, rest) => Read(slots + s, rest)
  }

  lemma PrefixedSlotsStep(slots: seq<Slot>, slot: Slot, r: Read<seq<Slot>>)
    ensures PrefixedSlots(slots, PrefixedSlots([slot], r)) == PrefixedSlots(slots + [slot], r)
  {
    if r.Read? {
      Associate(slots, [slot], r.value);
    }
  }
}
