/** The packets the game actor hands to its links. Builders are taken to
    succeed, so a packet is represented by what it announces. */
module Packets {
  import opened Basics

  /** One queued player action (`ActionBlock`). */
  datatype Action = Action(pid: nat, data: Bytes)
  {
    /** Bytes the action takes inside an action packet. */
    function WireLen(): nat {
      |data| + 3
    }
  }

  datatype Packet =
    | IncomingAction(batch: seq<Action>, interval: nat)
    | IncomingAction2(batch: seq<Action>)
    | GameLoadedOthers(pid: nat)
    | PlayerLeaveOthers(pid: nat, code: nat)
    | PlayerInfo(pid: nat)
    | SlotInfoJoin(pid: nat)
    | MapCheck
    | CountdownStart
    | CountdownEnd
    | StartLag(pids: seq<nat>)
    | StopLag(pid: nat)
    | Chat(text: string)
    | Opaque(tag: nat)

  /** One block of the saved replay produced by an action packet. */
  datatype Timeslot = Timeslot(batch: seq<Action>, increment: nat) | Timeslot2(batch: seq<Action>)

  const PLAYERLEAVE_DISCONNECT := 1
  const PLAYERLEAVE_LOST := 7
  const PLAYERLEAVE_LOBBY := 13
  const PLAYERLEAVE_GPROXY := 100
}
