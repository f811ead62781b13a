/**
 * The Fleshlight Launch driver: a stroker that takes a position and a speed
 * as two bytes on its Tx characteristic. It answers the firmware-level
 * FleshlightLaunchFW12Cmd and the generic LinearCmd with the same handler.
 *
 * `Convert.ToUInt32` of a scaled double is an input function `toUInt32`;
 * what the Bluetooth write answers is an input `writeReply`.
 */
module FleshlightLaunch {
  import opened Common

  /** Positions in the device info's characteristic list. */
  const Tx: nat := 0
  const Rx: nat := 1
  const Cmd: nat := 2

  const Names: seq<string> := ["Launch"]
  const DeviceName: string := "Fleshlight Launch"

  /** The handler table: the firmware command, LinearCmd with one actuator, and stop. */
  function LaunchTable(): (t: HandlerTable)
    ensures t.Keys == {FleshlightLaunchFW12CmdType, LinearCmdType, StopDeviceCmdType}
    ensures t[FleshlightLaunchFW12CmdType] == NoAttributes && t[StopDeviceCmdType] == NoAttributes
    ensures t[LinearCmdType] == StringAttributes([("ActuatorCount", "1")])
  {
    map[FleshlightLaunchFW12CmdType := NoAttributes][LinearCmdType := StringAttributes([("ActuatorCount", "1")])]
      [StopDeviceCmdType := NoAttributes]
  }

  /** A C# `(byte)` cast of an unsigned integer: the byte congruent to it modulo 256. */
  function LowByte(n: nat): (b: byte)
    ensures b <= n && (n - b) % 256 == 0
    ensures n < 256 ==> b == n
  {
    n % 256
  }

  /** The firmware command's two bytes: position, then speed, each cut to its low byte. */
  function FW12Payload(position: nat, speed: nat): (p: seq<byte>)
    ensures |p| == 2 && (position - p[0]) % 256 == 0 && (speed - p[1]) % 256 == 0
    ensures position < 256 && speed < 256 ==> p == [position, speed]
  {
    [LowByte(position), LowByte(speed)]
  }

  /** Values that differ by a multiple of 256 are written the same. */
  lemma FW12PayloadWraps(position: nat, speed: nat)
    ensures FW12Payload(position + 256, speed + 256) == FW12Payload(position, speed)
  {
    assert (position + 256) % 256 == position % 256;
    assert (speed + 256) % 256 == speed % 256;
  }

  /** The position of the first vector for actuator 0, if any. */
  function FirstAtZero(vs: seq<LinearVector>): (r: Option<nat>)
    ensures r.Some? ==> r.value < |vs| && vs[r.value].index == 0 && forall j :: 0 <= j < r.value ==> vs[j].index != 0
    ensures r.None? ==> forall j :: 0 <= j < |vs| ==> vs[j].index != 0
  {
    if vs == [] then None
    else if vs[0].index == 0 then Some(0)
    else match FirstAtZero(vs[1..])
      case None => None
      case Some(k) => Some(k + 1)
  }

  /** The vector the handler writes is the first one a filter on actuator 0 keeps. */
  lemma {:induction false} FirstAtZeroIsFilterHead(vs: seq<LinearVector>)
    ensures var kept := Filter(vs, (v: LinearVector) => v.index == 0);
      && (FirstAtZero(vs).Some? <==> kept != [])
      && (FirstAtZero(vs).Some? ==> kept[0] == vs[FirstAtZero(vs).value])
  {
    var p := (v: LinearVector) => v.index == 0;
    if vs != [] {
      FirstAtZeroIsFilterHead(vs[1..]);
      assert Filter(vs, p) == (if p(vs[0]) then [vs[0]] else []) + Filter(vs[1..], p);
    }
  }

  /** The two bytes a LinearCmd vector is sent as: position and speed scaled to 0..99. */
  function LinearPayload(v: LinearVector, toUInt32: real -> nat): (r: seq<byte>)
    ensures |r| == 2
    ensures toUInt32(v.position * 99.0) < 256 ==> r[0] == toUInt32(v.position * 99.0)
    ensures toUInt32(v.speed * 99.0) < 256 ==> r[1] == toUInt32(v.speed * 99.0)
  {
    FW12Payload(toUInt32(v.position * 99.0), toUInt32(v.speed * 99.0))
  }

  class FleshlightLaunchDevice {
    var table: HandlerTable
    var writes: seq<Write>

    constructor ()
      ensures table == LaunchTable() && writes == []
    {
      writes := [];
      table := map[];
      new;
      table := table[FleshlightLaunchFW12CmdType := NoAttributes];
      table := table[LinearCmdType := StringAttributes([("ActuatorCount", "1")])];
      table := table[StopDeviceCmdType := NoAttributes];
    }

    /** `Initialize`: a single zero byte to Cmd, with response, under the system id. */
    method Initialize(writeReply: Message) returns (reply: Message)
      modifies this`writes
      ensures reply == writeReply && writes == old(writes) + [Write(SystemMsgId, Chr(Cmd), [0], true)]
    {
      writes := writes + [Write(SystemMsgId, Chr(Cmd), [0], true)];
      return writeReply;
    }

    /** `HandleStopDeviceCmd`: acknowledged without a write, since every move is finite. */
    method HandleStopDeviceCmd(m: Message) returns (reply: Message)
      requires IsDeviceMessage(m)
      modifies this`writes
      ensures reply == Ok(m.id) && writes == old(writes)
    {
      return Ok(m.id);
    }

    /**
     * `HandleFleshlightLaunchRawCmd`. A LinearCmd is written for its first
     * vector for actuator 0 only, and acknowledged without a write when it
     * has none; a FleshlightLaunchFW12Cmd is written as its two values.
     */
    method HandleFleshlightLaunchRawCmd(m: Message, toUInt32: real -> nat, writeReply: Message)
      returns (reply: Message)
      modifies this`writes
      ensures !m.LinearCmd? && !m.FleshlightLaunchFW12Cmd? ==> reply == WrongHandler(m.id) && writes == old(writes)
      ensures m.LinearCmd? && FirstAtZero(m.vectors).None? ==> reply == Ok(m.id) && writes == old(writes)
      ensures m.LinearCmd? && FirstAtZero(m.vectors).Some? ==>
        && reply == writeReply
        && writes == old(writes) + [Write(m.id, Chr(Tx), LinearPayload(m.vectors[FirstAtZero(m.vectors).value], toUInt32), false)]
      ensures m.FleshlightLaunchFW12Cmd? ==>
        reply == writeReply && writes == old(writes) + [Write(m.id, Chr(Tx), FW12Payload(m.fwPosition, m.fwSpeed), false)]
    {
      if !m.LinearCmd? && !m.FleshlightLaunchFW12Cmd? {
        return WrongHandler(m.id);
      }
      if m.LinearCmd? {
        var i := 0;
        while i < |m.vectors|
          invariant 0 <= i <= |m.vectors|
          invariant forall j :: 0 <= j < i ==> m.vectors[j].index != 0
        {
          var v := m.vectors[i];
          if v.index != 0 {
            i := i + 1;
            continue;
          }
          assert FirstAtZero(m.vectors) == Some(i);
          writes := writes + [Write(m.id, Chr(Tx), LinearPayload(v, toUInt32), false)];
          return writeReply;
        }
        return Ok(m.id);
      }
      writes := writes + [Write(m.id, Chr(Tx), FW12Payload(m.fwPosition, m.fwSpeed), false)];
      return writeReply;
    }
  }
}
