/**
 * A device of the device simulator: its handler table depends on what the
 * simulator advertised, and each command is forwarded to the simulator
 * manager. The calls on the manager are recorded in order; the pipe that
 * carries them to the simulator is not part of this model.
 */
module Simulator {
  import opened Common

  /** What the simulator's DeviceAdded pipe message announces. */
  datatype SimulatedDeviceAdded = SimulatedDeviceAdded(
    name: string, id: string, hasLinear: bool, vibratorCount: nat, hasRotator: bool)

  /** A call of the device on the simulator manager, with the arguments the device passes. */
  datatype ManagerCall =
    | StopDevice
    | Vibrate(speed: real, index: nat)
    | Rotate(rotation: nat, clockwise: bool)
    | Linear(speed: real, position: real)
    | Linear2(duration: nat, position: real)

  /**
   * The handler table the constructor registers: stopping always, the
   * linear commands exactly with a linear actuator, the vibrate commands
   * exactly with at least one vibrator, rotation exactly with a rotator.
   */
  function SimulatorTable(da: SimulatedDeviceAdded): (t: HandlerTable)
    ensures StopDeviceCmdType in t && t[StopDeviceCmdType] == NoAttributes
    ensures FleshlightLaunchFW12CmdType in t <==> da.hasLinear
    ensures LinearCmdType in t <==> da.hasLinear
    ensures da.hasLinear ==> t[FleshlightLaunchFW12CmdType] == NoAttributes && t[LinearCmdType] == FeatureCount(1)
    ensures SingleMotorVibrateCmdType in t <==> da.vibratorCount > 0
    ensures VibrateCmdType in t <==> da.vibratorCount > 0
    ensures da.vibratorCount > 0 ==>
      t[SingleMotorVibrateCmdType] == NoAttributes && t[VibrateCmdType] == FeatureCount(da.vibratorCount)
    ensures VorzeA10CycloneCmdType in t <==> da.hasRotator
    ensures da.hasRotator ==> t[VorzeA10CycloneCmdType] == NoAttributes
    ensures t.Keys <= {StopDeviceCmdType, FleshlightLaunchFW12CmdType, LinearCmdType,
                       SingleMotorVibrateCmdType, VibrateCmdType, VorzeA10CycloneCmdType}
  {
    var t0: HandlerTable := map[];
    var t1 := if da.hasLinear then t0[FleshlightLaunchFW12CmdType := NoAttributes][LinearCmdType := FeatureCount(1)] else t0;
    var t2 := if da.vibratorCount > 0 then t1[SingleMotorVibrateCmdType := NoAttributes][VibrateCmdType := FeatureCount(da.vibratorCount)] else t1;
    var t3 := if da.hasRotator then t2[VorzeA10CycloneCmdType := NoAttributes] else t2;
    t3[StopDeviceCmdType := NoAttributes]
  }

  /** The entries a VibrateCmd may address: those below the vibrator count. */
  function Addressable(speeds: seq<VibrateSubcommand>, count: nat): (r: seq<VibrateSubcommand>)
    ensures forall v :: v in r <==> v in speeds && v.index < count
  {
    Filter(speeds, (v: VibrateSubcommand) => v.index < count)
  }

  /** The entries a LinearCmd may address: those for actuator 0. */
  function FirstActuator(vectors: seq<LinearVector>): (r: seq<LinearVector>)
    ensures forall v :: v in r <==> v in vectors && v.index == 0
  {
    Filter(vectors, (v: LinearVector) => v.index == 0)
  }

  /** The manager calls for a list of vibrate entries, one each, in order. */
  function VibrateCalls(vs: seq<VibrateSubcommand>): (r: seq<ManagerCall>)
    ensures |r| == |vs|
    ensures forall i :: 0 <= i < |vs| ==> r[i] == Vibrate(vs[i].speed, vs[i].index)
  {
    if vs == [] then [] else VibrateCalls(vs[..|vs| - 1]) + [Vibrate(vs[|vs| - 1].speed, vs[|vs| - 1].index)]
  }

  /** The manager calls for a list of linear vectors, one each, in order. */
  function Linear2Calls(vs: seq<LinearVector>): (r: seq<ManagerCall>)
    ensures |r| == |vs|
    ensures forall i :: 0 <= i < |vs| ==> r[i] == Linear2(vs[i].duration, vs[i].position)
  {
    if vs == [] then [] else Linear2Calls(vs[..|vs| - 1]) + [Linear2(vs[|vs| - 1].duration, vs[|vs| - 1].position)]
  }

  /** The `foreach` of HandleVibrateCmd: one manager call per entry, in order. */
  method ForwardVibrates(vis: seq<VibrateSubcommand>) returns (out: seq<ManagerCall>)
    ensures out == VibrateCalls(vis)
  {
    out := [];
    var i := 0;
    while i < |vis|
      invariant 0 <= i <= |vis|
      invariant out == VibrateCalls(vis[..i])
    {
      assert vis[..i + 1][..i] == vis[..i];
      out := out + [Vibrate(vis[i].speed, vis[i].index)];
      i := i + 1;
    }
    assert vis[..i] == vis;
  }

  /** The `foreach` of HandleLinearCmd: one manager call per vector, in order. */
  method ForwardLinears(vis: seq<LinearVector>) returns (out: seq<ManagerCall>)
    ensures out == Linear2Calls(vis)
  {
    out := [];
    var i := 0;
    while i < |vis|
      invariant 0 <= i <= |vis|
      invariant out == Linear2Calls(vis[..i])
    {
      assert vis[..i + 1][..i] == vis[..i];
      out := out + [Linear2(vis[i].duration, vis[i].position)];
      i := i + 1;
    }
    assert vis[..i] == vis;
  }

  const InvalidIndex: string := "Invalid vibrator index!"

  class SimulatedDevice {
    const name: string
    const identifier: string
    /** `_vibratorCount`: zero unless the simulator announced vibrators. */
    const vibratorCount: nat
    /** `MsgFuncs`, in registration order. */
    var table: HandlerTable
    /** The calls made on the simulator manager so far. */
    var calls: seq<ManagerCall>

    constructor (da: SimulatedDeviceAdded)
      ensures name == da.name && identifier == da.id && vibratorCount == da.vibratorCount
      ensures table == SimulatorTable(da) && calls == []
    {
      name := da.name;
      identifier := da.id;
      vibratorCount := da.vibratorCount;
      calls := [];
      table := map[];
      new;
      if da.hasLinear {
        table := table[FleshlightLaunchFW12CmdType := NoAttributes];
        table := table[LinearCmdType := FeatureCount(1)];
      }
      if da.vibratorCount > 0 {
        table := table[SingleMotorVibrateCmdType := NoAttributes];
        table := table[VibrateCmdType := FeatureCount(da.vibratorCount)];
      }
      if da.hasRotator {
        table := table[VorzeA10CycloneCmdType := NoAttributes];
      }
      table := table[StopDeviceCmdType := NoAttributes];
    }

    /** `Disconnect` does nothing: it may change no state. */
    method Disconnect()
    {
    }

    /** One stop call, whatever the message. */
    method HandleStopDeviceCmd(m: Message) returns (reply: Message)
      modifies this`calls
      ensures reply == Ok(m.id) && calls == old(calls) + [StopDevice]
    {
      calls := calls + [StopDevice];
      return Ok(m.id);
    }

    /** One vibrate call per motor 0..count-1, all at the requested speed. */
    method HandleSingleMotorVibrateCmd(m: Message) returns (reply: Message)
      modifies this`calls
      ensures !m.SingleMotorVibrateCmd? ==> reply == WrongHandler(m.id) && calls == old(calls)
      ensures m.SingleMotorVibrateCmd? ==>
        reply == Ok(m.id) && calls == old(calls) + VibrateCalls(AllMotors(vibratorCount, m.speed))
    {
      if !m.SingleMotorVibrateCmd? {
        return WrongHandler(m.id);
      }
      var i := 0;
      while i < vibratorCount
        invariant 0 <= i <= vibratorCount
        invariant calls == old(calls) + VibrateCalls(AllMotors(i, m.speed))
      {
        calls := calls + [Vibrate(m.speed, i)];
        i := i + 1;
      }
      return Ok(m.id);
    }

    /** The entries below the vibrator count are forwarded in order; with none, an error. */
    method HandleVibrateCmd(m: Message) returns (reply: Message)
      modifies this`calls
      ensures !m.VibrateCmd? ==> reply == WrongHandler(m.id) && calls == old(calls)
      ensures m.VibrateCmd? && Addressable(m.speeds, vibratorCount) == [] ==>
        reply == Error(InvalidIndex, ERROR_DEVICE, m.id) && calls == old(calls)
      ensures m.VibrateCmd? && Addressable(m.speeds, vibratorCount) != [] ==>
        reply == Ok(m.id) && calls == old(calls) + VibrateCalls(Addressable(m.speeds, vibratorCount))
    {
      if !m.VibrateCmd? {
        return WrongHandler(m.id);
      }
      var vis := Addressable(m.speeds, vibratorCount);
      if vis == [] {
        return Error(InvalidIndex, ERROR_DEVICE, m.id);
      }
      var forwarded := ForwardVibrates(vis);
      calls := calls + forwarded;
      return Ok(m.id);
    }

    /** One rotate call with the requested speed and direction. */
    method HandleVorzeA10CycloneCmd(m: Message) returns (reply: Message)
      modifies this`calls
      ensures !m.VorzeA10CycloneCmd? ==> reply == WrongHandler(m.id) && calls == old(calls)
      ensures m.VorzeA10CycloneCmd? ==> reply == Ok(m.id) && calls == old(calls) + [Rotate(m.rotation, m.clockwise)]
    {
      if !m.VorzeA10CycloneCmd? {
        return WrongHandler(m.id);
      }
      calls := calls + [Rotate(m.rotation, m.clockwise)];
      return Ok(m.id);
    }

    /** One linear call with speed and position scaled from 0..99 down to 0..1. */
    method HandleFleshlightLaunchFW12Cmd(m: Message) returns (reply: Message)
      modifies this`calls
      ensures !m.FleshlightLaunchFW12Cmd? ==> reply == WrongHandler(m.id) && calls == old(calls)
      ensures m.FleshlightLaunchFW12Cmd? ==>
        reply == Ok(m.id) && calls == old(calls) + [Linear(m.fwSpeed as real / 99.0, m.fwPosition as real / 99.0)]
    {
      if !m.FleshlightLaunchFW12Cmd? {
        return WrongHandler(m.id);
      }
      calls := calls + [Linear(m.fwSpeed as real / 99.0, m.fwPosition as real / 99.0)];
      return Ok(m.id);
    }

    /** The vectors for actuator 0 are forwarded in order; with none, an error. */
    method HandleLinearCmd(m: Message) returns (reply: Message)
      modifies this`calls
      ensures !m.LinearCmd? ==> reply == WrongHandler(m.id) && calls == old(calls)
      ensures m.LinearCmd? && FirstActuator(m.vectors) == [] ==>
        reply == Error(InvalidIndex, ERROR_DEVICE, m.id) && calls == old(calls)
      ensures m.LinearCmd? && FirstActuator(m.vectors) != [] ==>
        reply == Ok(m.id) && calls == old(calls) + Linear2Calls(FirstActuator(m.vectors))
    {
      if !m.LinearCmd? {
        return WrongHandler(m.id);
      }
      var vis := FirstActuator(m.vectors);
      if vis == [] {
        return Error(InvalidIndex, ERROR_DEVICE, m.id);
      }
      var forwarded := ForwardLinears(vis);
      calls := calls + forwarded;
      return Ok(m.id);
    }
  }

  /**
   * A VibrateCmd reaches the simulator for every in-range entry and no
   * other, in the order of the command: the calls of a command made of two
   * parts are the calls of the first part followed by those of the second.
   */
  lemma VibrateForwardingOrder(a: seq<VibrateSubcommand>, b: seq<VibrateSubcommand>, count: nat)
    ensures Addressable(a + b, count) == Addressable(a, count) + Addressable(b, count)
    ensures Addressable(a, count) == [] <==> forall v :: v in a ==> v.index >= count
  {
    FilterAppend(a, b, (v: VibrateSubcommand) => v.index < count);
    if Addressable(a, count) != [] {
      assert Addressable(a, count)[0] in Addressable(a, count);
    }
  }
}
