/**
 * The second-generation Kiiroo driver (Onyx2, Pearl2). Its handlers still
 * test the interface name against the first generation's "PEARL" and
 * "ONYX", so for the names it is matched by they reject every vibrate and
 * linear command.
 *
 * `Convert.ToByte(_currentPosition * 99)` is an input `positionByte`: the
 * current position is only ever changed by the movement timer, which is not
 * part of this model. What the Bluetooth write answers is an input
 * `writeReply`.
 */
module KiirooGen2 {
  import opened Common
  import Kiiroo

  /** Positions in the device info's characteristic list. */
  const Rx: nat := 0
  const Tx: nat := 1
  const Cmd: nat := 2

  /** The advertised names this driver answers to. */
  const Names: seq<string> := ["Onyx2", "Pearl2"]

  /** The names the vibrate and linear handlers accept. */
  predicate AcceptsVibrate(interfaceName: string) {
    interfaceName == "PEARL"
  }

  predicate AcceptsLinear(interfaceName: string) {
    interfaceName == "ONYX"
  }

  /** No advertised name of this driver passes the vibrate or the linear name test. */
  lemma AdvertisedNamesRejected(interfaceName: string)
    requires interfaceName in Names
    ensures !AcceptsVibrate(interfaceName) && !AcceptsLinear(interfaceName)
  {
    assert interfaceName == "Onyx2" || interfaceName == "Pearl2";
    assert "Onyx2"[0] == 'O' && "Pearl2"[1] == 'e';
    assert |"Onyx2"| != |"ONYX"| && |"Pearl2"| != |"PEARL"|;
  }

  /** The handler table: the same four classes whatever the name. */
  function KiirooGen2Table(): (t: HandlerTable)
    ensures t.Keys == {StopDeviceCmdType, VibrateCmdType, SingleMotorVibrateCmdType, LinearCmdType}
    ensures t[StopDeviceCmdType] == NoAttributes && t[SingleMotorVibrateCmdType] == NoAttributes
    ensures t[VibrateCmdType] == FeatureCount(1) && t[LinearCmdType] == FeatureCount(1)
  {
    map[StopDeviceCmdType := NoAttributes][VibrateCmdType := FeatureCount(1)]
      [SingleMotorVibrateCmdType := NoAttributes][LinearCmdType := FeatureCount(1)]
  }

  /** The two bytes of a vibration write: the position byte, then 0x46. */
  function VibratePayload(positionByte: byte): (r: seq<byte>)
    ensures |r| == |StopPayload| && r != StopPayload
  {
    [positionByte, 0x46]
  }

  const StopPayload: seq<byte> := [0x00, 0x00]

  class KiirooGen2Device {
    const interfaceName: string
    const name: string
    var table: HandlerTable
    var deviceSpeed: real
    var targetPosition: real
    var writes: seq<Write>

    constructor (interfaceName: string)
      ensures this.interfaceName == interfaceName && name == "Kiiroo " + interfaceName
      ensures table == KiirooGen2Table()
      ensures deviceSpeed == 0.0 && targetPosition == 0.0 && writes == []
    {
      this.interfaceName := interfaceName;
      name := "Kiiroo " + interfaceName;
      deviceSpeed := 0.0;
      targetPosition := 0.0;
      writes := [];
      table := map[];
      new;
      table := table[StopDeviceCmdType := NoAttributes];
      table := table[VibrateCmdType := FeatureCount(1)];
      table := table[SingleMotorVibrateCmdType := NoAttributes];
      table := table[LinearCmdType := FeatureCount(1)];
    }

    /** A running "PEARL" gets two zero bytes on Tx under the system id; anything else is acknowledged. */
    method HandleStopDeviceCmd(m: Message, writeReply: Message) returns (reply: Message)
      modifies this`writes
      ensures AcceptsVibrate(interfaceName) && deviceSpeed > 0.0 ==>
        reply == writeReply && writes == old(writes) + [Write(SystemMsgId, Chr(Tx), StopPayload, true)]
      ensures !(AcceptsVibrate(interfaceName) && deviceSpeed > 0.0) ==> reply == Ok(m.id) && writes == old(writes)
    {
      if AcceptsVibrate(interfaceName) && deviceSpeed > 0.0 {
        writes := writes + [Write(SystemMsgId, Chr(Tx), StopPayload, true)];
        return writeReply;
      }
      return Ok(m.id);
    }

    /** As in the first generation: a speed within the tolerance is dropped, another becomes a VibrateCmd. */
    method HandleSingleMotorVibrateCmd(m: Message, positionByte: byte, writeReply: Message)
      returns (reply: Message)
      modifies this`writes, this`deviceSpeed
      ensures !m.SingleMotorVibrateCmd? || !AcceptsVibrate(interfaceName) ==>
        reply == WrongHandler(m.id) && writes == old(writes) && deviceSpeed == old(deviceSpeed)
      ensures m.SingleMotorVibrateCmd? && AcceptsVibrate(interfaceName) && Abs(old(deviceSpeed) - m.speed) < Kiiroo.SpeedTolerance ==>
        reply == Ok(m.id) && writes == old(writes) && deviceSpeed == old(deviceSpeed)
      ensures m.SingleMotorVibrateCmd? && AcceptsVibrate(interfaceName) && !(Abs(old(deviceSpeed) - m.speed) < Kiiroo.SpeedTolerance) ==>
        && reply == writeReply && deviceSpeed == m.speed
        && writes == old(writes) + [Write(SystemMsgId, Chr(Tx), VibratePayload(positionByte), true)]
    {
      if !m.SingleMotorVibrateCmd? || !AcceptsVibrate(interfaceName) {
        return WrongHandler(m.id);
      }
      if Abs(deviceSpeed - m.speed) < Kiiroo.SpeedTolerance {
        return Ok(m.id);
      }
      deviceSpeed := m.speed;
      reply := HandleVibrateCmd(VibrateCmd(m.deviceIndex, OneMotor(m.speed), m.id), positionByte, writeReply);
    }

    /** Exactly one entry, for motor 0: its speed is stored and two bytes go to Tx. */
    method HandleVibrateCmd(m: Message, positionByte: byte, writeReply: Message) returns (reply: Message)
      modifies this`writes, this`deviceSpeed
      ensures !m.VibrateCmd? || !AcceptsVibrate(interfaceName) ==>
        reply == WrongHandler(m.id) && writes == old(writes) && deviceSpeed == old(deviceSpeed)
      ensures m.VibrateCmd? && AcceptsVibrate(interfaceName) && |m.speeds| != 1 ==>
        reply == Kiiroo.VibrateCountError(m.id) && writes == old(writes) && deviceSpeed == old(deviceSpeed)
      ensures m.VibrateCmd? && AcceptsVibrate(interfaceName) && |m.speeds| == 1 && m.speeds[0].index != 0 ==>
        reply == Kiiroo.VibrateIndexError(m.speeds[0].index, m.id) && writes == old(writes) && deviceSpeed == old(deviceSpeed)
      ensures m.VibrateCmd? && AcceptsVibrate(interfaceName) && |m.speeds| == 1 && m.speeds[0].index == 0 ==>
        && reply == writeReply && deviceSpeed == m.speeds[0].speed
        && writes == old(writes) + [Write(SystemMsgId, Chr(Tx), VibratePayload(positionByte), true)]
    {
      if !m.VibrateCmd? || !AcceptsVibrate(interfaceName) {
        return WrongHandler(m.id);
      }
      if |m.speeds| != 1 {
        return Kiiroo.VibrateCountError(m.id);
      }
      var v := m.speeds[0];
      if v.index != 0 {
        return Kiiroo.VibrateIndexError(v.index, m.id);
      }
      deviceSpeed := v.speed;
      writes := writes + [Write(SystemMsgId, Chr(Tx), VibratePayload(positionByte), true)];
      return writeReply;
    }

    /** Exactly one vector, for actuator 0, on an "ONYX": the target is the inverted position. */
    method HandleLinearCmd(m: Message) returns (reply: Message)
      modifies this`targetPosition
      ensures !m.LinearCmd? || !AcceptsLinear(interfaceName) ==>
        reply == WrongHandler(m.id) && targetPosition == old(targetPosition)
      ensures m.LinearCmd? && AcceptsLinear(interfaceName) && |m.vectors| != 1 ==>
        reply == Kiiroo.LinearCountError(m.id) && targetPosition == old(targetPosition)
      ensures m.LinearCmd? && AcceptsLinear(interfaceName) && |m.vectors| == 1 && m.vectors[0].index != 0 ==>
        reply == Kiiroo.LinearIndexError(m.vectors[0].index, m.id) && targetPosition == old(targetPosition)
      ensures m.LinearCmd? && AcceptsLinear(interfaceName) && |m.vectors| == 1 && m.vectors[0].index == 0 ==>
        reply == Ok(m.id) && targetPosition == 1.0 - m.vectors[0].position
    {
      if !m.LinearCmd? || !AcceptsLinear(interfaceName) {
        return WrongHandler(m.id);
      }
      if |m.vectors| != 1 {
        return Kiiroo.LinearCountError(m.id);
      }
      var v := m.vectors[0];
      if v.index != 0 {
        return Kiiroo.LinearIndexError(v.index, m.id);
      }
      targetPosition := 1.0 - v.position;
      return Ok(m.id);
    }
  }

  /**
   * A device created for one of the advertised names answers every
   * vibrate, single-motor and linear command with "Wrong Handler", writes
   * nothing and keeps its state.
   */
  method AdvertisedDeviceRejects(interfaceName: string, vibrate: Message, single: Message, linear: Message)
    returns (r1: Message, r2: Message, r3: Message)
    requires interfaceName in Names
    ensures r1 == WrongHandler(vibrate.id) && r2 == WrongHandler(single.id) && r3 == WrongHandler(linear.id)
  {
    var d := new KiirooGen2Device(interfaceName);
    AdvertisedNamesRejected(interfaceName);
    r1 := d.HandleVibrateCmd(vibrate, 0, Ok(0));
    r2 := d.HandleSingleMotorVibrateCmd(single, 0, Ok(0));
    r3 := d.HandleLinearCmd(linear);
    assert d.writes == [];
  }
}
