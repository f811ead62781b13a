/**
 * The Kiiroo Onyx and Pearl driver. The Pearl vibrates, the Onyx moves a
 * stroker; both take positions as ASCII text on the Tx characteristic.
 *
 * `Convert.ToUInt16(speed * 4)` is an input function `toPosition`; what the
 * Bluetooth write answers is an input `writeReply`. The Onyx's movement
 * timer, which interpolates towards the target position over wall-clock
 * time, is not part of this model: the linear handler only sets the target.
 */
module Kiiroo {
  import opened Common

  /** Positions in the device info's characteristic list. */
  const Rx: nat := 0
  const Tx: nat := 1
  const Cmd: nat := 2
  const Cmd2: nat := 3

  /** The advertised names this driver answers to. */
  const Names: seq<string> := ["ONYX", "PEARL"]

  /** The handler table: raw position and stop always; vibration on a Pearl; movement on an Onyx. */
  function KiirooTable(interfaceName: string): (t: HandlerTable)
    ensures KiirooCmdType in t && t[KiirooCmdType] == NoAttributes
    ensures StopDeviceCmdType in t && t[StopDeviceCmdType] == NoAttributes
    ensures VibrateCmdType in t <==> interfaceName == "PEARL"
    ensures SingleMotorVibrateCmdType in t <==> interfaceName == "PEARL"
    ensures interfaceName == "PEARL" ==>
      t[VibrateCmdType] == FeatureCount(1) && t[SingleMotorVibrateCmdType] == NoAttributes
    ensures LinearCmdType in t <==> interfaceName == "ONYX"
    ensures interfaceName == "ONYX" ==> t[LinearCmdType] == FeatureCount(1)
    ensures t.Keys <= {KiirooCmdType, StopDeviceCmdType, VibrateCmdType, SingleMotorVibrateCmdType, LinearCmdType}
  {
    var t0: HandlerTable := map[KiirooCmdType := NoAttributes][StopDeviceCmdType := NoAttributes];
    if interfaceName == "PEARL" then t0[VibrateCmdType := FeatureCount(1)][SingleMotorVibrateCmdType := NoAttributes]
    else if interfaceName == "ONYX" then t0[LinearCmdType := FeatureCount(1)]
    else t0
  }

  /** The bytes of a raw position command: the position in decimal, then a comma. */
  function PositionPayload(position: nat): (r: seq<byte>)
    ensures |r| >= 2 && r[|r| - 1] == 0x2C
    ensures forall i :: 0 <= i < |r| - 1 ==> 0x30 <= r[i] <= 0x39
  {
    Ascii(NatToDecimal(position) + ",")
  }

  /** The payload ends in a comma, and the digits before it read back as the position. */
  lemma PositionPayloadRoundTrip(position: nat)
    ensures var p := PositionPayload(position);
      && |p| >= 2 && p[|p| - 1] == 0x2C
      && (forall i :: 0 <= i < |p| - 1 ==> 0x30 <= p[i] <= 0x39)
      && DigitBytesValue(p[..|p| - 1]) == position
  {
    AsciiAppend(NatToDecimal(position), ",");
    AsciiDecimalRoundTrip(position);
    var p := PositionPayload(position);
    assert p[..|p| - 1] == Ascii(NatToDecimal(position));
  }

  /** Different positions are written as different payloads. */
  lemma PositionPayloadInjective(a: nat, b: nat)
    requires PositionPayload(a) == PositionPayload(b)
    ensures a == b
  {
    PositionPayloadRoundTrip(a);
    PositionPayloadRoundTrip(b);
  }

  function VibrateCountError(id: nat): Message {
    Error("VibrateCmd requires 1 vector for this device.", ERROR_DEVICE, id)
  }

  function VibrateIndexError(index: nat, id: nat): Message {
    Error("Index " + NatToDecimal(index) + " is out of bounds for VibrateCmd for this device.", ERROR_DEVICE, id)
  }

  function LinearCountError(id: nat): Message {
    Error("LinearCmd requires 1 vector for this device.", ERROR_DEVICE, id)
  }

  function LinearIndexError(index: nat, id: nat): Message {
    Error("Index " + NatToDecimal(index) + " is out of bounds for LinearCmd for this device.", ERROR_DEVICE, id)
  }

  /** The change of speed below which a single-motor command is dropped. */
  const SpeedTolerance: real := 0.001

  class KiirooDevice {
    /** The name the Bluetooth interface reports. */
    const interfaceName: string
    const name: string
    var table: HandlerTable
    /** `_deviceSpeed`: the last vibration speed sent to a Pearl. */
    var deviceSpeed: real
    /** `_targetPosition`: where the Onyx's timer moves the stroker to. */
    var targetPosition: real
    /** The writes to the device so far. */
    var writes: seq<Write>

    constructor (interfaceName: string)
      ensures this.interfaceName == interfaceName && name == "Kiiroo " + interfaceName
      ensures table == KiirooTable(interfaceName)
      ensures deviceSpeed == 0.0 && targetPosition == 0.0 && writes == []
    {
      this.interfaceName := interfaceName;
      name := "Kiiroo " + interfaceName;
      deviceSpeed := 0.0;
      targetPosition := 0.0;
      writes := [];
      table := map[];
      new;
      table := table[KiirooCmdType := NoAttributes];
      table := table[StopDeviceCmdType := NoAttributes];
      if interfaceName == "PEARL" {
        table := table[VibrateCmdType := FeatureCount(1)];
        table := table[SingleMotorVibrateCmdType := NoAttributes];
      } else if interfaceName == "ONYX" {
        table := table[LinearCmdType := FeatureCount(1)];
      }
    }

    /** `HandleKiirooRawCmd`: the position as text to Tx, with response. */
    method HandleKiirooRawCmd(m: Message, writeReply: Message) returns (reply: Message)
      modifies this`writes
      ensures !m.KiirooCmd? ==> reply == WrongHandler(m.id) && writes == old(writes)
      ensures m.KiirooCmd? ==>
        reply == writeReply && writes == old(writes) + [Write(m.id, Chr(Tx), PositionPayload(m.position), true)]
    {
      if !m.KiirooCmd? {
        return WrongHandler(m.id);
      }
      writes := writes + [Write(m.id, Chr(Tx), PositionPayload(m.position), true)];
      return writeReply;
    }

    /** A running Pearl is sent position 0; anything else is acknowledged without a write. */
    method HandleStopDeviceCmd(m: Message, writeReply: Message) returns (reply: Message)
      requires IsDeviceMessage(m)
      modifies this`writes
      ensures interfaceName == "PEARL" && deviceSpeed > 0.0 ==>
        reply == writeReply && writes == old(writes) + [Write(m.id, Chr(Tx), PositionPayload(0), true)]
      ensures !(interfaceName == "PEARL" && deviceSpeed > 0.0) ==> reply == Ok(m.id) && writes == old(writes)
    {
      if interfaceName == "PEARL" && deviceSpeed > 0.0 {
        reply := HandleKiirooRawCmd(KiirooCmd(m.deviceIndex, 0, m.id), writeReply);
        return;
      }
      return Ok(m.id);
    }

    /**
     * A Pearl's single-motor command: dropped when the speed is within the
     * tolerance of the stored one, otherwise passed on as a one-entry
     * VibrateCmd.
     */
    method HandleSingleMotorVibrateCmd(m: Message, toPosition: real -> nat, writeReply: Message)
      returns (reply: Message)
      modifies this`writes, this`deviceSpeed
      ensures !m.SingleMotorVibrateCmd? || interfaceName != "PEARL" ==>
        reply == WrongHandler(m.id) && writes == old(writes) && deviceSpeed == old(deviceSpeed)
      ensures m.SingleMotorVibrateCmd? && interfaceName == "PEARL" && Abs(old(deviceSpeed) - m.speed) < SpeedTolerance ==>
        reply == Ok(m.id) && writes == old(writes) && deviceSpeed == old(deviceSpeed)
      ensures m.SingleMotorVibrateCmd? && interfaceName == "PEARL" && !(Abs(old(deviceSpeed) - m.speed) < SpeedTolerance) ==>
        && reply == writeReply && deviceSpeed == m.speed
        && writes == old(writes) + [Write(m.id, Chr(Tx), PositionPayload(toPosition(m.speed)), true)]
    {
      if !m.SingleMotorVibrateCmd? || interfaceName != "PEARL" {
        return WrongHandler(m.id);
      }
      if Abs(deviceSpeed - m.speed) < SpeedTolerance {
        return Ok(m.id);
      }
      deviceSpeed := m.speed;
      reply := HandleVibrateCmd(VibrateCmd(m.deviceIndex, OneMotor(m.speed), m.id), toPosition, writeReply);
    }

    /**
     * A Pearl's VibrateCmd: exactly one entry, for motor 0, whose speed is
     * stored and sent as the position `Convert.ToUInt16(speed * 4)`.
     */
    method HandleVibrateCmd(m: Message, toPosition: real -> nat, writeReply: Message) returns (reply: Message)
      modifies this`writes, this`deviceSpeed
      ensures !m.VibrateCmd? || interfaceName != "PEARL" ==>
        reply == WrongHandler(m.id) && writes == old(writes) && deviceSpeed == old(deviceSpeed)
      ensures m.VibrateCmd? && interfaceName == "PEARL" && |m.speeds| != 1 ==>
        reply == VibrateCountError(m.id) && writes == old(writes) && deviceSpeed == old(deviceSpeed)
      ensures m.VibrateCmd? && interfaceName == "PEARL" && |m.speeds| == 1 && m.speeds[0].index != 0 ==>
        reply == VibrateIndexError(m.speeds[0].index, m.id) && writes == old(writes) && deviceSpeed == old(deviceSpeed)
      ensures m.VibrateCmd? && interfaceName == "PEARL" && |m.speeds| == 1 && m.speeds[0].index == 0 ==>
        && reply == writeReply && deviceSpeed == m.speeds[0].speed
        && writes == old(writes) + [Write(m.id, Chr(Tx), PositionPayload(toPosition(m.speeds[0].speed)), true)]
    {
      if !m.VibrateCmd? || interfaceName != "PEARL" {
        return WrongHandler(m.id);
      }
      if |m.speeds| != 1 {
        return VibrateCountError(m.id);
      }
      // The count check leaves one entry for the source's `foreach`.
      var v := m.speeds[0];
      if v.index != 0 {
        return VibrateIndexError(v.index, m.id);
      }
      deviceSpeed := v.speed;
      reply := HandleKiirooRawCmd(KiirooCmd(m.deviceIndex, toPosition(deviceSpeed), m.id), writeReply);
    }

    /** An Onyx's LinearCmd: exactly one vector, for actuator 0; the target is the inverted position. */
    method HandleLinearCmd(m: Message) returns (reply: Message)
      modifies this`targetPosition
      ensures !m.LinearCmd? || interfaceName != "ONYX" ==>
        reply == WrongHandler(m.id) && targetPosition == old(targetPosition)
      ensures m.LinearCmd? && interfaceName == "ONYX" && |m.vectors| != 1 ==>
        reply == LinearCountError(m.id) && targetPosition == old(targetPosition)
      ensures m.LinearCmd? && interfaceName == "ONYX" && |m.vectors| == 1 && m.vectors[0].index != 0 ==>
        reply == LinearIndexError(m.vectors[0].index, m.id) && targetPosition == old(targetPosition)
      ensures m.LinearCmd? && interfaceName == "ONYX" && |m.vectors| == 1 && m.vectors[0].index == 0 ==>
        reply == Ok(m.id) && targetPosition == 1.0 - m.vectors[0].position
    {
      if !m.LinearCmd? || interfaceName != "ONYX" {
        return WrongHandler(m.id);
      }
      if |m.vectors| != 1 {
        return LinearCountError(m.id);
      }
      var v := m.vectors[0];
      if v.index != 0 {
        return LinearIndexError(v.index, m.id);
      }
      targetPosition := 1.0 - v.position;
      return Ok(m.id);
    }
  }
}
