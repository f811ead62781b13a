/**
 * The Louviva driver rewritten as a device protocol: the same handlers and
 * speed tracking as the Bluetooth driver, but writes go to named endpoints,
 * carry no message id, and are never answered back to the client: a
 * changed speed is acknowledged once the write was issued.
 *
 * The speed byte is an input function `toSpeedByte`, as in the Bluetooth
 * driver; `ButtplugDeviceWriteOptions` other than the endpoint are not part
 * of this model.
 */
module LouvivaProtocol {
  import opened Common
  import opened Louviva

  /** The endpoints the protocol writes to. */
  const TxEndpoint: string := "Tx"
  const TxModeEndpoint: string := "TxMode"

  /** One write through `IButtplugDeviceImpl.WriteValueAsync`. */
  datatype EndpointWrite = EndpointWrite(endpoint: string, data: seq<byte>)

  class LouvivaProtocolDevice {
    const name: string
    var table: HandlerTable
    /** `_vibratorSpeed`. */
    var vibratorSpeed: real
    var writes: seq<EndpointWrite>

    constructor (interfaceName: string)
      ensures name == "Louviva " + interfaceName && table == LouvivaTable()
      ensures vibratorSpeed == 0.0 && writes == []
    {
      name := "Louviva " + interfaceName;
      vibratorSpeed := 0.0;
      writes := [];
      table := map[];
      new;
      table := table[SingleMotorVibrateCmdType := NoAttributes];
      table := table[VibrateCmdType := FeatureCount(1)];
      table := table[StopDeviceCmdType := NoAttributes];
    }

    /** `InitializeAsync`: the two initialization bytes to the TxMode endpoint. */
    method Initialize()
      modifies this`writes
      ensures writes == old(writes) + [EndpointWrite(TxModeEndpoint, InitPayload)]
    {
      writes := writes + [EndpointWrite(TxModeEndpoint, InitPayload)];
    }

    /**
     * `HandleVibrateCmd`: the stored speed follows the entries; when one
     * moved it, the new speed goes as one byte to Tx. Either way the
     * command is acknowledged.
     */
    method HandleVibrateCmd(m: Message, toSpeedByte: real -> byte) returns (reply: Message)
      requires m.VibrateCmd?
      modifies this`vibratorSpeed, this`writes
      ensures reply == Ok(m.id)
      ensures var t := TrackSpeed(old(vibratorSpeed), m.speeds);
        && vibratorSpeed == t.0
        && writes == old(writes) + (if t.1 then [EndpointWrite(TxEndpoint, [toSpeedByte(t.0)])] else [])
    {
      var changed := false;
      var i := 0;
      while i < |m.speeds|
        invariant 0 <= i <= |m.speeds|
        invariant (vibratorSpeed, changed) == TrackSpeed(old(vibratorSpeed), m.speeds[..i])
        invariant writes == old(writes)
      {
        assert m.speeds[..i + 1][..i] == m.speeds[..i];
        var v := m.speeds[i];
        if !(Abs(v.speed - vibratorSpeed) > SpeedTolerance) {
          i := i + 1;
          continue;
        }
        changed := true;
        vibratorSpeed := v.speed;
        i := i + 1;
      }
      assert m.speeds[..i] == m.speeds;
      if !changed {
        return Ok(m.id);
      }
      writes := writes + [EndpointWrite(TxEndpoint, [toSpeedByte(vibratorSpeed)])];
      return Ok(m.id);
    }

    /** `HandleSingleMotorVibrateCmd`: a one-feature VibrateCmd at the requested speed. */
    method HandleSingleMotorVibrateCmd(m: Message, toSpeedByte: real -> byte) returns (reply: Message)
      requires m.SingleMotorVibrateCmd?
      modifies this`vibratorSpeed, this`writes
      ensures reply == Ok(m.id)
      ensures !(Abs(m.speed - old(vibratorSpeed)) > SpeedTolerance) ==>
        vibratorSpeed == old(vibratorSpeed) && writes == old(writes)
      ensures Abs(m.speed - old(vibratorSpeed)) > SpeedTolerance ==>
        vibratorSpeed == m.speed && writes == old(writes) + [EndpointWrite(TxEndpoint, [toSpeedByte(m.speed)])]
    {
      TrackOne(vibratorSpeed, VibrateSubcommand(0, m.speed));
      reply := HandleVibrateCmd(VibrateCmd(m.deviceIndex, OneMotor(m.speed), m.id), toSpeedByte);
    }

    /** `HandleStopDeviceCmd`: a single-motor command at speed 0. */
    method HandleStopDeviceCmd(m: Message, toSpeedByte: real -> byte) returns (reply: Message)
      requires IsDeviceMessage(m)
      modifies this`vibratorSpeed, this`writes
      ensures reply == Ok(m.id)
      ensures !(Abs(old(vibratorSpeed)) > SpeedTolerance) ==>
        vibratorSpeed == old(vibratorSpeed) && writes == old(writes)
      ensures Abs(old(vibratorSpeed)) > SpeedTolerance ==>
        vibratorSpeed == 0.0 && writes == old(writes) + [EndpointWrite(TxEndpoint, [toSpeedByte(0.0)])]
    {
      reply := HandleSingleMotorVibrateCmd(SingleMotorVibrateCmd(m.deviceIndex, 0.0, m.id), toSpeedByte);
    }
  }
}
