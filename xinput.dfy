/**
 * An XInput gamepad used as a two-motor vibrator. The speed of each motor
 * is kept in a slot array; every command ends with one `SetVibration` of
 * both slots on the controller, which may throw.
 *
 * The scaling of a slot to a motor speed (`(ushort)(speed *
 * ushort.MaxValue)`) is not part of this model: the vibration log records
 * the two slot values handed over.
 */
module XInputGamepad {
  import opened Common

  const VibratorCount: nat := 2
  const DeviceName: string := "XBox Compatible Gamepad (XInput)"

  /** The handler table; the VibrateCmd entry carries the older string attributes. */
  function XInputTable(): (t: HandlerTable)
    ensures t.Keys == {SingleMotorVibrateCmdType, VibrateCmdType, StopDeviceCmdType}
    ensures t[VibrateCmdType] == StringAttributes([("VibratorCount", "2")])
    ensures t[SingleMotorVibrateCmdType] == NoAttributes && t[StopDeviceCmdType] == NoAttributes
  {
    map[SingleMotorVibrateCmdType := NoAttributes][VibrateCmdType := StringAttributes([("VibratorCount", "2")])]
      [StopDeviceCmdType := NoAttributes]
  }

  /** What a `SetVibration` on the controller did. */
  datatype VibrationOutcome =
    | Applied
    | Threw(message: string, stillConnected: bool)

  class XInputGamepadDevice {
    /** `_vibratorSpeeds`. */
    const speeds: array<real>
    /** Whether `_device` still refers to the controller. */
    var connected: bool
    /** The slot values each `SetVibration` was given. */
    var vibrations: seq<(real, real)>
    /** How many DeviceRemoved events the device raised. */
    var removedEvents: nat

    ghost predicate Valid()
      reads this
    {
      speeds.Length == VibratorCount
    }

    constructor ()
      ensures Valid() && fresh(speeds) && speeds[..] == [0.0, 0.0]
      ensures connected && vibrations == [] && removedEvents == 0
    {
      speeds := new real[VibratorCount](_ => 0.0);
      connected := true;
      vibrations := [];
      removedEvents := 0;
    }

    /**
     * `HandleVibrateCmd`: the entries are applied to the slots in order,
     * skipping those beyond the vibrator count, then both slots are sent.
     * A throwing controller that is no longer connected is reported as
     * removed and the command still succeeds; a connected one gives an error.
     */
    method HandleVibrateCmd(m: Message, outcome: VibrationOutcome) returns (reply: Message)
      requires Valid()
      modifies speeds, this`vibrations, this`removedEvents
      ensures Valid()
      ensures !m.VibrateCmd? ==>
        reply == WrongHandler(m.id) && speeds[..] == old(speeds[..]) && vibrations == old(vibrations) && removedEvents == old(removedEvents)
      ensures m.VibrateCmd? ==> speeds[..] == ApplySpeeds(old(speeds[..]), m.speeds)
      ensures m.VibrateCmd? && !connected ==>
        reply == Ok(m.id) && vibrations == old(vibrations) && removedEvents == old(removedEvents)
      ensures m.VibrateCmd? && connected ==> vibrations == old(vibrations) + [(speeds[0], speeds[1])]
      ensures m.VibrateCmd? && connected && outcome.Applied? ==> reply == Ok(m.id) && removedEvents == old(removedEvents)
      ensures m.VibrateCmd? && connected && outcome.Threw? && !outcome.stillConnected ==>
        reply == Ok(m.id) && removedEvents == old(removedEvents) + 1
      ensures m.VibrateCmd? && connected && outcome.Threw? && outcome.stillConnected ==>
        reply == Error(outcome.message, ERROR_DEVICE, m.id) && removedEvents == old(removedEvents)
    {
      if !m.VibrateCmd? {
        return WrongHandler(m.id);
      }
      var i := 0;
      while i < |m.speeds|
        invariant 0 <= i <= |m.speeds|
        invariant speeds[..] == ApplySpeeds(old(speeds[..]), m.speeds[..i])
        invariant vibrations == old(vibrations) && removedEvents == old(removedEvents)
      {
        assert m.speeds[..i + 1][..i] == m.speeds[..i];
        var vi := m.speeds[i];
        if vi.index < VibratorCount {
          speeds[vi.index] := ClampByPrevious(speeds[vi.index], vi.speed);
        }
        i := i + 1;
      }
      assert m.speeds[..i] == m.speeds;
      if connected {
        vibrations := vibrations + [(speeds[0], speeds[1])];
        if outcome.Threw? {
          if !outcome.stillConnected {
            removedEvents := removedEvents + 1;
            return Ok(m.id);
          }
          return Error(outcome.message, ERROR_DEVICE, m.id);
        }
      }
      return Ok(m.id);
    }

    /** `HandleSingleMotorVibrateCmd`: a VibrateCmd with every motor at the requested speed. */
    method HandleSingleMotorVibrateCmd(m: Message, outcome: VibrationOutcome) returns (reply: Message)
      requires Valid()
      modifies speeds, this`vibrations, this`removedEvents
      ensures Valid()
      ensures !m.SingleMotorVibrateCmd? ==>
        reply == WrongHandler(m.id) && speeds[..] == old(speeds[..]) && vibrations == old(vibrations) && removedEvents == old(removedEvents)
      ensures m.SingleMotorVibrateCmd? ==> speeds[..] == ApplySpeeds(old(speeds[..]), AllMotors(VibratorCount, m.speed))
      ensures m.SingleMotorVibrateCmd? && connected ==> vibrations == old(vibrations) + [(speeds[0], speeds[1])]
      ensures m.SingleMotorVibrateCmd? && !connected ==>
        reply == Ok(m.id) && vibrations == old(vibrations) && removedEvents == old(removedEvents)
      ensures m.SingleMotorVibrateCmd? && connected && outcome.Applied? ==> reply == Ok(m.id) && removedEvents == old(removedEvents)
      ensures m.SingleMotorVibrateCmd? && connected && outcome.Threw? && !outcome.stillConnected ==>
        reply == Ok(m.id) && removedEvents == old(removedEvents) + 1
      ensures m.SingleMotorVibrateCmd? && connected && outcome.Threw? && outcome.stillConnected ==>
        reply == Error(outcome.message, ERROR_DEVICE, m.id) && removedEvents == old(removedEvents)
    {
      if !m.SingleMotorVibrateCmd? {
        return WrongHandler(m.id);
      }
      var list: seq<VibrateSubcommand> := [];
      var i := 0;
      while i < VibratorCount
        invariant 0 <= i <= VibratorCount
        invariant list == AllMotors(i, m.speed)
      {
        list := list + [VibrateSubcommand(i, m.speed)];
        i := i + 1;
      }
      reply := HandleVibrateCmd(VibrateCmd(m.deviceIndex, list, m.id), outcome);
    }

    /** `HandleStopDeviceCmd`: a single-motor command at speed 0. */
    method HandleStopDeviceCmd(m: Message, outcome: VibrationOutcome) returns (reply: Message)
      requires Valid() && IsDeviceMessage(m)
      modifies speeds, this`vibrations, this`removedEvents
      ensures Valid()
      ensures speeds[..] == ApplySpeeds(old(speeds[..]), AllMotors(VibratorCount, 0.0))
      ensures connected ==> vibrations == old(vibrations) + [(speeds[0], speeds[1])]
      ensures !connected ==> reply == Ok(m.id) && vibrations == old(vibrations) && removedEvents == old(removedEvents)
      ensures connected && outcome.Applied? ==> reply == Ok(m.id) && removedEvents == old(removedEvents)
      ensures connected && outcome.Threw? && !outcome.stillConnected ==>
        reply == Ok(m.id) && removedEvents == old(removedEvents) + 1
      ensures connected && outcome.Threw? && outcome.stillConnected ==>
        reply == Error(outcome.message, ERROR_DEVICE, m.id) && removedEvents == old(removedEvents)
    {
      reply := HandleSingleMotorVibrateCmd(SingleMotorVibrateCmd(m.deviceIndex, 0.0, m.id), outcome);
    }

    /** `Disconnect`: both motors off when there is a controller, then the controller is dropped. */
    method Disconnect()
      modifies this`connected, this`vibrations
      ensures !connected
      ensures vibrations == old(vibrations) + (if old(connected) then [(0.0, 0.0)] else [])
    {
      if connected {
        vibrations := vibrations + [(0.0, 0.0)];
      }
      connected := false;
    }
  }

  /**
   * A slot addressed once by a VibrateCmd takes the requested speed when it
   * held a value in [0, 1] before, and is pulled to 0 or 1 otherwise; the
   * other slot keeps its value.
   */
  lemma VibrateOneSlot(slots: seq<real>, v: VibrateSubcommand)
    requires |slots| == VibratorCount && v.index < VibratorCount
    ensures var r := ApplySpeeds(slots, [v]);
      && (0.0 <= slots[v.index] <= 1.0 ==> r[v.index] == v.speed)
      && (slots[v.index] < 0.0 ==> r[v.index] == 0.0)
      && (slots[v.index] > 1.0 ==> r[v.index] == 1.0)
      && r[1 - v.index] == slots[1 - v.index]
  {
    assert [v][..0] == [];
  }

  /**
   * A single-motor command at a speed outside [0, 1] is stored as it is, so
   * the clamp only acts on the next command: two such commands in a row
   * leave every slot at 0 or 1.
   */
  lemma OutOfRangeSpeedStored(speed: real)
    requires speed > 1.0
    ensures ApplySpeeds([0.0, 0.0], AllMotors(VibratorCount, speed)) == [speed, speed]
    ensures ApplySpeeds([speed, speed], AllMotors(VibratorCount, speed)) == [1.0, 1.0]
  {
    var all := AllMotors(VibratorCount, speed);
    assert all == [VibrateSubcommand(0, speed), VibrateSubcommand(1, speed)];
    assert all[..1] == [VibrateSubcommand(0, speed)];
    assert all[..1][..0] == [];
    assert ApplySpeeds([0.0, 0.0], all[..1]) == [speed, 0.0];
    assert ApplySpeeds([speed, speed], all[..1]) == [1.0, speed];
  }
}
