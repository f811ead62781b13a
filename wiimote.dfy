/**
 * A Wii Remote used as a one-motor vibrator with an accelerometer. The
 * rumble motor is either on or off: the slot value is rounded to an
 * integer and the motor runs when that integer is 1.
 *
 * `Convert.ToUInt16` of the slot (banker's rounding of a double) is an
 * input function `toUInt16`. The remote's own state reports arrive as the
 * three raw axis values of `HandleWiimoteChanged`.
 */
module WiiMote {
  import opened Common

  const VibratorCount: nat := 1
  const DeviceName: string := "WiiMote"

  /** The handler table: vibration with the older string attributes, stop, and the accelerometer switch. */
  function WiiMoteTable(): (t: HandlerTable)
    ensures t.Keys == {SingleMotorVibrateCmdType, VibrateCmdType, StopDeviceCmdType,
                       StartAccelerometerCmdType, StopAccelerometerCmdType}
    ensures t[VibrateCmdType] == StringAttributes([("VibratorCount", "1")])
    ensures t[SingleMotorVibrateCmdType] == NoAttributes && t[StopDeviceCmdType] == NoAttributes
    ensures t[StartAccelerometerCmdType] == NoAttributes && t[StopAccelerometerCmdType] == NoAttributes
  {
    map[SingleMotorVibrateCmdType := NoAttributes][VibrateCmdType := StringAttributes([("VibratorCount", "1")])]
      [StopDeviceCmdType := NoAttributes][StartAccelerometerCmdType := NoAttributes]
      [StopAccelerometerCmdType := NoAttributes]
  }

  /** The input report modes the remote is switched between. */
  datatype ReportType = Buttons | ButtonsAccel

  class WiiMoteDevice {
    /** The remote's id, as text. */
    const identifier: string
    /** The index the device manager assigned; the emitted sensor messages carry it. */
    const index: nat
    /** `_vibratorSpeeds`, one slot. */
    const speeds: array<real>
    /** Whether `_device` still refers to the remote. */
    var connected: bool
    /** `_reportAccel`. */
    var reportAccel: bool
    /** The arguments of every `SetRumble` call. */
    var rumbles: seq<bool>
    /** The arguments of every `SetReportType` call. */
    var reportTypes: seq<(ReportType, bool)>
    /** The messages the device emitted. */
    var emitted: seq<Message>

    ghost predicate Valid()
      reads this
    {
      speeds.Length == VibratorCount
    }

    constructor (identifier: string, index: nat)
      ensures Valid() && fresh(speeds) && speeds[..] == [0.0]
      ensures this.identifier == identifier && this.index == index
      ensures connected && !reportAccel && rumbles == [] && reportTypes == [] && emitted == []
    {
      this.identifier := identifier;
      this.index := index;
      speeds := new real[VibratorCount](_ => 0.0);
      connected := true;
      reportAccel := false;
      rumbles := [];
      reportTypes := [];
      emitted := [];
    }

    /** `HandleWiimoteChanged`: the raw axes are passed on only while reporting is switched on. */
    method HandleWiimoteChanged(x: int, y: int, z: int)
      modifies this`emitted
      ensures emitted == old(emitted) + (if reportAccel then [AccelerometerData(x, y, z, index, SystemMsgId)] else [])
    {
      if reportAccel {
        emitted := emitted + [AccelerometerData(x, y, z, index, SystemMsgId)];
      }
    }

    /**
     * `HandleVibrateCmd`: entries for motor 0 are applied in order, the
     * others skipped; the remote, when there is one, rumbles iff the slot
     * rounds to 1. Every VibrateCmd is acknowledged.
     */
    method HandleVibrateCmd(m: Message, toUInt16: real -> nat) returns (reply: Message)
      requires Valid()
      modifies speeds, this`rumbles
      ensures Valid()
      ensures !m.VibrateCmd? ==> reply == WrongHandler(m.id) && speeds[..] == old(speeds[..]) && rumbles == old(rumbles)
      ensures m.VibrateCmd? ==> reply == Ok(m.id) && speeds[..] == ApplySpeeds(old(speeds[..]), m.speeds)
      ensures m.VibrateCmd? ==> rumbles == old(rumbles) + (if connected then [toUInt16(speeds[0]) == 1] else [])
    {
      if !m.VibrateCmd? {
        return WrongHandler(m.id);
      }
      var i := 0;
      while i < |m.speeds|
        invariant 0 <= i <= |m.speeds|
        invariant speeds[..] == ApplySpeeds(old(speeds[..]), m.speeds[..i])
        invariant rumbles == old(rumbles)
      {
        assert m.speeds[..i + 1][..i] == m.speeds[..i];
        var vi := m.speeds[i];
        if vi.index == 0 {
          speeds[vi.index] := ClampByPrevious(speeds[vi.index], vi.speed);
        }
        i := i + 1;
      }
      assert m.speeds[..i] == m.speeds;
      if connected {
        rumbles := rumbles + [toUInt16(speeds[0]) == 1];
      }
      return Ok(m.id);
    }

    /** `HandleSingleMotorVibrateCmd`: a VibrateCmd with one entry per motor, all at the requested speed. */
    method HandleSingleMotorVibrateCmd(m: Message, toUInt16: real -> nat) returns (reply: Message)
      requires Valid()
      modifies speeds, this`rumbles
      ensures Valid()
      ensures !m.SingleMotorVibrateCmd? ==>
        reply == WrongHandler(m.id) && speeds[..] == old(speeds[..]) && rumbles == old(rumbles)
      ensures m.SingleMotorVibrateCmd? ==>
        reply == Ok(m.id) && speeds[..] == ApplySpeeds(old(speeds[..]), AllMotors(VibratorCount, m.speed))
      ensures m.SingleMotorVibrateCmd? ==> rumbles == old(rumbles) + (if connected then [toUInt16(speeds[0]) == 1] else [])
    {
      if !m.SingleMotorVibrateCmd? {
        return WrongHandler(m.id);
      }
      var list: seq<VibrateSubcommand> := [];
      var i := 0;
      while i < VibratorCount
        invariant 0 <= i <= VibratorCount
        invariant list == AllMotors(i, m.speed)
      {
        list := list + [VibrateSubcommand(i, m.speed)];
        i := i + 1;
      }
      reply := HandleVibrateCmd(VibrateCmd(m.deviceIndex, list, m.id), toUInt16);
    }

    /** `HandleStopDeviceCmd`: a single-motor command at speed 0. */
    method HandleStopDeviceCmd(m: Message, toUInt16: real -> nat) returns (reply: Message)
      requires Valid() && IsDeviceMessage(m)
      modifies speeds, this`rumbles
      ensures Valid()
      ensures reply == Ok(m.id) && speeds[..] == ApplySpeeds(old(speeds[..]), AllMotors(VibratorCount, 0.0))
      ensures rumbles == old(rumbles) + (if connected then [toUInt16(speeds[0]) == 1] else [])
    {
      reply := HandleSingleMotorVibrateCmd(SingleMotorVibrateCmd(m.deviceIndex, 0.0, m.id), toUInt16);
    }

    /**
     * `HandleStartAccelerometerCmd`: reporting on, and the remote switched
     * to buttons-and-accelerometer reports. After `Disconnect` the flag is
     * still set, and the call on the dropped remote then throws.
     */
    method HandleStartAccelerometerCmd(m: Message) returns (outcome: Outcome)
      modifies this`reportAccel, this`reportTypes
      ensures !m.StartAccelerometerCmd? ==>
        outcome == Replied(WrongHandler(m.id)) && reportAccel == old(reportAccel) && reportTypes == old(reportTypes)
      ensures m.StartAccelerometerCmd? ==> reportAccel
      ensures m.StartAccelerometerCmd? && connected ==>
        outcome == Replied(Ok(m.id)) && reportTypes == old(reportTypes) + [(ButtonsAccel, true)]
      ensures m.StartAccelerometerCmd? && !connected ==>
        outcome == ThrewNullReference && reportTypes == old(reportTypes)
    {
      if !m.StartAccelerometerCmd? {
        return Replied(WrongHandler(m.id));
      }
      reportAccel := true;
      if !connected {
        return ThrewNullReference;
      }
      reportTypes := reportTypes + [(ButtonsAccel, true)];
      return Replied(Ok(m.id));
    }

    /**
     * `HandleStopAccelerometerCmd`: reporting off, and the remote back to
     * button reports. After `Disconnect` the flag is still cleared, and the
     * call on the dropped remote then throws.
     */
    method HandleStopAccelerometerCmd(m: Message) returns (outcome: Outcome)
      modifies this`reportAccel, this`reportTypes
      ensures !m.StopAccelerometerCmd? ==>
        outcome == Replied(WrongHandler(m.id)) && reportAccel == old(reportAccel) && reportTypes == old(reportTypes)
      ensures m.StopAccelerometerCmd? ==> !reportAccel
      ensures m.StopAccelerometerCmd? && connected ==>
        outcome == Replied(Ok(m.id)) && reportTypes == old(reportTypes) + [(Buttons, false)]
      ensures m.StopAccelerometerCmd? && !connected ==>
        outcome == ThrewNullReference && reportTypes == old(reportTypes)
    {
      if !m.StopAccelerometerCmd? {
        return Replied(WrongHandler(m.id));
      }
      reportAccel := false;
      if !connected {
        return ThrewNullReference;
      }
      reportTypes := reportTypes + [(Buttons, false)];
      return Replied(Ok(m.id));
    }

    /**
     * `Disconnect`: rumble off, slot 0 zeroed, the remote dropped. A second
     * call throws on the dropped remote before it changes anything.
     */
    method Disconnect() returns (threw: bool)
      requires Valid()
      modifies speeds, this`connected, this`rumbles
      ensures Valid() && !connected
      ensures threw <==> !old(connected)
      ensures old(connected) ==> speeds[..] == [0.0] && rumbles == old(rumbles) + [false]
      ensures !old(connected) ==> speeds[..] == old(speeds[..]) && rumbles == old(rumbles)
    {
      if !connected {
        return true;
      }
      rumbles := rumbles + [false];
      speeds[0] := 0.0;
      connected := false;
      return false;
    }
  }

  /** Entries for motors other than 0 never matter: the slot ends as if only motor-0 entries were sent. */
  lemma {:induction false} OnlyMotorZeroCounts(slots: seq<real>, cmds: seq<VibrateSubcommand>)
    requires |slots| == VibratorCount
    ensures ApplySpeeds(slots, cmds) == ApplySpeeds(slots, Filter(cmds, (v: VibrateSubcommand) => v.index == 0))
    decreases |cmds|
  {
    var p := (v: VibrateSubcommand) => v.index == 0;
    if cmds != [] {
      var init, last := cmds[..|cmds| - 1], cmds[|cmds| - 1];
      assert cmds == init + [last];
      FilterAppend(init, [last], p);
      OnlyMotorZeroCounts(slots, init);
      ApplySpeedsAppend(slots, Filter(init, p), Filter([last], p));
      assert [last][1..] == [];
      if last.index == 0 {
        assert Filter([last], p) == [last];
        assert [last][..0] == [];
      } else {
        assert Filter([last], p) == [];
      }
    }
  }

  /**
   * A single-motor command sets the slot to the speed when it held a value
   * in [0, 1]; a stop then brings such a slot back to 0.
   */
  lemma SingleMotorSlot(slots: seq<real>, speed: real)
    requires |slots| == VibratorCount
    ensures ApplySpeeds(slots, AllMotors(VibratorCount, speed)) == [ClampByPrevious(slots[0], speed)]
    ensures 0.0 <= slots[0] <= 1.0 ==> ApplySpeeds(slots, AllMotors(VibratorCount, 0.0)) == [0.0]
  {
    var all := AllMotors(VibratorCount, speed);
    assert all == [VibrateSubcommand(0, speed)];
    assert all[..0] == [];
    var stop := AllMotors(VibratorCount, 0.0);
    assert stop == [VibrateSubcommand(0, 0.0)];
    assert stop[..0] == [];
  }

  /**
   * A fresh remote reports nothing until the accelerometer is started,
   * passes on the axes while it runs, and stops once it is stopped.
   */
  method AccelerometerSession(x: int, y: int, z: int, index: nat) returns (emitted: seq<Message>)
    ensures emitted == [AccelerometerData(x, y, z, index, SystemMsgId)]
  {
    var d := new WiiMoteDevice("0", index);
    d.HandleWiimoteChanged(x, y, z);
    var r1 := d.HandleStartAccelerometerCmd(StartAccelerometerCmd(index, 1));
    d.HandleWiimoteChanged(x, y, z);
    var r2 := d.HandleStopAccelerometerCmd(StopAccelerometerCmd(index, 2));
    d.HandleWiimoteChanged(x, y, z);
    emitted := d.emitted;
  }
}
