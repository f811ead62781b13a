/**
 * The fake device and fake device manager the client tests run the server
 * with. The device keeps two motor speeds, V1 and V2; the manager keeps a
 * list of devices and a scanning flag, and raises events the tests watch.
 *
 * Events are recorded as what they carry: the devices announced by
 * DeviceAdded, a count of ScanningFinished and, per device, a count of
 * DeviceRemoved.
 */
module ClientTest {
  import opened Common

  /** The handler table: single-motor, VibrateCmd with two features, and stop. */
  function TestDeviceTable(): (t: HandlerTable)
    ensures t.Keys == {SingleMotorVibrateCmdType, VibrateCmdType, StopDeviceCmdType}
    ensures t[SingleMotorVibrateCmdType] == NoAttributes && t[StopDeviceCmdType] == NoAttributes
    ensures t[VibrateCmdType] == FeatureCount(2)
  {
    map[SingleMotorVibrateCmdType := NoAttributes][VibrateCmdType := FeatureCount(2)][StopDeviceCmdType := NoAttributes]
  }

  /** The speed of the last entry for motor k, or d when there is none. */
  function LastFor(cmds: seq<VibrateSubcommand>, k: nat, d: real): real {
    if cmds == [] then d
    else if cmds[|cmds| - 1].index == k then cmds[|cmds| - 1].speed
    else LastFor(cmds[..|cmds| - 1], k, d)
  }

  /**
   * Without an entry for motor k the speed stays d; otherwise it is the
   * speed of the last entry for k.
   */
  lemma {:induction false} LastForMeaning(cmds: seq<VibrateSubcommand>, k: nat, d: real)
    ensures (forall i :: 0 <= i < |cmds| ==> cmds[i].index != k) ==> LastFor(cmds, k, d) == d
    ensures (exists i :: 0 <= i < |cmds| && cmds[i].index == k) ==>
      exists i :: 0 <= i < |cmds| && cmds[i].index == k && LastFor(cmds, k, d) == cmds[i].speed
        && forall j :: i < j < |cmds| ==> cmds[j].index != k
  {
    if cmds != [] {
      var n := |cmds| - 1;
      var init := cmds[..n];
      LastForMeaning(init, k, d);
      if cmds[n].index != k {
        if forall i :: 0 <= i < |cmds| ==> cmds[i].index != k {
          assert forall i :: 0 <= i < n ==> init[i].index != k;
        } else {
          var i0 :| 0 <= i0 < |cmds| && cmds[i0].index == k;
          assert init[i0].index == k;
          var i :| 0 <= i < n && init[i].index == k && LastFor(init, k, d) == init[i].speed
            && forall j :: i < j < n ==> init[j].index != k;
          assert cmds[i] == init[i];
        }
      }
    }
  }

  /** Entries for other motors never matter: only the entries for motor k decide its speed. */
  lemma {:induction false} LastForOnlyItsMotor(cmds: seq<VibrateSubcommand>, k: nat, d: real)
    ensures LastFor(cmds, k, d) == LastFor(Filter(cmds, (v: VibrateSubcommand) => v.index == k), k, d)
  {
    var p := (v: VibrateSubcommand) => v.index == k;
    if cmds != [] {
      var init, last := cmds[..|cmds| - 1], cmds[|cmds| - 1];
      assert cmds == init + [last];
      FilterAppend(init, [last], p);
      LastForOnlyItsMotor(init, k, d);
      assert [last][1..] == [];
      var kept := Filter(init, p);
      if last.index == k {
        assert Filter([last], p) == [last];
        assert (kept + [last])[..|kept|] == kept;
      } else {
        assert Filter([last], p) == [];
        assert kept + [] == kept;
      }
    }
  }

  /** A single-motor command's entries set both motors to its speed. */
  lemma BothMotors(speed: real, d1: real, d2: real)
    ensures LastFor(AllMotors(2, speed), 0, d1) == speed
    ensures LastFor(AllMotors(2, speed), 1, d2) == speed
  {
    var all := AllMotors(2, speed);
    assert all == [VibrateSubcommand(0, speed), VibrateSubcommand(1, speed)];
    assert all[..1] == [VibrateSubcommand(0, speed)];
  }

  class TestDevice {
    const name: string
    const identifier: string
    var table: HandlerTable
    var v1: real
    var v2: real
    /** How many DeviceRemoved events the device raised. */
    var removedEvents: nat

    constructor (name: string, identifier: string)
      ensures this.name == name && this.identifier == identifier && table == TestDeviceTable()
      ensures v1 == 0.0 && v2 == 0.0 && removedEvents == 0
    {
      this.name := name;
      this.identifier := identifier;
      v1 := 0.0;
      v2 := 0.0;
      removedEvents := 0;
      table := map[];
      new;
      table := table[SingleMotorVibrateCmdType := NoAttributes];
      table := table[VibrateCmdType := FeatureCount(2)];
      table := table[StopDeviceCmdType := NoAttributes];
    }

    /** `HandleStopDeviceCmd`: both motors to 0. */
    method HandleStopDeviceCmd(m: Message) returns (reply: Message)
      requires IsDeviceMessage(m)
      modifies this`v1, this`v2
      ensures reply == Ok(m.id) && v1 == 0.0 && v2 == 0.0
    {
      v1, v2 := 0.0, 0.0;
      return Ok(m.id);
    }

    /**
     * `HandleVibrateCmd`: entries for motor 0 set V1, entries for motor 1
     * set V2, others are skipped, in order. The errors built for a wrong
     * number of entries or a bad index are discarded, so every VibrateCmd
     * is acknowledged.
     */
    method HandleVibrateCmd(m: Message) returns (reply: Message)
      modifies this`v1, this`v2
      ensures !m.VibrateCmd? ==> reply == WrongHandler(m.id) && v1 == old(v1) && v2 == old(v2)
      ensures m.VibrateCmd? ==>
        reply == Ok(m.id) && v1 == LastFor(m.speeds, 0, old(v1)) && v2 == LastFor(m.speeds, 1, old(v2))
    {
      if !m.VibrateCmd? {
        return WrongHandler(m.id);
      }
      var i := 0;
      while i < |m.speeds|
        invariant 0 <= i <= |m.speeds|
        invariant v1 == LastFor(m.speeds[..i], 0, old(v1)) && v2 == LastFor(m.speeds[..i], 1, old(v2))
      {
        assert m.speeds[..i + 1][..i] == m.speeds[..i];
        var vi := m.speeds[i];
        if vi.index == 0 {
          v1 := vi.speed;
        } else if vi.index == 1 {
          v2 := vi.speed;
        }
        i := i + 1;
      }
      assert m.speeds[..i] == m.speeds;
      return Ok(m.id);
    }

    /** `HandleSingleMotorVibrateCmd`: a VibrateCmd with one entry per motor, both at the requested speed. */
    method HandleSingleMotorVibrateCmd(m: Message) returns (reply: Message)
      modifies this`v1, this`v2
      ensures !m.SingleMotorVibrateCmd? ==> reply == WrongHandler(m.id) && v1 == old(v1) && v2 == old(v2)
      ensures m.SingleMotorVibrateCmd? ==> reply == Ok(m.id) && v1 == m.speed && v2 == m.speed
    {
      if !m.SingleMotorVibrateCmd? {
        return WrongHandler(m.id);
      }
      var speeds: seq<VibrateSubcommand> := [];
      var i := 0;
      while i < 2
        invariant 0 <= i <= 2
        invariant speeds == AllMotors(i, m.speed)
      {
        speeds := speeds + [VibrateSubcommand(i, m.speed)];
        i := i + 1;
      }
      BothMotors(m.speed, v1, v2);
      reply := HandleVibrateCmd(VibrateCmd(m.deviceIndex, speeds, m.id));
    }

    /** `Disconnect`: raises DeviceRemoved. */
    method Disconnect()
      modifies this`removedEvents
      ensures removedEvents == old(removedEvents) + 1
    {
      removedEvents := removedEvents + 1;
    }
  }

  /** `List.Find` by identifier: the position of the first device with that identifier. */
  function FindByIdentifier(devices: seq<TestDevice>, identifier: string): (r: Option<nat>)
    ensures r.Some? ==>
      && r.value < |devices| && devices[r.value].identifier == identifier
      && forall j :: 0 <= j < r.value ==> devices[j].identifier != identifier
    ensures r.None? ==> forall j :: 0 <= j < |devices| ==> devices[j].identifier != identifier
  {
    if devices == [] then None
    else if devices[0].identifier == identifier then Some(0)
    else match FindByIdentifier(devices[1..], identifier)
      case None => None
      case Some(k) => Some(k + 1)
  }

  /** The position found for an identifier is the first position of that device: nothing before it is that device. */
  lemma FoundIsFirstOccurrence(devices: seq<TestDevice>, identifier: string)
    requires FindByIdentifier(devices, identifier).Some?
    ensures var k := FindByIdentifier(devices, identifier).value;
      forall j :: 0 <= j < k ==> devices[j] != devices[k]
  {
  }

  class TestDeviceManager {
    var devices: seq<TestDevice>
    var scanning: bool
    /** The devices DeviceAdded announced, in order. */
    var addedEvents: seq<TestDevice>
    /** How many ScanningFinished events the manager raised. */
    var finishedEvents: nat

    constructor ()
      ensures devices == [] && !scanning && addedEvents == [] && finishedEvents == 0
    {
      devices := [];
      scanning := false;
      addedEvents := [];
      finishedEvents := 0;
    }

    function IsScanning(): (r: bool)
      reads this
      ensures r == scanning
    {
      scanning
    }

    method StartScanning()
      modifies this`scanning
      ensures scanning
    {
      scanning := true;
    }

    /** `StopScanning`: the flag cleared and ScanningFinished raised. */
    method StopScanning()
      modifies this`scanning, this`finishedEvents
      ensures !scanning && finishedEvents == old(finishedEvents) + 1
    {
      scanning := false;
      finishedEvents := finishedEvents + 1;
    }

    /** `AddDevice`: always appended; announced exactly when `raise` is set. */
    method AddDevice(dev: TestDevice, raise: bool)
      modifies this`devices, this`addedEvents
      ensures devices == old(devices) + [dev]
      ensures addedEvents == old(addedEvents) + (if raise then [dev] else [])
    {
      devices := devices + [dev];
      if raise {
        addedEvents := addedEvents + [dev];
      }
    }

    /**
     * `RemoveDevice`: the first listed device with the same identifier is
     * disconnected, which raises its DeviceRemoved, and taken out of the
     * list; with none, nothing happens.
     */
    method RemoveDevice(dev: TestDevice)
      modifies this`devices, devices`removedEvents
      ensures forall d :: d in old(devices) ==> d.v1 == old(d.v1) && d.v2 == old(d.v2) && d.table == old(d.table)
      ensures FindByIdentifier(old(devices), dev.identifier).None? ==> devices == old(devices)
      ensures FindByIdentifier(old(devices), dev.identifier).None? ==>
        forall d :: d in old(devices) ==> d.removedEvents == old(d.removedEvents)
      ensures FindByIdentifier(old(devices), dev.identifier).Some? ==>
        var k := FindByIdentifier(old(devices), dev.identifier).value;
        var found := old(devices)[k];
        && devices == old(devices)[..k] + old(devices)[k + 1..]
        && found.removedEvents == old(found.removedEvents) + 1
        && forall d :: d in old(devices) && d != found ==> d.removedEvents == old(d.removedEvents)
    {
      var found := FindByIdentifier(devices, dev.identifier);
      if found.None? {
        return;
      }
      var k := found.value;
      var d2 := devices[k];
      d2.Disconnect();
      FoundIsFirstOccurrence(devices, dev.identifier);
      devices := devices[..k] + devices[k + 1..];
    }
  }

  /**
   * The device part of the connection test: a device added without the
   * event is not announced, one added with it is; ScanningFinished comes
   * only with StopScanning; removing by a new device with the same
   * identifier disconnects the listed one and leaves the other.
   */
  method ScanScenario() returns (announced: seq<string>, finishedWhileScanning: nat, finished: nat,
                                 listed: seq<string>, removed: nat)
    ensures announced == ["B"] && finishedWhileScanning == 0 && finished == 1
    ensures listed == ["A"] && removed == 1
  {
    var manager := new TestDeviceManager();
    manager.StartScanning();
    var a := new TestDevice("A", "1");
    manager.AddDevice(a, false);
    var b := new TestDevice("B", "2");
    manager.AddDevice(b, true);
    announced := [manager.addedEvents[0].name];
    finishedWhileScanning := manager.finishedEvents;
    manager.StopScanning();
    finished := manager.finishedEvents;
    var b2 := new TestDevice("B", "2");
    assert manager.devices == [a, b];
    assert FindByIdentifier(manager.devices, "2") == Some(1);
    manager.RemoveDevice(b2);
    assert manager.devices == [a];
    listed := [manager.devices[0].name];
    removed := b.removedEvents;
  }
}
