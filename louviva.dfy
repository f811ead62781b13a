/**
 * The Louviva (Belle) vibrator driver of the server's Bluetooth layer. It
 * keeps the last speed it sent and writes only when a command moves that
 * speed by more than a tolerance.
 *
 * `Convert.ToByte(Convert.ToUInt16(speed * 256))` is an input function
 * `toSpeedByte`; what the Bluetooth write answers is an input `writeReply`.
 * The message checks the handlers begin with (`CheckMessageHandler`,
 * `CheckGenericMessageHandler`) throw for a message of another kind; their
 * code is not part of this model, so the handlers require the kind they
 * check for.
 */
module Louviva {
  import opened Common

  /** Keys of the device info's characteristic dictionary. */
  const Cmd: nat := 0
  const Tx: nat := 1

  const Names: seq<string> := ["Belle"]

  /** The change of speed a command must exceed to be written. */
  const SpeedTolerance: real := 0.001

  /** The bytes the initialization writes. */
  const InitPayload: seq<byte> := [0x09, 0xb7]

  /** The handler table: single-motor, VibrateCmd with one feature, and stop. */
  function LouvivaTable(): (t: HandlerTable)
    ensures t.Keys == {SingleMotorVibrateCmdType, VibrateCmdType, StopDeviceCmdType}
    ensures t[SingleMotorVibrateCmdType] == NoAttributes && t[StopDeviceCmdType] == NoAttributes
    ensures t[VibrateCmdType] == FeatureCount(1)
  {
    map[SingleMotorVibrateCmdType := NoAttributes][VibrateCmdType := FeatureCount(1)][StopDeviceCmdType := NoAttributes]
  }

  /**
   * The stored speed and the `changed` flag after a VibrateCmd's entries:
   * each entry that differs from the speed stored so far by more than the
   * tolerance replaces it and sets the flag.
   */
  function TrackSpeed(stored: real, cmds: seq<VibrateSubcommand>): (r: (real, bool))
    ensures !r.1 ==> r.0 == stored
    ensures r.1 ==> exists i :: 0 <= i < |cmds| && r.0 == cmds[i].speed
  {
    if cmds == [] then (stored, false)
    else
      var before := TrackSpeed(stored, cmds[..|cmds| - 1]);
      var v := cmds[|cmds| - 1];
      if Abs(v.speed - before.0) > SpeedTolerance then (v.speed, true) else before
  }

  /** The entry at position i moves the speed stored when it is reached. */
  predicate ChangesAt(stored: real, cmds: seq<VibrateSubcommand>, i: nat)
    requires i < |cmds|
  {
    Abs(cmds[i].speed - TrackSpeed(stored, cmds[..i]).0) > SpeedTolerance
  }

  /**
   * The flag is set exactly when some entry differs by more than the
   * tolerance from the speed stored when it is reached.
   */
  lemma {:induction false} ChangedExactly(stored: real, cmds: seq<VibrateSubcommand>)
    ensures TrackSpeed(stored, cmds).1 <==> exists i :: 0 <= i < |cmds| && ChangesAt(stored, cmds, i)
  {
    if cmds != [] {
      var n := |cmds| - 1;
      var init := cmds[..n];
      ChangedExactly(stored, init);
      assert cmds[..n] == init;
      forall i | 0 <= i < n
        ensures ChangesAt(stored, cmds, i) == ChangesAt(stored, init, i)
      {
        assert cmds[..i] == init[..i];
      }
      if TrackSpeed(stored, cmds).1 {
        if !ChangesAt(stored, cmds, n) {
          var i :| 0 <= i < n && ChangesAt(stored, init, i);
          assert ChangesAt(stored, cmds, i);
        }
      }
    }
  }

  /** One entry changes the stored speed exactly when it is beyond the tolerance. */
  lemma TrackOne(stored: real, v: VibrateSubcommand)
    ensures TrackSpeed(stored, [v]) == if Abs(v.speed - stored) > SpeedTolerance then (v.speed, true) else (stored, false)
  {
    assert [v][..0] == [];
  }

  /** Sending the same single-entry command twice writes at most once: the second one changes nothing. */
  lemma RepeatIsSilent(stored: real, v: VibrateSubcommand)
    ensures var after := TrackSpeed(stored, [v]).0;
      TrackSpeed(after, [v]) == (after, false)
  {
    TrackOne(stored, v);
    TrackOne(TrackSpeed(stored, [v]).0, v);
  }

  class LouvivaDevice {
    const name: string
    var table: HandlerTable
    /** `_vibratorSpeed`. */
    var vibratorSpeed: real
    var writes: seq<Write>

    constructor (interfaceName: string)
      ensures name == "Louviva " + interfaceName && table == LouvivaTable()
      ensures vibratorSpeed == 0.0 && writes == []
    {
      name := "Louviva " + interfaceName;
      vibratorSpeed := 0.0;
      writes := [];
      table := map[];
      new;
      table := table[SingleMotorVibrateCmdType := NoAttributes];
      table := table[VibrateCmdType := FeatureCount(1)];
      table := table[StopDeviceCmdType := NoAttributes];
    }

    /** `InitializeAsync`: the two initialization bytes to Cmd, without response, under the system id. */
    method Initialize(writeReply: Message) returns (reply: Message)
      modifies this`writes
      ensures reply == writeReply && writes == old(writes) + [Write(SystemMsgId, Chr(Cmd), InitPayload, false)]
    {
      writes := writes + [Write(SystemMsgId, Chr(Cmd), InitPayload, false)];
      return writeReply;
    }

    /**
     * `HandleVibrateCmd`: the stored speed follows the entries; when none
     * moved it, the command is acknowledged without a write, otherwise the
     * new speed is written as one byte to Tx and the write's answer returned.
     */
    method HandleVibrateCmd(m: Message, toSpeedByte: real -> byte, writeReply: Message) returns (reply: Message)
      requires m.VibrateCmd?
      modifies this`vibratorSpeed, this`writes
      ensures var t := TrackSpeed(old(vibratorSpeed), m.speeds);
        && vibratorSpeed == t.0
        && (!t.1 ==> reply == Ok(m.id) && writes == old(writes))
        && (t.1 ==> reply == writeReply && writes == old(writes) + [Write(m.id, Chr(Tx), [toSpeedByte(t.0)], false)])
    {
      var changed := false;
      var i := 0;
      while i < |m.speeds|
        invariant 0 <= i <= |m.speeds|
        invariant (vibratorSpeed, changed) == TrackSpeed(old(vibratorSpeed), m.speeds[..i])
        invariant writes == old(writes)
      {
        assert m.speeds[..i + 1][..i] == m.speeds[..i];
        var v := m.speeds[i];
        if !(Abs(v.speed - vibratorSpeed) > SpeedTolerance) {
          i := i + 1;
          continue;
        }
        changed := true;
        vibratorSpeed := v.speed;
        i := i + 1;
      }
      assert m.speeds[..i] == m.speeds;
      if !changed {
        return Ok(m.id);
      }
      writes := writes + [Write(m.id, Chr(Tx), [toSpeedByte(vibratorSpeed)], false)];
      return writeReply;
    }

    /** `HandleSingleMotorVibrateCmd`: a one-feature VibrateCmd at the requested speed. */
    method HandleSingleMotorVibrateCmd(m: Message, toSpeedByte: real -> byte, writeReply: Message) returns (reply: Message)
      requires m.SingleMotorVibrateCmd?
      modifies this`vibratorSpeed, this`writes
      ensures !(Abs(m.speed - old(vibratorSpeed)) > SpeedTolerance) ==>
        reply == Ok(m.id) && vibratorSpeed == old(vibratorSpeed) && writes == old(writes)
      ensures Abs(m.speed - old(vibratorSpeed)) > SpeedTolerance ==>
        && reply == writeReply && vibratorSpeed == m.speed
        && writes == old(writes) + [Write(m.id, Chr(Tx), [toSpeedByte(m.speed)], false)]
    {
      TrackOne(vibratorSpeed, VibrateSubcommand(0, m.speed));
      reply := HandleVibrateCmd(VibrateCmd(m.deviceIndex, OneMotor(m.speed), m.id), toSpeedByte, writeReply);
    }

    /** `HandleStopDeviceCmd`: a single-motor command at speed 0. */
    method HandleStopDeviceCmd(m: Message, toSpeedByte: real -> byte, writeReply: Message) returns (reply: Message)
      requires IsDeviceMessage(m)
      modifies this`vibratorSpeed, this`writes
      ensures !(Abs(old(vibratorSpeed)) > SpeedTolerance) ==>
        reply == Ok(m.id) && vibratorSpeed == old(vibratorSpeed) && writes == old(writes)
      ensures Abs(old(vibratorSpeed)) > SpeedTolerance ==>
        && reply == writeReply && vibratorSpeed == 0.0
        && writes == old(writes) + [Write(m.id, Chr(Tx), [toSpeedByte(0.0)], false)]
    {
      reply := HandleSingleMotorVibrateCmd(SingleMotorVibrateCmd(m.deviceIndex, 0.0, m.id), toSpeedByte, writeReply);
    }
  }
}
