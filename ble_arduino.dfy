/**
 * The BLE Arduino driver: a single characteristic serves for both
 * directions, and a speed is written as decimal text ending in a newline.
 *
 * The truncating cast `(int)(speed * 256)` is an input function `toInt`;
 * what the Bluetooth write answers is an input `writeReply`.
 */
module BLEArduino {
  import opened Common

  /** Positions in the device info's characteristic list: receive and send share the first. */
  const Rx: nat := 0
  const Tx: nat := 0

  /** The names this driver answers to: the empty name. */
  const Names: seq<string> := [""]

  /** The handler table: single-motor and stop, without attributes. */
  function ArduinoTable(): (t: HandlerTable)
    ensures t.Keys == {SingleMotorVibrateCmdType, StopDeviceCmdType}
    ensures t[SingleMotorVibrateCmdType] == NoAttributes && t[StopDeviceCmdType] == NoAttributes
  {
    map[SingleMotorVibrateCmdType := NoAttributes][StopDeviceCmdType := NoAttributes]
  }

  /** The bytes of a speed: its decimal numeral, then '\n'. */
  function SpeedPayload(speed: int): (r: seq<byte>)
    ensures |r| >= 2 && r[|r| - 1] == 0x0A
  {
    Ascii(IntToDecimal(speed) + "\n")
  }

  /** The magnitude of a speed, whose digits the payload carries. */
  function Magnitude(speed: int): nat {
    if speed < 0 then -speed else speed
  }

  /** The payload is an optional '-', the ASCII digits of the magnitude, and a newline. */
  lemma SpeedPayloadShape(speed: int)
    ensures SpeedPayload(speed) == (if speed < 0 then [0x2D] else []) + Ascii(NatToDecimal(Magnitude(speed))) + [0x0A]
  {
    var digits := NatToDecimal(Magnitude(speed));
    AsciiAppend(digits, "\n");
    if speed < 0 {
      assert IntToDecimal(speed) + "\n" == "-" + (digits + "\n");
      AsciiAppend("-", digits + "\n");
    }
  }

  /**
   * The payload ends in a newline; before it stand the digits of the speed,
   * after a '-' exactly when it is negative, and they read back as the
   * magnitude of the speed.
   */
  lemma SpeedPayloadRoundTrip(speed: int)
    ensures var p := SpeedPayload(speed);
      var start := if speed < 0 then 1 else 0;
      && |p| >= start + 2 && p[|p| - 1] == 0x0A
      && (p[0] == 0x2D <==> speed < 0)
      && (forall i :: start <= i < |p| - 1 ==> 0x30 <= p[i] <= 0x39)
      && DigitBytesValue(p[start..|p| - 1]) == Magnitude(speed)
  {
    SpeedPayloadShape(speed);
    var d := Ascii(NatToDecimal(Magnitude(speed)));
    AsciiDecimalRoundTrip(Magnitude(speed));
    DigitsBetween(SpeedPayload(speed), if speed < 0 then [0x2D] else [], d);
  }

  /** A payload laid out as a prefix, a run of digit bytes and a newline. */
  lemma DigitsBetween(p: seq<byte>, pre: seq<byte>, d: seq<byte>)
    requires p == pre + d + [0x0A] && |d| >= 1
    requires forall j :: 0 <= j < |d| ==> 0x30 <= d[j] <= 0x39
    ensures |p| >= |pre| + 2 && p[|p| - 1] == 0x0A && p[|pre|..|p| - 1] == d
    ensures forall i :: |pre| <= i < |p| - 1 ==> 0x30 <= p[i] <= 0x39
    ensures pre == [] ==> 0x30 <= p[0] <= 0x39
  {
    assert p[|pre|..|p| - 1] == d;
    forall i | |pre| <= i < |p| - 1
      ensures 0x30 <= p[i] <= 0x39
    {
      assert p[i] == d[i - |pre|];
    }
  }

  /** Different speeds are written as different payloads. */
  lemma SpeedPayloadInjective(a: int, b: int)
    requires SpeedPayload(a) == SpeedPayload(b)
    ensures a == b
  {
    SpeedPayloadRoundTrip(a);
    SpeedPayloadRoundTrip(b);
  }

  class BLEArduinoDevice {
    const name: string
    var table: HandlerTable
    var writes: seq<Write>

    constructor (interfaceName: string)
      ensures name == "BLEArduino " + interfaceName && table == ArduinoTable() && writes == []
    {
      name := "BLEArduino " + interfaceName;
      writes := [];
      table := map[];
      new;
      table := table[SingleMotorVibrateCmdType := NoAttributes];
      table := table[StopDeviceCmdType := NoAttributes];
    }

    /** `HandleStopDeviceCmd`: acknowledged without a write. */
    method HandleStopDeviceCmd(m: Message) returns (reply: Message)
      requires IsDeviceMessage(m)
      modifies this`writes
      ensures reply == Ok(m.id) && writes == old(writes)
    {
      return Ok(m.id);
    }

    /** `HandleBluePlugRawCmd`: the speed scaled to 0..256 as text, to Tx. */
    method HandleBluePlugRawCmd(m: Message, toInt: real -> int, writeReply: Message) returns (reply: Message)
      modifies this`writes
      ensures !m.SingleMotorVibrateCmd? ==> reply == WrongHandler(m.id) && writes == old(writes)
      ensures m.SingleMotorVibrateCmd? ==>
        reply == writeReply && writes == old(writes) + [Write(m.id, Chr(Tx), SpeedPayload(toInt(m.speed * 256.0)), false)]
    {
      if !m.SingleMotorVibrateCmd? {
        return WrongHandler(m.id);
      }
      var speed := toInt(m.speed * 256.0);
      writes := writes + [Write(m.id, Chr(Tx), SpeedPayload(speed), false)];
      return writeReply;
    }
  }
}
