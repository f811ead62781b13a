/**
 * The Leten (Nico) vibrator driver: one 12-byte packet per speed, on the
 * single Tx characteristic.
 *
 * `Convert.ToByte` of the scaled speed is an input function `toByte`; what
 * the Bluetooth write answers is an input `writeReply`.
 */
module Leten {
  import opened Common

  const Names: seq<string> := ["F520A-LT"]

  /** `FriendlyNames`: the product name for each advertised name. */
  const FriendlyNames: map<string, string> := map["F520A-LT" := "Nico"]

  /**
   * The characteristic the write goes to: `MagicMotionBluetoothInfo.Chrs.Tx`,
   * taken to be the first entry as in every other driver's `Chrs` enum.
   */
  const Tx: nat := 0

  /** The packet every speed is sent in; byte 9 carries the speed. */
  const Template: seq<byte> := [0x0b, 0xff, 0x04, 0x0a, 0x32, 0x32, 0x00, 0x04, 0x08, 0x00, 0x64, 0x00]

  /** The handler table: single-motor and stop, without attributes. */
  function LetenTable(): (t: HandlerTable)
    ensures t.Keys == {SingleMotorVibrateCmdType, StopDeviceCmdType}
    ensures t[SingleMotorVibrateCmdType] == NoAttributes && t[StopDeviceCmdType] == NoAttributes
  {
    map[SingleMotorVibrateCmdType := NoAttributes][StopDeviceCmdType := NoAttributes]
  }

  /** The device's name; an advertised name missing from the dictionary makes the lookup throw. */
  function DeviceName(interfaceName: string): (n: string)
    requires interfaceName in FriendlyNames
    ensures interfaceName == "F520A-LT" ==> n == "Leten Device (Nico)"
  {
    "Leten Device (" + FriendlyNames[interfaceName] + ")"
  }

  /** The packet for a speed byte: the template with byte 9 replaced. */
  function Packet(speedByte: byte): (p: seq<byte>)
    ensures |p| == |Template| && p[9] == speedByte
    ensures forall i :: 0 <= i < |Template| && i != 9 ==> p[i] == Template[i]
  {
    Template[9 := speedByte]
  }

  /** The speed byte reads back from the packet, so different speed bytes give different packets. */
  lemma PacketInjective(a: byte, b: byte)
    requires Packet(a) == Packet(b)
    ensures a == b
  {
    assert Packet(a)[9] == a && Packet(b)[9] == b;
  }

  /** The packet for speed byte 0 is the template itself. */
  lemma StopPacketIsTemplate()
    ensures Packet(0) == Template
  {
    assert Template[9] == 0;
    assert forall i :: 0 <= i < |Template| ==> Packet(0)[i] == Template[i];
  }

  class LetenDevice {
    const name: string
    var table: HandlerTable
    var writes: seq<Write>

    constructor (interfaceName: string)
      requires interfaceName in FriendlyNames
      ensures name == DeviceName(interfaceName) && table == LetenTable() && writes == []
    {
      name := DeviceName(interfaceName);
      writes := [];
      table := map[];
      new;
      table := table[SingleMotorVibrateCmdType := NoAttributes];
      table := table[StopDeviceCmdType := NoAttributes];
    }

    /** `HandleSingleMotorVibrateCmd`: the packet for the speed scaled to 0..255, to Tx. */
    method HandleSingleMotorVibrateCmd(m: Message, toByte: real -> byte, writeReply: Message) returns (reply: Message)
      modifies this`writes
      ensures !m.SingleMotorVibrateCmd? ==> reply == WrongHandler(m.id) && writes == old(writes)
      ensures m.SingleMotorVibrateCmd? ==>
        reply == writeReply && writes == old(writes) + [Write(m.id, Chr(Tx), Packet(toByte(m.speed * 255.0)), false)]
    {
      if !m.SingleMotorVibrateCmd? {
        return WrongHandler(m.id);
      }
      var data := Template;
      data := data[9 := toByte(m.speed * 255.0)];
      writes := writes + [Write(m.id, Chr(Tx), data, false)];
      return writeReply;
    }

    /**
     * `HandleStopDeviceCmd`: the single-motor command at speed 0, whose
     * speed byte `Convert.ToByte(0.0)` is 0: the template goes out unchanged.
     */
    method HandleStopDeviceCmd(m: Message, toByte: real -> byte, writeReply: Message) returns (reply: Message)
      requires IsDeviceMessage(m) && toByte(0.0) == 0
      modifies this`writes
      ensures reply == writeReply && writes == old(writes) + [Write(m.id, Chr(Tx), Template, false)]
    {
      StopPacketIsTemplate();
      reply := HandleSingleMotorVibrateCmd(SingleMotorVibrateCmd(m.deviceIndex, 0.0, m.id), toByte, writeReply);
    }
  }
}
