/**
 * The Kiiroo driver of the earlier UWP-only library: raw positions only,
 * written as text to the characteristic handed over at creation.
 *
 * GATT characteristics are numbered handles; `CreateDevice` looks them up
 * by UUID in the dictionary the platform discovered. What the write answers
 * is an input `writeReply`.
 */
module KiirooUwp {
  import opened Common
  import Kiiroo

  const Names: seq<string> := ["ONYX", "PEARL"]

  /** The characteristic UUIDs, send first, receive second. */
  const Characteristics: seq<string> := ["49535343-8841-43f4-a8d4-ecbe34729bb3", "49535343-1e4d-4bd9-ba61-23c647249616"]

  /** The handler table: only the raw position command. */
  function UwpTable(): (t: HandlerTable)
    ensures t.Keys == {KiirooRawCmdType} && t[KiirooRawCmdType] == NoAttributes
  {
    map[KiirooRawCmdType := NoAttributes]
  }

  /** The bytes of a raw position: its decimal numeral, then ",\n". */
  function RawPayload(position: nat): (r: seq<byte>)
    ensures |r| >= 3 && r[|r| - 2..] == [0x2C, 0x0A]
  {
    Ascii(NatToDecimal(position) + ",\n")
  }

  /** The payload is the one the server driver writes, with a newline after it. */
  lemma RawPayloadExtendsServer(position: nat)
    ensures RawPayload(position) == Kiiroo.PositionPayload(position) + [0x0A]
  {
    assert NatToDecimal(position) + ",\n" == (NatToDecimal(position) + ",") + "\n";
    AsciiAppend(NatToDecimal(position) + ",", "\n");
  }

  /** Different positions are written as different payloads. */
  lemma RawPayloadInjective(a: nat, b: nat)
    requires RawPayload(a) == RawPayload(b)
    ensures a == b
  {
    RawPayloadExtendsServer(a);
    RawPayloadExtendsServer(b);
    var pa, pb := Kiiroo.PositionPayload(a), Kiiroo.PositionPayload(b);
    assert pa == RawPayload(a)[..|pa|];
    Kiiroo.PositionPayloadRoundTrip(a);
    Kiiroo.PositionPayloadRoundTrip(b);
    assert |pa| == |pb|;
    assert pb == RawPayload(b)[..|pb|];
    Kiiroo.PositionPayloadInjective(a, b);
  }

  /** One write to a GATT characteristic. */
  datatype GattWrite = GattWrite(id: nat, characteristic: nat, data: seq<byte>)

  class KiirooUwpDevice {
    const name: string
    /** The characteristic written to, and the one read from. */
    const writeChr: nat
    const readChr: nat
    var table: HandlerTable
    var writes: seq<GattWrite>

    constructor (deviceName: string, writeChr: nat, readChr: nat)
      ensures name == "Kiiroo " + deviceName && this.writeChr == writeChr && this.readChr == readChr
      ensures table == UwpTable() && writes == []
    {
      name := "Kiiroo " + deviceName;
      this.writeChr := writeChr;
      this.readChr := readChr;
      writes := [];
      table := map[];
      new;
      table := table[KiirooRawCmdType := NoAttributes];
    }

    /**
     * `HandleKiirooRawCmd`: the position as text to the write characteristic.
     * Another kind of message is refused with a "Wrong Handler" error and no write.
     */
    method HandleKiirooRawCmd(m: Message, writeReply: Message) returns (reply: Message)
      modifies this`writes
      ensures !m.KiirooRawCmd? ==>
        reply.Error? && reply.errorMessage == "Wrong Handler" && reply.id == m.id && writes == old(writes)
      ensures m.KiirooRawCmd? ==>
        reply == writeReply && writes == old(writes) + [GattWrite(m.id, writeChr, RawPayload(m.position))]
    {
      if !m.KiirooRawCmd? {
        return Error("Wrong Handler", DefaultErrorClass, m.id);
      }
      writes := writes + [GattWrite(m.id, writeChr, RawPayload(m.position))];
      return writeReply;
    }
  }

  /**
   * `KiirooBluetoothInfo.CreateDevice`: the first UUID's characteristic is
   * written to, the second's read from. A UUID the platform did not find
   * makes the dictionary indexer throw KeyNotFoundException, and no device
   * is made (`None`).
   */
  method CreateDevice(deviceName: string, found: map<string, nat>) returns (d: Option<KiirooUwpDevice>)
    ensures d.Some? <==> Characteristics[0] in found && Characteristics[1] in found
    ensures d.Some? ==>
      && fresh(d.value) && d.value.name == "Kiiroo " + deviceName
      && d.value.writeChr == found[Characteristics[0]] && d.value.readChr == found[Characteristics[1]]
      && d.value.table == UwpTable() && d.value.writes == []
  {
    if Characteristics[0] !in found || Characteristics[1] !in found {
      return None;
    }
    var device := new KiirooUwpDevice(deviceName, found[Characteristics[0]], found[Characteristics[1]]);
    d := Some(device);
  }
}
