/**
 * Values shared by every part of the model: an Option type, bytes, the
 * protocol's message kinds with their correlation ids, the error taxonomy,
 * device handler tables, outbound writes, and decimal/ASCII text as the C#
 * string interpolation and `Encoding.ASCII` produce it.
 */
module Common {

  datatype Option<+T> = None | Some(value: T)

  /** A C# `byte`. */
  type byte = x: int | 0 <= x < 256

  /** A C# `ushort`. */
  type ushort = x: int | 0 <= x < 0x1_0000

  /** The largest C# `uint` plus one: `(uint)` casts keep the value modulo this. */
  const UINT_RANGE: nat := 0x1_0000_0000

  /**
   * The protocol's error classes. The enum's declaration is not part of this
   * model; the three members used by the modelled code are listed in the
   * order the protocol documents them, with ERROR_UNKNOWN first.
   */
  datatype ErrorClass = ERROR_UNKNOWN | ERROR_MSG | ERROR_DEVICE

  /** `default(ErrorClass)`: the zero value of the enum, its first member. */
  const DefaultErrorClass: ErrorClass := ERROR_UNKNOWN

  /** One entry of a VibrateCmd. */
  datatype VibrateSubcommand = VibrateSubcommand(index: nat, speed: real)

  /**
   * One entry of a LinearCmd. The driver sources were written against two
   * versions of this message: one whose entries carry a duration, one whose
   * entries carry a speed; the record holds both.
   */
  datatype LinearVector = LinearVector(index: nat, duration: nat, position: real, speed: real)

  /** One row of a DeviceList reply. */
  datatype DeviceMessageInfo = DeviceMessageInfo(deviceIndex: nat, deviceName: string, deviceMessages: seq<string>)

  /** The wire messages the modelled code builds or consumes; `id` is the correlation number. */
  datatype Message =
    | Ok(id: nat)
    | Error(errorMessage: string, errorCode: ErrorClass, id: nat)
    | Test(testString: string, id: nat)
    | StartScanning(id: nat)
    | StopScanning(id: nat)
    | RequestDeviceList(id: nat)
    | DeviceList(devices: seq<DeviceMessageInfo>, id: nat)
    | DeviceAdded(deviceIndex: nat, deviceName: string, deviceMessages: seq<string>, id: nat)
    | DeviceRemoved(deviceIndex: nat, id: nat)
    | StopAllDevices(id: nat)
    | StopDeviceCmd(deviceIndex: nat, id: nat)
    | SingleMotorVibrateCmd(deviceIndex: nat, speed: real, id: nat)
    | VibrateCmd(deviceIndex: nat, speeds: seq<VibrateSubcommand>, id: nat)
    | LinearCmd(deviceIndex: nat, vectors: seq<LinearVector>, id: nat)
    | FleshlightLaunchFW12Cmd(deviceIndex: nat, fwSpeed: nat, fwPosition: nat, id: nat)
    | KiirooCmd(deviceIndex: nat, position: nat, id: nat)
    | KiirooRawCmd(deviceIndex: nat, position: nat, id: nat)
    | VorzeA10CycloneCmd(deviceIndex: nat, rotation: nat, clockwise: bool, id: nat)
    | StartAccelerometerCmd(deviceIndex: nat, id: nat)
    | StopAccelerometerCmd(deviceIndex: nat, id: nat)
    | StartMovementCmd(deviceIndex: nat, id: nat)
    | StopMovementCmd(deviceIndex: nat, id: nat)
    | AccelerometerData(x: int, y: int, z: int, deviceIndex: nat, id: nat)
    | MovementData(x: int, y: int, z: int, sensor: nat, deviceIndex: nat, id: nat)

  /** The system id, used for messages nobody asked for. */
  const SystemMsgId: nat := 0

  /** Device messages are the ones that carry a DeviceIndex for routing. */
  predicate IsDeviceMessage(m: Message) {
    m.StopDeviceCmd? || m.SingleMotorVibrateCmd? || m.VibrateCmd? || m.LinearCmd? ||
    m.FleshlightLaunchFW12Cmd? || m.KiirooCmd? || m.KiirooRawCmd? || m.VorzeA10CycloneCmd? ||
    m.StartAccelerometerCmd? || m.StopAccelerometerCmd? || m.StartMovementCmd? || m.StopMovementCmd?
  }

  /** The C# class name of a message, as `GetType().Name` gives it and handler tables are keyed by. */
  function KindName(m: Message): string {
    match m
    case Ok(_) => "Ok"
    case Error(_, _, _) => "Error"
    case Test(_, _) => "Test"
    case StartScanning(_) => "StartScanning"
    case StopScanning(_) => "StopScanning"
    case RequestDeviceList(_) => "RequestDeviceList"
    case DeviceList(_, _) => "DeviceList"
    case DeviceAdded(_, _, _, _) => "DeviceAdded"
    case DeviceRemoved(_, _) => "DeviceRemoved"
    case StopAllDevices(_) => "StopAllDevices"
    case StopDeviceCmd(_, _) => "StopDeviceCmd"
    case SingleMotorVibrateCmd(_, _, _) => "SingleMotorVibrateCmd"
    case VibrateCmd(_, _, _) => "VibrateCmd"
    case LinearCmd(_, _, _) => "LinearCmd"
    case FleshlightLaunchFW12Cmd(_, _, _, _) => "FleshlightLaunchFW12Cmd"
    case KiirooCmd(_, _, _) => "KiirooCmd"
    case KiirooRawCmd(_, _, _) => "KiirooRawCmd"
    case VorzeA10CycloneCmd(_, _, _, _) => "VorzeA10CycloneCmd"
    case StartAccelerometerCmd(_, _) => "StartAccelerometerCmd"
    case StopAccelerometerCmd(_, _) => "StopAccelerometerCmd"
    case StartMovementCmd(_, _) => "StartMovementCmd"
    case StopMovementCmd(_, _) => "StopMovementCmd"
    case AccelerometerData(_, _, _, _, _) => "AccelerometerData"
    case MovementData(_, _, _, _, _, _) => "MovementData"
  }

  /** The reply every handler gives a message of a kind it does not handle. */
  function WrongHandler(id: nat): Message {
    Error("Wrong Handler", ERROR_DEVICE, id)
  }

  /**
   * The attributes a device negotiates for one message kind: none, a
   * FeatureCount, or (in the older drivers) a string-to-string dictionary.
   */
  datatype MessageAttributes =
    | NoAttributes
    | FeatureCount(count: nat)
    | StringAttributes(entries: seq<(string, string)>)

  /** The device message classes a handler table is keyed by, as `typeof(...)` names them. */
  datatype MsgType =
    | StopDeviceCmdType | SingleMotorVibrateCmdType | VibrateCmdType | LinearCmdType
    | FleshlightLaunchFW12CmdType | KiirooCmdType | KiirooRawCmdType | VorzeA10CycloneCmdType
    | StartAccelerometerCmdType | StopAccelerometerCmdType | StartMovementCmdType | StopMovementCmdType

  /**
   * What a handler gives its caller: a reply, or the NullReferenceException
   * it throws (a call on a dropped object, or a member read through a failed
   * `as` cast).
   */
  datatype Outcome = Replied(reply: Message) | ThrewNullReference

  /**
   * A device's `MsgFuncs`: the attributes registered for each message class
   * it handles. Each `MsgFuncs.Add` adds a class not yet present.
   */
  type HandlerTable = map<MsgType, MessageAttributes>

  /** A device-side endpoint: an index into the device info's characteristic list, or a named endpoint. */
  datatype Endpoint = Chr(index: nat) | Named(name: string)

  /** One outbound write to a device, as `WriteValue` receives it. */
  datatype Write = Write(id: nat, endpoint: Endpoint, data: seq<byte>, withResponse: bool)

  function Abs(x: real): real {
    if x < 0.0 then -x else x
  }

  // ---------------------------------------------------------------------
  // Decimal text, as `$"{n}"` writes an integer.

  function DigitChar(d: nat): (c: char)
    requires d < 10
    ensures '0' <= c <= '9'
  {
    ('0' as int + d) as char
  }

  predicate IsDigit(c: char) {
    '0' <= c <= '9'
  }

  predicate AllDigits(s: string) {
    forall i :: 0 <= i < |s| ==> IsDigit(s[i])
  }

  /** The shortest decimal numeral of a natural number. */
  function NatToDecimal(n: nat): (s: string)
    ensures |s| >= 1 && AllDigits(s)
    ensures s[0] == '0' <==> n == 0
    decreases n
  {
    if n < 10 then [DigitChar(n)] else NatToDecimal(n / 10) + [DigitChar(n % 10)]
  }

  /** The numeral of an integer: a leading '-' for negative values. */
  function IntToDecimal(i: int): (s: string)
    ensures |s| >= 1
    ensures s[0] == '-' <==> i < 0
  {
    if i < 0 then "-" + NatToDecimal(-i) else NatToDecimal(i)
  }

  /** The value a string of decimal digits denotes. */
  function DecimalValue(s: string): nat
    requires AllDigits(s)
  {
    if s == [] then 0 else DecimalValue(s[..|s| - 1]) * 10 + (s[|s| - 1] as int - '0' as int)
  }

  /** Reading back the numeral of n gives n: the formatter loses nothing. */
  lemma {:induction false} NatToDecimalRoundTrip(n: nat)
    ensures DecimalValue(NatToDecimal(n)) == n
    decreases n
  {
    if n >= 10 {
      var s := NatToDecimal(n);
      assert s[..|s| - 1] == NatToDecimal(n / 10);
      NatToDecimalRoundTrip(n / 10);
    }
  }

  /** Different numbers have different numerals. */
  lemma NatToDecimalInjective(m: nat, n: nat)
    requires NatToDecimal(m) == NatToDecimal(n)
    ensures m == n
  {
    NatToDecimalRoundTrip(m);
    NatToDecimalRoundTrip(n);
  }

  /** One character as `Encoding.ASCII` encodes it: its code below 128, '?' (0x3F) otherwise. */
  function AsciiByte(c: char): (b: byte)
    ensures c as int < 128 ==> b == c as int
    ensures c as int >= 128 ==> b == 0x3F
  {
    if c as int < 128 then c as int else 0x3F
  }

  /** `Encoding.ASCII.GetBytes`: one byte per character. */
  function Ascii(s: string): (r: seq<byte>)
    ensures |r| == |s|
    ensures forall i :: 0 <= i < |s| ==> r[i] == AsciiByte(s[i])
  {
    if s == [] then [] else [AsciiByte(s[0])] + Ascii(s[1..])
  }

  /** ASCII of a concatenation is the concatenation of the ASCII. */
  lemma {:induction false} AsciiAppend(s: string, t: string)
    ensures Ascii(s + t) == Ascii(s) + Ascii(t)
  {
    if s != [] {
      assert (s + t)[1..] == s[1..] + t;
      AsciiAppend(s[1..], t);
    }
  }

  /** The value of a run of ASCII digit bytes, most significant first. */
  function DigitBytesValue(bs: seq<byte>): nat
    requires forall i :: 0 <= i < |bs| ==> 0x30 <= bs[i] <= 0x39
  {
    if bs == [] then 0 else DigitBytesValue(bs[..|bs| - 1]) * 10 + (bs[|bs| - 1] - 0x30)
  }

  /** The ASCII bytes of a numeral are digit bytes, and they read back as the number. */
  lemma {:induction false} AsciiDecimalRoundTrip(n: nat)
    ensures forall i :: 0 <= i < |Ascii(NatToDecimal(n))| ==> 0x30 <= Ascii(NatToDecimal(n))[i] <= 0x39
    ensures DigitBytesValue(Ascii(NatToDecimal(n))) == n
    decreases n
  {
    if n >= 10 {
      var s := NatToDecimal(n);
      assert s == NatToDecimal(n / 10) + [DigitChar(n % 10)];
      AsciiAppend(NatToDecimal(n / 10), [DigitChar(n % 10)]);
      AsciiDecimalRoundTrip(n / 10);
      var bs := Ascii(s);
      assert bs[..|bs| - 1] == Ascii(NatToDecimal(n / 10));
    }
  }

  // ---------------------------------------------------------------------
  // `string.Join`

  /** The parts with the separator between neighbours. */
  function Join(sep: string, parts: seq<string>): (r: string)
    ensures parts == [] ==> r == ""
    ensures |parts| == 1 ==> r == parts[0]
    decreases |parts|
  {
    if parts == [] then ""
    else if |parts| == 1 then parts[0]
    else parts[0] + sep + Join(sep, parts[1..])
  }

  /**
   * The joined text starts with the first part, followed by the separator
   * when there is a second, and ends with the last part.
   */
  lemma {:induction false} JoinShape(sep: string, parts: seq<string>)
    requires |parts| >= 1
    ensures parts[0] <= Join(sep, parts)
    ensures |parts| >= 2 ==> parts[0] + sep <= Join(sep, parts)
    ensures var r, last := Join(sep, parts), parts[|parts| - 1];
      |last| <= |r| && r[|r| - |last|..] == last
    decreases |parts|
  {
    if |parts| >= 2 {
      JoinShape(sep, parts[1..]);
    }
  }

  /**
   * With a non-empty separator, the joined text is empty exactly when
   * there are no parts, or one part that is itself empty.
   */
  lemma JoinEmpty(sep: string, parts: seq<string>)
    requires sep != ""
    ensures Join(sep, parts) == "" <==> (parts == [] || parts == [""])
  {
    if |parts| >= 2 {
      assert |Join(sep, parts)| >= |sep|;
    } else if |parts| == 1 {
      assert parts == [parts[0]];
    }
  }

  // ---------------------------------------------------------------------
  // LINQ `Where`, and the per-motor fan-out of single-motor commands

  /** The elements satisfying p, in their order. */
  function Filter<T(!new)>(s: seq<T>, p: T -> bool): (r: seq<T>)
    ensures |r| <= |s|
    ensures forall x :: x in r <==> x in s && p(x)
  {
    if s == [] then [] else (if p(s[0]) then [s[0]] else []) + Filter(s[1..], p)
  }

  /** Filtering distributes over concatenation, so it keeps the order of what it keeps. */
  lemma {:induction false} FilterAppend<T(!new)>(a: seq<T>, b: seq<T>, p: T -> bool)
    ensures Filter(a + b, p) == Filter(a, p) + Filter(b, p)
  {
    if a == [] {
      assert a + b == b;
    } else {
      assert (a + b)[1..] == a[1..] + b;
      FilterAppend(a[1..], b, p);
    }
  }

  /** A filter that keeps everything is the identity; one that keeps nothing is empty. */
  lemma {:induction false} FilterAllOrNothing<T(!new)>(s: seq<T>, p: T -> bool)
    ensures (forall x :: x in s ==> p(x)) ==> Filter(s, p) == s
    ensures (forall x :: x in s ==> !p(x)) <==> Filter(s, p) == []
  {
    if s != [] {
      FilterAllOrNothing(s[1..], p);
      assert s == [s[0]] + s[1..];
    }
  }

  /** One vibrate entry per motor 0..n-1, all at the same speed. */
  function AllMotors(n: nat, speed: real): (r: seq<VibrateSubcommand>)
    ensures |r| == n
    ensures forall i :: 0 <= i < n ==> r[i] == VibrateSubcommand(i, speed)
  {
    if n == 0 then [] else AllMotors(n - 1, speed) + [VibrateSubcommand(n - 1, speed)]
  }

  /** A vibrate command to one motor, as `VibrateCmd.Create(index, id, speed, 1)` builds it. */
  function OneMotor(speed: real): (r: seq<VibrateSubcommand>)
    ensures r == AllMotors(1, speed)
  {
    [VibrateSubcommand(0, speed)]
  }

  /**
   * The speed a motor slot takes in the gamepad-style drivers: the clamp
   * looks at the slot's previous value, not at the requested one.
   */
  function ClampByPrevious(previous: real, requested: real): (r: real)
    ensures 0.0 <= previous <= 1.0 ==> r == requested
    ensures !(0.0 <= previous <= 1.0) ==> r == 0.0 || r == 1.0
  {
    if previous < 0.0 then 0.0 else if previous > 1.0 then 1.0 else requested
  }

  /**
   * The slots after a VibrateCmd's entries are applied in order: an entry
   * addressing a slot that exists replaces it by `ClampByPrevious`; other
   * entries are skipped.
   */
  function ApplySpeeds(slots: seq<real>, cmds: seq<VibrateSubcommand>): (r: seq<real>)
    ensures |r| == |slots|
  {
    if cmds == [] then slots
    else
      var before := ApplySpeeds(slots, cmds[..|cmds| - 1]);
      var v := cmds[|cmds| - 1];
      if v.index < |before| then before[v.index := ClampByPrevious(before[v.index], v.speed)] else before
  }

  /** A slot no entry addresses keeps its value. */
  lemma {:induction false} ApplySpeedsUntouched(slots: seq<real>, cmds: seq<VibrateSubcommand>, j: nat)
    requires j < |slots|
    requires forall v :: v in cmds ==> v.index != j
    ensures ApplySpeeds(slots, cmds)[j] == slots[j]
  {
    if cmds != [] {
      assert forall v :: v in cmds[..|cmds| - 1] ==> v in cmds;
      ApplySpeedsUntouched(slots, cmds[..|cmds| - 1], j);
    }
  }

  /** Entries that address no slot change nothing. */
  lemma {:induction false} ApplySpeedsOutOfRange(slots: seq<real>, cmds: seq<VibrateSubcommand>)
    requires forall v :: v in cmds ==> v.index >= |slots|
    ensures ApplySpeeds(slots, cmds) == slots
  {
    if cmds != [] {
      assert forall v :: v in cmds[..|cmds| - 1] ==> v in cmds;
      ApplySpeedsOutOfRange(slots, cmds[..|cmds| - 1]);
    }
  }

  /** Applying two commands one after the other is applying their entries together. */
  lemma {:induction false} ApplySpeedsAppend(slots: seq<real>, a: seq<VibrateSubcommand>, b: seq<VibrateSubcommand>)
    ensures ApplySpeeds(slots, a + b) == ApplySpeeds(ApplySpeeds(slots, a), b)
    decreases |b|
  {
    if b == [] {
      assert a + b == a;
    } else {
      assert (a + b)[..|a + b| - 1] == a + b[..|b| - 1];
      ApplySpeedsAppend(slots, a, b[..|b| - 1]);
    }
  }

  /**
   * Every slot addressed exactly once ends at the requested speed when it
   * started in [0, 1], and at 0 or 1 when it started below or above.
   */
  lemma {:induction false} ApplySpeedsOnce(slots: seq<real>, cmds: seq<VibrateSubcommand>, k: nat)
    requires k < |cmds| && cmds[k].index < |slots|
    requires forall i :: 0 <= i < |cmds| && i != k ==> cmds[i].index != cmds[k].index
    ensures ApplySpeeds(slots, cmds)[cmds[k].index] == ClampByPrevious(slots[cmds[k].index], cmds[k].speed)
    decreases |cmds|
  {
    var j := cmds[k].index;
    var init := cmds[..|cmds| - 1];
    if k == |cmds| - 1 {
      forall v | v in init ensures v.index != j {
        var i :| 0 <= i < |init| && init[i] == v;
      }
      ApplySpeedsUntouched(slots, init, j);
    } else {
      ApplySpeedsOnce(slots, init, k);
    }
  }
}
