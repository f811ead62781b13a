# Buttplug server core, modelled in Dafny

This project models the core of the Buttplug C# server: the device registry and
message router (`DeviceManager`), the BlueGiga Bluetooth LE manager (scan-response
parsing, UUID widening, the connect and service-discovery state machine, and the
seen-address rules), the per-device drivers (the handler table each builds in its
constructor, its command validation, its per-device state and the bytes it
writes), the QuadMouse serial-line reader, the fake device and device manager the
client tests drive the server with, and the defensive copy of
`BluetoothResultWrapper`.

It has one module per source file:

- `Common` (common.dfy) holds the shared message and attribute types, the
  ASCII/decimal formatting, and the speed-slot update of the gamepad drivers.
- `DeviceManagement` (device_manager.dfy) is the registry, a class over a
  `map<nat, DeviceInfo>`.
- `BlueGigaGuid`, `BlueGigaAdvert`, `BlueGiga` and `BlueGigaManager` cover the
  BlueGiga manager.
- One module per driver, plus `QuadMouse`, `ClientTest` and `BluetoothResult`.

What state-changing code does is modelled as classes whose methods update their
fields. Their `ensures` tie the new state to specification functions, and the
lemmas beside those functions state what the source promises.

Conventions used throughout:

- Speeds and positions are `real`.
- Every conversion from a floating-point value to an integer or a byte is an
  input function, such as `toPosition`, `toByte` or `toUInt32`.
- Every write to a device is appended to a `writes` log. Every call on a
  sub-manager or simulator manager is appended to a `calls` log.
- What an asynchronous write answers is an input `writeReply`.
- The order in which the device registry's `Dictionary` enumerates its keys is
  an input `order` that must list each key once.
- The BlueGiga `Services` dictionary of an advertisement, and the manager's
  `_adapters` dictionary, are taken to enumerate in insertion order. Entries
  are only ever added to them, and for such a dictionary that is the order
  .NET's `Dictionary` gives. The next service to scan
  (Buttplug.Server.Managers.BlueGigaBluetoothManager/BlueGigaBluetoothManager.cs:379) therefore is the first unscanned one in the
  order the services were heard of.
- The device index is the low 32 bits of a counter that is never reset. It is
  the `uint` cast of `Interlocked.Increment` on a `long`.
- Where the C# would throw while parsing a scan response (a flags field of
  length 1, a UUID field too short for the `Guid` constructor) or on a
  `FriendlyNames` lookup of an unknown name, the model has a precondition.
- The other throws are modelled as outcomes: the `Outcome` value
  `ThrewNullReference` when `StopAllDevices` meets a device reply that is
  neither Ok nor Error (Buttplug/Core/DeviceManager.cs:133) and when a WiiMote
  handler calls a dropped remote; the `threw` result of
  `ATTClientGroupFoundEvent` for a UUID whose length is not 2, 4 or 16; `None`
  from the Kiiroo `CreateDevice` when a characteristic is missing from the
  platform's dictionary.
- Leten writes to `MagicMotionBluetoothInfo.Chrs.Tx`. That enum's file is not
  part of this model. The endpoint is taken to be characteristic 0, the first
  entry, as in every other driver's `Chrs` enum.
- The handlers whose first step is `CheckMessageHandler` require the message
  kind that check enforces. That check's code is not part of this model.

Quirks of the source that are modelled as written:

- `DeviceManager` bumps the index counter before it checks for a null or
  duplicate device (Buttplug/Core/DeviceManager.cs:44), so rejected devices
  leave gaps in the indices.
- `StopAllDevices` reports failures with the error class of the `ERROR_DEVICE`
  property (Buttplug/Core/DeviceManager.cs:15). Nothing assigns that property,
  so it holds `default(ErrorClass)`, the enum's first member. The `ErrorClass`
  enum's declaration is not part of this model. Its members are taken in the
  order `ERROR_UNKNOWN`, `ERROR_MSG`, `ERROR_DEVICE`, so the class is
  `ERROR_UNKNOWN`.
- The BlueGiga parser records only the first UUID of a UUID-list field.
- `KiirooGen2` tests for the first generation's names "PEARL" and "ONYX". It
  advertises "Onyx2" and "Pearl2", so its vibrate, single-motor and linear
  handlers always answer "Wrong Handler".
- The XInput and WiiMote drivers clamp a speed slot by its previous value, not
  by the requested one. An out-of-range speed is therefore stored, and the next
  command moves that slot to 0 or 1.
- The test `TestDevice` builds `Error` values for a bad entry count or index and
  then discards them, so every VibrateCmd is acknowledged.
- `SimulatedButtplugDevice` calls `Vibrate`, `Linear`, `Linear2`, `Rotate` and
  `StopDevice` on its manager. Buttplug.Server.Managers.SimulatorManager/SimulatorManager.cs
  declares `Rotate` (line 52) and `StopDevice` (line 57) as they are called,
  but three calls do not match:
  - `Vibrate` is called with a speed and a motor index but declared with the
    speed alone (line 47).
  - `Linear` is called with two `double` values but declared with two `uint`
    values (line 62).
  - `Linear2` is not declared.

  The model records each call with the arguments the device passes.

The server test ButtplugTest/Core/ButtplugServerTests.cs:60 expects
index 0 for the first device. Buttplug/Core/DeviceManager.cs:31 and :44 give 1,
and the model follows DeviceManager.cs.

## Model

| member | source | states |
|---|---|---|
| Common.NatToDecimal | Buttplug.Server/Bluetooth/Devices/Kiiroo.cs:238 | `ToString()` of a non-negative number: digits only, with no leading zero except for 0 itself |
| Common.IntToDecimal | Buttplug/Bluetooth/Devices/BLEArduino.cs:65 | `ToString()` of an integer starts with '-' exactly when it is negative |
| Common.NatToDecimalRoundTrip | Buttplug.Server/Bluetooth/Devices/Kiiroo.cs:238 | reading back the decimal numeral of n gives n |
| Common.NatToDecimalInjective | Buttplug.Server/Bluetooth/Devices/Kiiroo.cs:238 | different numbers format to different numerals |
| Common.AsciiByte | Buttplug/Bluetooth/Devices/BLEArduino.cs:65 | `Encoding.ASCII` maps a character below 128 to its code and any other to '?' |
| Common.Ascii | Buttplug/Bluetooth/Devices/BLEArduino.cs:65 | one byte per character, each the ASCII encoding of that character |
| Common.AsciiAppend | Buttplug/Bluetooth/Devices/BLEArduino.cs:65 | encoding distributes over concatenation |
| Common.AsciiDecimalRoundTrip | Buttplug.Server/Bluetooth/Devices/Kiiroo.cs:238 | the ASCII bytes of a numeral are digit bytes that read back as the number |
| Common.Join | Buttplug.Server.Managers.BlueGigaBluetoothManager/BlueGigaBluetoothManager.cs:458 | `string.Join` of no parts is empty, and of a single part is that part |
| Common.JoinShape | Buttplug.Server.Managers.BlueGigaBluetoothManager/BlueGigaBluetoothManager.cs:458 | the joined text starts with the first part, followed by the separator when there is a second, and ends with the last part |
| Common.JoinEmpty | Buttplug.Server.Managers.BlueGigaBluetoothManager/BlueGigaBluetoothManager.cs:462-467 | with a non-empty separator the joined text is empty exactly when there are no parts or one empty part |
| Common.Filter | Buttplug.Server.Managers.SimulatorManager/SimulatedButtplugDevice.cs:76-78 | keeps exactly the elements satisfying the predicate, never more than the input |
| Common.FilterAppend | Buttplug.Server.Managers.SimulatorManager/SimulatedButtplugDevice.cs:76-78 | filtering distributes over concatenation, so it keeps order |
| Common.FilterAllOrNothing | Buttplug.Server.Managers.SimulatorManager/SimulatedButtplugDevice.cs:79-82 | a filter keeping everything is the identity; the result is empty exactly when no element qualifies |
| Common.ClampByPrevious | Buttplug.Server.Managers.XInputGamepadManager/XInputGamepadDevice.cs:62-64 | the requested speed is taken exactly when the slot's previous value lies in [0,1]; otherwise the slot becomes 0 or 1 |
| Common.AllMotors | Buttplug.Server.Managers.XInputGamepadManager/XInputGamepadDevice.cs:37-42 | one entry per motor 0..n-1, each at the requested speed |
| Common.OneMotor | Buttplug/Server/Bluetooth/Devices/Louviva.cs:83 | `VibrateCmd.Create(..., 1)` is the all-motors list for one motor |
| Common.ApplySpeeds | Buttplug.Server.Managers.XInputGamepadManager/XInputGamepadDevice.cs:55-64 | the speed update keeps the number of slots |
| Common.ApplySpeedsUntouched | Buttplug.Server.Managers.XInputGamepadManager/XInputGamepadDevice.cs:55-64 | a slot that no entry addresses keeps its value |
| Common.ApplySpeedsOutOfRange | Buttplug.Server.Managers.XInputGamepadManager/XInputGamepadDevice.cs:57-60 | entries whose index is past the last slot change nothing |
| Common.ApplySpeedsAppend | Buttplug.Server.Managers.XInputGamepadManager/XInputGamepadDevice.cs:55-64 | entries are applied in order: a command split in two acts as the two halves one after the other |
| Common.ApplySpeedsOnce | Buttplug.Server.Managers.XInputGamepadManager/XInputGamepadDevice.cs:62-64 | a slot addressed once ends at the requested speed if it was in [0,1] before, and otherwise at 0 or 1 |
| DeviceManagement.RouteOf | Buttplug/Core/DeviceManager.cs:109-155 | each message kind takes exactly one case of the dispatch; device messages are routed by their own index |
| DeviceManagement.Elements | Buttplug/Core/DeviceManager.cs:66-91 | the set of a sequence's entries |
| DeviceManagement.RemoveOneMore | Buttplug/Core/DeviceManager.cs:80-88 | deleting keys one at a time is deleting them together |
| DeviceManagement.RemovePreservesUnique | Buttplug/Core/DeviceManager.cs:80-88 | deleting entries keeps Identifiers unique |
| DeviceManagement.DistinctSize | Buttplug/Core/DeviceManager.cs:140-144 | a duplicate-free sequence has as many distinct entries as elements |
| DeviceManagement.EnumerationSize | Buttplug/Core/DeviceManager.cs:140-144 | an enumeration of a dictionary's keys is as long as the dictionary |
| DeviceManagement.DeviceListOf | Buttplug/Core/DeviceManager.cs:140-144 | RequestDeviceList gives one entry per table entry, with its index and name, no index twice |
| DeviceManagement.Matching | Buttplug/Core/DeviceManager.cs:70-73 | the removal query finds exactly the keys whose device has the sender's Identifier |
| DeviceManagement.MatchingAtMostOne | Buttplug/Core/DeviceManager.cs:70-73 | with Identifiers unique the removal query finds at most one key |
| DeviceManagement.RemovedEvents | Buttplug/Core/DeviceManager.cs:80-88 | one DeviceRemoved per deleted key, in order |
| DeviceManagement.StopDeviceCalls | Buttplug/Core/DeviceManager.cs:122-133 | one StopDeviceCmd(key, id) per device, in enumeration order |
| DeviceManagement.StartCalls | Buttplug/Core/DeviceManager.cs:158-162 | StartScanning goes to every sub-manager in order |
| DeviceManagement.StopCalls | Buttplug/Core/DeviceManager.cs:164-167 | StopScanning goes to every sub-manager in order |
| DeviceManagement.ErrorTextEnds | Buttplug/Core/DeviceManager.cs:122-133 | the accumulated error text is empty or ends with the "; " separator |
| DeviceManagement.ErrorTextOfOks | Buttplug/Core/DeviceManager.cs:122-139 | replies that are all Ok contribute no error text |
| DeviceManagement.ErrorTextAppend | Buttplug/Core/DeviceManager.cs:122-139 | error text accumulates in enumeration order, device by device |
| DeviceManagement.ErrorTextLength | Buttplug/Core/DeviceManager.cs:128-132 | each failing device contributes its message and "; ", so no failure goes unreported |
| DeviceManagement.FirstUnreadable | Buttplug/Core/DeviceManager.cs:125-133 | the first reply that is neither Ok nor Error, where the `as Error` read throws; every earlier reply is Ok or Error |
| DeviceManagement.StopReplies | Buttplug/Core/DeviceManager.cs:122-133 | the devices' answers to the StopDeviceCmd, in enumeration order |
| DeviceManagement.DeviceManager.constructor | Buttplug/Core/DeviceManager.cs:24-34 | empty table, counter 0, finished flag set, no sub-managers |
| DeviceManagement.DeviceManager.AddDeviceSubtypeManager | Buttplug/Core/DeviceManager.cs:174-179 | registers exactly one more sub-manager, at the next position |
| DeviceManagement.DeviceManager.DeviceAddedHandler | Buttplug/Core/DeviceManager.cs:41-64 | the counter rises on every event; a null, duplicate or colliding device changes nothing; a fresh device is inserted under counter mod 2^32 with one DeviceAdded; before wrap-around the new index exceeds every key and was never issued; Identifiers stay unique |
| DeviceManagement.DeviceManager.DeviceRemovedHandler | Buttplug/Core/DeviceManager.cs:66-91 | a non-device sender or an unknown Identifier changes nothing; otherwise the matching entry, at most one, is deleted with one DeviceRemoved |
| DeviceManagement.DeviceManager.ScanningFinishedHandler | Buttplug/Core/DeviceManager.cs:93-107 | ScanningFinished is raised, and the flag set, exactly when the flag was clear and no sub-manager scans; the invariant keeps at most one per StartScanning and none before the first |
| DeviceManagement.DeviceManager.StartScanningAll | Buttplug/Core/DeviceManager.cs:158-162 | clears the flag and forwards StartScanning to every sub-manager in order |
| DeviceManagement.DeviceManager.StopScanningAll | Buttplug/Core/DeviceManager.cs:164-167 | forwards StopScanning to every sub-manager in order, flag untouched |
| DeviceManagement.DeviceManager.StopAllDevices | Buttplug/Core/DeviceManager.cs:122-139 | stops every device in order; Ok(id) when all answer Ok, else one Error of "message; " per failure with the unassigned property's class; throws exactly when some reply is neither Ok nor Error, after stopping the devices up to and including the first such one |
| DeviceManagement.DeviceManager.RouteDeviceMessage | Buttplug/Core/DeviceManager.cs:147-153 | a known index gets the device's own reply; an unknown one an ERROR_DEVICE error with the request id and no device touched |
| DeviceManagement.DeviceManager.SendMessage | Buttplug/Core/DeviceManager.cs:109-156 | the full dispatch: scanning answered Ok and forwarded; StopAllDevices with its exact reply or its throw; RequestDeviceList; device routing with the unknown-index error; ERROR_MSG for the rest; the table never changes |
| DeviceManagement.AddTwice | Buttplug/Core/DeviceManager.cs:41-64 | two devices both added get increasing indices, and two with the same Identifier are never both added |
| BlueGigaGuid.HexDigit | Buttplug.Server.Managers.BlueGigaBluetoothManager/BlueGigaBluetoothManager.cs:246-249 | the lower-case hex digit of a nibble |
| BlueGigaGuid.Hex | Buttplug.Server.Managers.BlueGigaBluetoothManager/BlueGigaBluetoothManager.cs:242-251 | two lower-case hex digits per byte |
| BlueGigaGuid.HexRoundTrip | Buttplug.Server.Managers.BlueGigaBluetoothManager/BlueGigaBluetoothManager.cs:242-251 | the hex text of a byte string reads back as that string |
| BlueGigaGuid.HexInjective | Buttplug.Server.Managers.BlueGigaBluetoothManager/BlueGigaBluetoothManager.cs:242-251 | different addresses get different keys |
| BlueGigaGuid.HexAppend | Buttplug.Server.Managers.BlueGigaBluetoothManager/BlueGigaBluetoothManager.cs:242-251 | hex of a concatenation is the concatenation of the hex |
| BlueGigaGuid.ByteToHex | Buttplug.Server.Managers.BlueGigaBluetoothManager/BlueGigaBluetoothManager.cs:242-251 | two lower-case hex digits per byte, in input order, length 2n, reading back as the input |
| BlueGigaGuid.Reverse | Buttplug.Server.Managers.BlueGigaBluetoothManager/BlueGigaBluetoothManager.cs:233-239 | the bytes in reverse order, as LINQ `Reverse()` yields them |
| BlueGigaGuid.GuidText | Buttplug.Server.Managers.BlueGigaBluetoothManager/BlueGigaBluetoothManager.cs:231-240 | the text handed to the Guid constructor is hex |
| BlueGigaGuid.ParseGuid | Buttplug.Server.Managers.BlueGigaBluetoothManager/BlueGigaBluetoothManager.cs:231-240 | `new Guid(string)` accepts exactly 32 hex digits and gives 16 bytes |
| BlueGigaGuid.ArrayToGuid | Buttplug.Server.Managers.BlueGigaBluetoothManager/BlueGigaBluetoothManager.cs:231-240 | a Guid exists exactly for 2, 4 or 16 bytes |
| BlueGigaGuid.ArrayToGuidValue | Buttplug.Server.Managers.BlueGigaBluetoothManager/BlueGigaBluetoothManager.cs:231-240 | the Guid is the one its text denotes |
| BlueGigaGuid.Guid16 | Buttplug.Server.Managers.BlueGigaBluetoothManager/BlueGigaBluetoothManager.cs:233-234 | 2 bytes give "0000", the reversed bytes in hex, then the Base UUID suffix |
| BlueGigaGuid.Guid32 | Buttplug.Server.Managers.BlueGigaBluetoothManager/BlueGigaBluetoothManager.cs:235-236 | 4 bytes give the reversed bytes in hex, then the Base UUID suffix |
| BlueGigaGuid.Guid128 | Buttplug.Server.Managers.BlueGigaBluetoothManager/BlueGigaBluetoothManager.cs:237-239 | 16 bytes give the reversed bytes in hex alone |
| BlueGigaGuid.Uuid32IsBaseUuid | Buttplug.Server.Managers.BlueGigaBluetoothManager/BlueGigaBluetoothManager.cs:231-240 | a 32-bit UUID widens to the Bluetooth Base UUID with its value in the first 32 bits |
| BlueGigaGuid.Uuid16IsUuid32 | Buttplug.Server.Managers.BlueGigaBluetoothManager/BlueGigaBluetoothManager.cs:231-240 | a 16-bit UUID widens like the 32-bit UUID with two zero high bytes |
| BlueGigaGuid.ArrayToGuidInjective | Buttplug.Server.Managers.BlueGigaBluetoothManager/BlueGigaBluetoothManager.cs:231-240 | different byte strings of one width give different Guids |
| BlueGigaAdvert.NewAdvertisement | Buttplug.Server.Managers.BlueGigaBluetoothManager/BlueGigaBluetoothManager.cs:153 | a record first seen has its address, no names, no services, no flags, state ADVERTISEMENT |
| BlueGigaAdvert.FieldsFrom | Buttplug.Server.Managers.BlueGigaBluetoothManager/BlueGigaBluetoothManager.cs:159-171 | every field the length bytes delimit is non-empty |
| BlueGigaAdvert.FieldsFromSkip | Buttplug.Server.Managers.BlueGigaBluetoothManager/BlueGigaBluetoothManager.cs:161-166 | a zero length byte is skipped |
| BlueGigaAdvert.FieldsFromStep | Buttplug.Server.Managers.BlueGigaBluetoothManager/BlueGigaBluetoothManager.cs:159-171 | a field that ends inside the data is the next field |
| BlueGigaAdvert.FieldsFromCut | Buttplug.Server.Managers.BlueGigaBluetoothManager/BlueGigaBluetoothManager.cs:167-171 | a truncated final field is never acted on |
| BlueGigaAdvert.Take | Buttplug.Server.Managers.BlueGigaBluetoothManager/BlueGigaBluetoothManager.cs:185 | `Take(n)` is the first min(n, length) bytes |
| BlueGigaAdvert.FieldUuidBytes | Buttplug.Server.Managers.BlueGigaBluetoothManager/BlueGigaBluetoothManager.cs:182-211 | only the first UUID of a list field is taken: 2, 4 or 16 bytes after the type, or fewer when the field is shorter |
| BlueGigaAdvert.OrCovers | Buttplug.Server.Managers.BlueGigaBluetoothManager/BlueGigaBluetoothManager.cs:179 | OR-ing keeps every bit of both sides |
| BlueGigaAdvert.ApplyField | Buttplug.Server.Managers.BlueGigaBluetoothManager/BlueGigaBluetoothManager.cs:172-221 | a field marks the record changed exactly when the record does not already contain it, and an unchanged record is left as it was |
| BlueGigaAdvert.ApplyFieldGrows | Buttplug.Server.Managers.BlueGigaBluetoothManager/BlueGigaBluetoothManager.cs:172-221 | a field only adds flag bits, a service or a name at the end, and afterwards the record contains it |
| BlueGigaAdvert.ApplyFieldChanged | Buttplug.Server.Managers.BlueGigaBluetoothManager/BlueGigaBluetoothManager.cs:172-221 | `changed` is set exactly when the record differs |
| BlueGigaAdvert.ApplyFieldUnique | Buttplug.Server.Managers.BlueGigaBluetoothManager/BlueGigaBluetoothManager.cs:186-189 | a service is only added when absent, so Guids stay distinct |
| BlueGigaAdvert.ApplyFieldsGrows | Buttplug.Server.Managers.BlueGigaBluetoothManager/BlueGigaBluetoothManager.cs:159-222 | a response only adds to the record and keeps its Guids distinct |
| BlueGigaAdvert.ApplyFieldsContains | Buttplug.Server.Managers.BlueGigaBluetoothManager/BlueGigaBluetoothManager.cs:159-222 | afterwards the record contains every field of the response |
| BlueGigaAdvert.ApplyFieldsContained | Buttplug.Server.Managers.BlueGigaBluetoothManager/BlueGigaBluetoothManager.cs:159-222 | a record already containing every field is returned unchanged, with `changed` false |
| BlueGigaAdvert.ApplyFieldsChanged | Buttplug.Server.Managers.BlueGigaBluetoothManager/BlueGigaBluetoothManager.cs:225-228 | AdvertisementReceived fires exactly when the record changed |
| BlueGigaAdvert.ReplayUnchanged | Buttplug.Server.Managers.BlueGigaBluetoothManager/BlueGigaBluetoothManager.cs:225-228 | replaying an identical response changes nothing and fires nothing |
| BlueGigaAdvert.ApplyFieldsCons | Buttplug.Server.Managers.BlueGigaBluetoothManager/BlueGigaBluetoothManager.cs:159-222 | fields are applied first to last |
| BlueGiga.Disconnects | Buttplug.Server.Managers.BlueGigaBluetoothManager/BlueGigaBluetoothManager.cs:115-118 | one disconnect per handle 0..n-1, in order |
| BlueGiga.RecordGroup | Buttplug.Server.Managers.BlueGigaBluetoothManager/BlueGigaBluetoothManager.cs:306-339 | a found group adds its service when unknown, otherwise marks it discovered with its handle range, leaving the other services |
| BlueGiga.RecordGroupKeeps | Buttplug.Server.Managers.BlueGigaBluetoothManager/BlueGigaBluetoothManager.cs:306-339 | found groups keep Guids distinct and the pending service unscanned |
| BlueGiga.FinishPending | Buttplug.Server.Managers.BlueGigaBluetoothManager/BlueGigaBluetoothManager.cs:369-372 | the first half of a completion keeps the address, state, names and service count, and leaves no service pending once the pending one is found |
| BlueGiga.MarkScanned | Buttplug.Server.Managers.BlueGigaBluetoothManager/BlueGigaBluetoothManager.cs:369-372 | marking keeps the service count |
| BlueGiga.MarkScannedCount | Buttplug.Server.Managers.BlueGigaBluetoothManager/BlueGigaBluetoothManager.cs:369-372 | marking the pending service lowers the unscanned count by one |
| BlueGiga.FirstUnscanned | Buttplug.Server.Managers.BlueGigaBluetoothManager/BlueGigaBluetoothManager.cs:374-385 | the first service not yet scanned, with all before it scanned |
| BlueGiga.AfterCompletion | Buttplug.Server.Managers.BlueGigaBluetoothManager/BlueGigaBluetoothManager.cs:369-391 | a completion either ends in SERVICESSCANNED or keeps the state |
| BlueGiga.CompletionCommand | Buttplug.Server.Managers.BlueGigaBluetoothManager/BlueGigaBluetoothManager.cs:374-391 | a FindInformation request goes out exactly when discovery is not finished |
| BlueGiga.CompletionProgress | Buttplug.Server.Managers.BlueGigaBluetoothManager/BlueGigaBluetoothManager.cs:369-391 | each completion brings the record strictly closer to SERVICESSCANNED, so discovery terminates |
| BlueGiga.CompletionKeeps | Buttplug.Server.Managers.BlueGigaBluetoothManager/BlueGigaBluetoothManager.cs:369-391 | a completion keeps the record well formed, and finishing means every service is scanned |
| BlueGiga.Container.constructor | Buttplug.Server.Managers.BlueGigaBluetoothManager/BlueGigaBluetoothManager.cs:91-106 | a container on its port and baud rate with no records, connections or commands |
| BlueGiga.Container.Start | Buttplug.Server.Managers.BlueGigaBluetoothManager/BlueGigaBluetoothManager.cs:110-119 | asks for the radio info, then disconnects handles 0..9 |
| BlueGiga.Container.StartScanning | Buttplug.Server.Managers.BlueGigaBluetoothManager/BlueGigaBluetoothManager.cs:253-258 | sets scanning and sends the scan parameters and discover command |
| BlueGiga.Container.StopScanning | Buttplug.Server.Managers.BlueGigaBluetoothManager/BlueGigaBluetoothManager.cs:260-264 | clears scanning and ends the GAP procedure |
| BlueGiga.Container.GetConnection | Buttplug.Server.Managers.BlueGigaBluetoothManager/BlueGigaBluetoothManager.cs:266-273 | puts the record in CONNECTING and sends the direct-connect command with the fixed parameters |
| BlueGiga.Container.ScanResponse | Buttplug.Server.Managers.BlueGigaBluetoothManager/BlueGigaBluetoothManager.cs:148-229 | the record under the address's hex key, created if absent, becomes the fields applied in order; AdvertisementReceived fires exactly when it changed |
| BlueGiga.Container.ConnectionStatus | Buttplug.Server.Managers.BlueGigaBluetoothManager/BlueGigaBluetoothManager.cs:275-304 | without flags 0 and 2 nothing changes; with them the handle maps to the address, the record moves to SCANNINGSERVICES and the primary-service read goes out |
| BlueGiga.Container.GroupFound | Buttplug.Server.Managers.BlueGigaBluetoothManager/BlueGigaBluetoothManager.cs:306-339 | throws, changing nothing, exactly when the UUID is not 2, 4 or 16 bytes; otherwise a group on a known connection is recorded and on an unknown one nothing changes |
| BlueGiga.Container.ScanningRecord | Buttplug.Server.Managers.BlueGigaBluetoothManager/BlueGigaBluetoothManager.cs:362-367 | a completion acts only on a known connection whose record is scanning services |
| BlueGiga.Container.ProcedureCompleted | Buttplug.Server.Managers.BlueGigaBluetoothManager/BlueGigaBluetoothManager.cs:360-397 | marks the pending service scanned and requests the next one; with none left the state becomes SERVICESSCANNED and ConnectionComplete fires |
| BlueGiga.Container.Send | Buttplug.Server.Managers.BlueGigaBluetoothManager/BlueGigaBluetoothManager.cs:410-413 | one unacknowledged attribute write |
| BlueGiga.ParseAdvertisingData | Buttplug.Server.Managers.BlueGigaBluetoothManager/BlueGigaBluetoothManager.cs:155-222 | the byte loop gives the record and `changed` of applying the delimited fields in order |
| BlueGiga.FindUnscanned | Buttplug.Server.Managers.BlueGigaBluetoothManager/BlueGigaBluetoothManager.cs:374-385 | the loop finds the first service not yet scanned |
| BlueGigaManager.FirstNewName | Buttplug.Server.Managers.BlueGigaBluetoothManager/BlueGigaBluetoothManager.cs:470-481 | the name found is non-empty and not seen for this address; none means every name is empty or seen |
| BlueGigaManager.NoNamesExactly | Buttplug.Server.Managers.BlueGigaBluetoothManager/BlueGigaBluetoothManager.cs:462-467 | an advertisement is ignored as nameless exactly when it has no name or only the empty name |
| BlueGigaManager.NoProtocolOnce | Buttplug.Server.Managers.BlueGigaBluetoothManager/BlueGigaBluetoothManager.cs:483-494 | a name without a protocol is remembered, so the same advertisement never looks it up again |
| BlueGigaManager.FindNewName | Buttplug.Server.Managers.BlueGigaBluetoothManager/BlueGigaBluetoothManager.cs:470-481 | the loop over the names finds the first new one |
| BlueGigaManager.Manager.constructor | Buttplug.Server.Managers.BlueGigaBluetoothManager/BlueGigaBluetoothManager.cs:427-448 | one adapter on COM5 at 256000 baud, started, not scanning, with no records, connections or completions, nothing seen |
| BlueGigaManager.Manager.HandleAdvertisement | Buttplug.Server.Managers.BlueGigaBluetoothManager/BlueGigaBluetoothManager.cs:450-515 | null and nameless advertisements are ignored, seen names skipped, a name without a protocol added to the seen list, and a name with one starts a connection; the adapter's scanning flag, connections, completions and announcements are left as they were |
| BlueGigaManager.Manager.StartScanning | Buttplug.Server.Managers.BlueGigaBluetoothManager/BlueGigaBluetoothManager.cs:517-526 | clears the seen list and starts every adapter; each adapter's records, connections, completions and announcements stay as they were |
| BlueGigaManager.Manager.StopScanning | Buttplug.Server.Managers.BlueGigaBluetoothManager/BlueGigaBluetoothManager.cs:528-537 | stops every adapter and raises ScanningFinished once; each adapter's records, connections, completions and announcements stay as they were |
| BlueGigaManager.Manager.IsScanning | Buttplug.Server.Managers.BlueGigaBluetoothManager/BlueGigaBluetoothManager.cs:539-550 | true exactly when some adapter is scanning |
| Simulator.SimulatorTable | Buttplug.Server.Managers.SimulatorManager/SimulatedButtplugDevice.cs:23-41 | stop always; FW12 and LinearCmd exactly with a linear actuator; the vibrate commands exactly with a vibrator; Vorze exactly with a rotator |
| Simulator.Addressable | Buttplug.Server.Managers.SimulatorManager/SimulatedButtplugDevice.cs:76-78 | exactly the entries below the vibrator count |
| Simulator.FirstActuator | Buttplug.Server.Managers.SimulatorManager/SimulatedButtplugDevice.cs:122-124 | exactly the vectors for actuator 0 |
| Simulator.VibrateCalls | Buttplug.Server.Managers.SimulatorManager/SimulatedButtplugDevice.cs:84-87 | one vibrate call per entry, in order |
| Simulator.Linear2Calls | Buttplug.Server.Managers.SimulatorManager/SimulatedButtplugDevice.cs:130-133 | one linear call per vector, in order |
| Simulator.ForwardVibrates | Buttplug.Server.Managers.SimulatorManager/SimulatedButtplugDevice.cs:84-87 | the loop makes one vibrate call per entry, in order |
| Simulator.ForwardLinears | Buttplug.Server.Managers.SimulatorManager/SimulatedButtplugDevice.cs:130-133 | the loop makes one linear call per vector, in order |
| Simulator.VibrateForwardingOrder | Buttplug.Server.Managers.SimulatorManager/SimulatedButtplugDevice.cs:76-87 | forwarding keeps the command's order, and nothing is forwarded exactly when every index is out of range |
| Simulator.SimulatedDevice.constructor | Buttplug.Server.Managers.SimulatorManager/SimulatedButtplugDevice.cs:16-42 | the name, id and vibrator count announced, the capability-dependent table, no calls |
| Simulator.SimulatedDevice.HandleStopDeviceCmd | Buttplug.Server.Managers.SimulatorManager/SimulatedButtplugDevice.cs:48-52 | exactly one stop call and Ok(id) |
| Simulator.SimulatedDevice.HandleSingleMotorVibrateCmd | Buttplug.Server.Managers.SimulatorManager/SimulatedButtplugDevice.cs:54-67 | one vibrate call per motor 0..count-1 at the same speed, Ok(id); a wrong kind is "Wrong Handler" with no call |
| Simulator.SimulatedDevice.HandleVibrateCmd | Buttplug.Server.Managers.SimulatorManager/SimulatedButtplugDevice.cs:69-88 | exactly the in-range entries forwarded in order and Ok(id); with none, "Invalid vibrator index!" and no call |
| Simulator.SimulatedDevice.HandleVorzeA10CycloneCmd | Buttplug.Server.Managers.SimulatorManager/SimulatedButtplugDevice.cs:90-99 | one rotate call with the speed and direction |
| Simulator.SimulatedDevice.HandleFleshlightLaunchFW12Cmd | Buttplug.Server.Managers.SimulatorManager/SimulatedButtplugDevice.cs:102-113 | one linear call with speed and position scaled from 0..99 to 0..1 |
| Simulator.SimulatedDevice.HandleLinearCmd | Buttplug.Server.Managers.SimulatorManager/SimulatedButtplugDevice.cs:115-134 | exactly the vectors for actuator 0 forwarded in order; with none, an ERROR_DEVICE error and no call |
| Kiiroo.KiirooTable | Buttplug.Server/Bluetooth/Devices/Kiiroo.cs:66-80 | raw and stop always; vibrate and single-motor exactly for "PEARL"; LinearCmd exactly for "ONYX" |
| Kiiroo.PositionPayload | Buttplug.Server/Bluetooth/Devices/Kiiroo.cs:236-238 | the raw payload is ASCII digits followed by ',' |
| Kiiroo.PositionPayloadRoundTrip | Buttplug.Server/Bluetooth/Devices/Kiiroo.cs:236-238 | the raw payload is ASCII digits then ',', and the digits read back as the position |
| Kiiroo.PositionPayloadInjective | Buttplug.Server/Bluetooth/Devices/Kiiroo.cs:236-238 | different positions are written differently |
| Kiiroo.KiirooDevice.constructor | Buttplug.Server/Bluetooth/Devices/Kiiroo.cs:58-81 | name "Kiiroo " + interface name, the name-dependent table, stored speed and target 0 |
| Kiiroo.KiirooDevice.HandleKiirooRawCmd | Buttplug.Server/Bluetooth/Devices/Kiiroo.cs:229-239 | the position's payload to Tx with response; a wrong kind is "Wrong Handler" with no write |
| Kiiroo.KiirooDevice.HandleStopDeviceCmd | Buttplug.Server/Bluetooth/Devices/Kiiroo.cs:214-227 | position 0 written only for a running "PEARL"; otherwise Ok(id) with no write |
| Kiiroo.KiirooDevice.HandleSingleMotorVibrateCmd | Buttplug.Server/Bluetooth/Devices/Kiiroo.cs:241-258 | a speed within 0.001 of the stored one is Ok(id) with no write; otherwise it acts as a one-entry VibrateCmd |
| Kiiroo.KiirooDevice.HandleVibrateCmd | Buttplug.Server/Bluetooth/Devices/Kiiroo.cs:260-289 | errors unless "PEARL", one entry and index 0, keeping the stored speed; else stores it and writes its position |
| Kiiroo.KiirooDevice.HandleLinearCmd | Buttplug.Server/Bluetooth/Devices/Kiiroo.cs:291-328 | errors unless "ONYX", one vector and index 0; else Ok(id) with target 1 - position |
| KiirooGen2.AdvertisedNamesRejected | Buttplug.Server/Bluetooth/Devices/KiirooGen2.cs:21 | neither advertised name passes the vibrate or the linear name test |
| KiirooGen2.VibratePayload | Buttplug.Server/Bluetooth/Devices/KiirooGen2.cs:207-238 | a vibration write is two bytes and never the stop write |
| KiirooGen2.KiirooGen2Table | Buttplug.Server/Bluetooth/Devices/KiirooGen2.cs:62-68 | the same four message kinds for every name |
| KiirooGen2.KiirooGen2Device.constructor | Buttplug.Server/Bluetooth/Devices/KiirooGen2.cs:54-69 | name, table, stored speed and target 0 |
| KiirooGen2.KiirooGen2Device.HandleStopDeviceCmd | Buttplug.Server/Bluetooth/Devices/KiirooGen2.cs:171-186 | [0, 0] to Tx only for a running "PEARL"; otherwise Ok(id) with no write |
| KiirooGen2.KiirooGen2Device.HandleSingleMotorVibrateCmd | Buttplug.Server/Bluetooth/Devices/KiirooGen2.cs:188-205 | "Wrong Handler" unless "PEARL"; a speed within 0.001 is Ok(id) with no write; otherwise a one-entry VibrateCmd |
| KiirooGen2.KiirooGen2Device.HandleVibrateCmd | Buttplug.Server/Bluetooth/Devices/KiirooGen2.cs:207-238 | errors unless "PEARL", one entry and index 0; else stores the speed and writes two bytes ending in 0x46 |
| KiirooGen2.KiirooGen2Device.HandleLinearCmd | Buttplug.Server/Bluetooth/Devices/KiirooGen2.cs:240-277 | errors unless "ONYX", one vector and index 0; else Ok(id) with target 1 - position |
| KiirooGen2.AdvertisedDeviceRejects | Buttplug.Server/Bluetooth/Devices/KiirooGen2.cs:21 | a device with an advertised name answers every vibrate, single-motor and linear command with "Wrong Handler" |
| XInputGamepad.XInputTable | Buttplug.Server.Managers.XInputGamepadManager/XInputGamepadDevice.cs:18-20 | single-motor, VibrateCmd with VibratorCount "2", and stop |
| XInputGamepad.XInputGamepadDevice.constructor | Buttplug.Server.Managers.XInputGamepadManager/XInputGamepadDevice.cs:14-21 | two slots at 0, connected |
| XInputGamepad.XInputGamepadDevice.HandleVibrateCmd | Buttplug.Server.Managers.XInputGamepadManager/XInputGamepadDevice.cs:47-91 | the slots follow the entries; the controller gets both slots; a throw while disconnected removes the device with Ok(id), while connected gives ERROR_DEVICE |
| XInputGamepad.XInputGamepadDevice.HandleSingleMotorVibrateCmd | Buttplug.Server.Managers.XInputGamepadManager/XInputGamepadDevice.cs:29-45 | a VibrateCmd with both motors at the requested speed, with its reply: Ok(id) when applied or disconnected, removal with Ok(id) when the controller threw and is gone, ERROR_DEVICE when it threw and is still connected |
| XInputGamepad.XInputGamepadDevice.HandleStopDeviceCmd | Buttplug.Server.Managers.XInputGamepadManager/XInputGamepadDevice.cs:23-27 | a single-motor command at speed 0, with the same three replies |
| XInputGamepad.XInputGamepadDevice.Disconnect | Buttplug.Server.Managers.XInputGamepadManager/XInputGamepadDevice.cs:93-109 | both motors off when there is a controller; the controller is always dropped |
| XInputGamepad.VibrateOneSlot | Buttplug.Server.Managers.XInputGamepadManager/XInputGamepadDevice.cs:55-64 | one entry changes only its own slot, by the previous-value clamp |
| XInputGamepad.OutOfRangeSpeedStored | Buttplug.Server.Managers.XInputGamepadManager/XInputGamepadDevice.cs:62-64 | an out-of-range speed is stored as is, and the next command moves the slot to 1 |
| WiiMote.WiiMoteTable | Buttplug.Server.Managers.WiiMoteManager/WiiMoteDevice.cs:20-25 | vibration with VibratorCount "1", stop, and the accelerometer switch |
| WiiMote.WiiMoteDevice.constructor | Buttplug.Server.Managers.WiiMoteManager/WiiMoteDevice.cs:16-27 | one slot at 0, connected, not reporting |
| WiiMote.WiiMoteDevice.HandleWiimoteChanged | Buttplug.Server.Managers.WiiMoteManager/WiiMoteDevice.cs:29-36 | accelerometer data is emitted exactly while reporting is on |
| WiiMote.WiiMoteDevice.HandleVibrateCmd | Buttplug.Server.Managers.WiiMoteManager/WiiMoteDevice.cs:62-85 | Ok(id) for every VibrateCmd; slot 0 follows the motor-0 entries; one rumble call while connected |
| WiiMote.WiiMoteDevice.HandleSingleMotorVibrateCmd | Buttplug.Server.Managers.WiiMoteManager/WiiMoteDevice.cs:44-60 | a VibrateCmd with the one motor at the requested speed |
| WiiMote.WiiMoteDevice.HandleStopDeviceCmd | Buttplug.Server.Managers.WiiMoteManager/WiiMoteDevice.cs:38-42 | a single-motor command at speed 0 |
| WiiMote.WiiMoteDevice.HandleStartAccelerometerCmd | Buttplug.Server.Managers.WiiMoteManager/WiiMoteDevice.cs:87-98 | reporting on; while the remote is there, Ok(id) and the remote switched to accelerometer reports; after Disconnect the flag is still set and the call on the dropped remote throws |
| WiiMote.WiiMoteDevice.HandleStopAccelerometerCmd | Buttplug.Server.Managers.WiiMoteManager/WiiMoteDevice.cs:100-111 | reporting off; while the remote is there, Ok(id) and the remote back to button reports; after Disconnect the flag is still cleared and the call throws |
| WiiMote.WiiMoteDevice.Disconnect | Buttplug.Server.Managers.WiiMoteManager/WiiMoteDevice.cs:113-119 | rumble off, slot 0 zeroed, the remote dropped; a second call throws before changing anything |
| WiiMote.OnlyMotorZeroCounts | Buttplug.Server.Managers.WiiMoteManager/WiiMoteDevice.cs:70-84 | entries for other motors never matter |
| WiiMote.SingleMotorSlot | Buttplug.Server.Managers.WiiMoteManager/WiiMoteDevice.cs:77-79 | a single-motor command sets the slot by the previous-value clamp, and stop zeroes a slot in [0,1] |
| WiiMote.AccelerometerSession | Buttplug.Server.Managers.WiiMoteManager/WiiMoteDevice.cs:29-36 | between start and stop exactly the reading in between is emitted |
| FleshlightLaunch.LaunchTable | Buttplug.Server/Bluetooth/Devices/FleshlightLaunch.cs:55-57 | FW12, LinearCmd with ActuatorCount "1", and stop |
| FleshlightLaunch.LowByte | Buttplug.Server/Bluetooth/Devices/FleshlightLaunch.cs:101 | the `(byte)` cast keeps the value modulo 256 |
| FleshlightLaunch.FW12Payload | Buttplug.Server/Bluetooth/Devices/FleshlightLaunch.cs:107-109 | position then speed, each congruent modulo 256 and unchanged below 256 |
| FleshlightLaunch.FW12PayloadWraps | Buttplug.Server/Bluetooth/Devices/FleshlightLaunch.cs:107-109 | values 256 apart are written the same |
| FleshlightLaunch.LinearPayload | Buttplug.Server/Bluetooth/Devices/FleshlightLaunch.cs:92-109 | a LinearCmd vector is written as position then speed, each scaled onto 0..99 and written as is when below 256 |
| FleshlightLaunch.FirstAtZero | Buttplug.Server/Bluetooth/Devices/FleshlightLaunch.cs:92-104 | the first vector for actuator 0, with none before it |
| FleshlightLaunch.FirstAtZeroIsFilterHead | Buttplug.Server/Bluetooth/Devices/FleshlightLaunch.cs:92-104 | the written vector is the first one a filter on actuator 0 keeps |
| FleshlightLaunch.FleshlightLaunchDevice.constructor | Buttplug.Server/Bluetooth/Devices/FleshlightLaunch.cs:46-58 | the table, no writes |
| FleshlightLaunch.FleshlightLaunchDevice.Initialize | Buttplug.Server/Bluetooth/Devices/FleshlightLaunch.cs:60-67 | one zero byte to Cmd, with response |
| FleshlightLaunch.FleshlightLaunchDevice.HandleStopDeviceCmd | Buttplug.Server/Bluetooth/Devices/FleshlightLaunch.cs:69-78 | Ok(id), no write |
| FleshlightLaunch.FleshlightLaunchDevice.HandleFleshlightLaunchRawCmd | Buttplug.Server/Bluetooth/Devices/FleshlightLaunch.cs:80-110 | LinearCmd writes its first actuator-0 vector or nothing; FW12 writes its two low bytes; another kind is "Wrong Handler" |
| Louviva.LouvivaTable | Buttplug/Server/Bluetooth/Devices/Louviva.cs:64-66 | single-motor, VibrateCmd with FeatureCount 1, stop |
| Louviva.TrackSpeed | Buttplug/Server/Bluetooth/Devices/Louviva.cs:90-100 | unchanged keeps the stored speed; changed stores one of the entries' speeds |
| Louviva.ChangedExactly | Buttplug/Server/Bluetooth/Devices/Louviva.cs:90-100 | `changed` holds exactly when some entry differs by more than 0.001 from the speed stored when it is reached |
| Louviva.TrackOne | Buttplug/Server/Bluetooth/Devices/Louviva.cs:90-100 | one entry changes the stored speed exactly when beyond the tolerance |
| Louviva.RepeatIsSilent | Buttplug/Server/Bluetooth/Devices/Louviva.cs:90-105 | the same command sent twice writes at most once |
| Louviva.LouvivaDevice.constructor | Buttplug/Server/Bluetooth/Devices/Louviva.cs:56-67 | name "Louviva " + interface name, the table, speed 0 |
| Louviva.LouvivaDevice.Initialize | Buttplug/Server/Bluetooth/Devices/Louviva.cs:69-72 | [0x09, 0xb7] to Cmd, under the system id |
| Louviva.LouvivaDevice.HandleVibrateCmd | Buttplug/Server/Bluetooth/Devices/Louviva.cs:86-110 | the stored speed follows the entries; unchanged is Ok(id) with no write; changed writes one byte to Tx and returns the write's result |
| Louviva.LouvivaDevice.HandleSingleMotorVibrateCmd | Buttplug/Server/Bluetooth/Devices/Louviva.cs:79-84 | as a one-feature VibrateCmd |
| Louviva.LouvivaDevice.HandleStopDeviceCmd | Buttplug/Server/Bluetooth/Devices/Louviva.cs:74-77 | as a single-motor command at speed 0 |
| LouvivaProtocol.LouvivaProtocolDevice.constructor | Buttplug/Devices/Protocols/Louviva.cs:53-62 | name, table, speed 0 |
| LouvivaProtocol.LouvivaProtocolDevice.Initialize | Buttplug/Devices/Protocols/Louviva.cs:64-67 | [0x09, 0xb7] to the TxMode endpoint |
| LouvivaProtocol.LouvivaProtocolDevice.HandleVibrateCmd | Buttplug/Devices/Protocols/Louviva.cs:81-106 | the stored speed follows the entries; one byte to Tx when changed; always Ok(id) |
| LouvivaProtocol.LouvivaProtocolDevice.HandleSingleMotorVibrateCmd | Buttplug/Devices/Protocols/Louviva.cs:74-79 | as a one-feature VibrateCmd |
| LouvivaProtocol.LouvivaProtocolDevice.HandleStopDeviceCmd | Buttplug/Devices/Protocols/Louviva.cs:69-72 | as a single-motor command at speed 0 |
| Leten.LetenTable | Buttplug.Server/Bluetooth/Devices/Leten.cs:63-64 | single-motor and stop only |
| Leten.DeviceName | Buttplug.Server/Bluetooth/Devices/Leten.cs:50-59 | "F520A-LT" is named "Leten Device (Nico)" |
| Leten.Packet | Buttplug.Server/Bluetooth/Devices/Leten.cs:80-81 | the 12-byte template with only byte 9 replaced by the speed byte |
| Leten.PacketInjective | Buttplug.Server/Bluetooth/Devices/Leten.cs:80-81 | different speed bytes give different packets |
| Leten.StopPacketIsTemplate | Buttplug.Server/Bluetooth/Devices/Leten.cs:67-70 | speed 0 sends the template unchanged |
| Leten.LetenDevice.constructor | Buttplug.Server/Bluetooth/Devices/Leten.cs:55-65 | the friendly name and the table |
| Leten.LetenDevice.HandleSingleMotorVibrateCmd | Buttplug.Server/Bluetooth/Devices/Leten.cs:72-87 | the packet for the scaled speed to Tx; a wrong kind is "Wrong Handler" with no write |
| Leten.LetenDevice.HandleStopDeviceCmd | Buttplug.Server/Bluetooth/Devices/Leten.cs:67-70 | the template to Tx |
| BLEArduino.ArduinoTable | Buttplug/Bluetooth/Devices/BLEArduino.cs:41-42 | single-motor and stop |
| BLEArduino.SpeedPayload | Buttplug/Bluetooth/Devices/BLEArduino.cs:61-65 | the speed's payload is at least two bytes and ends with '\n' |
| BLEArduino.SpeedPayloadShape | Buttplug/Bluetooth/Devices/BLEArduino.cs:61-65 | an optional '-', the digits of the magnitude, then '\n' |
| BLEArduino.SpeedPayloadRoundTrip | Buttplug/Bluetooth/Devices/BLEArduino.cs:61-65 | the payload ends in '\n', starts with '-' exactly for a negative speed, and its digits read back as the magnitude |
| BLEArduino.SpeedPayloadInjective | Buttplug/Bluetooth/Devices/BLEArduino.cs:61-65 | different speeds are written differently |
| BLEArduino.BLEArduinoDevice.constructor | Buttplug/Bluetooth/Devices/BLEArduino.cs:35-43 | name "BLEArduino " + interface name and the table |
| BLEArduino.BLEArduinoDevice.HandleStopDeviceCmd | Buttplug/Bluetooth/Devices/BLEArduino.cs:45-51 | Ok(id), no write |
| BLEArduino.BLEArduinoDevice.HandleBluePlugRawCmd | Buttplug/Bluetooth/Devices/BLEArduino.cs:53-66 | the speed's payload to characteristic 0; a wrong kind is "Wrong Handler" with no write |
| KiirooUwp.UwpTable | Buttplug/Devices/Kiiroo.cs:44 | only KiirooRawCmd |
| KiirooUwp.RawPayload | Buttplug/Devices/Kiiroo.cs:54 | the raw payload ends with ",\n" |
| KiirooUwp.RawPayloadExtendsServer | Buttplug/Devices/Kiiroo.cs:54 | the payload is the position's digits, ',' and '\n' |
| KiirooUwp.RawPayloadInjective | Buttplug/Devices/Kiiroo.cs:54 | different positions are written differently |
| KiirooUwp.KiirooUwpDevice.constructor | Buttplug/Devices/Kiiroo.cs:36-45 | the name, both characteristics, the table |
| KiirooUwp.KiirooUwpDevice.HandleKiirooRawCmd | Buttplug/Devices/Kiiroo.cs:47-55 | the payload to the write characteristic; a wrong kind is a "Wrong Handler" error with no write |
| KiirooUwp.CreateDevice | Buttplug/Devices/Kiiroo.cs:17-31 | a device exactly when both characteristics were found (otherwise the lookup throws); the tx characteristic is written, the rx one read |
| QuadMouse.QuadMouseTable | Buttplug.Server.Managers.QuadMouse/QuadMouseDevice.cs:45-47 | stop and the movement switch |
| QuadMouse.InitialLast | Buttplug.Server.Managers.QuadMouse/QuadMouseDevice.cs:49-52 | mice 0 to 3, standing still |
| QuadMouse.Split | Buttplug.Server.Managers.QuadMouse/QuadMouseDevice.cs:72 | at least one piece, none holding the separator |
| QuadMouse.SplitJoin | Buttplug.Server.Managers.QuadMouse/QuadMouseDevice.cs:72 | splitting loses nothing: the pieces rejoined give the line |
| QuadMouse.IndexOf | Buttplug.Server.Managers.QuadMouse/QuadMouseDevice.cs:75-76 | the first position of the character, or -1 exactly when absent |
| QuadMouse.LastIndexOf | Buttplug.Server.Managers.QuadMouse/QuadMouseDevice.cs:77 | the last position of the character, or -1 exactly when absent |
| QuadMouse.OnceExactly | Buttplug.Server.Managers.QuadMouse/QuadMouseDevice.cs:77 | first and last positions agree exactly when the character occurs once |
| QuadMouse.SegmentFields | Buttplug.Server.Managers.QuadMouse/QuadMouseDevice.cs:77-84 | "id:x,y" is accepted and its substrings are exactly id, x and y |
| QuadMouse.ParseSegment | Buttplug.Server.Managers.QuadMouse/QuadMouseDevice.cs:75-86 | a segment is rejected exactly when it is not accepted, and fields are read only when ':' comes before ',' |
| QuadMouse.ParseSegmentMeaning | Buttplug.Server.Managers.QuadMouse/QuadMouseDevice.cs:75-84 | rejected exactly when not accepted; fields are the conversions of the three parts; throws exactly on a bad conversion or ',' before ':' |
| QuadMouse.ProcessSegments | Buttplug.Server.Managers.QuadMouse/QuadMouseDevice.cs:72-102 | the mouse ids are unchanged and at most one event per segment |
| QuadMouse.NumeralSegment | Buttplug.Server.Managers.QuadMouse/QuadMouseDevice.cs:75-84 | a segment of three numerals reads as their values |
| QuadMouse.OneSegmentLine | Buttplug.Server.Managers.QuadMouse/QuadMouseDevice.cs:86-96 | a repeated standstill is dropped; any other delta replaces the mouse's vector and is reported once |
| QuadMouse.StillLineIsSilent | Buttplug.Server.Managers.QuadMouse/QuadMouseDevice.cs:88-91 | a standstill for a still mouse changes nothing and reports nothing |
| QuadMouse.MoveLineUpdatesOne | Buttplug.Server.Managers.QuadMouse/QuadMouseDevice.cs:93-95 | a move updates that mouse only and reports MovementData(x, y, 0, id, index) once |
| QuadMouse.ProcessFrom | Buttplug.Server.Managers.QuadMouse/QuadMouseDevice.cs:72-102 | a line's segments are handled first to last, and a throw drops the rest of the line |
| QuadMouse.QuadMouseDevice.constructor | Buttplug.Server.Managers.QuadMouse/QuadMouseDevice.cs:36-57 | the table and four still mice |
| QuadMouse.QuadMouseDevice.HandleLine | Buttplug.Server.Managers.QuadMouse/QuadMouseDevice.cs:61-103 | a line not starting "0:" does nothing; otherwise its segments update the table and emit events as ProcessSegments says |
| QuadMouse.QuadMouseDevice.HandleStopDeviceCmd | Buttplug.Server.Managers.QuadMouse/QuadMouseDevice.cs:114-117 | Ok(id) |
| QuadMouse.QuadMouseDevice.HandleStartMovementCmd | Buttplug.Server.Managers.QuadMouse/QuadMouseDevice.cs:124-127 | Ok(id) |
| QuadMouse.QuadMouseDevice.HandleStopMovementCmd | Buttplug.Server.Managers.QuadMouse/QuadMouseDevice.cs:119-122 | Ok(id) |
| QuadMouse.QuadMouseDevice.Disconnect | Buttplug.Server.Managers.QuadMouse/QuadMouseDevice.cs:107-112 | the reader stopped, the port closed, one DeviceRemoved |
| ClientTest.TestDeviceTable | Buttplug.Client.Test/ButtPlugClientTests.cs:23-25 | single-motor, VibrateCmd with FeatureCount 2, stop |
| ClientTest.LastForMeaning | Buttplug.Client.Test/ButtPlugClientTests.cs:50-67 | a motor keeps its speed without an entry, else takes the last entry's speed |
| ClientTest.LastForOnlyItsMotor | Buttplug.Client.Test/ButtPlugClientTests.cs:50-67 | entries for other motors never matter |
| ClientTest.BothMotors | Buttplug.Client.Test/ButtPlugClientTests.cs:81-87 | a single-motor command sets both motors |
| ClientTest.TestDevice.constructor | Buttplug.Client.Test/ButtPlugClientTests.cs:20-26 | name, identifier, table, both speeds 0 |
| ClientTest.TestDevice.HandleStopDeviceCmd | Buttplug.Client.Test/ButtPlugClientTests.cs:28-32 | both speeds 0, Ok(id) |
| ClientTest.TestDevice.HandleVibrateCmd | Buttplug.Client.Test/ButtPlugClientTests.cs:34-70 | V1 and V2 take the last entry for motors 0 and 1; every VibrateCmd is Ok(id); a wrong kind is "Wrong Handler" |
| ClientTest.TestDevice.HandleSingleMotorVibrateCmd | Buttplug.Client.Test/ButtPlugClientTests.cs:72-88 | both speeds set to the requested one, Ok(id) |
| ClientTest.TestDevice.Disconnect | Buttplug.Client.Test/ButtPlugClientTests.cs:90-93 | one DeviceRemoved |
| ClientTest.FindByIdentifier | Buttplug.Client.Test/ButtPlugClientTests.cs:133 | the first device with the identifier, or none exactly when absent |
| ClientTest.FoundIsFirstOccurrence | Buttplug.Client.Test/ButtPlugClientTests.cs:133-140 | `List.Remove` of the found device removes the found position |
| ClientTest.TestDeviceManager.constructor | Buttplug.Client.Test/ButtPlugClientTests.cs:98-104 | no devices, not scanning |
| ClientTest.TestDeviceManager.IsScanning | Buttplug.Client.Test/ButtPlugClientTests.cs:106-109 | the scanning flag |
| ClientTest.TestDeviceManager.StartScanning | Buttplug.Client.Test/ButtPlugClientTests.cs:111-114 | scanning set |
| ClientTest.TestDeviceManager.StopScanning | Buttplug.Client.Test/ButtPlugClientTests.cs:116-120 | scanning cleared and ScanningFinished raised once |
| ClientTest.TestDeviceManager.AddDevice | Buttplug.Client.Test/ButtPlugClientTests.cs:122-129 | always appended; announced exactly when `raise` is set |
| ClientTest.TestDeviceManager.RemoveDevice | Buttplug.Client.Test/ButtPlugClientTests.cs:131-141 | the first device with the identifier disconnected and removed; every device's speeds and table, and the other devices' events, untouched; absent is a no-op |
| ClientTest.ScanScenario | Buttplug.Client.Test/ButtPlugClientTests.cs:231-254 | a device added without the event is not announced, ScanningFinished only after StopScanning, removal by identifier removes the listed device |
| BluetoothResult.BluetoothResultWrapper.constructor | Buttplug.Server/Bluetooth/BluetoothResultWrapper.cs:10-15 | the message kept; a fresh array with the input's bytes, empty for null |
| BluetoothResult.CopyIsIndependent | Buttplug.Server/Bluetooth/BluetoothResultWrapper.cs:13-14 | writing into the caller's buffer afterwards leaves the wrapper's bytes unchanged |

## Left out

- The JSON message codec and the protocol-version downgrade: their code is not part of this model.
- Threads, pipes and serial I/O: the simulator's pipe loops, the QuadMouse port scan and its reader thread (`HandleLine` is one turn of the reader loop), BlueGiga `handleSerialDataReceived` and `Dispose`, and WiimoteLib discovery. Outbound BGLib commands are kept as a log of `Command` values.
- The movement timers `OnOnyxTimer` of Kiiroo and KiirooGen2, and every `lock`: wall-clock interpolation and concurrency.
- Every conversion from floating point to an integer or byte: these are input functions, so overflow such as `Convert.ToByte` of 256 in Louviva is not modelled.
- Kiiroo `Initialize` and `Disconnect`, and KiirooGen2 `Initialize` and `Disconnect`: they only write fixed setup bytes and start or stop the timer.
- BlueGiga `handleBGBootEvent`, `ATTClientFindInformationFoundEvent` and `ATTClientAttributeValueEvent`: they only log.
- BlueGigaManager.Manager.HandleAdvertisement: modelled up to `GetConnection`; the awaited connection, device creation and the continuation of the name loop after it are asynchronous foreign code, and the factory lookup is the predicate `hasProtocol`.
- BlueGiga.Container.ScanResponse: the advertisement record is a value in the container's map, so aliasing of the record object by other holders is not modelled; name decoding (`Encoding.UTF8.GetString`) is the input `utf8`.
- DeviceManagement.DeviceManager.DeviceAddedHandler: the 64-bit overflow of the `long` counter is not modelled; a key collision after the 32-bit wrap, where `Dictionary.Add` would throw, is the outcome `IndexTaken` with the table unchanged.
- DeviceManagement.DeviceManager.ScanningFinishedHandler: what each sub-manager answers to `IsScanning()` is an input.
- Louviva.LouvivaDevice.HandleVibrateCmd: `CheckGenericMessageHandler`, which rejects a command with more entries than features, is not part of this model; the handler requires a VibrateCmd.
- LouvivaProtocol.LouvivaProtocolDevice.HandleVibrateCmd: `CheckGenericMessageHandler`, which rejects a command with more entries than features (Buttplug/Devices/Protocols/Louviva.cs:83), is not part of this model; the handler requires a VibrateCmd and tracks every entry it is given.
- XInputGamepad.XInputGamepadDevice.Disconnect: an exception from `SetVibration` is not modelled; in the source the controller is still dropped, and the exception then reaches the caller.
- Simulator.SimulatedDevice.Disconnect: it does nothing, so it has no contract.
- `SimulatorManager` itself: its pipe server is not modelled; every call the device makes on it is recorded in `calls`, and `Vibrate`, `Linear` and `Linear2` do not match its declarations (see above).
- Logging, the UI, and the files that only declare interfaces or exceptions.
