/**
 * The device registry and router: a table from index to device, an index
 * counter, the sub-managers (scanners) it forwards scanning to, and the
 * one-shot "scanning finished" flag.
 *
 * A device is seen through what the registry reads of it: its Identifier,
 * its Name and the kinds of its handler table. What a device answers to a
 * message (`ParseMessage`) is an input function `reply`; the devices a call
 * touches are returned as the list of commands it issued. The order in
 * which the C# Dictionary enumerates its entries is an input `order`, any
 * duplicate-free listing of the table's keys.
 */
module DeviceManagement {
  import opened Common

  /** What the registry reads of a device. */
  datatype DeviceInfo = DeviceInfo(identifier: string, name: string, allowed: seq<string>)

  /** Which branch a device-added event took. */
  datatype AddOutcome =
    | NullDevice          // the event carried no device
    | Duplicate           // a device with the same Identifier is in the table
    | IndexTaken(index: nat)  // the (wrapped) index is already a key: `Dictionary.Add` throws
    | Added(index: nat)

  /** A scanning call forwarded to the sub-manager at a position of `_managers`. */
  datatype ScanCall = StartCall(manager: nat) | StopCall(manager: nat)

  /** A message handed to the device at an index. */
  datatype DeviceCall = DeviceCall(index: nat, msg: Message)

  /** Where `SendMessage` sends a message: the cases of its type switch, in order. */
  datatype Route =
    | ToScanners(start: bool)   // StartScanning (true) or StopScanning (false)
    | ToAllDevices              // StopAllDevices
    | ToDeviceList              // RequestDeviceList
    | ToDevice(index: nat)      // any device message, by its DeviceIndex
    | Unhandled

  /** The type switch of `SendMessage`: every message kind takes exactly one case. */
  function RouteOf(m: Message): (r: Route)
    ensures r == ToScanners(true) <==> m.StartScanning?
    ensures r == ToScanners(false) <==> m.StopScanning?
    ensures r == ToAllDevices <==> m.StopAllDevices?
    ensures r == ToDeviceList <==> m.RequestDeviceList?
    ensures r.ToDevice? <==> IsDeviceMessage(m)
    ensures r.ToDevice? ==> r.index == m.deviceIndex
  {
    if m.StartScanning? then ToScanners(true)
    else if m.StopScanning? then ToScanners(false)
    else if m.StopAllDevices? then ToAllDevices
    else if m.RequestDeviceList? then ToDeviceList
    else if IsDeviceMessage(m) then ToDevice(m.deviceIndex)
    else Unhandled
  }

  /** At most one entry per Identifier. */
  ghost predicate UniqueIdentifiers(devices: map<nat, DeviceInfo>) {
    forall a, b :: a in devices && b in devices && a != b ==> devices[a].identifier != devices[b].identifier
  }

  predicate HasIdentifier(devices: map<nat, DeviceInfo>, identifier: string) {
    exists k :: k in devices && devices[k].identifier == identifier
  }

  /** `order` lists every key of the table exactly once. */
  predicate IsEnumeration(order: seq<nat>, keys: set<nat>) {
    && (forall i :: 0 <= i < |order| ==> order[i] in keys)
    && (forall k :: k in keys ==> k in order)
    && (forall i, j :: 0 <= i < j < |order| ==> order[i] != order[j])
  }

  /** The set of entries of a sequence. */
  function Elements(s: seq<nat>): (r: set<nat>)
    ensures forall x :: x in r <==> x in s
  {
    if s == [] then {} else {s[0]} + Elements(s[1..])
  }

  /** Removing the keys of s and then x is removing the keys of s + [x]. */
  lemma RemoveOneMore(d: map<nat, DeviceInfo>, s: seq<nat>, x: nat)
    ensures d - Elements(s + [x]) == (d - Elements(s)) - {x}
  {
    assert Elements(s + [x]) == Elements(s) + {x};
  }

  /** Deleting entries keeps identifiers unique. */
  lemma RemovePreservesUnique(d: map<nat, DeviceInfo>, xs: set<nat>)
    requires UniqueIdentifiers(d)
    ensures UniqueIdentifiers(d - xs)
  {
  }

  /** A duplicate-free sequence has as many distinct elements as entries. */
  lemma {:induction false} DistinctSize(s: seq<nat>)
    requires forall i, j :: 0 <= i < j < |s| ==> s[i] != s[j]
    ensures |Elements(s)| == |s|
  {
    if s != [] {
      var rest := s[1..];
      forall i, j | 0 <= i < j < |rest| ensures rest[i] != rest[j] {
        assert rest[i] == s[i + 1] && rest[j] == s[j + 1];
      }
      DistinctSize(rest);
      assert s[0] !in rest by {
        forall j | 0 <= j < |rest| ensures rest[j] != s[0] {
          assert rest[j] == s[j + 1];
        }
      }
    }
  }

  lemma EnumerationSize(order: seq<nat>, keys: set<nat>)
    requires IsEnumeration(order, keys)
    ensures |order| == |keys|
  {
    assert keys == Elements(order);
    DistinctSize(order);
  }

  /**
   * The RequestDeviceList projection: one row per table entry, in
   * enumeration order, with the entry's index, name and allowed kinds.
   */
  function DeviceListOf(devices: map<nat, DeviceInfo>, order: seq<nat>): (r: seq<DeviceMessageInfo>)
    requires IsEnumeration(order, devices.Keys)
    ensures |r| == |devices|
    ensures forall i :: 0 <= i < |r| ==>
      r[i].deviceIndex in devices &&
      r[i] == DeviceMessageInfo(r[i].deviceIndex, devices[r[i].deviceIndex].name, devices[r[i].deviceIndex].allowed)
    ensures forall k :: k in devices ==> exists i :: 0 <= i < |r| && r[i].deviceIndex == k
    ensures forall i, j :: 0 <= i < j < |r| ==> r[i].deviceIndex != r[j].deviceIndex
  {
    EnumerationSize(order, devices.Keys);
    var r := seq(|order|, i requires 0 <= i < |order| =>
      DeviceMessageInfo(order[i], devices[order[i]].name, devices[order[i]].allowed));
    assert forall k :: k in devices ==> exists i :: 0 <= i < |r| && r[i].deviceIndex == k by {
      forall k | k in devices ensures exists i :: 0 <= i < |r| && r[i].deviceIndex == k {
        var i :| 0 <= i < |order| && order[i] == k;
        assert r[i].deviceIndex == k;
      }
    }
    r
  }

  /** The keys, in enumeration order, whose device has the given Identifier (the removal query). */
  function Matching(order: seq<nat>, devices: map<nat, DeviceInfo>, identifier: string): (r: seq<nat>)
    requires forall i :: 0 <= i < |order| ==> order[i] in devices
    ensures forall i :: 0 <= i < |r| ==> r[i] in devices && devices[r[i]].identifier == identifier
    ensures forall i :: 0 <= i < |order| && devices[order[i]].identifier == identifier ==> order[i] in r
    ensures forall x :: x in r ==> x in order
    ensures (forall i :: 0 <= i < |order| ==> devices[order[i]].identifier != identifier) ==> r == []
  {
    if order == [] then []
    else if devices[order[0]].identifier == identifier then [order[0]] + Matching(order[1..], devices, identifier)
    else Matching(order[1..], devices, identifier)
  }

  /** Under the dedup invariant the removal query finds at most one entry. */
  lemma {:induction false} MatchingAtMostOne(order: seq<nat>, devices: map<nat, DeviceInfo>, identifier: string)
    requires forall i :: 0 <= i < |order| ==> order[i] in devices
    requires forall i, j :: 0 <= i < j < |order| ==> order[i] != order[j]
    requires UniqueIdentifiers(devices)
    ensures |Matching(order, devices, identifier)| <= 1
  {
    if order != [] {
      var rest := order[1..];
      forall i, j | 0 <= i < j < |rest| ensures rest[i] != rest[j] {
        assert rest[i] == order[i + 1] && rest[j] == order[j + 1];
      }
      if devices[order[0]].identifier == identifier {
        forall i | 0 <= i < |rest| ensures devices[rest[i]].identifier != identifier {
          assert rest[i] == order[i + 1];
        }
      } else {
        MatchingAtMostOne(rest, devices, identifier);
      }
    }
  }

  /** One DeviceRemoved notification per removed key, in order. */
  function RemovedEvents(keys: seq<nat>): (r: seq<Message>)
    ensures |r| == |keys|
    ensures forall i :: 0 <= i < |keys| ==> r[i] == DeviceRemoved(keys[i], SystemMsgId)
  {
    seq(|keys|, i requires 0 <= i < |keys| => DeviceRemoved(keys[i], SystemMsgId))
  }

  /** The StopDeviceCmd the registry sends to each device, in enumeration order. */
  function StopDeviceCalls(order: seq<nat>, id: nat): (r: seq<DeviceCall>)
    ensures |r| == |order|
    ensures forall i :: 0 <= i < |order| ==> r[i] == DeviceCall(order[i], StopDeviceCmd(order[i], id))
  {
    seq(|order|, i requires 0 <= i < |order| => DeviceCall(order[i], StopDeviceCmd(order[i], id)))
  }

  /** The StartScanning calls forwarded to sub-managers 0 .. n-1, in order. */
  function StartCalls(n: nat): (r: seq<ScanCall>)
    ensures |r| == n
    ensures forall i :: 0 <= i < n ==> r[i] == StartCall(i)
  {
    if n == 0 then [] else StartCalls(n - 1) + [StartCall(n - 1)]
  }

  /** The StopScanning calls forwarded to sub-managers 0 .. n-1, in order. */
  function StopCalls(n: nat): (r: seq<ScanCall>)
    ensures |r| == n
    ensures forall i :: 0 <= i < n ==> r[i] == StopCall(i)
  {
    if n == 0 then [] else StopCalls(n - 1) + [StopCall(n - 1)]
  }

  /** "<message>; " for every Error among the replies, in order. */
  function ErrorText(replies: seq<Message>): string {
    if replies == [] then ""
    else (if replies[0].Error? then replies[0].errorMessage + "; " else "") + ErrorText(replies[1..])
  }

  /** The accumulated text is empty or ends with the separator. */
  lemma {:induction false} ErrorTextEnds(replies: seq<Message>)
    ensures var r := ErrorText(replies); r == "" || (|r| >= 2 && r[|r| - 2..] == "; ")
  {
    if replies != [] {
      ErrorTextEnds(replies[1..]);
    }
  }

  /** Only failing replies contribute to the text, each exactly once and in order. */
  lemma {:induction false} ErrorTextOfOks(replies: seq<Message>)
    requires forall i :: 0 <= i < |replies| ==> replies[i].Ok?
    ensures ErrorText(replies) == ""
  {
    if replies != [] {
      var rest := replies[1..];
      forall i | 0 <= i < |rest| ensures rest[i].Ok? {
        assert rest[i] == replies[i + 1];
      }
      ErrorTextOfOks(rest);
    }
  }

  lemma {:induction false} ErrorTextAppend(a: seq<Message>, b: seq<Message>)
    ensures ErrorText(a + b) == ErrorText(a) + ErrorText(b)
  {
    if a == [] {
      assert a + b == b;
    } else {
      assert (a + b)[0] == a[0];
      assert (a + b)[1..] == a[1..] + b;
      ErrorTextAppend(a[1..], b);
    }
  }

  /** Every failing device contributes at least the two characters "; ": a failure never goes unreported. */
  lemma {:induction false} ErrorTextLength(replies: seq<Message>, k: nat)
    requires k < |replies| && replies[k].Error?
    ensures |ErrorText(replies)| >= |replies[k].errorMessage| + 2
  {
    if k > 0 {
      ErrorTextLength(replies[1..], k - 1);
    }
  }

  /**
   * A reply the StopAllDevices loop can read: Ok, or an Error whose message
   * `(r as Error).ErrorMessage` fetches. Any other reply makes that cast
   * null and the read throw.
   */
  predicate Readable(m: Message) {
    m.Ok? || m.Error?
  }

  /** The position of the first reply the loop cannot read, or the length when it reads them all. */
  function FirstUnreadable(replies: seq<Message>): (r: nat)
    ensures r <= |replies|
    ensures forall i :: 0 <= i < r ==> Readable(replies[i])
    ensures r < |replies| ==> !Readable(replies[r])
  {
    if replies == [] || !Readable(replies[0]) then 0
    else 1 + FirstUnreadable(replies[1..])
  }

  /** The replies of the devices to the StopDeviceCmd the registry sends, in enumeration order. */
  function StopReplies(order: seq<nat>, id: nat, reply: (nat, Message) -> Message): (r: seq<Message>)
    ensures |r| == |order|
    ensures forall i :: 0 <= i < |order| ==> r[i] == reply(order[i], StopDeviceCmd(order[i], id))
  {
    seq(|order|, i requires 0 <= i < |order| => reply(order[i], StopDeviceCmd(order[i], id)))
  }

  class DeviceManager {
    /** `_managers`: the registered sub-managers, addressed by their position. */
    var managerCount: nat
    /** `_devices`: index to device. */
    var devices: map<nat, DeviceInfo>
    /** The `ERROR_DEVICE` property: declared with a private setter that nothing calls. */
    const errorDevice: ErrorClass
    /** `_deviceIndexCounter`, a C# long (its 64-bit overflow is not modelled). */
    var counter: nat
    /** `_sentFinished`. */
    var sentFinished: bool
    /** The DeviceMessageReceived notifications raised, in order. */
    var received: seq<Message>
    /** How many ScanningFinished events were raised. */
    var finishedEvents: nat
    /** The scanning calls forwarded to sub-managers, in order. */
    var scanCalls: seq<ScanCall>

    /** Every index ever inserted into the table. */
    ghost var issued: set<nat>
    /** How many StartScanning calls the registry has handled. */
    ghost var starts: nat
    /** How many ScanningFinished events were raised since the last StartScanning. */
    ghost var finishedSinceStart: nat

    ghost predicate Valid()
      reads this
    {
      && UniqueIdentifiers(devices)
      && devices.Keys <= issued
      && (forall k :: k in issued ==> k < UINT_RANGE)
      && (counter < UINT_RANGE ==> forall k :: k in issued ==> 1 <= k <= counter)
      && finishedSinceStart <= 1
      && (!sentFinished ==> finishedSinceStart == 0)
      && (starts == 0 ==> sentFinished && finishedEvents == 0)
      && (starts > 0 ==> finishedEvents + 1 <= starts + finishedSinceStart)
    }

    constructor ()
      ensures Valid()
      ensures managerCount == 0 && devices == map[] && counter == 0 && sentFinished
      ensures errorDevice == DefaultErrorClass
      ensures received == [] && finishedEvents == 0 && scanCalls == []
      ensures issued == {} && starts == 0
    {
      managerCount := 0;
      devices := map[];
      errorDevice := DefaultErrorClass;
      counter := 0;
      sentFinished := true;
      received := [];
      finishedEvents := 0;
      scanCalls := [];
      issued := {};
      starts := 0;
      finishedSinceStart := 0;
    }

    /** `AddDeviceSubtypeManager`: registers one more sub-manager and subscribes to its events. */
    method AddDeviceSubtypeManager() returns (position: nat)
      requires Valid()
      modifies this`managerCount
      ensures Valid()
      ensures position == old(managerCount) && managerCount == old(managerCount) + 1
    {
      position := managerCount;
      managerCount := managerCount + 1;
    }

    /**
     * `DeviceAddedHandler`. The counter is bumped first, for every event;
     * the index is its low 32 bits. A missing device, a known Identifier, or
     * (after wrap-around) an index already in use leaves the table and the
     * notifications as they were. Otherwise the device is inserted under the
     * new index and exactly one DeviceAdded is raised.
     */
    method DeviceAddedHandler(device: Option<DeviceInfo>) returns (outcome: AddOutcome)
      requires Valid()
      modifies this`counter, this`devices, this`received, this`issued
      ensures Valid()
      ensures counter == old(counter) + 1
      ensures var index := (old(counter) + 1) % UINT_RANGE;
        && (device.None? ==> outcome == NullDevice)
        && (device.Some? && HasIdentifier(old(devices), device.value.identifier) ==> outcome == Duplicate)
        && (device.Some? && !HasIdentifier(old(devices), device.value.identifier) ==>
              outcome == if index in old(devices) then IndexTaken(index) else Added(index))
      ensures !outcome.Added? ==> devices == old(devices) && received == old(received) && issued == old(issued)
      ensures outcome.Added? ==>
        && devices == old(devices)[outcome.index := device.value]
        && received == old(received) + [DeviceAdded(outcome.index, device.value.name, device.value.allowed, SystemMsgId)]
        && issued == old(issued) + {outcome.index}
      ensures outcome.Added? && old(counter) + 1 < UINT_RANGE ==>
        && outcome.index == old(counter) + 1
        && outcome.index !in old(issued)
        && (forall k :: k in old(devices) ==> k < outcome.index)
    {
      counter := counter + 1;
      var index := counter % UINT_RANGE;
      if device.None? {
        return NullDevice;
      }
      var dev := device.value;
      if HasIdentifier(devices, dev.identifier) {
        return Duplicate;
      }
      if index in devices {
        return IndexTaken(index);
      }
      devices := devices[index := dev];
      issued := issued + {index};
      received := received + [DeviceAdded(index, dev.name, dev.allowed, SystemMsgId)];
      outcome := Added(index);
    }

    /**
     * `DeviceRemovedHandler`. `sender` is the removed device when the sender
     * is a ButtplugDevice and None otherwise. Every entry whose Identifier
     * equals the sender's is deleted, with one DeviceRemoved per deleted key.
     */
    method DeviceRemovedHandler(sender: Option<DeviceInfo>, order: seq<nat>)
      requires Valid()
      requires IsEnumeration(order, devices.Keys)
      modifies this`devices, this`received
      ensures Valid()
      ensures sender.None? ==> devices == old(devices) && received == old(received)
      ensures sender.Some? ==>
        var gone := Matching(order, old(devices), sender.value.identifier);
        && |gone| <= 1
        && devices == old(devices) - Elements(gone)
        && received == old(received) + RemovedEvents(gone)
      ensures sender.Some? && !HasIdentifier(old(devices), sender.value.identifier) ==>
        devices == old(devices) && received == old(received)
    {
      if sender.None? {
        return;
      }
      var device := sender.value;
      var entry := Matching(order, devices, device.identifier);
      MatchingAtMostOne(order, devices, device.identifier);
      var table := devices;
      var events := received;
      var i := 0;
      while i < |entry|
        invariant 0 <= i <= |entry|
        invariant table == devices - Elements(entry[..i])
        invariant events == received + RemovedEvents(entry[..i])
        modifies {}
      {
        assert entry[..i + 1] == entry[..i] + [entry[i]];
        RemoveOneMore(devices, entry[..i], entry[i]);
        table := table - {entry[i]};
        events := events + [DeviceRemoved(entry[i], SystemMsgId)];
        i := i + 1;
      }
      assert entry[..i] == entry;
      RemovePreservesUnique(devices, Elements(entry));
      devices := table;
      received := events;
    }

    /**
     * `ScanningFinishedHandler`. `scanning[i]` is what the sub-manager at
     * position i answers to `IsScanning()` now. Nothing happens once the
     * flag is set; otherwise ScanningFinished is raised and the flag set
     * exactly when no sub-manager is scanning.
     */
    method ScanningFinishedHandler(scanning: seq<bool>)
      requires Valid()
      requires |scanning| == managerCount
      modifies this`sentFinished, this`finishedEvents, this`finishedSinceStart
      ensures Valid()
      ensures old(sentFinished) || (exists i :: 0 <= i < |scanning| && scanning[i]) ==>
        sentFinished == old(sentFinished) && finishedEvents == old(finishedEvents)
      ensures !old(sentFinished) && (forall i :: 0 <= i < |scanning| ==> !scanning[i]) ==>
        sentFinished && finishedEvents == old(finishedEvents) + 1
    {
      if sentFinished {
        return;
      }
      var done := true;
      var i := 0;
      while i < |scanning|
        invariant 0 <= i <= |scanning|
        invariant done <==> forall j :: 0 <= j < i ==> !scanning[j]
      {
        done := done && !scanning[i];
        i := i + 1;
      }
      if done {
        sentFinished := true;
        finishedEvents := finishedEvents + 1;
        finishedSinceStart := finishedSinceStart + 1;
      }
    }

    /** The private `StartScanning`: clears the flag and forwards to every sub-manager in order. */
    method StartScanningAll()
      requires Valid()
      modifies this`sentFinished, this`scanCalls, this`starts, this`finishedSinceStart
      ensures Valid()
      ensures !sentFinished && starts == old(starts) + 1
      ensures scanCalls == old(scanCalls) + StartCalls(managerCount)
    {
      sentFinished := false;
      starts := starts + 1;
      finishedSinceStart := 0;
      var i := 0;
      while i < managerCount
        invariant 0 <= i <= managerCount
        invariant scanCalls == old(scanCalls) + StartCalls(i)
        invariant Valid() && !sentFinished && starts == old(starts) + 1
      {
        scanCalls := scanCalls + [StartCall(i)];
        i := i + 1;
      }
    }

    /** The private `StopScanning`: forwards to every sub-manager in order; the flag is untouched. */
    method StopScanningAll()
      requires Valid()
      modifies this`scanCalls
      ensures Valid()
      ensures scanCalls == old(scanCalls) + StopCalls(managerCount)
    {
      var i := 0;
      while i < managerCount
        invariant 0 <= i <= managerCount
        invariant scanCalls == old(scanCalls) + StopCalls(i)
        invariant Valid()
      {
        scanCalls := scanCalls + [StopCall(i)];
        i := i + 1;
      }
    }

    /**
     * The StopAllDevices case of `SendMessage`: a StopDeviceCmd to every
     * device in enumeration order; Ok when every reply is Ok, otherwise one
     * Error whose text is "<message>; " per failing device and whose class is
     * the never-assigned `ERROR_DEVICE` property. The first reply that is
     * neither Ok nor Error makes `(r as Error).ErrorMessage` throw, after
     * that device was sent its StopDeviceCmd and before any later one is.
     */
    method StopAllDevices(id: nat, order: seq<nat>, reply: (nat, Message) -> Message)
      returns (r: Outcome, calls: seq<DeviceCall>)
      requires IsEnumeration(order, devices.Keys)
      ensures r.ThrewNullReference? <==> exists k :: k in devices && !Readable(reply(k, StopDeviceCmd(k, id)))
      ensures r.ThrewNullReference? ==>
        calls == StopDeviceCalls(order, id)[..FirstUnreadable(StopReplies(order, id, reply)) + 1]
      ensures r.Replied? ==> calls == StopDeviceCalls(order, id)
      ensures (forall k :: k in devices ==> reply(k, StopDeviceCmd(k, id)).Ok?) ==> r == Replied(Ok(id))
      ensures r.Replied? && !(forall k :: k in devices ==> reply(k, StopDeviceCmd(k, id)).Ok?) ==>
        r == Replied(Error(ErrorText(StopReplies(order, id, reply)), errorDevice, id))
    {
      var isOk := true;
      var errorMsg := "";
      calls := [];
      ghost var all := StopDeviceCalls(order, id);
      ghost var replies := StopReplies(order, id, reply);
      var i := 0;
      while i < |order|
        invariant 0 <= i <= |order|
        invariant calls == all[..i]
        invariant errorMsg == ErrorText(replies[..i])
        invariant isOk <==> forall j :: 0 <= j < i ==> replies[j].Ok?
        invariant forall j :: 0 <= j < i ==> Readable(replies[j])
      {
        var key := order[i];
        var res := reply(key, StopDeviceCmd(key, id));
        calls := calls + [DeviceCall(key, StopDeviceCmd(key, id))];
        assert calls == all[..i + 1];
        if !res.Ok? {
          if !res.Error? {
            assert key in devices && !Readable(reply(key, StopDeviceCmd(key, id)));
            assert FirstUnreadable(replies) == i;
            return ThrewNullReference, calls;
          }
          isOk := false;
          errorMsg := errorMsg + res.errorMessage + "; ";
        }
        assert replies[..i + 1] == replies[..i] + [res];
        ErrorTextAppend(replies[..i], [res]);
        i := i + 1;
      }
      assert replies[..i] == replies;
      assert forall k :: k in devices ==> Readable(reply(k, StopDeviceCmd(k, id))) by {
        forall k | k in devices ensures Readable(reply(k, StopDeviceCmd(k, id))) {
          var j :| 0 <= j < |order| && order[j] == k;
          assert Readable(replies[j]);
        }
      }
      assert isOk <==> forall k :: k in devices ==> reply(k, StopDeviceCmd(k, id)).Ok? by {
        if isOk {
          forall k | k in devices ensures reply(k, StopDeviceCmd(k, id)).Ok? {
            var j :| 0 <= j < |order| && order[j] == k;
            assert replies[j].Ok?;
          }
        }
      }
      if isOk {
        return Replied(Ok(id)), calls;
      }
      return Replied(Error(errorMsg, errorDevice, id)), calls;
    }

    /**
     * The device-message case of `SendMessage`: a known index hands the
     * message to that device and returns its answer unchanged; an unknown
     * index touches no device and answers ERROR_DEVICE with the request's id.
     */
    method RouteDeviceMessage(index: nat, m: Message, reply: (nat, Message) -> Message)
      returns (r: Message, calls: seq<DeviceCall>)
      requires RouteOf(m) == ToDevice(index)
      ensures index in devices ==> r == reply(index, m) && calls == [DeviceCall(index, m)]
      ensures index !in devices ==>
        && calls == []
        && r == Error("Dropping message for unknown device index " + NatToDecimal(index), ERROR_DEVICE, m.id)
    {
      if index in devices {
        r := reply(index, m);
        calls := [DeviceCall(index, m)];
      } else {
        r := Error("Dropping message for unknown device index " + NatToDecimal(index), ERROR_DEVICE, m.id);
        calls := [];
      }
    }

    /**
     * `SendMessage`: the registry's dispatch. Scanning requests are
     * forwarded and answered Ok, StopAllDevices and device messages go to the
     * devices, RequestDeviceList answers the projection of the table, and
     * every other kind is ERROR_MSG. The table is never changed here.
     */
    method SendMessage(msg: Message, order: seq<nat>, reply: (nat, Message) -> Message)
      returns (r: Outcome, calls: seq<DeviceCall>)
      requires Valid()
      requires IsEnumeration(order, devices.Keys)
      modifies this`sentFinished, this`scanCalls, this`starts, this`finishedSinceStart
      ensures Valid()
      ensures devices == old(devices)
      ensures RouteOf(msg) != ToAllDevices ==> r.Replied?
      ensures RouteOf(msg) == ToScanners(true) ==>
        r == Replied(Ok(msg.id)) && calls == [] && !sentFinished &&
        scanCalls == old(scanCalls) + StartCalls(managerCount)
      ensures RouteOf(msg) == ToScanners(false) ==>
        r == Replied(Ok(msg.id)) && calls == [] && sentFinished == old(sentFinished) &&
        scanCalls == old(scanCalls) + StopCalls(managerCount)
      ensures !RouteOf(msg).ToScanners? ==> sentFinished == old(sentFinished) && scanCalls == old(scanCalls)
      ensures RouteOf(msg) == ToAllDevices ==>
        && (r.ThrewNullReference? <==> exists k :: k in devices && !Readable(reply(k, StopDeviceCmd(k, msg.id))))
        && (r.ThrewNullReference? ==>
              calls == StopDeviceCalls(order, msg.id)[..FirstUnreadable(StopReplies(order, msg.id, reply)) + 1])
        && (r.Replied? ==> calls == StopDeviceCalls(order, msg.id))
        && ((forall k :: k in devices ==> reply(k, StopDeviceCmd(k, msg.id)).Ok?) ==> r == Replied(Ok(msg.id)))
        && (r.Replied? && !(forall k :: k in devices ==> reply(k, StopDeviceCmd(k, msg.id)).Ok?) ==>
              r == Replied(Error(ErrorText(StopReplies(order, msg.id, reply)), errorDevice, msg.id)))
      ensures RouteOf(msg) == ToDeviceList ==> r == Replied(DeviceList(DeviceListOf(devices, order), msg.id)) && calls == []
      ensures RouteOf(msg).ToDevice? && RouteOf(msg).index !in devices ==>
        && calls == []
        && r == Replied(Error("Dropping message for unknown device index " + NatToDecimal(RouteOf(msg).index), ERROR_DEVICE, msg.id))
      ensures RouteOf(msg).ToDevice? && RouteOf(msg).index in devices ==>
        r == Replied(reply(RouteOf(msg).index, msg)) && calls == [DeviceCall(RouteOf(msg).index, msg)]
      ensures RouteOf(msg) == Unhandled ==>
        calls == [] && r == Replied(Error("Message type " + KindName(msg) + " unhandled by this server.", ERROR_MSG, msg.id))
    {
      var id := msg.id;
      calls := [];
      match RouteOf(msg)
      case ToScanners(start) =>
        if start {
          StartScanningAll();
        } else {
          StopScanningAll();
        }
        r := Replied(Ok(id));
      case ToAllDevices =>
        r, calls := StopAllDevices(id, order, reply);
      case ToDeviceList =>
        r := Replied(DeviceList(DeviceListOf(devices, order), id));
      case ToDevice(index) =>
        var answer;
        answer, calls := RouteDeviceMessage(index, msg, reply);
        r := Replied(answer);
      case Unhandled =>
        r := Replied(Error("Message type " + KindName(msg) + " unhandled by this server.", ERROR_MSG, id));
    }
  }

  /**
   * Indices are never reused while the counter is below 2^32: a sequence of
   * device-added events inserts strictly increasing keys.
   */
  method AddTwice(m: DeviceManager, a: DeviceInfo, b: DeviceInfo) returns (first: AddOutcome, second: AddOutcome)
    requires m.Valid() && m.counter + 2 < UINT_RANGE
    modifies m
    ensures m.Valid()
    ensures first.Added? && second.Added? ==> first.index < second.index
    ensures a.identifier == b.identifier ==> !(first.Added? && second.Added?)
  {
    first := m.DeviceAddedHandler(Some(a));
    second := m.DeviceAddedHandler(Some(b));
    if first.Added? && a.identifier == b.identifier {
      assert m.devices[first.index] == a || second.Duplicate?;
      assert HasIdentifier(old(m.devices)[first.index := a], a.identifier);
    }
  }
}
