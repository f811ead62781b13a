/**
 * One BlueGiga adapter (`BlueGigaContainer`): the records it keeps per
 * remote address, the connection handles it has opened, and its reactions
 * to the radio's events — scan responses, connection status, GATT service
 * groups found, and completed GATT procedures.
 *
 * The serial port is seen only through the commands written to it, kept in
 * order in `sent`; the radio's events are the methods' parameters. The two
 * events the adapter raises (AdvertisementReceived, an advertisement's
 * ConnectionComplete) are kept in order as the address of the record they
 * carry.
 */
module BlueGiga {
  import opened Common
  import opened BlueGigaGuid
  import opened BlueGigaAdvert

  /** The BGLib commands the adapter writes to the port. */
  datatype Command =
    | SystemGetInfo
    | ConnectionDisconnect(connection: byte)
    | GapSetScanParameters(scanInterval: ushort, scanWindow: ushort, active: byte)
    | GapDiscover(mode: byte)
    | GapEndProcedure
    | GapConnectDirect(address: seq<byte>, addressType: byte, connIntervalMin: ushort, connIntervalMax: ushort,
                       timeout: ushort, latency: ushort)
    | AttClientReadByGroupType(connection: byte, start: ushort, end: ushort, uuid: seq<byte>)
    | AttClientFindInformation(connection: byte, start: ushort, end: ushort)
    | AttClientWriteCommand(connection: byte, handle: ushort, value: seq<byte>)

  /** The disconnects `Start` sends, for connection handles 0 .. n-1 in order. */
  function Disconnects(n: nat): (r: seq<Command>)
    requires n <= 256
    ensures |r| == n
    ensures forall i :: 0 <= i < n ==> r[i] == ConnectionDisconnect(i)
  {
    if n == 0 then [] else Disconnects(n - 1) + [ConnectionDisconnect(n - 1)]
  }

  /** The scan parameters `StartScanning` sets: interval 200, window 200, active scanning. */
  const ScanStartCommands: seq<Command> := [GapSetScanParameters(200, 200, 1), GapDiscover(1)]

  /** The GATT "primary service" declaration type 0x2800, little-endian. */
  const PrimaryServiceType: seq<byte> := [0x00, 0x28]

  /** A connection-status event reports a usable connection when flag bits 0 and 2 are both set. */
  predicate Connected(flags: byte) {
    (flags as bv8) & 5 == 5
  }

  // ---------------------------------------------------------------------
  // Services

  /** The service being scanned exists and is not scanned yet. */
  ghost predicate PendingOk(ad: Advertisement) {
    ad.serviceScanning.Some? ==>
      exists i :: 0 <= i < |ad.services| && ad.services[i].uuid == ad.serviceScanning.value && !ad.services[i].scanned
  }

  /** What the adapter keeps about every record it holds. */
  ghost predicate AdOk(key: string, ad: Advertisement) {
    ad.address == key && UniqueUuids(ad.services) && PendingOk(ad)
  }

  /**
   * A group-found event for service g: an existing entry gets the handle
   * range and is marked discovered; otherwise a discovered entry is added.
   */
  function RecordGroup(services: seq<ServiceInfo>, g: Guid, start: ushort, end: ushort): (r: seq<ServiceInfo>)
    ensures |r| == |services| + (if HasService(services, g) then 0 else 1)
    ensures forall i :: 0 <= i < |services| ==>
      r[i].uuid == services[i].uuid && r[i].scanned == services[i].scanned &&
      (services[i].uuid != g ==> r[i] == services[i])
    ensures forall i :: |services| <= i < |r| ==> r[i] == ServiceInfo(g, true, false, start, end)
    ensures forall i :: 0 <= i < |r| && r[i].uuid == g ==> r[i].discovered && r[i].start == start && r[i].end == end
    ensures HasService(r, g)
  {
    if HasService(services, g) then
      seq(|services|, i requires 0 <= i < |services| =>
        if services[i].uuid == g then services[i].(start := start, end := end, discovered := true) else services[i])
    else
      var r := services + [ServiceInfo(g, true, false, start, end)];
      assert r[|services|].uuid == g;
      r
  }

  /** Group-found results keep the services' Guids distinct and the pending one unscanned. */
  lemma RecordGroupKeeps(ad: Advertisement, g: Guid, start: ushort, end: ushort)
    requires UniqueUuids(ad.services) && PendingOk(ad)
    ensures var r := ad.(services := RecordGroup(ad.services, g, start, end));
      UniqueUuids(r.services) && PendingOk(r)
  {
    var s := RecordGroup(ad.services, g, start, end);
    if ad.serviceScanning.Some? {
      var i :| 0 <= i < |ad.services| && ad.services[i].uuid == ad.serviceScanning.value && !ad.services[i].scanned;
      assert s[i].uuid == ad.serviceScanning.value && !s[i].scanned;
    }
  }

  /** The pending service's entry marked scanned. */
  function MarkScanned(services: seq<ServiceInfo>, g: Guid): (r: seq<ServiceInfo>)
    ensures |r| == |services|
  {
    seq(|services|, i requires 0 <= i < |services| =>
      if services[i].uuid == g then services[i].(scanned := true) else services[i])
  }

  /** The first entry that is not scanned (the `Where(s => !s.scanned)` loop's first iteration). */
  function FirstUnscanned(services: seq<ServiceInfo>): (r: Option<nat>)
    ensures r.Some? ==> r.value < |services| && !services[r.value].scanned
    ensures r.Some? ==> forall j :: 0 <= j < r.value ==> services[j].scanned
    ensures r.None? ==> forall j :: 0 <= j < |services| ==> services[j].scanned
  {
    if services == [] then None
    else if !services[0].scanned then Some(0)
    else match FirstUnscanned(services[1..])
      case None => None
      case Some(k) => Some(k + 1)
  }

  /** How many entries are not scanned yet. */
  function Unscanned(services: seq<ServiceInfo>): nat {
    if services == [] then 0 else (if services[0].scanned then 0 else 1) + Unscanned(services[1..])
  }

  /**
   * The first half of a procedure-completed event: the service that was
   * being scanned, if it is found, is marked scanned and nothing is pending.
   */
  function FinishPending(ad: Advertisement): (r: Advertisement)
    ensures r.address == ad.address && r.state == ad.state && r.names == ad.names
    ensures |r.services| == |ad.services|
    ensures ad.serviceScanning.Some? && HasService(ad.services, ad.serviceScanning.value) ==> r.serviceScanning.None?
  {
    if ad.serviceScanning.Some? && HasService(ad.services, ad.serviceScanning.value) then
      ad.(services := MarkScanned(ad.services, ad.serviceScanning.value), serviceScanning := None)
    else ad
  }

  /**
   * A procedure-completed event on a record scanning services: after the
   * pending service is finished, the first unscanned service becomes the
   * pending one; when there is none the record has scanned all services.
   */
  function AfterCompletion(ad: Advertisement): (r: Advertisement)
    ensures r.state == SERVICESSCANNED || r.state == ad.state
  {
    var m := FinishPending(ad);
    match FirstUnscanned(m.services)
    case Some(i) => m.(serviceScanning := Some(m.services[i].uuid))
    case None => m.(state := SERVICESSCANNED)
  }

  /** The FindInformation command a completion sends, for the newly pending service's handle range. */
  function CompletionCommand(ad: Advertisement): (r: Option<Command>)
    ensures ad.state != SERVICESSCANNED ==> (r.None? <==> AfterCompletion(ad).state == SERVICESSCANNED)
  {
    var m := FinishPending(ad);
    match FirstUnscanned(m.services)
    case Some(i) => Some(AttClientFindInformation(ad.connectionHandle, m.services[i].start, m.services[i].end))
    case None => None
  }

  /** How far a record is from having scanned all services; each completion lowers it. */
  function ScanMeasure(ad: Advertisement): nat {
    if ad.state == SCANNINGSERVICES then 2 * Unscanned(ad.services) + (if ad.serviceScanning.None? then 2 else 1) else 0
  }

  /** Marking one distinct, unscanned Guid scanned lowers the count by one. */
  lemma {:induction false} MarkScannedCount(services: seq<ServiceInfo>, g: Guid, k: nat)
    requires UniqueUuids(services)
    requires k < |services| && services[k].uuid == g && !services[k].scanned
    ensures Unscanned(MarkScanned(services, g)) + 1 == Unscanned(services)
  {
    var m := MarkScanned(services, g);
    var rest := services[1..];
    assert UniqueUuids(rest) by {
      forall i, j | 0 <= i < j < |rest| ensures rest[i].uuid != rest[j].uuid {
        assert rest[i] == services[i + 1] && rest[j] == services[j + 1];
      }
    }
    assert m[1..] == MarkScanned(rest, g);
    if k == 0 {
      forall i | 0 <= i < |rest| ensures rest[i].uuid != g {
        assert rest[i] == services[i + 1];
      }
      MarkScannedAbsent(rest, g);
    } else {
      assert services[0].uuid != g by {
        assert services[0].uuid != services[k].uuid;
      }
      MarkScannedCount(rest, g, k - 1);
    }
  }

  /** Marking a Guid no entry has changes nothing. */
  lemma MarkScannedAbsent(services: seq<ServiceInfo>, g: Guid)
    requires forall i :: 0 <= i < |services| ==> services[i].uuid != g
    ensures MarkScanned(services, g) == services
  {
  }

  /** Marking keeps the Guids, so it keeps them distinct. */
  lemma MarkScannedUnique(services: seq<ServiceInfo>, g: Guid)
    requires UniqueUuids(services)
    ensures UniqueUuids(MarkScanned(services, g))
  {
    var m := MarkScanned(services, g);
    assert forall i :: 0 <= i < |services| ==> m[i].uuid == services[i].uuid;
  }

  /** The first half of a completion removes the pending service from the count, if there was one. */
  lemma FinishPendingFacts(ad: Advertisement)
    requires UniqueUuids(ad.services) && PendingOk(ad)
    ensures var m := FinishPending(ad);
      && m.serviceScanning.None? && m.state == ad.state && UniqueUuids(m.services)
      && Unscanned(m.services) + (if ad.serviceScanning.Some? then 1 else 0) == Unscanned(ad.services)
  {
    if ad.serviceScanning.Some? {
      var g := ad.serviceScanning.value;
      var k :| 0 <= k < |ad.services| && ad.services[k].uuid == g && !ad.services[k].scanned;
      MarkScannedCount(ad.services, g, k);
      MarkScannedUnique(ad.services, g);
    }
  }

  /**
   * Service discovery terminates: while a record is scanning services,
   * every procedure-completed event lowers its measure, so after finitely
   * many it reaches SERVICESSCANNED.
   */
  lemma CompletionProgress(ad: Advertisement)
    requires ad.state == SCANNINGSERVICES && UniqueUuids(ad.services) && PendingOk(ad)
    ensures ScanMeasure(AfterCompletion(ad)) < ScanMeasure(ad)
  {
    FinishPendingFacts(ad);
    var m := FinishPending(ad);
    match FirstUnscanned(m.services)
    case None =>
    case Some(i) =>
      UnscannedPositive(m.services, i);
  }

  lemma {:induction false} UnscannedPositive(services: seq<ServiceInfo>, i: nat)
    requires i < |services| && !services[i].scanned
    ensures Unscanned(services) >= 1
  {
    if i > 0 {
      UnscannedPositive(services[1..], i - 1);
    }
  }

  /**
   * A completion keeps the record well formed, and it declares the services
   * scanned only when every one of them is.
   */
  lemma CompletionKeeps(key: string, ad: Advertisement)
    requires AdOk(key, ad)
    ensures AdOk(key, AfterCompletion(ad))
    ensures ad.state == SCANNINGSERVICES && AfterCompletion(ad).state == SERVICESSCANNED ==>
      forall j :: 0 <= j < |ad.services| ==> AfterCompletion(ad).services[j].scanned
  {
    FinishPendingFacts(ad);
    var m := FinishPending(ad);
    match FirstUnscanned(m.services)
    case None =>
    case Some(i) =>
      var r := AfterCompletion(ad);
      assert r.services[i].uuid == r.serviceScanning.value && !r.services[i].scanned;
  }

  class Container {
    /** The serial port the adapter is attached to. */
    const portName: string
    /** The port's baud rate. */
    const baudRate: nat
    /** `Scanning`. */
    var scanning: bool
    /** `Advertisements`, keyed by the hex text of the address. */
    var ads: map<string, Advertisement>
    /** `Connections`: connection handle to address. */
    var connections: map<byte, string>
    /** The commands written to the port, in order. */
    var sent: seq<Command>
    /** The AdvertisementReceived events raised, as the address of their record. */
    var announced: seq<string>
    /** The ConnectionComplete events fired, as the address of their record. */
    var completed: seq<string>

    ghost predicate Valid()
      reads this
    {
      forall a :: a in ads ==> AdOk(a, ads[a])
    }

    constructor (portName: string, baudRate: nat)
      ensures Valid() && this.portName == portName && this.baudRate == baudRate
      ensures !scanning && ads == map[] && connections == map[]
      ensures sent == [] && announced == [] && completed == []
    {
      this.portName := portName;
      this.baudRate := baudRate;
      scanning := false;
      ads := map[];
      connections := map[];
      sent := [];
      announced := [];
      completed := [];
    }

    /** `Start`: after opening the port, asks for the radio's info and closes connection handles 0..9. */
    method Start()
      requires Valid()
      modifies this`sent
      ensures Valid()
      ensures sent == old(sent) + [SystemGetInfo] + Disconnects(10)
    {
      sent := sent + [SystemGetInfo];
      var i := 0;
      while i < 10
        invariant 0 <= i <= 10
        invariant sent == old(sent) + [SystemGetInfo] + Disconnects(i)
      {
        sent := sent + [ConnectionDisconnect(i)];
        i := i + 1;
      }
    }

    method StartScanning()
      requires Valid()
      modifies this`scanning, this`sent
      ensures Valid()
      ensures scanning && sent == old(sent) + ScanStartCommands
    {
      scanning := true;
      sent := sent + [GapSetScanParameters(200, 200, 1)];
      sent := sent + [GapDiscover(1)];
    }

    method StopScanning()
      requires Valid()
      modifies this`scanning, this`sent
      ensures Valid()
      ensures !scanning && sent == old(sent) + [GapEndProcedure]
    {
      sent := sent + [GapEndProcedure];
      scanning := false;
    }

    /**
     * `GetConnection`: a direct connect to the record's raw address (interval
     * 0x20..0x30, timeout 0x100, latency 0), and the record is CONNECTING.
     */
    method GetConnection(key: string)
      requires Valid() && key in ads
      modifies this`ads, this`sent
      ensures Valid()
      ensures ads == old(ads)[key := old(ads)[key].(state := CONNECTING)]
      ensures sent == old(sent) + [GapConnectDirect(old(ads)[key].rawAddress, old(ads)[key].addressType, 0x20, 0x30, 0x100, 0)]
    {
      var target := ads[key];
      sent := sent + [GapConnectDirect(target.rawAddress, target.addressType, 0x20, 0x30, 0x100, 0)];
      ads := ads[key := target.(state := CONNECTING)];
    }

    /**
     * `handleScanResponseEvent`. The record for the sender's address is
     * fetched or created, the advertising data is cut into fields byte by
     * byte, each complete field is applied, and AdvertisementReceived is
     * raised once at the end if any field changed the record.
     */
    method ScanResponse(sender: seq<byte>, addressType: byte, data: seq<byte>, utf8: seq<byte> -> string)
      requires Valid()
      requires AllFieldsOk(FieldsFrom(data, 0))
      modifies this`ads, this`announced
      ensures Valid()
      ensures var key := Hex(sender);
        var base := if key in old(ads) then old(ads)[key] else NewAdvertisement(key, sender, addressType);
        var r := ApplyFields(base, FieldsFrom(data, 0), utf8);
        && ads == old(ads)[key := r.0]
        && announced == old(announced) + (if r.1 then [key] else [])
    {
      var key := ByteToHex(sender);
      var ad := if key in ads then ads[key] else NewAdvertisement(key, sender, addressType);
      var updated, changed := ParseAdvertisingData(ad, data, utf8);
      ApplyFieldsGrows(ad, FieldsFrom(data, 0), utf8);
      GrowsKeepsAd(key, ad, updated);
      ads := ads[key := updated];
      if changed {
        announced := announced + [key];
      }
    }

    /**
     * `ConnectionStatusEvent`. When flags 1 and 4 are both set the record for
     * the address (created if need be) takes the connection handle, the
     * handle is mapped to the address, a primary-service discovery over
     * handles 1..0xFFFF is sent, and the record is SCANNINGSERVICES.
     */
    method ConnectionStatus(connection: byte, flags: byte, address: seq<byte>, addressType: byte)
      requires Valid()
      modifies this`ads, this`connections, this`sent
      ensures Valid()
      ensures !Connected(flags) ==> ads == old(ads) && connections == old(connections) && sent == old(sent)
      ensures Connected(flags) ==>
        var key := Hex(address);
        var base := if key in old(ads) then old(ads)[key] else NewAdvertisement(key, address, addressType);
        && ads == old(ads)[key := base.(connectionHandle := connection, state := SCANNINGSERVICES)]
        && connections == old(connections)[connection := key]
        && sent == old(sent) + [AttClientReadByGroupType(connection, 1, 0xFFFF, PrimaryServiceType)]
    {
      if Connected(flags) {
        var key := ByteToHex(address);
        var ad := if key in ads then ads[key] else NewAdvertisement(key, address, addressType);
        ad := ad.(connectionHandle := connection);
        ad := ad.(state := CONNECTED);
        connections := connections[connection := ad.address];
        sent := sent + [AttClientReadByGroupType(connection, 1, 0xFFFF, PrimaryServiceType)];
        ad := ad.(state := SCANNINGSERVICES);
        ads := ads[key := ad];
      }
    }

    /**
     * `ATTClientGroupFoundEvent`. The log line builds the Guid first, so a
     * UUID whose length is not 2, 4 or 16 throws before anything changes.
     * Otherwise, for a known connection whose record exists, the service is
     * recorded as discovered with its handle range.
     */
    method GroupFound(connection: byte, start: ushort, end: ushort, uuid: seq<byte>) returns (threw: bool)
      requires Valid()
      modifies this`ads
      ensures Valid()
      ensures threw <==> ArrayToGuid(uuid).None?
      ensures !threw && connection in old(connections) && old(connections)[connection] in old(ads) ==>
        var key := old(connections)[connection];
        ads == old(ads)[key := old(ads)[key].(services := RecordGroup(old(ads)[key].services, ArrayToGuid(uuid).value, start, end))]
      ensures threw || !(connection in old(connections) && old(connections)[connection] in old(ads)) ==> ads == old(ads)
    {
      var guid := ArrayToGuid(uuid);
      if guid.None? {
        return true;
      }
      var g := guid.value;
      if connection in connections && connections[connection] in ads {
        var key := connections[connection];
        var ad := ads[key];
        RecordGroupKeeps(ad, g, start, end);
        ads := ads[key := ad.(services := RecordGroup(ad.services, g, start, end))];
      }
      return false;
    }

    /** The record a procedure-completed event on a connection acts on: known, and scanning services. */
    function ScanningRecord(connection: byte): (r: Option<string>)
      reads this
      ensures r.Some? <==> connection in connections && connections[connection] in ads && ads[connections[connection]].state == SCANNINGSERVICES
      ensures r.Some? ==> r.value == connections[connection] && r.value in ads
    {
      if connection in connections && connections[connection] in ads && ads[connections[connection]].state == SCANNINGSERVICES
      then Some(connections[connection]) else None
    }

    /**
     * `ATTClientProcedureCompletedEvent`. For a known connection whose record
     * is scanning services: the pending service is marked scanned; then the
     * first unscanned service becomes pending and its attributes are asked
     * for, or, when there is none, the record is SERVICESSCANNED and its
     * ConnectionComplete fires.
     */
    method ProcedureCompleted(connection: byte)
      requires Valid()
      modifies this`ads, this`sent, this`completed
      ensures Valid()
      ensures old(ScanningRecord(connection)).None? ==> ads == old(ads) && sent == old(sent) && completed == old(completed)
      ensures old(ScanningRecord(connection)).Some? ==>
        var key := old(ScanningRecord(connection)).value;
        ads == old(ads)[key := AfterCompletion(old(ads)[key])]
      ensures old(ScanningRecord(connection)).Some? ==>
        var cmd := CompletionCommand(old(ads)[old(ScanningRecord(connection)).value]);
        && sent == old(sent) + (if cmd.Some? then [cmd.value] else [])
        && completed == old(completed) + (if cmd.None? then [old(ScanningRecord(connection)).value] else [])
    {
      var target := ScanningRecord(connection);
      if target.Some? {
        var key := target.value;
        var ad := ads[key];
        ghost var ad0 := ad;
        CompletionKeeps(key, ad);
        if ad.serviceScanning.Some? && HasService(ad.services, ad.serviceScanning.value) {
          ad := ad.(services := MarkScanned(ad.services, ad.serviceScanning.value), serviceScanning := None);
        }
        assert ad == FinishPending(ad0);
        var next := FindUnscanned(ad.services);
        if next.Some? {
          var svc := ad.services[next.value];
          ad := ad.(serviceScanning := Some(svc.uuid));
          assert CompletionCommand(ad0) == Some(AttClientFindInformation(ad.connectionHandle, svc.start, svc.end));
          sent := sent + [AttClientFindInformation(ad.connectionHandle, svc.start, svc.end)];
        } else {
          ad := ad.(state := SERVICESSCANNED);
          assert CompletionCommand(ad0) == None;
          completed := completed + [key];
        }
        assert ad == AfterCompletion(ad0);
        ads := ads[key := ad];
      }
    }

    /** `Send`: an unacknowledged write of the value to an attribute handle on a connection. */
    method Send(value: seq<byte>, connectionHandle: byte, endpoint: ushort)
      requires Valid()
      modifies this`sent
      ensures Valid()
      ensures sent == old(sent) + [AttClientWriteCommand(connectionHandle, endpoint, value)]
    {
      sent := sent + [AttClientWriteCommand(connectionHandle, endpoint, value)];
    }
  }

  /**
   * The field loop of `handleScanResponseEvent`: each byte either starts a
   * field (its length, with a fresh buffer of that size) or is copied into
   * the current field's buffer; the field is applied to the record when its
   * last byte arrives.
   */
  method ParseAdvertisingData(ad0: Advertisement, data: seq<byte>, utf8: seq<byte> -> string)
    returns (ad: Advertisement, changed: bool)
    requires AllFieldsOk(FieldsFrom(data, 0))
    ensures (ad, changed) == ApplyFields(ad0, FieldsFrom(data, 0), utf8)
  {
    ghost var total := ApplyFields(ad0, FieldsFrom(data, 0), utf8);
    ad := ad0;
    changed := false;
    var thisField: array<byte> := new byte[0];
    var bytesLeft: nat := 0;
    var fieldOffset: nat := 0;
    ghost var q: nat := 0;
    var i := 0;
    while i < |data|
      invariant 0 <= i <= |data|
      invariant fresh(thisField)
      invariant q <= i
      invariant bytesLeft == 0 ==> q == i
      invariant bytesLeft > 0 ==> FieldUnderway(data, q, i, fieldOffset, bytesLeft, thisField[..])
      invariant AllFieldsOk(FieldsFrom(data, q))
      invariant ResumesTo(ad, changed, FieldsFrom(data, q), utf8, total)
    {
      if bytesLeft == 0 {
        bytesLeft := data[i];
        thisField := new byte[data[i]];
        fieldOffset := i + 1;
        if data[i] == 0 {
          FieldsFromSkip(data, i);
          q := i + 1;
        }
      } else {
        ghost var before := thisField[..];
        thisField[i - fieldOffset] := data[i];
        bytesLeft := bytesLeft - 1;
        assert thisField[..] == before[i - fieldOffset := data[i]];
        CollectStep(data, q, i, fieldOffset, bytesLeft, before);
        if bytesLeft == 0 {
          var f := thisField[..];
          FieldDone(ad, changed, f, FieldsFrom(data, i + 1), utf8, total);
          var step := ApplyField(ad, f, utf8);
          ad := step.0;
          changed := changed || step.1;
          q := i + 1;
        }
      }
      i := i + 1;
    }
    if bytesLeft > 0 {
      FieldsFromCut(data, q);
    }
  }

  /** The first service not yet scanned, by the loop `ProcedureCompleted` runs over the services. */
  method FindUnscanned(services: seq<ServiceInfo>) returns (next: Option<nat>)
    ensures next == FirstUnscanned(services)
  {
    var i := 0;
    while i < |services|
      invariant 0 <= i <= |services|
      invariant forall j :: 0 <= j < i ==> services[j].scanned
    {
      if !services[i].scanned {
        return Some(i);
      }
      i := i + 1;
    }
    return None;
  }

  /** Copying byte i into the buffer: the field is still underway, or it is complete and is the next field. */
  lemma CollectStep(d: seq<byte>, q: nat, i: nat, fieldOffset: nat, bytesLeft: nat, before: seq<byte>)
    requires i < |d| && FieldUnderway(d, q, i, fieldOffset, bytesLeft + 1, before)
    ensures var after := before[i - fieldOffset := d[i]];
      && (bytesLeft > 0 ==> FieldUnderway(d, q, i + 1, fieldOffset, bytesLeft, after))
      && (bytesLeft == 0 ==> FieldsFrom(d, q) == [after] + FieldsFrom(d, i + 1))
  {
    var after := before[i - fieldOffset := d[i]];
    assert after[..i + 1 - fieldOffset] == d[fieldOffset..i + 1];
    if bytesLeft == 0 {
      assert after == d[q + 1..q + 1 + d[q]];
      FieldsFromStep(d, q);
    }
  }

  /** While a field is being collected: where it started, how much is left, what is collected so far. */
  ghost predicate FieldUnderway(d: seq<byte>, q: nat, i: nat, fieldOffset: nat, bytesLeft: nat, field: seq<byte>) {
    && q < |d| && fieldOffset == q + 1 && fieldOffset <= i <= |d|
    && d[q] == bytesLeft + (i - fieldOffset)
    && |field| == d[q]
    && field[..i - fieldOffset] == d[fieldOffset..i]
  }

  /** Applying the fields still ahead to the record so far gives the whole response's result. */
  ghost predicate ResumesTo(ad: Advertisement, changed: bool, ahead: seq<seq<byte>>, utf8: seq<byte> -> string,
                            total: (Advertisement, bool))
    requires AllFieldsOk(ahead)
  {
    var r := ApplyFields(ad, ahead, utf8);
    r.0 == total.0 && (changed || r.1) == total.1
  }

  /** Applying a completed field leaves the fields after it to reach the same result. */
  lemma FieldDone(ad: Advertisement, changed: bool, f: seq<byte>, rest: seq<seq<byte>>, utf8: seq<byte> -> string,
                  total: (Advertisement, bool))
    requires AllFieldsOk([f] + rest) && ResumesTo(ad, changed, [f] + rest, utf8, total)
    ensures FieldOk(f) && AllFieldsOk(rest)
    ensures ResumesTo(ApplyField(ad, f, utf8).0, changed || ApplyField(ad, f, utf8).1, rest, utf8, total)
  {
    AllFieldsOkTail(f, rest);
    ApplyFieldsCons(ad, f, rest, utf8);
  }

  /** A record grown by a scan response is still well formed under its key. */
  lemma GrowsKeepsAd(key: string, a: Advertisement, b: Advertisement)
    requires AdOk(key, a) && Grows(a, b) && UniqueUuids(b.services)
    ensures AdOk(key, b)
  {
    if a.serviceScanning.Some? {
      var i :| 0 <= i < |a.services| && a.services[i].uuid == a.serviceScanning.value && !a.services[i].scanned;
      assert b.services[i] == a.services[i];
    }
  }
}
