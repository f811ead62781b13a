/**
 * The BlueGiga device-subtype manager: it owns the adapters, forwards
 * scanning to them, and reacts to each AdvertisementReceived by looking for a
 * protocol that matches one of the advertised names.
 *
 * Whether the device configuration knows a Bluetooth LE protocol for a
 * name (`DeviceConfigurationManager.Manager.Find`) is an input predicate
 * `hasProtocol`.
 */
module BlueGigaManager {
  import opened Common
  import opened BlueGigaGuid
  import opened BlueGigaAdvert
  import opened BlueGiga

  /** The serial port the constructor opens, and its speed. */
  const AdapterPort: string := "COM5"
  const AdapterBaud: nat := 256000

  /** How an AdvertisementReceived event ended. */
  datatype Handled =
    | NullAdvertisement        // the event carried no advertisement
    | NoNames                  // the joined names are empty
    | NothingNew               // every name is empty or already seen
    | NoProtocol(name: string) // the first new name has no protocol: remembered as seen
    | Connecting(name: string) // the first new name has a protocol: a connection is requested

  /** The first name that is neither empty nor already seen for the given address. */
  function FirstNewName(address: string, names: seq<string>, seen: seq<string>): (r: Option<string>)
    ensures r.Some? ==> r.value in names && r.value != "" && address + r.value !in seen
    ensures r.None? ==> forall n :: n in names ==> n == "" || address + n in seen
  {
    if names == [] then None
    else if names[0] != "" && address + names[0] !in seen then Some(names[0])
    else FirstNewName(address, names[1..], seen)
  }

  /**
   * The outcome of `handleAdvertisement` for a record: no joined name, no
   * new name, or what the first new name leads to.
   */
  function HandledOf(ad: Advertisement, seen: seq<string>, hasProtocol: string -> bool): Handled {
    if Join(", ", ad.names) == "" then NoNames
    else match FirstNewName(ad.address, ad.names, seen)
      case None => NothingNew
      case Some(n) => if hasProtocol(n) then Connecting(n) else NoProtocol(n)
  }

  /**
   * An advertisement is dropped as nameless exactly when it has no names or
   * its only name is empty; several empty names join to ", " and pass.
   */
  lemma NoNamesExactly(ad: Advertisement, seen: seq<string>, hasProtocol: string -> bool)
    ensures HandledOf(ad, seen, hasProtocol) == NoNames <==> (ad.names == [] || ad.names == [""])
  {
    JoinEmpty(", ", ad.names);
  }

  /** A name without a protocol is remembered, so the same advertisement never looks it up again. */
  lemma NoProtocolOnce(ad: Advertisement, seen: seq<string>, hasProtocol: string -> bool)
    requires HandledOf(ad, seen, hasProtocol).NoProtocol?
    ensures var n := HandledOf(ad, seen, hasProtocol).name;
      HandledOf(ad, seen + [ad.address + n], hasProtocol) != NoProtocol(n)
  {
    var n := HandledOf(ad, seen, hasProtocol).name;
    var seen2 := seen + [ad.address + n];
    assert ad.address + n in seen2;
  }

  /**
   * The walk over the advertised names: it stops at the first name that is
   * neither empty nor seen for the address.
   */
  method FindNewName(address: string, names: seq<string>, seen: seq<string>) returns (found: Option<string>)
    ensures found == FirstNewName(address, names, seen)
  {
    var i := 0;
    while i < |names|
      invariant 0 <= i <= |names|
      invariant FirstNewName(address, names, seen) == FirstNewName(address, names[i..], seen)
    {
      var name := names[i];
      assert names[i..][1..] == names[i + 1..];
      if name == "" || address + name in seen {
        i := i + 1;
        continue;
      }
      return Some(name);
    }
    return None;
  }

  class Manager {
    /** `_seenAddresses`: address + name pairs already found to have no protocol. */
    var seen: seq<string>
    /** `_adapters.Values`, in enumeration order. */
    const adapters: seq<Container>
    /** How many ScanningFinished events were raised. */
    var finishedEvents: nat

    ghost predicate Valid()
      reads this, set a | a in adapters
    {
      && (forall i, j :: 0 <= i < j < |adapters| ==> adapters[i] != adapters[j])
      && (forall a :: a in adapters ==> a.Valid())
    }

    /** The constructor: one adapter on COM5, subscribed to and started. */
    constructor ()
      ensures Valid() && |adapters| == 1 && fresh(adapters[0])
      ensures adapters[0].portName == AdapterPort && adapters[0].baudRate == AdapterBaud
      ensures adapters[0].sent == [SystemGetInfo] + Disconnects(10)
      ensures !adapters[0].scanning && adapters[0].ads == map[] && adapters[0].announced == []
      ensures adapters[0].connections == map[] && adapters[0].completed == []
      ensures seen == [] && finishedEvents == 0
    {
      var c := new Container(AdapterPort, AdapterBaud);
      c.Start();
      adapters := [c];
      seen := [];
      finishedEvents := 0;
    }

    /**
     * `handleAdvertisement`. For the first name that is neither empty nor
     * seen: without a protocol it is remembered and the handler returns; with
     * one the adapter is asked to connect. The rest of the handler waits for
     * the connection and is not part of this model.
     */
    method HandleAdvertisement(event: Option<(Container, string)>, hasProtocol: string -> bool)
      returns (outcome: Handled)
      requires Valid()
      requires event.Some? ==> event.value.0 in adapters && event.value.1 in event.value.0.ads
      modifies this`seen, if event.Some? then {event.value.0} else {}
      ensures Valid()
      ensures event.None? ==> outcome == NullAdvertisement && seen == old(seen)
      ensures event.Some? ==>
        var c, key := event.value.0, event.value.1;
        var ad := old(c.ads)[key];
        && outcome == HandledOf(ad, old(seen), hasProtocol)
        && seen == old(seen) + (if outcome.NoProtocol? then [ad.address + outcome.name] else [])
        && (outcome.Connecting? ==>
              c.ads == old(c.ads)[key := ad.(state := CONNECTING)] &&
              c.sent == old(c.sent) + [GapConnectDirect(ad.rawAddress, ad.addressType, 0x20, 0x30, 0x100, 0)])
        && (!outcome.Connecting? ==> c.ads == old(c.ads) && c.sent == old(c.sent))
      ensures event.Some? ==>
        var c := event.value.0;
        && c.announced == old(c.announced) && c.scanning == old(c.scanning)
        && c.connections == old(c.connections) && c.completed == old(c.completed)
    {
      if event.None? {
        return NullAdvertisement;
      }
      var c, key := event.value.0, event.value.1;
      var ad := c.ads[key];
      var advertNames := Join(", ", ad.names);
      if advertNames == "" {
        return NoNames;
      }
      var found := FindNewName(ad.address, ad.names, seen);
      if found.None? {
        return NothingNew;
      }
      var name := found.value;
      if !hasProtocol(name) {
        seen := seen + [ad.address + name];
        return NoProtocol(name);
      }
      c.GetConnection(key);
      return Connecting(name);
    }

    /** `StartScanning`: forgets what was seen and starts every adapter. */
    method StartScanning()
      requires Valid()
      modifies this`seen, adapters`scanning, adapters`sent
      ensures Valid() && seen == []
      ensures forall a :: a in adapters ==> a.scanning && a.sent == old(a.sent) + ScanStartCommands
      ensures forall a :: a in adapters ==>
        && a.ads == old(a.ads) && a.announced == old(a.announced)
        && a.connections == old(a.connections) && a.completed == old(a.completed)
    {
      seen := [];
      var i := 0;
      while i < |adapters|
        invariant 0 <= i <= |adapters| && Valid()
        invariant forall j :: 0 <= j < i ==>
          adapters[j].scanning && adapters[j].sent == old(adapters[j].sent) + ScanStartCommands
        invariant forall j :: i <= j < |adapters| ==>
          adapters[j].scanning == old(adapters[j].scanning) && adapters[j].sent == old(adapters[j].sent)
        invariant forall a :: a in adapters ==> a.ads == old(a.ads) && a.announced == old(a.announced)
        invariant seen == []
      {
        adapters[i].StartScanning();
        i := i + 1;
      }
    }

    /** `StopScanning`: stops every adapter, then raises ScanningFinished. */
    method StopScanning()
      requires Valid()
      modifies this`finishedEvents, adapters`scanning, adapters`sent
      ensures Valid() && finishedEvents == old(finishedEvents) + 1
      ensures forall a :: a in adapters ==> !a.scanning && a.sent == old(a.sent) + [GapEndProcedure]
      ensures forall a :: a in adapters ==>
        && a.ads == old(a.ads) && a.announced == old(a.announced)
        && a.connections == old(a.connections) && a.completed == old(a.completed)
    {
      var i := 0;
      while i < |adapters|
        invariant 0 <= i <= |adapters| && Valid()
        invariant forall j :: 0 <= j < i ==>
          !adapters[j].scanning && adapters[j].sent == old(adapters[j].sent) + [GapEndProcedure]
        invariant forall j :: i <= j < |adapters| ==>
          adapters[j].scanning == old(adapters[j].scanning) && adapters[j].sent == old(adapters[j].sent)
        invariant forall a :: a in adapters ==> a.ads == old(a.ads) && a.announced == old(a.announced)
        invariant finishedEvents == old(finishedEvents)
      {
        adapters[i].StopScanning();
        i := i + 1;
      }
      finishedEvents := finishedEvents + 1;
    }

    /** `IsScanning`: whether some adapter is scanning. */
    method IsScanning() returns (r: bool)
      ensures r <==> exists a :: a in adapters && a.scanning
    {
      var i := 0;
      while i < |adapters|
        invariant 0 <= i <= |adapters|
        invariant forall j :: 0 <= j < i ==> !adapters[j].scanning
      {
        if adapters[i].scanning {
          return true;
        }
        i := i + 1;
      }
      return false;
    }
  }
}
