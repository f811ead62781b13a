/**
 * What a BlueGiga adapter learns about one remote device from its scan
 * responses: the advertising-data fields of a response, and how each field
 * updates the record kept for the device's address (its flags, its
 * advertised service UUIDs and its names).
 *
 * The advertising data is a run of fields, each a length byte L followed by
 * L bytes whose first byte is the field's type. A zero length is an empty
 * field; a field the data ends inside of is never looked at.
 */
module BlueGigaAdvert {
  import opened Common
  import opened BlueGigaGuid

  /** `BlueGigaState`: where a device is in the connect / discover sequence. */
  datatype BlueGigaState = ADVERTISEMENT | CONNECTING | CONNECTED | SCANNINGSERVICES | SERVICESSCANNED | DISCONNECTED

  /** `BlueGigaServiceInfo`: one service, its handle range and its discovery progress. */
  datatype ServiceInfo = ServiceInfo(uuid: Guid, discovered: bool, scanned: bool, start: ushort, end: ushort)

  /** A service first heard of in an advertisement: nothing discovered or scanned yet. */
  function NewService(g: Guid): ServiceInfo {
    ServiceInfo(g, false, false, 0, 0)
  }

  /**
   * `BlueGigaAdvertisement`. `services` is the Services dictionary in
   * insertion order (entries are never removed, so this is the order its
   * values enumerate in).
   */
  datatype Advertisement = Advertisement(
    address: string,
    names: seq<string>,
    services: seq<ServiceInfo>,
    flags: bv8,
    rawAddress: seq<byte>,
    addressType: byte,
    connectionHandle: byte,
    state: BlueGigaState,
    serviceScanning: Option<Guid>)

  /** The record `GetOrAdd` creates for an address it has not seen. */
  function NewAdvertisement(address: string, raw: seq<byte>, addressType: byte): (r: Advertisement)
    ensures r.address == address && r.rawAddress == raw && r.addressType == addressType
    ensures r.names == [] && r.services == [] && r.flags == 0
    ensures r.state == ADVERTISEMENT && r.serviceScanning == None
  {
    Advertisement(address, [], [], 0, raw, addressType, 0, ADVERTISEMENT, None)
  }

  predicate HasService(services: seq<ServiceInfo>, g: Guid) {
    exists i :: 0 <= i < |services| && services[i].uuid == g
  }

  /** The Services dictionary has one entry per Guid. */
  ghost predicate UniqueUuids(services: seq<ServiceInfo>) {
    forall i, j :: 0 <= i < j < |services| ==> services[i].uuid != services[j].uuid
  }

  /** The field byte `Flags` is ORed with, as the eight bits it sets. */
  function Bits(b: byte): bv8 {
    b as bv8
  }

  /** Every bit set in b is set in a. */
  predicate Covers(a: bv8, b: bv8) {
    a | b == a
  }

  lemma OrCovers(a: bv8, b: bv8)
    ensures Covers(a | b, a) && Covers(a | b, b)
  {
  }

  lemma CoversTransitive(a: bv8, b: bv8, c: bv8)
    requires Covers(a, b) && Covers(b, c)
    ensures Covers(a, c)
  {
  }

  // ---------------------------------------------------------------------
  // The fields of the advertising data

  /**
   * The complete fields from position p on, each with its type byte first:
   * a zero length byte is skipped, a field of length L starting at p is
   * bytes p+1 .. p+L, and a field the data ends inside of ends the list.
   */
  function FieldsFrom(d: seq<byte>, p: nat): (r: seq<seq<byte>>)
    ensures forall k :: 0 <= k < |r| ==> 1 <= |r[k]|
    decreases |d| - p
  {
    if p >= |d| then []
    else if d[p] == 0 then FieldsFrom(d, p + 1)
    else if p + d[p] < |d| then [d[p + 1..p + 1 + d[p]]] + FieldsFrom(d, p + 1 + d[p])
    else []
  }

  /** `Take(n)`: at most the first n entries. */
  function Take(s: seq<byte>, n: nat): (r: seq<byte>)
    ensures |r| == if |s| < n then |s| else n
    ensures r == s[..|r|]
  {
    if |s| <= n then s else s[..n]
  }

  /** Types 2..7 list 16-bit, 32-bit and 128-bit service UUIDs (partial or complete list). */
  predicate IsUuidField(f: seq<byte>) {
    |f| >= 1 && 2 <= f[0] <= 7
  }

  predicate IsNameField(f: seq<byte>) {
    |f| >= 1 && (f[0] == 8 || f[0] == 9)
  }

  /** The bytes of the first UUID of a UUID-list field: `Skip(1).Take(2, 4 or 16)`. */
  function FieldUuidBytes(f: seq<byte>): (r: seq<byte>)
    requires IsUuidField(f)
    ensures |r| <= |f| - 1
    ensures |r| == (if f[0] <= 3 then 2 else if f[0] <= 5 then 4 else 16) || |r| == |f| - 1
  {
    Take(f[1..], if f[0] <= 3 then 2 else if f[0] <= 5 then 4 else 16)
  }

  /**
   * A field the parser handles without throwing: a flags field reads its
   * second byte, and a UUID field hands its bytes to the Guid constructor,
   * which takes only 2, 4 or 16 of them.
   */
  predicate FieldOk(f: seq<byte>) {
    && |f| >= 1
    && (f[0] == 1 ==> |f| >= 2)
    && (IsUuidField(f) ==> ArrayToGuid(FieldUuidBytes(f)).Some?)
  }

  predicate AllFieldsOk(fs: seq<seq<byte>>) {
    forall k :: 0 <= k < |fs| ==> FieldOk(fs[k])
  }

  /** Everything of a record other than what scan responses add. */
  predicate SameDevice(a: Advertisement, b: Advertisement) {
    && a.address == b.address && a.rawAddress == b.rawAddress && a.addressType == b.addressType
    && a.connectionHandle == b.connectionHandle && a.state == b.state && a.serviceScanning == b.serviceScanning
  }

  /** What one field says: the record already records it. */
  predicate Contains(ad: Advertisement, f: seq<byte>, utf8: seq<byte> -> string)
    requires FieldOk(f)
  {
    if f[0] == 1 then Covers(ad.flags, Bits(f[1]))
    else if IsUuidField(f) then HasService(ad.services, ArrayToGuid(FieldUuidBytes(f)).value)
    else if IsNameField(f) then utf8(f[1..]) in ad.names
    else true
  }

  /** b records everything a records: the same device, more flags, and lists that only grew at the end. */
  predicate Grows(a: Advertisement, b: Advertisement) {
    && SameDevice(a, b)
    && Covers(b.flags, a.flags)
    && a.services <= b.services
    && a.names <= b.names
  }

  /**
   * One complete field of the scan-response loop: flags are ORed in, a
   * UUID not yet present becomes a new service, a name not yet present is
   * appended; other types are ignored. The flag says whether the record
   * changed.
   */
  function ApplyField(ad: Advertisement, f: seq<byte>, utf8: seq<byte> -> string): (r: (Advertisement, bool))
    requires FieldOk(f)
    ensures r.1 <==> !Contains(ad, f, utf8)
    ensures !r.1 ==> r.0 == ad
  {
    if f[0] == 1 then
      var b := Bits(f[1]);
      if Covers(ad.flags, b) then (ad, false)
      else (ad.(flags := ad.flags | b), true)
    else if IsUuidField(f) then
      var g := ArrayToGuid(FieldUuidBytes(f)).value;
      if HasService(ad.services, g) then (ad, false)
      else (ad.(services := ad.services + [NewService(g)]), true)
    else if IsNameField(f) then
      var name := utf8(f[1..]);
      if name in ad.names then (ad, false) else (ad.(names := ad.names + [name]), true)
    else
      (ad, false)
  }

  /** The fields of one response, in order; the flag is whether any of them changed the record. */
  function ApplyFields(ad: Advertisement, fs: seq<seq<byte>>, utf8: seq<byte> -> string): (r: (Advertisement, bool))
    requires AllFieldsOk(fs)
    decreases |fs|
  {
    if fs == [] then (ad, false)
    else
      var first := ApplyField(ad, fs[0], utf8);
      var rest := ApplyFields(first.0, fs[1..], utf8);
      (rest.0, first.1 || rest.1)
  }

  // ---------------------------------------------------------------------
  // What a scan response does to the record

  /** A field only adds to the record, and afterwards the record contains it. */
  lemma ApplyFieldGrows(ad: Advertisement, f: seq<byte>, utf8: seq<byte> -> string)
    requires FieldOk(f)
    ensures Grows(ad, ApplyField(ad, f, utf8).0)
    ensures Contains(ApplyField(ad, f, utf8).0, f, utf8)
  {
    if f[0] == 1 {
      OrCovers(ad.flags, Bits(f[1]));
      GrowsReflexive(ad);
    } else if IsUuidField(f) {
      var g := ArrayToGuid(FieldUuidBytes(f)).value;
      if HasService(ad.services, g) {
        GrowsReflexive(ad);
      } else {
        ServiceGrows(ad, g);
      }
    } else if IsNameField(f) {
      var n := utf8(f[1..]);
      if n in ad.names {
        GrowsReflexive(ad);
      } else {
        NameGrows(ad, n);
      }
    } else {
      GrowsReflexive(ad);
    }
  }

  lemma ServiceGrows(ad: Advertisement, g: Guid)
    ensures Grows(ad, ad.(services := ad.services + [NewService(g)]))
    ensures HasService(ad.(services := ad.services + [NewService(g)]).services, g)
  {
    var s := ad.services + [NewService(g)];
    assert s[|ad.services|].uuid == g;
    GrowsReflexive(ad);
  }

  lemma NameGrows(ad: Advertisement, n: string)
    ensures Grows(ad, ad.(names := ad.names + [n]))
  {
    GrowsReflexive(ad);
  }

  /** A field that changes the record makes it differ. */
  lemma ApplyFieldChanged(ad: Advertisement, f: seq<byte>, utf8: seq<byte> -> string)
    requires FieldOk(f)
    ensures ApplyField(ad, f, utf8).1 <==> ApplyField(ad, f, utf8).0 != ad
  {
    if ApplyField(ad, f, utf8).1 {
      ApplyFieldGrows(ad, f, utf8);
    }
  }

  /** A field never gives two services the same Guid. */
  lemma ApplyFieldUnique(ad: Advertisement, f: seq<byte>, utf8: seq<byte> -> string)
    requires FieldOk(f) && UniqueUuids(ad.services)
    ensures UniqueUuids(ApplyField(ad, f, utf8).0.services)
  {
  }

  lemma GrowsTransitive(a: Advertisement, b: Advertisement, c: Advertisement)
    requires Grows(a, b) && Grows(b, c)
    ensures Grows(a, c)
  {
    CoversTransitive(c.flags, b.flags, a.flags);
  }

  lemma GrowsReflexive(a: Advertisement)
    ensures Grows(a, a)
  {
  }

  /** What a record contains stays contained as it grows. */
  lemma ContainsGrows(a: Advertisement, b: Advertisement, f: seq<byte>, utf8: seq<byte> -> string)
    requires FieldOk(f) && Grows(a, b) && Contains(a, f, utf8)
    ensures Contains(b, f, utf8)
  {
    if f[0] == 1 {
      CoversTransitive(b.flags, a.flags, Bits(f[1]));
    } else if IsUuidField(f) {
      var g := ArrayToGuid(FieldUuidBytes(f)).value;
      var i :| 0 <= i < |a.services| && a.services[i].uuid == g;
      assert b.services[i] == a.services[i];
    } else if IsNameField(f) {
      var i :| 0 <= i < |a.names| && a.names[i] == utf8(f[1..]);
      assert b.names[i] == a.names[i];
    }
  }

  /** A response only ever adds to the record and keeps the rest of it. */
  lemma {:induction false} ApplyFieldsGrows(ad: Advertisement, fs: seq<seq<byte>>, utf8: seq<byte> -> string)
    requires AllFieldsOk(fs)
    ensures Grows(ad, ApplyFields(ad, fs, utf8).0)
    ensures UniqueUuids(ad.services) ==> UniqueUuids(ApplyFields(ad, fs, utf8).0.services)
    decreases |fs|
  {
    if fs == [] {
      GrowsReflexive(ad);
    } else {
      var first := ApplyField(ad, fs[0], utf8);
      ApplyFieldGrows(ad, fs[0], utf8);
      if UniqueUuids(ad.services) {
        ApplyFieldUnique(ad, fs[0], utf8);
      }
      ApplyFieldsGrows(first.0, fs[1..], utf8);
      GrowsTransitive(ad, first.0, ApplyFields(first.0, fs[1..], utf8).0);
    }
  }

  /** After a response the record contains every field of it. */
  lemma {:induction false} ApplyFieldsContains(ad: Advertisement, fs: seq<seq<byte>>, utf8: seq<byte> -> string)
    requires AllFieldsOk(fs)
    ensures forall k :: 0 <= k < |fs| ==> Contains(ApplyFields(ad, fs, utf8).0, fs[k], utf8)
    decreases |fs|
  {
    if fs != [] {
      var first := ApplyField(ad, fs[0], utf8);
      var rest := fs[1..];
      ApplyFieldGrows(ad, fs[0], utf8);
      ApplyFieldsContains(first.0, rest, utf8);
      ApplyFieldsGrows(first.0, rest, utf8);
      ContainsGrows(first.0, ApplyFields(first.0, rest, utf8).0, fs[0], utf8);
      forall k | 1 <= k < |fs| ensures Contains(ApplyFields(ad, fs, utf8).0, fs[k], utf8) {
        assert fs[k] == rest[k - 1];
      }
    }
  }

  /** A record that already contains every field of a response is left as it is. */
  lemma {:induction false} ApplyFieldsContained(ad: Advertisement, fs: seq<seq<byte>>, utf8: seq<byte> -> string)
    requires AllFieldsOk(fs)
    requires forall k :: 0 <= k < |fs| ==> Contains(ad, fs[k], utf8)
    ensures ApplyFields(ad, fs, utf8) == (ad, false)
    decreases |fs|
  {
    if fs != [] {
      var rest := fs[1..];
      forall k | 0 <= k < |rest| ensures Contains(ad, rest[k], utf8) {
        assert rest[k] == fs[k + 1];
      }
      ApplyFieldsContained(ad, rest, utf8);
    }
  }

  /**
   * The changed flag of a response is exactly whether the record differs
   * afterwards: a change is never undone by a later field.
   */
  lemma {:induction false} ApplyFieldsChanged(ad: Advertisement, fs: seq<seq<byte>>, utf8: seq<byte> -> string)
    requires AllFieldsOk(fs)
    ensures ApplyFields(ad, fs, utf8).1 <==> ApplyFields(ad, fs, utf8).0 != ad
    decreases |fs|
  {
    if fs != [] {
      var first := ApplyField(ad, fs[0], utf8);
      var rest := fs[1..];
      var final := ApplyFields(first.0, rest, utf8).0;
      if first.1 {
        ApplyFieldGrows(ad, fs[0], utf8);
        ApplyFieldsGrows(first.0, rest, utf8);
        ContainsGrows(first.0, final, fs[0], utf8);
        assert !Contains(ad, fs[0], utf8);
      } else {
        ApplyFieldsChanged(first.0, rest, utf8);
      }
    }
  }

  /**
   * Hearing the same response again changes nothing and raises no event:
   * the second pass finds every field already recorded.
   */
  lemma ReplayUnchanged(ad: Advertisement, fs: seq<seq<byte>>, utf8: seq<byte> -> string)
    requires AllFieldsOk(fs)
    ensures ApplyFields(ApplyFields(ad, fs, utf8).0, fs, utf8) == (ApplyFields(ad, fs, utf8).0, false)
  {
    ApplyFieldsContains(ad, fs, utf8);
    ApplyFieldsContained(ApplyFields(ad, fs, utf8).0, fs, utf8);
  }

  // ---------------------------------------------------------------------
  // Facts the parsing loop steps by

  /** A zero length byte is an empty field and is skipped. */
  lemma FieldsFromSkip(d: seq<byte>, p: nat)
    requires p < |d| && d[p] == 0
    ensures FieldsFrom(d, p) == FieldsFrom(d, p + 1)
  {
  }

  /** A field that ends inside the data is the next field. */
  lemma FieldsFromStep(d: seq<byte>, p: nat)
    requires p < |d| && d[p] != 0 && p + d[p] < |d|
    ensures FieldsFrom(d, p) == [d[p + 1..p + 1 + d[p]]] + FieldsFrom(d, p + 1 + d[p])
  {
  }

  /** A field the data ends inside of, and everything after it, is dropped. */
  lemma FieldsFromCut(d: seq<byte>, p: nat)
    requires p < |d| && d[p] != 0 && |d| <= p + d[p]
    ensures FieldsFrom(d, p) == []
  {
  }

  /** Applying a list that starts with f is applying f and then the rest. */
  lemma ApplyFieldsCons(ad: Advertisement, f: seq<byte>, fs: seq<seq<byte>>, utf8: seq<byte> -> string)
    requires FieldOk(f) && AllFieldsOk(fs)
    ensures AllFieldsOk([f] + fs)
    ensures ApplyFields(ad, [f] + fs, utf8) ==
      var first := ApplyField(ad, f, utf8);
      var rest := ApplyFields(first.0, fs, utf8);
      (rest.0, first.1 || rest.1)
  {
    var l := [f] + fs;
    assert l[0] == f && l[1..] == fs;
  }

  /** The fields after a well-formed first one are well formed. */
  lemma AllFieldsOkTail(f: seq<byte>, fs: seq<seq<byte>>)
    requires AllFieldsOk([f] + fs)
    ensures FieldOk(f) && AllFieldsOk(fs)
  {
    var l := [f] + fs;
    assert l[0] == f;
    forall k | 0 <= k < |fs| ensures FieldOk(fs[k]) {
      assert l[k + 1] == fs[k];
    }
  }
}
