/**
 * Hex text and UUIDs as the BlueGiga adapter code builds them: bytes are
 * written as two lower-case hex digits each (`{0:x2}`), and a UUID read off
 * the radio (little-endian, 2, 4 or 16 bytes) is reversed, written in hex,
 * widened with the Bluetooth Base UUID when short, and parsed as a Guid.
 *
 * A Guid is kept as the 16 bytes its 32 digits denote, so two Guids are
 * equal exactly when their texts agree up to the case of the digits.
 */
module BlueGigaGuid {
  import opened Common

  // ---------------------------------------------------------------------
  // Hex digits

  function HexDigit(d: nat): (c: char)
    requires d < 16
    ensures IsLowerHex(c)
  {
    if d < 10 then ('0' as int + d) as char else ('a' as int + d - 10) as char
  }

  predicate IsLowerHex(c: char) {
    ('0' <= c <= '9') || ('a' <= c <= 'f')
  }

  predicate IsHexChar(c: char) {
    ('0' <= c <= '9') || ('a' <= c <= 'f') || ('A' <= c <= 'F')
  }

  predicate AllLowerHex(s: string) {
    forall i :: 0 <= i < |s| ==> IsLowerHex(s[i])
  }

  predicate AllHex(s: string) {
    forall i :: 0 <= i < |s| ==> IsHexChar(s[i])
  }

  /** The value of a hex digit, either case (0 for any other character). */
  function HexValue(c: char): (d: nat)
    ensures d < 16
  {
    if '0' <= c <= '9' then c as int - '0' as int
    else if 'a' <= c <= 'f' then c as int - 'a' as int + 10
    else if 'A' <= c <= 'F' then c as int - 'A' as int + 10
    else 0
  }

  lemma HexValueOfDigit(d: nat)
    requires d < 16
    ensures HexValue(HexDigit(d)) == d
  {
  }

  /** One byte as `{0:x2}` writes it: high nibble first, lower case. */
  function HexByte(b: byte): (r: string)
    ensures |r| == 2 && AllLowerHex(r)
  {
    [HexDigit(b / 16), HexDigit(b % 16)]
  }

  /** The text `ByteToHex` builds: two lower-case digits per byte, in order. */
  function Hex(bs: seq<byte>): (r: string)
    ensures |r| == 2 * |bs|
    ensures AllLowerHex(r)
  {
    if bs == [] then "" else HexByte(bs[0]) + Hex(bs[1..])
  }

  lemma {:induction false} HexAppend(a: seq<byte>, b: seq<byte>)
    ensures Hex(a + b) == Hex(a) + Hex(b)
  {
    if a == [] {
      assert a + b == b;
    } else {
      assert (a + b)[0] == a[0];
      assert (a + b)[1..] == a[1..] + b;
      HexAppend(a[1..], b);
    }
  }

  /** Reading n bytes back from hex text: byte k is the value of digits 2k and 2k+1. */
  function Unhex(s: string, n: nat): (r: seq<byte>)
    requires 2 * n <= |s|
    ensures |r| == n
  {
    seq(n, k requires 0 <= k < n => HexValue(s[2 * k]) * 16 + HexValue(s[2 * k + 1]))
  }

  /** Digits 2k and 2k+1 of the hex text are byte k's high and low nibble. */
  lemma {:induction false} HexAt(bs: seq<byte>, k: nat)
    requires k < |bs|
    ensures Hex(bs)[2 * k] == HexDigit(bs[k] / 16)
    ensures Hex(bs)[2 * k + 1] == HexDigit(bs[k] % 16)
  {
    if k > 0 {
      HexAt(bs[1..], k - 1);
      assert Hex(bs) == HexByte(bs[0]) + Hex(bs[1..]);
    }
  }

  /** Hex text loses nothing: reading it back gives the bytes. */
  lemma HexRoundTrip(bs: seq<byte>)
    ensures Unhex(Hex(bs), |bs|) == bs
  {
    var u := Unhex(Hex(bs), |bs|);
    forall k | 0 <= k < |bs| ensures u[k] == bs[k] {
      HexRoundTripAt(bs, k);
    }
  }

  lemma HexRoundTripAt(bs: seq<byte>, k: nat)
    requires k < |bs|
    ensures Unhex(Hex(bs), |bs|)[k] == bs[k]
  {
    HexAt(bs, k);
    UnhexAt(Hex(bs), |bs|, k, bs[k]);
  }

  /** Where digits 2k and 2k+1 are a byte's digits, Unhex reads back that byte. */
  lemma UnhexAt(s: string, n: nat, k: nat, b: byte)
    requires 2 * n <= |s| && k < n
    requires s[2 * k] == HexDigit(b / 16) && s[2 * k + 1] == HexDigit(b % 16)
    ensures Unhex(s, n)[k] == b
  {
    ByteDigits(b);
  }

  /** A byte's two digits read back as the byte. */
  lemma ByteDigits(b: byte)
    ensures HexValue(HexDigit(b / 16)) * 16 + HexValue(HexDigit(b % 16)) == b
  {
    HexValueOfDigit(b / 16);
    HexValueOfDigit(b % 16);
  }

  lemma HexInjective(a: seq<byte>, b: seq<byte>)
    requires Hex(a) == Hex(b)
    ensures a == b
  {
    HexRoundTrip(a);
    HexRoundTrip(b);
  }

  /** Reading back a concatenation of n and m pairs of digits. */
  lemma UnhexAppend(a: string, b: string, n: nat, m: nat)
    requires |a| == 2 * n && 2 * m <= |b|
    ensures Unhex(a + b, n + m) == Unhex(a, n) + Unhex(b, m)
  {
    var u := Unhex(a + b, n + m);
    forall k | 0 <= k < n + m ensures u[k] == (Unhex(a, n) + Unhex(b, m))[k] {
      if k < n {
        assert (a + b)[2 * k] == a[2 * k] && (a + b)[2 * k + 1] == a[2 * k + 1];
      } else {
        var j := k - n;
        assert (a + b)[2 * k] == b[2 * j] && (a + b)[2 * k + 1] == b[2 * j + 1];
      }
    }
  }

  /**
   * `ByteToHex`: the StringBuilder loop, appending each byte's two digits.
   */
  method ByteToHex(b: seq<byte>) returns (hex: string)
    ensures hex == Hex(b)
    ensures |hex| == 2 * |b| && AllLowerHex(hex)
    ensures Unhex(hex, |b|) == b
  {
    hex := "";
    var i := 0;
    while i < |b|
      invariant 0 <= i <= |b|
      invariant hex == Hex(b[..i])
    {
      HexAppend(b[..i], [b[i]]);
      assert b[..i + 1] == b[..i] + [b[i]];
      hex := hex + HexByte(b[i]);
      i := i + 1;
    }
    assert b[..i] == b;
    HexRoundTrip(b);
  }

  // ---------------------------------------------------------------------
  // Guids

  /**
   * A Guid, as the 16 bytes its 32-digit text spells, in text order. Two
   * texts that differ only in the case of their letters give the same bytes,
   * which is the Guid's case-insensitive equality.
   */
  datatype Guid = Guid(bytes: seq<byte>)

  /**
   * `new Guid(text)` for text without separators: 32 hex digits are
   * accepted, anything else throws (None).
   */
  function ParseGuid(text: string): (r: Option<Guid>)
    ensures r.Some? <==> |text| == 32 && AllHex(text)
    ensures r.Some? ==> |r.value.bytes| == 16
  {
    if |text| == 32 && AllHex(text) then Some(Guid(Unhex(text, 16))) else None
  }

  /** The tail of the Bluetooth Base UUID, as the source spells it. */
  const BaseSuffix: string := "00001000800000805F9B34FB"

  /** The twelve bytes the tail spells, in text order. */
  const BaseSuffixBytes: seq<byte> := Unhex(BaseSuffix, 12)

  lemma BaseSuffixDigits()
    ensures AllHex(BaseSuffix) && |BaseSuffix| == 24 && |BaseSuffixBytes| == 12
  {
  }

  function Reverse<T>(s: seq<T>): (r: seq<T>)
    ensures |r| == |s|
    ensures forall i :: 0 <= i < |s| ==> r[i] == s[|s| - 1 - i]
  {
    if s == [] then [] else Reverse(s[1..]) + [s[0]]
  }

  lemma ReverseReverse<T>(s: seq<T>)
    ensures Reverse(Reverse(s)) == s
  {
  }

  /** The text `ArrayToGuid` hands to the Guid constructor. */
  function GuidText(bytes: seq<byte>): (r: string)
    ensures AllHex(r)
  {
    var data := (if |bytes| == 2 then "0000" else "") + Hex(Reverse(bytes));
    if |data| == 8 then data + BaseSuffix else data
  }

  /**
   * `ArrayToGuid`: the bytes arrive little-endian, so the Guid lists them
   * reversed; a 16-bit UUID is zero-extended to 32 bits, and a 32-bit UUID
   * is placed in the Bluetooth Base UUID. Every other length makes the Guid
   * constructor throw.
   */
  function ArrayToGuid(bytes: seq<byte>): (r: Option<Guid>)
    ensures r.Some? <==> |bytes| == 2 || |bytes| == 4 || |bytes| == 16
  {
    ParseGuid(GuidText(bytes))
  }

  /** Which Guid each accepted length gives. */
  lemma ArrayToGuidValue(bytes: seq<byte>)
    ensures |bytes| == 16 ==> ArrayToGuid(bytes) == Some(Guid(Reverse(bytes)))
    ensures |bytes| == 4 ==> ArrayToGuid(bytes) == Some(Guid(Reverse(bytes) + BaseSuffixBytes))
    ensures |bytes| == 2 ==> ArrayToGuid(bytes) == Some(Guid(Reverse(bytes + [0, 0]) + BaseSuffixBytes))
  {
    if |bytes| == 16 {
      Guid128(bytes);
    } else if |bytes| == 4 {
      Guid32(bytes);
    } else if |bytes| == 2 {
      Guid16(bytes);
    }
  }

  lemma Guid128(bytes: seq<byte>)
    requires |bytes| == 16
    ensures ArrayToGuid(bytes) == Some(Guid(Reverse(bytes)))
  {
    var x := Reverse(bytes);
    assert GuidText(bytes) == Hex(x);
    HexRoundTrip(x);
  }

  /** Four bytes of hex followed by the Base UUID tail parse as those bytes then the tail's bytes. */
  lemma WithBaseSuffix(x: seq<byte>)
    requires |x| == 4
    ensures AllHex(Hex(x) + BaseSuffix)
    ensures ParseGuid(Hex(x) + BaseSuffix) == Some(Guid(x + BaseSuffixBytes))
  {
    var t := Hex(x) + BaseSuffix;
    BaseSuffixDigits();
    calc {
      Unhex(t, 16);
      { UnhexAppend(Hex(x), BaseSuffix, 4, 12); }
      Unhex(Hex(x), 4) + Unhex(BaseSuffix, 12);
      { HexRoundTrip(x); }
      x + BaseSuffixBytes;
    }
    assert AllHex(t) by {
      forall i | 0 <= i < |t| ensures IsHexChar(t[i]) {
        if i < 8 { assert t[i] == Hex(x)[i]; } else { assert t[i] == BaseSuffix[i - 8]; }
      }
    }
  }

  lemma Guid32(bytes: seq<byte>)
    requires |bytes| == 4
    ensures ArrayToGuid(bytes) == Some(Guid(Reverse(bytes) + BaseSuffixBytes))
  {
    var x := Reverse(bytes);
    assert GuidText(bytes) == Hex(x) + BaseSuffix;
    WithBaseSuffix(x);
  }

  /** The zero-extension `ArrayToGuid` writes is the text of two zero bytes. */
  lemma ZeroPrefix()
    ensures Hex([0, 0]) == "0000"
  {
  }

  lemma Guid16Text(bytes: seq<byte>)
    requires |bytes| == 2
    ensures GuidText(bytes) == Hex(Reverse(bytes + [0, 0])) + BaseSuffix
  {
    var x := Reverse(bytes);
    assert GuidText(bytes) == "0000" + Hex(x) + BaseSuffix;
    ZeroExtendHex(bytes);
  }

  lemma ZeroExtendHex(bytes: seq<byte>)
    ensures "0000" + Hex(Reverse(bytes)) == Hex(Reverse(bytes + [0, 0]))
  {
    ZeroPrefix();
    HexAppend([0, 0], Reverse(bytes));
    ReverseAppend(bytes, [0, 0]);
    assert Reverse([0, 0]) == [0, 0];
  }

  lemma Guid16(bytes: seq<byte>)
    requires |bytes| == 2
    ensures ArrayToGuid(bytes) == Some(Guid(Reverse(bytes + [0, 0]) + BaseSuffixBytes))
  {
    Guid16Text(bytes);
    WithBaseSuffix(Reverse(bytes + [0, 0]));
  }

  lemma ReverseAppend<T>(a: seq<T>, b: seq<T>)
    ensures Reverse(a + b) == Reverse(b) + Reverse(a)
  {
    assert |Reverse(a + b)| == |Reverse(b) + Reverse(a)|;
    forall i | 0 <= i < |a + b| ensures Reverse(a + b)[i] == (Reverse(b) + Reverse(a))[i] {
      if i < |b| {
        assert (Reverse(b) + Reverse(a))[i] == Reverse(b)[i];
      } else {
        assert (Reverse(b) + Reverse(a))[i] == Reverse(a)[i - |b|];
      }
    }
  }

  /** The 16-byte little-endian form of a 32-bit UUID inside the Base UUID. */
  function Widen32(short: seq<byte>): seq<byte> {
    Reverse(BaseSuffixBytes) + short
  }

  /**
   * A 32-bit UUID names the same Guid as its full 128-bit form in the
   * Bluetooth Base UUID.
   */
  lemma Uuid32IsBaseUuid(short: seq<byte>)
    requires |short| == 4
    ensures ArrayToGuid(short) == ArrayToGuid(Widen32(short))
  {
    ReverseAppend(Reverse(BaseSuffixBytes), short);
    ReverseReverse(BaseSuffixBytes);
    ArrayToGuidValue(short);
    ArrayToGuidValue(Widen32(short));
  }

  /** A 16-bit UUID names the same Guid as the 32-bit UUID with two zero high bytes. */
  lemma Uuid16IsUuid32(a: byte, b: byte)
    ensures ArrayToGuid([a, b]) == ArrayToGuid([a, b, 0, 0])
  {
    assert [a, b] + [0, 0] == [a, b, 0, 0];
    ArrayToGuidValue([a, b]);
    ArrayToGuidValue([a, b, 0, 0]);
  }

  /** Different UUIDs of the same length give different Guids. */
  lemma ArrayToGuidInjective(x: seq<byte>, y: seq<byte>)
    requires |x| == |y|
    requires ArrayToGuid(x).Some? && ArrayToGuid(x) == ArrayToGuid(y)
    ensures x == y
  {
    ArrayToGuidValue(x);
    ArrayToGuidValue(y);
    var gx := ArrayToGuid(x).value.bytes;
    var gy := ArrayToGuid(y).value.bytes;
    var off := if |x| == 2 then 2 else 0;
    assert Reverse(x) == gx[off..off + |x|];
    assert Reverse(y) == gy[off..off + |x|];
    ReverseReverse(x);
    ReverseReverse(y);
  }
}
