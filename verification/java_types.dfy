/** Java value types shared by the model: fixed-width integers, bytes,
    `java.util.UUID` with its canonical text form, and libsignal's
    `ServiceId`, which wraps a UUID. */
module JavaTypes {
  import opened Wrappers

  const INT32_MIN: int := -0x8000_0000
  const INT32_MAX: int := 0x7fff_ffff
  const INT64_MIN: int := -0x8000_0000_0000_0000
  const INT64_MAX: int := 0x7fff_ffff_ffff_ffff

  /** Java `int` and `long`. */
  type Int32 = x: int | INT32_MIN <= x <= INT32_MAX
  type Int64 = x: int | INT64_MIN <= x <= INT64_MAX

  /** One octet, read as the unsigned value of a Java `byte`. */
  type Byte = x: int | 0 <= x < 256

  /** A `java.util.UUID`: its most and least significant 64 bits. */
  datatype Uuid = Uuid(msb: Int64, lsb: Int64)

  /** The all-zero UUID, which libsignal's `ServiceId.UNKNOWN` wraps. */
  const UNKNOWN_UUID: Uuid := Uuid(0, 0)

  /** libsignal's `ServiceId`: an account identifier wrapping a UUID. */
  datatype ServiceId = ServiceId(uuid: Uuid)

  /** `ServiceId.UNKNOWN`, the placeholder for "no known service id". */
  const UNKNOWN: ServiceId := ServiceId(UNKNOWN_UUID)

  /** libsignal's `SignalServiceAddress`: a service id and an optional number. */
  datatype SignalServiceAddress = SignalServiceAddress(serviceId: ServiceId, number: Option<string>)

  /** `storage.recipients.RecipientId`: the row id of a stored recipient. */
  datatype RecipientId = RecipientId(id: Int64)

  /** `ServiceId.from(uuid)`. */
  function ServiceIdFrom(u: Uuid): (s: ServiceId)
    ensures s.uuid == u
    ensures s == UNKNOWN <==> u == UNKNOWN_UUID
  {
    ServiceId(u)
  }

  // ---------------------------------------------------------------------
  // Hexadecimal digits

  function Pow16(n: nat): (p: nat)
    ensures p >= 1
  {
    if n == 0 then 1 else 16 * Pow16(n - 1)
  }

  function HexDigit(d: nat): (c: char)
    requires d < 16
  {
    if d < 10 then (48 + d) as char else (87 + d) as char
  }

  predicate IsLowerHexDigit(c: char) {
    ('0' <= c <= '9') || ('a' <= c <= 'f')
  }

  /** The value of one hex digit, in either case, as `Character.digit(c, 16)`. */
  function DigitValue(c: char): (r: Option<nat>)
    ensures r.Some? ==> r.value < 16
    ensures IsLowerHexDigit(c) ==> r.Some? && HexDigit(r.value) == c
  {
    if '0' <= c <= '9' then Some(c as int - 48)
    else if 'a' <= c <= 'f' then Some(c as int - 87)
    else if 'A' <= c <= 'F' then Some(c as int - 55)
    else None
  }

  /** `n` written with exactly `width` lower-case hex digits, most significant first. */
  function Hex(n: nat, width: nat): (s: string)
    requires n < Pow16(width)
    ensures |s| == width
    ensures forall i :: 0 <= i < |s| ==> IsLowerHexDigit(s[i])
  {
    if width == 0 then "" else Hex(n / 16, width - 1) + [HexDigit(n % 16)]
  }

  /** The value of a string of hex digits, or `None` if one is not a digit. */
  function ParseHex(s: string): (r: Option<nat>)
    ensures r.Some? ==> r.value < Pow16(|s|)
  {
    if s == [] then Some(0)
    else
      match (ParseHex(s[..|s| - 1]), DigitValue(s[|s| - 1]))
      case (Some(p), Some(d)) => Some(p * 16 + d)
      case _ => None
  }

  lemma {:induction false} ParseHexOfHex(n: nat, width: nat)
    requires n < Pow16(width)
    ensures ParseHex(Hex(n, width)) == Some(n)
  {
    if width > 0 {
      var s := Hex(n, width);
      assert s[..|s| - 1] == Hex(n / 16, width - 1);
      ParseHexOfHex(n / 16, width - 1);
    }
  }

  lemma {:induction false} HexOfParseHex(s: string)
    requires forall i :: 0 <= i < |s| ==> IsLowerHexDigit(s[i])
    ensures ParseHex(s).Some? && Hex(ParseHex(s).value, |s|) == s
  {
    if s != [] {
      var init := s[..|s| - 1];
      HexOfParseHex(init);
      var p := ParseHex(init).value;
      var d := DigitValue(s[|s| - 1]).value;
      var n := p * 16 + d;
      assert n / 16 == p && n % 16 == d;
      assert Hex(n, |s|) == Hex(p, |s| - 1) + [HexDigit(d)];
      assert s == init + [s[|s| - 1]];
    }
  }

  // ---------------------------------------------------------------------
  // Two's complement

  const TWO_64: nat := 0x1_0000_0000_0000_0000

  /** The bits of a Java `long` read as an unsigned number. */
  function Unsigned64(x: Int64): (n: nat)
    ensures n < TWO_64
    ensures Signed64(n) == x
  {
    if x < 0 then x + TWO_64 else x
  }

  /** The Java `long` whose bits are the unsigned number `n`. */
  function Signed64(n: nat): (x: Int64)
    requires n < TWO_64
  {
    if n > INT64_MAX then n - TWO_64 else n
  }

  lemma UnsignedOfSigned(n: nat)
    requires n < TWO_64
    ensures Unsigned64(Signed64(n)) == n
  {
  }

  lemma Pow16At16()
    ensures Pow16(16) == TWO_64
  {
    assert Pow16(8) == 0x1_0000_0000;
  }

  // ---------------------------------------------------------------------
  // UUID text

  /** The 8-4-4-4-12 layout of two 16-digit halves. */
  function Layout(h: string, l: string): (s: string)
    requires |h| == 16 && |l| == 16
    ensures |s| == 36
    ensures forall i | 0 <= i < |s| :: s[i] == '-' || s[i] in h || s[i] in l
  {
    h[0..8] + "-" + h[8..12] + "-" + h[12..16] + "-" + l[0..4] + "-" + l[4..16]
  }

  /** The halves of a laid-out text. */
  function HighDigits(s: string): string
    requires |s| == 36
  {
    s[0..8] + s[9..13] + s[14..18]
  }

  function LowDigits(s: string): string
    requires |s| == 36
  {
    s[19..23] + s[24..36]
  }

  predicate Dashed(s: string) {
    |s| == 36 && s[8] == '-' && s[13] == '-' && s[18] == '-' && s[23] == '-'
  }

  lemma LayoutHalves(h: string, l: string)
    requires |h| == 16 && |l| == 16
    ensures Dashed(Layout(h, l))
    ensures HighDigits(Layout(h, l)) == h && LowDigits(Layout(h, l)) == l
  {
    var s := Layout(h, l);
    assert HighDigits(s) == h by {
      forall i | 0 <= i < 16 ensures HighDigits(s)[i] == h[i] {
        if i < 8 { assert HighDigits(s)[i] == s[i]; }
        else if i < 12 { assert HighDigits(s)[i] == s[i + 1]; }
        else { assert HighDigits(s)[i] == s[i + 2]; }
      }
    }
    assert LowDigits(s) == l by {
      forall i | 0 <= i < 16 ensures LowDigits(s)[i] == l[i] {
        if i < 4 { assert LowDigits(s)[i] == s[i + 19]; }
        else { assert LowDigits(s)[i] == s[i + 20]; }
      }
    }
  }

  lemma HalvesLayout(s: string)
    requires Dashed(s)
    ensures Layout(HighDigits(s), LowDigits(s)) == s
  {
    var h, l := HighDigits(s), LowDigits(s);
    var s' := Layout(h, l);
    forall i | 0 <= i < 36 ensures s'[i] == s[i] {
      if i < 8 { assert s'[i] == h[i]; }
      else if 8 < i < 13 { assert s'[i] == h[i - 1]; }
      else if 13 < i < 18 { assert s'[i] == h[i - 2]; }
      else if 18 < i < 23 { assert s'[i] == l[i - 19]; }
      else if 23 < i { assert s'[i] == l[i - 20]; }
    }
  }

  /** `UUID.toString()`: 8-4-4-4-12 lower-case hex digits. */
  function UuidToString(u: Uuid): (s: string)
    ensures |s| == 36
    ensures forall i | 0 <= i < |s| :: s[i] == '-' || IsLowerHexDigit(s[i])
    ensures forall i | 0 <= i < |s| :: s[i] as int < 0x80
  {
    Pow16At16();
    var h := Hex(Unsigned64(u.msb), 16);
    var l := Hex(Unsigned64(u.lsb), 16);
    assert forall c | c in h :: IsLowerHexDigit(c);
    assert forall c | c in l :: IsLowerHexDigit(c);
    Layout(h, l)
  }

  /** The text shape `UuidUtil.isUuid` accepts: 8-4-4-4-12 hex digits of either case. */
  predicate IsUuid(s: string) {
    && Dashed(s)
    && ParseHex(HighDigits(s)).Some?
    && ParseHex(LowDigits(s)).Some?
  }

  /** `UUID.fromString` restricted to the canonical shape; `None` where it would throw. */
  function ParseUuid(s: string): (r: Option<Uuid>)
    ensures r.Some? <==> IsUuid(s)
  {
    if !IsUuid(s) then None
    else
      Pow16At16();
      var m := ParseHex(HighDigits(s)).value;
      var l := ParseHex(LowDigits(s)).value;
      Some(Uuid(Signed64(m), Signed64(l)))
  }

  lemma ParseUuidToString(u: Uuid)
    ensures IsUuid(UuidToString(u))
    ensures ParseUuid(UuidToString(u)) == Some(u)
  {
    Pow16At16();
    var h := Hex(Unsigned64(u.msb), 16);
    var l := Hex(Unsigned64(u.lsb), 16);
    LayoutHalves(h, l);
    ParseHexOfHex(Unsigned64(u.msb), 16);
    ParseHexOfHex(Unsigned64(u.lsb), 16);
  }

  /** Distinct UUIDs have distinct texts. */
  lemma UuidToStringInjective(u: Uuid, v: Uuid)
    requires UuidToString(u) == UuidToString(v)
    ensures u == v
  {
    ParseUuidToString(u);
    ParseUuidToString(v);
  }

  predicate IsLowerCase(s: string) {
    forall i :: 0 <= i < |s| ==> !('A' <= s[i] <= 'F')
  }

  /** On lower-case text the parse is inverted by `toString`. */
  lemma UuidToStringOfParse(s: string)
    requires IsUuid(s) && IsLowerCase(s)
    ensures UuidToString(ParseUuid(s).value) == s
  {
    Pow16At16();
    var hs := HighDigits(s);
    var ls := LowDigits(s);
    var m := ParseHex(hs).value;
    var l := ParseHex(ls).value;
    assert ParseUuid(s).value == Uuid(Signed64(m), Signed64(l));
    UnsignedOfSigned(m);
    UnsignedOfSigned(l);
    LowerHalves(s);
    HexOfParseHex(hs);
    HexOfParseHex(ls);
    assert Hex(m, 16) == hs && Hex(l, 16) == ls;
    HalvesLayout(s);
  }

  lemma LowerHalves(s: string)
    requires IsUuid(s) && IsLowerCase(s)
    ensures forall i | 0 <= i < |HighDigits(s)| :: IsLowerHexDigit(HighDigits(s)[i])
    ensures forall i | 0 <= i < |LowDigits(s)| :: IsLowerHexDigit(LowDigits(s)[i])
  {
    var hs := HighDigits(s);
    var ls := LowDigits(s);
    forall i | 0 <= i < |hs| ensures IsLowerHexDigit(hs[i]) {
      HexDigitsAccepted(hs, i);
      var j := if i < 8 then i else if i < 12 then i + 1 else i + 2;
      assert hs[i] == s[j];
    }
    forall i | 0 <= i < |ls| ensures IsLowerHexDigit(ls[i]) {
      HexDigitsAccepted(ls, i);
      var j := if i < 4 then i + 19 else i + 20;
      assert ls[i] == s[j];
    }
  }

  lemma {:induction false} HexDigitsAccepted(s: string, i: nat)
    requires ParseHex(s).Some? && i < |s|
    ensures DigitValue(s[i]).Some?
  {
    if i < |s| - 1 {
      HexDigitsAccepted(s[..|s| - 1], i);
    }
  }

  /** `ServiceId.toString()` / `getName()` of an ACI: the text of its UUID. */
  function ServiceIdToString(s: ServiceId): (r: string)
    ensures ParseServiceId(r) == Some(s)
    ensures forall i | 0 <= i < |r| :: r[i] as int < 0x80
  {
    ParseUuidToString(s.uuid);
    UuidToString(s.uuid)
  }

  /** Parsing lower-case service id text and printing it gives it back. */
  lemma ServiceIdTextRoundTrip(s: string)
    requires IsUuid(s)
    ensures IsLowerCase(s) ==> ServiceIdToString(ParseServiceId(s).value) == s
  {
    if IsLowerCase(s) {
      UuidToStringOfParse(s);
    }
  }

  /** `ServiceId.parseOrNull(text)`: `None` for text that is not a UUID. */
  function ParseServiceId(s: string): (r: Option<ServiceId>)
    ensures r.Some? <==> IsUuid(s)
  {
    match ParseUuid(s)
    case Some(u) => Some(ServiceId(u))
    case None => None
  }
}
