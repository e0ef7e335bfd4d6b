/** The primitives of `java.io.DataOutputStream` and `DataInputStream`
    that the message cache uses: big-endian `int`/`long`, one-byte
    `boolean`, raw byte runs, and `writeUTF`/`readUTF` (a two-byte length
    followed by the "modified UTF-8" form of a Java string's UTF-16 code
    units). A reader takes the unread bytes and returns the value with the
    bytes after it. */
module DataStreams {
  import opened Wrappers
  import opened JavaTypes

  datatype IoError =
    | EndOfFile           // `EOFException`
    | MalformedUtf        // `UTFDataFormatException` while reading
    | EncodedTooLong      // `UTFDataFormatException` from `writeUTF`

  /** A value read, and the bytes that follow it. */
  datatype Read<+T> = Read(value: T, rest: seq<Byte>)

  /** A UTF-16 code unit, the element of a Java `String`. */
  type Unit = x: int | 0 <= x < 0x1_0000

  /** A Java `String`. */
  type JString = seq<Unit>

  // ---------------------------------------------------------------------
  // Big-endian unsigned numbers

  function Pow256(n: nat): (p: nat)
    ensures p >= 1
  {
    if n == 0 then 1 else 256 * Pow256(n - 1)
  }

  function BigEndian(u: nat, n: nat): (bs: seq<Byte>)
    requires u < Pow256(n)
    ensures |bs| == n
  {
    if n == 0 then [] else BigEndian(u / 256, n - 1) + [u % 256]
  }

  function ValueOf(bs: seq<Byte>): (u: nat)
    ensures u < Pow256(|bs|)
  {
    if bs == [] then 0 else ValueOf(bs[..|bs| - 1]) * 256 + bs[|bs| - 1]
  }

  lemma {:induction false} ValueOfBigEndian(u: nat, n: nat)
    requires u < Pow256(n)
    ensures ValueOf(BigEndian(u, n)) == u
  {
    if n > 0 {
      var bs := BigEndian(u, n);
      assert bs[..n - 1] == BigEndian(u / 256, n - 1);
      ValueOfBigEndian(u / 256, n - 1);
    }
  }

  lemma Pow256Values()
    ensures Pow256(2) == 0x1_0000
    ensures Pow256(4) == 0x1_0000_0000
    ensures Pow256(8) == 0x1_0000_0000_0000_0000
  {
    assert Pow256(4) == 0x1_0000_0000;
  }

  /** Reading `n` big-endian bytes: `None` at end of input. */
  function ReadUnsigned(s: seq<Byte>, n: nat): (r: Result<Read<nat>, IoError>)
    ensures r.Success? ==> r.value.value < Pow256(n)
  {
    if |s| < n then Failure(EndOfFile) else Success(Read(ValueOf(s[..n]), s[n..]))
  }

  lemma ReadUnsignedEncoded(u: nat, n: nat, rest: seq<Byte>)
    requires u < Pow256(n)
    ensures ReadUnsigned(BigEndian(u, n) + rest, n) == Success(Read(u, rest))
  {
    var s := BigEndian(u, n) + rest;
    assert s[..n] == BigEndian(u, n);
    assert s[n..] == rest;
    ValueOfBigEndian(u, n);
  }

  // ---------------------------------------------------------------------
  // int, long, boolean, byte runs

  /** `writeInt`: four bytes, two's complement, most significant first. */
  function EncodeInt(x: Int32): (bs: seq<Byte>)
    ensures |bs| == 4
  {
    Pow256Values();
    BigEndian(if x < 0 then x + 0x1_0000_0000 else x, 4)
  }

  /** `readInt`. */
  function ReadInt(s: seq<Byte>): Result<Read<Int32>, IoError> {
    Pow256Values();
    var r :- ReadUnsigned(s, 4);
    var u := r.value;
    var x: Int32 := if u > INT32_MAX then u - 0x1_0000_0000 else u;
    Success(Read(x, r.rest))
  }

  lemma ReadIntEncoded(x: Int32, rest: seq<Byte>)
    ensures ReadInt(EncodeInt(x) + rest) == Success(Read(x, rest))
  {
    Pow256Values();
    ReadUnsignedEncoded(if x < 0 then x + 0x1_0000_0000 else x, 4, rest);
  }

  /** `writeLong`: eight bytes, two's complement, most significant first. */
  function EncodeLong(x: Int64): (bs: seq<Byte>)
    ensures |bs| == 8
  {
    Pow256Values();
    BigEndian(if x < 0 then x + 0x1_0000_0000_0000_0000 else x, 8)
  }

  /** `readLong`. */
  function ReadLong(s: seq<Byte>): Result<Read<Int64>, IoError> {
    Pow256Values();
    var r :- ReadUnsigned(s, 8);
    var u := r.value;
    var x: Int64 := if u > INT64_MAX then u - 0x1_0000_0000_0000_0000 else u;
    Success(Read(x, r.rest))
  }

  lemma ReadLongEncoded(x: Int64, rest: seq<Byte>)
    ensures ReadLong(EncodeLong(x) + rest) == Success(Read(x, rest))
  {
    Pow256Values();
    ReadUnsignedEncoded(if x < 0 then x + 0x1_0000_0000_0000_0000 else x, 8, rest);
  }

  /** `writeBoolean`: one byte, 1 or 0. */
  function EncodeBool(b: bool): seq<Byte> {
    [if b then 1 else 0]
  }

  /** `readBoolean`: any non-zero byte is `true`. */
  function ReadBool(s: seq<Byte>): Result<Read<bool>, IoError> {
    if |s| < 1 then Failure(EndOfFile) else Success(Read(s[0] != 0, s[1..]))
  }

  lemma ReadBoolEncoded(b: bool, rest: seq<Byte>)
    ensures ReadBool(EncodeBool(b) + rest) == Success(Read(b, rest))
  {
    assert (EncodeBool(b) + rest)[1..] == rest;
  }

  /** `readFully` into an array of `n` bytes. */
  function ReadBytes(s: seq<Byte>, n: nat): (r: Result<Read<seq<Byte>>, IoError>)
    ensures r.Success? ==> |r.value.value| == n
  {
    if |s| < n then Failure(EndOfFile) else Success(Read(s[..n], s[n..]))
  }

  lemma ReadBytesEncoded(bs: seq<Byte>, rest: seq<Byte>)
    ensures ReadBytes(bs + rest, |bs|) == Success(Read(bs, rest))
  {
    assert (bs + rest)[..|bs|] == bs;
    assert (bs + rest)[|bs|..] == rest;
  }

  // ---------------------------------------------------------------------
  // Modified UTF-8

  /** One code unit as `writeUTF` encodes it: U+0001..U+007F in one byte,
      U+0000 and U+0080..U+07FF in two, the rest in three. */
  function EncodeUnit(u: Unit): (bs: seq<Byte>)
    ensures 1 <= |bs| <= 3
  {
    if 1 <= u <= 0x7f then [u]
    else if u <= 0x7ff then
      assert u / 64 < 32;
      [0xc0 + u / 64, 0x80 + u % 64]
    else
      assert u / 4096 < 16;
      [0xe0 + u / 4096, 0x80 + (u / 64) % 64, 0x80 + u % 64]
  }

  function ModifiedUtf8(us: JString): (bs: seq<Byte>)
    ensures |us| <= |bs| <= 3 * |us|
  {
    if us == [] then [] else EncodeUnit(us[0]) + ModifiedUtf8(us[1..])
  }

  /** `readUTF`'s decoding loop: a byte `0xxxxxxx` is a unit; `110xxxxx`
      takes one continuation byte `10xxxxxx`, `1110xxxx` two; anything
      else, a missing byte or a bad continuation is malformed. */
  function DecodeModifiedUtf8(bs: seq<Byte>): Option<JString> {
    if bs == [] then Some([])
    else
      var c := bs[0];
      if c / 16 <= 7 then
        match DecodeModifiedUtf8(bs[1..])
        case Some(us) => Some([c] + us)
        case None => None
      else if c / 16 == 12 || c / 16 == 13 then
        if |bs| < 2 || bs[1] / 64 != 2 then None
        else
          match DecodeModifiedUtf8(bs[2..])
          case Some(us) => Some([(c % 32) * 64 + bs[1] % 64] + us)
          case None => None
      else if c / 16 == 14 then
        if |bs| < 3 || bs[1] / 64 != 2 || bs[2] / 64 != 2 then None
        else
          match DecodeModifiedUtf8(bs[3..])
          case Some(us) => Some([(c % 16) * 4096 + (bs[1] % 64) * 64 + bs[2] % 64] + us)
          case None => None
      else None
  }

  lemma DecodeEncodedUnit(u: Unit, rest: seq<Byte>)
    ensures var bs := EncodeUnit(u) + rest;
      && bs != []
      && (bs[0] / 16 <= 7 ==> |EncodeUnit(u)| == 1 && bs[0] == u)
      && (bs[0] / 16 == 12 || bs[0] / 16 == 13 ==>
            |EncodeUnit(u)| == 2 && bs[1] / 64 == 2 && (bs[0] as int % 32) * 64 + bs[1] as int % 64 == u)
      && (bs[0] / 16 == 14 ==>
            |EncodeUnit(u)| == 3 && bs[1] / 64 == 2 && bs[2] / 64 == 2
            && (bs[0] as int % 16) * 4096 + (bs[1] as int % 64) * 64 + bs[2] as int % 64 == u)
      && (bs[0] / 16 <= 7 || bs[0] / 16 == 12 || bs[0] / 16 == 13 || bs[0] / 16 == 14)
  {
    if 1 <= u <= 0x7f {
    } else if u <= 0x7ff {
      TwoByteUnit(u);
    } else {
      ThreeByteUnit(u);
    }
  }

  lemma TwoByteUnit(u: Unit)
    requires u == 0 || 0x80 <= u <= 0x7ff
    ensures var bs := EncodeUnit(u);
      && |bs| == 2 && (bs[0] / 16 == 12 || bs[0] / 16 == 13) && bs[1] / 64 == 2
      && (bs[0] as int % 32) * 64 + bs[1] as int % 64 == u
  {
    var a, b := u / 64, u % 64;
    assert EncodeUnit(u) == [0xc0 + a, 0x80 + b];
    assert (0xc0 + a) / 16 == 12 + a / 16;
    assert (0xc0 + a) % 32 == a;
  }

  lemma ThreeByteUnit(u: Unit)
    requires 0x7ff < u
    ensures var bs := EncodeUnit(u);
      && |bs| == 3 && bs[0] / 16 == 14 && bs[1] / 64 == 2 && bs[2] / 64 == 2
      && (bs[0] as int % 16) * 4096 + (bs[1] as int % 64) * 64 + bs[2] as int % 64 == u
  {
    var a, b, c := u / 4096, (u / 64) % 64, u % 64;
    assert EncodeUnit(u) == [0xe0 + a, 0x80 + b, 0x80 + c];
    assert u == a * 4096 + b * 64 + c;
  }

  lemma {:induction false} DecodeModifiedUtf8Encoded(us: JString)
    ensures DecodeModifiedUtf8(ModifiedUtf8(us)) == Some(us)
  {
    if us != [] {
      var rest := ModifiedUtf8(us[1..]);
      var bs := EncodeUnit(us[0]) + rest;
      DecodeEncodedUnit(us[0], rest);
      DecodeModifiedUtf8Encoded(us[1..]);
      assert bs[|EncodeUnit(us[0])|..] == rest;
      assert [us[0]] + us[1..] == us;
    }
  }

  const MAX_UTF_LENGTH: nat := 65535

  /** `writeUTF`: the two-byte length of the encoded form, then the form;
      longer than 65535 bytes throws. */
  function EncodeUtf(us: JString): (r: Result<seq<Byte>, IoError>)
    ensures r.Failure? <==> |ModifiedUtf8(us)| > MAX_UTF_LENGTH
    ensures r.Success? ==> |r.value| == 2 + |ModifiedUtf8(us)|
  {
    Pow256Values();
    var body := ModifiedUtf8(us);
    if |body| > MAX_UTF_LENGTH then Failure(EncodedTooLong)
    else Success(BigEndian(|body|, 2) + body)
  }

  /** `readUTF`. */
  function ReadUtf(s: seq<Byte>): Result<Read<JString>, IoError> {
    var len :- ReadUnsigned(s, 2);
    var body :- ReadBytes(len.rest, len.value);
    match DecodeModifiedUtf8(body.value)
    case Some(us) => Success(Read(us, body.rest))
    case None => Failure(MalformedUtf)
  }

  lemma ReadUtfEncoded(us: JString, rest: seq<Byte>)
    requires EncodeUtf(us).Success?
    ensures ReadUtf(EncodeUtf(us).value + rest) == Success(Read(us, rest))
  {
    Pow256Values();
    var body := ModifiedUtf8(us);
    assert EncodeUtf(us).value + rest == BigEndian(|body|, 2) + (body + rest);
    ReadUnsignedEncoded(|body|, 2, body + rest);
    ReadBytesEncoded(body, rest);
    DecodeModifiedUtf8Encoded(us);
  }

  /** A Java string of characters that are single code units (no
      supplementary characters). */
  function UnitsOf(s: string): (us: JString)
    requires forall i | 0 <= i < |s| :: s[i] as int < 0xd800
    ensures |us| == |s|
  {
    seq(|s|, i requires 0 <= i < |s| => s[i] as int)
  }

  /** The text of a Java string whose units are all below the surrogate
      range; `None` otherwise. */
  function TextOf(us: JString): (r: Option<string>)
    ensures r.Some? ==> forall i | 0 <= i < |r.value| :: r.value[i] as int < 0xd800
  {
    if forall i | 0 <= i < |us| :: us[i] < 0xd800 then
      Some(seq(|us|, i requires 0 <= i < |us| => us[i] as char))
    else None
  }

  lemma TextOfUnitsOf(s: string)
    requires forall i | 0 <= i < |s| :: s[i] as int < 0xd800
    ensures TextOf(UnitsOf(s)) == Some(s)
  {
    var us := UnitsOf(s);
    assert forall i | 0 <= i < |us| :: us[i] < 0xd800;
    var s' := seq(|us|, i requires 0 <= i < |us| => us[i] as char);
    forall i | 0 <= i < |s| ensures s'[i] == s[i] {
      assert us[i] == s[i] as int;
    }
    assert s' == s;
  }
}
