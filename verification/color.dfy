/** `api.Color`: a 32-bit ARGB color held in a Java `int`, with its four
    8-bit channels and its `#aarrggbb` text. */
module Color {
  import opened Wrappers
  import opened JavaTypes

  const TWO_32: nat := 0x1_0000_0000

  /** The bits of a Java `int` read as an unsigned number. */
  function Unsigned32(x: Int32): (n: nat)
    ensures n < TWO_32 && n % TWO_32 == x % TWO_32
  {
    if x < 0 then x + TWO_32 else x
  }

  /** The Java `int` whose bits are the low 32 bits of `n`: the wrap-around
      of an `int` shift or sum. */
  function Signed32(n: int): (x: Int32)
    ensures x % TWO_32 == n % TWO_32
  {
    var m := n % TWO_32;
    if m > INT32_MAX then m - TWO_32 else m
  }

  datatype Color = Color(color: Int32)

  /** `alpha()`: `color >>> 24`, the unsigned shift. */
  function Alpha(c: Color): (a: int)
    ensures 0 <= a < 256
  {
    Unsigned32(c.color) / 0x100_0000
  }

  /** `red()`: `(color >> 16) & 0xFF`; the signed shift rounds toward
      negative infinity, as `/` does here. */
  function Red(c: Color): (r: int)
    ensures 0 <= r < 256
  {
    (c.color / 0x1_0000) % 0x100
  }

  /** `green()`: `(color >> 8) & 0xFF`. */
  function Green(c: Color): (g: int)
    ensures 0 <= g < 256
  {
    (c.color / 0x100) % 0x100
  }

  /** `blue()`: `color & 0xFF`. */
  function Blue(c: Color): (b: int)
    ensures 0 <= b < 256
  {
    c.color % 0x100
  }

  /** The channels are the four bytes of the unsigned value, high to low,
      so `(alpha << 24) | (red << 16) | (green << 8) | blue` (the fields
      do not overlap, so `|` adds them) gives back the color. */
  lemma ChannelsReconstruct(c: Color)
    ensures Alpha(c) * 0x100_0000 + Red(c) * 0x1_0000 + Green(c) * 0x100 + Blue(c) == Unsigned32(c.color)
    ensures Signed32(Alpha(c) * 0x100_0000 + Red(c) * 0x1_0000 + Green(c) * 0x100 + Blue(c)) == c.color
  {
    var u := Unsigned32(c.color);
    ChannelsOfUnsigned(c);
    Bytes(u);
  }

  /** The signed shifts see the same low 32 bits as the unsigned value. */
  lemma ChannelsOfUnsigned(c: Color)
    ensures Red(c) == (Unsigned32(c.color) / 0x1_0000) % 0x100
    ensures Green(c) == (Unsigned32(c.color) / 0x100) % 0x100
    ensures Blue(c) == Unsigned32(c.color) % 0x100
  {
    var x := c.color;
    var u := Unsigned32(x);
    var k := if x < 0 then -1 else 0;
    assert x == u + k * TWO_32;
    assert x / 0x1_0000 == u / 0x1_0000 + k * 0x1_0000;
    assert x / 0x100 == u / 0x100 + k * 0x100_0000;
  }

  /** A 32-bit number is the sum of its four bytes. */
  lemma Bytes(u: nat)
    requires u < TWO_32
    ensures u == (u / 0x100_0000) * 0x100_0000 + ((u / 0x1_0000) % 0x100) * 0x1_0000
                 + ((u / 0x100) % 0x100) * 0x100 + u % 0x100
  {
    var q0 := u / 0x100;
    var q1 := q0 / 0x100;
    assert u / 0x1_0000 == q1;
    assert u / 0x100_0000 == q1 / 0x100;
  }

  /** Two colors with the same channels are the same color. */
  lemma ChannelsDetermineColor(c: Color, d: Color)
    requires Alpha(c) == Alpha(d) && Red(c) == Red(d) && Green(c) == Green(d) && Blue(c) == Blue(d)
    ensures c == d
  {
    ChannelsReconstruct(c);
    ChannelsReconstruct(d);
  }

  /** `toHexColor()`: `String.format("#%08x", color)`, which prints the
      unsigned value of a negative `int`. */
  function ToHexColor(c: Color): (s: string)
    ensures |s| == 9 && s[0] == '#'
    ensures forall i | 1 <= i < |s| :: IsLowerHexDigit(s[i])
  {
    assert Pow16(8) == TWO_32;
    "#" + Hex(Unsigned32(c.color), 8)
  }

  /** Reading `#` and eight hex digits back as a color. */
  function ParseHexColor(s: string): (r: Option<Color>)
    ensures r.Some? ==> |s| == 9 && s[0] == '#'
  {
    if |s| == 9 && s[0] == '#' && ParseHex(s[1..]).Some? then Some(Color(Signed32(ParseHex(s[1..]).value)))
    else None
  }

  /** The text names the color's 32-bit value: reading it back gives the
      color. */
  lemma HexColorRoundTrip(c: Color)
    ensures ParseHexColor(ToHexColor(c)) == Some(c)
  {
    assert Pow16(8) == TWO_32;
    var u := Unsigned32(c.color);
    var s := ToHexColor(c);
    assert s[1..] == Hex(u, 8);
    ParseHexOfHex(u, 8);
    assert ParseHex(s[1..]) == Some(u);
    assert Signed32(u) == c.color;
  }

  /** Distinct colors have distinct texts. */
  lemma HexColorInjective(c: Color, d: Color)
    requires ToHexColor(c) == ToHexColor(d)
    ensures c == d
  {
    HexColorRoundTrip(c);
    HexColorRoundTrip(d);
  }
}
