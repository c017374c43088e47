/**
 * The row record (MyRect) and its pen colour.
 * MyRect.h is not part of this model; its field list and default values are
 * the ones the rectangle's unit tests pin down.
 */
module Rects {
  import opened Wrappers

  /** One 8-bit colour channel. */
  type Channel = x: int | 0 <= x < 256

  /** An opaque RGB colour standing in for QColor. */
  datatype Color = Rgb(red: Channel, green: Channel, blue: Channel)

  const Black := Rgb(0, 0, 0)
  const Red := Rgb(255, 0, 0)
  const Green := Rgb(0, 255, 0)

  /** Qt::PenStyle codes; the model stores any int as a style. */
  const NoPen := 0
  const SolidLine := 1
  const DashLine := 2
  const DotLine := 3
  const DashDotLine := 4
  const DashDotDotLine := 5

  /** One table row: the pen attributes and the geometry, always fully populated. */
  datatype Rect = Rect(penColor: Color, penStyle: int, penWidth: int,
                       left: int, top: int, width: int, height: int)

  /** MyRect{}: black solid pen of width 1 at (0, 0), 10 by 10. */
  const DefaultRect := Rect(Black, SolidLine, 1, 0, 0, 10, 10)

  predicate IsHexDigit(ch: char) {
    '0' <= ch <= '9' || 'a' <= ch <= 'f'
  }

  /** The lower-case hexadecimal digit for a nibble. */
  function HexDigit(d: nat): (ch: char)
    requires d < 16
    ensures IsHexDigit(ch)
  {
    if d < 10 then ('0' as int + d) as char else ('a' as int + d - 10) as char
  }

  /** The value of a lower-case hexadecimal digit, or None: the inverse of HexDigit. */
  function HexValue(ch: char): (r: Option<nat>)
    ensures r.Some? <==> IsHexDigit(ch)
    ensures r.Some? ==> r.value < 16 && HexDigit(r.value) == ch
  {
    if '0' <= ch <= '9' then Some(ch as nat - '0' as nat)
    else if 'a' <= ch <= 'f' then Some(ch as nat - 'a' as nat + 10)
    else None
  }

  lemma HexDigitRoundTrip(d: nat)
    requires d < 16
    ensures HexValue(HexDigit(d)) == Some(d)
  {
  }

  /** Two hex digits for one channel, high nibble first. */
  function Hex2(x: Channel): (s: string)
    ensures |s| == 2 && IsHexDigit(s[0]) && IsHexDigit(s[1])
  {
    [HexDigit(x / 16), HexDigit(x % 16)]
  }

  /** QColor::name(): "#rrggbb" in lower-case hexadecimal. */
  function Name(c: Color): (s: string)
    ensures |s| == 7 && s[0] == '#'
    ensures forall i :: 1 <= i < 7 ==> IsHexDigit(s[i])
  {
    "#" + Hex2(c.red) + Hex2(c.green) + Hex2(c.blue)
  }

  /** The channel written by two hex digits, or None. */
  function ParseHex2(s: string): (r: Option<Channel>)
    requires |s| == 2
  {
    match (HexValue(s[0]), HexValue(s[1]))
    case (Some(hi), Some(lo)) => Some(hi * 16 + lo)
    case _ => None
  }

  /** Reads back a "#rrggbb" string; the reference against which Name is checked. */
  function ParseName(s: string): (r: Option<Color>)
  {
    if |s| != 7 || s[0] != '#' then None
    else
      match (ParseHex2(s[1..3]), ParseHex2(s[3..5]), ParseHex2(s[5..7]))
      case (Some(r), Some(g), Some(b)) => Some(Rgb(r, g, b))
      case _ => None
  }

  lemma {:induction false} Hex2RoundTrip(x: Channel)
    ensures ParseHex2(Hex2(x)) == Some(x)
  {
    HexDigitRoundTrip(x / 16);
    HexDigitRoundTrip(x % 16);
  }

  lemma {:induction false} ParseHex2Exact(s: string)
    requires |s| == 2 && ParseHex2(s).Some?
    ensures Hex2(ParseHex2(s).value) == s
  {
    var hi, lo := HexValue(s[0]).value, HexValue(s[1]).value;
    var x: Channel := hi * 16 + lo;
    assert x / 16 == hi && x % 16 == lo;
  }

  /** Name is a bijection between colours and the strings ParseName accepts. */
  lemma {:induction false} NameRoundTrip(c: Color)
    ensures ParseName(Name(c)) == Some(c)
  {
    Hex2RoundTrip(c.red);
    Hex2RoundTrip(c.green);
    Hex2RoundTrip(c.blue);
  }

  lemma {:induction false} ParseNameExact(s: string)
    requires ParseName(s).Some?
    ensures Name(ParseName(s).value) == s
  {
    ParseHex2Exact(s[1..3]);
    ParseHex2Exact(s[3..5]);
    ParseHex2Exact(s[5..7]);
    assert s == [s[0]] + s[1..3] + s[3..5] + s[5..7];
  }

  /** Two colours with the same name are the same colour. */
  lemma NameInjective(a: Color, b: Color)
    ensures Name(a) == Name(b) <==> a == b
  {
    NameRoundTrip(a);
    NameRoundTrip(b);
  }
}
