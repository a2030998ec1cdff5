/**
 * The colour palette and `ColorUtils` of `constants/theme.ts`: looking a
 * colour up by name, and turning a `#RRGGBB` colour into an `rgba(...)`
 * string with a given opacity.
 */
module Theme {
  import opened Decimal

  datatype PaletteKey =
    | Cream | Brown | White | PinkBeige | Yellow | SoftWhite
    | OutlineDark | OutlineMedium | OutlineLight
    | TextDark | TextMedium | TextLight | TextWhite
    | Success | Warning | Error | Info
    | Background | BackgroundAlt | Surface | SurfaceAlt
    | Border | BorderDark | BorderLight

  /** `ColorUtils.get`: the palette entry of a name. */
  function Get(k: PaletteKey): (c: string)
    ensures IsHexColor(c)
  {
    match k
    case Cream => "#F5E6D3"
    case Brown => "#D4A574"
    case White => "#FFFFFF"
    case PinkBeige => "#F0D4C4"
    case Yellow => "#FFD166"
    case SoftWhite => "#FFF8F0"
    case OutlineDark => "#4A3428"
    case OutlineMedium => "#5A3E33"
    case OutlineLight => "#8B6F47"
    case TextDark => "#1A1A1A"
    case TextMedium => "#4A3428"
    case TextLight => "#666666"
    case TextWhite => "#FFFFFF"
    case Success => "#37D39A"
    case Warning => "#FFD166"
    case Error => "#FF6B6B"
    case Info => "#4ECDC4"
    case Background => "#F5E6D3"
    case BackgroundAlt => "#FFF8F0"
    case Surface => "#FFFFFF"
    case SurfaceAlt => "#F0D4C4"
    case Border => "#FFFFFF"
    case BorderDark => "#4A3428"
    case BorderLight => "#E0D4C4"
  }

  // ---------------------------------------------------------------------------
  // Hexadecimal digits and parseInt
  // ---------------------------------------------------------------------------

  predicate IsHexDigit(c: char) {
    ('0' <= c <= '9') || ('a' <= c <= 'f') || ('A' <= c <= 'F')
  }

  function HexDigitValue(c: char): (d: nat)
    requires IsHexDigit(c)
    ensures d < 16
  {
    if '0' <= c <= '9' then (c as int) - ('0' as int)
    else if 'a' <= c <= 'f' then (c as int) - ('a' as int) + 10
    else (c as int) - ('A' as int) + 10
  }

  /** The lower-case digit of a value below 16. */
  function HexChar(d: nat): (c: char)
    requires d < 16
    ensures IsHexDigit(c) && HexDigitValue(c) == d
  {
    if d < 10 then (('0' as int) + d) as char else (('a' as int) + d - 10) as char
  }

  predicate AllHex(s: string) {
    forall i :: 0 <= i < |s| ==> IsHexDigit(s[i])
  }

  /** The value of a string of hex digits, most significant first. */
  function HexValue(s: string): nat
    requires AllHex(s)
  {
    if s == [] then 0 else HexValue(s[..|s| - 1]) * 16 + HexDigitValue(s[|s| - 1])
  }

  /** The longest prefix made of hex digits. */
  function HexPrefix(s: string): (p: string)
    ensures AllHex(p) && |p| <= |s| && p == s[..|p|]
    ensures AllHex(s) ==> p == s
  {
    if s == [] || !IsHexDigit(s[0]) then [] else [s[0]] + HexPrefix(s[1..])
  }

  predicate IsSpace(c: char) {
    c == ' ' || c == '\t' || c == '\n' || c == '\r'
  }

  function TrimStart(s: string): (t: string)
    ensures |t| <= |s|
    ensures s == [] || !IsSpace(s[0]) ==> t == s
  {
    if s != [] && IsSpace(s[0]) then TrimStart(s[1..]) else s
  }

  /** A number read by `parseInt`, or `NaN`. */
  datatype ParsedInt = Num(n: int) | NaN

  /**
   * `parseInt(s, 16)`: leading white space skipped, an optional sign, an
   * optional `0x` prefix, then as many hex digits as there are; none gives
   * `NaN`.
   */
  function ParseIntHex(s: string): (r: ParsedInt)
    ensures AllHex(s) && s != [] && !(|s| >= 2 && s[0] == '0' && (s[1] == 'x' || s[1] == 'X')) ==> r == Num(HexValue(s))
    ensures s == [] ==> r == NaN
  {
    var t := TrimStart(s);
    var negative := t != [] && t[0] == '-';
    var unsigned := if t != [] && (t[0] == '-' || t[0] == '+') then t[1..] else t;
    var body := if |unsigned| >= 2 && unsigned[0] == '0' && (unsigned[1] == 'x' || unsigned[1] == 'X')
                then unsigned[2..] else unsigned;
    var digits := HexPrefix(body);
    if digits == [] then NaN
    else Num(if negative then -(HexValue(digits) as int) else HexValue(digits))
  }

  /** The two lower-case hex digits of a byte. */
  function HexByte(b: nat): (s: string)
    requires b < 256
    ensures |s| == 2 && AllHex(s)
  {
    [HexChar(b / 16), HexChar(b % 16)]
  }

  /** Two hex digits are worth sixteen times the first plus the second. */
  lemma TwoHexDigits(s: string)
    requires |s| == 2 && AllHex(s)
    ensures HexValue(s) == HexDigitValue(s[0]) * 16 + HexDigitValue(s[1])
    ensures HexValue(s) <= 255
  {
    assert s[..1][..0] == [];
    assert HexValue(s[..1]) == HexDigitValue(s[0]);
  }

  /** Reading the two hex digits of a byte gives the byte back. */
  lemma HexByteRoundTrip(b: nat)
    requires b < 256
    ensures HexValue(HexByte(b)) == b
    ensures ParseIntHex(HexByte(b)) == Num(b)
  {
    TwoHexDigits(HexByte(b));
  }

  // ---------------------------------------------------------------------------
  // withOpacity
  // ---------------------------------------------------------------------------

  /** `s.replace('#', '')`: the first '#' is dropped, any later one stays. */
  function RemoveFirst(s: string, c: char): (r: string)
    ensures c !in s ==> r == s
    ensures |s| > 0 && s[0] == c ==> r == s[1..]
    ensures c in s ==> |r| == |s| - 1
  {
    if s == [] then []
    else if s[0] == c then s[1..]
    else [s[0]] + RemoveFirst(s[1..], c)
  }

  /** `s.substring(a, b)` for `0 <= a <= b`: the indices are cut down to the length. */
  function Substring(s: string, a: nat, b: nat): (r: string)
    requires a <= b
    ensures b <= |s| ==> r == s[a..b]
  {
    var lo := if a <= |s| then a else |s|;
    var hi := if b <= |s| then b else |s|;
    s[lo..hi]
  }

  /** A number as a template literal prints it. */
  function ShowParsed(p: ParsedInt): string {
    match p
    case NaN => "NaN"
    case Num(n) => IntToString(n)
  }

  /** The three channels `withOpacity` reads: characters 0-1, 2-3 and 4-5 after the first '#'. */
  function Channels(color: string): (ParsedInt, ParsedInt, ParsedInt) {
    var hex := RemoveFirst(color, '#');
    (ParseIntHex(Substring(hex, 0, 2)), ParseIntHex(Substring(hex, 2, 4)), ParseIntHex(Substring(hex, 4, 6)))
  }

  /**
   * `ColorUtils.withOpacity`. The opacity is passed as the text JavaScript
   * prints for it.
   */
  function WithOpacity(color: string, opacityText: string): (r: string)
    ensures |r| > 5 + |opacityText| && r[..5] == "rgba(" && r[|r| - |opacityText| - 1..] == opacityText + ")"
  {
    var (red, green, blue) := Channels(color);
    RgbaText(ShowParsed(red), ShowParsed(green), ShowParsed(blue), opacityText)
  }

  /** The template `rgba(${r}, ${g}, ${b}, ${opacity})` over the printed parts. */
  function RgbaText(red: string, green: string, blue: string, opacityText: string): (r: string)
    ensures |r| > 5 + |opacityText| && r[..5] == "rgba(" && r[|r| - |opacityText| - 1..] == opacityText + ")"
  {
    var middle := red + ", " + green + ", " + blue + ", ";
    assert "rgba(" + red + ", " + green + ", " + blue + ", " + opacityText + ")" == "rgba(" + middle + (opacityText + ")");
    "rgba(" + red + ", " + green + ", " + blue + ", " + opacityText + ")"
  }

  /** `#` followed by six hex digits. */
  predicate IsHexColor(s: string) {
    |s| == 7 && s[0] == '#' && AllHex(s[1..])
  }

  /** The channels of a `#RRGGBB` colour are the values of its digit pairs, each in [0, 255]. */
  lemma HexColorChannels(s: string)
    requires IsHexColor(s)
    ensures var (r, g, b) := Channels(s);
            && r == Num(HexValue(s[1..3])) && g == Num(HexValue(s[3..5])) && b == Num(HexValue(s[5..7]))
            && 0 <= r.n <= 255 && 0 <= g.n <= 255 && 0 <= b.n <= 255
  {
    var hex := RemoveFirst(s, '#');
    assert hex == s[1..];
    assert Substring(hex, 0, 2) == s[1..3];
    assert Substring(hex, 2, 4) == s[3..5];
    assert Substring(hex, 4, 6) == s[5..7];
    TwoHexDigits(s[1..3]);
    TwoHexDigits(s[3..5]);
    TwoHexDigits(s[5..7]);
  }

  /** Every palette entry is `#` and six hex digits. */
  lemma PaletteIsHex(k: PaletteKey)
    ensures IsHexColor(Get(k))
  {
  }

  /** Any palette colour with any opacity prints three channels, each in [0, 255]. */
  lemma PaletteChannelsInRange(k: PaletteKey)
    ensures var (r, g, b) := Channels(Get(k));
            && r.Num? && g.Num? && b.Num?
            && 0 <= r.n <= 255 && 0 <= g.n <= 255 && 0 <= b.n <= 255
  {
    PaletteIsHex(k);
    HexColorChannels(Get(k));
  }

  /** A colour written from three bytes prints those bytes. */
  lemma WithOpacityRoundTrip(r: nat, g: nat, b: nat, opacityText: string)
    requires r < 256 && g < 256 && b < 256
    ensures WithOpacity("#" + HexByte(r) + HexByte(g) + HexByte(b), opacityText)
            == "rgba(" + NatToString(r) + ", " + NatToString(g) + ", " + NatToString(b) + ", " + opacityText + ")"
  {
    BytesChannels(r, g, b);
  }

  lemma BytesChannels(r: nat, g: nat, b: nat)
    requires r < 256 && g < 256 && b < 256
    ensures Channels("#" + HexByte(r) + HexByte(g) + HexByte(b)) == (Num(r), Num(g), Num(b))
  {
    var s := "#" + HexByte(r) + HexByte(g) + HexByte(b);
    assert s[1..3] == HexByte(r) && s[3..5] == HexByte(g) && s[5..7] == HexByte(b);
    assert IsHexColor(s);
    HexColorChannels(s);
    HexByteRoundTrip(r);
    HexByteRoundTrip(g);
    HexByteRoundTrip(b);
  }

  /** Only the first '#' is removed: a second one lands in the red pair, which reads as `NaN`. */
  lemma SecondHashIsKept()
    ensures Channels("##FFFFFF") == (NaN, Num(255), Num(255))
  {
    assert RemoveFirst("##FFFFFF", '#') == "#FFFFFF";
    assert Substring("#FFFFFF", 0, 2) == "#F";
    assert Substring("#FFFFFF", 2, 4) == "FF";
    assert Substring("#FFFFFF", 4, 6) == "FF";
    assert HexValue("FF") == 255 by {
      assert "FF"[..1] == "F";
      assert "F"[..0] == [];
    }
  }
}
