/** RGB colours, after part/src/Color.ts: a mutable `Color` object with
    integer components, hex conversion and brightness scaling.  The value
    of a colour is an `Rgb` triple; the hex string functions and the
    brightness function are stated on those triples. */
module Colors {
  import opened Wrappers
  import V = Vectors

  datatype Rgb = Rgb(r: int, g: int, b: int)

  /** Every component lies in 0..255, the range scaleBrightness accepts. */
  predicate InByteRange(c: Rgb) {
    0 <= c.r <= 255 && 0 <= c.g <= 255 && 0 <= c.b <= 255
  }

  // ---------------------------------------------------------------------
  // Math.floor and Math.round on finite numbers

  /** Math.round: the nearest integer, halves rounded up. */
  function Round(x: real): (n: int)
    ensures n as real <= x + 0.5 < n as real + 1.0
  {
    (x + 0.5).Floor
  }

  // ---------------------------------------------------------------------
  // parseInt(s, 16)

  predicate IsHexDigit(c: char) {
    '0' <= c <= '9' || 'a' <= c <= 'f' || 'A' <= c <= 'F'
  }

  function HexDigitValue(c: char): (d: nat)
    requires IsHexDigit(c)
    ensures d < 16
  {
    if '0' <= c <= '9' then (c - '0') as nat
    else if 'a' <= c <= 'f' then (c - 'a') as nat + 10
    else (c - 'A') as nat + 10
  }

  /** The white space and line terminators of ECMAScript. */
  predicate IsSpace(c: char) {
    c == ' ' || c == '\t' || c == '\n' || c == '\r' || c == '\U{B}' || c == '\U{C}' ||
    c == '\U{A0}' || c == '\U{1680}' || '\U{2000}' <= c <= '\U{200A}' ||
    c == '\U{2028}' || c == '\U{2029}' || c == '\U{202F}' || c == '\U{205F}' ||
    c == '\U{3000}' || c == '\U{FEFF}'
  }

  function TrimStart(s: string): (t: string)
    ensures |t| > 0 ==> !IsSpace(t[0])
  {
    if |s| > 0 && IsSpace(s[0]) then TrimStart(s[1..]) else s
  }

  /** The longest prefix of `s` made of hexadecimal digits. */
  function HexPrefix(s: string): (p: string)
    ensures forall i :: 0 <= i < |p| ==> IsHexDigit(p[i])
  {
    if |s| > 0 && IsHexDigit(s[0]) then [s[0]] + HexPrefix(s[1..]) else []
  }

  /** The number a string of hex digits stands for, most significant first. */
  function HexValue(digits: string): (n: nat)
    requires forall i :: 0 <= i < |digits| ==> IsHexDigit(digits[i])
  {
    if |digits| == 0 then 0
    else 16 * HexValue(digits[..|digits| - 1]) + HexDigitValue(digits[|digits| - 1])
  }

  /** parseInt(s, 16): leading white space, an optional sign and an
      optional 0x prefix are skipped, then the longest run of hex digits is
      read; with no digits the result is NaN, here None. */
  function ParseInt16(s: string): Option<int> {
    var t := TrimStart(s);
    var negative := |t| > 0 && t[0] == '-';
    var u := if |t| > 0 && (t[0] == '-' || t[0] == '+') then t[1..] else t;
    var w := if |u| >= 2 && u[0] == '0' && (u[1] == 'x' || u[1] == 'X') then u[2..] else u;
    var digits := HexPrefix(w);
    var n: int := HexValue(digits);
    if |digits| == 0 then None
    else if negative then Some(-n)
    else Some(n)
  }

  /** String.prototype.substring with in-order arguments: both ends are
      clamped to the string. */
  function Substring(s: string, start: nat, end: nat): (t: string)
    requires start <= end
    ensures |t| <= end - start
  {
    var a := if start < |s| then start else |s|;
    var b := if end < |s| then end else |s|;
    s[a..b]
  }

  /** fromHex on values: None when some component parses to NaN. */
  function ParseHexColor(hex: string): Option<Rgb> {
    var r := ParseInt16(Substring(hex, 1, 3));
    var g := ParseInt16(Substring(hex, 3, 5));
    var b := ParseInt16(Substring(hex, 5, 7));
    if r.Some? && g.Some? && b.Some? then Some(Rgb(r.value, g.value, b.value)) else None
  }

  // ---------------------------------------------------------------------
  // n.toString(16).padStart(2, '0')

  function HexChar(d: nat): (c: char)
    requires d < 16
    ensures IsHexDigit(c) && HexDigitValue(c) == d
  {
    if d < 10 then ('0' as int + d) as char else ('a' as int + d - 10) as char
  }

  /** The lower-case hex digits of n, without leading zeros. */
  function HexDigits(n: nat): (s: string)
    ensures |s| >= 1
    ensures forall i :: 0 <= i < |s| ==> IsHexDigit(s[i])
  {
    if n < 16 then [HexChar(n)] else HexDigits(n / 16) + [HexChar(n % 16)]
  }

  /** Number.prototype.toString(16) on an integer. */
  function ToString16(n: int): string {
    if n < 0 then "-" + HexDigits(-n) else HexDigits(n)
  }

  /** padStart(2, '0'). */
  function PadStart2(s: string): (t: string)
    ensures |t| == if |s| >= 2 then |s| else 2
  {
    if |s| >= 2 then s else seq(2 - |s|, _ => '0') + s
  }

  function ComponentHex(n: int): string {
    PadStart2(ToString16(n))
  }

  /** toHexStr on values. */
  function HexString(c: Rgb): string {
    "#" + ComponentHex(c.r) + ComponentHex(c.g) + ComponentHex(c.b)
  }

  // ---------------------------------------------------------------------
  // scaleBrightness

  /** The brightness operation on values: the range checks of the source,
      then every component multiplied by `value` and rounded. */
  function ScaleRgb(c: Rgb, value: real): Result<Rgb> {
    if !InByteRange(c) then Err("RGB values must be between 0 and 255 inclusive.")
    else if value < 0.0 || value > 1.0 then Err("Brightness value must be between 0 and 1 inclusive")
    else Ok(Rgb(Scaled(c.r, value), Scaled(c.g, value), Scaled(c.b, value)))
  }

  /** Math.round(component * value). */
  function Scaled(n: int, value: real): int {
    Round(n as real * value)
  }

  class Color {
    var r: int
    var g: int
    var b: int

    function Value(): Rgb
      reads this
    {
      Rgb(r, g, b)
    }

    /** The constructor floors each component. */
    constructor(r: real, g: real, b: real)
      ensures this.r == r.Floor && this.g == g.Floor && this.b == b.Floor
    {
      this.r := r.Floor;
      this.g := g.Floor;
      this.b := b.Floor;
    }

    method Copy() returns (c: Color)
      ensures fresh(c) && c.Value() == Value()
    {
      c := new Color(r as real, g as real, b as real);
    }

    /** The colour as "#rrggbb". */
    function ToHexStr(): string
      reads this
    {
      HexString(Value())
    }

    /** fromHex: None stands for a colour with a NaN component. */
    static method FromHex(hex: string) returns (c: Option<Color>)
      ensures ParseHexColor(hex).None? <==> c.None?
      ensures c.Some? ==> fresh(c.value) && c.value.Value() == ParseHexColor(hex).value
    {
      var pr := ParseInt16(Substring(hex, 1, 3));
      var pg := ParseInt16(Substring(hex, 3, 5));
      var pb := ParseInt16(Substring(hex, 5, 7));
      if pr.Some? && pg.Some? && pb.Some? {
        var color := new Color(pr.value as real, pg.value as real, pb.value as real);
        c := Some(color);
      } else {
        c := None;
      }
    }

    /** scaleBrightness: scales this colour in place and returns it; an
        out-of-range colour or brightness is an error and changes nothing. */
    method ScaleBrightness(value: real) returns (res: Result<Color>)
      modifies this
      ensures ScaleRgb(old(Value()), value).Err? <==> res.Err?
      ensures res.Err? ==> Value() == old(Value())
      ensures res.Ok? ==> res.value == this && Value() == ScaleRgb(old(Value()), value).value
    {
      if r < 0 || r > 255 || g < 0 || g > 255 || b < 0 || b > 255 {
        return Err("RGB values must be between 0 and 255 inclusive.");
      }
      if value < 0.0 || value > 1.0 {
        return Err("Brightness value must be between 0 and 1 inclusive");
      }
      r, g, b := Scaled(r, value), Scaled(g, value), Scaled(b, value);
      res := Ok(this);
    }
  }

  /** The free scaleBrightness: the same checks, then a scaled copy; the
      argument is left as it was. */
  method ScaleBrightnessOf(color: Color, value: real) returns (res: Result<Color>)
    ensures ScaleRgb(color.Value(), value).Err? <==> res.Err?
    ensures res.Ok? ==> fresh(res.value) && res.value.Value() == ScaleRgb(color.Value(), value).value
  {
    if color.r < 0 || color.r > 255 || color.g < 0 || color.g > 255 || color.b < 0 || color.b > 255 {
      return Err("RGB values must be between 0 and 255 inclusive.");
    }
    if value < 0.0 || value > 1.0 {
      return Err("Brightness value must be between 0 and 1 inclusive");
    }
    var copy := color.Copy();
    res := copy.ScaleBrightness(value);
  }

  /** scaleBrightness_deprecated: scales the colour in place, returning
      nothing on success. */
  method ScaleBrightnessDeprecated(color: Color, value: real) returns (res: Result<()>)
    modifies color
    ensures ScaleRgb(old(color.Value()), value).Err? <==> res.Err?
    ensures res.Err? ==> color.Value() == old(color.Value())
    ensures res.Ok? ==> color.Value() == ScaleRgb(old(color.Value()), value).value
  {
    var scaled := color.ScaleBrightness(value);
    res := if scaled.Ok? then Ok(()) else Err(scaled.message);
  }

  const RED: Rgb := Rgb(255, 0, 0)
  const GREEN: Rgb := Rgb(0, 255, 0)
  const BLUE: Rgb := Rgb(0, 0, 255)
  const YELLOW: Rgb := Rgb(255, 255, 0)
  const CYAN: Rgb := Rgb(0, 255, 255)
  const MAGENTA: Rgb := Rgb(255, 0, 255)
  const PINK: Rgb := Rgb(255, 192, 203)
  const GRAY: Rgb := Rgb(128, 128, 128)
  const WHITE: Rgb := Rgb(255, 255, 255)
  const BLACK: Rgb := Rgb(0, 0, 0)

  // ---------------------------------------------------------------------
  // Properties

  /** A byte's padded hex is its two digits, high digit first. */
  lemma ComponentHexOfByte(n: int)
    requires 0 <= n <= 255
    ensures ComponentHex(n) == [HexChar(n / 16), HexChar(n % 16)]
  {
    if n < 16 {
      assert HexDigits(n) == [HexChar(n)];
      assert PadStart2([HexChar(n)]) == ['0', HexChar(n)];
      assert HexChar(0) == '0';
    } else {
      assert HexDigits(n / 16) == [HexChar(n / 16)];
    }
  }

  /** Two hex digits parse to their value. */
  lemma ParseTwoDigits(s: string)
    requires |s| == 2 && IsHexDigit(s[0]) && IsHexDigit(s[1])
    ensures ParseInt16(s) == Some(16 * HexDigitValue(s[0]) + HexDigitValue(s[1]))
  {
    assert TrimStart(s) == s;
    assert HexPrefix(s[1..]) == s[1..] by {
      assert HexPrefix(s[1..][1..]) == [];
    }
    assert HexPrefix(s) == s;
    assert s[..1] == [s[0]] && s[..1][..0] == [];
    assert HexValue(s[..1]) == HexDigitValue(s[0]);
  }

  /** A colour with byte components has a seven-character hex string:
      '#' and two digits per component. */
  lemma HexStringShape(c: Rgb)
    requires InByteRange(c)
    ensures HexString(c) == ['#', HexChar(c.r / 16), HexChar(c.r % 16),
                             HexChar(c.g / 16), HexChar(c.g % 16),
                             HexChar(c.b / 16), HexChar(c.b % 16)]
  {
    ComponentHexOfByte(c.r);
    ComponentHexOfByte(c.g);
    ComponentHexOfByte(c.b);
    HashAndPairs(['#', HexChar(c.r / 16), HexChar(c.r % 16),
                  HexChar(c.g / 16), HexChar(c.g % 16),
                  HexChar(c.b / 16), HexChar(c.b % 16)]);
  }

  /** A byte's two digits parse back to the byte. */
  lemma ParseByteHex(n: int)
    requires 0 <= n <= 255
    ensures ParseInt16([HexChar(n / 16), HexChar(n % 16)]) == Some(n)
  {
    var h, l := n / 16, n % 16;
    var d := [HexChar(h), HexChar(l)];
    assert ParseInt16(d).value == 16 * h + l by {
      assert HexDigitValue(d[0]) == h && HexDigitValue(d[1]) == l;
      ParseTwoDigits(d);
    }
  }

  /** fromHex undoes toHexStr for every colour with byte components. */
  lemma HexRoundTrip(c: Rgb)
    requires InByteRange(c)
    ensures ParseHexColor(HexString(c)) == Some(c)
  {
    var s := HexString(c);
    HexStringShape(c);
    SubstringPair(s, 1);
    SubstringPair(s, 3);
    SubstringPair(s, 5);
    ParseByteHex(c.r);
    ParseByteHex(c.g);
    ParseByteHex(c.b);
  }

  /** Two characters taken from inside a string are those characters. */
  lemma SubstringPair(s: string, i: nat)
    requires i + 2 <= |s|
    ensures Substring(s, i, i + 2) == [s[i], s[i + 1]]
  {
  }

  predicate IsLowerHexDigit(c: char) {
    '0' <= c <= '9' || 'a' <= c <= 'f'
  }

  /** A lower-case digit survives the value and back. */
  lemma HexCharOfValue(c: char)
    requires IsLowerHexDigit(c)
    ensures HexChar(HexDigitValue(c)) == c
  {
  }

  /** Two lower-case digits parse to a byte whose padded hex is the same
      two digits. */
  lemma ComponentHexOfDigits(hi: char, lo: char)
    requires IsLowerHexDigit(hi) && IsLowerHexDigit(lo)
    ensures ParseInt16([hi, lo]).Some?
    ensures ComponentHex(ParseInt16([hi, lo]).value) == [hi, lo]
  {
    ParseTwoDigits([hi, lo]);
    var n := 16 * HexDigitValue(hi) + HexDigitValue(lo);
    assert n / 16 == HexDigitValue(hi) && n % 16 == HexDigitValue(lo);
    HexCharOfValue(hi);
    HexCharOfValue(lo);
    ComponentHexOfByte(n);
  }

  /** toHexStr undoes fromHex on every canonical "#rrggbb" string. */
  lemma HexRoundTripString(s: string)
    requires |s| == 7 && s[0] == '#'
    requires forall i :: 1 <= i < 7 ==> IsLowerHexDigit(s[i])
    ensures ParseHexColor(s).Some?
    ensures HexString(ParseHexColor(s).value) == s
  {
    var sr, sg, sb := [s[1], s[2]], [s[3], s[4]], [s[5], s[6]];
    SubstringPair(s, 1);
    SubstringPair(s, 3);
    SubstringPair(s, 5);
    ComponentHexOfDigits(s[1], s[2]);
    ComponentHexOfDigits(s[3], s[4]);
    ComponentHexOfDigits(s[5], s[6]);
    var c := Rgb(ParseInt16(sr).value, ParseInt16(sg).value, ParseInt16(sb).value);
    assert ParseHexColor(s) == Some(c);
    HexStringOfComponents(s, c);
  }

  /** A "#rrggbb" string whose three digit pairs are the padded hex of the
      components of c is the hex string of c. */
  lemma HexStringOfComponents(s: string, c: Rgb)
    requires |s| == 7 && s[0] == '#'
    requires ComponentHex(c.r) == [s[1], s[2]] && ComponentHex(c.g) == [s[3], s[4]]
    requires ComponentHex(c.b) == [s[5], s[6]]
    ensures HexString(c) == s
  {
    HashAndPairs(s);
  }

  /** A '#' and six characters are the '#' followed by three pairs. */
  lemma HashAndPairs(s: string)
    requires |s| == 7 && s[0] == '#'
    ensures "#" + [s[1], s[2]] + [s[3], s[4]] + [s[5], s[6]] == s
  {
    var t := "#" + [s[1], s[2]] + [s[3], s[4]] + [s[5], s[6]];
    assert forall i | 0 <= i < 7 :: t[i] == s[i];
  }

  /** Rounding a scaled byte stays between zero and the byte. */
  lemma RoundScaledComponent(c: int, value: real)
    requires 0 <= c <= 255 && 0.0 <= value <= 1.0
    ensures 0 <= Scaled(c, value) <= c
  {
    var x := c as real * value;
    if 0 < c && 0.0 < value {
      V.ProductPositive(c as real, value, x);
    }
    if 0 < c && value < 1.0 {
      V.ProductPositive(c as real, 1.0 - value, c as real * (1.0 - value));
    }
    assert 0.0 <= x <= c as real;
  }

  /** A successful scaling never brightens: each component ends between 0
      and its old value, so the result is again in byte range. */
  lemma ScaleRgbDarkens(c: Rgb, value: real)
    requires ScaleRgb(c, value).Ok?
    ensures InByteRange(ScaleRgb(c, value).value)
    ensures var s := ScaleRgb(c, value).value; s.r <= c.r && s.g <= c.g && s.b <= c.b
  {
    RoundScaledComponent(c.r, value);
    RoundScaledComponent(c.g, value);
    RoundScaledComponent(c.b, value);
  }

  /** The errors are exactly the out-of-range inputs. */
  lemma ScaleRgbErrors(c: Rgb, value: real)
    ensures ScaleRgb(c, value).Err? <==> !InByteRange(c) || value < 0.0 || value > 1.0
  {
  }

  /** Full brightness keeps the colour and zero brightness gives black. */
  lemma ScaleRgbEnds(c: Rgb)
    requires InByteRange(c)
    ensures ScaleRgb(c, 1.0) == Ok(c)
    ensures ScaleRgb(c, 0.0) == Ok(BLACK)
  {
  }

  /** Two of the named colours and their usual hex strings. */
  lemma NamedColourHex()
    ensures HexString(PINK) == "#ffc0cb"
    ensures HexString(GRAY) == "#808080"
  {
    HexStringShape(PINK);
    HexStringShape(GRAY);
  }
}
