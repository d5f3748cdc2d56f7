/**
  The stroke colour helper of the diagram, `hexToRgba(hex, alpha)`: it strips the
  `#`, reads three two-character hexadecimal pairs with `parseInt(…, 16)` and formats
  `rgba(r,g,b,alpha)`. A colour is modelled as its four components rather than as the
  formatted text; a component `parseInt` cannot read is `NaN`. Alphas are in hundredths.
*/
module Colour {
  import opened Wrappers
  import opened Normalize

  /** The result of `parseInt`: a number, or `NaN` when no digit could be read. */
  datatype Channel = Num(v: nat) | NaN

  /** The CSS colour `rgba(r,g,b,alpha/100)`. */
  datatype Rgba = Rgba(r: Channel, g: Channel, b: Channel, alpha: nat)

  /** The value of a hexadecimal digit, in either case. */
  function HexDigit(c: char): (d: Option<nat>)
    ensures d.Some? ==> d.value < 16
  {
    if '0' <= c <= '9' then Some(c as int - '0' as int)
    else if 'a' <= c <= 'f' then Some(c as int - 'a' as int + 10)
    else if 'A' <= c <= 'F' then Some(c as int - 'A' as int + 10)
    else None
  }

  predicate IsHexDigit(c: char) {
    HexDigit(c).Some?
  }

  predicate AllHex(s: string) {
    forall i :: 0 <= i < |s| ==> IsHexDigit(s[i])
  }

  /** The position of the first `c` in `s`, as `s.indexOf(c)` finds it. */
  function FirstIndex(s: string, c: char): (k: nat)
    requires c in s
    ensures k < |s| && s[k] == c && c !in s[..k]
  {
    if s[0] == c then 0
    else
      var k := FirstIndex(s[1..], c);
      assert s[..k + 1] == [s[0]] + s[1..][..k];
      k + 1
  }

  /** `s.replace(c, '')` with a one-character pattern: only the first occurrence goes. */
  function RemoveFirst(s: string, c: char): (r: string)
    ensures c !in s ==> r == s
    ensures c in s ==> |r| == |s| - 1
    ensures |s| > 0 && s[0] == c ==> r == s[1..]
    ensures c in s ==> exists k :: 0 <= k < |s| && s[k] == c && c !in s[..k] && r == s[..k] + s[k + 1..]
  {
    if c in s then
      var k := FirstIndex(s, c);
      s[..k] + s[k + 1..]
    else s
  }

  /** `s.substring(start, end)`: both ends are clamped to the length, and swapped when reversed. */
  function Substring(s: string, start: nat, end: nat): (r: string)
    ensures |r| <= |s|
    ensures start <= end <= |s| ==> r == s[start..end]
  {
    if end < start then Substring(s, end, start)
    else
      var a := if start < |s| then start else |s|;
      var b := if end < |s| then end else |s|;
      s[a..b]
  }

  /** The longest prefix of `s` made of hexadecimal digits. */
  function HexPrefix(s: string): (r: string)
    ensures |r| <= |s| && r == s[..|r|]
    ensures AllHex(r)
    ensures |r| < |s| ==> !IsHexDigit(s[|r|])
  {
    if |s| == 0 || !IsHexDigit(s[0]) then []
    else
      var rest := HexPrefix(s[1..]);
      assert [s[0]] + rest == s[..|rest| + 1];
      [s[0]] + rest
  }

  /** The number a string of hexadecimal digits denotes, most significant digit first. */
  function HexValue(digits: string): nat
    requires AllHex(digits)
  {
    if |digits| == 0 then 0
    else HexValue(digits[..|digits| - 1]) * 16 + HexDigit(digits[|digits| - 1]).value
  }

  /**
    `parseInt(s, 16)` on a string without leading blanks, sign or `0x`: the value of its
    leading hexadecimal digits, or `NaN` when it does not start with one.
  */
  function ParseHex(s: string): Channel {
    var d := HexPrefix(s);
    if |d| == 0 then NaN else Num(HexValue(d))
  }

  /** The colour value of the two-digit pair `a b`. */
  function PairValue(a: char, b: char): nat
    requires IsHexDigit(a) && IsHexDigit(b)
  {
    HexDigit(a).value * 16 + HexDigit(b).value
  }

  /** `hexToRgba` as the source writes it. */
  function HexToRgbaAsWritten(hex: string, alpha: nat): Rgba {
    var h := RemoveFirst(hex, '#');
    Rgba(ParseHex(Substring(h, 0, 2)), ParseHex(Substring(h, 2, 4)), ParseHex(Substring(h, 4, 6)), alpha)
  }

  /** A pair of hexadecimal digits parses to its value. */
  lemma ParsePair(a: char, b: char)
    requires IsHexDigit(a) && IsHexDigit(b)
    ensures ParseHex([a, b]) == Num(PairValue(a, b))
    ensures PairValue(a, b) < 256
  {
    assert HexPrefix([b]) == [b];
    assert HexPrefix([a, b]) == [a, b];
    assert [a, b][..1] == [a];
    assert HexValue([a]) == HexDigit(a).value;
  }

  /** A `#` followed by six hexadecimal digits. */
  predicate IsLongHex(hex: string) {
    |hex| == 7 && hex[0] == '#' && AllHex(hex[1..])
  }

  /** On `#rrggbb` each component is the value of its pair, and so lies in 0..255. */
  lemma LongHexAsWritten(hex: string, alpha: nat)
    requires IsLongHex(hex)
    ensures IsHexDigit(hex[1]) && IsHexDigit(hex[2]) && IsHexDigit(hex[3])
    ensures IsHexDigit(hex[4]) && IsHexDigit(hex[5]) && IsHexDigit(hex[6])
    ensures HexToRgbaAsWritten(hex, alpha) ==
      Rgba(Num(PairValue(hex[1], hex[2])), Num(PairValue(hex[3], hex[4])), Num(PairValue(hex[5], hex[6])), alpha)
    ensures PairValue(hex[1], hex[2]) < 256 && PairValue(hex[3], hex[4]) < 256 && PairValue(hex[5], hex[6]) < 256
  {
    var h := hex[1..];
    assert forall i :: 1 <= i < 7 ==> hex[i] == h[i - 1];
    assert RemoveFirst(hex, '#') == h;
    assert h[0..2] == [hex[1], hex[2]];
    assert h[2..4] == [hex[3], hex[4]];
    assert h[4..6] == [hex[5], hex[6]];
    ParsePair(hex[1], hex[2]);
    ParsePair(hex[3], hex[4]);
    ParsePair(hex[5], hex[6]);
  }

  /**
    The short notation reads wrongly: the first two digits become red, the third alone
    becomes green, and blue is `NaN`.
  */
  lemma ShortHexAsWritten(hex: string, alpha: nat)
    requires IsShortHex(hex)
    ensures IsHexDigit(hex[1]) && IsHexDigit(hex[2]) && IsHexDigit(hex[3])
    ensures HexToRgbaAsWritten(hex, alpha) ==
      Rgba(Num(PairValue(hex[1], hex[2])), Num(HexDigit(hex[3]).value), NaN, alpha)
  {
    var h := hex[1..];
    assert forall i :: 1 <= i < 4 ==> hex[i] == h[i - 1];
    assert RemoveFirst(hex, '#') == h;
    assert Substring(h, 0, 2) == [hex[1], hex[2]];
    assert Substring(h, 2, 4) == [hex[3]];
    assert Substring(h, 4, 6) == [];
    ParsePair(hex[1], hex[2]);
    assert HexPrefix([hex[3]]) == [hex[3]];
    assert HexValue([hex[3]]) == HexDigit(hex[3]).value;
  }

  /** The two greys of the application: `#999` gives `rgba(153,9,NaN,…)`, `#888` gives `rgba(136,8,NaN,…)`. */
  lemma GreysAsWritten(alpha: nat)
    ensures HexToRgbaAsWritten("#999", alpha) == Rgba(Num(153), Num(9), NaN, alpha)
    ensures HexToRgbaAsWritten("#888", alpha) == Rgba(Num(136), Num(8), NaN, alpha)
  {
    assert IsShortHex("#999") && IsShortHex("#888");
    ShortHexAsWritten("#999", alpha);
    ShortHexAsWritten("#888", alpha);
  }

  /** The six-digit form of a colour: `rgb` is read as `rrggbb`. */
  function Expand(h: string): (r: string)
    ensures |h| != 3 ==> r == h
    ensures |r| == (if |h| == 3 then 6 else |h|)
  {
    if |h| == 3 then [h[0], h[0], h[1], h[1], h[2], h[2]] else h
  }

  /** `hexToRgba` as intended: the same, after expanding the three-digit notation. */
  function HexToRgba(hex: string, alpha: nat): Rgba {
    var h := Expand(RemoveFirst(hex, '#'));
    Rgba(ParseHex(Substring(h, 0, 2)), ParseHex(Substring(h, 2, 4)), ParseHex(Substring(h, 4, 6)), alpha)
  }

  /** On `#rrggbb` the intended reading is the written one. */
  lemma LongHexUnchanged(hex: string, alpha: nat)
    requires IsLongHex(hex)
    ensures HexToRgba(hex, alpha) == HexToRgbaAsWritten(hex, alpha)
  {
    var h := hex[1..];
    assert RemoveFirst(hex, '#') == h;
  }

  /** A `#` followed by three hexadecimal digits. */
  predicate IsShortHex(hex: string) {
    |hex| == 4 && hex[0] == '#' && AllHex(hex[1..])
  }

  /** On `#rgb` each component is its digit doubled, `0xrr = 17 × r`. */
  lemma ShortHex(hex: string, alpha: nat)
    requires IsShortHex(hex)
    ensures IsHexDigit(hex[1]) && IsHexDigit(hex[2]) && IsHexDigit(hex[3])
    ensures HexToRgba(hex, alpha) ==
      Rgba(Num(17 * HexDigit(hex[1]).value), Num(17 * HexDigit(hex[2]).value), Num(17 * HexDigit(hex[3]).value), alpha)
  {
    var h := hex[1..];
    assert forall i :: 1 <= i < 4 ==> hex[i] == h[i - 1];
    assert RemoveFirst(hex, '#') == h;
    var e := Expand(h);
    assert e[0..2] == [hex[1], hex[1]];
    assert e[2..4] == [hex[2], hex[2]];
    assert e[4..6] == [hex[3], hex[3]];
    ParsePair(hex[1], hex[1]);
    ParsePair(hex[2], hex[2]);
    ParsePair(hex[3], hex[3]);
  }

  /** The upper-case digit for 0..15. */
  function HexChar(d: nat): (c: char)
    requires d < 16
    ensures HexDigit(c) == Some(d)
  {
    if d < 10 then ('0' as int + d) as char else ('A' as int + d - 10) as char
  }

  /** The two-digit hexadecimal notation of 0..255. */
  function Hex2(v: nat): string
    requires v < 256
  {
    [HexChar(v / 16), HexChar(v % 16)]
  }

  /** `#rrggbb` of three components. */
  function ToHex(r: nat, g: nat, b: nat): (hex: string)
    requires r < 256 && g < 256 && b < 256
    ensures IsLongHex(hex)
  {
    var hex := "#" + Hex2(r) + Hex2(g) + Hex2(b);
    assert forall i :: 1 <= i < 7 ==> IsHexDigit(hex[i]);
    hex
  }

  /** Reading back a formatted colour gives its components. */
  lemma ToHexRoundTrip(r: nat, g: nat, b: nat, alpha: nat)
    requires r < 256 && g < 256 && b < 256
    ensures HexToRgba(ToHex(r, g, b), alpha) == Rgba(Num(r), Num(g), Num(b), alpha)
  {
    var hex := ToHex(r, g, b);
    LongHexAsWritten(hex, alpha);
    LongHexUnchanged(hex, alpha);
    assert hex[1] == Hex2(r)[0] && hex[2] == Hex2(r)[1];
    assert hex[3] == Hex2(g)[0] && hex[4] == Hex2(g)[1];
    assert hex[5] == Hex2(b)[0] && hex[6] == Hex2(b)[1];
    Hex2Value(r);
    Hex2Value(g);
    Hex2Value(b);
  }

  /** The two digits of `Hex2(v)` read back as `v`. */
  lemma Hex2Value(v: nat)
    requires v < 256
    ensures PairValue(Hex2(v)[0], Hex2(v)[1]) == v
  {
    assert v == 16 * (v / 16) + v % 16;
  }

  predicate WellFormedColour(c: string) {
    IsShortHex(c) || IsLongHex(c)
  }

  lemma FirstSiteColours()
    ensures WellFormedColour(StedColors["Ikke spesifisert"]) && WellFormedColour(StedColors["Alfaset gravlund"])
    ensures WellFormedColour(StedColors["Høybråten kirkegård"]) && WellFormedColour(StedColors["Nordre gravlund"])
    ensures WellFormedColour(StedColors["Ris kirkegård"])
  {
  }

  lemma LastSiteColours()
    ensures WellFormedColour(StedColors["Ullern kirkegård"]) && WellFormedColour(StedColors["Vestre gravlund"])
    ensures WellFormedColour(StedColors["Voksen kirkegård"]) && WellFormedColour(StedColors["Vår Frelsers gravlund"])
    ensures WellFormedColour(StedColors["Østre Aker kirkegård"])
  {
  }

  /** Every site colour, the fallback included, is `#rgb` or `#rrggbb`. */
  lemma SiteColoursWellFormed(sted: string)
    ensures WellFormedColour(StedColor(sted))
  {
    NodeColors(sted, "");
    if sted in StedColors {
      FirstSiteColours();
      LastSiteColours();
      assert || sted == "Ikke spesifisert" || sted == "Alfaset gravlund" || sted == "Høybråten kirkegård"
             || sted == "Nordre gravlund" || sted == "Ris kirkegård" || sted == "Ullern kirkegård"
             || sted == "Vestre gravlund" || sted == "Voksen kirkegård" || sted == "Vår Frelsers gravlund"
             || sted == "Østre Aker kirkegård";
    } else {
      assert WellFormedColour("#888");
    }
  }

  /** A complete colour: no component is `NaN`. */
  predicate Defined(c: Rgba) {
    c.r.Num? && c.g.Num? && c.b.Num?
  }

  /** With the correction, every site's stroke colour is a complete colour. */
  lemma SiteStrokesDefined(sted: string, alpha: nat)
    ensures Defined(HexToRgba(StedColor(sted), alpha))
  {
    SiteColoursWellFormed(sted);
    var c := StedColor(sted);
    if IsShortHex(c) {
      ShortHex(c, alpha);
    } else {
      LongHexAsWritten(c, alpha);
      LongHexUnchanged(c, alpha);
    }
  }

}
