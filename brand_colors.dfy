/**
 * Brand colours: darkening a hex colour for hover states, the CSS variables and inline styles
 * built from a site's brand colours, and the utility classes of each theme.
 *
 * `adjustBrightness` works on JavaScript numbers; here a channel shift of `255 * percent / 100`
 * is computed exactly in hundredths, which matches the floating-point result for the whole
 * percentages the program passes (-20 and -30). A channel that does not parse is NaN and is
 * written as "NaN", as `Math.round(NaN).toString(16)` does.
 */
module BrandColors {
  import opened Wrappers
  import opened Strings
  import opened JsNumbers
  import opened Types

  /** `parseInt(hex.substring(2i, 2i + 2), 16)` after the first `#` is removed. */
  function Channel(hex: string, i: nat): Option<int> {
    var h := ReplaceFirst(hex, "#", "");
    ParseInt(Substring(h, 2 * i, 2 * i + 2), 16)
  }

  /** `Math.round(Math.min(255, Math.max(0, v + 255 * percent / 100)))`, computed in hundredths:
   *  rounding half up is adding 50 hundredths and dividing. */
  function Adjust(v: int, percent: int): (r: nat)
    ensures r <= 255
  {
    var scaled := 100 * v + 255 * percent;
    var clamped := if scaled < 0 then 0 else if scaled > 25500 then 25500 else scaled;
    (clamped + 50) / 100
  }

  /** `toHex`: the hex digits of a channel, padded with one zero when there is one digit. */
  function Hex2(c: Option<nat>): string {
    match c
    case None => "NaN"
    case Some(n) => var h := ToHex(n); if |h| == 1 then "0" + h else h
  }

  /** The adjusted channel `i`, NaN when it does not parse. */
  function AdjustedChannel(hex: string, i: nat, percent: int): Option<nat> {
    match Channel(hex, i)
    case None => None
    case Some(v) => Some(Adjust(v, percent))
  }

  /** The template literal `#${toHex(r)}${toHex(g)}${toHex(b)}`. */
  function Render(r: Option<nat>, g: Option<nat>, b: Option<nat>): string {
    "#" + Hex2(r) + Hex2(g) + Hex2(b)
  }

  /** `adjustBrightness(hex, percent)`: a `#` and two hex digits per channel, so seven characters
   *  exactly when all three channels parse; a channel that does not is written `NaN`. */
  function AdjustBrightness(hex: string, percent: int): (r: string)
    ensures |r| >= 7 && r[0] == '#'
    ensures |r| == 7 <==> Channel(hex, 0).Some? && Channel(hex, 1).Some? && Channel(hex, 2).Some?
  {
    var r, g, b := AdjustedChannel(hex, 0, percent), AdjustedChannel(hex, 1, percent), AdjustedChannel(hex, 2, percent);
    RenderWidth(r, g, b);
    Render(r, g, b)
  }

  /** The rendered colour starts with `#`, and has seven characters exactly when no channel is NaN. */
  lemma RenderWidth(r: Option<nat>, g: Option<nat>, b: Option<nat>)
    requires r.Some? ==> r.value <= 255
    requires g.Some? ==> g.value <= 255
    requires b.Some? ==> b.value <= 255
    ensures |Render(r, g, b)| >= 7 && Render(r, g, b)[0] == '#'
    ensures |Render(r, g, b)| == 7 <==> r.Some? && g.Some? && b.Some?
  {
    HexWidth(r);
    HexWidth(g);
    HexWidth(b);
  }

  /** An adjusted channel is written with two digits, a channel that does not parse with three. */
  lemma HexWidth(c: Option<nat>)
    requires c.Some? ==> c.value <= 255
    ensures |Hex2(c)| == if c.Some? then 2 else 3
  {
    if c.Some? {
      Hex2Lower(c.value);
    }
  }

  /** A shift by zero keeps a channel; a darkening shift never raises one and a lightening shift
   *  never lowers one. */
  lemma AdjustMonotone(v: int, percent: int)
    requires 0 <= v <= 255
    ensures percent == 0 ==> Adjust(v, percent) == v
    ensures percent <= 0 ==> Adjust(v, percent) <= v
    ensures percent >= 0 ==> Adjust(v, percent) >= v
  {
  }

  /** Shifts are clamped: a shift by -100 percent or less gives black, +100 percent or more white. */
  lemma AdjustClamps(v: int, percent: int)
    requires 0 <= v <= 255
    ensures percent <= -100 ==> Adjust(v, percent) == 0
    ensures percent >= 100 ==> Adjust(v, percent) == 255
  {
  }

  /** A channel below 256 is written as exactly two lowercase hex digits. */
  lemma Hex2Digits(n: nat)
    requires n < 256
    ensures Hex2(Some(n)) == [DigitChar(n / 16), DigitChar(n % 16)]
  {
    var ds := ToDigits(n, 16);
    if n >= 16 {
      assert ToDigits(n / 16, 16) == [n / 16];
      assert ds == [n / 16, n % 16];
    } else {
      assert ds == [n];
    }
  }

  /** A channel below 256 is two lowercase hex digits. */
  lemma Hex2Lower(n: nat)
    requires n < 256
    ensures var h := Hex2(Some(n)); |h| == 2 && IsLowerHexDigit(h[0]) && IsLowerHexDigit(h[1])
  {
    Hex2Digits(n);
    var h := ToHex(n);
    assert IsLowerHexDigit(h[0]);
    assert IsLowerHexDigit(h[|h| - 1]);
  }

  /** The value of two base-16 digits. */
  lemma TwoDigitValue(a: nat, b: nat)
    ensures FromDigits([a, b], 16) == 16 * a + b
  {
    assert [a][..0] == [];
    assert FromDigits([a], 16) == a;
    assert [a, b][..1] == [a];
    assert FromDigits([a, b], 16) == FromDigits([a], 16) * 16 + b;
  }

  /** Two hex digits make a run of digits without a `0x` prefix. */
  lemma TwoDigitRun(s: string, a: nat, b: nat)
    requires |s| == 2 && a < 16 && b < 16
    requires HexDigit(s[0]) == Some(a) && HexDigit(s[1]) == Some(b)
    ensures !HasHexPrefix(s)
    ensures forall i :: 0 <= i < |s| ==> [a, b][i] < 16 && HexDigit(s[i]) == Some([a, b][i])
  {
  }

  /** Two hex digits read back as their value. */
  lemma ParseTwoDigits(s: string, a: nat, b: nat)
    requires |s| == 2 && a < 16 && b < 16
    requires HexDigit(s[0]) == Some(a) && HexDigit(s[1]) == Some(b)
    ensures ParseInt(s, 16) == Some(16 * a + b)
  {
    var ds := [a, b];
    calc {
      ParseInt(s, 16);
      { TwoDigitRun(s, a, b); ParseDigitRun(s, 16, ds); }
      Some(FromDigits(ds, 16));
      { TwoDigitValue(a, b); }
      Some(16 * a + b);
    }
  }

  /** Three channels below 256 are written as `#` and six lowercase hex digits. */
  lemma RenderFormat(c0: nat, c1: nat, c2: nat)
    requires c0 < 256 && c1 < 256 && c2 < 256
    ensures var r := Render(Some(c0), Some(c1), Some(c2));
      |r| == 7 && r[0] == '#' && forall i :: 1 <= i < 7 ==> IsLowerHexDigit(r[i])
  {
    var h0, h1, h2 := Hex2(Some(c0)), Hex2(Some(c1)), Hex2(Some(c2));
    Hex2Lower(c0);
    Hex2Lower(c1);
    Hex2Lower(c2);
    assert Render(Some(c0), Some(c1), Some(c2)) == ['#', h0[0], h0[1], h1[0], h1[1], h2[0], h2[1]];
  }

  /** The `i`-th of three values. */
  function Pick<T>(i: nat, x: T, y: T, z: T): T {
    if i == 0 then x else if i == 1 then y else z
  }

  /** Adjusting three parsed channels renders their adjusted values. */
  lemma AdjustBrightnessRenders(hex: string, percent: int, v0: int, v1: int, v2: int)
    requires Channel(hex, 0) == Some(v0) && Channel(hex, 1) == Some(v1) && Channel(hex, 2) == Some(v2)
    ensures AdjustBrightness(hex, percent)
      == Render(Some(Adjust(v0, percent)), Some(Adjust(v1, percent)), Some(Adjust(v2, percent)))
  {
  }

  /** When every channel parses, the result is `#` followed by six lowercase hex digits. */
  lemma AdjustBrightnessFormat(hex: string, percent: int, v0: int, v1: int, v2: int)
    requires Channel(hex, 0) == Some(v0) && Channel(hex, 1) == Some(v1) && Channel(hex, 2) == Some(v2)
    ensures var r := AdjustBrightness(hex, percent);
      |r| == 7 && r[0] == '#' && forall i :: 1 <= i < 7 ==> IsLowerHexDigit(r[i])
  {
    AdjustBrightnessRenders(hex, percent, v0, v1, v2);
    RenderFormat(Adjust(v0, percent), Adjust(v1, percent), Adjust(v2, percent));
  }

  /** A channel written by `toHex` reads back as itself. */
  lemma Hex2ReadBack(c: nat)
    requires c < 256
    ensures ParseInt(Hex2(Some(c)), 16) == Some(c)
  {
    var a, b := c / 16, c % 16;
    Hex2Digits(c);
    var s := Hex2(Some(c));
    assert s == [DigitChar(a), DigitChar(b)];
    DigitCharRoundTrip(a);
    DigitCharRoundTrip(b);
    assert HexDigit(s[0]) == Some(a);
    assert HexDigit(s[1]) == Some(b);
    ParseTwoDigits(s, a, b);
    assert 16 * a + b == c;
  }

  /** After a leading `#`, channel `i` is read from characters `2i` and `2i + 1` of the rest. */
  lemma ChannelAfterHash(body: string, i: nat)
    requires 2 * i + 2 <= |body|
    ensures Channel("#" + body, i) == ParseInt(body[2 * i..2 * i + 2], 16)
  {
    assert OccursAt("#" + body, "#", 0);
    assert ReplaceFirst("#" + body, "#", "") == body;
  }

  /** Part `i` of three two-character parts sits at characters `2i` and `2i + 1` of their join. */
  lemma SliceOfParts(h0: string, h1: string, h2: string, i: nat)
    requires |h0| == 2 && |h1| == 2 && |h2| == 2 && i < 3
    ensures (h0 + h1 + h2)[2 * i..2 * i + 2] == Pick(i, h0, h1, h2)
  {
    var body := h0 + h1 + h2;
    if i == 0 {
      assert body[0..2] == h0;
    } else if i == 1 {
      assert body[2..4] == h1;
    } else {
      assert body[4..6] == h2;
    }
  }

  /** Channel `i` of `#` and three two-character parts is read from part `i`. */
  lemma ChannelOfParts(h0: string, h1: string, h2: string, i: nat)
    requires |h0| == 2 && |h1| == 2 && |h2| == 2 && i < 3
    ensures Channel("#" + h0 + h1 + h2, i) == ParseInt(Pick(i, h0, h1, h2), 16)
  {
    var body := h0 + h1 + h2;
    assert "#" + h0 + h1 + h2 == "#" + body;
    ChannelAfterHash(body, i);
    SliceOfParts(h0, h1, h2, i);
  }

  /** Reading a rendered colour back gives its channels. */
  lemma RenderReadBack(c0: nat, c1: nat, c2: nat, i: nat)
    requires c0 < 256 && c1 < 256 && c2 < 256 && i < 3
    ensures Channel(Render(Some(c0), Some(c1), Some(c2)), i) == Some(Pick(i, c0, c1, c2))
  {
    Hex2Lower(c0);
    Hex2Lower(c1);
    Hex2Lower(c2);
    ChannelOfParts(Hex2(Some(c0)), Hex2(Some(c1)), Hex2(Some(c2)), i);
    if i == 0 {
      Hex2ReadBack(c0);
    } else if i == 1 {
      Hex2ReadBack(c1);
    } else {
      Hex2ReadBack(c2);
    }
  }

  /** Reading the result back gives the adjusted channels. */
  lemma AdjustBrightnessReadBack(hex: string, percent: int, v0: int, v1: int, v2: int, i: nat)
    requires Channel(hex, 0) == Some(v0) && Channel(hex, 1) == Some(v1) && Channel(hex, 2) == Some(v2)
    requires i < 3
    ensures Channel(AdjustBrightness(hex, percent), i) == Some(Adjust(Pick(i, v0, v1, v2), percent))
  {
    AdjustBrightnessRenders(hex, percent, v0, v1, v2);
    RenderReadBack(Adjust(v0, percent), Adjust(v1, percent), Adjust(v2, percent), i);
  }

  /** The lowercase form of a hex digit is the digit `toString(16)` writes for its value. */
  lemma LowerHexDigit(ch: char, a: nat)
    requires HexDigit(ch) == Some(a)
    ensures DigitChar(a) == LowerChar(ch)
  {
  }

  /** Characters `2i` and `2i + 1` of a string, when they are hex digits, read as their two-digit value. */
  lemma DigitPair(d: string, i: nat, a: nat, b: nat)
    requires 2 * i + 2 <= |d| && a < 16 && b < 16
    requires HexDigit(d[2 * i]) == Some(a) && HexDigit(d[2 * i + 1]) == Some(b)
    ensures ParseInt(d[2 * i..2 * i + 2], 16) == Some(16 * a + b)
  {
    var s := d[2 * i..2 * i + 2];
    assert s[0] == d[2 * i];
    assert s[1] == d[2 * i + 1];
    ParseTwoDigits(s, a, b);
  }

  /** Channel `i` of `#` and six hex digits is the value of its two digits. */
  lemma ChannelOfHex(d: string, i: nat, a: nat, b: nat)
    requires |d| == 6 && i < 3 && a < 16 && b < 16
    requires HexDigit(d[2 * i]) == Some(a) && HexDigit(d[2 * i + 1]) == Some(b)
    ensures Channel("#" + d, i) == Some(16 * a + b)
  {
    DigitPair(d, i, a, b);
    ChannelAfterHash(d, i);
  }

  /** Two hex digits `a` and `b` are written back as the lowercase forms of the characters they came from. */
  lemma Hex2OfPair(x: char, y: char, a: nat, b: nat)
    requires HexDigit(x) == Some(a) && HexDigit(y) == Some(b)
    ensures Hex2(Some(16 * a + b)) == [LowerChar(x), LowerChar(y)]
  {
    Hex2Digits(16 * a + b);
    assert (16 * a + b) / 16 == a && (16 * a + b) % 16 == b;
    LowerHexDigit(x, a);
    LowerHexDigit(y, b);
  }

  /** A shift by zero keeps a channel that parsed. */
  lemma ZeroShiftKeeps(hex: string, i: nat, v: nat)
    requires Channel(hex, i) == Some(v) && v <= 255
    ensures AdjustedChannel(hex, i, 0) == Some(v)
  {
    AdjustMonotone(v, 0);
  }

  /** A channel of `#` and six hex digits shifted by zero is the value of its two digits. */
  lemma ZeroShiftValue(d: string, i: nat, a: nat, b: nat)
    requires |d| == 6 && i < 3 && a < 16 && b < 16
    requires HexDigit(d[2 * i]) == Some(a) && HexDigit(d[2 * i + 1]) == Some(b)
    ensures AdjustedChannel("#" + d, i, 0) == Some(16 * a + b)
  {
    ChannelOfHex(d, i, a, b);
    ZeroShiftKeeps("#" + d, i, 16 * a + b);
  }

  /** A channel shifted by zero is written back as the lowercase forms of its two digits. */
  lemma ZeroShiftChannel(d: string, i: nat)
    requires |d| == 6 && i < 3 && forall k :: 0 <= k < 6 ==> HexDigit(d[k]).Some?
    ensures Hex2(AdjustedChannel("#" + d, i, 0)) == [LowerChar(d[2 * i]), LowerChar(d[2 * i + 1])]
  {
    var x, y := d[2 * i], d[2 * i + 1];
    var a, b := HexDigit(x).value, HexDigit(y).value;
    ZeroShiftValue(d, i, a, b);
    Hex2OfPair(x, y, a, b);
  }

  /** A shift by zero gives back `#` and six hex digits, in lowercase. */
  lemma AdjustByZeroLowercases(d: string)
    requires |d| == 6 && forall k :: 0 <= k < 6 ==> HexDigit(d[k]).Some?
    ensures AdjustBrightness("#" + d, 0) == "#" + Lower(d)
  {
    var h := "#" + d;
    var r0, r1, r2 := AdjustedChannel(h, 0, 0), AdjustedChannel(h, 1, 0), AdjustedChannel(h, 2, 0);
    ZeroShiftParts(d);
    ConcatAssoc("#", Hex2(r0), Hex2(r1), Hex2(r2));
  }

  /** The three channels shifted by zero are written back as the six digits in lowercase. */
  lemma ZeroShiftParts(d: string)
    requires |d| == 6 && forall k :: 0 <= k < 6 ==> HexDigit(d[k]).Some?
    ensures Hex2(AdjustedChannel("#" + d, 0, 0)) + Hex2(AdjustedChannel("#" + d, 1, 0)) + Hex2(AdjustedChannel("#" + d, 2, 0)) == Lower(d)
  {
    var h := "#" + d;
    ZeroShiftChannel(d, 0);
    ZeroShiftChannel(d, 1);
    ZeroShiftChannel(d, 2);
    LowerOfParts(d, AdjustedChannel(h, 0, 0), AdjustedChannel(h, 1, 0), AdjustedChannel(h, 2, 0));
  }

  /** Three channels written as the lowercase forms of consecutive digit pairs make up the
   *  lowercase form of the six digits. */
  lemma LowerOfParts(d: string, r0: Option<nat>, r1: Option<nat>, r2: Option<nat>)
    requires |d| == 6
    requires Hex2(r0) == [LowerChar(d[0]), LowerChar(d[1])] && Hex2(r1) == [LowerChar(d[2]), LowerChar(d[3])]
    requires Hex2(r2) == [LowerChar(d[4]), LowerChar(d[5])]
    ensures Hex2(r0) + Hex2(r1) + Hex2(r2) == Lower(d)
  {
    PairsMakeSix(Lower(d), Hex2(r0), Hex2(r1), Hex2(r2));
  }

  lemma ConcatAssoc(a: string, b: string, c: string, e: string)
    ensures a + b + c + e == a + (b + c + e)
  {
  }

  /** Three pairs of characters in a row make up a six-character string. */
  lemma PairsMakeSix(l: string, p0: string, p1: string, p2: string)
    requires |l| == 6 && p0 == [l[0], l[1]] && p1 == [l[2], l[3]] && p2 == [l[4], l[5]]
    ensures p0 + p1 + p2 == l
  {
  }

  /** Darkening never raises a channel of a colour: the channel read back from the result is the
   *  shifted channel, and it is at most the original. */
  lemma DarkeningNeverLightens(hex: string, percent: int, v0: int, v1: int, v2: int, i: nat)
    requires Channel(hex, 0) == Some(v0) && Channel(hex, 1) == Some(v1) && Channel(hex, 2) == Some(v2)
    requires percent <= 0 && i < 3 && 0 <= Pick(i, v0, v1, v2)
    ensures Channel(AdjustBrightness(hex, percent), i) == Some(Adjust(Pick(i, v0, v1, v2), percent))
    ensures Adjust(Pick(i, v0, v1, v2), percent) <= Pick(i, v0, v1, v2)
  {
    AdjustBrightnessReadBack(hex, percent, v0, v1, v2, i);
    if Pick(i, v0, v1, v2) <= 255 {
      AdjustMonotone(Pick(i, v0, v1, v2), percent);
    }
  }

  /** The brand colours of a configuration; the accent is optional. */
  datatype BrandColors = BrandColors(primary: string, secondary: string, accent: Option<string>)

  /** `a || b` on strings. */
  function OrString(a: string, b: string): (r: string)
    ensures r == (if a == "" then b else a)
  {
    if a != "" then a else b
  }

  /** `accent || primary` */
  function AccentOrPrimary(bc: BrandColors): (r: string)
    ensures bc.accent.None? || bc.accent == Some("") ==> r == bc.primary
    ensures bc.accent.Some? && bc.accent.value != "" ==> r == bc.accent.value
  {
    match bc.accent
    case None => bc.primary
    case Some(a) => OrString(a, bc.primary)
  }

  /** The terminal theme's extra CSS variables. */
  datatype TerminalVars = TerminalVars(
    baseBg: string, background20: string, primary: string, accent: string, border: string,
    muted: string, error: string, warning: string)

  /** The CSS variables `getBrandColorStyles` sets. */
  datatype BrandVars = BrandVars(
    primary: string, secondary: string, accent: string,
    primaryHover: string, secondaryHover: string, accentHover: string,
    terminal: Option<TerminalVars>)

  /** `getBrandColorStyles(config)`; None is the empty record for a configuration without brand colours. */
  function BrandColorStyles(brand: Option<BrandColors>, theme: string): (r: Option<BrandVars>)
    ensures r.Some? <==> brand.Some?
    ensures r.Some? ==> (r.value.terminal.Some? <==> theme == "terminal")
  {
    match brand
    case None => None
    case Some(bc) =>
      var accent := AccentOrPrimary(bc);
      var term :=
        if theme == "terminal" then
          Some(TerminalVars(
            "#000000", "rgba(0, 255, 65, 0.05)", OrString(bc.primary, "#00ff41"),
            OrString(bc.accent.GetOr(""), "#ffd700"), OrString(bc.secondary, "#00ff41"),
            AdjustBrightness(OrString(bc.primary, "#00ff41"), -30), "#ff0041", "#ffd700"))
        else None;
      Some(BrandVars(
        bc.primary, bc.secondary, accent,
        AdjustBrightness(bc.primary, -20), AdjustBrightness(bc.secondary, -20), AdjustBrightness(accent, -20),
        term))
  }

  /** One inline style: a background or border colour, and the text colour. */
  datatype InlineStyles = InlineStyles(
    primaryBg: string, primaryHoverBg: string, primaryText: string, secondaryBg: string,
    secondaryBorder: string, accentBg: string, onColor: string)

  /** `getBrandStyles(config)`; None is the empty record. */
  function BrandStyles(brand: Option<BrandColors>): (r: Option<InlineStyles>)
    ensures r.Some? <==> brand.Some?
    ensures r.Some? ==> r.value.onColor == "white"
  {
    match brand
    case None => None
    case Some(bc) =>
      Some(InlineStyles(bc.primary, AdjustBrightness(bc.primary, -20), bc.primary, bc.secondary,
                        bc.secondary, AccentOrPrimary(bc), "white"))
  }

  /** Without an accent both the CSS variables and the inline styles use the primary colour for it. */
  lemma AccentFallsBackToPrimary(bc: BrandColors, theme: string)
    requires bc.accent.None? || bc.accent == Some("")
    ensures BrandColorStyles(Some(bc), theme).value.accent == bc.primary
    ensures BrandColorStyles(Some(bc), theme).value.accentHover == AdjustBrightness(bc.primary, -20)
    ensures BrandStyles(Some(bc)).value.accentBg == bc.primary
  {
  }

  /** The inline styles use the same colours as the CSS variables, whatever the theme. */
  lemma InlineStylesMatchVariables(bc: BrandColors, theme: string)
    ensures var v := BrandColorStyles(Some(bc), theme).value;
      var s := BrandStyles(Some(bc)).value;
      s.primaryBg == v.primary && s.primaryHoverBg == v.primaryHover && s.secondaryBg == v.secondary
      && s.accentBg == v.accent
  {
  }

  /** The brand variables other than the terminal extras do not depend on the theme. */
  lemma BrandVarsIgnoreTheme(bc: BrandColors, t1: string, t2: string)
    ensures BrandColorStyles(Some(bc), t1).value.(terminal := None)
      == BrandColorStyles(Some(bc), t2).value.(terminal := None)
  {
  }

  /** A hover colour is never lighter than its base colour, channel by channel. */
  lemma HoverNeverLighter(bc: BrandColors, theme: string, v0: int, v1: int, v2: int, i: nat)
    requires Channel(bc.primary, 0) == Some(v0) && Channel(bc.primary, 1) == Some(v1) && Channel(bc.primary, 2) == Some(v2)
    requires i < 3 && 0 <= Pick(i, v0, v1, v2)
    ensures Channel(BrandColorStyles(Some(bc), theme).value.primaryHover, i) == Some(Adjust(Pick(i, v0, v1, v2), -20))
    ensures Adjust(Pick(i, v0, v1, v2), -20) <= Pick(i, v0, v1, v2)
  {
    DarkeningNeverLightens(bc.primary, -20, v0, v1, v2, i);
  }

  /** The utility classes of a theme. */
  datatype ThemeClasses = ThemeClasses(
    primary: string, primaryText: string, secondary: string, secondaryBorder: string,
    accent: string, accentText: string, header: string, headerDark: string, card: string, cardDark: string)

  /** The classes used with brand colours, which come from inline styles instead. */
  function BrandedClasses(): ThemeClasses {
    ThemeClasses(
      "text-white rounded font-bold transition", "hover:underline transition", "text-white rounded transition",
      "", "text-white rounded transition", "", "bg-white border-b", "bg-gray-900 border-b",
      "bg-white border border-gray-200", "bg-gray-800 border border-gray-700")
  }

  /** The header and card classes every theme but terminal shares. */
  function Plain(primary: string, primaryText: string, secondary: string, secondaryBorder: string,
                 accent: string, accentText: string): ThemeClasses {
    ThemeClasses(primary, primaryText, secondary, secondaryBorder, accent, accentText,
      "bg-white border-b border-gray-200", "bg-gray-900 border-b border-gray-800",
      "bg-white border border-gray-200", "bg-gray-800 border border-gray-700")
  }

  /** The theme table. */
  function ThemeTable(t: Theme): ThemeClasses {
    match t
    case Basic => Plain("bg-blue-600 hover:bg-blue-700 text-white", "text-blue-600 hover:text-blue-700",
      "bg-gray-600 hover:bg-gray-700 text-white", "border-gray-300",
      "bg-purple-600 hover:bg-purple-700 text-white", "text-purple-600")
    case Comparison => Plain("bg-green-600 hover:bg-green-700 text-white", "text-green-600 hover:text-green-700",
      "bg-teal-600 hover:bg-teal-700 text-white", "border-teal-300",
      "bg-orange-600 hover:bg-orange-700 text-white", "text-orange-600")
    case Technology => Plain("bg-indigo-600 hover:bg-indigo-700 text-white", "text-indigo-600 hover:text-indigo-700",
      "bg-slate-600 hover:bg-slate-700 text-white", "border-slate-300",
      "bg-cyan-600 hover:bg-cyan-700 text-white", "text-cyan-600")
    case Finance => Plain("bg-emerald-600 hover:bg-emerald-700 text-white", "text-emerald-600 hover:text-emerald-700",
      "bg-slate-700 hover:bg-slate-800 text-white", "border-slate-400",
      "bg-amber-600 hover:bg-amber-700 text-white", "text-amber-600")
    case Creative => Plain("bg-pink-600 hover:bg-pink-700 text-white", "text-pink-600 hover:text-pink-700",
      "bg-purple-600 hover:bg-purple-700 text-white", "border-purple-300",
      "bg-yellow-500 hover:bg-yellow-600 text-white", "text-yellow-600")
    case Professional => Plain("bg-blue-700 hover:bg-blue-800 text-white", "text-blue-700 hover:text-blue-800",
      "bg-gray-700 hover:bg-gray-800 text-white", "border-gray-400",
      "bg-red-700 hover:bg-red-800 text-white", "text-red-700")
    case Ecommerce => Plain("bg-orange-600 hover:bg-orange-700 text-white", "text-orange-600 hover:text-orange-700",
      "bg-slate-600 hover:bg-slate-700 text-white", "border-slate-300",
      "bg-green-600 hover:bg-green-700 text-white", "text-green-600")
    case Terminal => ThemeClasses(
      "bg-green-500 hover:bg-green-600 text-black font-mono", "text-green-400 hover:text-green-300 font-mono",
      "bg-gray-900 hover:bg-gray-800 text-green-400 font-mono", "border-green-500",
      "bg-yellow-500 hover:bg-yellow-600 text-black font-mono", "text-yellow-500 font-mono",
      "bg-black border-b border-green-500", "bg-black border-b border-green-500",
      "bg-black border border-green-500 shadow-green-500/20 shadow-lg",
      "bg-black border border-green-500 shadow-green-500/20 shadow-lg")
  }

  /** `getThemeClasses(config)`: fixed classes with brand colours, else the theme's row of the
   *  table, and the basic row for a theme the table lacks. */
  function ThemeClassesFor(hasBrand: bool, theme: string): (r: ThemeClasses)
    ensures hasBrand ==> r == BrandedClasses()
    ensures !hasBrand ==> exists t :: r == ThemeTable(t)
  {
    if hasBrand then BrandedClasses()
    else match ThemeNamed(theme)
      case Some(t) => ThemeTable(t)
      case None => ThemeTable(Basic)
  }

  /** With brand colours the classes are the same for every theme. */
  lemma BrandedClassesIgnoreTheme(t1: string, t2: string)
    ensures ThemeClassesFor(true, t1) == ThemeClassesFor(true, t2) == BrandedClasses()
  {
  }

  /** Without brand colours each theme gets its own row. */
  lemma ThemeRow(t: Theme)
    ensures ThemeClassesFor(false, ThemeName(t)) == ThemeTable(t)
  {
    ThemeNameRoundTrip(t);
  }

  /** Without brand colours an unknown theme gets the basic row. */
  lemma UnknownThemeIsBasic(theme: string)
    requires forall t: Theme :: ThemeName(t) != theme
    ensures ThemeClassesFor(false, theme) == ThemeTable(Basic)
  {
  }
}
