/** The spectrum visualizer: the theme colour parser behind the bar
    gradient, and the sampling of analyser bins into twenty bars. */
module Visualizer {
  import opened Common

  // ---------------------------------------------------------------------
  // hexToRgba

  /** The red, green and blue numbers `hexToRgba` prints into its
      `rgba(r, g, b, alpha)` text. */
  datatype Rgb = Rgb(r: int, g: int, b: int)

  /** The colour used whenever a channel does not parse: amber 400. */
  const FallbackRgb := Rgb(251, 191, 36)

  predicate IsHexDigit(c: char)
  {
    '0' <= c <= '9' || 'a' <= c <= 'f' || 'A' <= c <= 'F'
  }

  function HexDigitValue(c: char): (v: nat)
    requires IsHexDigit(c)
    ensures v < 16
  {
    if '0' <= c <= '9' then c as int - '0' as int
    else if 'a' <= c <= 'f' then c as int - 'a' as int + 10
    else c as int - 'A' as int + 10
  }

  /** Lower-case hex digit for `d < 16`. */
  function HexChar(d: nat): (c: char)
    requires d < 16
    ensures IsHexDigit(c) && HexDigitValue(c) == d
  {
    if d < 10 then ('0' as int + d) as char else ('a' as int + d - 10) as char
  }

  /** The longest prefix made of hex digits. */
  function HexPrefix(s: string): (r: string)
    ensures r <= s
    ensures forall i :: 0 <= i < |r| ==> IsHexDigit(r[i])
    ensures |r| < |s| ==> !IsHexDigit(s[|r|])
  {
    if |s| > 0 && IsHexDigit(s[0]) then [s[0]] + HexPrefix(s[1..]) else []
  }

  /** The value of a string of hex digits, most significant first. */
  function HexValue(s: string): nat
    requires forall i :: 0 <= i < |s| ==> IsHexDigit(s[i])
  {
    if |s| == 0 then 0 else HexValue(s[..|s| - 1]) * 16 + HexDigitValue(s[|s| - 1])
  }

  /** The leading white space `parseInt` skips. */
  function SkipSpace(s: string): (r: string)
    ensures |r| <= |s|
  {
    if |s| > 0 && IsJsWhitespace(s[0]) then SkipSpace(s[1..]) else s
  }

  /** `parseInt(s, 16)`: leading white space is skipped, one sign is taken,
      then an optional "0x"/"0X", then the longest run of hex digits; with
      no digit the result is NaN (None). */
  function ParseIntHex(s: string): Option<int>
  {
    var t := SkipSpace(s);
    var negative := |t| > 0 && t[0] == '-';
    var u := if |t| > 0 && (t[0] == '-' || t[0] == '+') then t[1..] else t;
    var v := if |u| >= 2 && u[0] == '0' && (u[1] == 'x' || u[1] == 'X') then u[2..] else u;
    var digits := HexPrefix(v);
    if |digits| == 0 then None
    else
      var value: int := HexValue(digits);
      if negative then Some(-value) else Some(value)
  }

  /** `String.prototype.substring(from, to)` for `from <= to`: both ends are
      clamped to the length. */
  function Substring(s: string, from: nat, to: nat): (r: string)
    requires from <= to
    ensures |r| == Min(to, |s|) - Min(from, |s|)
  {
    s[Min(from, |s|)..Min(to, |s|)]
  }

  /** `s.replace("#", "")`: a string pattern replaces its first occurrence
      only. */
  function StripFirstHash(s: string): (r: string)
    ensures '#' !in s ==> r == s
    ensures '#' in s ==> |r| == |s| - 1
    ensures |s| > 0 && s[0] == '#' ==> r == s[1..]
  {
    if |s| == 0 then s
    else if s[0] == '#' then s[1..]
    else [s[0]] + StripFirstHash(s[1..])
  }

  /** Every character written twice: "abc" becomes "aabbcc". */
  function Doubled(s: string): (r: string)
    ensures |r| == 2 * |s|
    ensures forall i :: 0 <= i < |s| ==> r[2 * i] == s[i] && r[2 * i + 1] == s[i]
  {
    if |s| == 0 then [] else [s[0], s[0]] + Doubled(s[1..])
  }

  /** `hexToRgba`: strip one "#", expand a three-character shorthand, read
      the three channel pairs; the fallback colour when any is NaN. */
  function HexToRgb(hex: string): (c: Rgb)
  {
    FromDigits(Expand(StripFirstHash(hex)))
  }

  /** The shorthand expansion applied to exactly three characters. */
  function Expand(h: string): (r: string)
    ensures |h| != 3 ==> r == h
    ensures |h| == 3 ==> r == Doubled(h)
  {
    if |h| == 3 then Doubled(h) else h
  }

  /** `parseInt(h.substring(k, k + 2), 16)`. */
  function Channel(h: string, k: nat): Option<int>
  {
    ParseIntHex(Substring(h, k, k + 2))
  }

  function FromDigits(h: string): (c: Rgb)
    ensures Channel(h, 0).None? || Channel(h, 2).None? || Channel(h, 4).None? ==> c == FallbackRgb
    ensures Channel(h, 0).Some? && Channel(h, 2).Some? && Channel(h, 4).Some? ==>
      c == Rgb(Channel(h, 0).value, Channel(h, 2).value, Channel(h, 4).value)
  {
    var r := Channel(h, 0);
    var g := Channel(h, 2);
    var b := Channel(h, 4);
    if r.None? || g.None? || b.None? then FallbackRgb else Rgb(r.value, g.value, b.value)
  }

  /** The colour text the gradient receives, with the alpha as the runtime
      prints it. */
  function Css(c: Rgb, alphaText: string): string
  {
    "rgba(" + IntToString(c.r) + ", " + IntToString(c.g) + ", " + IntToString(c.b) + ", " + alphaText + ")"
  }

  /** Two hex digits for a byte. */
  function ByteHex(v: byte): (r: string)
    ensures |r| == 2 && IsHexDigit(r[0]) && IsHexDigit(r[1])
  {
    [HexChar(v as nat / 16), HexChar(v as nat % 16)]
  }

  /** A hex pair reads back as its byte value. */
  lemma PairValue(s: string)
    requires |s| == 2 && IsHexDigit(s[0]) && IsHexDigit(s[1])
    ensures ParseIntHex(s) == Some(16 * HexDigitValue(s[0]) + HexDigitValue(s[1]))
  {
    assert !IsJsWhitespace(s[0]);
    assert SkipSpace(s) == s;
    assert HexPrefix(s[1..]) == [s[1]];
    assert HexPrefix(s) == s;
    assert s[..1][..0] == [];
    assert HexValue(s[..1]) == HexDigitValue(s[0]);
    assert HexValue(s) == 16 * HexDigitValue(s[0]) + HexDigitValue(s[1]);
    assert s[1] != 'x' && s[1] != 'X';
  }

  /** A string starting with a character that is neither white space, a
      sign nor a hex digit is NaN. */
  lemma NoDigitIsNaN(s: string)
    requires |s| > 0 && !IsJsWhitespace(s[0]) && !IsHexDigit(s[0]) && s[0] != '-' && s[0] != '+'
    ensures ParseIntHex(s).None?
  {
    assert SkipSpace(s) == s;
    assert HexPrefix(s) == [];
  }

  /** The value of the hex pair `h[k..k + 2]`. */
  function PairAt(h: string, k: nat): int
    requires k + 2 <= |h| && IsHexDigit(h[k]) && IsHexDigit(h[k + 1])
  {
    16 * HexDigitValue(h[k]) + HexDigitValue(h[k + 1])
  }

  /** A channel reads exactly the two characters at `k`. */
  lemma ChannelPair(h: string, k: nat)
    requires k + 2 <= |h|
    ensures Channel(h, k) == ParseIntHex([h[k], h[k + 1]])
  {
    assert Substring(h, k, k + 2) == [h[k], h[k + 1]];
  }

  /** A channel over two hex digits is their pair value. */
  lemma ChannelValue(h: string, k: nat)
    requires k + 2 <= |h| && IsHexDigit(h[k]) && IsHexDigit(h[k + 1])
    ensures Channel(h, k) == Some(PairAt(h, k))
  {
    var a, b := h[k], h[k + 1];
    ChannelPair(h, k);
    PairValue([a, b]);
  }

  /** Six hex digits after one "#" read as their three pairs. */
  lemma {:induction false} ReadPairs(h: string)
    requires |h| == 6 && forall i :: 0 <= i < 6 ==> IsHexDigit(h[i])
    ensures HexToRgb(['#'] + h) == Rgb(PairAt(h, 0), PairAt(h, 2), PairAt(h, 4))
  {
    assert (['#'] + h)[1..] == h;
    assert Expand(StripFirstHash(['#'] + h)) == h;
    ReadSix(h);
  }

  /** A six-digit colour "#rrggbb" reads back as exactly its three bytes. */
  lemma {:induction false} SixDigitRoundTrip(r: byte, g: byte, b: byte)
    ensures HexToRgb("#" + ByteHex(r) + ByteHex(g) + ByteHex(b)) == Rgb(r as int, g as int, b as int)
  {
    var h := ByteHex(r) + ByteHex(g) + ByteHex(b);
    assert "#" + ByteHex(r) + ByteHex(g) + ByteHex(b) == ['#'] + h;
    ReadPairs(h);
    assert PairAt(h, 0) == r as int;
    assert PairAt(h, 2) == g as int;
    assert PairAt(h, 4) == b as int;
  }

  /** A three-digit shorthand "#rgb" means every digit doubled: channel
      value 17 times the digit. */
  lemma {:induction false} ShorthandDoubles(x: char, y: char, z: char)
    requires IsHexDigit(x) && IsHexDigit(y) && IsHexDigit(z)
    ensures HexToRgb(['#', x, y, z]) ==
      Rgb(17 * HexDigitValue(x), 17 * HexDigitValue(y), 17 * HexDigitValue(z))
  {
    var h := ShorthandExpands(x, y, z);
    ReadSix(h);
  }

  /** Six hex digits read as their three pairs. */
  lemma ReadSix(h: string)
    requires |h| == 6 && forall i :: 0 <= i < 6 ==> IsHexDigit(h[i])
    ensures FromDigits(h) == Rgb(PairAt(h, 0), PairAt(h, 2), PairAt(h, 4))
  {
    ChannelValue(h, 0);
    ChannelValue(h, 2);
    ChannelValue(h, 4);
  }

  /** "#xyz" is read as the six digits "xxyyzz". */
  lemma ShorthandExpands(x: char, y: char, z: char) returns (h: string)
    ensures h == Expand(StripFirstHash(['#', x, y, z]))
    ensures |h| == 6 && h[0] == x && h[1] == x && h[2] == y && h[3] == y && h[4] == z && h[5] == z
    ensures IsHexDigit(x) && IsHexDigit(y) && IsHexDigit(z) ==> forall i :: 0 <= i < 6 ==> IsHexDigit(h[i])
  {
    assert StripFirstHash(['#', x, y, z]) == [x, y, z];
    h := Doubled([x, y, z]);
    assert h[2 * 0] == x && h[2 * 1] == y && h[2 * 2] == z;
  }

  /** Only the first "#" goes: in `hexToRgba`, "##ffffff" keeps a "#" in
      front of the first pair, which then has no hex digit, so the
      function answers with the fallback colour. The component never gets
      that far with such a colour: it is no CSS colour, so the canvas
      rejects it in the first `addColorStop`, before `hexToRgba` runs. */
  lemma SecondHashFallsBack()
    ensures HexToRgb("##ffffff") == FallbackRgb
  {
    var h := StripFirstHash("##ffffff");
    assert h == "#ffffff";
    assert Expand(h) == h;
    assert Substring(h, 0, 2) == "#f";
    NoDigitIsNaN("#f");
  }

  /** The colour handed to `hexToRgba`: the track's own, unless there is no
      track or its colour is empty, and then amber 400 as text. */
  const DefaultTheme: string := "#fbbf24"

  function ThemeColor(trackColor: Option<string>): (t: string)
    ensures trackColor.Some? && trackColor.value != "" ==> t == trackColor.value
    ensures trackColor.None? || trackColor == Some("") ==> t == DefaultTheme
  {
    if trackColor.Some? && trackColor.value != "" then trackColor.value else DefaultTheme
  }

  /** The default theme text and the parser's NaN fallback are the same
      colour: with no track colour the gradient is amber 400 either way. */
  lemma {:induction false} DefaultThemeIsFallback(trackColor: Option<string>)
    requires trackColor.None? || trackColor == Some("")
    ensures HexToRgb(ThemeColor(trackColor)) == FallbackRgb
  {
    assert "#" + ByteHex(251) + ByteHex(191) + ByteHex(36) == DefaultTheme;
    SixDigitRoundTrip(251, 191, 36);
  }

  /** A colour name is a CSS colour the canvas accepts as the first stop,
      and `hexToRgba` reads "red" as the shorthand "rreedd", whose first
      pair has no hex digit: the second stop is drawn in amber. */
  lemma ColourNameFallsBack()
    ensures HexToRgb("red") == FallbackRgb
  {
    var h := Expand(StripFirstHash("red"));
    assert StripFirstHash("red") == "red";
    assert h == "rreedd";
    assert Substring(h, 0, 2) == "rr";
    NoDigitIsNaN("rr");
  }

  /** Too short a colour has an empty third pair and falls back. */
  lemma ShortColourFallsBack(hex: string)
    requires |hex| <= 4 && |hex| != 3 && '#' !in hex
    ensures HexToRgb(hex) == FallbackRgb
  {
    assert Expand(StripFirstHash(hex)) == hex;
    assert Substring(hex, 4, 6) == [];
  }

  // ---------------------------------------------------------------------
  // Bars

  const Bars: nat := 20

  /** `Math.floor(data.length / bars) || 1`. */
  function Step(len: nat): (s: nat)
    ensures s >= 1
    ensures len >= Bars ==> s == len / Bars
  {
    if len / Bars == 0 then 1 else len / Bars
  }

  /** `data[i * step] || 0`: an index past the end reads as 0. */
  function BarValue(data: seq<byte>, i: nat): (v: nat)
    ensures v < 256
    ensures i * Step(|data|) < |data| ==> v == data[i * Step(|data|)] as nat
  {
    var k := i * Step(|data|);
    if k < |data| then data[k] as nat else 0
  }

  /** `Math.max(4, value / 255 * height)`. */
  function BarHeight(value: nat, canvasHeight: real): (h: real)
    ensures h >= 4.0
    ensures value <= 255 && canvasHeight >= 4.0 ==> h <= canvasHeight
  {
    var percent := value as real / 255.0;
    assert 0 <= value <= 255 ==> percent <= 1.0;
    if value <= 255 && canvasHeight >= 4.0 then
      assert percent * canvasHeight <= canvasHeight by { LeOne(percent, canvasHeight); }
      Max4(percent * canvasHeight)
    else Max4(percent * canvasHeight)
  }

  function Max4(x: real): (r: real)
    ensures r >= 4.0 && r >= x && (r == 4.0 || r == x)
  {
    if x < 4.0 then 4.0 else x
  }

  lemma LeOne(p: real, h: real)
    requires p <= 1.0 && h >= 0.0
    ensures p * h <= h
  {
  }

  /** The twenty bar heights one frame draws. */
  function Frame(data: seq<byte>, canvasHeight: real): (hs: seq<real>)
    ensures |hs| == Bars
    ensures forall i :: 0 <= i < Bars ==> hs[i] == BarHeight(BarValue(data, i), canvasHeight)
  {
    seq(Bars, i requires 0 <= i < Bars => BarHeight(BarValue(data, i), canvasHeight))
  }

  /** With at least twenty bins every bar reads a real bin, at strictly
      increasing indices; below twenty bins the bars past the end are flat
      (read as 0). */
  lemma BarsSampleInRange(data: seq<byte>, i: nat, j: nat)
    requires i < j < Bars
    ensures |data| >= Bars ==> j * Step(|data|) < |data|
    ensures i * Step(|data|) < j * Step(|data|)
    ensures |data| < Bars ==> (j < |data| <==> j * Step(|data|) < |data|)
  {
    var s := Step(|data|);
    if |data| >= Bars {
      assert j * s <= 19 * s;
      assert 20 * s <= |data|;
    }
    assert i * s < j * s;
  }

  /** Every bar is at least 4 tall and, for a canvas at least that tall,
      no taller than the canvas. */
  lemma BarsWithinCanvas(data: seq<byte>, canvasHeight: real, i: nat)
    requires canvasHeight >= 4.0 && i < Bars
    ensures 4.0 <= Frame(data, canvasHeight)[i] <= canvasHeight
  {
  }
}
