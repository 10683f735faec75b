/** App.tsx: the hex-to-RGB decoding done by SideGraphics for its translucent strokes,
    and the two single-value view updates of the App component. */
module App {
  import opened JsString
  import opened JsNumber
  import opened Themes

  /** String.prototype.indexOf for one character: the first position holding `c`, or -1. */
  function IndexOf(s: string, c: char): (k: int)
    ensures -1 <= k < |s|
    ensures k == -1 <==> c !in s
    ensures k >= 0 ==> s[k] == c && c !in s[..k]
  {
    if |s| == 0 then -1
    else if s[0] == c then 0
    else
      var k := IndexOf(s[1..], c);
      assert c in s ==> c in s[1..] by {
        if c in s {
          var j :| 0 <= j < |s| && s[j] == c;
          assert s[1..][j - 1] == c;
        }
      }
      if k == -1 then -1
      else
        assert s[..k + 1] == [s[0]] + s[1..][..k];
        k + 1
  }

  /** `s.replace(c, '')` with a one-character string pattern: the first occurrence of `c`
      is removed, any later ones are kept. */
  function RemoveFirst(s: string, c: char): (r: string)
    ensures c !in s ==> r == s
    ensures c in s ==> |r| == |s| - 1 && r == s[..IndexOf(s, c)] + s[IndexOf(s, c) + 1..]
  {
    var k := IndexOf(s, c);
    if k < 0 then s else s[..k] + s[k + 1..]
  }

  function Clamp(i: int, len: nat): (r: nat)
    ensures r <= len
    ensures 0 <= i <= len ==> r == i
  {
    if i < 0 then 0 else if i > len then len else i
  }

  /** String.prototype.substring: both indices clamped to the string, swapped when the
      start is past the end. */
  function Substring(s: string, start: int, end: int): (r: string)
    ensures 0 <= start <= end <= |s| ==> r == s[start..end]
    ensures |r| <= |s|
    ensures |r| <= if start <= end then end - start else start - end
  {
    var a := Clamp(start, |s|);
    var b := Clamp(end, |s|);
    if a <= b then s[a..b] else s[b..a]
  }

  /** The three parseInt results SideGraphics computes from a colour. */
  datatype Rgb = Rgb(r: Number, g: Number, b: Number)

  /** App.tsx 45-48: strip the `#`, read character pairs [0,2), [2,4), [4,6) in base 16. */
  function DecodeHex(color: string): Rgb
  {
    var hex := RemoveFirst(color, '#');
    Rgb(ParseIntHex(Substring(hex, 0, 2)),
        ParseIntHex(Substring(hex, 2, 4)),
        ParseIntHex(Substring(hex, 4, 6)))
  }

  /** App.tsx 49: the `${r}, ${g}, ${b}` string spliced into rgba(...) strokes. */
  function ColorRgb(color: string): string
  {
    var c := DecodeHex(color);
    NumberToString(c.r) + ", " + NumberToString(c.g) + ", " + NumberToString(c.b)
  }

  predicate InRange(x: Number, lo: int, hi: int) {
    x.Int? && lo <= x.value <= hi
  }

  /** Whatever the colour string, each component is NaN or an integer in -15..255:
      every slice read has at most two characters. */
  lemma DecodeHexBounded(color: string)
    ensures var c := DecodeHex(color);
      && (c.r.Int? ==> InRange(c.r, -15, 255))
      && (c.g.Int? ==> InRange(c.g, -15, 255))
      && (c.b.Int? ==> InRange(c.b, -15, 255))
  {
    var hex := RemoveFirst(color, '#');
    ParseIntHexShort(Substring(hex, 0, 2));
    ParseIntHexShort(Substring(hex, 2, 4));
    ParseIntHexShort(Substring(hex, 4, 6));
  }

  lemma LowerHexDigitsAreHexDigits(s: string)
    requires forall k :: 0 <= k < |s| ==> IsLowerHexDigit(s[k])
    ensures AllHexDigits(s)
  {
  }

  /** A well-formed `#rrggbb` decodes to the values of its three digit pairs, each in 0..255. */
  lemma DecodeHexColor(s: string)
    requires IsHexColor(s)
    ensures AllHexDigits(s[1..3]) && AllHexDigits(s[3..5]) && AllHexDigits(s[5..7])
    ensures DecodeHex(s) == Rgb(Int(HexValue(s[1..3])), Int(HexValue(s[3..5])), Int(HexValue(s[5..7])))
    ensures InRange(DecodeHex(s).r, 0, 255) && InRange(DecodeHex(s).g, 0, 255) && InRange(DecodeHex(s).b, 0, 255)
  {
    var hex := RemoveFirst(s, '#');
    assert IndexOf(s, '#') == 0;
    assert hex == s[1..];
    assert Substring(hex, 0, 2) == s[1..3];
    assert Substring(hex, 2, 4) == s[3..5];
    assert Substring(hex, 4, 6) == s[5..7];
    LowerHexDigitsAreHexDigits(s[1..3]);
    LowerHexDigitsAreHexDigits(s[3..5]);
    LowerHexDigitsAreHexDigits(s[5..7]);
    ParseIntHexDigits(s[1..3]);
    ParseIntHexDigits(s[3..5]);
    ParseIntHexDigits(s[5..7]);
    assert Pow16(2) == 256;
  }

  /** The partner of the decoder: a byte as two lower-case hexadecimal digits. */
  function LowerHexChar(d: nat): (c: char)
    requires d < 16
    ensures IsLowerHexDigit(c) && IsHexDigit(c) && HexDigitValue(c) == d
  {
    if d < 10 then '0' + d as char else 'a' + (d - 10) as char
  }

  function Hex2(v: nat): (s: string)
    requires v < 256
    ensures |s| == 2 && AllHexDigits(s) && HexValue(s) == v
  {
    var s := [LowerHexChar(v / 16), LowerHexChar(v % 16)];
    assert s[..1] == [s[0]];
    assert HexValue(s[..1]) == v / 16;
    s
  }

  function FormatHex(r: nat, g: nat, b: nat): (s: string)
    requires r < 256 && g < 256 && b < 256
    ensures IsHexColor(s)
    ensures s[1..3] == Hex2(r) && s[3..5] == Hex2(g) && s[5..7] == Hex2(b)
  {
    var s := "#" + Hex2(r) + Hex2(g) + Hex2(b);
    assert forall k :: 1 <= k < 7 ==> IsLowerHexDigit(s[k]) by {
      assert s[1] == Hex2(r)[0] && s[2] == Hex2(r)[1];
      assert s[3] == Hex2(g)[0] && s[4] == Hex2(g)[1];
      assert s[5] == Hex2(b)[0] && s[6] == Hex2(b)[1];
      assert Hex2(r) == [LowerHexChar(r / 16), LowerHexChar(r % 16)];
      assert Hex2(g) == [LowerHexChar(g / 16), LowerHexChar(g % 16)];
      assert Hex2(b) == [LowerHexChar(b / 16), LowerHexChar(b % 16)];
    }
    s
  }

  /** Formatting three bytes as `#rrggbb` and decoding gives the bytes back, and the
      RGB string lists them in decimal. */
  lemma DecodeFormatHex(r: nat, g: nat, b: nat)
    requires r < 256 && g < 256 && b < 256
    ensures DecodeHex(FormatHex(r, g, b)) == Rgb(Int(r), Int(g), Int(b))
    ensures ColorRgb(FormatHex(r, g, b)) == DecimalString(r) + ", " + DecimalString(g) + ", " + DecimalString(b)
  {
    DecodeHexColor(FormatHex(r, g, b));
  }

  /** Hex2 is injective on digit values: two lower-case digits are the only spelling. */
  lemma Hex2OfValue(s: string)
    requires |s| == 2 && forall k :: 0 <= k < 2 ==> IsLowerHexDigit(s[k])
    ensures AllHexDigits(s) && HexValue(s) < 256 && Hex2(HexValue(s)) == s
  {
    LowerHexDigitsAreHexDigits(s);
    assert s[..1] == [s[0]];
    var v := HexValue(s);
    assert v == 16 * HexDigitValue(s[0]) + HexDigitValue(s[1]);
    assert v / 16 == HexDigitValue(s[0]) && v % 16 == HexDigitValue(s[1]);
    LowerHexCharOfDigit(s[0]);
    LowerHexCharOfDigit(s[1]);
  }

  lemma LowerHexCharOfDigit(c: char)
    requires IsLowerHexDigit(c)
    ensures IsHexDigit(c) && LowerHexChar(HexDigitValue(c)) == c
  {
  }

  /** Decoding a well-formed colour and formatting the result gives the colour back. */
  lemma FormatDecodeHex(s: string)
    requires IsHexColor(s)
    ensures var c := DecodeHex(s);
      && InRange(c.r, 0, 255) && InRange(c.g, 0, 255) && InRange(c.b, 0, 255)
      && FormatHex(c.r.value, c.g.value, c.b.value) == s
  {
    DecodeHexColor(s);
    FormatDigitPairs(s);
  }

  /** Formatting the values of a colour's three digit pairs spells the colour. */
  lemma FormatDigitPairs(s: string)
    requires IsHexColor(s)
    ensures AllHexDigits(s[1..3]) && AllHexDigits(s[3..5]) && AllHexDigits(s[5..7])
    ensures var r, g, b := HexValue(s[1..3]), HexValue(s[3..5]), HexValue(s[5..7]);
      r < 256 && g < 256 && b < 256 && FormatHex(r, g, b) == s
  {
    Hex2OfValue(s[1..3]);
    Hex2OfValue(s[3..5]);
    Hex2OfValue(s[5..7]);
    SameColor(FormatHex(HexValue(s[1..3]), HexValue(s[3..5]), HexValue(s[5..7])), s);
  }

  /** Two colours that agree on the `#` and on each digit pair are equal. */
  lemma SameColor(f: string, s: string)
    requires |f| == 7 && |s| == 7 && f[0] == s[0]
    requires f[1..3] == s[1..3] && f[3..5] == s[3..5] && f[5..7] == s[5..7]
    ensures f == s
  {
    forall k | 1 <= k < 7 ensures f[k] == s[k] {
      if k < 3 {
        assert f[k] == f[1..3][k - 1];
        assert s[k] == s[1..3][k - 1];
      } else if k < 5 {
        assert f[k] == f[3..5][k - 3];
        assert s[k] == s[3..5][k - 3];
      } else {
        assert f[k] == f[5..7][k - 5];
        assert s[k] == s[5..7][k - 5];
      }
    }
  }

  /** The `rgba(r,g,b,` opening the theme's class strings write for this colour. */
  function RgbaOpening(c: Rgb): string {
    Rgba(NumberToString(c.r), NumberToString(c.g), NumberToString(c.b))
  }

  /** The rgb triple each THEMES entry spells out in its rgba(...) shadows. */
  function ThemeRgb(t: ThemeColor): Rgb {
    match t
    case AMBER => Rgb(Int(255), Int(176), Int(0))
    case GREEN => Rgb(Int(51), Int(255), Int(0))
    case CYAN => Rgb(Int(0), Int(255), Int(255))
    case WHITE => Rgb(Int(255), Int(255), Int(255))
  }

  /** Each THEMES hex decodes to the entry's rgb triple. */
  lemma ThemeHexDecodes(t: ThemeColor)
    ensures DecodeHex(Entry(t).hex) == ThemeRgb(t)
  {
    Hex2Small();
    match t
    case AMBER =>
      assert Entry(t).hex == "#" + Hex2(255) + Hex2(176) + Hex2(0);
      DecodeFormatHex(255, 176, 0);
    case GREEN =>
      assert Entry(t).hex == "#" + Hex2(51) + Hex2(255) + Hex2(0);
      DecodeFormatHex(51, 255, 0);
    case CYAN =>
      assert Entry(t).hex == "#" + Hex2(0) + Hex2(255) + Hex2(255);
      DecodeFormatHex(0, 255, 255);
    case WHITE =>
      assert Entry(t).hex == "#" + Hex2(255) + Hex2(255) + Hex2(255);
      DecodeFormatHex(255, 255, 255);
  }

  lemma Hex2Small()
    ensures Hex2(0) == "00" && Hex2(51) == "33" && Hex2(176) == "b0" && Hex2(255) == "ff"
  {
  }

  lemma DecimalSmall()
    ensures DecimalString(0) == "0" && DecimalString(51) == "51"
    ensures DecimalString(176) == "176" && DecimalString(255) == "255"
  {
    assert DecimalString(5) == "5" && DecimalString(17) == "17" && DecimalString(25) == "25";
  }

  /** The rgba opening each entry writes, spelled out in decimal. */
  lemma ThemeRgbaLiteral(t: ThemeColor)
    ensures RgbaOpening(ThemeRgb(t)) == match t
      case AMBER => Rgba("255", "176", "0")
      case GREEN => Rgba("51", "255", "0")
      case CYAN => Rgba("0", "255", "255")
      case WHITE => Rgba("255", "255", "255")
  {
    DecimalSmall();
  }

  /** Both text shadows use the entry's rgba colour: the 0.6 one right after the
      36-character prefix, the 0.4 one after the first colour and its 14-character alpha
      and blur. */
  lemma ThemeRgbaText(t: ThemeColor)
    ensures OccursAt(Entry(t).text, RgbaOpening(ThemeRgb(t)), 36)
    ensures OccursAt(Entry(t).text, RgbaOpening(ThemeRgb(t)), 36 + |RgbaOpening(ThemeRgb(t))| + 14)
  {
    ThemeRgbaLiteral(t);
    var e := Entry(t);
    var rgba := RgbaOpening(ThemeRgb(t));
    var head := "text-[" + e.hex + "] [text-shadow:0_0_4px_";
    var mid := "0.6),0_0_12px_";
    assert |head| == 36;
    OccursAtEnd(head, rgba);
    OccursAtExtend(head + rgba, rgba, 36, mid);
    OccursAtExtend(head + rgba + mid, rgba, 36, rgba);
    OccursAtExtend(head + rgba + mid + rgba, rgba, 36, "0.4)]");
    OccursAtEnd(head + rgba + mid, rgba);
    OccursAtExtend(head + rgba + mid + rgba, rgba, 36 + |rgba| + 14, "0.4)]");
    assert e.text == head + rgba + mid + rgba + "0.4)]";
  }

  /** Both drop shadows use the entry's rgba colour: the 0.6 one right after the
      22-character prefix, the 0.4 one after the first colour and its 28-character alpha
      and second prefix. */
  lemma ThemeRgbaGlow(t: ThemeColor)
    ensures OccursAt(Entry(t).glow, RgbaOpening(ThemeRgb(t)), 22)
    ensures OccursAt(Entry(t).glow, RgbaOpening(ThemeRgb(t)), 22 + |RgbaOpening(ThemeRgb(t))| + 28)
  {
    ThemeRgbaLiteral(t);
    var e := Entry(t);
    var rgba := RgbaOpening(ThemeRgb(t));
    var head := "drop-shadow-[0_0_15px_";
    var mid := "0.6)] drop-shadow-[0_0_35px_";
    OccursAtEnd(head, rgba);
    OccursAtExtend(head + rgba, rgba, 22, mid);
    OccursAtExtend(head + rgba + mid, rgba, 22, rgba);
    OccursAtExtend(head + rgba + mid + rgba, rgba, 22, "0.4)]");
    OccursAtEnd(head + rgba + mid, rgba);
    OccursAtExtend(head + rgba + mid + rgba, rgba, 22 + |rgba| + 28, "0.4)]");
    assert e.glow == head + rgba + mid + rgba + "0.4)]";
  }

  /** The rgba triples hard-coded in each THEMES entry, both shadows of `text` and both of
      `glow`, are the decoding of its own hex, so the canvas strokes and the Tailwind glows
      agree on the colour. */
  lemma ThemeRgbaMatchesHex(t: ThemeColor)
    ensures var o := RgbaOpening(DecodeHex(Style(t).hex));
      && OccursAt(Style(t).text, o, 36) && OccursAt(Style(t).text, o, 36 + |o| + 14)
      && OccursAt(Style(t).glow, o, 22) && OccursAt(Style(t).glow, o, 22 + |o| + 28)
  {
    ThemeHexDecodes(t);
    ThemeRgbaText(t);
    ThemeRgbaGlow(t);
  }

  /** The App component's view state. The rotations come from range sliders. */
  datatype ViewConfig = ViewConfig(rotateX: real, rotateY: real)

  datatype AppState = AppState(
    theme: ThemeColor,
    isTerminalMode: bool,
    showSettings: bool,
    viewConfig: ViewConfig)

  /** The useState initial values. */
  const Initial: AppState := AppState(AMBER, false, false, ViewConfig(0.0, 0.0))

  /** toggleMode: switch between the dashboard and the terminal. */
  function ToggleMode(s: AppState): (r: AppState)
    ensures r.isTerminalMode == !s.isTerminalMode
    ensures r.theme == s.theme && r.showSettings == s.showSettings && r.viewConfig == s.viewConfig
  {
    s.(isTerminalMode := !s.isTerminalMode)
  }

  lemma ToggleModeTwice(s: AppState)
    ensures ToggleMode(ToggleMode(s)) == s
  {
  }

  /** The [RESET] button: both rotations back to 0. */
  function ResetView(s: AppState): (r: AppState)
    ensures r.viewConfig.rotateX == 0.0 && r.viewConfig.rotateY == 0.0
    ensures r.theme == s.theme && r.isTerminalMode == s.isTerminalMode && r.showSettings == s.showSettings
  {
    s.(viewConfig := ViewConfig(0.0, 0.0))
  }

  lemma ResetViewIdempotent(s: AppState)
    ensures ResetView(ResetView(s)) == ResetView(s)
    ensures ResetView(Initial) == Initial
  {
  }

  /** The Phosphor Type buttons: one per Object.keys(ThemeColor) entry, each calling
      setTheme(t as ThemeColor). */
  function PhosphorButtons(): (r: seq<Option<ThemeColor>>)
    ensures |r| == |ObjectKeys()|
  {
    seq(|ObjectKeys()|, i requires 0 <= i < |ObjectKeys()| => FromValue(ObjectKeys()[i]))
  }

  /** Every button sets a genuine member, one button per member, in declaration order. */
  lemma PhosphorButtonsAreMembers()
    ensures forall i :: 0 <= i < |PhosphorButtons()| ==> PhosphorButtons()[i] == Some(Members[i])
    ensures |PhosphorButtons()| == |Members|
  {
    forall i | 0 <= i < |PhosphorButtons()|
      ensures PhosphorButtons()[i] == Some(Members[i])
    {
      KeyIsValue(Members[i]);
    }
  }
}
