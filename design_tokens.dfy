/**
 * The colour tables of lib/design-tokens.ts: `hexToRgb` and the palettes
 * built from it, the dashboard and treemap tables whose `rgb` text is
 * written out by hand, and the quick-access lists.
 */
module DesignTokens {
  import opened Common

  // ----- hexToRgb (lines 13-20) -----

  /** The character class `[a-f\d]` with the `i` flag: a decimal digit or a letter a-f in either case. */
  predicate IsHexDigit(c: char) {
    '0' <= c <= '9' || 'a' <= c <= 'f' || 'A' <= c <= 'F'
  }

  /** The value of one hexadecimal digit; any other character is refused. */
  function HexDigitValue(c: char): (v: Option<nat>)
    ensures v.Some? <==> IsHexDigit(c)
    ensures v.Some? ==> v.value < 16
  {
    if '0' <= c <= '9' then Some(c as int - '0' as int)
    else if 'a' <= c <= 'f' then Some(c as int - 'a' as int + 10)
    else if 'A' <= c <= 'F' then Some(c as int - 'A' as int + 10)
    else None
  }

  /** Two hexadecimal digits as one byte. */
  function HexByte(hi: char, lo: char): (v: Option<nat>)
    ensures v.Some? ==> v.value < 256
  {
    match (HexDigitValue(hi), HexDigitValue(lo))
    case (Some(h), Some(l)) => Some(16 * h + l)
    case _ => None
  }

  /** The digits after an optional leading '#'. */
  function HexDigits(hex: string): string {
    if |hex| > 0 && hex[0] == '#' then hex[1..] else hex
  }

  /**
   * The match of `^#?([a-f\d]{2})([a-f\d]{2})([a-f\d]{2})$`, case-insensitive:
   * an optional '#', then exactly six hexadecimal digits, read as three bytes.
   */
  function ParseHexColor(hex: string): (rgb: Option<(nat, nat, nat)>)
    ensures rgb.Some? <==> |HexDigits(hex)| == 6 && forall i :: 0 <= i < 6 ==> IsHexDigit(HexDigits(hex)[i])
    ensures rgb.Some? ==> rgb.value.0 < 256 && rgb.value.1 < 256 && rgb.value.2 < 256
  {
    var d := HexDigits(hex);
    if |d| != 6 then None
    else
      match (HexByte(d[0], d[1]), HexByte(d[2], d[3]), HexByte(d[4], d[5]))
      case (Some(r), Some(g), Some(b)) => Some((r, g, b))
      case _ => None
  }

  /** The CSS text `rgb(r, g, b)`. */
  function RgbText(r: nat, g: nat, b: nat): (t: string)
    ensures |t| > 4 && t[..4] == "rgb(" && t[|t| - 1] == ')'
  {
    "rgb(" + NatToString(r) + ", " + NatToString(g) + ", " + NatToString(b) + ")"
  }

  /** `hexToRgb`: the `rgb(...)` text of a hex colour, or the input unchanged when it is not one. */
  function HexToRgb(hex: string): (s: string)
    ensures ParseHexColor(hex).None? ==> s == hex
    ensures ParseHexColor(hex).Some? ==> |s| > 4 && s[..4] == "rgb(" && s[|s| - 1] == ')'
  {
    match ParseHexColor(hex)
    case None => hex
    case Some((r, g, b)) => RgbText(r, g, b)
  }

  // ----- the inverse: writing a colour in hex -----

  function HexDigitChar(d: nat): (c: char)
    requires d < 16
    ensures HexDigitValue(c) == Some(d)
  {
    "0123456789ABCDEF"[d]
  }

  /** Reading a digit and writing its value back gives the digit in upper case. */
  lemma HexDigitValueInverse(c: char)
    requires IsHexDigit(c)
    ensures HexDigitValue(c).Some? && HexDigitChar(HexDigitValue(c).value) == UpperChar(c)
  {
    var digits := "0123456789ABCDEF";
    if '0' <= c <= '9' {
      assert digits[c as int - '0' as int] == c;
    } else if 'a' <= c <= 'f' {
      assert digits[c as int - 'a' as int + 10] == UpperChar(c);
    } else {
      assert digits[c as int - 'A' as int + 10] == c;
    }
  }

  /** `#RRGGBB` in upper-case digits, the way the tables write colours. */
  function HexColor(r: nat, g: nat, b: nat): (hex: string)
    requires r < 256 && g < 256 && b < 256
    ensures |hex| == 7 && hex[0] == '#'
  {
    ['#', HexDigitChar(r / 16), HexDigitChar(r % 16), HexDigitChar(g / 16), HexDigitChar(g % 16),
     HexDigitChar(b / 16), HexDigitChar(b % 16)]
  }

  /** Reading a colour written in hex gives back its three bytes, with or without the '#'. */
  lemma ParseHexColorRoundTrip(r: nat, g: nat, b: nat)
    requires r < 256 && g < 256 && b < 256
    ensures ParseHexColor(HexColor(r, g, b)) == Some((r, g, b))
    ensures ParseHexColor(HexColor(r, g, b)[1..]) == Some((r, g, b))
    ensures HexToRgb(HexColor(r, g, b)) == RgbText(r, g, b)
  {
    var hex := HexColor(r, g, b);
    assert HexDigits(hex) == hex[1..];
    assert HexDigits(hex[1..]) == hex[1..];
    assert HexByte(hex[1], hex[2]) == Some(r);
    assert HexByte(hex[3], hex[4]) == Some(g);
    assert HexByte(hex[5], hex[6]) == Some(b);
  }

  /** The digits are read case-insensitively: lower-casing the input changes nothing. */
  lemma ParseIgnoresCase(hex: string)
    ensures ParseHexColor(Lower(hex)) == ParseHexColor(hex)
  {
    var d, ld := HexDigits(hex), HexDigits(Lower(hex));
    forall c: char ensures HexDigitValue(LowerChar(c)) == HexDigitValue(c) {
    }
    if |hex| > 0 && hex[0] == '#' {
      assert Lower(hex)[0] == '#';
      assert ld == Lower(hex)[1..];
    } else if |hex| > 0 {
      assert Lower(hex)[0] != '#';
    }
    assert |ld| == |d|;
    assert forall i :: 0 <= i < |d| ==> ld[i] == LowerChar(d[i]);
  }

  // ----- the colour tables -----

  /** One table entry (`ColorEntry`, lines 25-30); the usage note is left out. */
  datatype ColorEntry = ColorEntry(hex: string, rgb: string, name: string)

  /** An entry whose `rgb` is computed with `hexToRgb`, as the palettes do. */
  function Computed(hex: string, name: string): (e: ColorEntry)
    ensures e.rgb == HexToRgb(e.hex)
  {
    ColorEntry(hex, HexToRgb(hex), name)
  }

  // MainPalette (lines 35-170), by group, in the source's key order.
  const MainPrimary: seq<ColorEntry> := [
    Computed("#0D076A", "Primary Title"), Computed("#342BC2", "Primary Color 1"),
    Computed("#6F67F1", "Primary Color 2"), Computed("#9993FF", "Primary Color 3"),
    Computed("#417ED9", "Primary Color 4")]
  const MainSecondary: seq<ColorEntry> := [
    Computed("#2565C3", "Secondary Color 5"), Computed("#1897BF", "Secondary Color 6"),
    Computed("#2DB7E2", "Secondary Color 7"), Computed("#7CDBF9", "Secondary Color 8"),
    Computed("#D0ACED", "Secondary Color 9")]
  const MainTertiary: seq<ColorEntry> := [
    Computed("#AB81CD", "Tertiary Color 10"), Computed("#654597", "Tertiary Color 11"),
    Computed("#7BEEE9", "Tertiary Color 12"), Computed("#57DAD4", "Tertiary Color 13"),
    Computed("#22BDB6", "Tertiary Color 14")]
  const MainDefault: seq<ColorEntry> := [
    Computed("#000000", "Black"), Computed("#5E5E5E", "Gray 1"), Computed("#9CA0A9", "Gray 2"),
    Computed("#93BF35", "Green"), Computed("#FABD63", "Yellow"), Computed("#DD7070", "Red")]

  // ContrastPalette (lines 175-272).
  const ContrastPrimary: seq<ColorEntry> := [
    Computed("#227B77", "Contrast Primary 1"), Computed("#44B0AB", "Contrast Primary 2"),
    Computed("#87DFDB", "Contrast Primary 3"), Computed("#FFD79C", "Contrast Primary 4"),
    Computed("#FABD63", "Contrast Primary 5")]
  const ContrastSecondary: seq<ColorEntry> := [
    Computed("#EDA436", "Contrast Secondary 6"), Computed("#6FA9F2", "Contrast Secondary 7"),
    Computed("#3F86E0", "Contrast Secondary 8"), Computed("#0E5CC0", "Contrast Secondary 9"),
    Computed("#2C7DA0", "Contrast Secondary 10")]
  const ContrastTertiary: seq<ColorEntry> := [
    Computed("#61A5C2", "Contrast Tertiary 11"), Computed("#A9D6E5", "Contrast Tertiary 12"),
    Computed("#F4A2A2", "Contrast Tertiary 13"), Computed("#DA6356", "Contrast Tertiary 14"),
    Computed("#B51706", "Contrast Tertiary 15")]

  // DashboardColors (lines 277-344): all but the chart title have hand-written `rgb` text.
  const HeaderBackground := ColorEntry("#0D076A", "rgb(13, 7, 106)", "Header Background")
  const HeaderText := ColorEntry("#FFFFFF", "rgb(255, 255, 255)", "Header Text")
  const TextPrimary := ColorEntry("#0D076A", "rgb(13, 7, 106)", "Primary Text")
  const BorderLight := ColorEntry("#EEEEEE", "rgb(238, 238, 238)", "Light Border")
  const BorderLighter := ColorEntry("#E8E8E8", "rgb(232, 232, 232)", "Lighter Border")
  const KpiAccentGreen := ColorEntry("#93BF35", "rgb(147, 191, 53)", "KPI Accent Green")
  const KpiAccentRed := ColorEntry("#DD7070", "rgb(221, 112, 112)", "KPI Accent Red")
  const ChartsTitle := Computed("#007db7", "Chart Title")
  const BackgroundWhite := ColorEntry("#FFFFFF", "rgb(255, 255, 255)", "White Background")

  /** The dashboard table by group: header, text, borders, kpi, charts, background. */
  const DashboardColors: seq<seq<ColorEntry>> := [
    [HeaderBackground, HeaderText], [TextPrimary], [BorderLight, BorderLighter],
    [KpiAccentGreen, KpiAccentRed], [ChartsTitle], [BackgroundWhite]]

  /** TreemapColors (lines 349-386), `rgb` written by hand. */
  const Treemap1 := ColorEntry("#342BC2", "rgb(52, 43, 194)", "Treemap Color 1")
  const Treemap2 := ColorEntry("#6F67F1", "rgb(111, 103, 241)", "Treemap Color 2")
  const Treemap3 := ColorEntry("#9993FF", "rgb(153, 147, 255)", "Treemap Color 3")
  const Treemap4 := ColorEntry("#417ED9", "rgb(65, 126, 217)", "Treemap Color 4")
  const Treemap5 := ColorEntry("#2565C3", "rgb(37, 101, 195)", "Treemap Color 5")
  const Treemap6 := ColorEntry("#1897BF", "rgb(24, 151, 191)", "Treemap Color 6")
  const TreemapColors: seq<ColorEntry> := [Treemap1, Treemap2, Treemap3, Treemap4, Treemap5, Treemap6]

  /** The quick-access lists (lines 401-423). */
  const PrimaryColors: seq<ColorEntry> := MainPrimary
  const SecondaryColors: seq<ColorEntry> := MainSecondary
  const TertiaryColors: seq<ColorEntry> := MainTertiary

  /** `Colors` (lines 391-396): the main and contrast palettes by group, the dashboard table and the treemap. */
  datatype Palettes = Palettes(
    main: seq<seq<ColorEntry>>,
    contrast: seq<seq<ColorEntry>>,
    dashboard: seq<seq<ColorEntry>>,
    treemap: seq<ColorEntry>)

  const Colors := Palettes([MainPrimary, MainSecondary, MainTertiary, MainDefault],
                           [ContrastPrimary, ContrastSecondary, ContrastTertiary],
                           DashboardColors, TreemapColors)

  /**
   * Entry `i` of the treemap's colours as `rgb` text
   * (`TreemapColors.map(color => color.rgb)`): the hand-written text is what
   * `hexToRgb` makes of the entry's hex colour.
   */
  function TreemapRgb(i: nat): (rgb: string)
    requires i < |TreemapColors|
    ensures rgb == TreemapColors[i].rgb
    ensures rgb == HexToRgb(TreemapColors[i].hex) && ParseHexColor(TreemapColors[i].hex).Some?
  {
    TreemapEntryConsistent(i);
    TreemapColors[i].rgb
  }

  // ----- consistency of the hand-written tables -----

  /** A table entry whose `rgb` text is what `hexToRgb` makes of its hex. */
  predicate Consistent(e: ColorEntry) {
    ParseHexColor(e.hex).Some? && e.rgb == HexToRgb(e.hex)
  }

  // Each hand-written entry is checked in three small steps (its hex read
  // as bytes, its text printed from them, the two put together), which keeps
  // every evaluation of the literal strings in a proof of its own.

  lemma HeaderBackgroundBytes() ensures ParseHexColor(HeaderBackground.hex) == Some((13, 7, 106)) { }
  lemma HeaderBackgroundText() ensures RgbText(13, 7, 106) == HeaderBackground.rgb { }
  lemma HeaderBackgroundConsistent() ensures Consistent(HeaderBackground) { HeaderBackgroundBytes(); HeaderBackgroundText(); }

  lemma HeaderTextBytes() ensures ParseHexColor(HeaderText.hex) == Some((255, 255, 255)) { }
  lemma HeaderTextText() ensures RgbText(255, 255, 255) == HeaderText.rgb { }
  lemma HeaderTextConsistent() ensures Consistent(HeaderText) { HeaderTextBytes(); HeaderTextText(); }

  lemma TextPrimaryBytes() ensures ParseHexColor(TextPrimary.hex) == Some((13, 7, 106)) { }
  lemma TextPrimaryText() ensures RgbText(13, 7, 106) == TextPrimary.rgb { }
  lemma TextPrimaryConsistent() ensures Consistent(TextPrimary) { TextPrimaryBytes(); TextPrimaryText(); }

  lemma BorderLightBytes() ensures ParseHexColor(BorderLight.hex) == Some((238, 238, 238)) { }
  lemma BorderLightText() ensures RgbText(238, 238, 238) == BorderLight.rgb { }
  lemma BorderLightConsistent() ensures Consistent(BorderLight) { BorderLightBytes(); BorderLightText(); }

  lemma BorderLighterBytes() ensures ParseHexColor(BorderLighter.hex) == Some((232, 232, 232)) { }
  lemma BorderLighterText() ensures RgbText(232, 232, 232) == BorderLighter.rgb { }
  lemma BorderLighterConsistent() ensures Consistent(BorderLighter) { BorderLighterBytes(); BorderLighterText(); }

  lemma KpiAccentGreenBytes() ensures ParseHexColor(KpiAccentGreen.hex) == Some((147, 191, 53)) { }
  lemma KpiAccentGreenText() ensures RgbText(147, 191, 53) == KpiAccentGreen.rgb { }
  lemma KpiAccentGreenConsistent() ensures Consistent(KpiAccentGreen) { KpiAccentGreenBytes(); KpiAccentGreenText(); }

  lemma KpiAccentRedBytes() ensures ParseHexColor(KpiAccentRed.hex) == Some((221, 112, 112)) { }
  lemma KpiAccentRedText() ensures RgbText(221, 112, 112) == KpiAccentRed.rgb { }
  lemma KpiAccentRedConsistent() ensures Consistent(KpiAccentRed) { KpiAccentRedBytes(); KpiAccentRedText(); }

  lemma BackgroundWhiteBytes() ensures ParseHexColor(BackgroundWhite.hex) == Some((255, 255, 255)) { }
  lemma BackgroundWhiteText() ensures RgbText(255, 255, 255) == BackgroundWhite.rgb { }
  lemma BackgroundWhiteConsistent() ensures Consistent(BackgroundWhite) { BackgroundWhiteBytes(); BackgroundWhiteText(); }

  lemma Treemap1Bytes() ensures ParseHexColor(Treemap1.hex) == Some((52, 43, 194)) { }
  lemma Treemap1Text() ensures RgbText(52, 43, 194) == Treemap1.rgb { }
  lemma Treemap1Consistent() ensures Consistent(Treemap1) { Treemap1Bytes(); Treemap1Text(); }

  lemma Treemap2Bytes() ensures ParseHexColor(Treemap2.hex) == Some((111, 103, 241)) { }
  lemma Treemap2Text() ensures RgbText(111, 103, 241) == Treemap2.rgb { }
  lemma Treemap2Consistent() ensures Consistent(Treemap2) { Treemap2Bytes(); Treemap2Text(); }

  lemma Treemap3Bytes() ensures ParseHexColor(Treemap3.hex) == Some((153, 147, 255)) { }
  lemma Treemap3Text() ensures RgbText(153, 147, 255) == Treemap3.rgb { }
  lemma Treemap3Consistent() ensures Consistent(Treemap3) { Treemap3Bytes(); Treemap3Text(); }

  lemma Treemap4Bytes() ensures ParseHexColor(Treemap4.hex) == Some((65, 126, 217)) { }
  lemma Treemap4Text() ensures RgbText(65, 126, 217) == Treemap4.rgb { }
  lemma Treemap4Consistent() ensures Consistent(Treemap4) { Treemap4Bytes(); Treemap4Text(); }

  lemma Treemap5Bytes() ensures ParseHexColor(Treemap5.hex) == Some((37, 101, 195)) { }
  lemma Treemap5Text() ensures RgbText(37, 101, 195) == Treemap5.rgb { }
  lemma Treemap5Consistent() ensures Consistent(Treemap5) { Treemap5Bytes(); Treemap5Text(); }

  lemma Treemap6Bytes() ensures ParseHexColor(Treemap6.hex) == Some((24, 151, 191)) { }
  lemma Treemap6Text() ensures RgbText(24, 151, 191) == Treemap6.rgb { }
  lemma Treemap6Consistent() ensures Consistent(Treemap6) { Treemap6Bytes(); Treemap6Text(); }

  lemma ChartsTitleConsistent()
    ensures Consistent(ChartsTitle)
  {
    assert ParseHexColor("#007db7") == Some((0, 125, 183));
  }

  lemma HeaderGroupConsistent(i: nat)
    requires i < |DashboardColors[0]|
    ensures Consistent(DashboardColors[0][i])
  {
    if i == 0 {
      HeaderBackgroundConsistent();
    } else {
      HeaderTextConsistent();
    }
  }

  lemma BordersGroupConsistent(i: nat)
    requires i < |DashboardColors[2]|
    ensures Consistent(DashboardColors[2][i])
  {
    if i == 0 {
      BorderLightConsistent();
    } else {
      BorderLighterConsistent();
    }
  }

  lemma KpiGroupConsistent(i: nat)
    requires i < |DashboardColors[3]|
    ensures Consistent(DashboardColors[3][i])
  {
    if i == 0 {
      KpiAccentGreenConsistent();
    } else {
      KpiAccentRedConsistent();
    }
  }

  lemma DashboardEntryConsistent(g: nat, i: nat)
    requires g < |DashboardColors| && i < |DashboardColors[g]|
    ensures Consistent(DashboardColors[g][i])
  {
    if g == 0 {
      HeaderGroupConsistent(i);
    } else if g == 1 {
      TextPrimaryConsistent();
    } else if g == 2 {
      BordersGroupConsistent(i);
    } else if g == 3 {
      KpiGroupConsistent(i);
    } else if g == 4 {
      ChartsTitleConsistent();
    } else {
      BackgroundWhiteConsistent();
    }
  }

  /** Every dashboard `rgb` is what `hexToRgb` computes from its hex. */
  lemma DashboardColorsConsistent()
    ensures forall g, i :: 0 <= g < |DashboardColors| && 0 <= i < |DashboardColors[g]| ==> Consistent(DashboardColors[g][i])
  {
    forall g, i | 0 <= g < |DashboardColors| && 0 <= i < |DashboardColors[g]|
      ensures Consistent(DashboardColors[g][i])
    {
      DashboardEntryConsistent(g, i);
    }
  }

  lemma TreemapEntryConsistent(i: nat)
    requires i < |TreemapColors|
    ensures Consistent(TreemapColors[i])
  {
    if i == 0 {
      Treemap1Consistent();
    } else if i == 1 {
      Treemap2Consistent();
    } else if i == 2 {
      Treemap3Consistent();
    } else if i == 3 {
      Treemap4Consistent();
    } else if i == 4 {
      Treemap5Consistent();
    } else {
      Treemap6Consistent();
    }
  }

  /** Every hand-written treemap `rgb` is what `hexToRgb` computes from its hex. */
  lemma TreemapColorsConsistent()
    ensures forall i :: 0 <= i < |TreemapColors| ==> Consistent(TreemapColors[i])
  {
    forall i | 0 <= i < |TreemapColors| ensures Consistent(TreemapColors[i]) {
      TreemapEntryConsistent(i);
    }
  }

  /**
   * The treemap uses the main palette's primary colours 1-4 and secondary
   * colours 5-6, in that order; the header and primary text share the
   * palette's title colour; the KPI accents are the default green and red.
   */
  lemma TablesShareThePalette()
    ensures Treemap1.hex == MainPrimary[1].hex && Treemap2.hex == MainPrimary[2].hex
    ensures Treemap3.hex == MainPrimary[3].hex && Treemap4.hex == MainPrimary[4].hex
    ensures Treemap5.hex == MainSecondary[0].hex && Treemap6.hex == MainSecondary[1].hex
    ensures HeaderBackground.hex == TextPrimary.hex == MainPrimary[0].hex
    ensures KpiAccentGreen.hex == MainDefault[3].hex && KpiAccentRed.hex == MainDefault[5].hex
  {
  }

  /**
   * `Colors` gathers all four tables: the quick-access lists are its main
   * palette's first three groups, the treemap has six entries, and its
   * dashboard and treemap tables are the ones whose entries
   * `DashboardColorsConsistent` and `TreemapColorsConsistent` check.
   */
  lemma ColorsAggregate()
    ensures Colors.main == [PrimaryColors, SecondaryColors, TertiaryColors, MainDefault]
    ensures Colors.treemap == TreemapColors && |TreemapColors| == 6
    ensures Colors.dashboard == DashboardColors
  {
  }
}
