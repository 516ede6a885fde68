/** Themes (redlog/themes.py): the ANSI colour codes, the theme record with
    its default values, and the DEFAULT and PLAIN presets. Themes are plain
    data. The global current theme lives in the configuration state
    (module Configuration). */
module Themes {
  import opened Wrappers

  /** The `Color` enumeration; `NoColor` is the source's NONE. */
  datatype Color =
    | NoColor
    | Red | Green | Yellow | Blue | Magenta | Cyan | White
    | BrightBlack | BrightRed | BrightGreen | BrightYellow | BrightBlue | BrightMagenta | BrightCyan | BrightWhite
    | OnRed | OnGreen | OnYellow | OnBlue | OnMagenta | OnCyan | OnWhite
    | OnGray | OnBrightRed | OnBrightGreen | OnBrightYellow | OnBrightBlue | OnBrightMagenta | OnBrightCyan | OnBrightWhite

  /** The ANSI code of a colour. */
  function Code(c: Color): int
  {
    match c
    case NoColor => 0
    case Red => 31
    case Green => 32
    case Yellow => 33
    case Blue => 34
    case Magenta => 35
    case Cyan => 36
    case White => 37
    case BrightBlack => 90
    case BrightRed => 91
    case BrightGreen => 92
    case BrightYellow => 93
    case BrightBlue => 94
    case BrightMagenta => 95
    case BrightCyan => 96
    case BrightWhite => 97
    case OnRed => 41
    case OnGreen => 42
    case OnYellow => 43
    case OnBlue => 44
    case OnMagenta => 45
    case OnCyan => 46
    case OnWhite => 47
    case OnGray => 100
    case OnBrightRed => 101
    case OnBrightGreen => 102
    case OnBrightYellow => 103
    case OnBrightBlue => 104
    case OnBrightMagenta => 105
    case OnBrightCyan => 106
    case OnBrightWhite => 107
  }

  predicate IsForeground(c: Color)
  {
    || c.Red? || c.Green? || c.Yellow? || c.Blue? || c.Magenta? || c.Cyan? || c.White?
    || c.BrightBlack? || c.BrightRed? || c.BrightGreen? || c.BrightYellow?
    || c.BrightBlue? || c.BrightMagenta? || c.BrightCyan? || c.BrightWhite?
  }

  predicate IsBackground(c: Color)
  {
    || c.OnRed? || c.OnGreen? || c.OnYellow? || c.OnBlue? || c.OnMagenta? || c.OnCyan? || c.OnWhite?
    || c.OnGray? || c.OnBrightRed? || c.OnBrightGreen? || c.OnBrightYellow?
    || c.OnBrightBlue? || c.OnBrightMagenta? || c.OnBrightCyan? || c.OnBrightWhite?
  }

  /** `Color(n)`: the colour whose code is `n`, if any. */
  function FromCode(n: int): (r: Option<Color>)
    ensures r.Some? ==> Code(r.value) == n
  {
    if n == 0 then Some(NoColor)
    else if 31 <= n <= 37 then Some([Red, Green, Yellow, Blue, Magenta, Cyan, White][n - 31])
    else if 90 <= n <= 97 then
      Some([BrightBlack, BrightRed, BrightGreen, BrightYellow, BrightBlue, BrightMagenta, BrightCyan, BrightWhite][n - 90])
    else if 41 <= n <= 47 then Some([OnRed, OnGreen, OnYellow, OnBlue, OnMagenta, OnCyan, OnWhite][n - 41])
    else if 100 <= n <= 107 then
      Some([OnGray, OnBrightRed, OnBrightGreen, OnBrightYellow, OnBrightBlue, OnBrightMagenta, OnBrightCyan, OnBrightWhite][n - 100])
    else None
  }

  /** Each colour is NONE, a foreground or a background colour, and its code
      lies in the matching ANSI range; codes identify colours. */
  lemma CodeRanges(c: Color)
    ensures c.NoColor? <==> Code(c) == 0
    ensures IsForeground(c) <==> (31 <= Code(c) <= 37 || 90 <= Code(c) <= 97)
    ensures IsBackground(c) <==> (41 <= Code(c) <= 47 || 100 <= Code(c) <= 107)
    ensures FromCode(Code(c)) == Some(c)
  {
  }

  lemma CodeInjective(a: Color, b: Color)
    ensures Code(a) == Code(b) <==> a == b
  {
    CodeRanges(a);
    CodeRanges(b);
  }

  /** The theme record; every field defaults to the value `Theme()` gives it. */
  datatype Theme = Theme(
    criticalColor: Color := BrightMagenta,
    errorColor: Color := Red,
    warnColor: Color := Yellow,
    infoColor: Color := Green,
    verboseColor: Color := Blue,
    traceColor: Color := White,
    debugColor: Color := BrightBlack,
    pedanticColor: Color := BrightBlack,
    annoyingColor: Color := BrightBlack,
    criticalBg: Color := NoColor,
    errorBg: Color := NoColor,
    warnBg: Color := NoColor,
    infoBg: Color := NoColor,
    verboseBg: Color := NoColor,
    traceBg: Color := NoColor,
    debugBg: Color := NoColor,
    pedanticBg: Color := NoColor,
    annoyingBg: Color := NoColor,
    sourceColor: Color := Cyan,
    sourceBg: Color := NoColor,
    messageColor: Color := White,
    fieldKeyColor: Color := BrightCyan,
    fieldValueColor: Color := White,
    sourceWidth: int := 12,
    messageFixedWidth: int := 44,
    padLevelText: bool := true)

  /** `themes.DEFAULT`. */
  const DefaultTheme: Theme := Theme()

  /** `themes.PLAIN`: every colour set to NONE, layout left at its defaults. */
  const PlainTheme: Theme := Theme(
    criticalColor := NoColor, errorColor := NoColor, warnColor := NoColor,
    infoColor := NoColor, verboseColor := NoColor, traceColor := NoColor,
    debugColor := NoColor, pedanticColor := NoColor, annoyingColor := NoColor,
    criticalBg := NoColor, errorBg := NoColor, warnBg := NoColor,
    infoBg := NoColor, verboseBg := NoColor, traceBg := NoColor,
    debugBg := NoColor, pedanticBg := NoColor, annoyingBg := NoColor,
    sourceColor := NoColor, sourceBg := NoColor, messageColor := NoColor,
    fieldKeyColor := NoColor, fieldValueColor := NoColor)

  /** Every colour of the theme is NONE. */
  predicate Colorless(t: Theme)
  {
    && t.criticalColor == NoColor && t.errorColor == NoColor && t.warnColor == NoColor
    && t.infoColor == NoColor && t.verboseColor == NoColor && t.traceColor == NoColor
    && t.debugColor == NoColor && t.pedanticColor == NoColor && t.annoyingColor == NoColor
    && t.criticalBg == NoColor && t.errorBg == NoColor && t.warnBg == NoColor
    && t.infoBg == NoColor && t.verboseBg == NoColor && t.traceBg == NoColor
    && t.debugBg == NoColor && t.pedanticBg == NoColor && t.annoyingBg == NoColor
    && t.sourceColor == NoColor && t.sourceBg == NoColor && t.messageColor == NoColor
    && t.fieldKeyColor == NoColor && t.fieldValueColor == NoColor
  }

  /** Two themes with the same layout parameters. */
  predicate SameLayout(a: Theme, b: Theme)
  {
    a.sourceWidth == b.sourceWidth && a.messageFixedWidth == b.messageFixedWidth && a.padLevelText == b.padLevelText
  }

  /** PLAIN has no colour at all and keeps the default layout (12, 44, padded). */
  lemma PlainIsColorlessDefault()
    ensures Colorless(PlainTheme)
    ensures SameLayout(PlainTheme, DefaultTheme)
    ensures PlainTheme.sourceWidth == 12 && PlainTheme.messageFixedWidth == 44 && PlainTheme.padLevelText
  {
  }

  /** DEFAULT: foreground colours in the foreground slots, no backgrounds. */
  lemma DefaultPalette()
    ensures IsForeground(DefaultTheme.criticalColor) && IsForeground(DefaultTheme.errorColor)
    ensures IsForeground(DefaultTheme.warnColor) && IsForeground(DefaultTheme.infoColor)
    ensures IsForeground(DefaultTheme.verboseColor) && IsForeground(DefaultTheme.traceColor)
    ensures IsForeground(DefaultTheme.debugColor) && IsForeground(DefaultTheme.pedanticColor)
    ensures IsForeground(DefaultTheme.annoyingColor)
    ensures DefaultTheme.criticalBg == NoColor && DefaultTheme.errorBg == NoColor && DefaultTheme.warnBg == NoColor
    ensures DefaultTheme.infoBg == NoColor && DefaultTheme.verboseBg == NoColor && DefaultTheme.traceBg == NoColor
    ensures DefaultTheme.debugBg == NoColor && DefaultTheme.pedanticBg == NoColor && DefaultTheme.annoyingBg == NoColor
    ensures DefaultTheme.sourceBg == NoColor && !Colorless(DefaultTheme)
  {
  }
}
