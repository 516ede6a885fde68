/** The global configuration (redlog/core.py `Config`, and the module-level
    `set_level`/`get_level`/`set_theme`/`get_theme` of core.py and themes.py):
    the minimum level, INFO at start, and the current theme, which is unset
    until first read and then lazily becomes DEFAULT. The lock is not
    modelled; each operation is one step from one state to the next. */
module Configuration {
  import opened Wrappers
  import opened Levels
  import opened Themes

  datatype Config = Config(minLevel: Level, theme: Option<Theme>)

  /** The state when the library is loaded. */
  const Initial: Config := Config(Info, None)

  function SetLevel(c: Config, l: Level): (r: Config)
    ensures GetLevel(r) == l
    ensures r.theme == c.theme
  {
    c.(minLevel := l)
  }

  function GetLevel(c: Config): Level
  {
    c.minLevel
  }

  function SetTheme(c: Config, t: Theme): (r: Config)
    ensures ReadTheme(r).theme == t
    ensures GetLevel(r) == GetLevel(c)
  {
    c.(theme := Some(t))
  }

  /** The result of reading the `theme` property: the theme, and the state
      after the read (the first read stores DEFAULT). */
  datatype ThemeRead = ThemeRead(theme: Theme, config: Config)

  function ReadTheme(c: Config): (r: ThemeRead)
    ensures r.config.theme == Some(r.theme)
    ensures c.theme.Some? ==> r.theme == c.theme.value && r.config == c
    ensures c.theme.None? ==> r.theme == DefaultTheme
    ensures GetLevel(r.config) == GetLevel(c)
  {
    match c.theme
    case Some(t) => ThemeRead(t, c)
    case None => ThemeRead(DefaultTheme, c.(theme := Some(DefaultTheme)))
  }

  /** The theme a read would return, without the state change: the theme
      set, or DEFAULT while none is. */
  function CurrentTheme(c: Config): (r: Theme)
    ensures c.theme.Some? ==> r == c.theme.value
    ensures c.theme.None? ==> r == DefaultTheme
  {
    ReadTheme(c).theme
  }

  /** At start the level is INFO and the theme reads as DEFAULT. */
  lemma InitialState()
    ensures GetLevel(Initial) == Info
    ensures CurrentTheme(Initial) == DefaultTheme
  {
  }

  /** The lazy initialisation is invisible: reading again gives the same
      theme and changes nothing more. */
  lemma ReadThemeStable(c: Config)
    ensures ReadTheme(ReadTheme(c).config) == ThemeRead(ReadTheme(c).theme, ReadTheme(c).config)
    ensures CurrentTheme(ReadTheme(c).config) == CurrentTheme(c)
  {
  }

  /** Each setter is read back by its getter; the most recent call wins, and
      a setter leaves the other setting alone. */
  lemma SettersReadBack(c: Config, l1: Level, l2: Level, t1: Theme, t2: Theme)
    ensures GetLevel(SetLevel(SetLevel(c, l1), l2)) == l2
    ensures CurrentTheme(SetTheme(SetTheme(c, t1), t2)) == t2
    ensures CurrentTheme(SetLevel(SetTheme(c, t1), l1)) == t1
    ensures GetLevel(SetTheme(SetLevel(c, l1), t1)) == l1
  {
  }
}
