# redlog in Dafny

A model of the core of **redlog**, a small structured-logging library for
Python. redlog has:

- nine log levels, where a lower number means a more urgent level;
- a global configuration that holds the minimum level and the current colour theme;
- immutable loggers with a dotted name and bound `key=value` fields;
- four formatters: Default (aligned columns), Plain, Timestamped and JSON;
- sinks: a string buffer, a multiplexer that isolates failing delegates, and a file sink with an ownership flag.

Every operation is a pure function over immutable datatypes, plus a few
methods whose loops carry invariants. Process-wide state becomes explicit
input: the configuration, the environment map, the TTY flag, the clock
reading, the formatter that `DefaultFormatter(theme)` builds and the default
console sink.

Modules, one per source file or concept:

| module | file | models |
|---|---|---|
| `Wrappers` | wrappers.dfy | `Option`, `Result`, `Outcome` |
| `Text` | text.dfy | joining and splitting strings, `" " * n`, decimal text of integers, ASCII lower-casing, the visible text once ANSI colour sequences are removed |
| `Utils` | utils.dfy | `stringify`, `should_use_color`, `colorize`, `fmt` (redlog/utils.py) |
| `Fields` | fields.dfy | `Field`, `FieldSet` (redlog/fields.py) |
| `Levels` | levels.dfy | `Level`, `level_name`, `level_short_name`, `_should_log` (redlog/core.py) |
| `Themes` | themes.dfy | `Color`, `Theme`, DEFAULT, PLAIN (redlog/themes.py) |
| `Configuration` | configuration.dfy | `Config`, `set_level`/`get_level`, `set_theme`/`get_theme` (redlog/core.py, redlog/themes.py) |
| `Formatters` | formatters.dfy | the four formatters and `LogEntry` (redlog/formatters.py, redlog/core.py) |
| `Sinks` | sinks.dfy | `StringSink`, `MultiplexSink`, `FileSink` (redlog/sinks.py) |
| `Logging` | logging.dfy | `Logger`: scoping, `_log`, the printf methods, the aliases (redlog/core.py) |

How the model represents the source:

- **Mutation.** A mutating method such as `FieldSet.add`, `StringSink.write` or `Config.set_level` is a function from the old state to the new one.
- **Formatters and sinks inside a logger.** These are function values that may fail:
  - `FormatFn = LogEntry -> Result<string, Fault>`;
  - `WriteFn = string -> Outcome<Fault>`.
- **Result of a log call.** A log call returns an `Emission`, one of:
  - `Filtered`;
  - `Written(line)`;
  - `Fallback(line)`, the stderr line;
  - `Raised(fault)`, an exception that escapes.
- **Interpolation.** Python's `%` operator is a parameter of type `Interpolation`.

Two error paths, as the code has them:

- Unlike `fmt` (utils.py:65-68), a printf-style call (`info_f`, …) lets an exception from `%` escape (core.py:291). This is a row under "Findings".
- `FileSink` recovers only from the `OSError` family when it opens its file (sinks.py:57). Any other exception escapes its constructor.

## Model

| member | source | states |
|---|---|---|
| Utils.Stringify | redlog/utils.py:10-30 | None gives "null". A string is unchanged. An int gives its canonical decimal text (no leading zero, a minus sign exactly for a negative value, never "-0"), which parses back to the same int. A bool gives "True"/"False". A float gives its str. Any other object gives its str, or "[unprintable]" when that raises. |
| Text.IntToStringRoundTrip | redlog/utils.py:24-25 | The decimal text that `str(int)` produces reads back as the same integer, negative values included. |
| Text.CanonicalDecimalUnique | redlog/utils.py:24-25 | An integer has exactly one canonical decimal text: any canonical text that reads back as i is the text `str(i)` gives. |
| Utils.ShouldUseColor | redlog/utils.py:33-42 | Colour is used iff neither NO_COLOR nor REDLOG_NO_COLOR is non-empty, and then either FORCE_COLOR or REDLOG_FORCE_COLOR is non-empty or stderr is a TTY. A disable signal beats a force signal; an empty variable counts as unset. |
| Utils.Colorize | redlog/utils.py:45-49 | The text comes back unchanged when colour is off or the code is 0. Otherwise the result is exactly ESC "[" code "m" text ESC "[0m". |
| Utils.ColorizeCall | redlog/utils.py:45-49 | A call with exactly one colour code after the text is `colorize` as defined. A call with any other number of codes raises TypeError, because the function has two parameters. |
| Utils.ColorizeShowsText | redlog/utils.py:45-49 | Removing the escape sequences from a coloured string gives back the original text, whatever follows it. |
| Utils.Fmt | redlog/utils.py:52-68 | A successful interpolation is returned as is. A TypeError or ValueError becomes "[format_error]". Any other exception escapes unchanged. |
| Fields.MakeField | redlog/fields.py:21-23 | The key is stored unchanged; the value is stored as `stringify` of the argument. |
| Fields.FieldValues | redlog/fields.py:21-23 | Concrete stored values: "value1" stays "value1", None becomes "null", 42 becomes "42", True becomes "True". |
| Fields.Add | redlog/fields.py:35-37 | `add` keeps the earlier fields in order and puts the new field at the end; the length grows by exactly one. |
| Fields.Merge | redlog/fields.py:39-41 | `merge` keeps the receiver's fields, then appends all of the other set's fields in order; the length is the sum of both. |
| Fields.WithField | redlog/fields.py:43-45 | The result is the receiver's fields followed by the new field. |
| Fields.WithFields | redlog/fields.py:47-49 | The result is the receiver's fields followed by the other set's fields. |
| Fields.BuildersAgree | redlog/fields.py:35-49 | After an in-place builder, the receiver holds exactly what the matching persistent builder returns. |
| Fields.KeepsDuplicates | redlog/fields.py:35-49 | No builder removes a duplicate key: each key's count in the result is its count in the inputs added together. |
| Fields.Empty | redlog/fields.py:56-58 | `empty()` holds iff the length is 0, which is iff the set is the empty set. |
| Fields.Len | redlog/fields.py:60-62 | Definition: the number of stored fields. Partner members Fields.Empty and Fields.Iterate, whose result has this length. |
| Fields.Iterate | redlog/fields.py:64-66 | Iteration yields exactly the stored fields, in insertion order. |
| Levels.FromOrd | redlog/core.py:18-33 | `Level(n)` exists iff 0 <= n <= 8, and its value is n. |
| Levels.OrdInjective | redlog/core.py:18-33 | Two levels with the same integer value are the same level. |
| Levels.AllLevelsInOrder | redlog/core.py:18-33 | Iterating `Level` yields all nine levels, in value order 0..8. |
| Levels.LevelName | redlog/core.py:36-49 | Any integer maps to a name. The result is "unknown" exactly when the integer is not a level. |
| Levels.LevelShortName | redlog/core.py:52-65 | Any integer maps to exactly three characters. The result is "unk" exactly when the integer is not a level. |
| Levels.ParseFullName | redlog/core.py:36-49 | Parsing a full name is sound: a level it returns has that full name. |
| Levels.ParseShortName | redlog/core.py:52-65 | Parsing a short name is sound: a level it returns has that short name. |
| Levels.NamesRoundTrip | redlog/core.py:36-65 | Both name tables are one-to-one: each level's name parses back to that level. No level is named "unknown"/"unk". |
| Levels.LowerEnumNameIsFullName | redlog/formatters.py:227 | The lower-cased member name that the JSON formatter emits equals `level_name` of the level. |
| Levels.ShouldLog | redlog/core.py:190-192 | Definition: `level <= min_level` on the levels' integer values. Partner lemmas Levels.ShouldLogThreshold and Levels.WarnThreshold. |
| Levels.ShouldLogThreshold | redlog/core.py:190-192 | Filtering is a threshold. What passes also passes at every more urgent level, and under every more permissive minimum. |
| Levels.WarnThreshold | redlog/core.py:190-192 | With minimum WARN, exactly CRITICAL, ERROR and WARN pass. |
| Themes.FromCode | redlog/themes.py:9-43 | `Color(n)` is sound: a colour it returns has code n. |
| Themes.CodeRanges | redlog/themes.py:9-43 | NONE is the only colour with code 0. Foreground colours lie in 31-37 or 90-97; background colours lie in 41-47 or 100-107. Every code reads back as its colour. |
| Themes.CodeInjective | redlog/themes.py:9-43 | Distinct colours have distinct codes. |
| Themes.DefaultPalette | redlog/themes.py:46-94 | DEFAULT is `Theme()`: a foreground colour for every level, and no background colour for any level or for the source. |
| Themes.PlainIsColorlessDefault | redlog/themes.py:96-123 | Every colour in PLAIN is NONE. PLAIN keeps the default layout: source width 12, message width 44, padded level text. |
| Configuration.InitialState | redlog/core.py:82-84 | At start the minimum level is INFO and the theme reads as DEFAULT. |
| Configuration.GetLevel | redlog/core.py:397-399 | Definition: the stored minimum level. Partner members Configuration.SetLevel and Configuration.SettersReadBack. |
| Configuration.SetLevel | redlog/core.py:92-95 | `get_level` returns the level just set; the theme is untouched. |
| Configuration.ReadTheme | redlog/core.py:97-105 | Reading the theme returns the theme that was set. With none set, the read returns DEFAULT and stores it. The level is untouched. |
| Configuration.CurrentTheme | redlog/themes.py:136-139 | `get_theme` returns the theme that was set, or DEFAULT while none is. |
| Configuration.ReadThemeStable | redlog/core.py:97-105 | The lazy initialisation is invisible: a second read returns the same theme and changes nothing. |
| Configuration.SetTheme | redlog/core.py:107-110 | `get_theme` returns the theme just set; the level is untouched. |
| Configuration.SettersReadBack | redlog/core.py:87-110 | For each setting the last setter wins, and a setter leaves the other setting alone. |
| Formatters.MaxTagWidthIsFive | redlog/formatters.py:71-77 | The widest bracketed level name over any non-empty list of levels is 5. |
| Formatters.SourceColumnLayout | redlog/formatters.py:83-94 | With no source, the column is exactly `source_width` spaces. Otherwise it is "[src]" followed only by spaces, `max(source_width, len + 3)` characters in all, so at least one space follows the tag. |
| Formatters.SourceColumnFits | redlog/formatters.py:83-94 | When the tag fits, the uncoloured source column is exactly `source_width` characters wide. |
| Formatters.LevelTagIsBracketedShortName | redlog/formatters.py:96-104 | With or without `pad_level_text`, the level column is always "[xxx]", five characters, with no padding added. |
| Formatters.MessageColumnLayout | redlog/formatters.py:111-119 | With a positive fixed width, what the terminal shows is the message followed by `max(1, width - len)` spaces, so there is always at least one. Otherwise it shows just the message. Colour codes never count against the width. |
| Formatters.DefaultAlignment | redlog/formatters.py:79-119 | When the source tag and the message fit their columns, the fields start at the same visible column on every line: `source_width + 6 + message_fixed_width`. |
| Formatters.LevelColor | redlog/formatters.py:41-54 | Definition of `_level_color` (also formatters.py:165-178): each of the nine levels maps to its own foreground colour in the theme. The `.get(level, Color.WHITE)` fallback is unreachable for a `Level`, so the model has no such case; the match over the nine levels is exhaustive. |
| Formatters.LevelBgColor | redlog/formatters.py:56-69 | Definition of `_level_bg_color`: each of the nine levels maps to its own background colour in the theme. The `.get(level, Color.NONE)` fallback is unreachable for a `Level`, so the model has no such case. |
| Formatters.DefaultLayout | redlog/formatters.py:79-133 | Definition of `DefaultFormatter.format`, with the three-argument colouring as a parameter. Partner lemmas Formatters.DefaultAlignment, Formatters.DefaultFieldsRoundTrip and Formatters.PlainIsUnpaddedDefault. |
| Formatters.DefaultFormatAsWritten | redlog/formatters.py:84-108 | Built from the source's steps in order: the source tag (when there is a source) and then the level tag are each coloured by a `colorize` call with two colour codes. Any failure it produces is TypeError. |
| Formatters.DefaultFormatAsWrittenRaises | redlog/formatters.py:84-108 | As written, `DefaultFormatter.format` raises TypeError for every entry, theme and terminal: the level tag's two-code call is on every path. |
| Formatters.DefaultFormat | redlog/formatters.py:79-133 | The Default formatter, with working three-argument colouring, never fails. The line starts with the source, level and message columns, and every field's `key=value` text occurs after them. |
| Formatters.DefaultSuffix | redlog/formatters.py:121-133 | After the three columns the line holds exactly the fields suffix: nothing without fields, otherwise one space and the space-joined field texts. |
| Formatters.DefaultShowsField | redlog/formatters.py:121-133 | Each field's `key=value` text occurs in the part of the line after the message column. |
| Formatters.DefaultFieldsRoundTrip | redlog/formatters.py:121-133 | With colour off and no space in any key or value, the text after the message column is one space followed by text that splits at spaces into exactly the fields' `key=value` texts, in order and with duplicates kept. |
| Formatters.PlainLayout | redlog/formatters.py:139-156 | Definition of `PlainFormatter.format`. Partner lemma Formatters.PlainIsUnpaddedDefault. |
| Formatters.PlainIsUnpaddedDefault | redlog/formatters.py:139-156 | Plain output is the Default layout with the PLAIN theme, no source or message width, and no colour. That is "[src]" (if any), "[lvl]", the message and the space-joined `k=v` pairs, separated by single spaces. |
| Formatters.TimestampedLayout | redlog/formatters.py:180-215 | Definition of `TimestampedFormatter.format`, with the three-argument colouring as a parameter. Partner lemma Formatters.TimestampedShape. |
| Formatters.TimestampedFormatAsWritten | redlog/formatters.py:180-215 | Built from the source: the source, only when there is one, is coloured by a `colorize` call with two colour codes. So the call raises TypeError exactly when the entry has a source. Without a source it returns the layout, whatever the colouring. |
| Formatters.TimestampedFormat | redlog/formatters.py:180-215 | The corrected Timestamped formatter never fails. Its line is `TimestampedLayout`, spelled out by Formatters.TimestampedShape. |
| Formatters.TimestampedShape | redlog/formatters.py:180-215 | The line is "[time]", the source if any, "lvl:", the message, and "[" + comma-joined fields + "]" only when there are fields. The parts are separated by single spaces. |
| Formatters.JsonFormat | redlog/formatters.py:221-236 | The keys are timestamp, level, source and message, in that order, plus `fields` only when there are fields. `level` equals `level_name`. |
| Formatters.FieldsObjectIsDict | redlog/formatters.py:232-236 | The `fields` object has one entry per distinct key. Each key sits where it first occurred and holds the last value written for it. |
| Formatters.AssignKeepsDict | redlog/formatters.py:234-235 | One more `d[key] = value` keeps `d` the dictionary of the fields seen so far. |
| Sinks.Write | redlog/sinks.py:88-90 | `write` appends the line at the end of the buffer and keeps everything before it. |
| Sinks.Flush | redlog/sinks.py:92-94 | `flush` changes nothing. |
| Sinks.GetOutput | redlog/sinks.py:96-98 | The output is "" for an empty buffer and the single line for a one-line buffer. |
| Sinks.OutputShowsEveryWrite | redlog/sinks.py:96-98 | Every line ever written occurs in the output. |
| Sinks.WriteExtendsOutput | redlog/sinks.py:88-98 | A write extends the output by a newline and the line, or makes the line the whole output when it is the first write. |
| Sinks.OutputSplitsIntoLines | redlog/sinks.py:96-98 | If no line contains a newline, the output splits back into exactly the lines written, in order. |
| Sinks.Clear | redlog/sinks.py:100-102 | `clear` empties the buffer. |
| Sinks.ClearEmptiesOutput | redlog/sinks.py:100-102 | After `clear` the output is "", and the next write is the whole output. |
| Sinks.AddSink | redlog/sinks.py:111-113 | `add_sink` keeps the delegates and appends the new one at the end. |
| Sinks.DelegateWrite | redlog/sinks.py:117-122 | A working delegate receives the line at the end of its buffer. A broken one raises its fault. |
| Sinks.MultiplexWrite | redlog/sinks.py:115-122 | Every working delegate receives the line exactly once, whatever the other delegates do. Broken delegates stay as they were. The multiplex itself never fails. |
| Sinks.DelegateFlush | redlog/sinks.py:124-131 | Flushing a working delegate succeeds; a broken one raises its fault. |
| Sinks.MultiplexFlush | redlog/sinks.py:124-131 | Every delegate is flushed. A delegate's failure is recorded against it and swallowed, and the multiplex itself succeeds. |
| Sinks.OpenFileSink | redlog/sinks.py:50-60 | A successful open owns the file (`should_close` is true). An OSError falls back to stderr without ownership. Any other exception escapes. |
| Sinks.FileWrite | redlog/sinks.py:62-65 | A write prints the line plus a newline to the sink's stream. |
| Sinks.FileFlush | redlog/sinks.py:67-70 | A flush targets the sink's stream. |
| Sinks.FileClose | redlog/sinks.py:72-75 | `close` closes the stream iff the sink owns it, and otherwise does nothing. |
| Sinks.FileSinkOwnership | redlog/sinks.py:50-75 | A file sink never closes stderr. After a successful open it writes to and closes its own file. After a failed open it writes to stderr and its `close` does nothing. |
| Logging.NewLogger | redlog/core.py:125-135 | A new logger has the given name, no fields, and no formatter or sink override. |
| Logging.WithName | redlog/core.py:165-171 | The new name is the segment when the name was empty. Otherwise the old dotted segments are followed by the new ones. The field set and the overrides are carried over unchanged; in the source the field set object is shared by reference (see "Left out"). |
| Logging.WithNameComposes | redlog/core.py:165-171 | Scoping by a and then by b equals scoping once by "a.b", provided a name or a is non-empty. |
| Logging.WithField | redlog/core.py:173-181 | The name and overrides are unchanged. The bound fields gain exactly one field at the end, holding the key and the stringified value. |
| Logging.AppendEachIsConcat | redlog/core.py:183-188 | The loop of `with_field` calls appends the given fields after the bound ones, in order. That equals `FieldSet.with_fields`. |
| Logging.WithFields | redlog/core.py:183-188 | The name and overrides are unchanged. The fields are the bound ones followed by the given ones. |
| Logging.ScopingKeepsBoundFields | redlog/core.py:165-188 | No scoping operation drops or collapses a bound field: key counts add up. |
| Logging.EntryFor | redlog/core.py:200-205 | An emitted entry has the logger's name as source, the call's level, message and clock reading, and the bound fields followed by the call-site fields. |
| Logging.EffectiveFormatter | redlog/core.py:141-147 | The override when there is one; otherwise the formatter `DefaultFormatter()` builds on the current theme. |
| Logging.EffectiveSink | redlog/core.py:149-155 | The override when there is one; otherwise the console. |
| Logging.AsWrittenDefault | redlog/formatters.py:38-39 | Definition: `DefaultFormatter(theme)` as written, formatting with Formatters.DefaultFormatAsWritten. Partner lemma Logging.AsWrittenDefaultNeverWrites. |
| Logging.CorrectedDefault | redlog/formatters.py:38-39 | Definition: `DefaultFormatter(theme)` with a working three-argument colouring, formatting with Formatters.DefaultFormat. Partner lemmas Logging.DefaultLoggerOutput and Logging.NonFailingSinkAlwaysWrites. |
| Logging.Log | redlog/core.py:194-210 | The call is filtered iff the level is below the minimum, and it never raises. When it is written, the formatter produced the line and the sink accepted it. It falls back exactly when the formatter or the sink raised, and then the fallback line is "[redlog-error] Failed to log: " + message. |
| Logging.DefaultLoggerOutput | redlog/core.py:141-155 | With the corrected Default formatter and without overrides, the Default layout of the entry, under the current theme, goes to the console. If the console raises, the fallback line is produced instead. |
| Logging.NonFailingSinkAlwaysWrites | redlog/core.py:199-210 | Behind the corrected Default formatter, a sink that never raises receives every enabled call. |
| Logging.AsWrittenDefaultNeverWrites | redlog/core.py:141-210 | A logger built without a formatter uses `DefaultFormatter()` as written: every enabled call ends in the fallback line and nothing is ever written, whatever the sink. |
| Logging.FailureIsContained | redlog/core.py:194-210 | Whatever the formatter and sink do, only the level decides whether anything happens. A call that is not written reports its own message. |
| Logging.LogF | redlog/core.py:287-292 | The level is checked first, and interpolation runs only for an enabled level. Its exception escapes as is. On success the call is `_log` of the interpolated message with no fields. |
| Logging.LogFLetsFormatErrorEscape | redlog/core.py:287-292 | As written, when the level is enabled and `%` raises TypeError or ValueError, the printf call raises that exception, where `fmt` on the same input gives the error marker. |
| Logging.LogFMarked | redlog/core.py:287-292 | A printf call that interpolates through `fmt`: filtered iff the level is below the minimum; it raises only when `fmt` itself raises; otherwise it is `_log` of `fmt`'s result with no fields. |
| Logging.LogFMarkedRecovers | redlog/core.py:287-292 | Through `fmt`, a TypeError or ValueError from `%` never escapes: an enabled call logs the error marker. When interpolation succeeds, the call behaves as the as-written printf call. |
| Logging.LogFSkipsInterpolation | redlog/core.py:287-292 | A filtered printf call does not depend on its interpolation at all: one that would raise behaves like one that would succeed. |
| Logging.LookupMethod | redlog/core.py:212-385 | Name lookup is sound: a method it returns has that Python name. |
| Logging.MethodNamesRoundTrip | redlog/core.py:212-385 | Each of the 36 methods (full, short, plain, `_f`) has a distinct name that reads back as that method. |
| Logging.Call | redlog/core.py:212-385 | A plain method never raises. Any method is filtered iff its level is below the minimum. A method's body depends only on its level and kind, not on its spelling, as each body in the source calls `_log` (or the printf path) with a fixed level. |
| Logging.CallNamed | redlog/core.py:212-385 | Calling one of the 36 logging methods by name: such a name calls the method it denotes. The result is `None` exactly for a name that is not one of the 36; other attributes of the logger are outside this function. |
| Logging.AliasesAgree | redlog/core.py:250-385 | Called by name, each three-letter alias (`wrn`, `wrn_f`, …) gives the same outcome as its full-name method (`warn`, `warn_f`, …): the name lookup sends both to the same level and kind. A printf method whose interpolation returns the text unchanged behaves as the plain method called without fields. |

## Left out

- ConsoleSink: printing to stderr and flushing it are I/O. The console is the `console` write function of a log call's context.
- FileSink: the actual open, print, flush and close are I/O, and `__del__` only calls `close`. The model returns the action a sink asks of its stream, and the outcome of `open` is a parameter.
- The fallback `print` to stderr in `_log` is not performed; the line is returned as `Fallback(line)`.
- `Config`'s lock, and the unlocked reads of the level and of the lazily initialised theme, are concurrency. Each configuration operation is one atomic step.
- `Logging.Log` reads the theme without returning the configuration updated by the lazy DEFAULT store. `Configuration.ReadThemeStable` shows that the store never changes what any later read returns.
- Python's `%` interpolation, float-to-text conversion, `datetime.now`, `strftime` and `isoformat` are abstract. Interpolation is a parameter; a float carries its text; a timestamp carries its two texts.
- The string escaping and separators of `json.dumps` are left out. `Formatters.JsonFormat` returns the key/value structure that would be dumped.
- Utils.Stringify: the interpreter's limit on the digits of an integer-to-text conversion (4300 by default in CPython, set by `sys.set_int_max_str_digits`) is not modelled. Above it, `str(value)` at utils.py:24-25 raises ValueError outside the `try`, so `stringify`, and the `Field` construction that calls it, raise for such an integer; the model returns its text.
- Logging.WithName, Fields.FieldSet, Sinks.MultiplexWrite: object identity and aliasing are not modelled; every value is its own copy. In the source, `with_name` passes `self._fields` on by reference (core.py:171) and the `fields` property returns that same object (core.py:158-163), so `base.fields.add(f)` also changes every logger derived by `with_name`. `FieldSet(lst)` keeps a non-empty `lst` by reference (fields.py:33). A MultiplexSink that lists one StringSink twice appends the line twice to that one buffer, where the model gives each listed delegate its own buffer.
- `Levels.LowerEnumNameIsFullName`: `str.lower` is modelled as ASCII lower-casing, which is all the level names need.
- `Logging.Logger`: a `None` field set is stored as the empty field set, which is what the `fields` property returns for it.
- `Formatters.TimestampedFormat`: its contract only states that it succeeds. The shape of its line is stated by `Formatters.TimestampedShape`.
- `Sinks.FileWrite`: the `if self.file` guards are always true for an open stream or stderr, so they are not modelled.
- redlog/__init__.py (re-exports and the `field` helper) and the example scripts are not part of this model.
- The abstract `Sink` and `Formatter` base classes are only interfaces. They appear as the function types `WriteFn` and `FormatFn`.

## Findings

| source | as written | input that shows it | evidently intended | confidence | as-written member | corrected member |
|---|---|---|---|---|---|---|
| redlog/formatters.py:106-108 | `DefaultFormatter.format` colours the level tag with `colorize(level_part, fg, bg)`. `colorize` (utils.py:45) takes two parameters, so every call raises TypeError. `_log` swallows it, so a default logger prints only the fallback line. | any entry, e.g. level INFO, message "hello", no source, no fields | the level tag (and the source tag, line 86) coloured by foreground and background, then the aligned line written | not executed | Formatters.DefaultFormatAsWritten, Formatters.DefaultFormatAsWrittenRaises, Logging.AsWrittenDefaultNeverWrites | Formatters.DefaultFormat, Logging.DefaultLoggerOutput, Logging.NonFailingSinkAlwaysWrites |
| redlog/formatters.py:190-192 | `TimestampedFormatter.format` colours the source with three arguments, so it raises TypeError for every entry that has a source. | an entry with source "app" | the source coloured by foreground and background and the timestamped line returned | not executed | Formatters.TimestampedFormatAsWritten | Formatters.TimestampedFormat, Formatters.TimestampedShape |
| redlog/core.py:287-292 | Each `<level>_f` method computes `format_str % args` outside any `try`, so a wrong argument count or type raises TypeError out of the log call. The library supplies `fmt` (utils.py:52-68) to turn exactly those errors into "[format_error]", and its other error paths degrade output rather than raise. | an enabled `info_f("%d", "x")`, where `%` raises TypeError | the interpolation done as `fmt` does it, logging "[format_error]" | not executed | Logging.LogF, Logging.LogFLetsFormatErrorEscape | Logging.LogFMarked, Logging.LogFMarkedRecovers |

The corrected formatters take the three-argument colouring as a parameter
(`Formatters.Paint`), because the code does not say how a background colour
should be combined with a foreground one. Its no-colour case,
`Formatters.Unpainted`, is the identity. Every layout property is proved for
any colouring, or for `Unpainted` where the visible width matters. The
two-code calls are modelled by `Utils.ColorizeCall`. A log call takes the
formatter `DefaultFormatter(theme)` builds from its context: either
`Logging.AsWrittenDefault`, the formatter as the source writes it, or
`Logging.CorrectedDefault`.
