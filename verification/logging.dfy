/** The logger (redlog/core.py `Logger`): an immutable value holding a dotted
    name, bound fields and optional formatter and sink overrides. A log call
    is a pure function of the logger, the global configuration and the
    environment of the call (clock, terminal, default console sink), and
    returns what became of the message. */
module Logging {
  import opened Wrappers
  import opened Text
  import opened Utils
  import opened Fields
  import opened Levels
  import opened Configuration
  import opened Themes
  import opened Formatters

  /** A sink seen through its `write`: it takes the line, or raises. */
  type WriteFn = string -> Outcome<Fault>

  /** `Logger`. A missing field set reads as the empty one, so it is stored
      as `NoFields`. */
  datatype Logger = Logger(name: string, fields: FieldSet, formatter: Option<FormatFn>, sink: Option<WriteFn>)

  /** `Logger(name)`: no fields and no overrides. */
  function NewLogger(name: string): (r: Logger)
    ensures r.name == name && Empty(r.fields)
    ensures r.formatter.None? && r.sink.None?
  {
    Logger(name, NoFields, None, None)
  }

  // ---------------------------------------------------------------------
  // Scoping
  // ---------------------------------------------------------------------

  /** `with_name(name)`: the segment is appended after a dot, or becomes the
      name if there was none; everything else is shared. */
  function WithName(l: Logger, segment: string): (r: Logger)
    ensures r.fields == l.fields && r.formatter == l.formatter && r.sink == l.sink
    ensures l.name == "" ==> r.name == segment
    ensures l.name != "" ==> Split(r.name, '.') == Split(l.name, '.') + Split(segment, '.')
    ensures l.name != "" ==> |r.name| == |l.name| + 1 + |segment| && r.name[..|l.name|] == l.name
  {
    if l.name != "" then
      SplitConcat(l.name, segment, '.');
      assert l.name + "." + segment == l.name + ['.'] + segment;
      Logger(l.name + "." + segment, l.fields, l.formatter, l.sink)
    else Logger(segment, l.fields, l.formatter, l.sink)
  }

  /** Scoping twice is scoping once by the dotted path, as long as something
      is there to put the dot after. */
  lemma WithNameComposes(l: Logger, a: string, b: string)
    requires l.name != "" || a != ""
    ensures WithName(WithName(l, a), b).name == WithName(l, a + "." + b).name
    ensures WithName(WithName(l, a), b).fields == l.fields
  {
    if l.name != "" {
      assert l.name + "." + a + "." + b == l.name + "." + (a + "." + b);
    }
  }

  /** Appending fields one `with_field` at a time, as `with_fields` and
      `_log` do. */
  function AppendEach(fs: FieldSet, more: seq<Field>): FieldSet
  {
    if |more| == 0 then fs
    else Fields.WithField(AppendEach(fs, more[..|more| - 1]), more[|more| - 1])
  }

  /** The loop of `with_field` calls appends the fields in order: it is
      `with_fields` of the whole list. */
  lemma {:induction false} AppendEachIsConcat(fs: FieldSet, more: seq<Field>)
    ensures AppendEach(fs, more) == Fields.WithFields(fs, FieldSet(more))
    ensures AppendEach(fs, more).items == fs.items + more
  {
    if |more| > 0 {
      var n := |more| - 1;
      AppendEachIsConcat(fs, more[..n]);
      assert fs.items + more[..n] + [more[n]] == fs.items + more;
    } else {
      assert fs.items + more == fs.items;
    }
  }

  /** `with_field(key, value)`: one more field, stringified, after the bound ones. */
  function WithField(l: Logger, key: string, v: Value): (r: Logger)
    ensures r.name == l.name && r.formatter == l.formatter && r.sink == l.sink
    ensures Len(r.fields) == Len(l.fields) + 1 && r.fields.items[..Len(l.fields)] == l.fields.items
    ensures r.fields.items[Len(l.fields)] == Field(key, Stringify(v))
  {
    Logger(l.name, Fields.WithField(l.fields, MakeField(key, v)), l.formatter, l.sink)
  }

  /** `with_fields(*fields)`: the given fields, in order, after the bound ones. */
  function WithFields(l: Logger, more: seq<Field>): (r: Logger)
    ensures r.name == l.name && r.formatter == l.formatter && r.sink == l.sink
    ensures r.fields.items == l.fields.items + more
  {
    AppendEachIsConcat(l.fields, more);
    Logger(l.name, AppendEach(l.fields, more), l.formatter, l.sink)
  }

  /** Scoping never touches the receiver and never drops a bound field. */
  lemma ScopingKeepsBoundFields(l: Logger, segment: string, key: string, v: Value, more: seq<Field>, k: string)
    ensures CountKey(WithField(l, key, v).fields.items, k) == CountKey(l.fields.items, k) + (if key == k then 1 else 0)
    ensures CountKey(WithFields(l, more).fields.items, k) == CountKey(l.fields.items, k) + CountKey(more, k)
    ensures WithName(l, segment).fields == l.fields
  {
    KeepsDuplicates(l.fields, Field(key, Stringify(v)), FieldSet(more), k);
  }

  // ---------------------------------------------------------------------
  // Emitting
  // ---------------------------------------------------------------------

  /** What a log call cannot compute by itself: the clock reading, the
      terminal that decides colouring, the formatter `DefaultFormatter(theme)`
      builds, and the default console sink. */
  datatype Context = Context(now: Timestamp, term: Terminal, defaultFormatter: Theme -> FormatFn, console: WriteFn)

  /** `DefaultFormatter(theme)` as the source writes it. */
  function AsWrittenDefault(term: Terminal): Theme -> FormatFn
  {
    (th: Theme) => (e: LogEntry) => DefaultFormatAsWritten(th, term, e)
  }

  /** `DefaultFormatter(theme)` with a working three-argument colouring. */
  function CorrectedDefault(term: Terminal, paint: Paint): Theme -> FormatFn
  {
    (th: Theme) => (e: LogEntry) => DefaultFormat(th, term, paint, e)
  }

  /** The outcome of a log call: filtered out, written by the sink, replaced
      by the fallback line on stderr, or an exception escaping the call. */
  datatype Emission = Filtered | Written(line: string) | Fallback(line: string) | Raised(fault: Fault)

  function FallbackLine(message: string): string
  {
    "[redlog-error] Failed to log: " + message
  }

  /** `_should_log` against the configured minimum. */
  predicate Enabled(cfg: Config, level: Level)
  {
    ShouldLog(level, GetLevel(cfg))
  }

  /** The entry `_log` builds. */
  function EntryFor(l: Logger, ctx: Context, level: Level, message: string, callFields: seq<Field>): (e: LogEntry)
    ensures e.level == level && e.message == message && e.timestamp == ctx.now
    ensures e.source == l.name
    ensures e.fields.items == l.fields.items + callFields
  {
    AppendEachIsConcat(l.fields, callFields);
    LogEntry(level, message, l.name, AppendEach(l.fields, callFields), ctx.now)
  }

  /** The `formatter` property: the override, or a Default formatter built
      on the current theme. */
  function EffectiveFormatter(l: Logger, cfg: Config, ctx: Context): (r: FormatFn)
    ensures l.formatter.Some? ==> r == l.formatter.value
    ensures l.formatter.None? ==> r == ctx.defaultFormatter(CurrentTheme(cfg))
  {
    match l.formatter
    case Some(f) => f
    case None => ctx.defaultFormatter(CurrentTheme(cfg))
  }

  /** The `sink` property: the override, or the console. */
  function EffectiveSink(l: Logger, ctx: Context): (r: WriteFn)
    ensures l.sink.Some? ==> r == l.sink.value
    ensures l.sink.None? ==> r == ctx.console
  {
    l.sink.GetOr(ctx.console)
  }

  /** `_log(level, message, *fields)`. */
  function Log(l: Logger, cfg: Config, ctx: Context, level: Level, message: string, callFields: seq<Field>): (r: Emission)
    ensures r.Filtered? <==> !Enabled(cfg, level)
    ensures !r.Raised?
    ensures r.Fallback? ==> r.line == FallbackLine(message)
    ensures r.Written? ==>
      && EffectiveFormatter(l, cfg, ctx)(EntryFor(l, ctx, level, message, callFields)) == Success(r.line)
      && EffectiveSink(l, ctx)(r.line) == Pass
    ensures r.Fallback? <==>
      && Enabled(cfg, level)
      && (|| EffectiveFormatter(l, cfg, ctx)(EntryFor(l, ctx, level, message, callFields)).Failure?
          || EffectiveSink(l, ctx)(EffectiveFormatter(l, cfg, ctx)(EntryFor(l, ctx, level, message, callFields)).value).Fail?)
  {
    if !Enabled(cfg, level) then Filtered
    else
      match EffectiveFormatter(l, cfg, ctx)(EntryFor(l, ctx, level, message, callFields))
      case Failure(_) => Fallback(FallbackLine(message))
      case Success(line) =>
        match EffectiveSink(l, ctx)(line)
        case Pass => Written(line)
        case Fail(_) => Fallback(FallbackLine(message))
  }

  /** With the corrected Default formatter, a logger without overrides
      writes the Default layout of the entry, under the current theme, to the
      console, or the fallback line if the console raises. The entry carries
      the logger's name as its source and the bound fields before the call's
      own. */
  lemma DefaultLoggerOutput(l: Logger, cfg: Config, ctx: Context, paint: Paint, level: Level, message: string,
                            callFields: seq<Field>)
    requires ctx.defaultFormatter == CorrectedDefault(ctx.term, paint)
    requires l.formatter.None? && l.sink.None? && Enabled(cfg, level)
    ensures var line := DefaultLayout(LogEntry(level, message, l.name, FieldSet(l.fields.items + callFields), ctx.now),
                                      CurrentTheme(cfg), ctx.term, paint);
      Log(l, cfg, ctx, level, message, callFields) == if ctx.console(line).Pass? then Written(line) else Fallback(FallbackLine(message))
  {
    var e := EntryFor(l, ctx, level, message, callFields);
    assert e == LogEntry(level, message, l.name, FieldSet(l.fields.items + callFields), ctx.now);
  }

  /** A sink that never raises, behind the corrected Default formatter,
      which never raises either: every enabled call is written. */
  lemma NonFailingSinkAlwaysWrites(l: Logger, cfg: Config, ctx: Context, paint: Paint, level: Level, message: string,
                                   callFields: seq<Field>)
    requires ctx.defaultFormatter == CorrectedDefault(ctx.term, paint)
    requires l.formatter.None? && l.sink.Some? && Enabled(cfg, level)
    requires forall line :: l.sink.value(line) == Pass
    ensures Log(l, cfg, ctx, level, message, callFields).Written?
  {
    var e := EntryFor(l, ctx, level, message, callFields);
    assert DefaultFormat(CurrentTheme(cfg), ctx.term, paint, e).Success?;
  }

  /** A logger built without a formatter uses `DefaultFormatter()`, which as
      written raises on every entry: nothing is ever written, and every
      enabled call ends in the fallback line, whatever the sink. */
  lemma AsWrittenDefaultNeverWrites(l: Logger, cfg: Config, ctx: Context, level: Level, message: string, callFields: seq<Field>)
    requires ctx.defaultFormatter == AsWrittenDefault(ctx.term)
    requires l.formatter.None?
    ensures Log(l, cfg, ctx, level, message, callFields) ==
      if Enabled(cfg, level) then Fallback(FallbackLine(message)) else Filtered
  {
    DefaultFormatAsWrittenRaises(CurrentTheme(cfg), ctx.term, EntryFor(l, ctx, level, message, callFields));
  }

  /** Whatever the formatter and sink do, a failing call reports the message
      itself, and only the level decides whether anything happens. */
  lemma FailureIsContained(l: Logger, l': Logger, cfg: Config, ctx: Context, level: Level, message: string, callFields: seq<Field>)
    ensures Log(l, cfg, ctx, level, message, callFields).Filtered? == Log(l', cfg, ctx, level, message, callFields).Filtered?
    ensures Log(l, cfg, ctx, level, message, callFields) in {Filtered, Fallback(FallbackLine(message))}
      || Log(l, cfg, ctx, level, message, callFields).Written?
  {
  }

  // ---------------------------------------------------------------------
  // Printf-style calls
  // ---------------------------------------------------------------------

  /** `<level>_f(format_str, *args)`: the level is checked before anything
      else; the interpolation runs only for an enabled level, and an
      exception it raises is not caught. */
  function LogF(l: Logger, cfg: Config, ctx: Context, level: Level, formatStr: string, args: seq<Value>,
                interpolate: Interpolation): (r: Emission)
    ensures r.Filtered? <==> !Enabled(cfg, level)
    ensures r.Raised? <==> Enabled(cfg, level) && interpolate(formatStr, args).Failure?
    ensures r.Raised? ==> r.fault == interpolate(formatStr, args).error
    ensures Enabled(cfg, level) && interpolate(formatStr, args).Success? ==>
      r == Log(l, cfg, ctx, level, interpolate(formatStr, args).value, [])
  {
    if !Enabled(cfg, level) then Filtered
    else
      match interpolate(formatStr, args)
      case Failure(f) => Raised(f)
      case Success(message) => Log(l, cfg, ctx, level, message, [])
  }

  /** As written, an interpolation that raises TypeError or ValueError
      (a wrong argument count or type) escapes the printf call, where `fmt`
      would have produced the error marker. */
  lemma LogFLetsFormatErrorEscape(l: Logger, cfg: Config, ctx: Context, level: Level, formatStr: string,
                                  args: seq<Value>, interpolate: Interpolation)
    requires Enabled(cfg, level)
    requires interpolate(formatStr, args).Failure? && Recoverable(interpolate(formatStr, args).error)
    ensures LogF(l, cfg, ctx, level, formatStr, args, interpolate) == Raised(interpolate(formatStr, args).error)
    ensures Fmt(formatStr, args, interpolate) == Success(FormatErrorMarker)
  {
  }

  /** A printf call that interpolates through `fmt`: a format error becomes
      the error marker as the message, and only an exception `fmt` does not
      catch escapes. */
  function LogFMarked(l: Logger, cfg: Config, ctx: Context, level: Level, formatStr: string, args: seq<Value>,
                      interpolate: Interpolation): (r: Emission)
    ensures r.Filtered? <==> !Enabled(cfg, level)
    ensures r.Raised? <==> Enabled(cfg, level) && Fmt(formatStr, args, interpolate).Failure?
    ensures !r.Raised? && !r.Filtered? ==> r == Log(l, cfg, ctx, level, Fmt(formatStr, args, interpolate).value, [])
  {
    if !Enabled(cfg, level) then Filtered
    else
      match Fmt(formatStr, args, interpolate)
      case Failure(f) => Raised(f)
      case Success(message) => Log(l, cfg, ctx, level, message, [])
  }

  /** Through `fmt`, a format error never escapes: the call logs the error
      marker, and a successful interpolation is logged as before. */
  lemma LogFMarkedRecovers(l: Logger, cfg: Config, ctx: Context, level: Level, formatStr: string,
                           args: seq<Value>, interpolate: Interpolation)
    requires interpolate(formatStr, args).Success? || Recoverable(interpolate(formatStr, args).error)
    ensures !LogFMarked(l, cfg, ctx, level, formatStr, args, interpolate).Raised?
    ensures Enabled(cfg, level) && interpolate(formatStr, args).Failure? ==>
      LogFMarked(l, cfg, ctx, level, formatStr, args, interpolate) == Log(l, cfg, ctx, level, FormatErrorMarker, [])
    ensures interpolate(formatStr, args).Success? ==>
      LogFMarked(l, cfg, ctx, level, formatStr, args, interpolate) == LogF(l, cfg, ctx, level, formatStr, args, interpolate)
  {
  }

  /** A filtered printf call does not depend on its interpolation at all:
      one that would raise behaves like one that would succeed. */
  lemma LogFSkipsInterpolation(l: Logger, cfg: Config, ctx: Context, level: Level, formatStr: string, args: seq<Value>,
                               i1: Interpolation, i2: Interpolation)
    requires !Enabled(cfg, level)
    ensures LogF(l, cfg, ctx, level, formatStr, args, i1) == LogF(l, cfg, ctx, level, formatStr, args, i2) == Filtered
  {
  }

  // ---------------------------------------------------------------------
  // The logging methods
  // ---------------------------------------------------------------------

  /** One of the 36 logging methods: a level, the full or the three-letter
      spelling, plain or printf-style. */
  datatype LogMethod = LogMethod(level: Level, short: bool, printf: bool)

  /** The method's Python name, e.g. `warn`, `wrn`, `warn_f`, `wrn_f`. */
  function MethodName(m: LogMethod): string
  {
    (if m.short then ShortName(m.level) else FullName(m.level)) + (if m.printf then "_f" else "")
  }

  /** The method a name denotes, if any. */
  function LookupMethod(name: string): (r: Option<LogMethod>)
    ensures r.Some? ==> MethodName(r.value) == name
  {
    var printf := |name| >= 2 && name[|name| - 2..] == "_f";
    var stem := if printf then name[..|name| - 2] else name;
    assert printf ==> stem + "_f" == name;
    match ParseFullName(stem)
    case Some(lvl) => Some(LogMethod(lvl, false, printf))
    case None =>
      match ParseShortName(stem)
      case Some(lvl) => Some(LogMethod(lvl, true, printf))
      case None => None
  }

  /** Every method has a distinct name: the names read back as their methods. */
  lemma MethodNamesRoundTrip(m: LogMethod)
    ensures LookupMethod(MethodName(m)) == Some(m)
  {
    var stem := if m.short then ShortName(m.level) else FullName(m.level);
    var name := MethodName(m);
    NamesRoundTrip(m.level);
    if m.printf {
      assert name[|name| - 2..] == "_f" && name[..|name| - 2] == stem;
    } else {
      assert name == stem;
      assert name[|name| - 2] != '_';
      assert name[|name| - 2..] != "_f";
    }
    if m.short {
      assert ParseFullName(stem).None?;
    }
  }

  /** Calling a method: the plain ones log the message with the call's
      fields; the printf ones interpolate the arguments first. */
  function Call(l: Logger, cfg: Config, ctx: Context, m: LogMethod, text: string, callFields: seq<Field>, args: seq<Value>,
                interpolate: Interpolation): (r: Emission)
    ensures !m.printf ==> !r.Raised?
    ensures r.Filtered? <==> !Enabled(cfg, m.level)
  {
    if m.printf then LogF(l, cfg, ctx, m.level, text, args, interpolate)
    else Log(l, cfg, ctx, m.level, text, callFields)
  }

  /** A call by method name, `logger.<name>(...)`, for the 36 logging
      methods: the name selects the method. `None` means the name is not one
      of them (another attribute of the logger, or none at all). */
  function CallNamed(l: Logger, cfg: Config, ctx: Context, name: string, text: string, callFields: seq<Field>,
                     args: seq<Value>, interpolate: Interpolation): (r: Option<Emission>)
    ensures r.None? <==> LookupMethod(name).None?
    ensures r.Some? ==>
      r.value == Call(l, cfg, ctx, LookupMethod(name).value, text, callFields, args, interpolate)
  {
    match LookupMethod(name)
    case None => None
    case Some(m) => Some(Call(l, cfg, ctx, m, text, callFields, args, interpolate))
  }

  /** Each three-letter alias behaves exactly as its full-name method: the
      two names, e.g. `wrn` and `warn` (or `wrn_f` and `warn_f`), select
      methods of the same level and kind. Also, the methods of a level differ
      from each other only in interpolation. */
  lemma AliasesAgree(l: Logger, cfg: Config, ctx: Context, lvl: Level, printf: bool, text: string, callFields: seq<Field>,
                     args: seq<Value>, interpolate: Interpolation)
    ensures CallNamed(l, cfg, ctx, MethodName(LogMethod(lvl, true, printf)), text, callFields, args, interpolate).Some?
    ensures CallNamed(l, cfg, ctx, MethodName(LogMethod(lvl, true, printf)), text, callFields, args, interpolate)
         == CallNamed(l, cfg, ctx, MethodName(LogMethod(lvl, false, printf)), text, callFields, args, interpolate)
    ensures interpolate(text, args) == Success(text) ==>
      Call(l, cfg, ctx, LogMethod(lvl, false, true), text, callFields, args, interpolate)
        == Call(l, cfg, ctx, LogMethod(lvl, false, false), text, [], args, interpolate)
  {
    MethodNamesRoundTrip(LogMethod(lvl, true, printf));
    MethodNamesRoundTrip(LogMethod(lvl, false, printf));
  }
}
