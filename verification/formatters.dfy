/** Formatters (redlog/formatters.py) and the log entry they render
    (redlog/core.py `LogEntry`). Each formatter is a pure function of the
    entry and, where it colours, the theme and the terminal.

    The Default and Timestamped formatters colour the source tag and (Default)
    the level tag with three arguments, text, foreground and background, but
    `colorize` in utils.py takes two, so as written those calls raise
    TypeError. `DefaultFormatAsWritten` and `TimestampedFormatAsWritten` model
    that. The layouts themselves take the three-argument colouring as a
    parameter, `Paint`, whose colour-off case `Unpainted` is the identity;
    the two-argument calls use `Utils.Colorize` as written. */
module Formatters {
  import opened Wrappers
  import opened Text
  import opened Utils
  import opened Fields
  import opened Levels
  import opened Themes

  /** The clock reading taken for an entry, seen only through the two texts
      the formatters print: `strftime("%H:%M:%S")` and `isoformat()`. */
  datatype Timestamp = Timestamp(clock: string, iso: string)

  datatype LogEntry = LogEntry(level: Level, message: string, source: string, fields: FieldSet, timestamp: Timestamp)

  /** A formatter: renders an entry, or raises. */
  type FormatFn = LogEntry -> Result<string, Fault>

  /** Colouring by foreground and background colour. */
  type Paint = (string, Color, Color) -> string

  const Unpainted: Paint := (text: string, fg: Color, bg: Color) => text

  /** `_level_color`. */
  function LevelColor(t: Theme, l: Level): Color
  {
    match l
    case Critical => t.criticalColor
    case Error => t.errorColor
    case Warn => t.warnColor
    case Info => t.infoColor
    case Verbose => t.verboseColor
    case Trace => t.traceColor
    case Debug => t.debugColor
    case Pedantic => t.pedanticColor
    case Annoying => t.annoyingColor
  }

  /** `_level_bg_color`. */
  function LevelBgColor(t: Theme, l: Level): Color
  {
    match l
    case Critical => t.criticalBg
    case Error => t.errorBg
    case Warn => t.warnBg
    case Info => t.infoBg
    case Verbose => t.verboseBg
    case Trace => t.traceBg
    case Debug => t.debugBg
    case Pedantic => t.pedanticBg
    case Annoying => t.annoyingBg
  }

  // ---------------------------------------------------------------------
  // Default formatter
  // ---------------------------------------------------------------------

  /** `_get_max_level_text_width`: the widest bracketed short name over the
      given levels, scanned in order. */
  function MaxTagWidth(levels: seq<Level>): nat
  {
    if |levels| == 0 then 0
    else Max(MaxTagWidth(levels[..|levels| - 1]), |ShortName(levels[|levels| - 1])| + 2) as nat
  }

  /** Every short name has three letters, so the widest tag is always five. */
  lemma {:induction false} MaxTagWidthIsFive(levels: seq<Level>)
    requires |levels| > 0
    ensures MaxTagWidth(levels) == 5
  {
    if |levels| > 1 {
      MaxTagWidthIsFive(levels[..|levels| - 1]);
    }
  }

  /** The source column: the bracketed source followed by padding up to the
      source width, or one space if it does not fit; only spaces if there is
      no source. */
  function SourceColumn(t: Theme, source: string, paint: Paint): string
  {
    if source != "" then
      var tag := "[" + source + "]";
      var padding := t.sourceWidth - |tag|;
      paint(tag, t.sourceColor, t.sourceBg) + (if padding > 0 then Spaces(padding) else " ")
    else Spaces(t.sourceWidth)
  }

  /** The level tag, padded to the widest tag when the theme asks for it. */
  function LevelTag(t: Theme, l: Level): string
  {
    var tag := "[" + ShortName(l) + "]";
    if t.padLevelText then
      var padding := MaxTagWidth(AllLevels) - |tag|;
      if padding > 0 then tag + Spaces(padding) else tag
    else tag
  }

  /** The coloured message, padded by its raw length to the fixed width with
      at least one space, or unpadded when the width is not positive. */
  function MessageColumn(t: Theme, term: Terminal, message: string): string
  {
    var colored := Colorize(term, message, Code(t.messageColor));
    if t.messageFixedWidth > 0 then colored + Spaces(Max(1, t.messageFixedWidth - |message|))
    else colored
  }

  /** `key=value`, each side coloured on its own. */
  function FieldText(t: Theme, term: Terminal, f: Field): string
  {
    Colorize(term, f.key, Code(t.fieldKeyColor)) + "=" + Colorize(term, f.value, Code(t.fieldValueColor))
  }

  function FieldTexts(t: Theme, term: Terminal, items: seq<Field>): (r: seq<string>)
    ensures |r| == |items|
  {
    seq(|items|, i requires 0 <= i < |items| => FieldText(t, term, items[i]))
  }

  /** One space and the space-joined fields, or nothing without fields. */
  function FieldSuffix(t: Theme, term: Terminal, fields: FieldSet): string
  {
    if Empty(fields) then "" else " " + Join(" ", FieldTexts(t, term, fields.items))
  }

  /** Everything the Default formatter prints before the fields. */
  function DefaultPrefix(e: LogEntry, t: Theme, term: Terminal, paint: Paint): string
  {
    SourceColumn(t, e.source, paint)
      + paint(LevelTag(t, e.level), LevelColor(t, e.level), LevelBgColor(t, e.level))
      + " " + MessageColumn(t, term, e.message)
  }

  /** `DefaultFormatter.format` with the three-argument colouring supplied. */
  function DefaultLayout(e: LogEntry, t: Theme, term: Terminal, paint: Paint): string
  {
    DefaultPrefix(e, t, term, paint) + FieldSuffix(t, term, e.fields)
  }

  /** `DefaultFormatter.format` as written, step by step: the source tag
      (when there is a source) and then the level tag are each coloured by a
      `colorize` call with two colour codes; the steps after them colour with
      one code, as `Colorize`. */
  function DefaultFormatAsWritten(t: Theme, term: Terminal, e: LogEntry): (r: Result<string, Fault>)
    ensures r.Failure? ==> r.error == TypeError
  {
    var sourceStep: Result<string, Fault> :=
      if e.source != "" then
        var tag := "[" + e.source + "]";
        var padding := t.sourceWidth - |tag|;
        match ColorizeCall(term, tag, [Code(t.sourceColor), Code(t.sourceBg)])
        case Failure(f) => Failure(f)
        case Success(c) => Success(c + (if padding > 0 then Spaces(padding) else " "))
      else Success(Spaces(t.sourceWidth));
    match sourceStep
    case Failure(f) => Failure(f)
    case Success(src) =>
      match ColorizeCall(term, LevelTag(t, e.level), [Code(LevelColor(t, e.level)), Code(LevelBgColor(t, e.level))])
      case Failure(f) => Failure(f)
      case Success(lvl) => Success(src + lvl + " " + MessageColumn(t, term, e.message) + FieldSuffix(t, term, e.fields))
  }

  /** As written, the Default formatter raises TypeError for every entry:
      the level tag's two-code call is reached on every path, and the source
      tag's, when present, raises before it. */
  lemma DefaultFormatAsWrittenRaises(t: Theme, term: Terminal, e: LogEntry)
    ensures DefaultFormatAsWritten(t, term, e) == Failure(TypeError)
  {
  }

  /** The Default formatter with a working three-argument colouring: it
      never fails, and every field's text shows up after the prefix, in the
      fields suffix. */
  function DefaultFormat(t: Theme, term: Terminal, paint: Paint, e: LogEntry): (r: Result<string, Fault>)
    ensures r.Success?
    ensures |DefaultPrefix(e, t, term, paint)| <= |r.value|
    ensures r.value[..|DefaultPrefix(e, t, term, paint)|] == DefaultPrefix(e, t, term, paint)
    ensures forall i :: 0 <= i < Len(e.fields) ==>
      Contains(r.value[|DefaultPrefix(e, t, term, paint)|..], FieldText(t, term, e.fields.items[i]))
  {
    forall i | 0 <= i < Len(e.fields)
      ensures Contains(DefaultLayout(e, t, term, paint)[|DefaultPrefix(e, t, term, paint)|..],
                       FieldText(t, term, e.fields.items[i]))
    {
      DefaultShowsField(e, t, term, paint, i);
    }
    Success(DefaultLayout(e, t, term, paint))
  }

  /** The line is the prefix followed by the fields suffix. */
  lemma DefaultSuffix(e: LogEntry, t: Theme, term: Terminal, paint: Paint)
    ensures var line := DefaultLayout(e, t, term, paint);
      var n := |DefaultPrefix(e, t, term, paint)|;
      n <= |line| && line[n..] == FieldSuffix(t, term, e.fields)
  {
  }

  /** Each field's text occurs in the fields suffix, after the message. */
  lemma DefaultShowsField(e: LogEntry, t: Theme, term: Terminal, paint: Paint, i: nat)
    requires i < Len(e.fields)
    ensures var line := DefaultLayout(e, t, term, paint);
      var n := |DefaultPrefix(e, t, term, paint)|;
      n <= |line| && Contains(line[n..], FieldText(t, term, e.fields.items[i]))
  {
    var texts := FieldTexts(t, term, e.fields.items);
    DefaultSuffix(e, t, term, paint);
    JoinContains(" ", texts, i);
    ContainsInfix(" ", Join(" ", texts), "", texts[i]);
    assert FieldSuffix(t, term, e.fields) == " " + Join(" ", texts) + "";
  }

  /** With colour off and no space in any key or value, the fields suffix
      reads back as the fields, one `key=value` each, in order and with
      duplicates kept: splitting it at spaces gives exactly the plain texts. */
  lemma DefaultFieldsRoundTrip(e: LogEntry, t: Theme, term: Terminal, paint: Paint)
    requires !ShouldUseColor(term) && !Empty(e.fields)
    requires forall i :: 0 <= i < Len(e.fields) ==> ' ' !in e.fields.items[i].key && ' ' !in e.fields.items[i].value
    ensures var line := DefaultLayout(e, t, term, paint);
      var n := |DefaultPrefix(e, t, term, paint)|;
      n < |line| && line[n] == ' ' && Split(line[n + 1..], ' ') == PlainFieldTexts(e.fields.items)
  {
    var items := e.fields.items;
    var texts := FieldTexts(t, term, items);
    var line := DefaultLayout(e, t, term, paint);
    var n := |DefaultPrefix(e, t, term, paint)|;
    DefaultSuffix(e, t, term, paint);
    assert texts == PlainFieldTexts(items);
    forall i | 0 <= i < |texts| ensures ' ' !in texts[i] {
      assert texts[i] == items[i].key + "=" + items[i].value;
    }
    SplitJoin(texts, ' ');
    assert line[n..] == " " + Join(" ", texts);
    assert line[n + 1..] == line[n..][1..];
  }

  /** Source column: exactly `source_width` spaces without a source;
      otherwise the bracketed source, then spaces, `max(width, |tag| + 1)`
      wide in all, so at least one space follows the tag. */
  lemma SourceColumnLayout(t: Theme, source: string)
    ensures source == "" ==> SourceColumn(t, source, Unpainted) == Spaces(t.sourceWidth)
    ensures source != "" ==>
      var r := SourceColumn(t, source, Unpainted);
      && |r| == Max(t.sourceWidth, |source| + 3)
      && r[..|source| + 2] == "[" + source + "]"
      && AllSpaces(r[|source| + 2..])
  {
    if source != "" {
      var tag := "[" + source + "]";
      var r := SourceColumn(t, source, Unpainted);
      var pad := if t.sourceWidth - |tag| > 0 then Spaces(t.sourceWidth - |tag|) else " ";
      assert r == tag + pad;
      assert r[..|tag|] == tag;
      assert r[|tag|..] == pad;
    }
  }

  /** With padding on, the widest tag equals every tag's width, so no
      padding is ever added: the level column is always `[xxx]`. */
  lemma LevelTagIsBracketedShortName(t: Theme, l: Level)
    ensures LevelTag(t, l) == "[" + ShortName(l) + "]"
    ensures |LevelTag(t, l)| == 5
  {
    MaxTagWidthIsFive(AllLevels);
  }

  /** Message column: what the terminal shows is the message followed by
      `max(1, width - |message|)` spaces when the width is positive, and the
      bare message otherwise; colour codes never count against the width. */
  lemma MessageColumnLayout(t: Theme, term: Terminal, message: string)
    requires Esc !in message
    ensures t.messageFixedWidth > 0 ==>
      Visible(MessageColumn(t, term, message)) == message + Spaces(Max(1, t.messageFixedWidth - |message|))
    ensures t.messageFixedWidth <= 0 ==> Visible(MessageColumn(t, term, message)) == message
    ensures t.messageFixedWidth > 0 ==> MessageColumn(t, term, message)[|MessageColumn(t, term, message)| - 1] == ' '
  {
    var pad := Spaces(Max(1, t.messageFixedWidth - |message|));
    if t.messageFixedWidth > 0 {
      ColorizeShowsText(term, message, Code(t.messageColor), pad);
      VisiblePrefix(pad, "");
      assert pad + "" == pad;
    } else {
      ColorizeShowsText(term, message, Code(t.messageColor), "");
      assert Colorize(term, message, Code(t.messageColor)) + "" == Colorize(term, message, Code(t.messageColor));
      assert message + "" == message;
    }
  }

  /** A source that fits its column fills exactly `source_width` characters
      and, uncoloured, carries no escape character. */
  lemma SourceColumnFits(t: Theme, source: string)
    requires Esc !in source && |source| + 2 < t.sourceWidth
    ensures |SourceColumn(t, source, Unpainted)| == t.sourceWidth
    ensures Esc !in SourceColumn(t, source, Unpainted)
  {
    var r := SourceColumn(t, source, Unpainted);
    SourceColumnLayout(t, source);
    forall i | 0 <= i < |r| ensures r[i] != Esc {
      if source != "" && i < |source| + 2 {
        assert r[i] == r[..|source| + 2][i];
      } else if source != "" {
        assert r[i] == r[|source| + 2..][i - |source| - 2];
      }
    }
  }

  /** Alignment: when the source tag and the message fit their columns, the
      fields start at the same visible column on every line,
      `source_width + 6 + message_fixed_width`. */
  lemma DefaultAlignment(e: LogEntry, t: Theme, term: Terminal)
    requires Esc !in e.source && Esc !in e.message
    requires |e.source| + 2 < t.sourceWidth
    requires |e.message| < t.messageFixedWidth
    ensures |Visible(DefaultPrefix(e, t, term, Unpainted))| == t.sourceWidth + 6 + t.messageFixedWidth
  {
    var src := SourceColumn(t, e.source, Unpainted);
    var lvl := LevelTag(t, e.level);
    var msg := MessageColumn(t, term, e.message);
    SourceColumnFits(t, e.source);
    LevelTagIsBracketedShortName(t, e.level);
    ShortNameHasNoEscape(e.level);
    MessageColumnLayout(t, term, e.message);
    UnpaintedPrefix(e, t, term);
    VisibleLength(src + lvl + " ", msg);
  }

  lemma ShortNameHasNoEscape(l: Level)
    ensures Esc !in "[" + ShortName(l) + "]"
  {
  }

  /** Without colouring the prefix is the three columns side by side. */
  lemma UnpaintedPrefix(e: LogEntry, t: Theme, term: Terminal)
    ensures DefaultPrefix(e, t, term, Unpainted)
      == SourceColumn(t, e.source, Unpainted) + LevelTag(t, e.level) + " " + MessageColumn(t, term, e.message)
  {
  }

  lemma VisibleLength(head: string, rest: string)
    requires Esc !in head
    ensures |Visible(head + rest)| == |head| + |Visible(rest)|
  {
    VisiblePrefix(head, rest);
  }

  // ---------------------------------------------------------------------
  // Plain formatter
  // ---------------------------------------------------------------------

  function PlainFieldTexts(items: seq<Field>): (r: seq<string>)
    ensures |r| == |items|
  {
    seq(|items|, i requires 0 <= i < |items| => items[i].key + "=" + items[i].value)
  }

  /** `PlainFormatter.format`. */
  function PlainLayout(e: LogEntry): string
  {
    var head := if e.source != "" then ["[" + e.source + "]"] else [];
    var tail := if Empty(e.fields) then [] else [Join(" ", PlainFieldTexts(e.fields.items))];
    Join(" ", head + ["[" + ShortName(e.level) + "]", e.message] + tail)
  }

  /** A theme's layout switched off: no source or message column width. */
  function Unpadded(t: Theme): Theme
  {
    t.(sourceWidth := 0, messageFixedWidth := 0)
  }

  /** Plain output is the Default layout with no colour and no column
      padding: source tag, level tag, message and fields, separated by single
      spaces. */
  lemma PlainIsUnpaddedDefault(e: LogEntry, term: Terminal)
    ensures PlainLayout(e) == DefaultLayout(e, Unpadded(PlainTheme), term, Unpainted)
  {
    var t := Unpadded(PlainTheme);
    var lvl := "[" + ShortName(e.level) + "]";
    var head := if e.source != "" then ["[" + e.source + "]"] else [];
    var tail := if Empty(e.fields) then [] else [Join(" ", PlainFieldTexts(e.fields.items))];
    var pre := if e.source != "" then head[0] + " " else "";
    var post := if Empty(e.fields) then "" else " " + tail[0];
    LevelTagIsBracketedShortName(t, e.level);
    UnpaintedPrefix(e, t, term);
    PlainColumns(e, term);
    JoinOptional(" ", head, [lvl, e.message], tail);
    JoinPair(" ", lvl, e.message);
    Regroup(pre, lvl, " ", e.message, post);
  }

  /** Under the unpadded PLAIN theme the source column is the tag and one
      space, the message column is the bare message, and the fields suffix
      is one space and the plain `key=value` texts. */
  lemma PlainColumns(e: LogEntry, term: Terminal)
    ensures SourceColumn(Unpadded(PlainTheme), e.source, Unpainted)
      == if e.source != "" then "[" + e.source + "]" + " " else ""
    ensures MessageColumn(Unpadded(PlainTheme), term, e.message) == e.message
    ensures FieldSuffix(Unpadded(PlainTheme), term, e.fields)
      == if Empty(e.fields) then "" else " " + Join(" ", PlainFieldTexts(e.fields.items))
  {
    assert FieldTexts(Unpadded(PlainTheme), term, e.fields.items) == PlainFieldTexts(e.fields.items);
  }

  lemma JoinPair(sep: string, a: string, b: string)
    ensures Join(sep, [a, b]) == a + sep + b
  {
    JoinCons(sep, a, [b]);
    assert [a] + [b] == [a, b];
  }

  lemma Regroup(a: string, b: string, c: string, d: string, e: string)
    ensures a + (b + c + d) + e == a + b + c + d + e
  {
  }

  // ---------------------------------------------------------------------
  // Timestamped formatter
  // ---------------------------------------------------------------------

  /** The parts of a timestamped line around its (optional) source part. */
  function StampedLine(e: LogEntry, t: Theme, term: Terminal, source: seq<string>): string
  {
    var stamp := ["[" + e.timestamp.clock + "]"];
    var level := [Colorize(term, ShortName(e.level), Code(LevelColor(t, e.level))) + ":"];
    var message := [Colorize(term, e.message, Code(t.messageColor))];
    var fields := if Empty(e.fields) then [] else ["[" + Join(", ", FieldTexts(t, term, e.fields.items)) + "]"];
    Join(" ", stamp + source + level + message + fields)
  }

  /** `TimestampedFormatter.format` with the three-argument colouring supplied. */
  function TimestampedLayout(e: LogEntry, t: Theme, term: Terminal, paint: Paint): string
  {
    StampedLine(e, t, term, if e.source != "" then [paint(e.source, t.sourceColor, t.sourceBg)] else [])
  }

  /** `TimestampedFormatter.format` as written: the source, only when there
      is one, is coloured by a `colorize` call with two colour codes, so the
      call raises TypeError exactly when the entry has a source; without one
      it prints the layout, whatever the three-argument colouring would have
      been. */
  function TimestampedFormatAsWritten(t: Theme, term: Terminal, e: LogEntry): (r: Result<string, Fault>)
    ensures r.Failure? <==> e.source != ""
    ensures r.Failure? ==> r.error == TypeError
    ensures r.Success? ==> forall paint :: r.value == TimestampedLayout(e, t, term, paint)
  {
    var sourceStep: Result<seq<string>, Fault> :=
      if e.source != "" then
        match ColorizeCall(term, e.source, [Code(t.sourceColor), Code(t.sourceBg)])
        case Failure(f) => Failure(f)
        case Success(c) => Success([c])
      else Success([]);
    match sourceStep
    case Failure(f) => Failure(f)
    case Success(source) => Success(StampedLine(e, t, term, source))
  }

  function TimestampedFormat(t: Theme, term: Terminal, paint: Paint, e: LogEntry): (r: Result<string, Fault>)
    ensures r.Success?
  {
    Success(TimestampedLayout(e, t, term, paint))
  }

  /** The timestamped line spelled out: bracketed clock, the source if any,
      `lvl:`, the message and, only with fields, the comma-joined fields in
      one bracket; all separated by single spaces. */
  lemma TimestampedShape(e: LogEntry, t: Theme, term: Terminal, paint: Paint)
    ensures TimestampedLayout(e, t, term, paint) ==
      "[" + e.timestamp.clock + "]" + " "
      + (if e.source != "" then paint(e.source, t.sourceColor, t.sourceBg) + " " else "")
      + Colorize(term, ShortName(e.level), Code(LevelColor(t, e.level))) + ":" + " "
      + Colorize(term, e.message, Code(t.messageColor))
      + (if Empty(e.fields) then "" else " " + ("[" + Join(", ", FieldTexts(t, term, e.fields.items)) + "]"))
  {
    JoinStampedParts(
      "[" + e.timestamp.clock + "]",
      e.source != "", paint(e.source, t.sourceColor, t.sourceBg),
      Colorize(term, ShortName(e.level), Code(LevelColor(t, e.level))) + ":",
      Colorize(term, e.message, Code(t.messageColor)),
      !Empty(e.fields), "[" + Join(", ", FieldTexts(t, term, e.fields.items)) + "]");
  }

  /** The space-joined parts of a timestamped line, the source and fields
      parts being optional. */
  lemma JoinStampedParts(stamp: string, hasSource: bool, source: string, level: string, message: string,
                         hasFields: bool, fields: string)
    ensures Join(" ", [stamp] + (if hasSource then [source] else []) + [level] + [message]
                      + (if hasFields then [fields] else []))
      == stamp + " " + (if hasSource then source + " " else "") + level + " " + message
         + (if hasFields then " " + fields else "")
  {
    var src := if hasSource then [source] else [];
    var fld := if hasFields then [fields] else [];
    var rest := src + [level, message] + fld;
    StampedPartsRegrouped(stamp, src, level, message, fld);
    JoinCons(" ", stamp, rest);
    JoinOptional(" ", src, [level, message], fld);
    JoinPair(" ", level, message);
    Regroup(stamp + " ", if hasSource then source + " " else "", level + " " + message, "",
            if hasFields then " " + fields else "");
  }

  lemma StampedPartsRegrouped(stamp: string, src: seq<string>, level: string, message: string, fld: seq<string>)
    ensures [stamp] + src + [level] + [message] + fld == [stamp] + (src + [level, message] + fld)
  {
  }

  // ---------------------------------------------------------------------
  // JSON formatter
  // ---------------------------------------------------------------------

  /** A JSON value as the formatter builds it: a string, or the `fields`
      object of string members. The `json.dumps` rendering is not modelled. */
  datatype JsonValue = JString(text: string) | JObject(members: seq<(string, string)>)

  /** Position of key `k` in a dictionary kept in insertion order, or -1. */
  function KeyIndex(d: seq<(string, string)>, k: string): (i: int)
    ensures -1 <= i < |d|
    ensures i >= 0 ==> d[i].0 == k
    ensures i == -1 ==> forall j :: 0 <= j < |d| ==> d[j].0 != k
  {
    if |d| == 0 then -1
    else if d[0].0 == k then 0
    else
      var j := KeyIndex(d[1..], k);
      if j < 0 then -1 else j + 1
  }

  /** `d[k] = v` on a Python dict: an existing key keeps its position and
      takes the new value; a new key goes at the end. */
  function Assign(d: seq<(string, string)>, k: string, v: string): seq<(string, string)>
  {
    var i := KeyIndex(d, k);
    if i >= 0 then d[i := (k, v)] else d + [(k, v)]
  }

  /** The `fields` object: each field assigned in order. */
  function FieldsObject(items: seq<Field>): seq<(string, string)>
  {
    if |items| == 0 then []
    else Assign(FieldsObject(items[..|items| - 1]), items[|items| - 1].key, items[|items| - 1].value)
  }

  /** `JSONFormatter.format`, as the key/value structure that is dumped. */
  function JsonFormat(e: LogEntry): (r: seq<(string, JsonValue)>)
    ensures |r| == if Empty(e.fields) then 4 else 5
    ensures r[0] == ("timestamp", JString(e.timestamp.iso))
    ensures r[1] == ("level", JString(FullName(e.level)))
    ensures r[2] == ("source", JString(e.source)) && r[3] == ("message", JString(e.message))
    ensures !Empty(e.fields) ==> r[4] == ("fields", JObject(FieldsObject(e.fields.items)))
  {
    LowerEnumNameIsFullName(e.level);
    [ ("timestamp", JString(e.timestamp.iso)),
      ("level", JString(Lower(EnumName(e.level)))),
      ("source", JString(e.source)),
      ("message", JString(e.message)) ]
    + (if Empty(e.fields) then [] else [("fields", JObject(FieldsObject(e.fields.items)))])
  }

  function KeySet(d: seq<(string, string)>): set<string>
  {
    set i | 0 <= i < |d| :: d[i].0
  }

  function FieldKeySet(items: seq<Field>): set<string>
  {
    set i | 0 <= i < |items| :: items[i].key
  }

  predicate DistinctKeys(d: seq<(string, string)>)
  {
    forall i, j :: 0 <= i < j < |d| ==> d[i].0 != d[j].0
  }

  /** The value of the last field with key `k`. */
  function LastValue(items: seq<Field>, k: string): string
    requires k in FieldKeySet(items)
  {
    var n := |items| - 1;
    if items[n].key == k then items[n].value
    else
      assert k in FieldKeySet(items[..n]) by {
        var i :| 0 <= i < |items| && items[i].key == k;
        assert items[..n][i].key == k;
      }
      LastValue(items[..n], k)
  }

  /** The position of the first field with key `k`. */
  function FirstIndex(items: seq<Field>, k: string): (i: nat)
    requires k in FieldKeySet(items)
    ensures i < |items| && items[i].key == k
    ensures forall j :: 0 <= j < i ==> items[j].key != k
  {
    if items[0].key == k then 0
    else
      assert k in FieldKeySet(items[1..]) by {
        var i :| 0 <= i < |items| && items[i].key == k;
        assert items[1..][i - 1].key == k;
      }
      1 + FirstIndex(items[1..], k)
  }

  /** Each entry holds the value of the last field with its key. */
  predicate ValuesAreLast(d: seq<(string, string)>, items: seq<Field>)
  {
    forall i :: 0 <= i < |d| ==> d[i].0 in FieldKeySet(items) && d[i].1 == LastValue(items, d[i].0)
  }

  /** Entries appear in the order of each key's first field. */
  predicate OrderedByFirst(d: seq<(string, string)>, items: seq<Field>)
  {
    forall i, j :: 0 <= i < j < |d| && d[i].0 in FieldKeySet(items) && d[j].0 in FieldKeySet(items) ==>
      FirstIndex(items, d[i].0) < FirstIndex(items, d[j].0)
  }

  /** `d` is the dictionary built from `items`: one entry per distinct key,
      entries in order of each key's first field, each holding the value of
      that key's last field. */
  predicate DictOf(d: seq<(string, string)>, items: seq<Field>)
  {
    && DistinctKeys(d)
    && KeySet(d) == FieldKeySet(items)
    && ValuesAreLast(d, items)
    && OrderedByFirst(d, items)
  }

  /** The JSON `fields` object follows dict semantics: duplicate keys keep
      the position of their first occurrence and the value written last. */
  lemma {:induction false} FieldsObjectIsDict(items: seq<Field>)
    ensures DictOf(FieldsObject(items), items)
  {
    if |items| > 0 {
      var n := |items| - 1;
      FieldsObjectIsDict(items[..n]);
      assert items == items[..n] + [items[n]];
      AssignKeepsDict(FieldsObject(items[..n]), items[..n], items[n]);
    }
  }

  /** Assigning one more field to the dictionary of `pre` gives the
      dictionary of `pre` and that field. */
  lemma AssignKeepsDict(d: seq<(string, string)>, pre: seq<Field>, f: Field)
    requires DictOf(d, pre)
    ensures DictOf(Assign(d, f.key, f.value), pre + [f])
  {
    FieldKeySetSnoc(pre, f);
    AssignDistinct(d, f.key, f.value);
    AssignKeySet(d, f.key, f.value);
    AssignValues(d, pre, f);
    AssignOrder(d, pre, f);
  }

  lemma FieldKeySetSnoc(pre: seq<Field>, f: Field)
    ensures FieldKeySet(pre + [f]) == FieldKeySet(pre) + {f.key}
  {
    var items := pre + [f];
    forall k | k in FieldKeySet(items) ensures k in FieldKeySet(pre) + {f.key} {
      var i :| 0 <= i < |items| && items[i].key == k;
      if i < |pre| { assert pre[i].key == k; }
    }
    forall k | k in FieldKeySet(pre) ensures k in FieldKeySet(items) {
      var i :| 0 <= i < |pre| && pre[i].key == k;
      assert items[i].key == k;
    }
    assert items[|pre|].key == f.key;
  }

  lemma AssignDistinct(d: seq<(string, string)>, k: string, v: string)
    requires DistinctKeys(d)
    ensures DistinctKeys(Assign(d, k, v))
  {
  }

  lemma AssignKeySet(d: seq<(string, string)>, k: string, v: string)
    ensures KeySet(Assign(d, k, v)) == KeySet(d) + {k}
  {
    var d' := Assign(d, k, v);
    var i := KeyIndex(d, k);
    forall x | x in KeySet(d') ensures x in KeySet(d) + {k} {
      var j :| 0 <= j < |d'| && d'[j].0 == x;
      if j < |d| && j != i { assert d[j].0 == x; }
    }
    forall x | x in KeySet(d) ensures x in KeySet(d') {
      var j :| 0 <= j < |d| && d[j].0 == x;
      assert d'[j].0 == x;
    }
    if i >= 0 {
      assert d'[i].0 == k;
    } else {
      assert d'[|d|].0 == k;
    }
  }

  /** The last field decides the value of its key; other keys keep theirs. */
  lemma LastValueSnoc(pre: seq<Field>, f: Field, k: string)
    requires k in FieldKeySet(pre + [f])
    ensures k == f.key ==> LastValue(pre + [f], k) == f.value
    ensures k != f.key ==> k in FieldKeySet(pre) && LastValue(pre + [f], k) == LastValue(pre, k)
  {
    FieldKeySetSnoc(pre, f);
    assert (pre + [f])[..|pre|] == pre;
  }

  lemma AssignValues(d: seq<(string, string)>, pre: seq<Field>, f: Field)
    requires DictOf(d, pre)
    ensures ValuesAreLast(Assign(d, f.key, f.value), pre + [f])
  {
    var d' := Assign(d, f.key, f.value);
    var i := KeyIndex(d, f.key);
    FieldKeySetSnoc(pre, f);
    forall j | 0 <= j < |d'|
      ensures d'[j].0 in FieldKeySet(pre + [f]) && d'[j].1 == LastValue(pre + [f], d'[j].0)
    {
      if (i >= 0 && j == i) || j == |d| {
        LastValueSnoc(pre, f, f.key);
      } else {
        assert d'[j] == d[j];
        LastValueSnoc(pre, f, d[j].0);
      }
    }
  }

  /** Adding a field does not move the first field of any key already
      present; a new key's first field is the added one. */
  lemma FirstIndexSnoc(pre: seq<Field>, f: Field, k: string)
    requires k in FieldKeySet(pre + [f])
    ensures k in FieldKeySet(pre) ==> FirstIndex(pre + [f], k) == FirstIndex(pre, k)
    ensures k !in FieldKeySet(pre) ==> FirstIndex(pre + [f], k) == |pre|
  {
    var items := pre + [f];
    var a := FirstIndex(items, k);
    assert forall j :: 0 <= j < |pre| ==> items[j] == pre[j];
    if k in FieldKeySet(pre) {
      var b := FirstIndex(pre, k);
      assert items[b].key == k;
    } else {
      assert items[|pre|] == f;
    }
  }

  lemma AssignOrder(d: seq<(string, string)>, pre: seq<Field>, f: Field)
    requires DictOf(d, pre)
    ensures OrderedByFirst(Assign(d, f.key, f.value), pre + [f])
  {
    var d' := Assign(d, f.key, f.value);
    var items := pre + [f];
    var i := KeyIndex(d, f.key);
    FieldKeySetSnoc(pre, f);
    forall a, b | 0 <= a < b < |d'| && d'[a].0 in FieldKeySet(items) && d'[b].0 in FieldKeySet(items)
      ensures FirstIndex(items, d'[a].0) < FirstIndex(items, d'[b].0)
    {
      assert d'[a].0 == d[a].0 && d'[a].0 in KeySet(d);
      FirstIndexSnoc(pre, f, d'[a].0);
      FirstIndexSnoc(pre, f, d'[b].0);
      if b < |d| {
        assert d'[b].0 == d[b].0;
      } else {
        assert d'[b].0 == f.key && f.key !in KeySet(d);
      }
    }
  }
}
