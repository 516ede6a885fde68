/** Utility functions of the library (redlog/utils.py): universal
    stringification of field values, the environment rule that decides whether
    colour is used, ANSI colouring, and the error contract of printf-style
    formatting. The process environment and the TTY query are parameters here. */
module Utils {
  import opened Wrappers
  import opened Text

  /** The exceptions the pipeline can meet. `OSError` stands for the whole
      OSError family (IOError, FileNotFoundError, PermissionError and the
      rest), which an `except OSError` clause catches together. */
  datatype Fault = TypeError | ValueError | OSError | OtherError(name: string)

  // ---------------------------------------------------------------------
  // stringify
  // ---------------------------------------------------------------------

  /** A value a caller may attach to a field. `Float` carries the text that
      `str()` gives for it (float rendering is not modelled); `Other` is an
      object of any other type, carrying what its `__str__` returns, or
      `None` when `__str__` raises. */
  datatype Value =
    | Null
    | Str(s: string)
    | Int(i: int)
    | Bool(b: bool)
    | Float(repr: string)
    | Other(str: Option<string>)

  const Unprintable: string := "[unprintable]"

  /** Universal stringification: one text per value; an integer is written
      in its canonical decimal form. The interpreter's limit on the digits
      of an integer-to-text conversion is not modelled, so integers never
      fail here. */
  function Stringify(v: Value): (r: string)
    ensures v.Null? ==> r == "null"
    ensures v.Str? ==> r == v.s
    ensures v.Int? ==> CanonicalDecimal(r) && ParseInt(r) == Some(v.i)
    ensures v.Bool? ==> (r == "True" <==> v.b) && (r == "False" <==> !v.b)
    ensures v.Float? ==> r == v.repr
    ensures v.Other? ==> r == v.str.GetOr(Unprintable)
  {
    match v
    case Null => "null"
    case Str(s) => s
    case Int(i) => IntToStringRoundTrip(i); IntToString(i)
    case Bool(b) => if b then "True" else "False"
    case Float(repr) => repr
    case Other(str) =>
      match str
      case Some(text) => text
      case None => Unprintable
  }

  // ---------------------------------------------------------------------
  // Colour decision
  // ---------------------------------------------------------------------

  /** What the colour decision looks at: the process environment and whether
      standard error is an interactive terminal. */
  datatype Terminal = Terminal(env: map<string, string>, isTty: bool)

  /** `os.getenv(name)` is truthy: the variable is present and not empty. */
  predicate IsSet(env: map<string, string>, name: string)
  {
    name in env && env[name] != ""
  }

  predicate ColorDisabled(env: map<string, string>)
  {
    IsSet(env, "NO_COLOR") || IsSet(env, "REDLOG_NO_COLOR")
  }

  predicate ColorForced(env: map<string, string>)
  {
    IsSet(env, "FORCE_COLOR") || IsSet(env, "REDLOG_FORCE_COLOR")
  }

  /** The priority rule: a disable signal wins, then a force signal, and
      otherwise colour follows the TTY flag. */
  function ShouldUseColor(t: Terminal): (r: bool)
    ensures r <==> !ColorDisabled(t.env) && (ColorForced(t.env) || t.isTty)
  {
    if ColorDisabled(t.env) then false
    else if ColorForced(t.env) then true
    else t.isTty
  }

  /** Two-argument `colorize(text, color_code)`: the text is left alone when
      colour is off or the code is NONE (0), and wrapped in an SGR sequence
      followed by a reset otherwise. */
  function Colorize(t: Terminal, text: string, code: int): (r: string)
    ensures !ShouldUseColor(t) || code == 0 ==> r == text
    ensures ShouldUseColor(t) && code != 0 ==> r == Sgr(IntToString(code), text) && |r| > |text|
  {
    if !ShouldUseColor(t) || code == 0 then text
    else Sgr(IntToString(code), text)
  }

  /** A call `colorize(text, *codes)` as Python makes it: the function takes
      exactly one colour code after the text, so a call with any other number
      of codes raises TypeError before its body runs. */
  function ColorizeCall(t: Terminal, text: string, codes: seq<int>): (r: Result<string, Fault>)
    ensures r.Success? <==> |codes| == 1
    ensures r.Failure? ==> r.error == TypeError
    ensures r.Success? ==> r.value == Colorize(t, text, codes[0])
  {
    if |codes| == 1 then Success(Colorize(t, text, codes[0])) else Failure(TypeError)
  }

  /** Colouring never changes what a terminal shows: stripping the escape
      sequences gives back the original text. */
  lemma ColorizeShowsText(t: Terminal, text: string, code: int, rest: string)
    requires Esc !in text
    ensures Visible(Colorize(t, text, code) + rest) == text + Visible(rest)
  {
    if !ShouldUseColor(t) || code == 0 {
      VisiblePrefix(text, rest);
    } else {
      IntToStringHasNoM(code);
      VisibleSgr(IntToString(code), text, rest);
    }
  }

  // ---------------------------------------------------------------------
  // fmt
  // ---------------------------------------------------------------------

  /** Python's `format_str % args`, kept abstract: it either yields the
      interpolated text or raises. */
  type Interpolation = (string, seq<Value>) -> Result<string, Fault>

  const FormatErrorMarker: string := "[format_error]"

  /** The exceptions `fmt` catches. */
  predicate Recoverable(f: Fault)
  {
    f.TypeError? || f.ValueError?
  }

  /** `fmt`: a type or value error during interpolation becomes the marker
      text; any other exception still escapes. */
  function Fmt(formatStr: string, args: seq<Value>, interpolate: Interpolation): (r: Result<string, Fault>)
    ensures r.Failure? <==> interpolate(formatStr, args).Failure? && !Recoverable(interpolate(formatStr, args).error)
    ensures r.Failure? ==> r.error == interpolate(formatStr, args).error
    ensures interpolate(formatStr, args).Success? ==> r == interpolate(formatStr, args)
    ensures interpolate(formatStr, args).Failure? && r.Success? ==> r.value == FormatErrorMarker
  {
    match interpolate(formatStr, args)
    case Success(text) => Success(text)
    case Failure(f) => if Recoverable(f) then Success(FormatErrorMarker) else Failure(f)
  }
}
