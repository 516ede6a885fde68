/** Log levels (redlog/core.py): nine severities in a total order where a
    lower ordinal means a higher priority, their full and three-letter names,
    and the filtering rule. The name lookups accept any integer, as the
    source's dictionary lookups do, and fall back to "unknown"/"unk". */
module Levels {
  import opened Wrappers
  import opened Text

  datatype Level = Critical | Error | Warn | Info | Verbose | Trace | Debug | Pedantic | Annoying

  /** The integer value of the level. */
  function Ord(l: Level): (n: nat)
    ensures n < 9
  {
    match l
    case Critical => 0
    case Error => 1
    case Warn => 2
    case Info => 3
    case Verbose => 4
    case Trace => 5
    case Debug => 6
    case Pedantic => 7
    case Annoying => 8
  }

  /** The level with integer value `n`, if there is one. */
  function FromOrd(n: int): (r: Option<Level>)
    ensures r.Some? <==> 0 <= n < 9
    ensures r.Some? ==> Ord(r.value) == n
  {
    if n == 0 then Some(Critical)
    else if n == 1 then Some(Error)
    else if n == 2 then Some(Warn)
    else if n == 3 then Some(Info)
    else if n == 4 then Some(Verbose)
    else if n == 5 then Some(Trace)
    else if n == 6 then Some(Debug)
    else if n == 7 then Some(Pedantic)
    else if n == 8 then Some(Annoying)
    else None
  }

  /** Levels are determined by their integer value. */
  lemma OrdInjective(a: Level, b: Level)
    ensures Ord(a) == Ord(b) <==> a == b
  {
    assert FromOrd(Ord(a)).value == a;
    assert FromOrd(Ord(b)).value == b;
  }

  /** `for level in Level`: every level once, in declaration order. */
  const AllLevels: seq<Level> := [Critical, Error, Warn, Info, Verbose, Trace, Debug, Pedantic, Annoying]

  lemma AllLevelsInOrder()
    ensures |AllLevels| == 9
    ensures forall i :: 0 <= i < 9 ==> Ord(AllLevels[i]) == i
    ensures forall l :: l in AllLevels
  {
    forall l ensures l in AllLevels {
      assert AllLevels[Ord(l)] == l;
    }
  }

  // ---------------------------------------------------------------------
  // Names
  // ---------------------------------------------------------------------

  /** `level_name(level)`: the lower-case full name, or "unknown". */
  function LevelName(code: int): (r: string)
    ensures r == "unknown" <==> FromOrd(code).None?
  {
    match FromOrd(code)
    case Some(l) => (
      match l
      case Critical => "critical"
      case Error => "error"
      case Warn => "warn"
      case Info => "info"
      case Verbose => "verbose"
      case Trace => "trace"
      case Debug => "debug"
      case Pedantic => "pedantic"
      case Annoying => "annoying")
    case None => "unknown"
  }

  /** `level_short_name(level)`: the three-letter name, or "unk". */
  function LevelShortName(code: int): (r: string)
    ensures |r| == 3
    ensures r == "unk" <==> FromOrd(code).None?
  {
    match FromOrd(code)
    case Some(l) => (
      match l
      case Critical => "crt"
      case Error => "err"
      case Warn => "wrn"
      case Info => "inf"
      case Verbose => "vrb"
      case Trace => "trc"
      case Debug => "dbg"
      case Pedantic => "ped"
      case Annoying => "ayg")
    case None => "unk"
  }

  function FullName(l: Level): string { LevelName(Ord(l)) }

  function ShortName(l: Level): string { LevelShortName(Ord(l)) }

  /** The level whose full name is `s`, if any. */
  function ParseFullName(s: string): (r: Option<Level>)
    ensures r.Some? ==> FullName(r.value) == s
  {
    if s == "critical" then Some(Critical)
    else if s == "error" then Some(Error)
    else if s == "warn" then Some(Warn)
    else if s == "info" then Some(Info)
    else if s == "verbose" then Some(Verbose)
    else if s == "trace" then Some(Trace)
    else if s == "debug" then Some(Debug)
    else if s == "pedantic" then Some(Pedantic)
    else if s == "annoying" then Some(Annoying)
    else None
  }

  /** The level whose three-letter name is `s`, if any. */
  function ParseShortName(s: string): (r: Option<Level>)
    ensures r.Some? ==> ShortName(r.value) == s
  {
    if s == "crt" then Some(Critical)
    else if s == "err" then Some(Error)
    else if s == "wrn" then Some(Warn)
    else if s == "inf" then Some(Info)
    else if s == "vrb" then Some(Verbose)
    else if s == "trc" then Some(Trace)
    else if s == "dbg" then Some(Debug)
    else if s == "ped" then Some(Pedantic)
    else if s == "ayg" then Some(Annoying)
    else None
  }

  /** Both name tables are one-to-one: each name reads back as its level. */
  lemma NamesRoundTrip(l: Level)
    ensures ParseFullName(FullName(l)) == Some(l)
    ensures ParseShortName(ShortName(l)) == Some(l)
    ensures FullName(l) != "unknown" && ShortName(l) != "unk"
  {
  }

  /** The Python member name of the level (`Level.CRITICAL.name`). */
  function EnumName(l: Level): string
  {
    match l
    case Critical => "CRITICAL"
    case Error => "ERROR"
    case Warn => "WARN"
    case Info => "INFO"
    case Verbose => "VERBOSE"
    case Trace => "TRACE"
    case Debug => "DEBUG"
    case Pedantic => "PEDANTIC"
    case Annoying => "ANNOYING"
  }

  /** The lower-cased member name, which the JSON formatter emits, is the
      same text as the level's full name. */
  lemma LowerEnumNameIsFullName(l: Level)
    ensures Lower(EnumName(l)) == FullName(l)
  {
    var s := EnumName(l);
    var r := Lower(s);
    assert forall i :: 0 <= i < |s| ==> r[i] == FullName(l)[i];
  }

  // ---------------------------------------------------------------------
  // Filtering
  // ---------------------------------------------------------------------

  /** `_should_log`: a call is emitted iff its level is at or above the
      minimum priority, i.e. its ordinal does not exceed the minimum's. */
  predicate ShouldLog(level: Level, minLevel: Level)
  {
    Ord(level) <= Ord(minLevel)
  }

  /** Filtering is a threshold: what passes at one level also passes at every
      more urgent level and under every more permissive minimum. */
  lemma ShouldLogThreshold(level: Level, urgent: Level, minLevel: Level, looser: Level)
    requires ShouldLog(level, minLevel)
    requires Ord(urgent) <= Ord(level) && Ord(minLevel) <= Ord(looser)
    ensures ShouldLog(urgent, minLevel)
    ensures ShouldLog(level, looser)
  {
  }

  /** With minimum WARN, exactly critical, error and warn are emitted. */
  lemma WarnThreshold(l: Level)
    ensures ShouldLog(l, Warn) <==> l in [Critical, Error, Warn]
  {
  }
}
