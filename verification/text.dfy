/** String helpers the logging pipeline is built from: `sep.join(parts)`,
    `" " * n`, splitting at a separator, decimal rendering of integers (what
    `str(int)` and an f-string produce), ASCII lower-casing (`str.lower` on
    enum member names), and the visible text of a string once ANSI SGR escape
    sequences are removed. */
module Text {
  import opened Wrappers

  /** The escape character that starts an ANSI sequence. */
  const Esc: char := '\U{1B}'

  // ---------------------------------------------------------------------
  // Joining and splitting
  // ---------------------------------------------------------------------

  /** `sep.join(parts)`. */
  function Join(sep: string, parts: seq<string>): string
  {
    if |parts| == 0 then ""
    else if |parts| == 1 then parts[0]
    else parts[0] + sep + Join(sep, parts[1..])
  }

  /** Joining a non-empty head onto a non-empty tail puts one separator between them. */
  lemma JoinCons(sep: string, head: string, tail: seq<string>)
    requires |tail| > 0
    ensures Join(sep, [head] + tail) == head + sep + Join(sep, tail)
  {
    assert ([head] + tail)[1..] == tail;
  }

  /** Appending a part adds one separator and the part. */
  lemma {:induction false} JoinSnoc(sep: string, parts: seq<string>, last: string)
    requires |parts| > 0
    ensures Join(sep, parts + [last]) == Join(sep, parts) + sep + last
  {
    if |parts| == 1 {
      assert parts + [last] == [parts[0]] + [last];
      JoinCons(sep, parts[0], [last]);
    } else {
      assert (parts + [last])[1..] == parts[1..] + [last];
      JoinSnoc(sep, parts[1..], last);
    }
  }

  /** Joining with an optional last part. */
  lemma JoinOptionalLast(sep: string, mid: seq<string>, last: seq<string>)
    requires |last| <= 1 && |mid| >= 1
    ensures Join(sep, mid + last) == Join(sep, mid) + (if |last| == 1 then sep + last[0] else "")
  {
    if |last| == 1 {
      assert mid + last == mid + [last[0]];
      JoinSnoc(sep, mid, last[0]);
    } else {
      assert mid + last == mid;
    }
  }

  /** String concatenation regrouped; stated once so that proofs about
      joined text need not rediscover it next to the definitions of `Join`. */
  lemma AppendAssoc(a: string, b: string, c: string)
    ensures a + (b + c) == a + b + c
  {
  }

  /** Joining with an optional first and an optional last part: each one
      present adds itself and one separator around the joined middle. */
  lemma JoinOptional(sep: string, first: seq<string>, mid: seq<string>, last: seq<string>)
    requires |first| <= 1 && |last| <= 1 && |mid| >= 1
    ensures Join(sep, first + mid + last) ==
      (if |first| == 1 then first[0] + sep else "") + Join(sep, mid) + (if |last| == 1 then sep + last[0] else "")
  {
    var post := if |last| == 1 then sep + last[0] else "";
    JoinOptionalLast(sep, mid, last);
    if |first| == 1 {
      assert first == [first[0]];
      JoinConsRegrouped(sep, first[0], mid, last);
      AppendAssoc(first[0] + sep, Join(sep, mid), post);
    } else {
      assert first + mid + last == mid + last by {
        assert first == [];
      }
      AppendAssoc("", Join(sep, mid), post);
    }
  }

  lemma JoinConsRegrouped(sep: string, head: string, mid: seq<string>, last: seq<string>)
    requires |mid| >= 1
    ensures Join(sep, [head] + mid + last) == head + sep + Join(sep, mid + last)
  {
    assert [head] + mid + last == [head] + (mid + last);
    JoinCons(sep, head, mid + last);
  }

  /** Every part occurs inside the joined string. */
  lemma {:induction false} JoinContains(sep: string, parts: seq<string>, i: nat)
    requires i < |parts|
    ensures Contains(Join(sep, parts), parts[i])
  {
    var j := Join(sep, parts);
    if |parts| == 1 {
      assert OccursAt(j, parts[0], 0);
    } else if i == 0 {
      assert j == parts[0] + sep + Join(sep, parts[1..]);
      assert OccursAt(j, parts[0], 0);
    } else {
      var rest := Join(sep, parts[1..]);
      JoinContains(sep, parts[1..], i - 1);
      var k :| OccursAt(rest, parts[i], k);
      var off := |parts[0]| + |sep|;
      assert j == parts[0] + sep + rest;
      assert j[off + k..off + k + |parts[i]|] == rest[k..k + |parts[i]|];
      assert OccursAt(j, parts[i], off + k);
    }
  }

  /** `needle` occurs in `hay` starting at index `k`. */
  predicate OccursAt(hay: string, needle: string, k: int)
  {
    0 <= k <= |hay| - |needle| && hay[k..k + |needle|] == needle
  }

  /** `needle` occurs as a contiguous piece of `hay`. */
  ghost predicate Contains(hay: string, needle: string)
  {
    exists k :: OccursAt(hay, needle, k)
  }

  /** A piece of the middle part is a piece of the whole. */
  lemma ContainsInfix(a: string, b: string, c: string, needle: string)
    requires Contains(b, needle)
    ensures Contains(a + b + c, needle)
  {
    var k :| OccursAt(b, needle, k);
    var whole := a + b + c;
    assert whole[|a| + k..|a| + k + |needle|] == b[k..k + |needle|];
    assert OccursAt(whole, needle, |a| + k);
  }

  /** Splits `s` at every occurrence of `sep` (Python's `s.split(sep)`):
      there is always at least one piece, and no piece holds `sep`. */
  function Split(s: string, sep: char): (r: seq<string>)
    ensures |r| >= 1
    ensures forall i :: 0 <= i < |r| ==> sep !in r[i]
  {
    if |s| == 0 then [""]
    else
      var rest := Split(s[1..], sep);
      if s[0] == sep then [""] + rest
      else [[s[0]] + rest[0]] + rest[1..]
  }

  /** A string without the separator splits into itself. */
  lemma {:induction false} SplitWithoutSep(s: string, sep: char)
    requires sep !in s
    ensures Split(s, sep) == [s]
  {
    if |s| > 0 {
      SplitWithoutSep(s[1..], sep);
      assert [s[0]] + s[1..] == s;
    }
  }

  /** Splitting distributes over a separator placed between two strings. */
  lemma {:induction false} SplitConcat(a: string, b: string, sep: char)
    ensures Split(a + [sep] + b, sep) == Split(a, sep) + Split(b, sep)
  {
    var s := a + [sep] + b;
    if |a| == 0 {
      assert s[0] == sep && s[1..] == b;
    } else {
      assert s[0] == a[0];
      assert s[1..] == a[1..] + [sep] + b;
      SplitConcat(a[1..], b, sep);
    }
  }

  /** Joining with a one-character separator and splitting at it again gives
      back the parts, provided no part contains the separator. */
  lemma {:induction false} SplitJoin(parts: seq<string>, sep: char)
    requires |parts| >= 1
    requires forall i :: 0 <= i < |parts| ==> sep !in parts[i]
    ensures Split(Join([sep], parts), sep) == parts
  {
    if |parts| == 1 {
      SplitWithoutSep(parts[0], sep);
    } else {
      SplitJoin(parts[1..], sep);
      SplitConcat(parts[0], Join([sep], parts[1..]), sep);
      SplitWithoutSep(parts[0], sep);
      assert parts == [parts[0]] + parts[1..];
    }
  }

  // ---------------------------------------------------------------------
  // Padding
  // ---------------------------------------------------------------------

  function Max(a: int, b: int): int { if a >= b then a else b }

  predicate AllSpaces(s: string) { forall i :: 0 <= i < |s| ==> s[i] == ' ' }

  /** `" " * n`: `n` spaces, and the empty string for `n <= 0`. */
  function Spaces(n: int): (r: string)
    ensures |r| == Max(n, 0)
    ensures AllSpaces(r)
    decreases if n > 0 then n else 0
  {
    if n <= 0 then "" else " " + Spaces(n - 1)
  }

  // ---------------------------------------------------------------------
  // Decimal text
  // ---------------------------------------------------------------------

  predicate IsDigit(c: char) { '0' <= c <= '9' }

  predicate AllDigits(s: string) { forall i :: 0 <= i < |s| ==> IsDigit(s[i]) }

  function DigitChar(d: nat): (c: char)
    requires d < 10
    ensures IsDigit(c)
  {
    (('0' as int) + d) as char
  }

  function DigitValue(c: char): nat
    requires IsDigit(c)
  {
    c as int - '0' as int
  }

  /** Digits in canonical form: at least one, and no leading zero unless the
      text is "0" itself. */
  predicate CanonicalDigits(s: string)
  {
    |s| >= 1 && AllDigits(s) && (s[0] == '0' ==> s == "0")
  }

  /** Python's form of an integer's text: canonical digits, preceded by a
      minus sign exactly for a negative value, so "-0" is excluded. */
  predicate CanonicalDecimal(s: string)
  {
    if |s| > 0 && s[0] == '-' then CanonicalDigits(s[1..]) && s[1..] != "0"
    else CanonicalDigits(s)
  }

  /** Decimal text of a natural number, without leading zeros. */
  function NatToString(n: nat): (r: string)
    ensures CanonicalDigits(r)
    ensures r[0] == '0' ==> n == 0
    decreases n
  {
    if n < 10 then [DigitChar(n)] else NatToString(n / 10) + [DigitChar(n % 10)]
  }

  /** Value of a string of decimal digits. */
  function ParseDigits(s: string): nat
    requires AllDigits(s)
  {
    if |s| == 0 then 0 else ParseDigits(s[..|s| - 1]) * 10 + DigitValue(s[|s| - 1])
  }

  lemma {:induction false} ParseNatToString(n: nat)
    ensures ParseDigits(NatToString(n)) == n
    decreases n
  {
    if n >= 10 {
      var s := NatToString(n);
      assert s[..|s| - 1] == NatToString(n / 10);
      ParseNatToString(n / 10);
    }
  }

  /** Python's `str(i)` for an integer: an optional minus sign, then the digits. */
  function IntToString(i: int): (r: string)
    ensures CanonicalDecimal(r)
    ensures i < 0 <==> r[0] == '-'
    ensures i >= 0 <==> AllDigits(r)
  {
    if i < 0 then
      var r := "-" + NatToString(-i);
      assert !IsDigit(r[0]);
      r
    else NatToString(i)
  }

  /** Reads back an optionally negative decimal integer. */
  function ParseInt(s: string): Option<int>
  {
    if |s| > 0 && s[0] == '-' then
      if |s| > 1 && AllDigits(s[1..]) then Some(0 - ParseDigits(s[1..])) else None
    else if |s| > 0 && AllDigits(s) then Some(ParseDigits(s))
    else None
  }

  /** Decimal rendering loses nothing: it reads back as the same integer. */
  lemma {:induction false} IntToStringRoundTrip(i: int)
    ensures ParseInt(IntToString(i)) == Some(i)
  {
    var s := IntToString(i);
    if i < 0 {
      var digits := NatToString(-i);
      assert s == "-" + digits;
      assert s[1..] == digits;
      ParseNatToString(-i);
      assert ParseInt(s) == Some(0 - ParseDigits(digits));
    } else {
      assert AllDigits(s) && IsDigit(s[0]);
      ParseNatToString(i);
      assert ParseInt(s) == Some(ParseDigits(s));
    }
  }

  /** Canonical digits are the rendering of the number they denote. */
  lemma {:induction false} CanonicalDigitsAreNatToString(s: string)
    requires CanonicalDigits(s)
    ensures NatToString(ParseDigits(s)) == s
  {
    var n := |s| - 1;
    if n > 0 {
      var init := s[..n];
      assert init[0] == s[0];
      assert CanonicalDigits(init);
      CanonicalDigitsAreNatToString(init);
      LeadingDigitPositive(init);
      var m := ParseDigits(init) * 10 + DigitValue(s[n]);
      assert m / 10 == ParseDigits(init) && m % 10 == DigitValue(s[n]);
      assert DigitChar(DigitValue(s[n])) == s[n];
      assert init + [s[n]] == s;
    } else {
      assert DigitChar(DigitValue(s[0])) == s[0];
    }
  }

  lemma {:induction false} LeadingDigitPositive(s: string)
    requires AllDigits(s) && |s| >= 1 && s[0] != '0'
    ensures ParseDigits(s) >= 1
  {
    if |s| > 1 {
      assert s[..|s| - 1][0] == s[0];
      LeadingDigitPositive(s[..|s| - 1]);
    }
  }

  /** An integer has exactly one canonical text: any canonical text that
      reads back as `i` is `IntToString(i)`. */
  lemma CanonicalDecimalUnique(s: string, i: int)
    requires CanonicalDecimal(s) && ParseInt(s) == Some(i)
    ensures s == IntToString(i)
  {
    if s[0] == '-' {
      var digits := s[1..];
      CanonicalDigitsAreNatToString(digits);
      LeadingDigitPositive(digits);
      assert s == "-" + digits;
    } else {
      CanonicalDigitsAreNatToString(s);
    }
  }

  // ---------------------------------------------------------------------
  // Case
  // ---------------------------------------------------------------------

  function LowerChar(c: char): char
  {
    if 'A' <= c <= 'Z' then (c as int + 32) as char else c
  }

  /** ASCII lower-casing, character by character. */
  function Lower(s: string): (r: string)
    ensures |r| == |s|
    ensures forall i :: 0 <= i < |s| ==> r[i] == LowerChar(s[i])
  {
    seq(|s|, i requires 0 <= i < |s| => LowerChar(s[i]))
  }

  // ---------------------------------------------------------------------
  // ANSI escape sequences
  // ---------------------------------------------------------------------

  /** `ESC [ params m text ESC [ 0 m`: text wrapped in a select-graphic-rendition
      sequence and followed by the reset sequence. */
  function Sgr(params: string, text: string): string
  {
    [Esc] + "[" + params + "m" + text + [Esc] + "[0m"
  }

  /** Drops the rest of an escape sequence, up to and including its final `m`. */
  function SkipEscape(s: string): (r: string)
    ensures |r| <= |s|
  {
    if |s| == 0 then ""
    else if s[0] == 'm' then s[1..]
    else SkipEscape(s[1..])
  }

  /** What a terminal shows of `s`: every `ESC ... m` sequence removed. */
  function Visible(s: string): (r: string)
    ensures |r| <= |s|
    decreases |s|
  {
    if |s| == 0 then ""
    else if s[0] == Esc then Visible(SkipEscape(s[1..]))
    else [s[0]] + Visible(s[1..])
  }

  /** Text without escapes is shown as it is. */
  lemma {:induction false} VisiblePrefix(text: string, rest: string)
    requires Esc !in text
    ensures Visible(text + rest) == text + Visible(rest)
  {
    if |text| > 0 {
      var s := text + rest;
      assert s[0] == text[0] && s[1..] == text[1..] + rest;
      assert text[0] != Esc;
      VisiblePrefix(text[1..], rest);
      calc {
        Visible(s);
        [s[0]] + Visible(s[1..]);
        [text[0]] + (text[1..] + Visible(rest));
        ([text[0]] + text[1..]) + Visible(rest);
        { assert [text[0]] + text[1..] == text; }
        text + Visible(rest);
      }
    } else {
      assert text + rest == rest;
    }
  }

  lemma {:induction false} SkipEscapePast(params: string, rest: string)
    requires 'm' !in params
    ensures SkipEscape(params + "m" + rest) == rest
  {
    if |params| > 0 {
      assert (params + "m" + rest)[1..] == params[1..] + "m" + rest;
      SkipEscapePast(params[1..], rest);
    } else {
      assert (params + "m" + rest)[1..] == rest;
    }
  }

  /** A wrapped piece of text shows as exactly that text. */
  lemma VisibleSgr(params: string, text: string, rest: string)
    requires 'm' !in params && Esc !in text
    ensures Visible(Sgr(params, text) + rest) == text + Visible(rest)
  {
    var s := Sgr(params, text) + rest;
    var tail := text + [Esc] + "[0m" + rest;
    assert s[0] == Esc;
    assert s[1..] == "[" + params + "m" + tail;
    SkipEscapePast("[" + params, tail);
    assert "[" + params + "m" + tail == ("[" + params) + "m" + tail;
    VisiblePrefix(text, [Esc] + "[0m" + rest);
    assert text + [Esc] + "[0m" + rest == text + ([Esc] + "[0m" + rest);
    var r := [Esc] + "[0m" + rest;
    assert r[0] == Esc && r[1..] == "[0" + "m" + rest;
    SkipEscapePast("[0", rest);
  }

  /** Decimal digits never contain the `m` that ends an escape sequence. */
  lemma IntToStringHasNoM(i: int)
    ensures 'm' !in IntToString(i)
  {
    var s := IntToString(i);
    if i >= 0 {
      assert AllDigits(s);
    } else {
      assert s == "-" + NatToString(-i);
      assert AllDigits(NatToString(-i));
    }
  }
}
