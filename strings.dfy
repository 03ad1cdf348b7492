/**
 * The parts of Python's string built-ins that the server's own code relies on:
 * `sep.join`, `str(n)` for integers, `int(s)`, `str.splitlines` and the
 * whitespace test behind `str.strip`.
 */
module Strings {
  import opened Wrappers

  /** `sep.join(parts)`. */
  function Join(parts: seq<string>, sep: string): string
  {
    if |parts| == 0 then ""
    else if |parts| == 1 then parts[0]
    else parts[0] + sep + Join(parts[1..], sep)
  }

  /** Joining a list whose first element is extended on the left extends the result on the left. */
  lemma {:induction false} JoinExtendFirst(c: string, parts: seq<string>, sep: string)
    requires |parts| > 0
    ensures Join([c + parts[0]] + parts[1..], sep) == c + Join(parts, sep)
  {
    var q := [c + parts[0]] + parts[1..];
    assert q[1..] == parts[1..];
  }

  /** Joining a list with one more element at its end. */
  lemma {:induction false} JoinSnoc(parts: seq<string>, x: string, sep: string)
    ensures Join(parts + [x], sep) == if |parts| == 0 then x else Join(parts, sep) + sep + x
  {
    if |parts| > 1 {
      assert (parts + [x])[1..] == parts[1..] + [x];
      JoinSnoc(parts[1..], x, sep);
    } else if |parts| == 1 {
      assert (parts + [x])[1..] == [x];
    }
  }

  predicate IsDigit(c: char) { '0' <= c <= '9' }

  /** A non-empty run of ASCII decimal digits. */
  predicate IsDigits(s: string)
  {
    |s| > 0 && forall i :: 0 <= i < |s| ==> IsDigit(s[i])
  }

  function DigitChar(d: nat): (c: char)
    requires d < 10
    ensures IsDigit(c) && c as int - '0' as int == d
  {
    ('0' as int + d) as char
  }

  /** `str(n)` for a natural number: its decimal digits, most significant first, without leading zeros. */
  function NatToString(n: nat): (s: string)
    ensures IsDigits(s)
    ensures n >= 10 <==> |s| > 1
  {
    if n < 10 then [DigitChar(n)] else NatToString(n / 10) + [DigitChar(n % 10)]
  }

  /** `str(i)` for any integer. */
  function IntToString(i: int): string
  {
    if i < 0 then "-" + NatToString(-i) else NatToString(i)
  }

  /** The value of a run of decimal digits (the empty run has value 0). */
  function DigitsValue(s: string): nat
    requires forall i :: 0 <= i < |s| ==> IsDigit(s[i])
  {
    if |s| == 0 then 0
    else
      assert IsDigit(s[|s| - 1]);
      DigitsValue(s[..|s| - 1]) * 10 + (s[|s| - 1] as int - '0' as int)
  }

  /** Reading back the digits of `str(n)` gives `n`. */
  lemma {:induction false} DigitsValueOfNatToString(n: nat)
    ensures DigitsValue(NatToString(n)) == n
  {
    if n >= 10 {
      var s := NatToString(n / 10);
      var t := s + [DigitChar(n % 10)];
      assert t[..|t| - 1] == s;
      DigitsValueOfNatToString(n / 10);
    }
  }

  /**
   * `int(s)` with base 10: an optional `+` or `-` followed by ASCII digits.
   * `None` stands for the ValueError that `int` raises.
   */
  function ParseInt(s: string): (r: Option<int>)
    ensures r.Some? <==> IsDigits(s) || (|s| > 1 && (s[0] == '+' || s[0] == '-') && IsDigits(s[1..]))
  {
    if |s| > 0 && (s[0] == '+' || s[0] == '-') then
      if IsDigits(s[1..]) then
        Some(if s[0] == '-' then 0 - DigitsValue(s[1..]) else DigitsValue(s[1..]))
      else None
    else if IsDigits(s) then Some(DigitsValue(s))
    else None
  }

  /**
   * The text of the ValueError that `int(s)` raises for a string it cannot
   * read: the message is formatted with `%.200R`, so `s` appears as its
   * `repr`, cut to at most 200 characters.
   */
  function IntErrorText(s: string): (t: string)
    ensures |t| <= |IntErrorLead| + 200
  {
    IntErrorLead + Truncated(Repr(s), 200)
  }

  const IntErrorLead := "invalid literal for int() with base 10: "

  /** `s[:n]`. */
  function Truncated(s: string, n: nat): (r: string)
    ensures |r| <= n && |r| <= |s|
    ensures |s| <= n ==> r == s
  {
    if |s| <= n then s else s[..n]
  }

  /** The quote `repr` puts around a string: `"` when it holds `'` and no `"`, otherwise `'`. */
  function QuoteFor(s: string): char
  {
    if '\'' in s && '"' !in s then '"' else '\''
  }

  /** The ASCII control characters, which `repr` writes as escapes. */
  predicate IsControl(c: char)
  {
    c < ' ' || c == '\U{007F}'
  }

  function HexDigit(n: nat): char
    requires n < 16
  {
    if n < 10 then ('0' as int + n) as char else ('a' as int + n - 10) as char
  }

  /** How `repr` writes one character inside quotes `quote`. */
  function EscapedChar(c: char, quote: char): (r: string)
    ensures 1 <= |r| <= 4
    ensures !IsControl(c) && c != quote && c != '\\' ==> r == [c]
  {
    if c == quote || c == '\\' then ['\\', c]
    else if c == '\t' then "\\t"
    else if c == '\n' then "\\n"
    else if c == '\r' then "\\r"
    else if IsControl(c) then "\\x" + [HexDigit(c as int / 16), HexDigit(c as int % 16)]
    else [c]
  }

  function EscapedChars(s: string, quote: char): (r: string)
    ensures |s| <= |r| <= 4 * |s|
  {
    if |s| == 0 then [] else EscapedChar(s[0], quote) + EscapedChars(s[1..], quote)
  }

  /** `repr(s)`: `s` between its quotes, with backslashes, that quote and control characters escaped. */
  function Repr(s: string): (r: string)
    ensures |r| >= |s| + 2 && r[0] == QuoteFor(s) && r[|r| - 1] == QuoteFor(s)
  {
    [QuoteFor(s)] + EscapedChars(s, QuoteFor(s)) + [QuoteFor(s)]
  }

  /** Nothing to escape in `s` under quotes `quote`. */
  predicate Plain(s: string, quote: char)
  {
    forall i :: 0 <= i < |s| ==> !IsControl(s[i]) && s[i] != quote && s[i] != '\\'
  }

  /** A string with nothing to escape is written as it is. */
  lemma {:induction false} EscapedPlain(s: string, quote: char)
    requires Plain(s, quote)
    ensures EscapedChars(s, quote) == s
  {
    if |s| > 0 {
      EscapedPlain(s[1..], quote);
      assert s == [s[0]] + s[1..];
    }
  }

  /** Without `'`, `\` or control characters, `repr` only puts `'` around the text. */
  lemma ReprPlain(s: string)
    requires Plain(s, '\'')
    ensures Repr(s) == "'" + s + "'"
  {
    EscapedPlain(s, '\'');
  }

  /** With `'` and no `"`, `repr` switches to double quotes and leaves the `'` alone. */
  lemma ReprSwitchesQuotes(s: string)
    requires '\'' in s && Plain(s, '"')
    ensures Repr(s) == "\"" + s + "\""
  {
    EscapedPlain(s, '"');
  }

  function HexValue(c: char): nat
  {
    if '0' <= c <= '9' then c as int - '0' as int
    else if 'a' <= c <= 'f' then c as int - 'a' as int + 10
    else 0
  }

  /** The character an escape letter after `\` stands for. */
  function EscapeLetterValue(c: char): char
  {
    if c == 't' then '\t' else if c == 'n' then '\n' else if c == 'r' then '\r' else c
  }

  /** Reading back what `EscapedChars` wrote, as Python reads the text between the quotes. */
  function Unescaped(r: string): string
  {
    if |r| == 0 then []
    else if r[0] == '\\' && |r| >= 4 && r[1] == 'x' then
      [(HexValue(r[2]) % 16 * 16 + HexValue(r[3]) % 16) as char] + Unescaped(r[4..])
    else if r[0] == '\\' && |r| >= 2 then [EscapeLetterValue(r[1])] + Unescaped(r[2..])
    else [r[0]] + Unescaped(r[1..])
  }

  lemma HexRoundTrip(n: nat)
    requires n < 16
    ensures HexValue(HexDigit(n)) == n
  {
  }

  /** Reading back one escaped character, followed by anything already escaped. */
  lemma UnescapedOne(c: char, quote: char, rest: string)
    requires quote == '\'' || quote == '"'
    ensures Unescaped(EscapedChar(c, quote) + rest) == [c] + Unescaped(rest)
  {
    if c == quote || c == '\\' || c == '\t' || c == '\n' || c == '\r' {
      var letter := if c == '\t' then 't' else if c == '\n' then 'n' else if c == '\r' then 'r' else c;
      assert EscapedChar(c, quote) == ['\\', letter];
      UnescapedTwo(letter, rest);
    } else if IsControl(c) {
      var hi, lo := c as int / 16, c as int % 16;
      assert EscapedChar(c, quote) == ['\\', 'x', HexDigit(hi), HexDigit(lo)];
      UnescapedHex(c, rest);
    } else {
      assert EscapedChar(c, quote) == [c];
      assert ([c] + rest)[1..] == rest;
    }
  }

  lemma UnescapedTwo(letter: char, rest: string)
    requires letter != 'x'
    ensures Unescaped(['\\', letter] + rest) == [EscapeLetterValue(letter)] + Unescaped(rest)
  {
    assert (['\\', letter] + rest)[2..] == rest;
  }

  lemma UnescapedHex(c: char, rest: string)
    requires c as int < 128
    ensures Unescaped(['\\', 'x', HexDigit(c as int / 16), HexDigit(c as int % 16)] + rest) == [c] + Unescaped(rest)
  {
    var hi, lo := c as int / 16, c as int % 16;
    HexRoundTrip(hi);
    HexRoundTrip(lo);
    assert (['\\', 'x', HexDigit(hi), HexDigit(lo)] + rest)[4..] == rest;
    assert (hi * 16 + lo) as char == c;
  }

  /** Escaping is undone by reading back. */
  lemma {:induction false} UnescapedEscaped(s: string, quote: char)
    requires quote == '\'' || quote == '"'
    ensures Unescaped(EscapedChars(s, quote)) == s
  {
    if |s| > 0 {
      UnescapedOne(s[0], quote, EscapedChars(s[1..], quote));
      UnescapedEscaped(s[1..], quote);
      assert s == [s[0]] + s[1..];
    }
  }

  /** The text between the quotes of `repr(s)` reads back as `s`, so `repr` loses nothing. */
  lemma ReprRoundTrip(s: string)
    ensures var r := Repr(s); Unescaped(r[1..|r| - 1]) == s
  {
    var q := QuoteFor(s);
    var r := Repr(s);
    assert r[1..|r| - 1] == EscapedChars(s, q);
    UnescapedEscaped(s, q);
  }

  /** `int(str(i)) == i` for every integer. */
  lemma IntToStringRoundTrip(i: int)
    ensures ParseInt(IntToString(i)) == Some(i)
  {
    if i < 0 {
      var t := NatToString(-i);
      assert ("-" + t)[1..] == t;
      DigitsValueOfNatToString(-i);
    } else {
      DigitsValueOfNatToString(i);
    }
  }

  /** The characters at which `str.splitlines` ends a line. */
  predicate IsLineBreak(c: char)
  {
    c in {'\n', '\r', '\U{000B}', '\U{000C}', '\U{001C}', '\U{001D}', '\U{001E}', '\U{0085}', '\U{2028}', '\U{2029}'}
  }

  /** The characters that `str.strip` removes. */
  predicate IsSpace(c: char)
  {
    c in {' ', '\t', '\n', '\r', '\U{000B}', '\U{000C}', '\U{001C}', '\U{001D}', '\U{001E}', '\U{001F}',
          '\U{0085}', '\U{00A0}', '\U{1680}', '\U{2028}', '\U{2029}', '\U{202F}', '\U{205F}', '\U{3000}'}
    || '\U{2000}' <= c <= '\U{200A}'
  }

  /** `s.strip()` is non-empty: some character of `s` is not whitespace. */
  predicate HasNonSpace(s: string)
  {
    exists i :: 0 <= i < |s| && !IsSpace(s[i])
  }

  /**
   * `s.splitlines()` on text read in universal-newline mode: the lines, without
   * their line breaks; a break at the very end does not start another line.
   * Such text holds no `\r` (the read turns `\r\n` and `\r` into `\n`), which
   * is why counting each break character as one break is right here:
   * `splitlines` would count `\r\n` as one.
   */
  function SplitLines(s: string): (lines: seq<string>)
    requires '\r' !in s
    ensures |lines| == 0 <==> |s| == 0
  {
    if |s| == 0 then []
    else if IsLineBreak(s[0]) then [""] + SplitLines(s[1..])
    else
      var rest := SplitLines(s[1..]);
      if |rest| == 0 then [[s[0]]] else [[s[0]] + rest[0]] + rest[1..]
  }

  /** Every line break replaced by a single `\n`. */
  function NormalizeBreaks(s: string): (r: string)
    ensures |r| == |s|
  {
    if |s| == 0 then [] else [if IsLineBreak(s[0]) then '\n' else s[0]] + NormalizeBreaks(s[1..])
  }

  /** `s` without one line break at its end, if it ends with one. */
  function DropFinalBreak(s: string): string
  {
    if |s| > 0 && IsLineBreak(s[|s| - 1]) then s[..|s| - 1] else s
  }

  /**
   * Splitting into lines and joining them with `\n` turns every break into
   * `\n` and drops exactly one break at the end of the text.
   */
  lemma {:induction false} SplitLinesJoin(s: string)
    requires '\r' !in s
    ensures Join(SplitLines(s), "\n") == NormalizeBreaks(DropFinalBreak(s))
  {
    if |s| == 0 {
    } else {
      var rest := s[1..];
      assert s == [s[0]] + rest;
      if |rest| > 0 {
        assert DropFinalBreak(s) == [s[0]] + DropFinalBreak(rest);
        assert ([s[0]] + DropFinalBreak(rest))[1..] == DropFinalBreak(rest);
      }
      SplitLinesJoin(rest);
      if IsLineBreak(s[0]) {
        var lines := SplitLines(rest);
        assert ([""] + lines)[1..] == lines;
      } else if |rest| > 0 {
        JoinExtendFirst([s[0]], SplitLines(rest), "\n");
      }
    }
  }
}
