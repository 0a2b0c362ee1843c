/**
  String operations of the JavaScript runtime that the application relies on:
  decimal rendering of numbers (`String(n)`), `split` / `join` on a one-character
  separator, `trim`, `toLowerCase` (for Latin capitals), `includes`, `padStart`.
  Strings are sequences of characters; UTF-16 code units are not modelled.
*/
module Text {

  // ---------------------------------------------------------------- digits

  predicate IsDigit(c: char) { '0' <= c <= '9' }

  predicate AllDigits(s: string) { forall i | 0 <= i < |s| :: IsDigit(s[i]) }

  function DigitChar(d: nat): (c: char)
    requires d < 10
    ensures IsDigit(c) && c as int - '0' as int == d
  {
    "0123456789"[d]
  }

  /** `String(n)` for a non-negative integer: its shortest decimal rendering. */
  function NatToString(n: nat): (s: string)
    ensures 1 <= |s| && AllDigits(s)
    ensures |s| > 1 ==> s[0] != '0'
    decreases n
  {
    if n < 10 then [DigitChar(n)] else NatToString(n / 10) + [DigitChar(n % 10)]
  }

  /** The value of a string of decimal digits ("" has value 0). */
  function DigitsValue(s: string): nat
    requires AllDigits(s)
    decreases |s|
  {
    if s == [] then 0
    else DigitsValue(s[..|s| - 1]) * 10 + (s[|s| - 1] as int - '0' as int)
  }

  /** Reading back the decimal rendering of `n` gives `n`. */
  lemma {:induction false} NatToStringValue(n: nat)
    ensures DigitsValue(NatToString(n)) == n
    decreases n
  {
    if n >= 10 {
      NatToStringValue(n / 10);
      var s := NatToString(n);
      assert s[..|s| - 1] == NatToString(n / 10);
    }
  }

  lemma NatToStringInjective(a: nat, b: nat)
    ensures NatToString(a) == NatToString(b) <==> a == b
  {
    NatToStringValue(a);
    NatToStringValue(b);
  }

  /** `String(i)` for any integer. */
  function IntToString(i: int): (s: string)
  {
    if i < 0 then "-" + NatToString(-i) else NatToString(i)
  }

  /** The decimal rendering of an integer consists of digits and at most a leading minus sign. */
  lemma IntToStringChars(i: int)
    ensures |IntToString(i)| >= 1
    ensures forall k | 0 <= k < |IntToString(i)| :: IsDigit(IntToString(i)[k]) || (k == 0 && IntToString(i)[k] == '-')
  {
  }

  lemma IntToStringInjective(a: int, b: int)
    ensures IntToString(a) == IntToString(b) <==> a == b
  {
    if IntToString(a) == IntToString(b) {
      if a < 0 && b < 0 {
        assert NatToString(-a) == IntToString(a)[1..] == IntToString(b)[1..] == NatToString(-b);
        NatToStringInjective(-a, -b);
      } else if a >= 0 && b >= 0 {
        NatToStringInjective(a, b);
      }
    }
  }

  // ---------------------------------------------------------- split / join

  /** `s.split(sep)` with a one-character separator: never empty, and `"".split(sep) == [""]`. */
  function Split(s: string, sep: char): (r: seq<string>)
    ensures |r| >= 1
    decreases |s|
  {
    if s == [] then [""]
    else
      var rest := Split(s[1..], sep);
      if s[0] == sep then [""] + rest else [[s[0]] + rest[0]] + rest[1..]
  }

  /** `parts.join(sep)`: `[].join(sep) == ""`. */
  function Join(parts: seq<string>, sep: string): string
    decreases |parts|
  {
    if parts == [] then ""
    else if |parts| == 1 then parts[0]
    else parts[0] + sep + Join(parts[1..], sep)
  }

  /** A piece without the separator splits to itself. */
  lemma {:induction false} SplitNoSeparator(s: string, sep: char)
    requires sep !in s
    ensures Split(s, sep) == [s]
    decreases |s|
  {
    if s != [] {
      SplitNoSeparator(s[1..], sep);
      assert [s[0]] + s[1..] == s;
    }
  }

  /** Splitting stops at the first separator. */
  lemma {:induction false} SplitAtSeparator(a: string, b: string, sep: char)
    requires sep !in a
    ensures Split(a + [sep] + b, sep) == [a] + Split(b, sep)
    decreases |a|
  {
    if a == [] {
      assert a + [sep] + b == [sep] + b;
      assert ([sep] + b)[1..] == b;
    } else {
      SplitAtSeparator(a[1..], b, sep);
      assert (a + [sep] + b)[1..] == a[1..] + [sep] + b;
      assert [a[0]] + a[1..] == a;
    }
  }

  /** Joining separator-free pieces and splitting again gives the pieces back. */
  lemma {:induction false} SplitJoin(parts: seq<string>, sep: char)
    requires |parts| >= 1
    requires forall p | p in parts :: sep !in p
    ensures Split(Join(parts, [sep]), sep) == parts
    decreases |parts|
  {
    if |parts| == 1 {
      SplitNoSeparator(parts[0], sep);
    } else {
      SplitJoin(parts[1..], sep);
      SplitAtSeparator(parts[0], Join(parts[1..], [sep]), sep);
      assert [parts[0]] + parts[1..] == parts;
    }
  }

  /** Every piece of a split is free of the separator. */
  lemma {:induction false} SplitPiecesHaveNoSeparator(s: string, sep: char)
    ensures forall p | p in Split(s, sep) :: sep !in p
    decreases |s|
  {
    if s != [] {
      SplitPiecesHaveNoSeparator(s[1..], sep);
    }
  }

  /** The last piece of `s` split at `sep`: `s.split(sep).pop()`. */
  function LastPiece(s: string, sep: char): (r: string)
  {
    var pieces := Split(s, sep);
    pieces[|pieces| - 1]
  }

  /** Cutting at the first separator drops everything before it from the last piece. */
  lemma LastPieceAtSeparator(a: string, b: string, sep: char)
    requires sep !in a
    ensures LastPiece(a + [sep] + b, sep) == LastPiece(b, sep)
  {
    SplitAtSeparator(a, b, sep);
  }

  /**
    The last piece is the suffix after the last separator: it has no separator,
    `s` ends with it, and it is either all of `s` or preceded by the separator.
  */
  lemma {:induction false} LastPieceSuffix(s: string, sep: char)
    ensures sep !in LastPiece(s, sep)
    ensures EndsWith(s, LastPiece(s, sep))
    ensures |LastPiece(s, sep)| < |s| ==> s[|s| - |LastPiece(s, sep)| - 1] == sep
    decreases |s|
  {
    SplitPiecesHaveNoSeparator(s, sep);
    if sep !in s {
      SplitNoSeparator(s, sep);
    } else {
      var k := IndexOfChar(s, sep);
      var tail := s[k + 1..];
      assert s == s[..k] + [sep] + tail;
      LastPieceAtSeparator(s[..k], tail, sep);
      LastPieceSuffix(tail, sep);
    }
  }

  /** A string without the separator is its own last piece. */
  lemma LastPieceNoSeparator(s: string, sep: char)
    requires sep !in s
    ensures LastPiece(s, sep) == s
  {
    SplitNoSeparator(s, sep);
  }

  /** Only what follows the last separator matters. */
  lemma {:induction false} LastPieceAfterSeparator(a: string, b: string, sep: char)
    ensures LastPiece(a + [sep] + b, sep) == LastPiece(b, sep)
    decreases |a|
  {
    if sep !in a {
      LastPieceAtSeparator(a, b, sep);
    } else {
      var k := IndexOfChar(a, sep);
      var tail := a[k + 1..];
      assert a == a[..k] + [sep] + tail;
      assert a + [sep] + b == a[..k] + [sep] + (tail + [sep] + b);
      LastPieceAtSeparator(a[..k], tail + [sep] + b, sep);
      LastPieceAfterSeparator(tail, b, sep);
    }
  }

  /** The first position of `c` in `s`. */
  function IndexOfChar(s: string, c: char): (k: nat)
    requires c in s
    ensures k < |s| && s[k] == c && c !in s[..k]
    decreases |s|
  {
    if s[0] == c then 0
    else
      var k := 1 + IndexOfChar(s[1..], c);
      assert s[..k] == [s[0]] + s[1..][..k - 1];
      k
  }

  /** A position holding `c` with no `c` before it is the first position of `c`. */
  lemma {:induction false} IndexOfCharAt(s: string, c: char, k: nat)
    requires k < |s| && s[k] == c && c !in s[..k]
    ensures IndexOfChar(s, c) == k
    decreases k
  {
    if k > 0 {
      assert s[0] == s[..k][0];
      assert s[1..][..k - 1] == s[1..k];
      IndexOfCharAt(s[1..], c, k - 1);
    }
  }


  // ------------------------------------------------------------ whitespace

  /** The characters JavaScript's `trim` removes and `\s` matches. */
  predicate IsJsWhitespace(c: char)
  {
    c == '\t' || c == '\n' || c == '\U{000B}' || c == '\U{000C}' || c == '\r' || c == ' '
    || c == '\U{00A0}' || c == '\U{1680}' || ('\U{2000}' <= c <= '\U{200A}')
    || c == '\U{2028}' || c == '\U{2029}' || c == '\U{202F}' || c == '\U{205F}'
    || c == '\U{3000}' || c == '\U{FEFF}'
  }

  /** The characters a regular-expression `.` does not match. */
  predicate IsLineTerminator(c: char)
  {
    c == '\n' || c == '\r' || c == '\U{2028}' || c == '\U{2029}'
  }

  predicate AllWhitespace(s: string) { forall i | 0 <= i < |s| :: IsJsWhitespace(s[i]) }

  function TrimStart(s: string): (r: string)
    ensures r == [] || !IsJsWhitespace(r[0])
    decreases |s|
  {
    if s != [] && IsJsWhitespace(s[0]) then TrimStart(s[1..]) else s
  }

  function TrimEnd(s: string): (r: string)
    ensures r == [] || !IsJsWhitespace(r[|r| - 1])
    decreases |s|
  {
    if s != [] && IsJsWhitespace(s[|s| - 1]) then TrimEnd(s[..|s| - 1]) else s
  }

  /** `s.trim()`. */
  function Trim(s: string): string { TrimEnd(TrimStart(s)) }

  lemma {:induction false} TrimStartEmpty(s: string)
    ensures TrimStart(s) == [] <==> AllWhitespace(s)
    decreases |s|
  {
    if s != [] && IsJsWhitespace(s[0]) {
      TrimStartEmpty(s[1..]);
      assert forall i | 1 <= i < |s| :: s[i] == s[1..][i - 1];
    }
  }

  lemma {:induction false} TrimEndEmpty(s: string)
    ensures TrimEnd(s) == [] <==> AllWhitespace(s)
    decreases |s|
  {
    if s != [] && IsJsWhitespace(s[|s| - 1]) {
      TrimEndEmpty(s[..|s| - 1]);
      assert forall i | 0 <= i < |s| - 1 :: s[i] == s[..|s| - 1][i];
    }
  }

  lemma {:induction false} TrimStartSuffix(s: string)
    ensures |TrimStart(s)| <= |s| && TrimStart(s) == s[|s| - |TrimStart(s)|..]
    decreases |s|
  {
    if s != [] && IsJsWhitespace(s[0]) {
      TrimStartSuffix(s[1..]);
    }
  }

  /** A string trims to nothing exactly when it is all whitespace. */
  lemma TrimEmpty(s: string)
    ensures Trim(s) == [] <==> AllWhitespace(s)
  {
    TrimStartEmpty(s);
    TrimEndEmpty(TrimStart(s));
    TrimStartSuffix(s);
  }

  // ------------------------------------------------------------ case, search

  /**
    The lower-case mapping of `toLowerCase` for the letters the application's data
    can contain: ASCII and full-width Latin capitals, and the Kelvin sign.
  */
  function LowerChar(c: char): (r: char)
  {
    if 'A' <= c <= 'Z' || '\U{FF21}' <= c <= '\U{FF3A}' then (c as int + 32) as char
    else if c == '\U{212A}' then 'k'
    else c
  }

  /** `s.toLowerCase()`, restricted to the mapping of `LowerChar`. */
  function ToLower(s: string): (r: string)
    ensures |r| == |s|
    ensures forall i | 0 <= i < |s| :: r[i] == LowerChar(s[i])
  {
    seq(|s|, i requires 0 <= i < |s| => LowerChar(s[i]))
  }

  predicate StartsWith(s: string, prefix: string)
  {
    |prefix| <= |s| && s[..|prefix|] == prefix
  }

  predicate EndsWith(s: string, suffix: string)
  {
    |suffix| <= |s| && s[|s| - |suffix|..] == suffix
  }

  predicate OccursAt(hay: string, needle: string, i: int)
  {
    0 <= i && i + |needle| <= |hay| && hay[i..i + |needle|] == needle
  }

  /** `hay.includes(needle)`. */
  predicate Contains(hay: string, needle: string)
  {
    exists i | 0 <= i <= |hay| :: OccursAt(hay, needle, i)
  }

  lemma ContainsEmpty(hay: string)
    ensures Contains(hay, "")
  {
    assert OccursAt(hay, "", 0);
  }

  /** `s.padStart(2, '0')`. */
  function PadStart2(s: string): (r: string)
  {
    if |s| >= 2 then s else if |s| == 1 then "0" + s else "00"
  }
}
