/**
 * String operations the core relies on: whitespace stripping (Python `str.strip`,
 * JavaScript `String.prototype.trim`), decimal printing of ids (`${id}`), the
 * decimal parsing done by the server's `<int:...>` route converter, and the two
 * replacements (`str.replace('Z', '+00:00')`, JavaScript `replace('_', ' ')`).
 */
module Text {
  import opened Base

  /** The two runtimes that strip strings: the Flask backend and the React frontend. */
  datatype Dialect = Python | JavaScript

  /**
   * White space both runtimes agree on: the control characters TAB to CR,
   * SPACE, NO-BREAK SPACE, the Unicode space separators and the line and
   * paragraph separators.
   */
  predicate SharedSpace(c: char)
  {
    || ('\t' <= c <= '\r') || c == ' ' || c == '\U{A0}' || c == '\U{1680}'
    || ('\U{2000}' <= c <= '\U{200A}') || c == '\U{2028}' || c == '\U{2029}'
    || c == '\U{202F}' || c == '\U{205F}' || c == '\U{3000}'
  }

  /**
   * White space as each runtime strips it. Python's `str.isspace` adds the
   * information separators U+001C..U+001F and NEXT LINE U+0085; JavaScript's
   * `trim` adds the byte order mark U+FEFF.
   */
  predicate IsSpace(d: Dialect, c: char)
  {
    || SharedSpace(c)
    || (d == Python && (('\U{1C}' <= c <= '\U{1F}') || c == '\U{85}'))
    || (d == JavaScript && c == '\U{FEFF}')
  }

  /** The two white-space sets differ, in both directions. */
  lemma DialectsDiffer()
    ensures IsSpace(Python, '\U{1C}') && !IsSpace(JavaScript, '\U{1C}')
    ensures IsSpace(Python, '\U{85}') && !IsSpace(JavaScript, '\U{85}')
    ensures IsSpace(JavaScript, '\U{FEFF}') && !IsSpace(Python, '\U{FEFF}')
    ensures forall c :: SharedSpace(c) ==> IsSpace(Python, c) && IsSpace(JavaScript, c)
  {
  }

  predicate AllSpace(d: Dialect, s: string)
  {
    forall i :: 0 <= i < |s| ==> IsSpace(d, s[i])
  }

  /** Drops the longest whitespace prefix. */
  function TrimStart(d: Dialect, s: string): string
  {
    if s != [] && IsSpace(d, s[0]) then TrimStart(d, s[1..]) else s
  }

  /** Drops the longest whitespace suffix. */
  function TrimEnd(d: Dialect, s: string): string
  {
    if s != [] && IsSpace(d, s[|s| - 1]) then TrimEnd(d, s[..|s| - 1]) else s
  }

  /** TrimStart removes exactly a maximal whitespace prefix. */
  lemma {:induction false} TrimStartSpec(d: Dialect, s: string)
    ensures var r := TrimStart(d, s);
      && |r| <= |s| && r == s[|s| - |r|..]
      && AllSpace(d, s[..|s| - |r|])
      && (r == [] || !IsSpace(d, r[0]))
  {
    if s != [] && IsSpace(d, s[0]) {
      TrimStartSpec(d, s[1..]);
      var r := TrimStart(d, s[1..]);
      assert s[..|s| - |r|] == [s[0]] + s[1..][..|s| - 1 - |r|];
    }
  }

  /** TrimEnd removes exactly a maximal whitespace suffix. */
  lemma {:induction false} TrimEndSpec(d: Dialect, s: string)
    ensures var r := TrimEnd(d, s);
      && |r| <= |s| && r == s[..|r|]
      && AllSpace(d, s[|r|..])
      && (r == [] || !IsSpace(d, r[|r| - 1]))
  {
    if s != [] && IsSpace(d, s[|s| - 1]) {
      var p := s[..|s| - 1];
      TrimEndSpec(d, p);
      var r := TrimEnd(d, p);
      assert s[|r|..] == p[|r|..] + [s[|s| - 1]];
    }
  }

  /**
   * `s.strip()` in Python, `s.trim()` in JavaScript: no longer than `s`, and
   * with no white space left at either end (`TrimStartSpec` and `TrimEndSpec`
   * say which characters went).
   */
  function Strip(d: Dialect, s: string): (r: string)
    ensures |r| <= |s|
    ensures r == [] || (!IsSpace(d, r[0]) && !IsSpace(d, r[|r| - 1]))
  {
    TrimStartSpec(d, s);
    TrimEndSpec(d, TrimStart(d, s));
    TrimEnd(d, TrimStart(d, s))
  }

  /** `len(s.strip()) < 1` in Python, `!s.trim()` in JavaScript: nothing but white space. */
  predicate IsBlank(d: Dialect, s: string)
    ensures IsBlank(d, s) <==> AllSpace(d, s)
  {
    TrimStartSpec(d, s);
    TrimEndSpec(d, TrimStart(d, s));
    var t := TrimStart(d, s);
    assert s[..|s| - 0] == s;
    assert t[0..] == t;
    |Strip(d, s)| == 0
  }

  // ---------------------------------------------------------------------------
  // Decimal numbers

  predicate IsDigit(c: char)
  {
    '0' <= c <= '9'
  }

  function DigitChar(d: nat): (c: char)
    requires d < 10
    ensures IsDigit(c)
  {
    (48 + d) as char
  }

  function DigitValue(c: char): (d: nat)
    requires IsDigit(c)
    ensures d < 10
  {
    c as int - 48
  }

  /** Decimal rendering of a non-negative integer, without leading zeros. */
  function NatToString(n: nat): (s: string)
    ensures |s| >= 1
    ensures forall i :: 0 <= i < |s| ==> IsDigit(s[i])
    ensures |s| > 1 ==> s[0] != '0'
  {
    if n < 10 then [DigitChar(n)] else NatToString(n / 10) + [DigitChar(n % 10)]
  }

  /** JavaScript's rendering of an integral number in a template literal, `${n}`. */
  function IntToString(i: int): (s: string)
    ensures |s| >= 1
    ensures i >= 0 <==> IsDigit(s[0])
  {
    if i < 0 then "-" + NatToString(-i) else NatToString(i)
  }

  /** A non-empty run of decimal digits, read back as a number (the `int` route converter). */
  function ParseNat(s: string): (r: Option<nat>)
    ensures r.Some? <==> s != [] && forall i :: 0 <= i < |s| ==> IsDigit(s[i])
  {
    if s == [] || !IsDigit(s[|s| - 1]) then None
    else if |s| == 1 then Some(DigitValue(s[0]))
    else match ParseNat(s[..|s| - 1])
      case None => None
      case Some(p) => Some(10 * p + DigitValue(s[|s| - 1]))
  }

  /** Parsing what was printed gives the number back. */
  lemma {:induction false} ParseNatToString(n: nat)
    ensures ParseNat(NatToString(n)) == Some(n)
  {
    var s := NatToString(n);
    if n >= 10 {
      var p := NatToString(n / 10);
      assert s == p + [DigitChar(n % 10)];
      assert s[..|s| - 1] == p;
      ParseNatToString(n / 10);
    }
  }

  /** Distinct numbers print differently. */
  lemma NatToStringInjective(a: nat, b: nat)
    requires NatToString(a) == NatToString(b)
    ensures a == b
  {
    ParseNatToString(a);
    ParseNatToString(b);
  }

  /** Distinct integers print differently, negative ones included. */
  lemma IntToStringInjective(a: int, b: int)
    requires IntToString(a) == IntToString(b)
    ensures a == b
  {
    if a < 0 && b < 0 {
      assert NatToString(-a) == IntToString(a)[1..];
      NatToStringInjective(-a, -b);
    } else if a >= 0 && b >= 0 {
      NatToStringInjective(a, b);
    }
  }

  // ---------------------------------------------------------------------------
  // Replacement

  /** Python's `s.replace(c, rep)`: every occurrence of `c` is replaced. */
  function ReplaceAll(s: string, c: char, rep: string): (r: string)
    ensures s == [] ==> r == []
    ensures |s| == 1 ==> r == (if s[0] == c then rep else s)
    ensures c !in rep ==> c !in r
    ensures c !in s ==> r == s
    ensures forall x :: x in r && x != c ==> x in s || x in rep
  {
    if s == [] then []
    else (if s[0] == c then rep else [s[0]]) + ReplaceAll(s[1..], c, rep)
  }

  /**
   * Replacement works piece by piece: together with the one-character case in
   * `ReplaceAll`'s contract this fixes the result of every input.
   */
  lemma {:induction false} ReplaceAllAppend(a: string, b: string, c: char, rep: string)
    ensures ReplaceAll(a + b, c, rep) == ReplaceAll(a, c, rep) + ReplaceAll(b, c, rep)
  {
    if a == [] {
      assert a + b == b;
    } else {
      assert (a + b)[1..] == a[1..] + b;
      ReplaceAllAppend(a[1..], b, c, rep);
    }
  }

  /** `'2024-01-15T10:30:00Z'.replace('Z', '+00:00')`: only the zone designator changes. */
  lemma ReplaceTrailingZ(s: string)
    requires 'Z' !in s
    ensures ReplaceAll(s + "Z", 'Z', "+00:00") == s + "+00:00"
  {
    ReplaceAllAppend(s, "Z", 'Z', "+00:00");
  }

  /** Index of the first occurrence of `c`, or `|s|` when there is none. */
  function FirstIndex(s: string, c: char): (k: nat)
    ensures k <= |s|
    ensures forall i :: 0 <= i < k ==> s[i] != c
    ensures k < |s| ==> s[k] == c
  {
    if s == [] || s[0] == c then 0 else 1 + FirstIndex(s[1..], c)
  }

  /** JavaScript's `s.replace(c, d)` with a string pattern: only the first occurrence changes. */
  function ReplaceFirst(s: string, c: char, d: char): (r: string)
    ensures |r| == |s|
    ensures forall i :: 0 <= i < |s| ==> r[i] == (if i == FirstIndex(s, c) then d else s[i])
    ensures c !in s ==> r == s
  {
    if s == [] then []
    else if s[0] == c then [d] + s[1..]
    else [s[0]] + ReplaceFirst(s[1..], c, d)
  }
}
