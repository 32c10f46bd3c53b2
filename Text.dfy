/**
 * The Kotlin string and character operations the app relies on, over the
 * ASCII subset: `Char.isDigit`, `isBlank`, `startsWith`, `substringBefore`,
 * `contains(ignoreCase = true)` and decimal rendering of integers.
 */
module Text {

  /** `Char.isDigit`, restricted to the ASCII digits. */
  predicate IsDigit(c: char) {
    '0' <= c <= '9'
  }

  predicate AllDigits(s: string) {
    forall i :: 0 <= i < |s| ==> IsDigit(s[i])
  }

  /** `Char.isWhitespace`: the ASCII and Latin-1 characters Kotlin treats as white space. */
  predicate IsWhitespace(c: char) {
    c == ' ' || ('\t' <= c <= '\r') || ('\U{1C}' <= c <= '\U{1F}') || c == '\U{A0}'
  }

  /** `CharSequence.isBlank`: empty or white space only. */
  predicate IsBlank(s: string) {
    forall i :: 0 <= i < |s| ==> IsWhitespace(s[i])
  }

  /** `s.filter { it.isDigit() }`: the digits of `s`, in order. */
  function DigitsOf(s: string): (r: string)
    ensures AllDigits(r)
    ensures |r| <= |s|
  {
    if s == [] then []
    else if IsDigit(s[0]) then [s[0]] + DigitsOf(s[1..])
    else DigitsOf(s[1..])
  }

  /** The digit filter distributes over concatenation. */
  lemma {:induction false} DigitsOfAppend(a: string, b: string)
    ensures DigitsOf(a + b) == DigitsOf(a) + DigitsOf(b)
  {
    if a != [] {
      assert (a + b)[1..] == a[1..] + b;
      DigitsOfAppend(a[1..], b);
    } else {
      assert a + b == b;
    }
  }

  /** Filtering a string made only of digits gives it back. */
  lemma {:induction false} DigitsOfAllDigits(s: string)
    requires AllDigits(s)
    ensures DigitsOf(s) == s
  {
    if s != [] {
      DigitsOfAllDigits(s[1..]);
    }
  }

  /** Filtering drops exactly the characters that are not digits. */
  lemma {:induction false} DigitsOfNoDigits(s: string)
    requires forall i :: 0 <= i < |s| ==> !IsDigit(s[i])
    ensures DigitsOf(s) == []
  {
    if s != [] {
      DigitsOfNoDigits(s[1..]);
    }
  }

  /** `s.startsWith(p)`. */
  predicate StartsWith(s: string, p: string) {
    |p| <= |s| && s[..|p|] == p
  }

  /** `s.substringBefore(delim)`: `s` up to the first occurrence of `delim`, or all of `s`. */
  function SubstringBefore(s: string, delim: string): string
    decreases |s|
  {
    if StartsWith(s, delim) then ""
    else if s == [] then s
    else [s[0]] + SubstringBefore(s[1..], delim)
  }

  /** The result is a prefix of `s`, and it is all of `s` or is followed by `delim`. */
  lemma {:induction false} SubstringBeforePrefix(s: string, delim: string)
    ensures var r := SubstringBefore(s, delim);
      StartsWith(s, r) && (r == s || StartsWith(s[|r|..], delim))
    decreases |s|
  {
    if !StartsWith(s, delim) && s != [] {
      SubstringBeforePrefix(s[1..], delim);
      var r := SubstringBefore(s[1..], delim);
      assert s[1..][|r|..] == s[|r| + 1..];
      assert s == [s[0]] + s[1..];
    }
  }

  /** A string that does not contain `delim` anywhere is its own `substringBefore`. */
  lemma {:induction false} SubstringBeforeAbsent(s: string, delim: string)
    requires forall i :: 0 <= i <= |s| ==> !StartsWith(s[i..], delim)
    ensures SubstringBefore(s, delim) == s
    decreases |s|
  {
    assert s[0..] == s;
    if s != [] {
      forall i | 0 <= i <= |s[1..]| ensures !StartsWith(s[1..][i..], delim) {
        assert s[1..][i..] == s[i + 1..];
      }
      SubstringBeforeAbsent(s[1..], delim);
    }
  }

  /** `p + "/{" + rest` is cut at the `"/{"` when `p` holds no `'/'`. */
  lemma {:induction false} SubstringBeforeSlashBrace(p: string, rest: string)
    requires '/' !in p
    ensures SubstringBefore(p + "/{" + rest, "/{") == p
    decreases |p|
  {
    var s := p + "/{" + rest;
    if p == [] {
      assert s[..2] == "/{";
    } else {
      assert s[0] == '/' ==> false;
      assert !StartsWith(s, "/{");
      assert s[1..] == p[1..] + "/{" + rest;
      SubstringBeforeSlashBrace(p[1..], rest);
    }
  }

  /** A string without `'{'` holds no `"/{"`, so it is its own `substringBefore("/{")`. */
  lemma NoBraceKey(s: string)
    requires '{' !in s
    ensures SubstringBefore(s, "/{") == s
  {
    forall i | 0 <= i <= |s| ensures !StartsWith(s[i..], "/{") {
      if i + 1 < |s| {
        assert s[i..][1] == s[i + 1] != '{';
      }
    }
    SubstringBeforeAbsent(s, "/{");
  }

  /** ASCII lower-casing, the part of Kotlin's case folding used here. */
  function ToLower(c: char): char {
    if 'A' <= c <= 'Z' then (c as int + 32) as char else c
  }

  function LowerString(s: string): (r: string)
    ensures |r| == |s|
    ensures forall i :: 0 <= i < |s| ==> r[i] == ToLower(s[i])
  {
    seq(|s|, i requires 0 <= i < |s| => ToLower(s[i]))
  }

  /** `s` starts with `q`, comparing characters without regard to case. */
  predicate MatchesAtStart(s: string, q: string) {
    |q| <= |s| && forall j :: 0 <= j < |q| ==> ToLower(s[j]) == ToLower(q[j])
  }

  /** `s.contains(q, ignoreCase = true)`. */
  predicate ContainsIgnoreCase(s: string, q: string)
    decreases |s|
  {
    MatchesAtStart(s, q) || (s != [] && ContainsIgnoreCase(s[1..], q))
  }

  /** Every string contains the empty string. */
  lemma EmptyQueryMatches(s: string)
    ensures ContainsIgnoreCase(s, "")
  {
  }

  /** The search is insensitive to the case of the query: lower-casing it changes nothing. */
  lemma {:induction false} ContainsIgnoreCaseLowerQuery(s: string, q: string)
    ensures ContainsIgnoreCase(s, q) == ContainsIgnoreCase(s, LowerString(q))
    decreases |s|
  {
    var lq := LowerString(q);
    assert MatchesAtStart(s, q) == MatchesAtStart(s, lq) by {
      forall j | 0 <= j < |q| ensures ToLower(q[j]) == ToLower(lq[j]) {
      }
    }
    if s != [] {
      ContainsIgnoreCaseLowerQuery(s[1..], q);
    }
  }

  /** A match is a position where the query occurs, so a non-empty match needs a long enough text. */
  lemma {:induction false} ContainsIgnoreCaseLength(s: string, q: string)
    requires ContainsIgnoreCase(s, q)
    ensures |q| <= |s|
    decreases |s|
  {
    if !MatchesAtStart(s, q) {
      ContainsIgnoreCaseLength(s[1..], q);
    }
  }

  function DigitChar(d: nat): (c: char)
    requires d < 10
    ensures IsDigit(c)
  {
    ('0' as int + d) as char
  }

  function DigitValue(c: char): (d: nat)
    requires IsDigit(c)
    ensures d < 10 && DigitChar(d) == c
  {
    c as int - '0' as int
  }

  /** Decimal rendering of a natural number, as Kotlin's string templates print it. */
  function NatToString(n: nat): (r: string)
    ensures |r| >= 1 && AllDigits(r)
    ensures n < 10 <==> |r| == 1
  {
    if n < 10 then [DigitChar(n)] else NatToString(n / 10) + [DigitChar(n % 10)]
  }

  /** Reading the decimal digits of a string back as a number (`String.toInt` on digits). */
  function ParseDigits(s: string): nat
    requires AllDigits(s)
  {
    if s == [] then 0 else 10 * ParseDigits(s[..|s| - 1]) + DigitValue(s[|s| - 1])
  }

  /** Rendering and reading decimal numbers are inverse. */
  lemma {:induction false} ParseNatToString(n: nat)
    ensures ParseDigits(NatToString(n)) == n
  {
    var r := NatToString(n);
    if n >= 10 {
      assert r[..|r| - 1] == NatToString(n / 10);
      ParseNatToString(n / 10);
    }
  }

  /** Decimal rendering of a (possibly negative) Kotlin `Int` or `Long`. */
  function IntToString(i: int): (r: string)
    ensures |r| >= 1
    ensures (i < 0) == (r[0] == '-')
  {
    if i < 0 then "-" + NatToString(-i) else NatToString(i)
  }
}
