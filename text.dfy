/**
  The pieces of Python's string behaviour that the command surface relies on:
  `str.strip()`, `str.split(sep)` with a one-character separator, the `in`
  (substring) test, `str.isdigit()`, and `str(n)` / `int(s)` on decimal numbers.
 */
module Text {

  // ----- Whitespace and strip() -----

  /** Python's `str.isspace()` for one character. */
  predicate IsSpace(c: char) {
    || ('\t' <= c <= '\r')                         // \t \n \x0b \x0c \r
    || ('\U{1C}' <= c <= '\U{1F}')
    || c == ' ' || c == '\U{85}' || c == '\U{A0}'
    || c == '\U{1680}'
    || ('\U{2000}' <= c <= '\U{200A}')
    || c == '\U{2028}' || c == '\U{2029}' || c == '\U{202F}'
    || c == '\U{205F}' || c == '\U{3000}'
  }

  function TrimLeft(s: string): (r: string)
    ensures |r| <= |s| && r == s[|s| - |r|..]
    ensures r == [] || !IsSpace(r[0])
    ensures forall i :: 0 <= i < |s| - |r| ==> IsSpace(s[i])
  {
    if |s| > 0 && IsSpace(s[0]) then TrimLeft(s[1..]) else s
  }

  function TrimRight(s: string): (r: string)
    ensures |r| <= |s| && r == s[..|r|]
    ensures r == [] || !IsSpace(r[|r| - 1])
    ensures forall i :: |r| <= i < |s| ==> IsSpace(s[i])
  {
    if |s| > 0 && IsSpace(s[|s| - 1]) then TrimRight(s[..|s| - 1]) else s
  }

  /** Python's `s.strip()`: `s` without its leading and trailing whitespace. */
  function Strip(s: string): string {
    TrimRight(TrimLeft(s))
  }

  /** `s.strip() == ''` exactly when every character of `s` is whitespace. */
  lemma StripEmptyIffAllSpace(s: string)
    ensures Strip(s) == [] <==> forall i :: 0 <= i < |s| ==> IsSpace(s[i])
  {
    var l := TrimLeft(s);
    if Strip(s) != [] {
      var r := Strip(s);
      assert r[0] == l[0];
      assert !IsSpace(s[|s| - |l|]);
    }
  }

  /** The result of strip() has no whitespace at either end, and strip() is idempotent. */
  lemma StripIdempotent(s: string)
    ensures Strip(Strip(s)) == Strip(s)
  {
    var r := Strip(s);
    var l := TrimLeft(s);
    if r != [] {
      assert r[0] == l[0];
      assert !IsSpace(r[0]);
      assert TrimLeft(r) == r;
    }
  }

  // ----- Digits, str(n) and int(s) -----

  predicate IsDigitChar(c: char) {
    '0' <= c <= '9'
  }

  predicate AllDigits(s: string) {
    forall i :: 0 <= i < |s| ==> IsDigitChar(s[i])
  }

  /** Python's `s.isdigit()`, restricted to the ASCII digits: non-empty and all digits. */
  predicate IsDigitString(s: string) {
    |s| > 0 && AllDigits(s)
  }

  /** A decimal numeral as `str(n)` writes it for a natural `n`: no superfluous leading zero. */
  predicate IsCanonicalDecimal(s: string) {
    IsDigitString(s) && (s[0] == '0' ==> |s| == 1)
  }

  function DigitChar(d: nat): (c: char)
    requires d < 10
    ensures IsDigitChar(c)
  {
    (48 + d) as char
  }

  function DigitValue(c: char): (d: nat)
    requires IsDigitChar(c)
    ensures d < 10
  {
    c as int - 48
  }

  /** Python's `str(n)` for a natural number. */
  function DecimalString(n: nat): string
  {
    if n < 10 then [DigitChar(n)] else DecimalString(n / 10) + [DigitChar(n % 10)]
  }

  /** Python's `int(s)` for a string of ASCII digits. */
  function DecimalValue(s: string): nat
    requires AllDigits(s)
  {
    if |s| == 0 then 0 else DecimalValue(s[..|s| - 1]) * 10 + DigitValue(s[|s| - 1])
  }

  /** `int(str(n)) == n`, and `str(n)` is a canonical numeral. */
  lemma {:induction false} DecimalRoundTrip(n: nat)
    ensures IsCanonicalDecimal(DecimalString(n))
    ensures DecimalValue(DecimalString(n)) == n
  {
    var s := DecimalString(n);
    if n >= 10 {
      DecimalRoundTrip(n / 10);
      var t := DecimalString(n / 10);
      assert s == t + [DigitChar(n % 10)];
      assert s[..|s| - 1] == t;
      assert s[0] == t[0];
    }
  }

  /** A numeral whose first digit is not 0 denotes a positive number. */
  lemma {:induction false} LeadingNonZeroPositive(s: string)
    requires IsDigitString(s) && s[0] != '0'
    ensures DecimalValue(s) > 0
  {
    if |s| > 1 {
      var t := s[..|s| - 1];
      assert t[0] == s[0];
      LeadingNonZeroPositive(t);
    }
  }

  /** `str(int(s)) == s` for every canonical numeral `s`. */
  lemma {:induction false} NumeralRoundTrip(s: string)
    requires IsCanonicalDecimal(s)
    ensures DecimalString(DecimalValue(s)) == s
  {
    if |s| > 1 {
      var t := s[..|s| - 1];
      assert t[0] == s[0];
      LeadingNonZeroPositive(t);
      NumeralRoundTrip(t);
      var n := DecimalValue(s);
      assert n / 10 == DecimalValue(t) && n % 10 == DigitValue(s[|s| - 1]);
      assert s == t + [s[|s| - 1]];
    }
  }

  /** A string of digits holds no whitespace, so strip() leaves it alone. */
  lemma DigitsAreStripped(s: string)
    requires AllDigits(s)
    ensures Strip(s) == s
  {
    if |s| > 0 {
      assert !IsSpace(s[0]);
      assert !IsSpace(s[|s| - 1]);
    }
  }

  // ----- split(sep) -----

  /** Python's `s.split(sep)` for a one-character separator: every occurrence splits,
      empty fields are kept, and the result is never empty. */
  function Split(s: string, sep: char): (r: seq<string>)
    ensures |r| >= 1
  {
    if |s| == 0 then [""]
    else
      var rest := Split(s[1..], sep);
      if s[0] == sep then [""] + rest else [[s[0]] + rest[0]] + rest[1..]
  }

  /** Python's `sep.join(words)` for a one-character separator. */
  function Join(words: seq<string>, sep: char): string
    requires |words| >= 1
  {
    if |words| == 1 then words[0] else words[0] + [sep] + Join(words[1..], sep)
  }

  lemma JoinCons(w: string, rest: seq<string>, sep: char)
    requires |rest| >= 1
    ensures Join([w] + rest, sep) == w + [sep] + Join(rest, sep)
  {
    assert ([w] + rest)[1..] == rest;
  }

  lemma {:induction false} SplitAfterWord(a: string, t: string, sep: char)
    requires sep !in a
    ensures Split(a + t, sep) == [a + Split(t, sep)[0]] + Split(t, sep)[1..]
  {
    if |a| > 0 {
      SplitAfterWord(a[1..], t, sep);
      assert (a + t)[1..] == a[1..] + t;
      assert [a[0]] + (a[1..] + Split(t, sep)[0]) == a + Split(t, sep)[0];
    } else {
      var r := Split(t, sep);
      assert a + t == t && a + r[0] == r[0];
      assert r == [r[0]] + r[1..];
    }
  }

  /** Splitting the joined words gives the words back, when no word holds the separator. */
  lemma {:induction false} SplitJoin(words: seq<string>, sep: char)
    requires |words| >= 1
    requires forall i :: 0 <= i < |words| ==> sep !in words[i]
    ensures Split(Join(words, sep), sep) == words
  {
    if |words| == 1 {
      SplitAfterWord(words[0], "", sep);
      assert Split("", sep) == [""];
      assert words[0] + "" == words[0];
      assert Join(words, sep) == words[0];
      assert [words[0] + ""] + [""][1..] == [words[0]];
    } else {
      var rest := Join(words[1..], sep);
      SplitJoin(words[1..], sep);
      SplitAfterWord(words[0], [sep] + rest, sep);
      assert words[0] + [sep] + rest == words[0] + ([sep] + rest);
      assert ([sep] + rest)[1..] == rest;
      assert Split([sep] + rest, sep) == [""] + words[1..];
      assert words[0] + "" == words[0];
      assert words == [words[0]] + words[1..];
    }
  }

  // ----- the `in` test on strings -----

  predicate IsPrefix(a: string, b: string) {
    |a| <= |b| && b[..|a|] == a
  }

  /** Python's `a in b` for two strings: `a` occurs somewhere in `b` (the empty string always does). */
  predicate IsSubstring(a: string, b: string)
    decreases |b|
  {
    IsPrefix(a, b) || (|b| > 0 && IsSubstring(a, b[1..]))
  }

  /** An occurrence in `y` is still an occurrence in `x + y`. */
  lemma {:induction false} SubstringOfSuffix(a: string, x: string, y: string)
    requires IsSubstring(a, y)
    ensures IsSubstring(a, x + y)
  {
    if |x| > 0 {
      SubstringOfSuffix(a, x[1..], y);
      assert (x + y)[1..] == x[1..] + y;
    } else {
      assert x + y == y;
    }
  }

  /** `a` occurs in `b` starting at index `i`. */
  predicate OccursAt(a: string, b: string, i: int) {
    0 <= i <= |b| - |a| && b[i..i + |a|] == a
  }

  /** `a in b` exactly when some slice of `b` equals `a`. */
  lemma {:induction false} SubstringIffOccurs(a: string, b: string)
    ensures IsSubstring(a, b) <==> exists i :: OccursAt(a, b, i)
    decreases |b|
  {
    if IsPrefix(a, b) {
      assert OccursAt(a, b, 0);
    } else if |b| > 0 {
      SubstringIffOccurs(a, b[1..]);
      if IsSubstring(a, b[1..]) {
        var i :| OccursAt(a, b[1..], i);
        assert b[i + 1..i + 1 + |a|] == b[1..][i..i + |a|];
        assert OccursAt(a, b, i + 1);
      }
      if exists i :: OccursAt(a, b, i) {
        var i :| OccursAt(a, b, i);
        assert i > 0;
        assert b[1..][i - 1..i - 1 + |a|] == b[i..i + |a|];
        assert OccursAt(a, b[1..], i - 1);
      }
    }
  }
}
