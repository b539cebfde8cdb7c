/**
 * The parts of Python's `str` and `int` semantics that the bot's string
 * handling relies on: `startswith`/`endswith`, `isspace`, `strip`,
 * `replace(pat, "")`, `split(sep)`, `sep.join`, `split(maxsplit=n)`,
 * `str(int)` and `int(str)`.
 */
module PyStr {
  import opened Wrappers

  /** The characters for which Python's `str.isspace()` is true, by code point. */
  predicate IsSpace(c: char) {
    var n := c as int;
    (0x09 <= n <= 0x0D) || (0x1C <= n <= 0x20) || n == 0x85 || n == 0xA0 || n == 0x1680 ||
    (0x2000 <= n <= 0x200A) || n == 0x2028 || n == 0x2029 || n == 0x202F || n == 0x205F || n == 0x3000
  }

  /** No character of `s` is whitespace. */
  predicate NoSpace(s: string) {
    forall i :: 0 <= i < |s| ==> !IsSpace(s[i])
  }

  /** Every character of `s` is whitespace. */
  predicate AllSpace(s: string) {
    forall i :: 0 <= i < |s| ==> IsSpace(s[i])
  }

  predicate StartsWith(s: string, prefix: string) {
    |prefix| <= |s| && s[..|prefix|] == prefix
  }

  predicate EndsWith(s: string, suffix: string) {
    |suffix| <= |s| && s[|s| - |suffix|..] == suffix
  }

  /** `pat` occurs somewhere in `s` (Python's `pat in s`). */
  predicate Contains(s: string, pat: string)
    decreases |s|
  {
    |pat| <= |s| && (s[..|pat|] == pat || (s != [] && Contains(s[1..], pat)))
  }

  // ---------------------------------------------------------------------
  // strip

  /** The first index at or after `i` that is not whitespace (or `|s|`). */
  function SkipSpaces(s: string, i: nat): (j: nat)
    requires i <= |s|
    ensures i <= j <= |s|
    ensures forall k :: i <= k < j ==> IsSpace(s[k])
    ensures j == |s| || !IsSpace(s[j])
    decreases |s| - i
  {
    if i < |s| && IsSpace(s[i]) then SkipSpaces(s, i + 1) else i
  }

  /** The first index at or after `i` that is whitespace (or `|s|`). */
  function SkipWord(s: string, i: nat): (j: nat)
    requires i <= |s|
    ensures i <= j <= |s|
    ensures forall k :: i <= k < j ==> !IsSpace(s[k])
    ensures j == |s| || IsSpace(s[j])
    decreases |s| - i
  {
    if i < |s| && !IsSpace(s[i]) then SkipWord(s, i + 1) else i
  }

  /** Walking back from `j`, no further than `lo`, past trailing whitespace. */
  function BackSpaces(s: string, lo: nat, j: nat): (e: nat)
    requires lo <= j <= |s|
    ensures lo <= e <= j
    ensures forall k :: e <= k < j ==> IsSpace(s[k])
    ensures e == lo || !IsSpace(s[e - 1])
    decreases j
  {
    if j > lo && IsSpace(s[j - 1]) then BackSpaces(s, lo, j - 1) else j
  }

  /**
   * `s.strip()`: the infix of `s` from its first to its last non-whitespace
   * character. Everything cut away is whitespace, the result neither starts
   * nor ends with whitespace, and it is empty exactly when `s` is all
   * whitespace.
   */
  function Strip(s: string): (r: string)
    ensures |r| <= |s|
    ensures var a := SkipSpaces(s, 0);
      a + |r| <= |s| && r == s[a..a + |r|] &&
      (forall k :: 0 <= k < a ==> IsSpace(s[k])) &&
      (forall k :: a + |r| <= k < |s| ==> IsSpace(s[k]))
    ensures r == [] || (!IsSpace(r[0]) && !IsSpace(r[|r| - 1]))
    ensures r == [] <==> AllSpace(s)
  {
    var a := SkipSpaces(s, 0);
    var e := BackSpaces(s, a, |s|);
    s[a..e]
  }

  /** Walking back from `j` stops at `e` when only whitespace lies between them. */
  lemma {:induction false} BackSpacesAt(s: string, lo: nat, e: nat, j: nat)
    requires lo <= e <= j <= |s|
    requires forall k :: e <= k < j ==> IsSpace(s[k])
    requires e == lo || !IsSpace(s[e - 1])
    ensures BackSpaces(s, lo, j) == e
    decreases j
  {
    if j > e {
      BackSpacesAt(s, lo, e, j - 1);
    }
  }

  /** `strip` removes whitespace padding around text whose ends are not whitespace. */
  lemma StripPadded(w1: string, t: string, w2: string)
    requires AllSpace(w1) && AllSpace(w2)
    requires t != [] && !IsSpace(t[0]) && !IsSpace(t[|t| - 1])
    ensures Strip(w1 + t + w2) == t
  {
    var s := w1 + t + w2;
    var a := |w1|;
    var e := a + |t|;
    assert forall k :: 0 <= k < a ==> s[k] == w1[k];
    assert forall k :: e <= k < |s| ==> s[k] == w2[k - e];
    assert s[a] == t[0] && s[e - 1] == t[|t| - 1];
    SkipSpacesAt(s, 0, a);
    BackSpacesAt(s, a, e, |s|);
    assert s[a..e] == t;
  }

  /** Text whose ends are not whitespace is left alone by `strip`. */
  lemma StripUnchanged(s: string)
    requires s == [] || (!IsSpace(s[0]) && !IsSpace(s[|s| - 1]))
    ensures Strip(s) == s
  {
  }

  // ---------------------------------------------------------------------
  // replace(pat, "")

  /**
   * `s.replace(pat, "")` for a non-empty `pat`: occurrences are found from
   * the left and do not overlap. The result is never longer, and text
   * without an occurrence is returned unchanged.
   */
  function RemoveAll(s: string, pat: string): (r: string)
    requires pat != []
    ensures |r| <= |s|
    ensures !Contains(s, pat) ==> r == s
    decreases |s|
  {
    if |s| < |pat| then s
    else if s[..|pat|] == pat then RemoveAll(s[|pat|..], pat)
    else
      var rest := RemoveAll(s[1..], pat);
      assert !Contains(s, pat) ==> rest == s[1..];
      [s[0]] + rest
  }

  /** A leading copy of `pat` disappears. */
  lemma RemoveAllLeading(pat: string, s: string)
    requires pat != []
    ensures RemoveAll(pat + s, pat) == RemoveAll(s, pat)
  {
    assert (pat + s)[..|pat|] == pat;
    assert (pat + s)[|pat|..] == s;
  }

  /**
   * The first occurrence is removed: when `pat` does not start anywhere in
   * `a` (nor overlap its end), the text before it is kept and the
   * removal goes on after it.
   */
  lemma {:induction false} RemoveAllFirstOccurrence(a: string, pat: string, b: string)
    requires pat != [] && !Contains(a + pat[..|pat| - 1], pat)
    ensures RemoveAll(a + pat + b, pat) == a + RemoveAll(b, pat)
    decreases |a|
  {
    if a == [] {
      assert a + pat + b == pat + b;
      RemoveAllLeading(pat, b);
    } else {
      var s := a + pat + b;
      FirstOccurrenceLater(a, pat, b);
      assert s[1..] == a[1..] + pat + b;
      RemoveAllStep(s, pat);
      RemoveAllFirstOccurrence(a[1..], pat, b);
      assert a == [a[0]] + a[1..];
    }
  }

  /**
   * When `pat` does not start in a non-empty `a` (nor overlap its end), it
   * does not start at the head of `a + pat + b`, and still does not start
   * in `a[1..]`.
   */
  lemma FirstOccurrenceLater(a: string, pat: string, b: string)
    requires pat != [] && a != [] && !Contains(a + pat[..|pat| - 1], pat)
    ensures (a + pat + b)[..|pat|] != pat
    ensures !Contains(a[1..] + pat[..|pat| - 1], pat)
  {
    var x := a + pat[..|pat| - 1];
    assert (a + pat + b)[..|pat|] == x[..|pat|];
    assert x[1..] == a[1..] + pat[..|pat| - 1];
  }

  /** Where `pat` does not start, the first character is kept. */
  lemma RemoveAllStep(s: string, pat: string)
    requires pat != [] && |pat| <= |s| && s[..|pat|] != pat
    ensures RemoveAll(s, pat) == [s[0]] + RemoveAll(s[1..], pat)
  {
  }

  // ---------------------------------------------------------------------
  // split(sep) and sep.join
  /**
   * `s.split(sep)` for a one-character separator: always at least one
   * piece, and no piece contains the separator.
   */
  function Split(s: string, sep: char): (parts: seq<string>)
    ensures |parts| >= 1
    ensures forall i :: 0 <= i < |parts| ==> sep !in parts[i]
    decreases |s|
  {
    if s == [] then [[]]
    else
      var rest := Split(s[1..], sep);
      if s[0] == sep then [[]] + rest else [[s[0]] + rest[0]] + rest[1..]
  }

  /** `sep.join(parts)`; the empty list joins to the empty string. */
  function Join(sep: char, parts: seq<string>): string
    decreases |parts|
  {
    if parts == [] then []
    else if |parts| == 1 then parts[0]
    else parts[0] + [sep] + Join(sep, parts[1..])
  }

  /** Appending a part adds one separator before it, unless the list was empty. */
  lemma {:induction false} JoinAppend(sep: char, parts: seq<string>, p: string)
    ensures Join(sep, parts + [p]) == if parts == [] then p else Join(sep, parts) + [sep] + p
    decreases |parts|
  {
    if |parts| > 1 {
      assert (parts + [p])[1..] == parts[1..] + [p];
      JoinAppend(sep, parts[1..], p);
    } else if |parts| == 1 {
      assert parts + [p] == [parts[0], p];
    }
  }

  lemma {:induction false} SplitNoSeparator(s: string, sep: char)
    requires sep !in s
    ensures Split(s, sep) == [s]
    decreases |s|
  {
    if s != [] {
      SplitNoSeparator(s[1..], sep);
      assert [s[0]] + s[1..] == s;
    }
  }

  /** A separator in the middle splits the text into the pieces of each side. */
  lemma {:induction false} SplitAppend(a: string, b: string, sep: char)
    ensures Split(a + [sep] + b, sep) == Split(a, sep) + Split(b, sep)
    decreases |a|
  {
    var s := a + [sep] + b;
    if a == [] {
      assert s[1..] == b;
    } else {
      assert s[1..] == a[1..] + [sep] + b;
      SplitAppend(a[1..], b, sep);
    }
  }

  /** Joining the pieces of a split gives back the text. */
  lemma {:induction false} JoinSplit(s: string, sep: char)
    ensures Join(sep, Split(s, sep)) == s
    decreases |s|
  {
    if s != [] {
      JoinSplit(s[1..], sep);
      var rest := Split(s[1..], sep);
      if s[0] == sep {
        assert Split(s, sep)[1..] == rest;
      } else {
        var parts := Split(s, sep);
        assert parts[0] == [s[0]] + rest[0];
        if |rest| == 1 {
          assert [s[0]] + s[1..] == s;
        } else {
          assert parts[1..] == rest[1..];
          assert Join(sep, rest) == rest[0] + [sep] + Join(sep, rest[1..]);
          assert s == [s[0]] + s[1..];
        }
      }
    }
  }

  /** Splitting a join of separator-free pieces gives back the pieces. */
  lemma {:induction false} SplitJoin(parts: seq<string>, sep: char)
    requires parts != []
    requires forall i :: 0 <= i < |parts| ==> sep !in parts[i]
    ensures Split(Join(sep, parts), sep) == parts
    decreases |parts|
  {
    if |parts| == 1 {
      SplitNoSeparator(parts[0], sep);
    } else {
      SplitJoin(parts[1..], sep);
      SplitNoSeparator(parts[0], sep);
      SplitAppend(parts[0], Join(sep, parts[1..]), sep);
      assert [parts[0]] + parts[1..] == parts;
    }
  }

  // ---------------------------------------------------------------------
  // split(maxsplit=n)

  /**
   * `s[i:].split(maxsplit=n)` (no separator given): runs of whitespace
   * separate pieces and leading whitespace is ignored; once `n` pieces are
   * cut, the rest after its leading whitespace is the last piece. Every
   * piece is non-empty and starts with a non-whitespace character; every
   * piece but such a remainder is free of whitespace.
   */
  function SplitFrom(s: string, i: nat, maxsplit: nat): (parts: seq<string>)
    requires i <= |s|
    ensures |parts| <= maxsplit + 1
    ensures forall p :: 0 <= p < |parts| ==> parts[p] != [] && !IsSpace(parts[p][0])
    ensures forall p :: 0 <= p < |parts| - 1 ==> NoSpace(parts[p])
    ensures 0 < |parts| <= maxsplit ==> NoSpace(parts[|parts| - 1])
    decreases |s| - i
  {
    var a := SkipSpaces(s, i);
    if a == |s| then []
    else if maxsplit == 0 then [s[a..]]
    else
      var b := SkipWord(s, a);
      var w := s[a..b];
      assert w != [] && !IsSpace(w[0]) && NoSpace(w) by {
        assert forall k :: 0 <= k < |w| ==> w[k] == s[a + k];
      }
      var rest := SplitFrom(s, b, maxsplit - 1);
      var parts := [w] + rest;
      assert forall p :: 1 <= p < |parts| ==> parts[p] == rest[p - 1];
      parts
  }

  /** The split is empty exactly when only whitespace is left. */
  lemma SplitFromEmpty(s: string, i: nat, maxsplit: nat)
    requires i <= |s|
    ensures SplitFrom(s, i, maxsplit) == [] <==> AllSpace(s[i..])
  {
    var a := SkipSpaces(s, i);
    if a == |s| {
      assert forall k :: 0 <= k < |s| - i ==> s[i..][k] == s[i + k];
    } else {
      assert s[i..][a - i] == s[a];
    }
  }

  /** `s.split(maxsplit=n)`. */
  function SplitWhitespace(s: string, maxsplit: nat): seq<string> {
    SplitFrom(s, 0, maxsplit)
  }

  lemma SkipSpacesAt(s: string, i: nat, j: nat)
    requires i <= j <= |s|
    requires forall k :: i <= k < j ==> IsSpace(s[k])
    requires j == |s| || !IsSpace(s[j])
    ensures SkipSpaces(s, i) == j
  {
  }

  lemma SkipWordAt(s: string, i: nat, j: nat)
    requires i <= j <= |s|
    requires forall k :: i <= k < j ==> !IsSpace(s[k])
    requires j == |s| || IsSpace(s[j])
    ensures SkipWord(s, i) == j
  {
  }

  /**
   * After a run of whitespace from `i` to `a`, the word from `a` to `e`
   * that ends at whitespace or at the end of the text is cut off as the
   * next piece, and the split goes on after the word.
   */
  lemma SplitFromWord(s: string, i: nat, a: nat, e: nat, maxsplit: nat)
    requires i <= a < e <= |s|
    requires forall k :: i <= k < a ==> IsSpace(s[k])
    requires forall k :: a <= k < e ==> !IsSpace(s[k])
    requires e == |s| || IsSpace(s[e])
    ensures SplitFrom(s, i, maxsplit + 1) == [s[a..e]] + SplitFrom(s, e, maxsplit)
  {
    SkipSpacesAt(s, i, a);
    SkipWordAt(s, a, e);
  }

  /**
   * With no splits left, whatever follows the whitespace run from `i` to `a`
   * is the one last piece, whitespace inside it included.
   */
  lemma SplitFromRest(s: string, i: nat, a: nat)
    requires i <= a < |s|
    requires forall k :: i <= k < a ==> IsSpace(s[k])
    requires !IsSpace(s[a])
    ensures SplitFrom(s, i, 0) == [s[a..]]
  {
    SkipSpacesAt(s, i, a);
  }

  /**
   * "w1 w2 rest" with `split(maxsplit=2)`: whitespace up to `a1`, a word
   * up to `e1`, whitespace up to `a2`, a word up to `e2`, whitespace up to
   * `a3`, and from `a3` on a rest that starts with a non-space split into
   * exactly those three pieces. The runs of whitespace between the pieces
   * may be any non-empty mix of spaces, tabs and newlines.
   */
  lemma SplitWhitespaceThree(s: string, a1: nat, e1: nat, a2: nat, e2: nat, a3: nat)
    requires 0 <= a1 < e1 < a2 < e2 < a3 < |s|
    requires forall k :: 0 <= k < a1 ==> IsSpace(s[k])
    requires forall k :: a1 <= k < e1 ==> !IsSpace(s[k])
    requires forall k :: e1 <= k < a2 ==> IsSpace(s[k])
    requires forall k :: a2 <= k < e2 ==> !IsSpace(s[k])
    requires forall k :: e2 <= k < a3 ==> IsSpace(s[k])
    requires !IsSpace(s[a3])
    ensures SplitWhitespace(s, 2) == [s[a1..e1], s[a2..e2], s[a3..]]
  {
    SplitFromWord(s, 0, a1, e1, 1);
    SplitFromWord(s, e1, a2, e2, 0);
    SplitFromRest(s, e2, a3);
  }

  // ---------------------------------------------------------------------
  // str(int) and int(str)

  predicate IsDigit(c: char) {
    '0' <= c <= '9'
  }

  predicate AllDigits(s: string) {
    forall i :: 0 <= i < |s| ==> IsDigit(s[i])
  }

  function DigitChar(d: nat): (c: char)
    requires d < 10
    ensures IsDigit(c) && c as int - '0' as int == d
  {
    ('0' as int + d) as char
  }

  /** `str(n)` for `n >= 0`: decimal digits without leading zeros. */
  function NatToDecimal(n: nat): (s: string)
    ensures s != [] && AllDigits(s)
    ensures s[0] == '0' ==> n == 0
    decreases n
  {
    if n < 10 then [DigitChar(n)] else NatToDecimal(n / 10) + [DigitChar(n % 10)]
  }

  /** `str(i)` for any integer: a minus sign before the digits of `-i` when negative. */
  function IntToDecimal(i: int): string {
    if i < 0 then "-" + NatToDecimal(-i) else NatToDecimal(i)
  }

  /** The value of a string of decimal digits, most significant first. */
  function DigitsValue(s: string): nat
    requires AllDigits(s)
    decreases |s|
  {
    if s == [] then 0 else DigitsValue(s[..|s| - 1]) * 10 + (s[|s| - 1] as int - '0' as int)
  }

  /**
   * The information separators U+001C..U+001F. `isspace()` counts them as
   * whitespace, but `int()` does not strip them.
   */
  predicate IsInfoSeparator(c: char) {
    0x1C <= c as int <= 0x1F
  }

  predicate HasInfoSeparator(s: string) {
    exists k :: 0 <= k < |s| && IsInfoSeparator(s[k])
  }

  /**
   * `int(s)` for ASCII digits: surrounding whitespace is ignored, then
   * comes one optional sign and at least one decimal digit. Anything else
   * is the ValueError Python raises, here `None`.
   *
   * CPython maps every non-ASCII whitespace character to a space and then
   * strips only the ASCII whitespace " \t\n\v\f\r", so an information
   * separator is never stripped. Wherever it stands, it is left as a
   * character that is not a digit, and `int()` fails. Without one, the
   * characters `int()` strips are exactly those `isspace()` accepts.
   */
  function ParseInt(s: string): (r: Option<int>)
    ensures HasInfoSeparator(s) ==> r == None
  {
    if HasInfoSeparator(s) then None else ParseSigned(Strip(s))
  }

  /** One optional sign and at least one decimal digit, and nothing else. */
  function ParseSigned(t: string): Option<int> {
    if t != [] && (t[0] == '+' || t[0] == '-') then
      var d := t[1..];
      if d != [] && AllDigits(d) then
        var v: int := DigitsValue(d);
        Some(if t[0] == '-' then -v else v)
      else None
    else if t != [] && AllDigits(t) then Some(DigitsValue(t))
    else None
  }

  lemma {:induction false} DigitsValueOfDecimal(n: nat)
    ensures DigitsValue(NatToDecimal(n)) == n
    decreases n
  {
    if n >= 10 {
      DigitsValueOfDecimal(n / 10);
      var s := NatToDecimal(n);
      assert s[..|s| - 1] == NatToDecimal(n / 10);
    }
  }

  /** `str(i)`: an optional '-' and the digits of `|i|`, with nothing `int()` strips or refuses. */
  lemma IntToDecimalShape(i: int)
    ensures var s := IntToDecimal(i);
      && s != [] && !IsSpace(s[0]) && !IsSpace(s[|s| - 1]) && !HasInfoSeparator(s)
      && (i < 0 ==> s[0] == '-' && s[1..] == NatToDecimal(-i))
      && (i >= 0 ==> s == NatToDecimal(i))
  {
    var s := IntToDecimal(i);
    var digits := NatToDecimal(if i < 0 then -i else i);
    if i < 0 {
      assert s[1..] == digits;
      assert forall k :: 1 <= k < |s| ==> s[k] == digits[k - 1];
    }
  }

  /** `int(str(i)) == i` for every integer. */
  lemma ParseIntRoundTrip(i: int)
    ensures ParseInt(IntToDecimal(i)) == Some(i)
  {
    var s := IntToDecimal(i);
    IntToDecimalShape(i);
    StripUnchanged(s);
    DigitsValueOfDecimal(if i < 0 then -i else i);
  }

  /** Joining texts without information separators gives none. */
  lemma NoSeparatorConcat(a: string, b: string)
    requires !HasInfoSeparator(a) && !HasInfoSeparator(b)
    ensures !HasInfoSeparator(a + b)
  {
    forall k | 0 <= k < |a + b|
      ensures !IsInfoSeparator((a + b)[k])
    {
      if k >= |a| {
        assert (a + b)[k] == b[k - |a|];
      }
    }
  }

  /**
   * `int()` ignores any `isspace()` whitespace around `str(i)`, non-ASCII
   * whitespace such as U+0085 included, as long as it holds no
   * information separator.
   */
  lemma ParseIntPadded(w1: string, i: int, w2: string)
    requires AllSpace(w1) && AllSpace(w2) && !HasInfoSeparator(w1) && !HasInfoSeparator(w2)
    ensures ParseInt(w1 + IntToDecimal(i) + w2) == Some(i)
  {
    var d := IntToDecimal(i);
    var s := w1 + d + w2;
    IntToDecimalShape(i);
    assert Strip(s) == d by {
      StripPadded(w1, d, w2);
    }
    assert !HasInfoSeparator(s) by {
      NoSeparatorConcat(w1, d);
      NoSeparatorConcat(w1 + d, w2);
    }
    assert ParseSigned(d) == Some(i) by {
      StripUnchanged(d);
      ParseIntRoundTrip(i);
    }
  }

  /** `str` is injective on integers. */
  lemma IntToDecimalInjective(i: int, j: int)
    requires IntToDecimal(i) == IntToDecimal(j)
    ensures i == j
  {
    ParseIntRoundTrip(i);
    ParseIntRoundTrip(j);
  }
}
