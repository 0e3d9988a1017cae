/**
 * The Python string operations the normalizers use: strip, split, join,
 * upper, lower, title, isupper, prefix tests, code-point ordering and the
 * decimal rendering of naturals. Case mapping covers the ASCII letters;
 * whitespace is Python's own set of white-space code points.
 */
module Text {

  predicate IsAsciiUpper(c: char) { 'A' <= c <= 'Z' }
  predicate IsAsciiLower(c: char) { 'a' <= c <= 'z' }
  predicate IsLetter(c: char) { IsAsciiUpper(c) || IsAsciiLower(c) }
  predicate IsDigit(c: char) { '0' <= c <= '9' }

  /** The code points Python's `str.split()` and `str.strip()` treat as white space. */
  predicate IsSpace(c: char) {
    || c == ' '
    || ('\t' <= c <= '\r')
    || ('\U{1C}' <= c <= '\U{1F}')
    || c == '\U{85}' || c == '\U{A0}' || c == '\U{1680}'
    || ('\U{2000}' <= c <= '\U{200A}')
    || c == '\U{2028}' || c == '\U{2029}' || c == '\U{202F}' || c == '\U{205F}' || c == '\U{3000}'
  }

  function UpperChar(c: char): (r: char)
    ensures IsLetter(r) == IsLetter(c) && !IsAsciiLower(r)
    ensures !IsAsciiLower(c) ==> r == c
  {
    if IsAsciiLower(c) then (c as int - 32) as char else c
  }

  function LowerChar(c: char): (r: char)
    ensures IsLetter(r) == IsLetter(c) && !IsAsciiUpper(r)
    ensures !IsAsciiUpper(c) ==> r == c
  {
    if IsAsciiUpper(c) then (c as int + 32) as char else c
  }

  /** `str.upper()` */
  function Upper(s: string): string {
    seq(|s|, i requires 0 <= i < |s| => UpperChar(s[i]))
  }

  /** `str.lower()` */
  function Lower(s: string): string {
    seq(|s|, i requires 0 <= i < |s| => LowerChar(s[i]))
  }

  /** `a` and `b` are the same text up to the case of their ASCII letters. */
  predicate EqualIgnoringCase(a: string, b: string) {
    |a| == |b| && forall i :: 0 <= i < |a| ==> LowerChar(a[i]) == LowerChar(b[i])
  }

  /** No lower-case ASCII letter. */
  predicate NoLower(s: string) { forall i :: 0 <= i < |s| ==> !IsAsciiLower(s[i]) }

  /** Text without lower-case letters is its own upper-casing. */
  lemma UpperNoLower(s: string)
    requires NoLower(s)
    ensures Upper(s) == s
  {
  }

  lemma {:induction false} UpperIdempotent(s: string)
    ensures Upper(Upper(s)) == Upper(s)
  {
  }

  function TrimLeft(s: string): (r: string)
    ensures |r| <= |s|
  {
    if s != [] && IsSpace(s[0]) then TrimLeft(s[1..]) else s
  }

  function TrimRight(s: string): (r: string)
    ensures |r| <= |s|
  {
    if s != [] && IsSpace(s[|s| - 1]) then TrimRight(s[..|s| - 1]) else s
  }

  /** `str.strip()`: the longest substring without white space at either end. */
  function Strip(s: string): string {
    TrimRight(TrimLeft(s))
  }

  /** `lstrip()` drops exactly the leading white space. */
  lemma {:induction false} TrimLeftSpec(s: string)
    ensures var r := TrimLeft(s);
      && r == s[|s| - |r|..]
      && (r == [] || !IsSpace(r[0]))
      && forall i :: 0 <= i < |s| - |r| ==> IsSpace(s[i])
  {
    if s != [] && IsSpace(s[0]) {
      TrimLeftSpec(s[1..]);
    }
  }

  /** `rstrip()` drops exactly the trailing white space. */
  lemma {:induction false} TrimRightSpec(s: string)
    ensures var r := TrimRight(s);
      && r == s[..|r|]
      && (r == [] || !IsSpace(r[|r| - 1]))
      && forall i :: |r| <= i < |s| ==> IsSpace(s[i])
  {
    if s != [] && IsSpace(s[|s| - 1]) {
      TrimRightSpec(s[..|s| - 1]);
    }
  }

  /** A stripped string neither starts nor ends with white space. */
  lemma StripEnds(s: string)
    ensures var r := Strip(s); r == [] || (!IsSpace(r[0]) && !IsSpace(r[|r| - 1]))
  {
    TrimLeftSpec(s);
    TrimRightSpec(TrimLeft(s));
    var l := TrimLeft(s);
    var r := TrimRight(l);
    if r != [] {
      assert r[0] == l[0];
    }
  }

  /** Letters and digits are not white space. */
  lemma PlainNotSpace(c: char)
    requires IsLetter(c) || IsDigit(c)
    ensures !IsSpace(c)
  {
  }

  lemma TrimLeftNoSpace(s: string)
    requires s != [] && !IsSpace(s[0])
    ensures TrimLeft(s) == s
  {
  }

  lemma TrimRightNoSpace(s: string)
    requires s != [] && !IsSpace(s[|s| - 1])
    ensures TrimRight(s) == s
  {
  }

  /** A string whose first and last characters are not white space is its own strip. */
  lemma StripNoSpaceEnds(s: string)
    requires s != [] && !IsSpace(s[0]) && !IsSpace(s[|s| - 1])
    ensures Strip(s) == s
  {
    TrimLeftNoSpace(s);
    TrimRightNoSpace(s);
  }

  /** A word as `str.split()` produces it: non-empty, without white space. */
  predicate IsToken(w: string) {
    w != [] && forall i :: 0 <= i < |w| ==> !IsSpace(w[i])
  }

  /** Length of the longest prefix free of white space. */
  function TokenLen(s: string): (n: nat)
    ensures n <= |s|
    ensures forall i :: 0 <= i < n ==> !IsSpace(s[i])
    ensures n == |s| || IsSpace(s[n])
  {
    if s == [] || IsSpace(s[0]) then 0 else 1 + TokenLen(s[1..])
  }

  /** `str.split()` without arguments: the maximal runs of non-white-space characters. */
  function Split(s: string): (ts: seq<string>)
    ensures forall k :: 0 <= k < |ts| ==> IsToken(ts[k])
    decreases |s|
  {
    if s == [] then []
    else if IsSpace(s[0]) then Split(s[1..])
    else
      var n := TokenLen(s);
      [s[..n]] + Split(s[n..])
  }

  /** `" ".join(ts)` */
  function JoinSpaces(ts: seq<string>): string {
    if ts == [] then ""
    else if |ts| == 1 then ts[0]
    else ts[0] + " " + JoinSpaces(ts[1..])
  }

  /**
   * No white space at either end, every white-space character is a plain
   * space, and no two of them are adjacent.
   */
  predicate WellSpaced(s: string) {
    && (s != [] ==> !IsSpace(s[0]) && !IsSpace(s[|s| - 1]))
    && forall i :: 0 <= i < |s| && IsSpace(s[i]) ==> s[i] == ' ' && i + 1 < |s| && !IsSpace(s[i + 1])
  }

  lemma {:induction false} JoinSpacesWellSpaced(ts: seq<string>)
    requires forall k :: 0 <= k < |ts| ==> IsToken(ts[k])
    ensures WellSpaced(JoinSpaces(ts))
  {
    if |ts| > 1 {
      JoinSpacesWellSpaced(ts[1..]);
      var rest := JoinSpaces(ts[1..]);
      var s := ts[0] + " " + rest;
      assert rest != [] by { assert IsToken(ts[1]); JoinSpacesStartsWith(ts[1..]); }
      assert forall i :: 0 <= i < |ts[0]| ==> s[i] == ts[0][i];
      forall i | |ts[0]| <= i < |s| && IsSpace(s[i])
        ensures s[i] == ' ' && i + 1 < |s| && !IsSpace(s[i + 1])
      {
        if i == |ts[0]| {
          assert s[i + 1] == rest[0];
        } else {
          assert s[i] == rest[i - |ts[0]| - 1];
          if i + 1 < |s| {
            assert s[i + 1] == rest[i - |ts[0]|];
          }
        }
      }
      assert s[|s| - 1] == rest[|rest| - 1];
    }
  }

  lemma {:induction false} JoinSpacesStartsWith(ts: seq<string>)
    requires ts != [] && IsToken(ts[0])
    ensures ts[0] <= JoinSpaces(ts)
  {
  }

  lemma {:induction false} SplitTokenThenRest(t: string, rest: string)
    requires IsToken(t)
    ensures Split(t + " " + rest) == [t] + Split(rest)
  {
    var s := t + " " + rest;
    TokenLenOfToken(t, " " + rest);
    assert s[..|t|] == t;
    assert s[|t|..] == " " + rest;
    assert (" " + rest)[1..] == rest;
  }

  lemma {:induction false} TokenLenOfToken(t: string, rest: string)
    requires forall i :: 0 <= i < |t| ==> !IsSpace(t[i])
    requires rest == [] || IsSpace(rest[0])
    ensures TokenLen(t + rest) == |t|
    decreases |t|
  {
    if t != [] {
      assert (t + rest)[1..] == t[1..] + rest;
      TokenLenOfToken(t[1..], rest);
    } else {
      assert t + rest == rest;
    }
  }

  /** Splitting a space-joined list of words gives the words back. */
  lemma {:induction false} SplitJoinSpaces(ts: seq<string>)
    requires forall k :: 0 <= k < |ts| ==> IsToken(ts[k])
    ensures Split(JoinSpaces(ts)) == ts
  {
    if |ts| == 1 {
      TokenLenOfToken(ts[0], []);
      assert ts[0] + [] == ts[0];
      assert ts[0][..|ts[0]|] == ts[0];
      assert ts[0][|ts[0]|..] == [];
    } else if |ts| > 1 {
      SplitTokenThenRest(ts[0], JoinSpaces(ts[1..]));
      SplitJoinSpaces(ts[1..]);
    }
  }

  /** Stripping a well-spaced string changes nothing. */
  lemma StripWellSpaced(s: string)
    requires WellSpaced(s)
    ensures Strip(s) == s
  {
  }

  /** `str.isupper()`: at least one upper-case letter and no lower-case one. */
  predicate IsUpperWord(w: string) {
    && (exists i :: 0 <= i < |w| && IsAsciiUpper(w[i]))
    && (forall i :: 0 <= i < |w| ==> !IsAsciiLower(w[i]))
  }

  /**
   * `str.title()` from a given state: a letter directly after a letter is
   * lower-cased, any other letter upper-cased; other characters are kept.
   */
  function TitleFrom(w: string, afterLetter: bool): (r: string)
    ensures |r| == |w|
    ensures forall i :: 0 <= i < |w| ==> IsLetter(r[i]) == IsLetter(w[i])
    ensures forall i :: 0 <= i < |w| && !IsLetter(w[i]) ==> r[i] == w[i]
  {
    if w == [] then []
    else if IsLetter(w[0]) then
      [if afterLetter then LowerChar(w[0]) else UpperChar(w[0])] + TitleFrom(w[1..], true)
    else
      [w[0]] + TitleFrom(w[1..], false)
  }

  function Title(w: string): string {
    TitleFrom(w, false)
  }

  lemma {:induction false} TitleFromIdempotent(w: string, afterLetter: bool)
    ensures TitleFrom(TitleFrom(w, afterLetter), afterLetter) == TitleFrom(w, afterLetter)
  {
    if w != [] {
      var r := TitleFrom(w, afterLetter);
      assert r[1..] == TitleFrom(w[1..], IsLetter(w[0]));
      TitleFromIdempotent(w[1..], IsLetter(w[0]));
    }
  }

  /** Lexicographic order by code point, as Python compares strings. */
  predicate LexLe(a: string, b: string)
    decreases |a|
  {
    a == [] || (b != [] && (a[0] < b[0] || (a[0] == b[0] && LexLe(a[1..], b[1..]))))
  }

  /** Strings that agree up to position `k` and differ there are ordered by that character. */
  lemma {:induction false} LexLeAt(a: string, b: string, k: nat)
    requires k < |a| && k < |b| && a[..k] == b[..k] && a[k] < b[k]
    ensures LexLe(a, b)
  {
    if k > 0 {
      assert a[0] == a[..k][0] == b[..k][0] == b[0];
      assert a[1..][..k - 1] == a[..k][1..] && b[1..][..k - 1] == b[..k][1..];
      LexLeAt(a[1..], b[1..], k - 1);
    }
  }

  lemma {:induction false} LexLeTotal(a: string, b: string)
    ensures LexLe(a, b) || LexLe(b, a)
    decreases |a|
  {
    if a != [] && b != [] && a[0] == b[0] {
      LexLeTotal(a[1..], b[1..]);
    }
  }

  lemma {:induction false} LexLeTransitive(a: string, b: string, c: string)
    requires LexLe(a, b) && LexLe(b, c)
    ensures LexLe(a, c)
    decreases |a|
  {
    if a != [] && b != [] && c != [] && a[0] == b[0] == c[0] {
      LexLeTransitive(a[1..], b[1..], c[1..]);
    }
  }

  lemma {:induction false} LexLeAntisymmetric(a: string, b: string)
    requires LexLe(a, b) && LexLe(b, a)
    ensures a == b
    decreases |a|
  {
    if a != [] && b != [] {
      LexLeAntisymmetric(a[1..], b[1..]);
      assert a == [a[0]] + a[1..] && b == [b[0]] + b[1..];
    }
  }

  function DigitChar(d: nat): (c: char)
    requires d < 10
    ensures IsDigit(c)
  {
    ('0' as int + d) as char
  }

  function DigitValue(c: char): (d: nat)
    requires IsDigit(c)
    ensures d < 10 && DigitChar(d) == c
  {
    c as int - '0' as int
  }

  predicate AllDigits(s: string) {
    forall i :: 0 <= i < |s| ==> IsDigit(s[i])
  }

  /** The decimal value of a string of digits, most significant first. */
  function DigitsValue(s: string): nat
    requires AllDigits(s)
  {
    if s == [] then 0 else 10 * DigitsValue(s[..|s| - 1]) + DigitValue(s[|s| - 1])
  }

  /** `str(n)` for a natural number. */
  function NatToString(n: nat): (s: string)
    ensures s != [] && AllDigits(s)
  {
    if n < 10 then [DigitChar(n)] else NatToString(n / 10) + [DigitChar(n % 10)]
  }

  /** Reading back the decimal rendering of a natural gives the natural. */
  lemma {:induction false} NatToStringRoundTrip(n: nat)
    ensures DigitsValue(NatToString(n)) == n
  {
    if n >= 10 {
      var s := NatToString(n);
      assert s[..|s| - 1] == NatToString(n / 10);
      NatToStringRoundTrip(n / 10);
    }
  }

  /** The decimal rendering of `n`, left-padded with zeros to `width` digits. */
  function ZeroPad(n: nat, width: nat): (s: string)
    ensures s != [] && AllDigits(s)
  {
    var d := NatToString(n);
    if |d| >= width then d else seq(width - |d|, _ => '0') + d
  }
}
