/**
 * Character-level helpers shared by the model: decimal digits as Python's int()
 * and str() read and write them, Python's int() of a string, and stripping of
 * surrounding whitespace as Python's str.strip() and JavaScript's trim() do it.
 */
module Text {
  import opened Wrappers

  predicate IsDigit(c: char) { '0' <= c <= '9' }

  predicate AllDigits(s: string) { forall i :: 0 <= i < |s| ==> IsDigit(s[i]) }

  function DigitValue(c: char): (d: nat)
    requires IsDigit(c)
    ensures d < 10
  {
    (c as int) - ('0' as int)
  }

  function DigitChar(d: nat): (c: char)
    requires d < 10
    ensures IsDigit(c) && DigitValue(c) == d
  {
    ('0' as int + d) as char
  }

  /** Value of a run of decimal digits, most significant first. */
  function DigitsValue(s: string): nat
    requires AllDigits(s)
  {
    if s == [] then 0 else DigitsValue(s[..|s| - 1]) * 10 + DigitValue(s[|s| - 1])
  }

  /** Decimal rendering of a natural number, without leading zeros. */
  function NatToString(n: nat): (s: string)
    ensures |s| >= 1 && AllDigits(s)
    ensures |s| > 1 ==> s[0] != '0'
  {
    if n < 10 then [DigitChar(n)] else NatToString(n / 10) + [DigitChar(n % 10)]
  }

  /** Reading back the rendering gives the number. */
  lemma {:induction false} NatToStringRoundTrip(n: nat)
    ensures DigitsValue(NatToString(n)) == n
  {
    if n >= 10 {
      var s := NatToString(n);
      assert s[..|s| - 1] == NatToString(n / 10);
      NatToStringRoundTrip(n / 10);
    }
  }

  /** Length of the run of digits that starts s. */
  function LeadingDigits(s: string): (n: nat)
    ensures n <= |s| && AllDigits(s[..n])
    ensures n == |s| || !IsDigit(s[n])
  {
    if s != [] && IsDigit(s[0]) then
      var k := LeadingDigits(s[1..]);
      assert s[..k + 1] == [s[0]] + s[1..][..k];
      k + 1
    else 0
  }

  /** A digit run followed by a non-digit (or nothing) is read as exactly that run. */
  lemma {:induction false} LeadingDigitsOfRun(ds: string, rest: string)
    requires AllDigits(ds)
    requires rest == [] || !IsDigit(rest[0])
    ensures LeadingDigits(ds + rest) == |ds|
  {
    if ds != [] {
      assert (ds + rest)[1..] == ds[1..] + rest;
      LeadingDigitsOfRun(ds[1..], rest);
    }
  }

  /** Characters Python's str.isspace() accepts (what str.strip() removes). */
  predicate PyIsSpace(c: char) {
    c == ' ' || c == '\t' || c == '\n' || c == '\r' || c == '\U{B}' || c == '\U{C}'
    || ('\U{1C}' <= c <= '\U{1F}') || c == '\U{85}' || c == '\U{A0}' || c == '\U{1680}'
    || ('\U{2000}' <= c <= '\U{200A}') || c == '\U{2028}' || c == '\U{2029}'
    || c == '\U{202F}' || c == '\U{205F}' || c == '\U{3000}'
  }

  /** Characters JavaScript's String.prototype.trim() removes. */
  predicate JsIsSpace(c: char) {
    c == ' ' || c == '\t' || c == '\n' || c == '\r' || c == '\U{B}' || c == '\U{C}'
    || c == '\U{A0}' || c == '\U{FEFF}' || c == '\U{1680}'
    || ('\U{2000}' <= c <= '\U{200A}') || c == '\U{2028}' || c == '\U{2029}'
    || c == '\U{202F}' || c == '\U{205F}' || c == '\U{3000}'
  }

  /** The first index at or after i that holds no space, or |s|. */
  function SpacesFrom(s: string, isSpace: char -> bool, i: nat): (j: nat)
    requires i <= |s|
    ensures i <= j <= |s|
    ensures forall k :: i <= k < j ==> isSpace(s[k])
    ensures j < |s| ==> !isSpace(s[j])
    decreases |s| - i
  {
    if i == |s| || !isSpace(s[i]) then i else SpacesFrom(s, isSpace, i + 1)
  }

  /** The index after the last non-space in s[lo..j], or lo when there is none. */
  function SpacesBefore(s: string, isSpace: char -> bool, lo: nat, j: nat): (m: nat)
    requires lo <= j <= |s|
    ensures lo <= m <= j
    ensures forall k :: m <= k < j ==> isSpace(s[k])
    ensures m > lo ==> !isSpace(s[m - 1])
    decreases j - lo
  {
    if j == lo || !isSpace(s[j - 1]) then j else SpacesBefore(s, isSpace, lo, j - 1)
  }

  /** Where the stripped text starts in s. */
  function StripOffset(s: string, isSpace: char -> bool): nat
  {
    SpacesFrom(s, isSpace, 0)
  }

  /** s without its leading and trailing isSpace characters: the piece of s at
      StripOffset, with only spaces removed around it, neither starting nor ending
      with a space. */
  function Strip(s: string, isSpace: char -> bool): (r: string)
    ensures StripOffset(s, isSpace) + |r| <= |s|
    ensures r == s[StripOffset(s, isSpace)..StripOffset(s, isSpace) + |r|]
    ensures forall k :: 0 <= k < StripOffset(s, isSpace) ==> isSpace(s[k])
    ensures forall k :: StripOffset(s, isSpace) + |r| <= k < |s| ==> isSpace(s[k])
    ensures r == [] || (!isSpace(r[0]) && !isSpace(r[|r| - 1]))
  {
    var i := StripOffset(s, isSpace);
    s[i..SpacesBefore(s, isSpace, i, |s|)]
  }

  /** Stripping text that starts and ends with a non-space changes nothing. */
  lemma StripNoOp(s: string, isSpace: char -> bool)
    requires s != [] && !isSpace(s[0]) && !isSpace(s[|s| - 1])
    ensures Strip(s, isSpace) == s
  {
  }

  /** Digits, optionally grouped by single underscores, as Python's int() accepts them. */
  predicate IsDigitBody(b: string) {
    && b != [] && IsDigit(b[0]) && IsDigit(b[|b| - 1])
    && (forall i :: 0 <= i < |b| ==> IsDigit(b[i]) || b[i] == '_')
    && (forall i :: 0 <= i < |b| - 1 ==> !(b[i] == '_' && b[i + 1] == '_'))
  }

  function DropUnderscores(b: string): (r: string)
    requires forall i :: 0 <= i < |b| ==> IsDigit(b[i]) || b[i] == '_'
    ensures AllDigits(r)
  {
    if b == [] then []
    else if b[0] == '_' then DropUnderscores(b[1..])
    else [b[0]] + DropUnderscores(b[1..])
  }

  lemma {:induction false} DropUnderscoresOfDigits(ds: string)
    requires AllDigits(ds)
    ensures DropUnderscores(ds) == ds
  {
    if ds != [] {
      DropUnderscoresOfDigits(ds[1..]);
    }
  }

  /**
   * Python's int(s) for a string in base 10: surrounding whitespace, an optional
   * sign, then digits with optional single underscores between them. None stands
   * for the ValueError int() raises on anything else, the empty string included.
   */
  function PyInt(s: string): (r: Option<int>)
  {
    PyIntStripped(Strip(s, PyIsSpace))
  }

  /** int() on text already stripped of whitespace. */
  function PyIntStripped(t: string): Option<int>
  {
    if t == [] then None
    else
      var negative := t[0] == '-';
      var body := if t[0] == '-' || t[0] == '+' then t[1..] else t;
      if IsDigitBody(body) then
        var magnitude: int := DigitsValue(DropUnderscores(body));
        Some(if negative then -magnitude else magnitude)
      else None
  }

  lemma DigitIsNotSpace(c: char)
    requires IsDigit(c)
    ensures !PyIsSpace(c)
  {
  }

  /** int() reads a plain run of digits as its decimal value. */
  lemma PyIntOfDigits(ds: string)
    requires ds != [] && AllDigits(ds)
    ensures PyInt(ds) == Some(DigitsValue(ds))
  {
    DigitIsNotSpace(ds[0]);
    DigitIsNotSpace(ds[|ds| - 1]);
    StripNoOp(ds, PyIsSpace);
    assert ds[0] != '-' && ds[0] != '+';
    assert IsDigitBody(ds);
    DropUnderscoresOfDigits(ds);
  }

  /** int() reads back what str() writes for a natural number. */
  lemma PyIntOfNatToString(n: nat)
    ensures PyInt(NatToString(n)) == Some(n)
  {
    NatToStringRoundTrip(n);
    PyIntOfDigits(NatToString(n));
  }

  /** A sign in front of the digits is read as the sign of the value. */
  lemma PyIntSigned(t: string)
    requires t != [] && (t[0] == '-' || t[0] == '+')
    requires t[1..] != [] && AllDigits(t[1..])
    ensures var v: int := DigitsValue(t[1..]); PyInt(t) == Some(if t[0] == '-' then -v else v)
  {
    var ds := t[1..];
    DigitIsNotSpace(ds[|ds| - 1]);
    assert t[|t| - 1] == ds[|ds| - 1];
    StripNoOp(t, PyIsSpace);
    assert IsDigitBody(ds);
    DropUnderscoresOfDigits(ds);
    PyIntStrippedSigned(t);
  }

  /** int() of a sign followed by a digit body. */
  lemma PyIntStrippedSigned(t: string)
    requires t != [] && (t[0] == '-' || t[0] == '+') && IsDigitBody(t[1..])
    ensures var magnitude: int := DigitsValue(DropUnderscores(t[1..]));
      PyIntStripped(t) == Some(if t[0] == '-' then -magnitude else magnitude)
  {
  }

  /** Stripping a text framed by whitespace gives back its non-space core. */
  lemma StripFramed(pre: string, t: string, post: string, isSpace: char -> bool)
    requires forall k :: 0 <= k < |pre| ==> isSpace(pre[k])
    requires forall k :: 0 <= k < |post| ==> isSpace(post[k])
    requires t != [] && !isSpace(t[0]) && !isSpace(t[|t| - 1])
    ensures Strip(pre + t + post, isSpace) == t
  {
    var x := pre + t + post;
    var i := StripOffset(x, isSpace);
    var r := Strip(x, isSpace);
    assert x[|pre|] == t[0];
    assert i == |pre|;
    var e := i + |r|;
    assert x[|pre| + |t| - 1] == t[|t| - 1];
    assert e == |pre| + |t|;
    assert x[|pre|..|pre| + |t|] == t;
  }

  /** int() ignores whitespace around the text it reads. */
  lemma PyIntIgnoresSurroundingSpace(pre: string, t: string, post: string)
    requires forall k :: 0 <= k < |pre| ==> PyIsSpace(pre[k])
    requires forall k :: 0 <= k < |post| ==> PyIsSpace(post[k])
    requires t != [] && !PyIsSpace(t[0]) && !PyIsSpace(t[|t| - 1])
    ensures PyInt(pre + t + post) == PyInt(t)
  {
    StripFramed(pre, t, post, PyIsSpace);
    StripNoOp(t, PyIsSpace);
  }

  /** The empty string and anything with no digit at all are rejected. */
  lemma PyIntNeedsADigit(s: string)
    requires forall i :: 0 <= i < |s| ==> !IsDigit(s[i])
    ensures PyInt(s) == None
  {
    var t, i := Strip(s, PyIsSpace), StripOffset(s, PyIsSpace);
    if t != [] {
      var j := if t[0] == '-' || t[0] == '+' then 1 else 0;
      if j < |t| {
        assert t[j] == s[i + j];
      }
    }
  }
}
