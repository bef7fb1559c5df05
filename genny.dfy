/**
 * The JSON-fragment extraction of application/genny.py's generate_with_gemini:
 * the reply text of the language model is searched for `\[.*\]` (DOTALL), then
 * for `\{.*\}`, and the match is stripped. The HTTP request and the path to the
 * reply text in the response body are not modelled: the function takes the
 * status code and the reply text.
 */
module Genny {
  import opened Wrappers
  import opened Text

  /** Index of the first occurrence of c in s. */
  function FindFirst(s: string, c: char): (r: Option<nat>)
    ensures r.None? <==> c !in s
    ensures r.Some? ==> r.value < |s| && s[r.value] == c && c !in s[..r.value]
  {
    if s == [] then None
    else if s[0] == c then Some(0)
    else
      match FindFirst(s[1..], c)
      case None => None
      case Some(i) =>
        assert s[..i + 1] == [s[0]] + s[1..][..i];
        Some(i + 1)
  }

  /** Index of the last occurrence of c in s. */
  function FindLast(s: string, c: char): (r: Option<nat>)
    ensures r.None? <==> c !in s
    ensures r.Some? ==> r.value < |s| && s[r.value] == c && c !in s[r.value + 1..]
  {
    if s == [] then None
    else if s[|s| - 1] == c then Some(|s| - 1)
    else
      var r := FindLast(s[..|s| - 1], c);
      assert r.Some? ==> s[r.value + 1..] == s[..|s| - 1][r.value + 1..] + [s[|s| - 1]];
      r
  }

  /** The regular expression `open .* close` with DOTALL matches text[i..j + 1]. */
  predicate IsMatchAt(text: string, open: char, close: char, i: int, j: int) {
    0 <= i < j < |text| && text[i] == open && text[j] == close
  }

  /** The span re.search reports: the leftmost start, and from it the longest match
      (the greedy `.*` runs to the last closing delimiter). */
  function GreedySpan(text: string, open: char, close: char): Option<(nat, nat)>
  {
    match FindFirst(text, open)
    case None => None
    case Some(i) =>
      match FindLast(text, close)
      case None => None
      case Some(j) => if i < j then Some((i, j)) else None
  }

  /** Any match starts no earlier than the first opening delimiter and ends no later
      than the last closing one. */
  lemma MatchWithinFirstAndLast(text: string, open: char, close: char, i: int, j: int)
    requires IsMatchAt(text, open, close, i, j)
    ensures FindFirst(text, open).Some? && FindFirst(text, open).value <= i
    ensures FindLast(text, close).Some? && j <= FindLast(text, close).value
  {
    assert text[i] in text && text[j] in text;
    var f, l := FindFirst(text, open).value, FindLast(text, close).value;
    forall m | 0 <= m < f ensures text[m] != open {
      assert text[..f][m] == text[m];
    }
    forall m | l < m < |text| ensures text[m] != close {
      assert text[l + 1..][m - l - 1] == text[m];
    }
  }

  /** GreedySpan is exactly the leftmost-longest match of the regular expression. */
  lemma GreedySpanIsLeftmostLongest(text: string, open: char, close: char)
    ensures GreedySpan(text, open, close).None? <==>
      forall i, j :: !IsMatchAt(text, open, close, i, j)
    ensures GreedySpan(text, open, close).Some? ==>
      var (i, j) := GreedySpan(text, open, close).value;
      && IsMatchAt(text, open, close, i, j)
      && forall i', j' :: IsMatchAt(text, open, close, i', j') ==> i < i' || (i == i' && j' <= j)
  {
    forall i, j | IsMatchAt(text, open, close, i, j)
      ensures GreedySpan(text, open, close).Some?
      ensures i >= GreedySpan(text, open, close).value.0 && j <= GreedySpan(text, open, close).value.1
    {
      MatchWithinFirstAndLast(text, open, close, i, j);
    }
    if GreedySpan(text, open, close).Some? {
      var (i, j) := GreedySpan(text, open, close).value;
      assert IsMatchAt(text, open, close, i, j);
    }
  }

  /** The text of the leftmost-longest match, if any. */
  function GreedySearch(text: string, open: char, close: char): (r: Option<string>)
  {
    match GreedySpan(text, open, close)
    case None => None
    case Some((i, j)) => Some(text[i..j + 1])
  }

  /** The fragment generate_with_gemini hands back for a 200 reply. */
  function ExtractJson(text: string): (r: Option<string>)
  {
    match GreedySearch(text, '[', ']')
    case Some(m) => Some(Strip(m, PyIsSpace))
    case None =>
      match GreedySearch(text, '{', '}')
      case Some(m) => Some(Strip(m, PyIsSpace))
      case None => None
  }

  /** generate_with_gemini, with the HTTP response reduced to its status and reply text. */
  function GenerateWithGemini(status: int, text: string): (r: Option<string>)
    ensures status != 200 ==> r == None
    ensures status == 200 ==> r == ExtractJson(text)
  {
    if status == 200 then ExtractJson(text) else None
  }

  /** The span the extraction takes: the array match, else the object match. */
  function ChosenSpan(text: string): Option<(nat, nat)>
  {
    match GreedySpan(text, '[', ']')
    case Some(span) => Some(span)
    case None => GreedySpan(text, '{', '}')
  }

  /** An array match exists exactly when some `]` follows the first `[`. */
  lemma ArrayMatchIff(text: string)
    ensures GreedySearch(text, '[', ']').Some? <==>
      (FindFirst(text, '[').Some? && ']' in text[FindFirst(text, '[').value + 1..])
  {
    var fi := FindFirst(text, '[');
    if fi.Some? && ']' in text[fi.value + 1..] {
      var k :| fi.value + 1 <= k < |text| && text[k] == ']';
      assert text[fi.value + 1..][k - fi.value - 1] == ']';
      assert ']' in text;
    }
    if GreedySearch(text, '[', ']').Some? {
      var lj := FindLast(text, ']');
      assert text[fi.value + 1..][lj.value - fi.value - 1] == ']';
    }
  }

  /** The matched text runs from the first opener to the last closer. */
  lemma GreedySearchSlice(text: string, open: char, close: char)
    requires GreedySearch(text, open, close).Some?
    ensures FindFirst(text, open).Some? && FindLast(text, close).Some?
    ensures FindFirst(text, open).value < FindLast(text, close).value
    ensures GreedySearch(text, open, close).value
         == text[FindFirst(text, open).value..FindLast(text, close).value + 1]
  {
  }

  /** Text that opens and closes with a non-whitespace character survives the strip. */
  lemma StripDelimited(m: string, open: char, close: char)
    requires |m| >= 2 && m[0] == open && m[|m| - 1] == close
    requires !PyIsSpace(open) && !PyIsSpace(close)
    ensures Strip(m, PyIsSpace) == m
  {
    StripNoOp(m, PyIsSpace);
  }

  /** A match starts and ends with a delimiter that is not whitespace, so the strip
      leaves it as it is. */
  lemma StripKeepsMatch(text: string, open: char, close: char)
    requires GreedySearch(text, open, close).Some?
    requires !PyIsSpace(open) && !PyIsSpace(close)
    ensures FindFirst(text, open).Some? && FindLast(text, close).Some?
    ensures FindFirst(text, open).value < FindLast(text, close).value
    ensures Strip(GreedySearch(text, open, close).value, PyIsSpace)
         == text[FindFirst(text, open).value..FindLast(text, close).value + 1]
  {
    GreedySearchSlice(text, open, close);
    var i, j := FindFirst(text, open).value, FindLast(text, close).value;
    var m := text[i..j + 1];
    assert m[0] == open && m[|m| - 1] == close;
    StripDelimited(m, open, close);
  }

  /** With an array match, the result is exactly text from the first `[` to the last `]`:
      the strip takes nothing away. */
  lemma ExtractArray(text: string)
    requires GreedySearch(text, '[', ']').Some?
    ensures FindFirst(text, '[').Some? && FindLast(text, ']').Some?
    ensures ExtractJson(text) == Some(text[FindFirst(text, '[').value..FindLast(text, ']').value + 1])
  {
    StripKeepsMatch(text, '[', ']');
  }

  /** Without an array match, the result is text from the first `{` to the last `}`,
      when that pair exists. */
  lemma ExtractObject(text: string)
    requires GreedySearch(text, '[', ']').None?
    requires GreedySearch(text, '{', '}').Some?
    ensures FindFirst(text, '{').Some? && FindLast(text, '}').Some?
    ensures ExtractJson(text) == Some(text[FindFirst(text, '{').value..FindLast(text, '}').value + 1])
  {
    StripKeepsMatch(text, '{', '}');
  }

  /** Neither pair present: None. */
  lemma ExtractNone(text: string)
    ensures ExtractJson(text).None? <==>
      GreedySearch(text, '[', ']').None? && GreedySearch(text, '{', '}').None?
  {
  }

  /** Any returned fragment is the piece of the reply at ChosenSpan, delimited by a
      matching pair. */
  lemma ExtractJsonIsDelimitedInfix(text: string)
    ensures ExtractJson(text).Some? <==> ChosenSpan(text).Some?
    ensures ChosenSpan(text).Some? ==>
      var (i, j) := ChosenSpan(text).value;
      && i < j < |text|
      && ExtractJson(text).value == text[i..j + 1]
      && ((text[i] == '[' && text[j] == ']') || (text[i] == '{' && text[j] == '}'))
  {
    if GreedySearch(text, '[', ']').Some? {
      ExtractArray(text);
    } else if GreedySearch(text, '{', '}').Some? {
      ExtractObject(text);
    }
  }

  /** FindFirst is pinned down by its contract. */
  lemma FindFirstIs(s: string, c: char, i: nat)
    requires i < |s| && s[i] == c && c !in s[..i]
    ensures FindFirst(s, c) == Some(i)
  {
    assert s[i] in s;
  }

  /** FindLast is pinned down by its contract. */
  lemma FindLastIs(s: string, c: char, j: nat)
    requires j < |s| && s[j] == c && c !in s[j + 1..]
    ensures FindLast(s, c) == Some(j)
  {
    assert s[j] in s;
  }

  /** The brace fallback is consulted only when no array matched: an object holding
      one array, with no other brackets, yields the inner array and not the object. */
  lemma ArrayInsideObjectWins(key: string, items: string)
    requires '[' !in key && ']' !in key && '[' !in items && ']' !in items
    ensures ExtractJson(['{'] + key + [':', '['] + items + [']', '}']) == Some(['['] + items + [']'])
  {
    var before, inner, after := ['{'] + key + [':'], ['['] + items + [']'], ['}'];
    var text := before + inner + after;
    assert text == ['{'] + key + [':', '['] + items + [']', '}'];
    var i, j := |before|, |before| + |inner| - 1;
    assert text[..i] == before && text[i..j + 1] == inner && text[j + 1..] == after;
    FindFirstIs(text, '[', i);
    FindLastIs(text, ']', j);
    ExtractArray(text);
  }
}
