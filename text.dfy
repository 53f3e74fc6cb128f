/**
 * The string operations the classifier and the dependency mapper rely on, written out:
 * Python's `str.isspace`/`str.strip`, `str.startswith`, the substring test `t in s`, the
 * local name of a namespaced tag, and the first match of the regular expression `(\d+)`.
 */
module Text {
  import opened Wrappers

  /** Python's `str.isspace()`: exactly the characters `str.strip()` removes. */
  predicate IsSpace(c: char) {
    c == ' ' || ('\t' <= c <= '\r') || ('\U{1C}' <= c <= '\U{1F}')
    || c == '\U{85}' || c == '\U{A0}' || c == '\U{1680}'
    || ('\U{2000}' <= c <= '\U{200A}') || c == '\U{2028}' || c == '\U{2029}'
    || c == '\U{202F}' || c == '\U{205F}' || c == '\U{3000}'
  }

  /** An ASCII decimal digit, what `\d` matches in the version strings of package.json. */
  predicate IsDigit(c: char) {
    '0' <= c <= '9'
  }

  predicate IsNonDigit(c: char) {
    !IsDigit(c)
  }

  predicate IsNotCloseBrace(c: char) {
    c != '}'
  }

  /** Length of the longest prefix of `s` whose characters all satisfy `p`. */
  function Span(s: string, p: char -> bool): (n: nat)
    ensures n <= |s|
    ensures forall k :: 0 <= k < n ==> p(s[k])
    ensures n < |s| ==> !p(s[n])
  {
    if s == [] || !p(s[0]) then 0 else 1 + Span(s[1..], p)
  }

  /** Length of the longest suffix of `s` made of whitespace. */
  function TrailingSpaces(s: string): (n: nat)
    ensures n <= |s|
    ensures forall k :: |s| - n <= k < |s| ==> IsSpace(s[k])
    ensures n < |s| ==> !IsSpace(s[|s| - 1 - n])
  {
    if s == [] || !IsSpace(s[|s| - 1]) then 0 else 1 + TrailingSpaces(s[..|s| - 1])
  }

  /** Python's `s.strip()`: the part of `s` between its leading and its trailing whitespace. */
  function Strip(s: string): string {
    var t := s[Span(s, IsSpace)..];
    t[..|t| - TrailingSpaces(t)]
  }

  /**
   * What `strip` leaves: the slice of `s` that starts at the first non-whitespace character
   * and after which only whitespace follows; it has no whitespace at either end, and it is
   * empty exactly when `s` is all whitespace.
   */
  lemma StripSpec(s: string)
    ensures Span(s, IsSpace) + |Strip(s)| <= |s|
    ensures Strip(s) == s[Span(s, IsSpace)..Span(s, IsSpace) + |Strip(s)|]
    ensures forall k :: Span(s, IsSpace) + |Strip(s)| <= k < |s| ==> IsSpace(s[k])
    ensures Strip(s) == [] <==> forall k :: 0 <= k < |s| ==> IsSpace(s[k])
  {
  }

  /** A non-empty stripped string has no whitespace at either end. */
  lemma StripEnds(s: string)
    ensures Strip(s) != [] ==> !IsSpace(Strip(s)[0]) && !IsSpace(Strip(s)[|Strip(s)| - 1])
  {
  }

  /** Python's `s.startswith(p)`. */
  predicate StartsWith(s: string, p: string) {
    |p| <= |s| && s[..|p|] == p
  }

  /** Python's substring test `t in s`. */
  predicate Contains(s: string, t: string)
    decreases |s|
  {
    StartsWith(s, t) || (|s| > 0 && Contains(s[1..], t))
  }

  /** `t` occurs in `s` starting at index `i`. */
  predicate OccursAt(s: string, t: string, i: int) {
    0 <= i <= |s| - |t| && s[i..i + |t|] == t
  }

  /** An occurrence past the first character is an occurrence in the tail, and back. */
  lemma OccursShift(s: string, t: string, i: int)
    requires |s| > 0 && i > 0
    ensures OccursAt(s, t, i) <==> OccursAt(s[1..], t, i - 1)
  {
    if 0 < i <= |s| - |t| {
      assert s[i..i + |t|] == s[1..][i - 1..i - 1 + |t|];
    }
  }

  /** `t in s` holds exactly when `t` occurs in `s` at some position. */
  lemma {:induction false} ContainsIffOccurs(s: string, t: string)
    ensures Contains(s, t) <==> exists i :: OccursAt(s, t, i)
    decreases |s|
  {
    if StartsWith(s, t) {
      assert OccursAt(s, t, 0);
    } else if |s| > 0 {
      ContainsIffOccurs(s[1..], t);
      if Contains(s[1..], t) {
        var i :| OccursAt(s[1..], t, i);
        OccursShift(s, t, i + 1);
      } else {
        forall i | 0 < i
          ensures OccursAt(s, t, i) <==> OccursAt(s[1..], t, i - 1)
        {
          OccursShift(s, t, i);
        }
      }
    }
  }

  /**
   * The local name of a namespace-qualified ElementTree tag such as
   * `{http://maven.apache.org/POM/4.0.0}version`: what follows the first `}`, or the whole tag
   * when it has no `}`.
   */
  function LocalName(tag: string): (r: string)
    ensures '}' !in tag ==> r == tag
    ensures '}' in tag ==>
              |r| < |tag|
              && tag == tag[..|tag| - |r| - 1] + "}" + r
              && '}' !in tag[..|tag| - |r| - 1]
  {
    var i := Span(tag, IsNotCloseBrace);
    if i == |tag| then tag
    else
      assert tag == tag[..i] + "}" + tag[i + 1..];
      tag[i + 1..]
  }

  /**
   * The first match of the regular expression `(\d+)` in `s`: the first maximal run of digits,
   * or `None` when `s` has no digit.
   */
  function FirstDigitRun(s: string): (r: Option<string>)
    ensures r.None? <==> forall k :: 0 <= k < |s| ==> !IsDigit(s[k])
    ensures r.Some? ==>
      var i := Span(s, IsNonDigit);
      var n := |r.value|;
      0 < n && i + n <= |s| && r.value == s[i..i + n]
      && (forall k :: 0 <= k < n ==> IsDigit(r.value[k]))
      && (i + n < |s| ==> !IsDigit(s[i + n]))
  {
    var i := Span(s, IsNonDigit);
    if i == |s| then None
    else Some(s[i..i + Span(s[i..], IsDigit)])
  }
}
