/**
 * The JavaScript value and string primitives the app relies on: truthiness of a
 * string that may be absent, `String.prototype.trim`, `replace(/\D/g, '')` and the
 * three regular-expression tests used by the sign-up and login forms.
 */
module JsText {

  datatype Option<T> = None | Some(value: T)

  /** JavaScript truthiness of a value that is a string, `null` or `undefined`. */
  predicate Truthy(v: Option<string>) {
    v.Some? && v.value != ""
  }

  /** LineTerminator of ECMA-262: what `.` in a regular expression does not match. */
  predicate IsLineTerminator(c: char) {
    c == '\n' || c == '\r' || c == '\U{2028}' || c == '\U{2029}'
  }

  /** WhiteSpace and LineTerminator of ECMA-262: the class `\s` and what `trim` removes. */
  predicate IsSpace(c: char) {
    || IsLineTerminator(c)
    || c == '\t' || c == '\U{B}' || c == '\U{C}' || c == ' ' || c == '\U{A0}'
    || c == '\U{1680}' || ('\U{2000}' <= c <= '\U{200A}')
    || c == '\U{202F}' || c == '\U{205F}' || c == '\U{3000}' || c == '\U{FEFF}'
  }

  /** The class `\d` (ASCII digits only in JavaScript). */
  predicate IsDigit(c: char) { '0' <= c <= '9' }

  predicate IsLower(c: char) { 'a' <= c <= 'z' }

  predicate IsUpper(c: char) { 'A' <= c <= 'Z' }

  predicate AllSpace(s: string) {
    forall k :: 0 <= k < |s| ==> IsSpace(s[k])
  }

  /** Drops the white space at the front of `s`. */
  function TrimStart(s: string): (r: string)
    ensures |r| <= |s|
  {
    if s != [] && IsSpace(s[0]) then TrimStart(s[1..]) else s
  }

  /** What `TrimStart` drops is all white space, and what it keeps is the rest of `s`,
      starting with a character that is not white space. */
  lemma {:induction false} TrimStartSpec(s: string)
    ensures var r := TrimStart(s);
      && r == s[|s| - |r|..] && AllSpace(s[..|s| - |r|])
      && (r == [] || !IsSpace(r[0]))
  {
    if s != [] && IsSpace(s[0]) {
      TrimStartSpec(s[1..]);
      var r := TrimStart(s[1..]);
      assert s[..|s| - |r|] == [s[0]] + s[1..][..|s| - 1 - |r|];
    }
  }

  /** Drops the white space at the back of `s`. */
  function TrimEnd(s: string): (r: string)
    ensures |r| <= |s|
  {
    if s != [] && IsSpace(s[|s| - 1]) then TrimEnd(s[..|s| - 1]) else s
  }

  /** What `TrimEnd` drops is all white space, and what it keeps is the front of `s`,
      ending with a character that is not white space. */
  lemma {:induction false} TrimEndSpec(s: string)
    ensures var r := TrimEnd(s);
      && r == s[..|r|] && AllSpace(s[|r|..])
      && (r == [] || !IsSpace(r[|r| - 1]))
  {
    if s != [] && IsSpace(s[|s| - 1]) {
      TrimEndSpec(s[..|s| - 1]);
      var r := TrimEnd(s[..|s| - 1]);
      assert s[|r|..] == s[..|s| - 1][|r|..] + [s[|s| - 1]];
    }
  }

  /** `s.trim()`. */
  function Trim(s: string): (r: string)
    ensures |r| <= |s|
  {
    TrimEnd(TrimStart(s))
  }

  /** `s.trim()` is a contiguous piece of `s`, starting at `Offset` and neither
      starting nor ending with white space, with only white space around it. */
  lemma TrimSpec(s: string)
    ensures var r, i := Trim(s), |s| - |TrimStart(s)|;
      && i + |r| <= |s| && r == s[i..i + |r|]
      && AllSpace(s[..i]) && AllSpace(s[i + |r|..])
      && (r == [] || (!IsSpace(r[0]) && !IsSpace(r[|r| - 1])))
  {
    var t := TrimStart(s);
    TrimStartSpec(s);
    TrimEndSpec(t);
    var r := TrimEnd(t);
    var i := |s| - |t|;
    assert r == s[i..i + |r|];
    assert s[i + |r|..] == t[|r|..];
  }

  /** A string trims to the empty string exactly when it is all white space. */
  lemma {:induction false} TrimEmptyIffBlank(s: string)
    ensures Trim(s) == [] <==> AllSpace(s)
  {
    TrimSpec(s);
    var i := |s| - |TrimStart(s)|;
    if Trim(s) == [] {
      assert s[i..] == s[i + |Trim(s)|..];
      forall k | 0 <= k < |s| ensures IsSpace(s[k]) {
        if k < i {
          assert s[k] == s[..i][k];
        } else {
          assert s[k] == s[i..][k - i];
        }
      }
    } else {
      assert s[i] == Trim(s)[0];
    }
  }

  /** `s.replace(/\D/g, '')`: the digits of `s`, in order. */
  function DigitsOf(s: string): (r: string)
    ensures |r| <= |s|
    ensures forall k :: 0 <= k < |r| ==> IsDigit(r[k])
  {
    if s == [] then []
    else if IsDigit(s[0]) then [s[0]] + DigitsOf(s[1..])
    else DigitsOf(s[1..])
  }

  /** Only the non-digits are removed: a string of digits comes back unchanged. */
  lemma {:induction false} DigitsOfDigits(s: string)
    requires forall k :: 0 <= k < |s| ==> IsDigit(s[k])
    ensures DigitsOf(s) == s
  {
    if s != [] {
      DigitsOfDigits(s[1..]);
      assert s == [s[0]] + s[1..];
    }
  }

  /** A string with no digit loses every character. */
  lemma {:induction false} DigitsOfNone(s: string)
    requires forall k :: 0 <= k < |s| ==> !IsDigit(s[k])
    ensures DigitsOf(s) == []
  {
    if s != [] {
      DigitsOfNone(s[1..]);
    }
  }

  /** Removing the non-digits of a concatenation removes those of each part. */
  lemma {:induction false} DigitsOfAppend(a: string, b: string)
    ensures DigitsOf(a + b) == DigitsOf(a) + DigitsOf(b)
  {
    if a != [] {
      assert (a + b)[1..] == a[1..] + b;
      DigitsOfAppend(a[1..], b);
    } else {
      assert a + b == b;
    }
  }

  /** The characters of `s` from `i` (inclusive) to `j` (exclusive) are none of them white space. */
  predicate NoSpaceIn(s: string, i: int, j: int)
    requires 0 <= i <= j <= |s|
  {
    forall k :: i <= k < j ==> !IsSpace(s[k])
  }

  /**
   * `/\S+@\S+\.\S+/.test(s)`. The pattern is not anchored, so it holds when SOME
   * piece of `s` is a non-space run, '@', a non-space run, '.', a non-space run.
   * The outer runs can be cut down to the one character next to '@' and to '.'.
   */
  predicate MatchesEmailPattern(s: string) {
    exists at, dot | 0 <= at < |s| && 0 <= dot < |s| :: EmailShapeAt(s, at, dot)
  }

  /** The pattern matches with its '@' at `at` and its '.' at `dot`. */
  predicate EmailShapeAt(s: string, at: int, dot: int) {
    && 0 < at < |s| && at + 1 < dot < |s| - 1
    && s[at] == '@' && s[dot] == '.'
    && !IsSpace(s[at - 1]) && NoSpaceIn(s, at + 1, dot) && !IsSpace(s[dot + 1])
  }

  /** The test is unanchored: surrounding text never makes a matching string fail. */
  lemma EmailPatternSurvivesContext(pre: string, s: string, post: string)
    requires MatchesEmailPattern(s)
    ensures MatchesEmailPattern(pre + s + post)
  {
    var t := pre + s + post;
    assert t[|pre|..|pre| + |s|] == s;
    EmailPatternInside(t, |pre|, s);
  }

  lemma EmailPatternInside(t: string, n: nat, s: string)
    requires n + |s| <= |t| && t[n..n + |s|] == s
    requires MatchesEmailPattern(s)
    ensures MatchesEmailPattern(t)
  {
    var at, dot :| 0 <= at < |s| && 0 <= dot < |s| && EmailShapeAt(s, at, dot);
    assert 0 < at && at + 1 < dot < |s| - 1;
    assert t[n + at] == s[at] && t[n + dot] == s[dot];
    assert t[n + at - 1] == s[at - 1] && t[n + dot + 1] == s[dot + 1];
    forall k | n + at + 1 <= k < n + dot ensures !IsSpace(t[k]) {
      assert t[k] == s[k - n];
    }
    assert EmailShapeAt(t, n + at, n + dot);
  }

  /** The character classes the password lookaheads look for. */
  datatype CharClass = Lower | Upper | Digit

  predicate InClass(c: char, k: CharClass) {
    match k
    case Lower => IsLower(c)
    case Upper => IsUpper(c)
    case Digit => IsDigit(c)
  }

  /** `/[a-z]/.test(s)` and its upper-case and digit counterparts. */
  predicate Contains(s: string, k: CharClass) {
    exists q :: 0 <= q < |s| && InClass(s[q], k)
  }

  /** `(?=.*X)` tried at position `p`: a character of class X occurs at or after `p`
      with no line terminator in between (`.` does not match one). */
  predicate LookaheadFinds(s: string, p: int, k: CharClass)
    requires 0 <= p <= |s|
  {
    exists q :: p <= q < |s| && InClass(s[q], k) && NoLineTerminatorIn(s, p, q)
  }

  predicate NoLineTerminatorIn(s: string, i: int, j: int)
    requires 0 <= i <= j <= |s|
  {
    forall m :: i <= m < j ==> !IsLineTerminator(s[m])
  }

  /** `/(?=.*[a-z])(?=.*[A-Z])(?=.*\d)/.test(s)`: the unanchored pattern succeeds at some position. */
  predicate MeetsPasswordPattern(s: string) {
    exists p :: 0 <= p <= |s| && LookaheadFinds(s, p, Lower) && LookaheadFinds(s, p, Upper) && LookaheadFinds(s, p, Digit)
  }

  /** Whatever the line breaks, a password passing the pattern holds a lower-case
      letter, an upper-case letter and a digit. */
  lemma PasswordPatternNeedsAllClasses(s: string)
    requires MeetsPasswordPattern(s)
    ensures Contains(s, Lower) && Contains(s, Upper) && Contains(s, Digit)
  {
  }

  /** On a password with no line break, the pattern is exactly "has a lower-case
      letter, an upper-case letter and a digit". */
  lemma PasswordPatternOnOneLine(s: string)
    requires NoLineTerminatorIn(s, 0, |s|)
    ensures MeetsPasswordPattern(s) <==> Contains(s, Lower) && Contains(s, Upper) && Contains(s, Digit)
  {
    if Contains(s, Lower) && Contains(s, Upper) && Contains(s, Digit) {
      LookaheadFromStart(s, Lower);
      LookaheadFromStart(s, Upper);
      LookaheadFromStart(s, Digit);
      assert LookaheadFinds(s, 0, Lower) && LookaheadFinds(s, 0, Upper) && LookaheadFinds(s, 0, Digit);
    }
    if MeetsPasswordPattern(s) {
      PasswordPatternNeedsAllClasses(s);
    }
  }

  lemma LookaheadFromStart(s: string, k: CharClass)
    requires NoLineTerminatorIn(s, 0, |s|) && Contains(s, k)
    ensures LookaheadFinds(s, 0, k)
  {
  }
}
