/**
 * The handle validator of the username form: the input is lowercased (ASCII
 * letters only in this model) and then tested against the pattern
 *   ^(?=[a-zA-Z0-9._]{3,25}$)(?!.*[_.]{2})[^_.].*[^_.]$
 * RegexTest follows the pattern piece by piece, UsernameRule states the same
 * condition plainly, and CheckPattern decides it with a single scan.
 */
module Username {

  const MinLength := 3
  const MaxLength := 25

  predicate IsSeparator(c: char) { c == '.' || c == '_' }

  predicate IsUpper(c: char) { 'A' <= c <= 'Z' }

  /** The character class [a-zA-Z0-9._]. */
  predicate InAlphabet(c: char) {
    'a' <= c <= 'z' || IsUpper(c) || '0' <= c <= '9' || IsSeparator(c)
  }

  /** The regex wildcard `.` without the s flag: anything but a line terminator. */
  predicate IsDotChar(c: char) {
    c != '\n' && c != '\r' && c != '\U{2028}' && c != '\U{2029}'
  }

  predicate AllDotChars(s: string) {
    forall i :: 0 <= i < |s| ==> IsDotChar(s[i])
  }

  // ---------------------------------------------------------------------
  // The pattern, piece by piece
  // ---------------------------------------------------------------------

  /** (?=[a-zA-Z0-9._]{3,25}$) at the start of the input. */
  predicate AlphabetLookahead(s: string) {
    MinLength <= |s| <= MaxLength && forall i :: 0 <= i < |s| ==> InAlphabet(s[i])
  }

  /** .*[_.]{2} matches a prefix of the input: the lookahead that (?!...) negates. */
  predicate SeparatorPairAhead(s: string) {
    exists i :: 0 <= i && i + 1 < |s| && AllDotChars(s[..i]) && IsSeparator(s[i]) && IsSeparator(s[i + 1])
  }

  /** [^_.].*[^_.]$ matched from the start of the input. */
  predicate BodyMatches(s: string) {
    |s| >= 2 && !IsSeparator(s[0]) && !IsSeparator(s[|s| - 1]) &&
    forall i :: 1 <= i < |s| - 1 ==> IsDotChar(s[i])
  }

  /** `re.test(s)` for the username pattern (anchored by ^, no flags). */
  predicate RegexTest(s: string)
    ensures RegexTest(s) ==> MinLength <= |s| <= MaxLength && !IsSeparator(s[0]) && !IsSeparator(s[|s| - 1])
  {
    AlphabetLookahead(s) && !SeparatorPairAhead(s) && BodyMatches(s)
  }

  // ---------------------------------------------------------------------
  // The same condition, stated plainly
  // ---------------------------------------------------------------------

  predicate NoSeparatorPair(s: string) {
    forall k :: 0 < k < |s| ==> !(IsSeparator(s[k - 1]) && IsSeparator(s[k]))
  }

  /** 3 to 25 characters from [a-zA-Z0-9._], no separator at either end, no two separators in a row. */
  predicate UsernameRule(s: string) {
    MinLength <= |s| <= MaxLength &&
    (forall i :: 0 <= i < |s| ==> InAlphabet(s[i])) &&
    !IsSeparator(s[0]) && !IsSeparator(s[|s| - 1]) &&
    NoSeparatorPair(s)
  }

  /** The pattern accepts exactly the strings the plain rule describes. */
  lemma RegexTestIsRule(s: string)
    ensures RegexTest(s) <==> UsernameRule(s)
  {
    if AlphabetLookahead(s) {
      assert forall i :: 0 <= i < |s| ==> IsDotChar(s[i]) by {
        forall i | 0 <= i < |s| ensures IsDotChar(s[i]) { assert InAlphabet(s[i]); }
      }
      if SeparatorPairAhead(s) {
        var i :| 0 <= i && i + 1 < |s| && AllDotChars(s[..i]) && IsSeparator(s[i]) && IsSeparator(s[i + 1]);
        assert !NoSeparatorPair(s) by {
          assert IsSeparator(s[(i + 1) - 1]) && IsSeparator(s[i + 1]);
        }
      }
      if !NoSeparatorPair(s) {
        var k :| 0 < k < |s| && IsSeparator(s[k - 1]) && IsSeparator(s[k]);
        assert AllDotChars(s[..k - 1]);
        assert SeparatorPairAhead(s);
      }
    }
  }

  // ---------------------------------------------------------------------
  // What the pattern promises
  // ---------------------------------------------------------------------

  /** An accepted handle has 3 to 25 characters, all from [a-zA-Z0-9._]. */
  lemma AcceptedLengthAndAlphabet(s: string)
    requires RegexTest(s)
    ensures MinLength <= |s| <= MaxLength
    ensures forall i :: 0 <= i < |s| ==> InAlphabet(s[i])
  {
    RegexTestIsRule(s);
  }

  /** A handle that starts or ends with `.` or `_` is rejected. */
  lemma RejectsSeparatorAtEnds(s: string)
    requires |s| > 0 && (IsSeparator(s[0]) || IsSeparator(s[|s| - 1]))
    ensures !RegexTest(s)
  {
    RegexTestIsRule(s);
  }

  /** A handle with two separators side by side ("a..b", "a._b") is rejected. */
  lemma RejectsSeparatorPair(s: string, k: nat)
    requires k + 1 < |s| && IsSeparator(s[k]) && IsSeparator(s[k + 1])
    ensures !RegexTest(s)
  {
    RegexTestIsRule(s);
    assert IsSeparator(s[(k + 1) - 1]);
  }

  /** Strings shorter than three characters are never accepted. */
  lemma RejectsShort(s: string)
    requires |s| < MinLength
    ensures !RegexTest(s)
  {
  }

  /** "valid.name1" is a well-formed handle. */
  lemma AcceptsExample()
    ensures RegexTest("valid.name1")
  {
    var s := "valid.name1";
    assert forall i :: 0 <= i < |s| ==> InAlphabet(s[i]);
    assert NoSeparatorPair(s);
    RegexTestIsRule(s);
  }

  /** "ab" is too short and "in--valid" uses a character outside the alphabet. */
  lemma RejectsShortAndForeignExamples()
    ensures !RegexTest("ab") && !RegexTest("in--valid")
  {
    assert !InAlphabet("in--valid"[2]);
  }

  /** "a..b" and "a._b" put two separators side by side; ".abc" and "abc_" put
      one at an end. */
  lemma RejectsSeparatorExamples()
    ensures !RegexTest("a..b") && !RegexTest("a._b")
    ensures !RegexTest(".abc") && !RegexTest("abc_")
  {
    RejectsSeparatorPair("a..b", 1);
    RejectsSeparatorPair("a._b", 1);
    RejectsSeparatorAtEnds(".abc");
    RejectsSeparatorAtEnds("abc_");
  }

  // ---------------------------------------------------------------------
  // The checker
  // ---------------------------------------------------------------------

  /** Decides the pattern with one left-to-right scan. */
  method CheckPattern(s: string) returns (ok: bool)
    ensures ok == RegexTest(s)
  {
    RegexTestIsRule(s);
    if |s| < MinLength || |s| > MaxLength {
      return false;
    }
    if IsSeparator(s[0]) || IsSeparator(s[|s| - 1]) {
      return false;
    }
    var i := 0;
    while i < |s|
      invariant 0 <= i <= |s|
      invariant forall k :: 0 <= k < i ==> InAlphabet(s[k])
      invariant forall k :: 0 < k < i ==> !(IsSeparator(s[k - 1]) && IsSeparator(s[k]))
    {
      if !InAlphabet(s[i]) {
        return false;
      }
      if i > 0 && IsSeparator(s[i - 1]) && IsSeparator(s[i]) {
        return false;
      }
      i := i + 1;
    }
    return true;
  }

  // ---------------------------------------------------------------------
  // Lowercasing
  // ---------------------------------------------------------------------

  /** `toLowerCase` on one character, ASCII letters only. */
  function LowerChar(c: char): (r: char)
    ensures !IsUpper(r)
    ensures IsUpper(c) || r == c
  {
    if IsUpper(c) then (c as int + ('a' as int - 'A' as int)) as char else c
  }

  predicate NoUpper(s: string) {
    forall i :: 0 <= i < |s| ==> !IsUpper(s[i])
  }

  /** `toLowerCase` on a string, character by character. */
  function ToLower(s: string): (r: string)
    ensures |r| == |s|
    ensures forall i :: 0 <= i < |s| ==> r[i] == LowerChar(s[i])
  {
    if s == [] then [] else [LowerChar(s[0])] + ToLower(s[1..])
  }

  /** A lowercased string holds no upper-case ASCII letter. */
  lemma ToLowerNoUpper(s: string)
    ensures NoUpper(ToLower(s))
  {
  }

  /** Lowercasing a lowercased string changes nothing. */
  lemma ToLowerIdempotent(s: string)
    ensures ToLower(ToLower(s)) == ToLower(s)
  {
  }

  /** Two strings whose characters agree, position by position, on being in the
      alphabet and on being separators satisfy the rule alike. */
  lemma RuleFollowsClasses(s: string, t: string)
    requires |s| == |t|
    requires forall i :: 0 <= i < |s| ==> (InAlphabet(s[i]) <==> InAlphabet(t[i]))
    requires forall i :: 0 <= i < |s| ==> (IsSeparator(s[i]) <==> IsSeparator(t[i]))
    ensures UsernameRule(s) <==> UsernameRule(t)
  {
    forall k | 0 < k < |s|
      ensures (IsSeparator(s[k - 1]) && IsSeparator(s[k])) <==> (IsSeparator(t[k - 1]) && IsSeparator(t[k]))
    {
      assert IsSeparator(s[k - 1]) <==> IsSeparator(t[k - 1]);
    }
  }

  /** Lowercasing neither adds nor removes alphabet characters or separators, so
      a raw input and its lowercase form are accepted alike. */
  lemma ToLowerKeepsRule(s: string)
    ensures RegexTest(ToLower(s)) <==> RegexTest(s)
  {
    var t := ToLower(s);
    RegexTestIsRule(s);
    RegexTestIsRule(t);
    forall i | 0 <= i < |s|
      ensures (InAlphabet(s[i]) <==> InAlphabet(t[i])) && (IsSeparator(s[i]) <==> IsSeparator(t[i]))
    {
      assert t[i] == LowerChar(s[i]);
    }
    RuleFollowsClasses(s, t);
  }
}
