/**
 The e-mail check both forms run before building a message: the regular
 expression `^[^\s@]+@[^\s@]+\.[^\s@]+$`, and what it amounts to in plain
 terms.
 */
module Email {
  import opened Text

  /** `[^\s@]+`: a non-empty run of characters that are neither whitespace
      nor '@'. */
  predicate Run(t: string) {
    |t| > 0 && forall k :: 0 <= k < |t| ==> !IsWhitespace(t[k]) && t[k] != '@'
  }

  /** The regular expression, anchored at both ends: the text splits as
      run '@' run '.' run, for some position `i` of the '@' and `j` of the
      '.'. The middle run may itself hold dots; the expression matches as
      soon as one split works. */
  predicate MatchesEmailPattern(s: string) {
    exists i, j :: 0 < i < |s| && i + 1 < j < |s| - 1 &&
      s[i] == '@' && s[j] == '.' && Run(s[..i]) && Run(s[i + 1..j]) && Run(s[j + 1..])
  }

  /** '@' occurs in `s` at position `i` and nowhere else. */
  predicate OnlyAt(s: string, i: int) {
    forall k :: 0 <= k < |s| && s[k] == '@' ==> k == i
  }

  /** `d` has a '.' that is neither its first nor its last character. */
  predicate InnerDot(d: string) {
    exists k :: 0 < k < |d| - 1 && d[k] == '.'
  }

  /** The address shape in plain words: no whitespace, exactly one '@' with
      something before it, and after it a '.' that is neither the first nor
      the last character of the domain. */
  predicate WellFormedEmail(s: string) {
    NoWhitespace(s) &&
    exists i :: 0 < i < |s| && s[i] == '@' && OnlyAt(s, i) && InnerDot(s[i + 1..])
  }

  /** A match of the regular expression has the well-formed shape. */
  lemma PatternIsWellFormed(s: string)
    requires MatchesEmailPattern(s)
    ensures WellFormedEmail(s)
  {
    var i, j :| 0 < i < |s| && i + 1 < j < |s| - 1 &&
      s[i] == '@' && s[j] == '.' && Run(s[..i]) && Run(s[i + 1..j]) && Run(s[j + 1..]);
    forall k | 0 <= k < |s|
      ensures !IsWhitespace(s[k]) && (s[k] == '@' ==> k == i)
    {
      if k < i {
        assert s[k] == s[..i][k];
      } else if i < k < j {
        assert s[k] == s[i + 1..j][k - i - 1];
      } else if j < k {
        assert s[k] == s[j + 1..][k - j - 1];
      }
    }
    assert s[i + 1..][j - i - 1] == '.';
    assert InnerDot(s[i + 1..]);
  }

  /** A well-formed address is matched by the regular expression. */
  lemma WellFormedMatchesPattern(s: string)
    requires WellFormedEmail(s)
    ensures MatchesEmailPattern(s)
  {
    var i :| 0 < i < |s| && s[i] == '@' && OnlyAt(s, i) && InnerDot(s[i + 1..]);
    var d := s[i + 1..];
    var k :| 0 < k < |d| - 1 && d[k] == '.';
    var j := i + 1 + k;
    assert s[j] == '.';
    assert Run(s[..i]);
    assert Run(s[i + 1..j]);
    assert Run(s[j + 1..]);
  }

  /** The regular expression accepts exactly the well-formed addresses. */
  lemma EmailPatternIff(s: string)
    ensures MatchesEmailPattern(s) <==> WellFormedEmail(s)
  {
    if MatchesEmailPattern(s) {
      PatternIsWellFormed(s);
    }
    if WellFormedEmail(s) {
      WellFormedMatchesPattern(s);
    }
  }

  /** Text without '@' is rejected. */
  lemma NoAtRejected(s: string)
    requires forall k :: 0 <= k < |s| ==> s[k] != '@'
    ensures !MatchesEmailPattern(s)
  {
  }

  /** Text with two '@' is rejected. */
  lemma TwoAtsRejected(s: string, a: nat, b: nat)
    requires a < b < |s| && s[a] == '@' && s[b] == '@'
    ensures !MatchesEmailPattern(s)
  {
    EmailPatternIff(s);
  }

  /** Text whose part after its only '@' has no '.' is rejected. */
  lemma NoDotAfterAtRejected(s: string, i: nat)
    requires i < |s| && s[i] == '@'
    requires forall k :: i < k < |s| ==> s[k] != '.'
    ensures !MatchesEmailPattern(s)
  {
    EmailPatternIff(s);
  }

  /** The shortest accepted address, and the three ways of getting the shape
      wrong. */
  lemma EmailExamples()
    ensures MatchesEmailPattern("a@b.c")
    ensures !MatchesEmailPattern("ab.c")
    ensures !MatchesEmailPattern("a@b@c.d")
    ensures !MatchesEmailPattern("a@bc")
    ensures !MatchesEmailPattern("a b@c.d")
  {
    var ok := "a@b.c";
    assert ok[..1] == "a" && ok[2..3] == "b" && ok[4..] == "c";
    assert Run(ok[..1]) && Run(ok[2..3]) && Run(ok[4..]);
    assert ok[1] == '@' && ok[3] == '.';
    NoAtRejected("ab.c");
    TwoAtsRejected("a@b@c.d", 1, 3);
    NoDotAfterAtRejected("a@bc", 1);
    var spaced := "a b@c.d";
    EmailPatternIff(spaced);
    assert IsWhitespace(spaced[1]);
  }
}
