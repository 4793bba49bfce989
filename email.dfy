/**
 * The e-mail pattern `^[^\s@]+@[^\s@]+\.[^\s@]+$` shared by the register,
 * sign-in and forgot-password forms, as a scan over the string, together
 * with the pattern's own reading as a reference and the proof that the two
 * accept the same strings.
 */
module EmailSyntax {
  import opened Text

  /** One `[^\s@]+` run: non-empty, no whitespace, no `@`. */
  predicate Atom(s: string) {
    s != [] && forall k :: 0 <= k < |s| ==> !IsSpace(s[k]) && s[k] != '@'
  }

  /**
   * The pattern read literally: the string splits at an `@` (index `i`) and a
   * later `.` (index `j`) into three `[^\s@]+` runs.
   */
  ghost predicate MatchesPattern(s: string) {
    exists i, j :: 0 < i && i + 1 < j && j + 1 < |s| && s[i] == '@' && s[j] == '.' &&
      Atom(s[..i]) && Atom(s[i + 1..j]) && Atom(s[j + 1..])
  }

  /** No character other than the one at index `i` is an `@`. */
  predicate OnlyAtSign(s: string, i: int) {
    forall k :: 0 <= k < |s| && k != i ==> s[k] != '@'
  }

  /** The part after index `i` has a `.` that is neither its first nor its last character. */
  predicate DotInsideAfter(s: string, i: nat) {
    exists j :: i + 1 < j < |s| - 1 && s[j] == '.'
  }

  /**
   * The characterization the validators evaluate: no whitespace, exactly one
   * `@`, something before it, and a `.` strictly inside the part after it.
   */
  predicate IsEmail(s: string) {
    && (forall k :: 0 <= k < |s| ==> !IsSpace(s[k]))
    && exists i :: 0 < i < |s| && s[i] == '@' && OnlyAtSign(s, i) && DotInsideAfter(s, i)
  }

  /** The scan accepts exactly the strings the pattern matches. */
  lemma IsEmailIffPattern(s: string)
    ensures IsEmail(s) <==> MatchesPattern(s)
  {
    if MatchesPattern(s) {
      PatternImpliesScan(s);
    }
    if IsEmail(s) {
      ScanImpliesPattern(s);
    }
  }

  lemma PatternImpliesScan(s: string)
    requires MatchesPattern(s)
    ensures IsEmail(s)
  {
    var i, j :| 0 < i && i + 1 < j && j + 1 < |s| && s[i] == '@' && s[j] == '.' &&
      Atom(s[..i]) && Atom(s[i + 1..j]) && Atom(s[j + 1..]);
    var a, b, c := s[..i], s[i + 1..j], s[j + 1..];
    forall k | 0 <= k < |s| ensures !IsSpace(s[k]) && (k != i ==> s[k] != '@') {
      if k < i {
        assert a[k] == s[k];
      } else if i < k < j {
        assert b[k - i - 1] == s[k];
      } else if j < k {
        assert c[k - j - 1] == s[k];
      }
    }
    assert DotInsideAfter(s, i);
  }

  lemma ScanImpliesPattern(s: string)
    requires IsEmail(s)
    ensures MatchesPattern(s)
  {
    var i :| 0 < i < |s| && s[i] == '@' && OnlyAtSign(s, i) && DotInsideAfter(s, i);
    var j :| i + 1 < j < |s| - 1 && s[j] == '.';
    var a, b, c := s[..i], s[i + 1..j], s[j + 1..];
    forall m | 0 <= m < |a| ensures !IsSpace(a[m]) && a[m] != '@' {
      assert a[m] == s[m];
    }
    forall m | 0 <= m < |b| ensures !IsSpace(b[m]) && b[m] != '@' {
      assert b[m] == s[i + 1 + m];
    }
    forall m | 0 <= m < |c| ensures !IsSpace(c[m]) && c[m] != '@' {
      assert c[m] == s[j + 1 + m];
    }
    assert Atom(a) && Atom(b) && Atom(c);
  }

  /** A matching address is never blank. */
  lemma EmailNotBlank(s: string)
    requires IsEmail(s)
    ensures !AllSpace(s)
  {
    var i :| 0 < i < |s| && s[i] == '@';
    assert !IsSpace(s[0]);
  }
}
